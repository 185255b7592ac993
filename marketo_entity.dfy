/** The Marketo entity layer of sync/marketo/entities.py. A Marketo entity
    holds one attribute per field of the schema Marketo describes, and knows
    the field it is identified by (`idField`: `id` for leads and roles, the
    external id for opportunities and companies). Marketo only lets a few
    fields be written, so the payload sent back keeps only those, with a
    default for the ones that must not be null. */
module MarketoEntity {
  import opened Values

  datatype EntityClass = Lead | Opportunity | Role | Company

  /** `entity_name`; a role lives under the opportunities endpoint. */
  function EntityName(c: EntityClass): (r: string)
    ensures c == Role <==> |r| > 14 && r[..14] == "opportunities/"
  {
    match c
    case Lead => "lead"
    case Opportunity => "opportunity"
    case Role => "opportunities/role"
    case Company => "company"
  }

  /** The fields every lead update sends, with their defaults. */
  function LeadFieldsToUpdate(): map<string, Value>
  {
    map["id" := Null, "firstName" := Null, "lastName" := Null, "email" := Str("unknown@unknown.com"),
        "title" := Null, "phone" := Null, "leadSource" := Null, "conversicaLeadOwnerEmail" := Null,
        "conversicaLeadOwnerFirstName" := Null, "conversicaLeadOwnerLastName" := Null,
        "pipedriveId" := Null, "leadStatus" := Null, "toDelete" := Bool(false), "leadScore" := Null,
        "mKTODateSQL" := Null, "leadCountry" := Null]
  }

  /** `_entity_fields_to_update`: the writable fields and their defaults. A
      lead linked to a company sends its company id, never its website and
      country, which Marketo refuses to update together with it. */
  function FieldsToUpdate(c: EntityClass, externalCompanyId: Value): (r: map<string, Value>)
    ensures c == Lead ==> ("externalCompanyId" in r <==> Truthy(externalCompanyId))
    ensures c == Lead ==> ("website" in r <==> !Truthy(externalCompanyId)) && ("country" in r <==> !Truthy(externalCompanyId))
    ensures c == Lead ==> "email" in r && r["email"] == Str("unknown@unknown.com")
    ensures c == Role ==> "isPrimary" in r && r["isPrimary"] == Bool(false)
    ensures c == Opportunity ==> "name" in r && r["name"] == Str("Default opportunity name")
  {
    match c
    case Lead =>
      if Truthy(externalCompanyId) then LeadFieldsToUpdate()["externalCompanyId" := Null]
      else LeadFieldsToUpdate()["website" := Null]["country" := Null]
    case Opportunity =>
      map["externalOpportunityId" := Null, "name" := Str("Default opportunity name"), "type" := Null,
          "description" := Null, "lastActivityDate" := Null, "isClosed" := Null, "isWon" := Null,
          "amount" := Null, "closeDate" := Null, "stage" := Null, "fiscalQuarter" := Null, "fiscalYear" := Null]
    case Role =>
      map["externalOpportunityId" := Null, "leadId" := Null, "role" := Null, "isPrimary" := Bool(false)]
    case Company =>
      map["externalCompanyId" := Null, "company" := Null, "billingStreet" := Null, "billingCity" := Null,
          "billingState" := Null, "billingCountry" := Null, "mainPhone" := Null, "industry" := Null,
          "annualRevenue" := Null, "numberOfEmployees" := Null]
  }

  /** What the Marketo describe endpoint returns for an entity other than a
      lead: its id field and its field names. */
  datatype Described = Described(idField: string, fieldNames: seq<string>)

  /** The Marketo API as the entities see it: the lead fields, the other
      entities' descriptions, objects looked up by a field, and saves. */
  datatype Client = Client(
    leadFields: seq<string>,
    describe: string -> seq<Described>,
    fetch: (string, Value, string, seq<string>) -> Data,
    put: (string, map<string, Value>, Value) -> Data)

  /** Whether Marketo describes no field for the entity. */
  predicate SchemaMissing(c: EntityClass, client: Client)
  {
    if c == Lead then client.leadFields == [] else client.describe(EntityName(c)) == []
  }

  /** The field names Marketo describes for the entity. */
  function SchemaNames(c: EntityClass, client: Client): seq<string>
  {
    if c == Lead then client.leadFields
    else if client.describe(EntityName(c)) == [] then []
    else client.describe(EntityName(c))[0].fieldNames
  }

  /** The field Marketo identifies the entity by: `id` for a lead. */
  function SchemaIdField(c: EntityClass, client: Client): string
    requires !SchemaMissing(c, client)
  {
    if c == Lead then "id" else client.describe(EntityName(c))[0].idField
  }

  /** The attributes after every pair of `data` was assigned in turn. */
  function Assigned(attrs: Record, data: Data): (r: Record)
    ensures attrs.Keys <= r.Keys
    ensures forall i :: 0 <= i < |data| ==> data[i].0 in r
    decreases |data|
  {
    if data == [] then attrs else Assigned(attrs, data[..|data| - 1])[data[|data| - 1].0 := data[|data| - 1].1]
  }

  /** Each key of the object holds the value of its last pair. */
  lemma {:induction false} AssignedLastWins(attrs: Record, data: Data, i: nat)
    requires i < |data| && forall j :: i < j < |data| ==> data[j].0 != data[i].0
    ensures Assigned(attrs, data)[data[i].0] == data[i].1
    decreases |data|
  {
    if i < |data| - 1 {
      var init := data[..|data| - 1];
      assert forall j :: i < j < |init| ==> init[j] == data[j];
      AssignedLastWins(attrs, init, i);
    }
  }

  /** `init(data)`: the pairs assigned, then `id` copied from the id field
      when that is another field; AttributeError if the entity lacks it. */
  function Initialized(attrs: Record, data: Data, idField: string): (r: Outcome<Record>)
    ensures r.Ok? && idField != "id" ==> "id" in r.value && idField in r.value && r.value["id"] == r.value[idField]
    ensures r.Raised? <==> idField != "id" && idField !in Assigned(attrs, data)
  {
    var a := Assigned(attrs, data);
    if idField == "id" then Ok(a)
    else if idField in a then Ok(a["id" := a[idField]])
    else Raised(AttributeError(idField))
  }

  /** `entity_data`: the writable fields of the schema, a None value
      replaced by the field's default. */
  function PayloadOf(c: EntityClass, fields: seq<string>, attrs: Record): (r: Outcome<map<string, Value>>)
    ensures c == Lead && "externalCompanyId" !in attrs ==> r == Raised(AttributeError("externalCompanyId"))
    ensures r.Ok? ==> forall k :: k in r.value <==> k in fields && k in FieldsToUpdate(c, Get(attrs, "externalCompanyId"))
  {
    if c == Lead && "externalCompanyId" !in attrs then Raised(AttributeError("externalCompanyId"))
    else
      var toUpdate := FieldsToUpdate(c, Get(attrs, "externalCompanyId"));
      Ok(map k | k in fields && k in toUpdate :: if Get(attrs, k) == Null then toUpdate[k] else Get(attrs, k))
  }

  /** A field with a default is never sent as None: a lead's email, a role's
      `isPrimary`, an opportunity's name. */
  lemma DefaultsNeverNull(c: EntityClass, fields: seq<string>, attrs: Record, k: string)
    requires PayloadOf(c, fields, attrs).Ok? && k in PayloadOf(c, fields, attrs).value
    requires (c == Lead && k == "email") || (c == Role && k == "isPrimary") || (c == Opportunity && k == "name")
    ensures PayloadOf(c, fields, attrs).value[k] != Null
  {
  }

  /** A lead never sends its company id together with its website or country. */
  lemma CompanyFieldsExclusive(fields: seq<string>, attrs: Record)
    requires PayloadOf(Lead, fields, attrs).Ok?
    ensures var p := PayloadOf(Lead, fields, attrs).value;
            !("externalCompanyId" in p && ("website" in p || "country" in p))
  {
  }

  /** A value that is set is sent as it is: only None takes the default. */
  lemma SetValuesSent(c: EntityClass, fields: seq<string>, attrs: Record, k: string)
    requires PayloadOf(c, fields, attrs).Ok? && k in PayloadOf(c, fields, attrs).value
    requires k in attrs && attrs[k] != Null
    ensures PayloadOf(c, fields, attrs).value[k] == attrs[k]
  {
  }

  class Entity {
    const cls: EntityClass
    /** `_fields`: the schema's field names, in order. */
    var fields: seq<string>
    /** `_id_field`: the field the entity is identified by. */
    var idField: string
    /** The instance attributes. */
    var attrs: Record

    /** The state `__init__` starts from: `self.id = None`. */
    constructor (c: EntityClass)
      ensures cls == c && fields == [] && idField == "id" && attrs == map["id" := Null]
    {
      cls := c;
      fields := [];
      idField := "id";
      attrs := map["id" := Null];
    }

    /** `_load_fields`: one None attribute per field of the schema; a lead's
      fields come from its own endpoint and its id field is `id`; an empty
      answer raises InitializationError. */
    method LoadFields(client: Client) returns (r: Outcome<()>)
      modifies this
      ensures r.Raised? <==> SchemaMissing(cls, client)
      ensures r.Raised? ==> r.exc == InitializationError(EntityName(cls))
      ensures fields == SchemaNames(cls, client)
      ensures attrs == old(attrs) + (map n | n in SchemaNames(cls, client) :: Null)
      ensures idField == if SchemaMissing(cls, client) then old(idField) else SchemaIdField(cls, client)
    {
      fields := [];
      var names: seq<string>;
      if cls == Lead {
        names := client.leadFields;
        if names == [] {
          assert (map n | n in names :: Null) == map[];
          return Raised(InitializationError(EntityName(cls)));
        }
        idField := "id";
      } else {
        var described := client.describe(EntityName(cls));
        if described == [] {
          assert (map n: string | n in [] :: Null) == map[];
          assert old(attrs) + map[] == old(attrs);
          return Raised(InitializationError(EntityName(cls)));
        }
        idField := described[0].idField;
        names := described[0].fieldNames;
      }
      RegisterNames(names);
      r := Ok(());
    }

    /** The loop of `_load_fields`: each name recorded and its attribute set to None. */
    method RegisterNames(names: seq<string>)
      modifies this
      ensures fields == names && attrs == old(attrs) + (map n | n in names :: Null) && idField == old(idField)
    {
      fields := [];
      var i := 0;
      while i < |names|
        invariant 0 <= i <= |names|
        invariant fields == names[..i] && idField == old(idField)
        invariant attrs == old(attrs) + (map n | n in names[..i] :: Null)
      {
        assert names[..i + 1] == names[..i] + [names[i]];
        fields := fields + [names[i]];
        attrs := attrs[names[i] := Null];
        i := i + 1;
      }
      assert names[..i] == names;
    }

    /** `init(data)`. */
    method Init(data: Data) returns (r: Outcome<()>)
      modifies this
      ensures r == if Initialized(old(attrs), data, idField).Ok? then Ok(()) else Raised(AttributeError(idField))
      ensures attrs == if r.Ok? then Initialized(old(attrs), data, idField).value else Assigned(old(attrs), data)
      ensures fields == old(fields) && idField == old(idField)
    {
      var i := 0;
      while i < |data|
        invariant 0 <= i <= |data|
        invariant attrs == Assigned(old(attrs), data[..i])
        invariant fields == old(fields) && idField == old(idField)
      {
        assert data[..i + 1][..i] == data[..i];
        attrs := attrs[data[i].0 := data[i].1];
        i := i + 1;
      }
      assert data[..i] == data;
      if idField != "id" {
        if idField !in attrs {
          return Raised(AttributeError(idField));
        }
        attrs := attrs["id" := attrs[idField]];
      }
      r := Ok(());
    }

    /** `_load(id_, id_field)`: the object Marketo returns for the id, looked
      up in the given field, initialises the entity; nothing happens for an
      empty id or field, or when Marketo returns nothing. */
    method Load(client: Client, id: Value, byField: string) returns (r: Outcome<()>)
      modifies this
      ensures var data := client.fetch(EntityName(cls), id, byField, old(fields));
              if Truthy(id) && byField != "" && data != [] then
                r == (if Initialized(old(attrs), data, idField).Ok? then Ok(()) else Raised(AttributeError(idField)))
                && attrs == (if r.Ok? then Initialized(old(attrs), data, idField).value else Assigned(old(attrs), data))
              else r == Ok(()) && attrs == old(attrs)
      ensures fields == old(fields) && idField == old(idField)
    {
      r := Ok(());
      if Truthy(id) && byField != "" {
        var data := client.fetch(EntityName(cls), id, byField, fields);
        if data != [] {
          r := Init(data);
        }
      }
    }

    /** `__init__` once the fields are loaded: with an id, the entity is
      loaded, by its own id field when it was given a plain `id`; with
      `load=False` the id is only stored in the given field, when the entity
      has that field. */
    method Start(client: Client, id: Value, byField: string, load: bool) returns (r: Outcome<()>)
      modifies this
      ensures !Truthy(id) ==> r == Ok(()) && attrs == old(attrs)
      ensures Truthy(id) && !load ==>
                r == Ok(()) && attrs == if byField != "" && byField in old(attrs) then old(attrs)[byField := id] else old(attrs)
      ensures Truthy(id) && load ==>
                var f := if byField == "id" && idField != "id" then idField else byField;
                var data := client.fetch(EntityName(cls), id, f, fields);
                attrs == if f != "" && data != [] then
                           (if Initialized(old(attrs), data, idField).Ok? then Initialized(old(attrs), data, idField).value
                            else Assigned(old(attrs), data))
                         else old(attrs)
      ensures fields == old(fields) && idField == old(idField)
    {
      r := Ok(());
      if Truthy(id) {
        if load {
          if byField == "id" && idField != "id" {
            r := Load(client, id, idField);
          } else {
            r := Load(client, id, byField);
          }
        } else if byField != "" && byField in attrs {
          attrs := attrs[byField := id];
        }
      }
    }

    /** `entity_data`. */
    function Payload(): Outcome<map<string, Value>>
      reads this
    {
      PayloadOf(cls, fields, attrs)
    }

    /** `save()`: the payload is sent with the entity's id and the entity
      takes what Marketo returns; an empty answer raises SavingError, and an
      answer without the id field raises AttributeError after its pairs were
      set. */
    method Save(client: Client) returns (r: Outcome<()>)
      modifies this
      ensures old(Payload()).Raised? ==> r == Raised(old(Payload()).exc) && attrs == old(attrs)
      ensures old(Payload()).Ok? ==>
                var answer := client.put(EntityName(cls), old(Payload()).value, Get(old(attrs), "id"));
                (answer == [] ==> r == Raised(SavingError(EntityName(cls))) && attrs == old(attrs))
                && (answer != [] && Initialized(old(attrs), answer, idField).Ok? ==>
                      r == Ok(()) && attrs == Initialized(old(attrs), answer, idField).value)
                && (answer != [] && Initialized(old(attrs), answer, idField).Raised? ==>
                      r == Raised(AttributeError(idField)) && attrs == Assigned(old(attrs), answer))
      ensures fields == old(fields) && idField == old(idField)
    {
      var payload := Payload();
      if payload.Raised? {
        return Raised(payload.exc);
      }
      var answer := client.put(EntityName(cls), payload.value, Get(attrs, "id"));
      if answer == [] {
        return Raised(SavingError(EntityName(cls)));
      }
      r := Init(answer);
    }

    /** `delete(id_field)`: the deletion Marketo is asked for, as
      (entity name, value, field): by the given field when the entity has
      it, by id otherwise. */
    function DeletionRequest(byField: string): (r: (string, Value, string))
      reads this
      ensures r.0 == EntityName(cls)
      ensures byField != "" && byField in attrs ==> r.1 == attrs[byField] && r.2 == byField
      ensures !(byField != "" && byField in attrs) ==> r.1 == Get(attrs, "id") && r.2 == "id"
    {
      if byField != "" && byField in attrs then (EntityName(cls), attrs[byField], byField)
      else (EntityName(cls), Get(attrs, "id"), "id")
    }
  }

  /** `Lead(client, id_, id_field, load)` and the like: the fields are
      loaded, whose absence raises, then the entity is started from the id. */
  method New(c: EntityClass, client: Client, id: Value, byField: string, load: bool) returns (r: Outcome<Entity>)
    ensures r.Ok? ==> fresh(r.value) && r.value.cls == c
    ensures (c == Lead && client.leadFields == []) || (c != Lead && client.describe(EntityName(c)) == []) ==>
              r == Raised(InitializationError(EntityName(c)))
    ensures r.Ok? ==> r.value.fields == if c == Lead then client.leadFields else client.describe(EntityName(c))[0].fieldNames
  {
    var e := new Entity(c);
    var loaded := e.LoadFields(client);
    if loaded.Raised? {
      return Raised(loaded.exc);
    }
    var started := e.Start(client, id, byField, load);
    if started.Raised? {
      return Raised(started.exc);
    }
    r := Ok(e);
  }

  /** A company saved from its answer is identified by its external id:
      after `init`, its `id` is the value of its id field. */
  lemma IdFollowsIdField(attrs: Record, data: Data, idField: string, i: nat)
    requires idField != "id" && i < |data| && data[i].0 == idField
    requires forall j :: i < j < |data| ==> data[j].0 != idField
    ensures Initialized(attrs, data, idField).Ok?
    ensures Initialized(attrs, data, idField).value["id"] == data[i].1
  {
    AssignedLastWins(attrs, data, i);
  }
}
