/** The first Marketo resource layer, marketo/resources.py, which the first
    two versions of the synchronisation use. Like sync/marketo/entities.py it
    holds one attribute per described field and knows the field the resource
    is identified by, but its payload replaces every falsy value (not only
    None) by the field's default, and a save refreshes only the id field and
    `id` from Marketo's answer. */
module MarketoResources {
  import opened Values
  import ME = MarketoEntity

  /** `_resource_fields_to_update`: the writable fields and their defaults. */
  function FieldsToUpdate(c: ME.EntityClass): (r: map<string, Value>)
    ensures c == ME.Lead ==> "id" in r && "toDelete" in r && r["toDelete"] == Bool(false) && "email" in r && r["email"] == Null
    ensures c == ME.Role ==> "isPrimary" in r && r["isPrimary"] == Bool(false)
    ensures c == ME.Opportunity || c == ME.Company ==> forall k :: k in r ==> r[k] == Null
  {
    match c
    case Lead =>
      map["id" := Null, "firstName" := Null, "lastName" := Null, "email" := Null, "externalCompanyId" := Null,
          "title" := Null, "phone" := Null, "leadSource" := Null, "conversicaLeadOwnerEmail" := Null,
          "conversicaLeadOwnerFirstName" := Null, "conversicaLeadOwnerLastName" := Null,
          "pipedriveId" := Null, "leadStatus" := Null, "toDelete" := Bool(false)]
    case Opportunity =>
      map["externalOpportunityId" := Null, "name" := Null, "type" := Null, "description" := Null,
          "lastActivityDate" := Null, "isClosed" := Null, "isWon" := Null, "amount" := Null,
          "closeDate" := Null, "stage" := Null, "fiscalQuarter" := Null, "fiscalYear" := Null]
    case Role =>
      map["externalOpportunityId" := Null, "leadId" := Null, "role" := Null, "isPrimary" := Bool(false)]
    case Company =>
      map["externalCompanyId" := Null, "company" := Null, "billingStreet" := Null, "billingCity" := Null,
          "billingState" := Null, "billingCountry" := Null, "mainPhone" := Null, "industry" := Null,
          "annualRevenue" := Null, "numberOfEmployees" := Null]
  }

  /** A lead sends no default email and always its company id, where the
      entity layer sends `unknown@unknown.com` and leaves the company id out
      when it is blank. */
  lemma LeadFieldsDiffer(externalCompanyId: Value)
    requires !Truthy(externalCompanyId)
    ensures FieldsToUpdate(ME.Lead)["email"] == Null && ME.FieldsToUpdate(ME.Lead, externalCompanyId)["email"] != Null
    ensures "externalCompanyId" in FieldsToUpdate(ME.Lead) && "externalCompanyId" !in ME.FieldsToUpdate(ME.Lead, externalCompanyId)
  {
  }

  /** `resource_data`: the writable fields of the schema, each with its value
      or, when that is falsy, the field's default. */
  function PayloadOf(c: ME.EntityClass, fields: seq<string>, attrs: Record): (r: map<string, Value>)
    ensures forall k :: k in r <==> k in fields && k in FieldsToUpdate(c)
    ensures forall k :: k in r ==> r[k] == Get(attrs, k) || r[k] == FieldsToUpdate(c)[k]
  {
    var toUpdate := FieldsToUpdate(c);
    map k | k in fields && k in toUpdate :: if Truthy(Get(attrs, k)) then Get(attrs, k) else toUpdate[k]
  }

  /** A falsy value is sent as the field's default: a lead score of 0, or an
      empty text, goes out as None, where the entity layer sends it as it is. */
  lemma FalsySentAsDefault(c: ME.EntityClass, fields: seq<string>, attrs: Record, k: string)
    requires k in fields && k in FieldsToUpdate(c) && k in attrs && !Truthy(attrs[k])
    ensures PayloadOf(c, fields, attrs)[k] == FieldsToUpdate(c)[k]
  {
  }

  /** A value that is not falsy is sent as it is. */
  lemma TruthySent(c: ME.EntityClass, fields: seq<string>, attrs: Record, k: string)
    requires k in fields && k in FieldsToUpdate(c) && Truthy(Get(attrs, k))
    ensures PayloadOf(c, fields, attrs)[k] == Get(attrs, k)
  {
  }

  /** A company whose employee count is 0 sends None here, 0 in the entity layer. */
  lemma ZeroEmployeesLost(fields: seq<string>, attrs: Record)
    requires "numberOfEmployees" in fields && Get(attrs, "numberOfEmployees") == Int(0)
    ensures PayloadOf(ME.Company, fields, attrs)["numberOfEmployees"] == Null
    ensures ME.PayloadOf(ME.Company, fields, attrs).Ok?
    ensures ME.PayloadOf(ME.Company, fields, attrs).value["numberOfEmployees"] == Int(0)
  {
  }

  /** The attributes after a save Marketo answered: the id field takes the
      value Marketo returned and, when it is another field, so does `id`;
      no other attribute changes. An answer without the id field raises. */
  function Saved(attrs: Record, answer: Data, idField: string): (r: Outcome<Record>)
    ensures r.Raised? <==> answer == [] || Lookup(answer, idField).None?
    ensures r.Ok? ==> idField in r.value && r.value[idField] == Lookup(answer, idField).value
    ensures r.Ok? ==> "id" in r.value && r.value["id"] == Lookup(answer, idField).value
    ensures r.Ok? ==> r.value.Keys == attrs.Keys + {idField, "id"}
    ensures r.Ok? ==> forall k :: k in attrs && k != idField && k != "id" ==> r.value[k] == attrs[k]
  {
    if answer != [] && Lookup(answer, idField).Some? then
      var v := Lookup(answer, idField).value;
      if idField != "id" then Ok(attrs[idField := v]["id" := v]) else Ok(attrs[idField := v])
    else Raised(SavingError("Save resource"))
  }

  /** What Marketo sends back beside the id is ignored, where the entity
      layer takes every pair of the answer. */
  lemma OtherAnswerFieldsIgnored(attrs: Record, answer: Data, idField: string, i: nat)
    requires i < |answer| && answer[i].0 != idField && answer[i].0 != "id" && answer[i].0 in attrs
    requires Lookup(answer, idField).Some?
    requires forall j :: i < j < |answer| ==> answer[j].0 != answer[i].0
    ensures Saved(attrs, answer, idField).Ok?
    ensures Saved(attrs, answer, idField).value[answer[i].0] == attrs[answer[i].0]
    ensures ME.Assigned(attrs, answer)[answer[i].0] == answer[i].1
  {
    ME.AssignedLastWins(attrs, answer, i);
  }

  class Resource {
    const cls: ME.EntityClass
    /** `_fields`: the schema's field names, in order. */
    var fields: seq<string>
    /** `_id_field`: the field the resource is identified by. */
    var idField: string
    /** The instance attributes. */
    var attrs: Record

    /** The state `__init__` starts from: no attribute. */
    constructor (c: ME.EntityClass)
      ensures cls == c && fields == [] && idField == "id" && attrs == map[]
    {
      cls := c;
      fields := [];
      idField := "id";
      attrs := map[];
    }

    /** `_load_fields`: one None attribute per field of the schema; a lead's
      fields come from its own endpoint and its id field is `id`; another
      resource identified by another field starts with `id` None; an empty
      answer raises InitializationError. */
    method LoadFields(client: ME.Client) returns (r: Outcome<()>)
      modifies this
      ensures r.Raised? <==> ME.SchemaMissing(cls, client)
      ensures r.Raised? ==> r.exc == InitializationError(ME.EntityName(cls)) && attrs == old(attrs) && idField == old(idField)
      ensures fields == ME.SchemaNames(cls, client)
      ensures r.Ok? ==>
                idField == ME.SchemaIdField(cls, client)
                && attrs == (if idField != "id" then old(attrs)["id" := Null] else old(attrs)) + (map n | n in fields :: Null)
    {
      fields := [];
      var names: seq<string>;
      if cls == ME.Lead {
        names := client.leadFields;
        if names == [] {
          return Raised(InitializationError(ME.EntityName(cls)));
        }
        idField := "id";
      } else {
        var described := client.describe(ME.EntityName(cls));
        if described == [] {
          return Raised(InitializationError(ME.EntityName(cls)));
        }
        idField := described[0].idField;
        if idField != "id" {
          attrs := attrs["id" := Null];
        }
        names := described[0].fieldNames;
      }
      RegisterNames(names);
      r := Ok(());
    }

    /** The loop of `_load_fields`: each name recorded and its attribute set to None. */
    method RegisterNames(names: seq<string>)
      modifies this
      ensures fields == names && attrs == old(attrs) + (map n | n in names :: Null) && idField == old(idField)
    {
      fields := [];
      var i := 0;
      while i < |names|
        invariant 0 <= i <= |names|
        invariant fields == names[..i] && idField == old(idField)
        invariant attrs == old(attrs) + (map n | n in names[..i] :: Null)
      {
        assert names[..i + 1] == names[..i] + [names[i]];
        fields := fields + [names[i]];
        attrs := attrs[names[i] := Null];
        i := i + 1;
      }
      assert names[..i] == names;
    }

    /** `_load_data(id_, id_field)`: the object Marketo returns for the id,
      looked up in the given field or else in the id field, is assigned pair
      by pair; `id` then copies the id field when that is another field,
      which raises AttributeError when the resource has no such attribute. */
    method Load(client: ME.Client, id: Value, byField: string) returns (r: Outcome<()>)
      modifies this
      ensures var f := if byField != "" then byField else idField;
              var data := client.fetch(ME.EntityName(cls), id, f, fields);
              if data != [] then
                r == (if ME.Initialized(old(attrs), data, idField).Ok? then Ok(()) else Raised(AttributeError(idField)))
                && attrs == (if r.Ok? then ME.Initialized(old(attrs), data, idField).value else ME.Assigned(old(attrs), data))
              else r == Ok(()) && attrs == old(attrs)
      ensures fields == old(fields) && idField == old(idField)
    {
      r := Ok(());
      var f := if byField != "" then byField else idField;
      var data := client.fetch(ME.EntityName(cls), id, f, fields);
      if data == [] {
        return;
      }
      var i := 0;
      while i < |data|
        invariant 0 <= i <= |data|
        invariant attrs == ME.Assigned(old(attrs), data[..i])
        invariant fields == old(fields) && idField == old(idField)
      {
        assert data[..i + 1][..i] == data[..i];
        attrs := attrs[data[i].0 := data[i].1];
        i := i + 1;
      }
      assert data[..i] == data;
      if idField != "id" {
        if idField !in attrs {
          return Raised(AttributeError(idField));
        }
        attrs := attrs["id" := attrs[idField]];
      }
    }

    /** `resource_data`. */
    function Payload(): map<string, Value>
      reads this
    {
      PayloadOf(cls, fields, attrs)
    }

    /** `resource_data`, with its loop over the fields. */
    method ResourceData() returns (data: map<string, Value>)
      ensures data == Payload()
    {
      var toUpdate := FieldsToUpdate(cls);
      data := map[];
      var i := 0;
      while i < |fields|
        invariant 0 <= i <= |fields|
        invariant data == PayloadOf(cls, fields[..i], attrs)
      {
        assert fields[..i + 1] == fields[..i] + [fields[i]];
        var key := fields[i];
        if key in toUpdate {
          var attr := Get(attrs, key);
          data := data[key := if Truthy(attr) then attr else toUpdate[key]];
        }
        i := i + 1;
      }
      assert fields[..i] == fields;
    }

    /** `save()`: the payload is sent with the resource's `id`, which raises
      AttributeError when the resource has none; the answer refreshes the id
      field and `id` only, and one without the id field raises SavingError. */
    method Save(client: ME.Client) returns (r: Outcome<()>)
      modifies this
      ensures "id" !in old(attrs) ==> r == Raised(AttributeError("id")) && attrs == old(attrs)
      ensures "id" in old(attrs) ==>
                var answer := client.put(ME.EntityName(cls), old(Payload()), old(attrs)["id"]);
                match Saved(old(attrs), answer, idField)
                case Raised(e) => r == Raised(e) && attrs == old(attrs)
                case Ok(a) => r == Ok(()) && attrs == a
      ensures fields == old(fields) && idField == old(idField)
    {
      var payload := ResourceData();
      if "id" !in attrs {
        return Raised(AttributeError("id"));
      }
      var answer := client.put(ME.EntityName(cls), payload, attrs["id"]);
      var v := Lookup(answer, idField);
      if answer == [] || v.None? {
        return Raised(SavingError("Save resource"));
      }
      attrs := attrs[idField := v.value];
      if idField != "id" {
        attrs := attrs["id" := v.value];
      }
      r := Ok(());
    }
  }

  /** `Lead(client, id_, id_field)` and the like: the fields are loaded,
    whose absence raises, then the resource is loaded when it is given an id. */
  method New(c: ME.EntityClass, client: ME.Client, id: Value, byField: string) returns (r: Outcome<Resource>)
    ensures r.Ok? ==> fresh(r.value) && r.value.cls == c && r.value.fields == ME.SchemaNames(c, client)
    ensures ME.SchemaMissing(c, client) ==> r == Raised(InitializationError(ME.EntityName(c)))
  {
    var e := new Resource(c);
    var loaded := e.LoadFields(client);
    if loaded.Raised? {
      return Raised(loaded.exc);
    }
    if Truthy(id) {
      var started := e.Load(client, id, byField);
      if started.Raised? {
        return Raised(started.exc);
      }
    }
    r := Ok(e);
  }
}
