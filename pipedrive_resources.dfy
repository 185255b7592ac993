/** The Pipedrive resource layer of sync/pipedrive/resources.py, which
    sync/pipedrive/entities.py later replaced. It reads the same schema, but
    registers every field under its snake-cased name, so of two fields whose
    names snake-case alike only the last is reachable by name; it finds a
    resource by name only when the search answers exactly one result; and a
    lookup by any field but `name` falls back to the value itself taken as an
    id. The instance starts without an `id` attribute. */
module PipedriveResources {
  import opened Values
  import P = PipedriveEntity

  datatype ResourceClass = Person | Organization | Deal | User | Stage | Pipeline

  /** The same class in the entity layer, whose name and defaults it shares. */
  function AsEntity(c: ResourceClass): (r: P.EntityClass)
    ensures r != P.Activity && r != P.Note
  {
    match c
    case Person => P.Person
    case Organization => P.Organization
    case Deal => P.Deal
    case User => P.User
    case Stage => P.Stage
    case Pipeline => P.Pipeline
  }

  /** `resource_name`. */
  function ResourceName(c: ResourceClass): string
  {
    P.EntityName(AsEntity(c))
  }

  // ---------------------------------------------------------------------
  // The field table

  /** `_field_keys` after the first `n` fields: each field under its
      snake-cased name. */
  function KeysOf(fields: seq<P.FieldDef>, n: nat): map<string, string>
    requires n <= |fields|
  {
    if n == 0 then map[] else KeysOf(fields, n - 1)[P.NameOf(fields[n - 1]) := fields[n - 1].key]
  }

  /** Every field's name is registered, and leads to the key of the last
      field with that name. */
  lemma {:induction false} LastNamedWins(fields: seq<P.FieldDef>, n: nat, i: nat)
    requires i < n <= |fields|
    requires forall j :: i < j < n ==> P.NameOf(fields[j]) != P.NameOf(fields[i])
    ensures P.NameOf(fields[i]) in KeysOf(fields, n) && KeysOf(fields, n)[P.NameOf(fields[i])] == fields[i].key
    decreases n
  {
    if i < n - 1 {
      LastNamedWins(fields, n - 1, i);
    }
  }

  /** Of two fields whose names snake-case alike, the earlier is not reached
      by the name, which leads to the later; the entity layer registers both
      under their keys instead. */
  lemma EarlierDuplicateShadowed(fields: seq<P.FieldDef>, i: nat, j: nat)
    requires i < j < |fields| && P.NameOf(fields[i]) == P.NameOf(fields[j]) && fields[i].key != fields[j].key
    requires forall k :: j < k < |fields| ==> P.NameOf(fields[k]) != P.NameOf(fields[j])
    ensures P.NameOf(fields[i]) in KeysOf(fields, |fields|)
    ensures KeysOf(fields, |fields|)[P.NameOf(fields[i])] == fields[j].key != fields[i].key
    ensures P.RegisteredName(fields, i) == fields[i].key && P.RegisteredName(fields, j) == fields[j].key
  {
    LastNamedWins(fields, |fields|, j);
    P.SharedNamesUseKeys(fields, i, j);
  }

  /** The attribute `_load_fields` sets for field `i`: its key, redirected
      by the names registered so far. */
  function WrittenKey(fields: seq<P.FieldDef>, i: nat): string
    requires i < |fields|
  {
    P.Redirect(KeysOf(fields, i + 1), fields[i].key)
  }

  /** The instance attributes after the first `n` fields were set to None. */
  function InitialAttrs(attrs: Record, fields: seq<P.FieldDef>, n: nat): (r: Record)
    requires n <= |fields|
    ensures forall i :: 0 <= i < n ==> WrittenKey(fields, i) in r && r[WrittenKey(fields, i)] == Null
    ensures attrs.Keys <= r.Keys
  {
    var keyOf := (i: nat) => if i < |fields| then WrittenKey(fields, i) else "";
    assert forall i :: 0 <= i < n ==> keyOf(i) == WrittenKey(fields, i);
    P.NullsAt(attrs, keyOf, n)
  }

  // ---------------------------------------------------------------------
  // Lookups

  /** `_find_by_name`: the stripped name is searched for and the id of the
      only result returned; nothing when the name is blank or the search finds
      no result or several. A name that is no text cannot be stripped. */
  function FoundByName(name: Value, search: string -> seq<P.Hit>): (r: Outcome<Value>)
    ensures r.Raised? <==> Truthy(name) && !name.Str?
    ensures r.Ok? && r.value != Null ==>
              name.Str? && Strip(name.s) != "" && |search(Strip(name.s))| == 1 && r.value == search(Strip(name.s))[0].id
    ensures name.Str? && Strip(name.s) != "" && |search(Strip(name.s))| == 1 ==> r == Ok(search(Strip(name.s))[0].id)
  {
    if !Truthy(name) then Ok(Null)
    else if !name.Str? then Raised(AttributeError("strip"))
    else if Strip(name.s) == "" then Ok(Null)
    else
      var hits := search(Strip(name.s));
      if |hits| == 1 then Ok(hits[0].id) else Ok(Null)
  }

  /** Where both layers search, a single result is found by both. */
  lemma UniqueHitFoundByBoth(name: string, search: string -> seq<P.Hit>)
    requires |Strip(name)| >= 2 && |search(Strip(name))| == 1
    ensures FoundByName(Str(name), search) == Ok(P.FoundByName(Str(name), search))
  {
  }

  /** Several results find nothing here, even when one of them has exactly
      the name; the entity layer takes the first such result. */
  lemma ExactMatchAmongSeveralMissed(name: string, search: string -> seq<P.Hit>)
    requires |Strip(name)| >= 2 && |search(Strip(name))| > 1
    requires P.FirstExactMatch(search(Strip(name)), Strip(name)).Some?
    ensures FoundByName(Str(name), search) == Ok(Null)
    ensures P.FoundByName(Str(name), search) == P.FirstExactMatch(search(Strip(name)), Strip(name)).value
  {
  }

  /** A name of a single character is searched for here, never by the entity layer. */
  lemma ShortNameSearched(name: string, search: string -> seq<P.Hit>)
    requires |Strip(name)| == 1 && |search(Strip(name))| == 1
    ensures FoundByName(Str(name), search) == Ok(search(Strip(name))[0].id)
    ensures P.FoundByName(Str(name), search) == Null
  {
  }

  /** `_find_by_filter`: only an organization answers, and only for
      `email_domain`: the id of the only organization the saved filter
      yields for the stripped domain. `query` answers the filter. */
  function FoundByFilter(c: ResourceClass, filterName: string, filterValue: Value,
                         query: (string, Value) -> seq<Value>): (r: Outcome<Value>)
    ensures r.Ok? && r.value != Null ==> c == Organization && filterName == "email_domain" && filterValue.Str?
    ensures r.Raised? <==> c == Organization && filterName == "email_domain" && Truthy(filterValue) && !filterValue.Str?
  {
    if c == Organization && filterName == "email_domain" && Truthy(filterValue) then
      if !filterValue.Str? then Raised(AttributeError("strip"))
      else if Strip(filterValue.s) == "" then Ok(Null)
      else
        var ids := query(filterName, Str(Strip(filterValue.s)));
        if |ids| == 1 then Ok(ids[0]) else Ok(Null)
    else Ok(Null)
  }

  /** The id `_load_data` looks for: by name, through a filter falling back
      to the value itself, or the value as given. */
  function Target(c: ResourceClass, client: P.Client, id: Value, idField: string): Outcome<Value>
  {
    if idField == "name" then FoundByName(id, t => client.search(ResourceName(c), t))
    else if idField != "" then
      match FoundByFilter(c, idField, id, client.filter)
      case Raised(e) => Raised(e)
      case Ok(found) => Ok(if Truthy(found) then found else id)
    else Ok(id)
  }

  /** A lookup by any other field takes the value as an id: an organization
      sought by `marketoid` is fetched with the Marketo id as its Pipedrive id,
      where the entity layer looks for it through its filter. */
  lemma OtherFieldsTakenAsId(c: ResourceClass, client: P.Client, id: Value, idField: string)
    requires idField != "name" && idField != "email_domain"
    ensures Target(c, client, id, idField) == Ok(id)
    ensures c == Organization && idField == "marketoid" && Truthy(id) && |client.filter(idField, id)| == 1 ==>
              P.Target(P.Organization, client, id, idField) == client.filter(idField, id)[0]
  {
  }

  /** A domain no single organization has falls back to the domain itself
      taken as an id. */
  lemma UnknownDomainTakenAsId(client: P.Client, domain: string)
    requires Strip(domain) != "" && |client.filter("email_domain", Str(Strip(domain)))| != 1
    ensures Target(Organization, client, Str(domain), "email_domain") == Ok(Str(domain))
  {
  }

  /** The attributes after `_load_data(id_, id_field)`: the object found is
      loaded unless it is empty or marked inactive. */
  function LoadedAttrs(c: ResourceClass, client: P.Client, attrs: Record, keys: map<string, string>,
                       id: Value, idField: string): Outcome<Record>
  {
    match Target(c, client, id, idField)
    case Raised(e) => Raised(e)
    case Ok(target) =>
      var data := client.fetch(ResourceName(c), target);
      if Truthy(target) && data != [] && P.Active(data) then Ok(P.InitAttrs(attrs, keys, data, |data|)) else Ok(attrs)
  }

  /** A deleted resource is not loaded, like in the entity layer. */
  lemma InactiveNotLoaded(c: ResourceClass, client: P.Client, attrs: Record, keys: map<string, string>, id: Value)
    requires !P.Active(client.fetch(ResourceName(c), id))
    ensures LoadedAttrs(c, client, attrs, keys, id, "id") == Ok(attrs)
  {
  }

  // ---------------------------------------------------------------------
  // The resource

  class Resource {
    const cls: ResourceClass
    /** `_field_keys`: registered name to key. */
    var fieldKeys: map<string, string>
    /** `_field_types`: key to field type. */
    var fieldTypes: map<string, string>
    /** `_field_options`: key to option id to label. */
    var fieldOptions: map<string, map<int, string>>
    /** The instance attributes, by key. */
    var attrs: Record

    /** The state `__init__` starts from: no attribute, not even `id`. */
    constructor (c: ResourceClass)
      ensures cls == c && fieldKeys == map[] && fieldTypes == map[] && fieldOptions == map[] && attrs == map[]
    {
      cls := c;
      fieldKeys := map[];
      fieldTypes := map[];
      fieldOptions := map[];
      attrs := map[];
    }

    /** `__setattr__`: a registered name writes under its key. */
    method SetAttr(keyOrName: string, value: Value)
      modifies this
      ensures attrs == old(attrs)[P.Redirect(fieldKeys, keyOrName) := value]
      ensures fieldKeys == old(fieldKeys) && fieldTypes == old(fieldTypes) && fieldOptions == old(fieldOptions)
    {
      var key := keyOrName;
      if keyOrName in fieldKeys {
        key := fieldKeys[keyOrName];
      }
      attrs := attrs[key := value];
    }

    /** `_load_fields` given the schema the client returned: an empty schema
      raises InitializationError. */
    method LoadFields(fields: seq<P.FieldDef>) returns (r: Outcome<()>)
      modifies this
      ensures r == if fields == [] then Raised(InitializationError(ResourceName(cls))) else Ok(())
      ensures fieldKeys == KeysOf(fields, |fields|) && fieldTypes == P.TypesOf(fields, |fields|)
      ensures fieldOptions == P.OptionsOf(fields, |fields|)
      ensures attrs == InitialAttrs(old(attrs), fields, |fields|)
    {
      fieldKeys := map[];
      fieldTypes := map[];
      fieldOptions := map[];
      if fields == [] {
        return Raised(InitializationError(ResourceName(cls)));
      }
      var i := 0;
      while i < |fields|
        invariant 0 <= i <= |fields|
        invariant fieldKeys == KeysOf(fields, i) && fieldTypes == P.TypesOf(fields, i)
        invariant fieldOptions == P.OptionsOf(fields, i)
        invariant attrs == InitialAttrs(old(attrs), fields, i)
      {
        RegisterField(fields, i);
        i := i + 1;
      }
      r := Ok(());
    }

    /** One iteration of `_load_fields`: field `i` registered under its
      snake-cased name, its type and options recorded, its attribute None. */
    method RegisterField(fields: seq<P.FieldDef>, i: nat)
      requires i < |fields|
      requires fieldKeys == KeysOf(fields, i) && fieldTypes == P.TypesOf(fields, i) && fieldOptions == P.OptionsOf(fields, i)
      modifies this
      ensures fieldKeys == KeysOf(fields, i + 1) && fieldTypes == P.TypesOf(fields, i + 1)
      ensures fieldOptions == P.OptionsOf(fields, i + 1)
      ensures attrs == old(attrs)[WrittenKey(fields, i) := Null]
    {
      var field := fields[i];
      fieldKeys := fieldKeys[P.NameOf(field) := field.key];
      fieldTypes := fieldTypes[field.key := field.fieldType];
      if field.options.Some? {
        LoadOptions(field.key, field.options.value);
      }
      SetAttr(field.key, Null);
    }

    /** The options of one field, read into a fresh dictionary. */
    method LoadOptions(key: string, opts: seq<(int, string)>)
      modifies this
      ensures fieldOptions == old(fieldOptions)[key := P.OptionMap(opts)]
      ensures fieldKeys == old(fieldKeys) && fieldTypes == old(fieldTypes) && attrs == old(attrs)
    {
      fieldOptions := fieldOptions[key := map[]];
      var j := 0;
      while j < |opts|
        invariant 0 <= j <= |opts|
        invariant fieldOptions == old(fieldOptions)[key := P.OptionMap(opts[..j])]
        invariant fieldKeys == old(fieldKeys) && fieldTypes == old(fieldTypes) && attrs == old(attrs)
      {
        assert opts[..j + 1][..j] == opts[..j];
        fieldOptions := fieldOptions[key := fieldOptions[key][opts[j].0 := opts[j].1]];
        j := j + 1;
      }
      assert opts[..j] == opts;
    }

    /** `Stage._load_fields` and `Pipeline._load_fields`: a fixed list of
      fields, each under its own name; the options are left as they were. */
    method LoadFixedFields(names: seq<string>)
      modifies this
      ensures fieldKeys == map n | n in names :: n
      ensures fieldTypes == map[] && fieldOptions == old(fieldOptions)
      ensures attrs == old(attrs) + map n | n in names :: Null
    {
      fieldKeys := map[];
      fieldTypes := map[];
      var i := 0;
      while i < |names|
        invariant 0 <= i <= |names|
        invariant fieldKeys == map n | n in names[..i] :: n
        invariant fieldTypes == map[] && fieldOptions == old(fieldOptions)
        invariant attrs == old(attrs) + map n | n in names[..i] :: Null
      {
        assert names[..i + 1] == names[..i] + [names[i]];
        P.FixedNamesStep(old(attrs), names[..i], names[..i + 1], names[i]);
        fieldKeys := fieldKeys[names[i] := names[i]];
        assert P.Redirect(fieldKeys, names[i]) == names[i];
        SetAttr(names[i], Null);
        i := i + 1;
      }
      assert names[..i] == names;
    }

    /** `getattr(resource, name)`: an attribute it holds is returned as is; a
      registered name is read through its key, an option field's value
      decoded into its label; anything else raises AttributeError. */
    function GetAttr(name: string): (r: Outcome<Value>)
      reads this
      ensures name in attrs ==> r == Ok(attrs[name])
      ensures (r.Raised? && r.exc.AttributeError?) <==>
                name !in attrs && !(name in fieldKeys && fieldKeys[name] != name && fieldKeys[name] in attrs)
    {
      if name in attrs then Ok(attrs[name])
      else if name in fieldKeys && fieldKeys[name] != name && fieldKeys[name] in attrs then
        var key := fieldKeys[name];
        var attr := attrs[key];
        if key in fieldOptions && Truthy(attr) then P.Decode(fieldOptions[key], attr) else Ok(attr)
      else Raised(AttributeError(name))
    }

    /** `resource_data`: one value per registered key, a blank value replaced
      by the class default, a resource or `{id: ...}` by its id; None when
      reading one of them raises. */
    function Payload(): (r: Option<map<string, Value>>)
      reads this
      ensures r.Some? <==> forall k :: k in fieldKeys.Values ==> GetAttr(k).Ok?
      ensures r.Some? ==> r.value.Keys == fieldKeys.Values
      ensures r.Some? ==> forall k :: k in r.value ==> r.value[k] == P.PayloadValue(AsEntity(cls), k, GetAttr(k).value)
    {
      if forall k :: k in fieldKeys.Values ==> GetAttr(k).Ok? then
        Some(map k | k in fieldKeys.Values :: P.PayloadValue(AsEntity(cls), k, GetAttr(k).value))
      else None
    }

    /** `resource_data`, with its loop over the registered fields. */
    method ResourceData() returns (data: Outcome<map<string, Value>>)
      ensures data.Ok? <==> Payload().Some?
      ensures data.Ok? ==> data.value == Payload().value
      ensures data.Raised? ==> exists k :: k in fieldKeys.Values && GetAttr(k) == Raised(data.exc)
    {
      var todo := fieldKeys.Values;
      var m: map<string, Value> := map[];
      while todo != {}
        invariant todo <= fieldKeys.Values
        invariant forall k :: k in fieldKeys.Values - todo ==> GetAttr(k).Ok?
        invariant m == map k | k in fieldKeys.Values - todo :: P.PayloadValue(AsEntity(cls), k, GetAttr(k).value)
        decreases |todo|
      {
        var k :| k in todo;
        var attr := GetAttr(k);
        if attr.Raised? {
          return Raised(attr.exc);
        }
        m := m[k := P.PayloadValue(AsEntity(cls), k, attr.value)];
        todo := todo - {k};
      }
      assert fieldKeys.Values - todo == fieldKeys.Values;
      return Ok(m);
    }

    /** Every pair of an object Pipedrive returned assigned in turn, its
      value flattened. */
    method Init(data: Data)
      modifies this
      ensures attrs == P.InitAttrs(old(attrs), fieldKeys, data, |data|)
      ensures fieldKeys == old(fieldKeys) && fieldTypes == old(fieldTypes) && fieldOptions == old(fieldOptions)
    {
      var i := 0;
      while i < |data|
        invariant 0 <= i <= |data|
        invariant attrs == P.InitAttrs(old(attrs), fieldKeys, data, i)
        invariant fieldKeys == old(fieldKeys) && fieldTypes == old(fieldTypes) && fieldOptions == old(fieldOptions)
      {
        var v := P.GetDataValue(data[i].1);
        SetAttr(data[i].0, v);
        i := i + 1;
      }
    }

    /** `_load_data(id_, id_field)`. */
    method Load(client: P.Client, id: Value, idField: string) returns (r: Outcome<()>)
      modifies this
      ensures LoadedAttrs(cls, client, old(attrs), fieldKeys, id, idField).Raised? ==>
                r == Raised(LoadedAttrs(cls, client, old(attrs), fieldKeys, id, idField).exc) && attrs == old(attrs)
      ensures LoadedAttrs(cls, client, old(attrs), fieldKeys, id, idField).Ok? ==>
                r == Ok(()) && attrs == LoadedAttrs(cls, client, old(attrs), fieldKeys, id, idField).value
      ensures fieldKeys == old(fieldKeys) && fieldTypes == old(fieldTypes) && fieldOptions == old(fieldOptions)
    {
      var target := id;
      if idField == "name" {
        var found := FoundByName(id, t => client.search(ResourceName(cls), t));
        if found.Raised? {
          return Raised(found.exc);
        }
        target := found.value;
      } else if idField != "" {
        var found := FoundByFilter(cls, idField, id, client.filter);
        if found.Raised? {
          return Raised(found.exc);
        }
        if Truthy(found.value) {
          target := found.value;
        }
      }
      if Truthy(target) {
        var data := client.fetch(ResourceName(cls), target);
        if data != [] && P.Active(data) {
          Init(data);
        }
      }
      r := Ok(());
    }

    /** `save()`: the payload is sent with the resource's `id` (reading
      either may raise) and the resource takes what Pipedrive returns; an
      empty answer raises SavingError. */
    method Save(client: P.Client) returns (r: Outcome<()>)
      modifies this
      ensures old(Payload()).None? ==> r.Raised? && attrs == old(attrs)
      ensures old(Payload()).Some? && old(GetAttr("id")).Raised? ==> r == Raised(old(GetAttr("id")).exc) && attrs == old(attrs)
      ensures old(Payload()).Some? && old(GetAttr("id")).Ok? ==>
                var answer := client.put(ResourceName(cls), old(Payload()).value, old(GetAttr("id")).value);
                (answer == [] ==> r == Raised(SavingError(ResourceName(cls))) && attrs == old(attrs))
                && (answer != [] ==> r == Ok(()) && attrs == P.InitAttrs(old(attrs), fieldKeys, answer, |answer|))
      ensures fieldKeys == old(fieldKeys) && fieldTypes == old(fieldTypes) && fieldOptions == old(fieldOptions)
    {
      var payload := ResourceData();
      if payload.Raised? {
        return Raised(payload.exc);
      }
      var id := GetAttr("id");
      if id.Raised? {
        return Raised(id.exc);
      }
      var answer := client.put(ResourceName(cls), payload.value, id.value);
      if answer == [] {
        return Raised(SavingError(ResourceName(cls)));
      }
      Init(answer);
      r := Ok(());
    }
  }

  /** `Person(client, id_, id_field)` and the like: the fields are loaded (a
    fixed list for stages and pipelines, the schema Pipedrive describes for
    the others, whose absence raises), then the resource is loaded when it
    is given an id. */
  method New(c: ResourceClass, client: P.Client, id: Value, idField: string) returns (r: Outcome<Resource>)
    ensures r.Ok? ==> fresh(r.value) && r.value.cls == c
    ensures c != Stage && c != Pipeline && client.fields(ResourceName(c)) == [] ==>
              r == Raised(InitializationError(ResourceName(c)))
    ensures r.Ok? && c == Stage ==> r.value.fieldKeys == map n | n in P.StageFields() :: n
    ensures r.Ok? && c == Pipeline ==> r.value.fieldKeys == map n | n in P.PipelineFields() :: n
    ensures r.Ok? && c != Stage && c != Pipeline ==>
              var fields := client.fields(ResourceName(c));
              r.value.fieldKeys == KeysOf(fields, |fields|) && r.value.fieldTypes == P.TypesOf(fields, |fields|)
              && r.value.fieldOptions == P.OptionsOf(fields, |fields|)
  {
    var e := new Resource(c);
    if c == Stage {
      e.LoadFixedFields(P.StageFields());
    } else if c == Pipeline {
      e.LoadFixedFields(P.PipelineFields());
    } else {
      var loaded := e.LoadFields(client.fields(ResourceName(c)));
      if loaded.Raised? {
        return Raised(loaded.exc);
      }
    }
    if Truthy(id) {
      var loaded := e.Load(client, id, idField);
      if loaded.Raised? {
        return Raised(loaded.exc);
      }
    }
    r := Ok(e);
  }

  /** A resource whose schema lacks `id` cannot be saved: reading its id
      raises, where the entity layer, which always sets `id`, would create it. */
  lemma SaveWithoutIdRaises(e: Resource)
    requires "id" !in e.attrs && "id" !in e.fieldKeys
    ensures e.GetAttr("id") == Raised(AttributeError("id"))
  {
  }
}
