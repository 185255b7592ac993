/** The first Pipedrive resource layer, pipedrive/resources.py, which the
    first two versions of the synchronisation use. It registers fields like
    sync/pipedrive/resources.py, but keeps no option labels, sends no
    defaults for blank mandatory fields, takes the first result of a name
    search as the resource sought, and loads whatever object Pipedrive
    returns, deleted ones included. */
module EarliestPipedrive {
  import opened Values
  import P = PipedriveEntity
  import PR = PipedriveResources

  datatype ResourceClass = Person | Organization | Deal

  /** `resource_name`. */
  function ResourceName(c: ResourceClass): string
  {
    match c
    case Person => "person"
    case Organization => "organization"
    case Deal => "deal"
  }

  /** `resource_data`'s value for one key: a resource or an `{id: ...}`
      dictionary is reduced to its id; anything else, blank values included,
      is sent as it is. */
  function PayloadValue(attr: Value): (r: Value)
    ensures !attr.Obj? && !(attr.Dict? && "id" in attr.entries) ==> r == attr
  {
    if attr.Obj? then Attr(attr, "id")
    else if attr.Dict? && "id" in attr.entries then attr.entries["id"]
    else attr
  }

  /** A blank person name goes out blank, where the later layers send
      `Unknown Unknown`. */
  lemma NoDefaults(attr: Value)
    requires IsBlank(attr)
    ensures PayloadValue(attr) == attr
    ensures P.PayloadValue(P.Person, "name", attr) == Str("Unknown Unknown")
  {
  }

  /** The id `_load_data` fetches: the first result of the name search, or
      nothing when there is none; otherwise the id as given, whatever field
      was named. */
  function Target(c: ResourceClass, client: P.Client, id: Value, idField: string): (r: Option<Value>)
    ensures idField != "name" ==> r == Some(id)
    ensures idField == "name" ==> (r.None? <==> client.search(ResourceName(c), Show(id)) == [])
  {
    if idField == "name" then
      var hits := client.search(ResourceName(c), Show(id));
      if hits != [] then Some(hits[0].id) else None
    else Some(id)
  }

  /** The first result is taken, even when a later one has exactly the name
      and the first does not; sync/pipedrive/resources.py then finds nothing. */
  lemma FirstHitTaken(c: ResourceClass, client: P.Client, name: string)
    requires Strip(name) == name != "" && client.search(ResourceName(c), name) != []
    ensures Target(c, client, Str(name), "name") == Some(client.search(ResourceName(c), name)[0].id)
    ensures |client.search(ResourceName(c), name)| > 1 ==>
              PR.FoundByName(Str(name), t => client.search(ResourceName(c), t)) == Ok(Null)
  {
  }

  /** The attributes after `_load_data(id_, id_field)`: the object fetched
      is loaded whenever Pipedrive returns one. */
  function LoadedAttrs(c: ResourceClass, client: P.Client, attrs: Record, keys: map<string, string>,
                       id: Value, idField: string): Record
  {
    match Target(c, client, id, idField)
    case None => attrs
    case Some(target) =>
      var data := client.fetch(ResourceName(c), target);
      if data != [] then P.InitAttrs(attrs, keys, data, |data|) else attrs
  }

  /** A deleted resource is loaded like any other; the later layers skip it. */
  lemma DeletedResourceLoaded(c: ResourceClass, client: P.Client, attrs: Record, keys: map<string, string>, id: Value)
    requires client.fetch(ResourceName(c), id) != [] && !P.Active(client.fetch(ResourceName(c), id))
    ensures var data := client.fetch(ResourceName(c), id);
            LoadedAttrs(c, client, attrs, keys, id, "id") == P.InitAttrs(attrs, keys, data, |data|)
    ensures c == Organization ==> PR.LoadedAttrs(PR.Organization, client, attrs, keys, id, "id") == Ok(attrs)
  {
  }

  class Resource {
    const cls: ResourceClass
    /** `_field_keys`: registered name to key. */
    var fieldKeys: map<string, string>
    /** `_field_types`: key to field type. */
    var fieldTypes: map<string, string>
    /** The instance attributes, by key. */
    var attrs: Record

    /** The state `__init__` starts from: no attribute. */
    constructor (c: ResourceClass)
      ensures cls == c && fieldKeys == map[] && fieldTypes == map[] && attrs == map[]
    {
      cls := c;
      fieldKeys := map[];
      fieldTypes := map[];
      attrs := map[];
    }

    /** `__setattr__`: a registered name writes under its key. */
    method SetAttr(keyOrName: string, value: Value)
      modifies this
      ensures attrs == old(attrs)[P.Redirect(fieldKeys, keyOrName) := value]
      ensures fieldKeys == old(fieldKeys) && fieldTypes == old(fieldTypes)
    {
      var key := keyOrName;
      if keyOrName in fieldKeys {
        key := fieldKeys[keyOrName];
      }
      attrs := attrs[key := value];
    }

    /** `_load_fields`: every field under its snake-cased name, its attribute
      set to None; an empty schema raises InitializationError. */
    method LoadFields(fields: seq<P.FieldDef>) returns (r: Outcome<()>)
      modifies this
      ensures r == if fields == [] then Raised(InitializationError(ResourceName(cls))) else Ok(())
      ensures fieldKeys == PR.KeysOf(fields, |fields|) && fieldTypes == P.TypesOf(fields, |fields|)
      ensures attrs == PR.InitialAttrs(old(attrs), fields, |fields|)
    {
      fieldKeys := map[];
      fieldTypes := map[];
      if fields == [] {
        return Raised(InitializationError(ResourceName(cls)));
      }
      var i := 0;
      while i < |fields|
        invariant 0 <= i <= |fields|
        invariant fieldKeys == PR.KeysOf(fields, i) && fieldTypes == P.TypesOf(fields, i)
        invariant attrs == PR.InitialAttrs(old(attrs), fields, i)
      {
        RegisterField(fields, i);
        i := i + 1;
      }
      r := Ok(());
    }

    /** One iteration of `_load_fields`: field `i` registered under its
      snake-cased name, its type recorded, its attribute None. */
    method RegisterField(fields: seq<P.FieldDef>, i: nat)
      requires i < |fields|
      requires fieldKeys == PR.KeysOf(fields, i) && fieldTypes == P.TypesOf(fields, i)
      modifies this
      ensures fieldKeys == PR.KeysOf(fields, i + 1) && fieldTypes == P.TypesOf(fields, i + 1)
      ensures attrs == old(attrs)[PR.WrittenKey(fields, i) := Null]
    {
      var field := fields[i];
      fieldKeys := fieldKeys[P.NameOf(field) := field.key];
      fieldTypes := fieldTypes[field.key := field.fieldType];
      SetAttr(field.key, Null);
    }

    /** `getattr(resource, name)`: an attribute it holds, or the attribute
      under a registered name's key, as it is stored; anything else raises
      AttributeError. */
    function GetAttr(name: string): (r: Outcome<Value>)
      reads this
      ensures r.Ok? ==> (name in attrs && r.value == attrs[name])
                        || (name in fieldKeys && fieldKeys[name] in attrs && r.value == attrs[fieldKeys[name]])
      ensures r.Raised? <==> name !in attrs && !(name in fieldKeys && fieldKeys[name] != name && fieldKeys[name] in attrs)
    {
      if name in attrs then Ok(attrs[name])
      else if name in fieldKeys && fieldKeys[name] != name && fieldKeys[name] in attrs then Ok(attrs[fieldKeys[name]])
      else Raised(AttributeError(name))
    }

    /** `resource_data`: one value per registered key, or None when reading
      one of them raises. */
    function Payload(): (r: Option<map<string, Value>>)
      reads this
      ensures r.Some? <==> forall k :: k in fieldKeys.Values ==> GetAttr(k).Ok?
      ensures r.Some? ==> r.value.Keys == fieldKeys.Values
      ensures r.Some? ==> forall k :: k in r.value ==> r.value[k] == PayloadValue(GetAttr(k).value)
    {
      if forall k :: k in fieldKeys.Values ==> GetAttr(k).Ok? then
        Some(map k | k in fieldKeys.Values :: PayloadValue(GetAttr(k).value))
      else None
    }

    /** `resource_data`, with its loop over the registered fields. */
    method ResourceData() returns (data: Outcome<map<string, Value>>)
      ensures data.Ok? <==> Payload().Some?
      ensures data.Ok? ==> data.value == Payload().value
    {
      var todo := fieldKeys.Values;
      var m: map<string, Value> := map[];
      while todo != {}
        invariant todo <= fieldKeys.Values
        invariant forall k :: k in fieldKeys.Values - todo ==> GetAttr(k).Ok?
        invariant m == map k | k in fieldKeys.Values - todo :: PayloadValue(GetAttr(k).value)
        decreases |todo|
      {
        var k :| k in todo;
        var attr := GetAttr(k);
        if attr.Raised? {
          return Raised(attr.exc);
        }
        m := m[k := PayloadValue(attr.value)];
        todo := todo - {k};
      }
      assert fieldKeys.Values - todo == fieldKeys.Values;
      return Ok(m);
    }

    /** Every pair of an object Pipedrive returned assigned in turn, its
      value flattened. */
    method Init(data: Data)
      modifies this
      ensures attrs == P.InitAttrs(old(attrs), fieldKeys, data, |data|)
      ensures fieldKeys == old(fieldKeys) && fieldTypes == old(fieldTypes)
    {
      var i := 0;
      while i < |data|
        invariant 0 <= i <= |data|
        invariant attrs == P.InitAttrs(old(attrs), fieldKeys, data, i)
        invariant fieldKeys == old(fieldKeys) && fieldTypes == old(fieldTypes)
      {
        var v := P.GetDataValue(data[i].1);
        SetAttr(data[i].0, v);
        i := i + 1;
      }
    }

    /** `_load_data(id_, id_field)`. */
    method Load(client: P.Client, id: Value, idField: string)
      modifies this
      ensures attrs == LoadedAttrs(cls, client, old(attrs), fieldKeys, id, idField)
      ensures fieldKeys == old(fieldKeys) && fieldTypes == old(fieldTypes)
    {
      var target := id;
      if idField == "name" {
        var hits := client.search(ResourceName(cls), Show(id));
        if hits == [] {
          return;
        }
        target := hits[0].id;
      }
      var data := client.fetch(ResourceName(cls), target);
      if data != [] {
        Init(data);
      }
    }

    /** `save()`: the payload is sent with the resource's `id` (reading
      either may raise) and the resource takes what Pipedrive returns; an
      empty answer raises SavingError. */
    method Save(client: P.Client) returns (r: Outcome<()>)
      modifies this
      ensures old(Payload()).None? ==> r.Raised? && attrs == old(attrs)
      ensures old(Payload()).Some? && old(GetAttr("id")).Raised? ==> r == Raised(old(GetAttr("id")).exc) && attrs == old(attrs)
      ensures old(Payload()).Some? && old(GetAttr("id")).Ok? ==>
                var answer := client.put(ResourceName(cls), old(Payload()).value, old(GetAttr("id")).value);
                (answer == [] ==> r == Raised(SavingError(ResourceName(cls))) && attrs == old(attrs))
                && (answer != [] ==> r == Ok(()) && attrs == P.InitAttrs(old(attrs), fieldKeys, answer, |answer|))
      ensures fieldKeys == old(fieldKeys) && fieldTypes == old(fieldTypes)
    {
      var payload := ResourceData();
      if payload.Raised? {
        return Raised(payload.exc);
      }
      var id := GetAttr("id");
      if id.Raised? {
        return Raised(id.exc);
      }
      var answer := client.put(ResourceName(cls), payload.value, id.value);
      if answer == [] {
        return Raised(SavingError(ResourceName(cls)));
      }
      Init(answer);
      r := Ok(());
    }
  }

  /** `Person(client, id_, id_field)` and the like: the schema Pipedrive
    describes is loaded, whose absence raises, then the resource is loaded
    when it is given an id. */
  method New(c: ResourceClass, client: P.Client, id: Value, idField: string) returns (r: Outcome<Resource>)
    ensures r.Ok? ==> fresh(r.value) && r.value.cls == c
    ensures r.Raised? <==> client.fields(ResourceName(c)) == []
    ensures r.Ok? ==> var fields := client.fields(ResourceName(c));
                      r.value.fieldKeys == PR.KeysOf(fields, |fields|)
                      && r.value.attrs == if Truthy(id) then LoadedAttrs(c, client, PR.InitialAttrs(map[], fields, |fields|), r.value.fieldKeys, id, idField)
                                          else PR.InitialAttrs(map[], fields, |fields|)
  {
    var e := new Resource(c);
    var loaded := e.LoadFields(client.fields(ResourceName(c)));
    if loaded.Raised? {
      return Raised(loaded.exc);
    }
    if Truthy(id) {
      e.Load(client, id, idField);
    }
    r := Ok(e);
  }
}
