/** The Pipedrive entity layer of sync/pipedrive/entities.py. An entity
    learns its fields from the schema Pipedrive describes (`_load_fields`):
    each field is reached by its snake-cased name, which leads to its key
    (custom fields have opaque keys), or by its key alone when several fields
    share a name. Assignments by name land on the key, with Pipedrive's
    `{value: ...}` and primary-list wrappers removed; reads by name decode
    option fields into their labels; the payload sent back holds one value
    per key, with per-class defaults for the mandatory fields. */
module PipedriveEntity {
  import opened Values
  import opened SnakeCase

  datatype EntityClass = Person | Organization | Deal | User | Activity | Stage | Pipeline | Note

  /** `entity_name`: the class name in lower case. */
  function EntityName(c: EntityClass): string
  {
    match c
    case Person => "person"
    case Organization => "organization"
    case Deal => "deal"
    case User => "user"
    case Activity => "activity"
    case Stage => "stage"
    case Pipeline => "pipeline"
    case Note => "note"
  }

  /** `_field_defaults`: the values a mandatory field is sent with when empty. */
  function Defaults(c: EntityClass): (d: map<string, Value>)
    ensures forall k :: k in d ==> d[k].Str? && d[k].s != ""
  {
    match c
    case Person => map["name" := Str("Unknown Unknown")]
    case Organization => map["name" := Str("Default organization name")]
    case Deal => map["title" := Str("Default deal title")]
    case _ => map[]
  }

  // ---------------------------------------------------------------------
  // The field table

  /** One field of the schema: its key, its display name, its type and, for
      an option field, its options as (id, label) pairs. */
  datatype FieldDef = FieldDef(key: string, name: string, fieldType: string, options: Option<seq<(int, string)>>)

  /** The snake-cased name of a field. */
  function NameOf(f: FieldDef): string
  {
    ToSnakeCase(f.name)
  }

  /** How many of the first `m` fields of the schema have the snake-cased name `n`. */
  function CountIn(fields: seq<FieldDef>, n: string, m: nat): nat
    requires m <= |fields|
  {
    if m == 0 then 0 else CountIn(fields, n, m - 1) + (if NameOf(fields[m - 1]) == n then 1 else 0)
  }

  /** How many fields of the schema have the snake-cased name `n`. */
  function CountName(fields: seq<FieldDef>, n: string): nat
  {
    CountIn(fields, n, |fields|)
  }

  /** The name field `i` is registered under: its snake-cased name when no
      other field shares it, its key otherwise. */
  function RegisteredName(fields: seq<FieldDef>, i: nat): string
    requires i < |fields|
  {
    var n := NameOf(fields[i]);
    if CountName(fields, n) < 2 then n else fields[i].key
  }

  /** `_field_keys` after the first `n` fields. */
  function KeysOf(fields: seq<FieldDef>, n: nat): (m: map<string, string>)
    requires n <= |fields|
  {
    if n == 0 then map[] else KeysOf(fields, n - 1)[RegisteredName(fields, n - 1) := fields[n - 1].key]
  }

  /** `_field_types` after the first `n` fields. */
  function TypesOf(fields: seq<FieldDef>, n: nat): map<string, string>
    requires n <= |fields|
  {
    if n == 0 then map[] else TypesOf(fields, n - 1)[fields[n - 1].key := fields[n - 1].fieldType]
  }

  /** The option ids of a field mapped to their labels (a later id wins). */
  function OptionMap(opts: seq<(int, string)>): (m: map<int, string>)
    ensures forall k :: k in m <==> exists i :: 0 <= i < |opts| && opts[i].0 == k
    decreases |opts|
  {
    if opts == [] then map[]
    else
      var init := opts[..|opts| - 1];
      assert forall i :: 0 <= i < |init| ==> init[i] == opts[i];
      OptionMap(init)[opts[|opts| - 1].0 := opts[|opts| - 1].1]
  }

  /** `_field_options` after the first `n` fields. */
  function OptionsOf(fields: seq<FieldDef>, n: nat): map<string, map<int, string>>
    requires n <= |fields|
  {
    if n == 0 then map[]
    else if fields[n - 1].options.Some? then OptionsOf(fields, n - 1)[fields[n - 1].key := OptionMap(fields[n - 1].options.value)]
    else OptionsOf(fields, n - 1)
  }

  /** `__setattr__` writes under the key when it is given a registered name. */
  function Redirect(keys: map<string, string>, keyOrName: string): string
  {
    if keyOrName in keys then keys[keyOrName] else keyOrName
  }

  /** The attribute `_load_fields` sets for field `i`: its key, redirected
      by the names registered so far. */
  function WrittenKey(fields: seq<FieldDef>, i: nat): string
    requires i < |fields|
  {
    Redirect(KeysOf(fields, i + 1), fields[i].key)
  }

  /** The attributes after `keyOf(0)`, ..., `keyOf(n - 1)` were set to None
      in turn, as the loops of `_load_fields` do: each of those keys holds
      None, and no attribute is lost. */
  function NullsAt(attrs: Record, keyOf: nat -> string, n: nat): (r: Record)
    ensures forall i :: 0 <= i < n ==> keyOf(i) in r && r[keyOf(i)] == Null
    ensures attrs.Keys <= r.Keys
  {
    if n == 0 then attrs else NullsAt(attrs, keyOf, n - 1)[keyOf(n - 1) := Null]
  }

  /** The instance attributes after the first `n` fields were set to None:
      every attribute written holds None, and the others keep their values. */
  function InitialAttrs(attrs: Record, fields: seq<FieldDef>, n: nat): (r: Record)
    requires n <= |fields|
    ensures forall i :: 0 <= i < n ==> WrittenKey(fields, i) in r && r[WrittenKey(fields, i)] == Null
    ensures attrs.Keys <= r.Keys
  {
    var keyOf := (i: nat) => if i < |fields| then WrittenKey(fields, i) else "";
    assert forall i :: 0 <= i < n ==> keyOf(i) == WrittenKey(fields, i);
    NullsAt(attrs, keyOf, n)
  }

  /** Every field is registered, under its own name or key, and each
      registered name leads to the key of the last field registered under it. */
  lemma KeysOfRegistration(fields: seq<FieldDef>, n: nat)
    requires n <= |fields|
    ensures forall i :: 0 <= i < n ==> RegisteredName(fields, i) in KeysOf(fields, n)
    ensures forall k :: k in KeysOf(fields, n) ==>
              exists i :: 0 <= i < n && RegisteredName(fields, i) == k && fields[i].key == KeysOf(fields, n)[k]
  {
    NamesRegistered(fields, n);
    forall k | k in KeysOf(fields, n)
      ensures exists i :: 0 <= i < n && RegisteredName(fields, i) == k && fields[i].key == KeysOf(fields, n)[k]
    {
      KeysOfWitness(fields, n, k);
    }
  }

  /** Every field's registered name is a key of `_field_keys`. */
  lemma {:induction false} NamesRegistered(fields: seq<FieldDef>, n: nat)
    requires n <= |fields|
    ensures forall i :: 0 <= i < n ==> RegisteredName(fields, i) in KeysOf(fields, n)
    decreases n
  {
    if n > 0 {
      NamesRegistered(fields, n - 1);
      assert KeysOf(fields, n) == KeysOf(fields, n - 1)[RegisteredName(fields, n - 1) := fields[n - 1].key];
    }
  }

  /** A registered name has a witness: the last field registered under it. */
  lemma {:induction false} KeysOfWitness(fields: seq<FieldDef>, n: nat, k: string)
    requires n <= |fields| && k in KeysOf(fields, n)
    ensures exists i :: 0 <= i < n && RegisteredName(fields, i) == k && fields[i].key == KeysOf(fields, n)[k]
    decreases n
  {
    var prev := KeysOf(fields, n - 1);
    var last := RegisteredName(fields, n - 1);
    assert KeysOf(fields, n) == prev[last := fields[n - 1].key];
    if k != last {
      KeysOfWitness(fields, n - 1, k);
      var i :| 0 <= i < n - 1 && RegisteredName(fields, i) == k && fields[i].key == prev[k];
      assert fields[i].key == KeysOf(fields, n)[k];
    }
  }

  /** The last field registered under a name is the one it leads to. */
  lemma {:induction false} LastRegistrationWins(fields: seq<FieldDef>, n: nat, i: nat)
    requires i < n <= |fields|
    requires forall j :: i < j < n ==> RegisteredName(fields, j) != RegisteredName(fields, i)
    ensures RegisteredName(fields, i) in KeysOf(fields, n) && KeysOf(fields, n)[RegisteredName(fields, i)] == fields[i].key
    decreases n
  {
    if i < n - 1 {
      LastRegistrationWins(fields, n - 1, i);
    }
  }

  /** Counting a name sees every field that has it. */
  lemma {:induction false} CountInAtLeastOne(fields: seq<FieldDef>, i: nat, m: nat)
    requires i < m <= |fields|
    ensures CountIn(fields, NameOf(fields[i]), m) >= 1
    decreases m
  {
    if i < m - 1 {
      CountInAtLeastOne(fields, i, m - 1);
    }
  }

  lemma {:induction false} CountInAtLeastTwo(fields: seq<FieldDef>, i: nat, j: nat, m: nat)
    requires i < j < m <= |fields| && NameOf(fields[i]) == NameOf(fields[j])
    ensures CountIn(fields, NameOf(fields[i]), m) >= 2
    decreases m
  {
    var n := NameOf(fields[i]);
    if j < m - 1 {
      CountInAtLeastTwo(fields, i, j, m - 1);
      assert CountIn(fields, n, m) >= CountIn(fields, n, m - 1);
    } else {
      CountInAtLeastOne(fields, i, m - 1);
      assert CountIn(fields, n, m) == CountIn(fields, n, m - 1) + 1;
    }
  }

  lemma {:induction false} CountInAtMostOne(fields: seq<FieldDef>, i: nat, m: nat)
    requires i < |fields| && m <= |fields|
    requires forall j :: 0 <= j < |fields| && j != i ==> NameOf(fields[j]) != NameOf(fields[i])
    ensures CountIn(fields, NameOf(fields[i]), m) <= (if i < m then 1 else 0)
    decreases m
  {
    if m > 0 {
      CountInAtMostOne(fields, i, m - 1);
    }
  }

  /** Two fields whose names snake-case alike are both registered under their
      own keys, never under the shared name. */
  lemma SharedNamesUseKeys(fields: seq<FieldDef>, i: nat, j: nat)
    requires i < j < |fields| && NameOf(fields[i]) == NameOf(fields[j])
    ensures RegisteredName(fields, i) == fields[i].key && RegisteredName(fields, j) == fields[j].key
  {
    CountInAtLeastTwo(fields, i, j, |fields|);
  }

  /** A field with a name of its own, whose name is no other field's key,
      is reached by that name. */
  lemma UniqueNameLeadsToKey(fields: seq<FieldDef>, i: nat)
    requires i < |fields|
    requires forall j :: 0 <= j < |fields| && j != i ==>
               NameOf(fields[j]) != NameOf(fields[i]) && fields[j].key != NameOf(fields[i])
    ensures NameOf(fields[i]) in KeysOf(fields, |fields|)
    ensures KeysOf(fields, |fields|)[NameOf(fields[i])] == fields[i].key
  {
    var n := NameOf(fields[i]);
    CountInAtMostOne(fields, i, |fields|);
    assert RegisteredName(fields, i) == n;
    forall j | i < j < |fields|
      ensures RegisteredName(fields, j) != n
    {
    }
    LastRegistrationWins(fields, |fields|, i);
  }

  /** An attribute no field is written to keeps its value. */
  lemma InitialAttrsKeeps(attrs: Record, fields: seq<FieldDef>, n: nat, k: string)
    requires n <= |fields| && k in attrs
    requires forall i :: 0 <= i < n ==> WrittenKey(fields, i) != k
    ensures InitialAttrs(attrs, fields, n)[k] == attrs[k]
  {
    var keyOf := (i: nat) => if i < |fields| then WrittenKey(fields, i) else "";
    assert forall i :: 0 <= i < n ==> keyOf(i) == WrittenKey(fields, i);
    NullsAtKeeps(attrs, keyOf, n, k);
  }

  /** A key that is never set to None keeps its value. */
  lemma {:induction false} NullsAtKeeps(attrs: Record, keyOf: nat -> string, n: nat, k: string)
    requires k in attrs
    requires forall i :: 0 <= i < n ==> keyOf(i) != k
    ensures NullsAt(attrs, keyOf, n)[k] == attrs[k]
    decreases n
  {
    if n > 0 {
      NullsAtKeeps(attrs, keyOf, n - 1, k);
      assert keyOf(n - 1) != k;
    }
  }

  /** When no registered name is another field's key, the fields are
      initialised under their own keys. */
  lemma KeysStartNull(attrs: Record, fields: seq<FieldDef>)
    requires forall i, j :: 0 <= i < |fields| && 0 <= j < |fields| && RegisteredName(fields, j) == fields[i].key ==>
               fields[j].key == fields[i].key
    ensures forall i :: 0 <= i < |fields| ==>
              fields[i].key in InitialAttrs(attrs, fields, |fields|) && InitialAttrs(attrs, fields, |fields|)[fields[i].key] == Null
  {
    forall i | 0 <= i < |fields|
      ensures WrittenKey(fields, i) == fields[i].key
    {
      var k := fields[i].key;
      if k in KeysOf(fields, i + 1) {
        KeysOfRegistration(fields, i + 1);
      }
    }
  }

  // ---------------------------------------------------------------------
  // Values sent by Pipedrive

  function DictGet(v: Value, k: string): Value
  {
    if v.Dict? && k in v.entries then v.entries[k] else Null
  }

  predicate Primary(item: Value)
  {
    Truthy(DictGet(item, "primary"))
  }

  /** Element `i` is the last one marked `primary`. */
  predicate LastPrimaryAt(items: seq<Value>, i: int)
  {
    0 <= i < |items| && Primary(items[i]) && forall j :: i < j < |items| ==> !Primary(items[j])
  }

  /** Dropping an unmarked last element keeps which element is the last marked one. */
  lemma LastPrimaryInit(items: seq<Value>)
    requires items != [] && !Primary(items[|items| - 1])
    ensures forall i :: LastPrimaryAt(items, i) ==> LastPrimaryAt(items[..|items| - 1], i) && items[..|items| - 1][i] == items[i]
    ensures NoPrimary(items) ==> NoPrimary(items[..|items| - 1])
  {
  }

  predicate NoPrimary(items: seq<Value>)
  {
    forall i :: 0 <= i < |items| ==> !Primary(items[i])
  }

  /** The `value` of the last element of a list marked `primary`; `dflt` when
      none is. */
  function PrimaryValue(items: seq<Value>, dflt: Value): (r: Value)
    ensures NoPrimary(items) ==> r == dflt
    ensures forall i :: LastPrimaryAt(items, i) ==> r == DictGet(items[i], "value")
    decreases |items|
  {
    if items == [] then dflt
    else if Primary(items[|items| - 1]) then DictGet(items[|items| - 1], "value")
    else
      LastPrimaryInit(items);
      PrimaryValue(items[..|items| - 1], dflt)
  }

  /** One more element of the list read after the first `i`. */
  lemma PrimaryValueStep(items: seq<Value>, dflt: Value, i: nat)
    requires i < |items|
    ensures PrimaryValue(items[..i + 1], dflt)
            == if Primary(items[i]) then DictGet(items[i], "value") else PrimaryValue(items[..i], dflt)
  {
    assert items[..i + 1][..i] == items[..i];
  }

  /** `_get_data_value`: a `{value: ...}` dictionary is replaced by its value,
      a list by the value of its primary element; anything else is kept. */
  function Flatten(v: Value): Value
  {
    if v.Dict? && "value" in v.entries then v.entries["value"]
    else if v.List? then PrimaryValue(v.items, v)
    else v
  }

  /** `_get_data_value`, with its loop over the list. */
  method GetDataValue(v: Value) returns (r: Value)
    ensures r == Flatten(v)
  {
    r := v;
    if v.Dict? && "value" in v.entries {
      r := v.entries["value"];
    } else if v.List? {
      var i := 0;
      while i < |v.items|
        invariant 0 <= i <= |v.items|
        invariant r == PrimaryValue(v.items[..i], v)
      {
        PrimaryValueStep(v.items, v, i);
        if Primary(v.items[i]) {
          r := DictGet(v.items[i], "value");
        }
        i := i + 1;
      }
      assert v.items[..i] == v.items;
    }
  }

  /** Flattening a flattened scalar changes nothing more. */
  lemma FlattenScalar(v: Value)
    requires !v.Dict? && !v.List?
    ensures Flatten(v) == v
  {
  }

  /** The option id a value stands for decoded into its label; a value that is
      no integer literal stays as it is; an id the options lack raises. */
  function Decode(options: map<int, string>, attr: Value): (r: Outcome<Value>)
    ensures r.Ok? && r.value != attr ==> exists n :: n in options && r.value == Str(options[n])
    ensures !(r.Raised? && r.exc.AttributeError?)
  {
    match PyInt(attr)
    case Converted(n) => if n in options then Ok(Str(options[n])) else Raised(KeyError(n))
    case NotALiteral => Ok(attr)
    case WrongType => Raised(TypeError)
  }

  /** `entity_data`'s value for one key: a blank value replaced by the class
      default if there is one, an entity or an `{id: ...}` dictionary by its id. */
  function PayloadValue(c: EntityClass, key: string, attr: Value): Value
  {
    if IsBlank(attr) then (if key in Defaults(c) then Defaults(c)[key] else attr)
    else if attr.Obj? then Attr(attr, "id")
    else if attr.Dict? && "id" in attr.entries then attr.entries["id"]
    else attr
  }

  /** The attributes after `init(data)` set the first `n` pairs. */
  function InitAttrs(attrs: Record, keys: map<string, string>, data: Data, n: nat): (r: Record)
    requires n <= |data|
    ensures forall j :: 0 <= j < n ==> Redirect(keys, data[j].0) in r
    ensures attrs.Keys <= r.Keys
  {
    if n == 0 then attrs else InitAttrs(attrs, keys, data, n - 1)[Redirect(keys, data[n - 1].0) := Flatten(data[n - 1].1)]
  }

  /** `init(data)` leaves under each key the value of the last pair written there. */
  lemma {:induction false} InitLastWins(attrs: Record, keys: map<string, string>, data: Data, n: nat, i: nat)
    requires i < n <= |data|
    requires forall j :: i < j < n ==> Redirect(keys, data[j].0) != Redirect(keys, data[i].0)
    ensures InitAttrs(attrs, keys, data, n)[Redirect(keys, data[i].0)] == Flatten(data[i].1)
    decreases n
  {
    if i < n - 1 {
      InitLastWins(attrs, keys, data, n - 1, i);
    }
  }

  /** `_load`'s guard against deleted entities: an object without
      `active_flag`, or with a true one. */
  predicate Active(data: Data)
  {
    var flag := Lookup(data, "active_flag");
    flag.None? || Truthy(flag.value)
  }

  // ---------------------------------------------------------------------
  // Searches

  /** One search result: its id and its name. */
  datatype Hit = Hit(id: Value, name: Value)

  /** The id of the first result named exactly `name`. */
  function FirstExactMatch(hits: seq<Hit>, name: string): (r: Option<Value>)
    ensures r.None? <==> forall i :: 0 <= i < |hits| ==> hits[i].name != Str(name)
    ensures r.Some? ==> exists i :: 0 <= i < |hits| && hits[i].name == Str(name) && r.value == hits[i].id
                                    && forall j :: 0 <= j < i ==> hits[j].name != Str(name)
    decreases |hits|
  {
    if hits == [] then None
    else if hits[0].name == Str(name) then Some(hits[0].id)
    else
      assert forall i :: 1 <= i < |hits| ==> hits[1..][i - 1] == hits[i];
      var r := FirstExactMatch(hits[1..], name);
      if r.Some? then
        assert exists i :: 1 <= i < |hits| && hits[i].name == Str(name) && r.value == hits[i].id
                           && forall j :: 0 <= j < i ==> hits[j].name != Str(name);
        r
      else r
  }

  /** `_find_by_name`: nothing for a name shorter than two characters once
      stripped; the only result's id when the search finds one; otherwise the
      first result named exactly so, if any. `search` answers the name search. */
  function FoundByName(name: Value, search: string -> seq<Hit>): (r: Value)
    ensures !(name.Str? && |Strip(name.s)| >= 2) ==> r == Null
    ensures name.Str? && |Strip(name.s)| >= 2 && |search(Strip(name.s))| == 1 ==> r == search(Strip(name.s))[0].id
    ensures name.Str? && |Strip(name.s)| >= 2 && |search(Strip(name.s))| != 1 ==>
              (r == Null <==> FirstExactMatch(search(Strip(name.s)), Strip(name.s)).None?)
              || FirstExactMatch(search(Strip(name.s)), Strip(name.s)) == Some(Null)
  {
    if name.Str? && |Strip(name.s)| >= 2 then
      var term := Strip(name.s);
      var hits := search(term);
      if |hits| == 1 then hits[0].id
      else match FirstExactMatch(hits, term)
        case Some(id) => id
        case None => Null
    else Null
  }

  /** `_find_by_name`, with its scan of the results. */
  method FindByName(name: Value, search: string -> seq<Hit>) returns (id: Value)
    ensures id == FoundByName(name, search)
  {
    id := Null;
    if name.Str? && |Strip(name.s)| >= 2 {
      var term := Strip(name.s);
      var hits := search(term);
      if |hits| > 0 {
        if |hits| == 1 {
          id := hits[0].id;
        } else {
          var found := false;
          var i := 0;
          while i < |hits|
            invariant 0 <= i <= |hits|
            invariant !found ==> id == Null && forall j :: 0 <= j < i ==> hits[j].name != Str(term)
            invariant found ==> FirstExactMatch(hits, term) == Some(id)
            decreases |hits| - i, !found
          {
            if hits[i].name == Str(term) {
              id := hits[i].id;
              found := true;
              FirstMatchAt(hits, term, i);
              break;
            }
            i := i + 1;
          }
        }
      }
    }
  }

  lemma {:induction false} FirstMatchAt(hits: seq<Hit>, name: string, i: nat)
    requires i < |hits| && hits[i].name == Str(name)
    requires forall j :: 0 <= j < i ==> hits[j].name != Str(name)
    ensures FirstExactMatch(hits, name) == Some(hits[i].id)
    decreases i
  {
    if i > 0 {
      assert forall j :: 1 <= j < |hits| ==> hits[1..][j - 1] == hits[j];
      FirstMatchAt(hits[1..], name, i - 1);
    }
  }

  /** `_find_by_filter`: the base class answers only the `id` filter; an
      organization also answers `email_domain` (stripped) and `marketoid`
      through a saved Pipedrive filter, when that filter yields exactly one
      organization. `query` answers the filter. */
  function FoundByFilter(c: EntityClass, filterName: string, filterValue: Value,
                         query: (string, Value) -> seq<Value>): (r: Value)
    ensures filterName == "id" ==> r == filterValue
    ensures filterName != "id" && r != Null ==>
              c == Organization && Truthy(filterValue) && (filterName == "email_domain" || filterName == "marketoid")
    ensures c == Organization && Truthy(filterValue) && filterName == "marketoid" && |query(filterName, filterValue)| == 1 ==>
              r == query(filterName, filterValue)[0]
  {
    var base := if filterName == "id" then filterValue else Null;
    if c == Organization && Truthy(filterValue) && (filterName == "email_domain" || filterName == "marketoid") then
      var v := if filterName == "email_domain" && filterValue.Str? then Str(Strip(filterValue.s)) else filterValue;
      var ids := query(filterName, v);
      if |ids| == 1 then ids[0] else base
    else base
  }

  /** A search that finds several organizations finds none. */
  lemma AmbiguousFilterFindsNothing(filterName: string, filterValue: Value, query: (string, Value) -> seq<Value>)
    requires filterName == "marketoid" && |query(filterName, filterValue)| != 1
    ensures FoundByFilter(Organization, filterName, filterValue, query) == Null
  {
  }

  // ---------------------------------------------------------------------
  // The entity

  /** One more fixed field registered: under its own name, its attribute None. */
  lemma FixedNamesStep(attrs: Record, done: seq<string>, next: seq<string>, name: string)
    requires next == done + [name]
    ensures (map n | n in next :: n) == (map n | n in done :: n)[name := name]
    ensures attrs + (map n | n in next :: Null) == (attrs + (map n | n in done :: Null))[name := Null]
  {
  }

  class Entity {
    const cls: EntityClass
    /** `_field_keys`: registered name to key. */
    var fieldKeys: map<string, string>
    /** `_field_types`: key to field type. */
    var fieldTypes: map<string, string>
    /** `_field_options`: key to option id to label. */
    var fieldOptions: map<string, map<int, string>>
    /** The instance attributes, by key. */
    var attrs: Record

    /** The state `__init__` starts from: `self.id = None`. */
    constructor (c: EntityClass)
      ensures cls == c && fieldKeys == map[] && fieldTypes == map[] && fieldOptions == map[]
      ensures attrs == map["id" := Null]
    {
      cls := c;
      fieldKeys := map[];
      fieldTypes := map[];
      fieldOptions := map[];
      attrs := map["id" := Null];
    }

    /** `__setattr__`: a registered name writes under its key, and the value is flattened. */
    method SetAttr(keyOrName: string, value: Value)
      modifies this
      ensures attrs == old(attrs)[Redirect(fieldKeys, keyOrName) := Flatten(value)]
      ensures fieldKeys == old(fieldKeys) && fieldTypes == old(fieldTypes) && fieldOptions == old(fieldOptions)
    {
      var key := keyOrName;
      if keyOrName in fieldKeys {
        key := fieldKeys[keyOrName];
      }
      var v := GetDataValue(value);
      attrs := attrs[key := v];
    }

    /** `_load_fields` given the schema the client returned. */
    method LoadFields(fields: seq<FieldDef>) returns (r: Outcome<()>)
      modifies this
      ensures r == if fields == [] then Raised(InitializationError(EntityName(cls))) else Ok(())
      ensures fieldKeys == KeysOf(fields, |fields|) && fieldTypes == TypesOf(fields, |fields|)
      ensures fieldOptions == OptionsOf(fields, |fields|)
      ensures attrs == InitialAttrs(old(attrs), fields, |fields|)
    {
      fieldKeys := map[];
      fieldTypes := map[];
      fieldOptions := map[];
      if fields == [] {
        return Raised(InitializationError(EntityName(cls)));
      }
      var i := 0;
      while i < |fields|
        invariant 0 <= i <= |fields|
        invariant fieldKeys == KeysOf(fields, i) && fieldTypes == TypesOf(fields, i)
        invariant fieldOptions == OptionsOf(fields, i)
        invariant attrs == InitialAttrs(old(attrs), fields, i)
      {
        RegisterField(fields, i);
        i := i + 1;
      }
      r := Ok(());
    }

    /** One iteration of `_load_fields`: field `i` registered, its type and
      options recorded, and its attribute set to None. */
    method RegisterField(fields: seq<FieldDef>, i: nat)
      requires i < |fields|
      requires fieldKeys == KeysOf(fields, i) && fieldTypes == TypesOf(fields, i) && fieldOptions == OptionsOf(fields, i)
      modifies this
      ensures fieldKeys == KeysOf(fields, i + 1) && fieldTypes == TypesOf(fields, i + 1)
      ensures fieldOptions == OptionsOf(fields, i + 1)
      ensures attrs == old(attrs)[WrittenKey(fields, i) := Null]
    {
      var field := fields[i];
      var name := NameOf(field);
      var countName := CountName(fields, name);
      if countName < 2 {
        fieldKeys := fieldKeys[name := field.key];
      } else {
        fieldKeys := fieldKeys[field.key := field.key];
      }
      fieldTypes := fieldTypes[field.key := field.fieldType];
      if field.options.Some? {
        LoadOptions(field.key, field.options.value);
      }
      SetAttr(field.key, Null);
    }

    /** The options of one field, read into a fresh dictionary. */
    method LoadOptions(key: string, opts: seq<(int, string)>)
      modifies this
      ensures fieldOptions == old(fieldOptions)[key := OptionMap(opts)]
      ensures fieldKeys == old(fieldKeys) && fieldTypes == old(fieldTypes) && attrs == old(attrs)
    {
      fieldOptions := fieldOptions[key := map[]];
      var j := 0;
      while j < |opts|
        invariant 0 <= j <= |opts|
        invariant fieldOptions == old(fieldOptions)[key := OptionMap(opts[..j])]
        invariant fieldKeys == old(fieldKeys) && fieldTypes == old(fieldTypes) && attrs == old(attrs)
      {
        assert opts[..j + 1][..j] == opts[..j];
        fieldOptions := fieldOptions[key := fieldOptions[key][opts[j].0 := opts[j].1]];
        j := j + 1;
      }
      assert opts[..j] == opts;
    }

    /** `Stage._load_fields` and `Pipeline._load_fields`: a fixed list of
      fields, each registered under its own name. */
    method LoadFixedFields(names: seq<string>)
      modifies this
      ensures fieldKeys == map n | n in names :: n
      ensures fieldTypes == map[] && fieldOptions == old(fieldOptions)
      ensures attrs == old(attrs) + map n | n in names :: Null
    {
      fieldKeys := map[];
      fieldTypes := map[];
      var i := 0;
      while i < |names|
        invariant 0 <= i <= |names|
        invariant fieldKeys == map n | n in names[..i] :: n
        invariant fieldTypes == map[] && fieldOptions == old(fieldOptions)
        invariant attrs == old(attrs) + map n | n in names[..i] :: Null
      {
        assert names[..i + 1] == names[..i] + [names[i]];
        FixedNamesStep(old(attrs), names[..i], names[..i + 1], names[i]);
        fieldKeys := fieldKeys[names[i] := names[i]];
        assert Redirect(fieldKeys, names[i]) == names[i];
        SetAttr(names[i], Null);
        i := i + 1;
      }
      assert names[..i] == names;
    }

    /** `getattr(entity, name)`: an attribute it holds (a key) is returned as
      is; a registered name is read through its key, an option field's value
      decoded into its label; anything else raises AttributeError. */
    function GetAttr(name: string): (r: Outcome<Value>)
      reads this
      ensures name in attrs ==> r == Ok(attrs[name])
      ensures (r.Raised? && r.exc.AttributeError?) <==>
                name !in attrs && !(name in fieldKeys && fieldKeys[name] != name && fieldKeys[name] in attrs)
    {
      if name in attrs then Ok(attrs[name])
      else if name in fieldKeys && fieldKeys[name] != name && fieldKeys[name] in attrs then
        var key := fieldKeys[name];
        var attr := attrs[key];
        if key in fieldOptions && Truthy(attr) then Decode(fieldOptions[key], attr) else Ok(attr)
      else Raised(AttributeError(name))
    }

    /** `entity_data`: one value per registered key, or None when reading
      one of them raises. */
    function Payload(): (r: Option<map<string, Value>>)
      reads this
      ensures r.Some? <==> forall k :: k in fieldKeys.Values ==> GetAttr(k).Ok?
      ensures r.Some? ==> r.value.Keys == fieldKeys.Values
    {
      if forall k :: k in fieldKeys.Values ==> GetAttr(k).Ok? then
        Some(map k | k in fieldKeys.Values :: PayloadValue(cls, k, GetAttr(k).value))
      else None
    }

    /** `entity_data`, with its loop over the registered fields. */
    method EntityData() returns (data: Option<map<string, Value>>)
      ensures data == Payload()
    {
      var todo := fieldKeys.Values;
      var m: map<string, Value> := map[];
      while todo != {}
        invariant todo <= fieldKeys.Values
        invariant forall k :: k in fieldKeys.Values - todo ==> GetAttr(k).Ok?
        invariant m == map k | k in fieldKeys.Values - todo :: PayloadValue(cls, k, GetAttr(k).value)
        decreases |todo|
      {
        var k :| k in todo;
        var attr := GetAttr(k);
        if attr.Raised? {
          return None;
        }
        m := m[k := PayloadValue(cls, k, attr.value)];
        todo := todo - {k};
      }
      assert fieldKeys.Values - todo == fieldKeys.Values;
      return Some(m);
    }

    /** `init(data)`: every pair of the object assigned in turn. */
    method Init(data: Data)
      modifies this
      ensures attrs == InitAttrs(old(attrs), fieldKeys, data, |data|)
      ensures fieldKeys == old(fieldKeys) && fieldTypes == old(fieldTypes) && fieldOptions == old(fieldOptions)
    {
      var i := 0;
      while i < |data|
        invariant 0 <= i <= |data|
        invariant attrs == InitAttrs(old(attrs), fieldKeys, data, i)
        invariant fieldKeys == old(fieldKeys) && fieldTypes == old(fieldTypes) && fieldOptions == old(fieldOptions)
      {
        SetAttr(data[i].0, data[i].1);
        i := i + 1;
      }
    }

    /** The entity's id: `self.id`, which `__init__` always sets. */
    function Id(): Value
      reads this
    {
      if "id" in attrs then attrs["id"] else Null
    }

    /** `_load(id_, id_field)`: the id is looked up by name, through a filter,
      or taken as given; the object Pipedrive returns for it is loaded unless
      it is empty or marked inactive. A note is instead looked up by the id of
      the user, deal, person or organization it is attached to, and the last
      note found is loaded. */
    method Load(client: Client, id: Value, idField: string)
      modifies this
      ensures attrs == LoadedAttrs(cls, client, old(attrs), fieldKeys, id, idField)
      ensures fieldKeys == old(fieldKeys) && fieldTypes == old(fieldTypes) && fieldOptions == old(fieldOptions)
    {
      if cls == Note {
        if Truthy(id) && idField in NoteLinks() {
          var notes := client.list(EntityName(cls), idField, id);
          if notes != [] {
            Init(notes[|notes| - 1]);
          }
        }
        return;
      }
      var target := FindTarget(client, id, idField);
      if Truthy(target) {
        var data := client.fetch(EntityName(cls), target);
        if data != [] && Active(data) {
          Init(data);
        }
      }
    }

    /** The id `_load` looks for, searched by name or by filter. */
    method FindTarget(client: Client, id: Value, idField: string) returns (target: Value)
      ensures target == Target(cls, client, id, idField)
    {
      target := id;
      if idField == "name" {
        target := FindByName(id, t => client.search(EntityName(cls), t));
      } else if idField != "" {
        target := FoundByFilter(cls, idField, id, client.filter);
      }
    }

    /** `__init__` once the fields are loaded: with an id, the entity is
      loaded, or (with `load=False`) the id is only stored in the id field,
      when the entity has that field. */
    method Start(client: Client, id: Value, idField: string, load: bool)
      modifies this
      ensures attrs == if !Truthy(id) then old(attrs)
                       else if load then LoadedAttrs(cls, client, old(attrs), fieldKeys, id, idField)
                       else if idField != "" && old(GetAttr(idField)).Ok? then old(attrs)[Redirect(fieldKeys, idField) := Flatten(id)]
                       else old(attrs)
      ensures fieldKeys == old(fieldKeys) && fieldTypes == old(fieldTypes) && fieldOptions == old(fieldOptions)
    {
      if Truthy(id) {
        if load {
          Load(client, id, idField);
        } else if idField != "" && GetAttr(idField).Ok? {
          SetAttr(idField, id);
        }
      }
    }

    /** `load()`: the entity reloaded by its own id. */
    method Reload(client: Client)
      modifies this
      ensures attrs == LoadedAttrs(cls, client, old(attrs), fieldKeys, old(Id()), "id")
      ensures fieldKeys == old(fieldKeys) && fieldTypes == old(fieldTypes) && fieldOptions == old(fieldOptions)
    {
      Load(client, Id(), "id");
    }

    /** `entity_data` as the method reads it: the payload, or the exception
      reading one of the fields raised. */
    method ReadPayload() returns (data: Outcome<map<string, Value>>)
      ensures data.Ok? <==> Payload().Some?
      ensures data.Ok? ==> data.value == Payload().value
      ensures data.Raised? ==> exists k :: k in fieldKeys.Values && GetAttr(k) == Raised(data.exc)
    {
      var d := EntityData();
      if d.Some? {
        return Ok(d.value);
      }
      var k :| k in fieldKeys.Values && !GetAttr(k).Ok?;
      data := Raised(GetAttr(k).exc);
    }

    /** `save()`: the payload is sent (a creation when the id is None, an
      update otherwise) and the entity takes what Pipedrive returns; an empty
      answer raises SavingError. */
    method Save(client: Client) returns (r: Outcome<()>)
      modifies this
      ensures old(Payload()).None? ==> r.Raised? && attrs == old(attrs)
      ensures old(Payload()).Some? ==>
                var answer := client.put(EntityName(cls), old(Payload()).value, old(Id()));
                (answer == [] ==> r == Raised(SavingError(EntityName(cls))) && attrs == old(attrs))
                && (answer != [] ==> r == Ok(()) && attrs == InitAttrs(old(attrs), fieldKeys, answer, |answer|))
      ensures fieldKeys == old(fieldKeys) && fieldTypes == old(fieldTypes) && fieldOptions == old(fieldOptions)
    {
      var payload := ReadPayload();
      if payload.Raised? {
        return Raised(payload.exc);
      }
      var answer := client.put(EntityName(cls), payload.value, Id());
      if answer == [] {
        return Raised(SavingError(EntityName(cls)));
      }
      Init(answer);
      r := Ok(());
    }

    /** `delete()`: the id Pipedrive answers with, SavingError when it
      answers nothing. */
    method Delete(client: Client) returns (r: Outcome<Value>)
      ensures var answer := client.delete(EntityName(cls), Id());
              r == if answer == [] then Raised(SavingError(EntityName(cls)))
                   else if Lookup(answer, "id").None? then Raised(MissingKey("id"))
                   else Ok(Lookup(answer, "id").value)
    {
      var answer := client.delete(EntityName(cls), Id());
      if answer == [] {
        return Raised(SavingError(EntityName(cls)));
      }
      var id := Lookup(answer, "id");
      if id.None? {
        return Raised(MissingKey("id"));
      }
      r := Ok(id.value);
    }
  }

  /** `Person(client, id_, id_field, load)` and the like: the fields are
    loaded (a fixed list for stages and pipelines, the schema Pipedrive
    describes for the others, whose absence raises), then the entity is
    started from the id. */
  method New(c: EntityClass, client: Client, id: Value, idField: string, load: bool) returns (r: Outcome<Entity>)
    ensures r.Ok? ==> fresh(r.value) && r.value.cls == c
    ensures r.Raised? <==> c != Stage && c != Pipeline && client.fields(EntityName(c)) == []
    ensures r.Ok? && c == Stage ==> r.value.fieldKeys == map n | n in StageFields() :: n
    ensures r.Ok? && c == Pipeline ==> r.value.fieldKeys == map n | n in PipelineFields() :: n
    ensures r.Ok? && c != Stage && c != Pipeline ==>
              var fields := client.fields(EntityName(c));
              r.value.fieldKeys == KeysOf(fields, |fields|) && r.value.fieldTypes == TypesOf(fields, |fields|)
              && r.value.fieldOptions == OptionsOf(fields, |fields|)
  {
    var e := new Entity(c);
    if c == Stage {
      e.LoadFixedFields(StageFields());
    } else if c == Pipeline {
      e.LoadFixedFields(PipelineFields());
    } else {
      var loaded := e.LoadFields(client.fields(EntityName(c)));
      if loaded.Raised? {
        return Raised(loaded.exc);
      }
    }
    e.Start(client, id, idField, load);
    r := Ok(e);
  }

  /** The link fields a note can be looked up by. */
  function NoteLinks(): set<string>
  {
    {"user_id", "deal_id", "person_id", "org_id"}
  }

  /** The Pipedrive API as the entities see it, fixed for the duration of a
      synchronisation: entity searches by name, the organization filters,
      single objects, note lists, saves and deletions, each by entity name. */
  datatype Client = Client(
    fields: string -> seq<FieldDef>,
    search: (string, string) -> seq<Hit>,
    filter: (string, Value) -> seq<Value>,
    fetch: (string, Value) -> Data,
    list: (string, string, Value) -> seq<Data>,
    put: (string, map<string, Value>, Value) -> Data,
    delete: (string, Value) -> Data)

  /** The id `_load` looks for. */
  function Target(c: EntityClass, client: Client, id: Value, idField: string): (r: Value)
    ensures idField == "id" ==> r == id
    ensures idField == "" ==> r == id
  {
    if idField == "name" then FoundByName(id, t => client.search(EntityName(c), t))
    else if idField != "" then FoundByFilter(c, idField, id, client.filter)
    else id
  }

  /** The attributes after `_load(id_, id_field)`. */
  function LoadedAttrs(c: EntityClass, client: Client, attrs: Record, keys: map<string, string>,
                       id: Value, idField: string): Record
  {
    if c == Note then
      var notes := client.list(EntityName(c), idField, id);
      if Truthy(id) && idField in NoteLinks() && notes != [] then
        InitAttrs(attrs, keys, notes[|notes| - 1], |notes[|notes| - 1]|)
      else attrs
    else
      var target := Target(c, client, id, idField);
      var data := client.fetch(EntityName(c), target);
      if Truthy(target) && data != [] && Active(data) then InitAttrs(attrs, keys, data, |data|) else attrs
  }

  /** An entity is never loaded from a deleted (inactive) object, nor for an
      empty id: its attributes stay as they were. */
  lemma InactiveNotLoaded(c: EntityClass, client: Client, attrs: Record, keys: map<string, string>, id: Value, idField: string)
    requires c != Note
    requires !Truthy(Target(c, client, id, idField)) || !Active(client.fetch(EntityName(c), Target(c, client, id, idField)))
    ensures LoadedAttrs(c, client, attrs, keys, id, idField) == attrs
  {
  }

  /** Loading by id writes every field the object holds: a key the object
      sends once holds the flattened value it was sent. */
  lemma LoadedById(c: EntityClass, client: Client, attrs: Record, keys: map<string, string>, id: Value, i: nat)
    requires c != Note && Truthy(id)
    requires var data := client.fetch(EntityName(c), id);
             Active(data) && i < |data| && forall j :: i < j < |data| ==> Redirect(keys, data[j].0) != Redirect(keys, data[i].0)
    ensures var data := client.fetch(EntityName(c), id);
            var r := LoadedAttrs(c, client, attrs, keys, id, "id");
            Redirect(keys, data[i].0) in r && r[Redirect(keys, data[i].0)] == Flatten(data[i].1)
  {
    var data := client.fetch(EntityName(c), id);
    InitLastWins(attrs, keys, data, |data|, i);
  }

  /** Reading an option field by name gives the label of the stored option id. */
  lemma OptionDecoded(e: Entity, name: string, n: int)
    requires name !in e.attrs && name in e.fieldKeys && e.fieldKeys[name] != name
    requires e.fieldKeys[name] in e.attrs && e.attrs[e.fieldKeys[name]] == Int(n) && n != 0
    requires e.fieldKeys[name] in e.fieldOptions && n in e.fieldOptions[e.fieldKeys[name]]
    ensures e.GetAttr(name) == Ok(Str(e.fieldOptions[e.fieldKeys[name]][n]))
  {
  }

  /** A stored value that is no integer literal is read back unchanged. */
  lemma NonIntegerOptionKept(e: Entity, name: string)
    requires name !in e.attrs && name in e.fieldKeys && e.fieldKeys[name] != name
    requires e.fieldKeys[name] in e.attrs && e.fieldKeys[name] in e.fieldOptions
    requires PyInt(e.attrs[e.fieldKeys[name]]).NotALiteral?
    ensures e.GetAttr(name) == Ok(e.attrs[e.fieldKeys[name]])
  {
  }

  /** In the payload a blank value takes the class default, if the class has
      one for that key, and an entity or an `{id: ...}` dictionary is reduced
      to its id. */
  lemma PayloadFlattens(e: Entity, k: string)
    requires e.Payload().Some? && k in e.fieldKeys.Values
    ensures var attr := e.GetAttr(k).value;
            var sent := e.Payload().value[k];
            (IsBlank(attr) && k in Defaults(e.cls) ==> sent == Defaults(e.cls)[k])
            && (IsBlank(attr) && k !in Defaults(e.cls) ==> sent == attr)
            && (attr.Obj? ==> sent == Attr(attr, "id"))
            && (attr.Dict? && "id" in attr.entries ==> sent == attr.entries["id"])
  {
  }

  /** A person is never sent without a name: an empty or missing name goes
      out as `Unknown Unknown`, a text name as it is. */
  lemma PersonAlwaysNamed(e: Entity)
    requires e.cls == Person && e.Payload().Some? && "name" in e.fieldKeys.Values
    requires e.GetAttr("name").value.Str? || e.GetAttr("name").value.Null?
    ensures e.Payload().value["name"].Str? && e.Payload().value["name"].s != ""
  {
  }

  /** The fields of `Stage`, which Pipedrive does not describe. */
  function StageFields(): seq<string>
  {
    ["id", "order_nr", "name", "active_flag", "deal_probability", "pipeline_id",
     "rotten_flag", "rotten_days", "add_time", "update_time", "deals_summary"]
  }

  /** The fields of `Pipeline`, which Pipedrive does not describe. */
  function PipelineFields(): seq<string>
  {
    ["id", "name", "url_title", "order_nr", "active", "add_time", "update_time", "selected"]
  }
}
