/** The adapters of the first version of the synchronisation, adapters.py at
    the root of the repository, which the tables of mappings.py name. Unlike
    their successors in sync/adapters.py they expect text (the engine that
    calls them stringifies every value first), give the empty text for a name
    too short to split, and let `pycountry` raise on a country it does not
    know. */
module RootAdapters {
  import opened Values
  import Later = Adapters

  /** `split_name_get_first`: all words but the last, joined by single spaces;
      the empty text for a name of fewer than two words. */
  function SplitNameGetFirst(name: string): (r: string)
    ensures |Words(name)| >= 2 ==> Words(r) == Words(name)[..|Words(name)| - 1]
    ensures |Words(name)| < 2 ==> r == ""
  {
    var ws := Words(name);
    if |ws| > 1 then
      WordsOfJoin(ws[..|ws| - 1]);
      JoinSpace(ws[..|ws| - 1])
    else ""
  }

  /** `split_name_get_last`: the last word; the empty text when there is none. */
  function SplitNameGetLast(name: string): (r: string)
    ensures Words(name) != [] ==> IsWord(r) && r == Words(name)[|Words(name)| - 1]
    ensures Words(name) == [] ==> r == ""
  {
    var ws := Words(name);
    if ws != [] then ws[|ws| - 1] else ""
  }

  /** For a name of two or more words separated by single spaces, the two
      parts and a space give the name back. */
  lemma NameRoundTrip(ws: seq<string>)
    requires |ws| >= 2 && forall k :: 0 <= k < |ws| ==> IsWord(ws[k])
    ensures SplitNameGetFirst(JoinSpace(ws)) + " " + SplitNameGetLast(JoinSpace(ws)) == JoinSpace(ws)
  {
    WordsOfJoin(ws);
    JoinSnoc(ws);
  }

  /** A one-word name has no first name here, where sync/adapters.py keeps
      the whole name as the first name; both take it as the last name. */
  lemma OneWordNameDiffers(w: string)
    requires IsWord(w)
    ensures SplitNameGetFirst(w) == "" && Later.SplitNameGetFirst(Str(w)) == Str(w)
    ensures SplitNameGetLast(w) == w && Later.SplitNameGetLast(Str(w)) == Str(w)
  {
    WordsOfJoin([w]);
  }

  /** On a name of two words or more both versions split alike. */
  lemma LongNamesSplitAlike(name: string)
    requires |Words(name)| >= 2
    ensures Later.SplitNameGetFirst(Str(name)) == Str(SplitNameGetFirst(name))
    ensures Later.SplitNameGetLast(Str(name)) == Str(SplitNameGetLast(name))
  {
    FirstNamesAlike(name);
    LastNamesAlike(name);
  }

  /** The first-name halves of the two versions on such a name. */
  lemma FirstNamesAlike(name: string)
    requires |Words(name)| >= 2
    ensures Later.SplitNameGetFirst(Str(name)) == Str(SplitNameGetFirst(name))
  {
  }

  /** The last-name halves of the two versions on such a name. */
  lemma LastNamesAlike(name: string)
    requires |Words(name)| >= 2
    ensures Later.SplitNameGetLast(Str(name)) == Str(SplitNameGetLast(name))
  {
  }

  // ---------------------------------------------------------------------
  // Countries

  /** The `pycountry` table: names by two-letter code, two-letter codes by name. */
  datatype Countries = Countries(nameByAlpha2: map<string, string>, alpha2ByName: map<string, string>)

  /** `country_iso_to_name`: None passes through; any other value is looked up
      as a two-letter code, and one the table lacks raises. */
  function CountryIsoToName(v: Value, c: Countries): (r: Outcome<Value>)
    ensures v == Null ==> r == Ok(Null)
    ensures v != Null && r.Ok? ==> v.Str? && v.s in c.nameByAlpha2 && r.value == Str(c.nameByAlpha2[v.s])
    ensures v.Str? && v.s in c.nameByAlpha2 ==> r.Ok?
  {
    if v == Null then Ok(Null)
    else if v.Str? && v.s in c.nameByAlpha2 then Ok(Str(c.nameByAlpha2[v.s]))
    else Raised(MissingKey(Show(v)))
  }

  /** `country_name_to_iso`: None passes through; any other value is looked up
      as a country name, and one the table lacks raises. */
  function CountryNameToIso(v: Value, c: Countries): (r: Outcome<Value>)
    ensures v == Null ==> r == Ok(Null)
    ensures v != Null && r.Ok? ==> v.Str? && v.s in c.alpha2ByName && r.value == Str(c.alpha2ByName[v.s])
    ensures v.Str? && v.s in c.alpha2ByName ==> r.Ok?
  {
    if v == Null then Ok(Null)
    else if v.Str? && v.s in c.alpha2ByName then Ok(Str(c.alpha2ByName[v.s]))
    else Raised(MissingKey(Show(v)))
  }

  /** Whether the two directions of the table agree. */
  predicate Consistent(c: Countries)
  {
    forall code :: code in c.nameByAlpha2 ==>
      c.nameByAlpha2[code] in c.alpha2ByName && c.alpha2ByName[c.nameByAlpha2[code]] == code
  }

  /** A known code turned into its name and back is the code again. */
  lemma CountryRoundTrip(code: string, c: Countries)
    requires Consistent(c) && code in c.nameByAlpha2
    ensures CountryIsoToName(Str(code), c).Ok?
    ensures CountryNameToIso(CountryIsoToName(Str(code), c).value, c) == Ok(Str(code))
  {
  }

  /** The empty text is no country: it raises, unless the table lists it. */
  lemma EmptyCountryRaises(c: Countries)
    requires "" !in c.nameByAlpha2
    ensures CountryIsoToName(Str(""), c).Raised?
  {
  }

  // ---------------------------------------------------------------------
  // Organizations

  /** `organization_to_name`: the empty text for no organization, the name of
      the organization otherwise; reading a name the value lacks raises. */
  function OrganizationToName(org: Value): (r: Outcome<Value>)
    ensures org == Null ==> r == Ok(Str(""))
    ensures org.Obj? && "name" in org.attrs ==> r == Ok(org.attrs["name"])
    ensures r.Raised? <==> org != Null && !(org.Obj? && "name" in org.attrs)
  {
    if org == Null then Ok(Str(""))
    else if org.Obj? && "name" in org.attrs then Ok(org.attrs["name"])
    else Raised(AttributeError("name"))
  }

  // ---------------------------------------------------------------------
  // The adapters the tables name

  datatype Adapter =
    // defined in adapters.py
    | SplitNameGetFirst | SplitNameGetLast | CountryIsoToName | CountryNameToIso | OrganizationToName
    // named by mappings.py but not defined in adapters.py
    | CompanyNameToOrgId | OrganizationNameToExternalId

  /** What the adapters need from outside: the country table, and the answers
      of the two adapters adapters.py does not define. */
  datatype Env = Env(countries: Countries, oracle: (Adapter, Value) -> Value)

  /** One adapter applied to a value; splitting anything but text raises. */
  function Apply(a: Adapter, v: Value, env: Env): (r: Outcome<Value>)
    ensures (a.SplitNameGetFirst? || a.SplitNameGetLast?) ==> (r.Raised? <==> !v.Str?)
    ensures (a.CompanyNameToOrgId? || a.OrganizationNameToExternalId?) ==> r == Ok(env.oracle(a, v))
  {
    match a
    case SplitNameGetFirst => if v.Str? then Ok(Str(SplitNameGetFirst(v.s))) else Raised(AttributeError("split"))
    case SplitNameGetLast => if v.Str? then Ok(Str(SplitNameGetLast(v.s))) else Raised(AttributeError("split"))
    case CountryIsoToName => CountryIsoToName(v, env.countries)
    case CountryNameToIso => CountryNameToIso(v, env.countries)
    case OrganizationToName => OrganizationToName(v)
    case _ => Ok(env.oracle(a, v))
  }

  /** An optional adapter: applied when present, the identity otherwise. */
  function ApplyOpt(a: Option<Adapter>, v: Value, env: Env): (r: Outcome<Value>)
    ensures a.None? ==> r == Ok(v)
  {
    if a.Some? then Apply(a.value, v, env) else Ok(v)
  }
}
