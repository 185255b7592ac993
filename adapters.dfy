/** The value adapters of sync/adapters.py: name splitting, deal status
    flags, number and date reformatting, user and stage attributes. The
    adapters that run whole synchronisation tasks or query a CRM are not
    interpreted here; the `Registry` module passes them to an oracle. */
module Adapters {
  import opened Values
  import opened Dates

  /** The Pipedrive user that owns records nobody else owns. */
  const BIG_BOT_ID: int := 208823

  // ---------------------------------------------------------------------
  // Names

  /** `split_name_get_first`: everything but the last word of a name. */
  function SplitNameGetFirst(name: Value): (r: Value)
    ensures !Truthy(name) ==> r == name
    ensures name.Str? && |Words(name.s)| >= 2 ==>
              r.Str? && Words(r.s) == Words(name.s)[..|Words(name.s)| - 1]
    ensures !(name.Str? && |Words(name.s)| >= 2) ==> r == name
  {
    if name.Str? && |Words(name.s)| >= 2 then
      var ws := Words(name.s);
      WordsOfJoin(ws[..|ws| - 1]);
      Str(JoinSpace(ws[..|ws| - 1]))
    else name
  }

  /** `split_name_get_last`: the last word of a name. */
  function SplitNameGetLast(name: Value): (r: Value)
    ensures !Truthy(name) ==> r == name
    ensures name.Str? && Words(name.s) != [] ==>
              r.Str? && IsWord(r.s) && Words(name.s)[|Words(name.s)| - 1] == r.s
    ensures !(name.Str? && Words(name.s) != []) ==> r == name
  {
    if name.Str? && Words(name.s) != [] then Str(Words(name.s)[|Words(name.s)| - 1]) else name
  }

  /** For a name written as two or more words separated by single spaces, the
      first-name part, a space and the last-name part give the name back. */
  lemma NameRoundTrip(ws: seq<string>)
    requires |ws| >= 2 && forall k :: 0 <= k < |ws| ==> IsWord(ws[k])
    ensures SplitNameGetFirst(Str(JoinSpace(ws))).Str?
    ensures SplitNameGetLast(Str(JoinSpace(ws))).Str?
    ensures SplitNameGetFirst(Str(JoinSpace(ws))).s + " " + SplitNameGetLast(Str(JoinSpace(ws))).s
            == JoinSpace(ws)
  {
    WordsOfJoin(ws);
    JoinSnoc(ws);
  }

  /** A one-word name is both its own first name and its own last name. */
  lemma SingleWordName(w: string)
    requires IsWord(w)
    ensures SplitNameGetFirst(Str(w)) == Str(w)
    ensures SplitNameGetLast(Str(w)) == Str(w)
  {
    WordsOfJoin([w]);
  }

  // ---------------------------------------------------------------------
  // Deal status, booleans and numbers

  /** `is_closed`: a deal is closed once it is lost or won. */
  function IsClosed(status: Value): (r: Value)
    ensures r.Bool? && (r.b <==> status == Str("lost") || status == Str("won"))
  {
    Bool(status == Str("lost") || status == Str("won"))
  }

  /** `is_won` */
  function IsWon(status: Value): (r: Value)
    ensures r.Bool? && (r.b <==> status == Str("won"))
  {
    Bool(status == Str("won"))
  }

  /** A won deal is a closed deal; an open deal is neither. */
  lemma WonIsClosed(status: Value)
    ensures IsWon(status).b ==> IsClosed(status).b
    ensures status == Str("open") ==> !IsClosed(status).b && !IsWon(status).b
  {
  }

  /** `toggle_boolean`: Python `not`. */
  function ToggleBoolean(v: Value): (r: Value)
    ensures r.Bool? && r.b != Truthy(v)
  {
    Bool(!Truthy(v))
  }

  lemma ToggleTwice(v: Value)
    ensures ToggleBoolean(ToggleBoolean(v)) == Bool(Truthy(v))
  {
  }

  /** `number_to_string`: the decimal text of a number, None for every falsy
      value, zero included. */
  function NumberToString(v: Value): (r: Value)
    ensures r == Null <==> !Truthy(v)
    ensures r != Null ==> r == Str(Show(v))
  {
    if Truthy(v) then Str(Show(v)) else Null
  }

  /** Distinct non-zero integers give distinct texts. */
  lemma NumberToStringInjective(a: int, b: int)
    requires a != 0 && b != 0
    requires NumberToString(Int(a)) == NumberToString(Int(b))
    ensures a == b
  {
    IntToStringInjective(a, b);
  }

  /** `call_type`: every activity created is a call. */
  function CallType(ignored: Value): (r: Value)
    ensures r == Str("call")
  {
    Str("call")
  }

  /** `custom_subject`: the activity subject names whom to follow up with. */
  function CustomSubject(name: Value): (r: Value)
    ensures r.Str? && |r.s| >= 15 && r.s[..15] == "Follow up with " && r.s[15..] == Show(name)
  {
    Str("Follow up with " + Show(name))
  }

  /** `stage_to_name` */
  function StageToName(stage: Value): (r: Value)
    ensures stage == Null ==> r == Null
    ensures stage.Obj? ==> r == Attr(stage, "name")
  {
    if stage == Null then Null else Attr(stage, "name")
  }

  // ---------------------------------------------------------------------
  // Users

  /** The owner of the record is the bot user, or nobody. */
  predicate NoRealUser(user: Value)
  {
    user == Null || PyEq(Int(BIG_BOT_ID), Attr(user, "id"))
  }

  /** `user_to_email` */
  function UserToEmail(user: Value): (r: Value)
    ensures NoRealUser(user) ==> r == Null
    ensures !NoRealUser(user) ==> r == Attr(user, "email")
  {
    if !NoRealUser(user) then Attr(user, "email") else Null
  }

  /** `user_to_first_name` */
  function UserToFirstName(user: Value): (r: Value)
    ensures NoRealUser(user) ==> r == Null
    ensures !NoRealUser(user) ==> r == SplitNameGetFirst(Attr(user, "name"))
  {
    if !NoRealUser(user) then SplitNameGetFirst(Attr(user, "name")) else Null
  }

  /** `user_to_last_name` */
  function UserToLastName(user: Value): (r: Value)
    ensures NoRealUser(user) ==> r == Null
    ensures !NoRealUser(user) ==> r == SplitNameGetLast(Attr(user, "name"))
  {
    if !NoRealUser(user) then SplitNameGetLast(Attr(user, "name")) else Null
  }

  /** The owner fields written to a lead describe a real user or are all empty,
      and a real user's two-or-more-word name is given back by the two name parts. */
  lemma OwnerFields(user: Value, ws: seq<string>)
    requires user.Obj? && Attr(user, "name") == Str(JoinSpace(ws))
    requires |ws| >= 2 && forall k :: 0 <= k < |ws| ==> IsWord(ws[k])
    ensures NoRealUser(user) ==>
              UserToEmail(user) == Null && UserToFirstName(user) == Null && UserToLastName(user) == Null
    ensures !NoRealUser(user) ==>
              UserToFirstName(user).s + " " + UserToLastName(user).s == JoinSpace(ws)
  {
    NameRoundTrip(ws);
  }

  /** `user_name_to_user_id_or_big_bot`: the id the user search finds for a
      non-blank name, and the bot user otherwise. `lookup` stands for the
      search (`pipedrive.User(client, name, 'name').id`). */
  function UserNameToUserIdOrBigBot(name: Value, lookup: string -> Value): (r: Value)
    ensures Truthy(r)
    ensures !(name.Str? && Strip(name.s) != "") ==> r == Int(BIG_BOT_ID)
    ensures name.Str? && Strip(name.s) != "" && Truthy(lookup(name.s)) ==> r == lookup(name.s)
  {
    if name.Str? && Strip(name.s) != "" && Truthy(lookup(name.s)) then lookup(name.s) else Int(BIG_BOT_ID)
  }

  /** `user_name_to_user_id`: as above, with None instead of the bot user. */
  function UserNameToUserId(name: Value, lookup: string -> Value): (r: Value)
    ensures !(name.Str? && Strip(name.s) != "") ==> r == Null
    ensures name.Str? && Strip(name.s) != "" ==> r == lookup(name.s)
  {
    if name.Str? && Strip(name.s) != "" then lookup(name.s) else Null
  }

  /** The two user-id adapters agree whenever the search finds someone. */
  lemma UserIdAdaptersAgree(name: Value, lookup: string -> Value)
    requires Truthy(UserNameToUserId(name, lookup))
    ensures UserNameToUserIdOrBigBot(name, lookup) == UserNameToUserId(name, lookup)
  {
  }

  // ---------------------------------------------------------------------
  // Countries

  /** The country table of the `pycountry` library: names by two-letter code and by name. */
  datatype Countries = Countries(byAlpha2: map<string, string>, byName: map<string, string>)

  /** `country_iso_to_name`: a code, else a name, is turned into the country's
      name; anything else passes through unchanged. */
  function CountryIsoToName(v: Value, c: Countries): (r: Value)
    ensures !Truthy(v) ==> r == v
    ensures v.Str? && v.s != "" && v.s in c.byAlpha2 ==> r == Str(c.byAlpha2[v.s])
    ensures v.Str? && v.s != "" && v.s !in c.byAlpha2 && v.s in c.byName ==> r == Str(c.byName[v.s])
    ensures !(v.Str? && v.s != "" && (v.s in c.byAlpha2 || v.s in c.byName)) ==> r == v
  {
    if v.Str? && v.s != "" then
      if v.s in c.byAlpha2 then Str(c.byAlpha2[v.s])
      else if v.s in c.byName then Str(c.byName[v.s])
      else v
    else v
  }

  // ---------------------------------------------------------------------
  // Dates

  /** `datetime_to_date`: a `%Y-%m-%dT%H:%M:%SZ` time stamp reduced to its
      date, None when it is empty, unparseable or before 1900. */
  function DatetimeToDate(v: Value): (r: Value)
    ensures !Truthy(v) ==> r == Null
    ensures r != Null <==> v.Str? && ParseIsoZ(v.s).Some? && ParseIsoZ(v.s).value.year >= 1900
    ensures r != Null ==> r == Str(FormatDate(ParseIsoZ(v.s).value))
  {
    if v.Str? && v.s != "" then
      match ParseIsoZ(v.s)
      case Some(d) => if d.year >= 1900 then Str(FormatDate(d)) else Null
      case None => Null
    else Null
  }

  /** `datetime_to_date2`: a `%Y-%m-%d %H:%M:%S` or `%Y-%m-%d` text reduced to
      its date, None when it is empty, unparseable or before 1900. */
  function DatetimeToDate2(v: Value): (r: Value)
    ensures !Truthy(v) ==> r == Null
    ensures r != Null <==> v.Str? && ParseEither(v.s).Some? && ParseEither(v.s).value.year >= 1900
    ensures r != Null ==> r == Str(FormatDate(ParseEither(v.s).value))
  {
    if v.Str? && v.s != "" then
      match ParseEither(v.s)
      case Some(d) => if d.year >= 1900 then Str(FormatDate(d)) else Null
      case None => Null
    else Null
  }

  /** `datetime_to_quarter`: the calendar quarter, 1 to 4, of a date or time stamp. */
  function DatetimeToQuarter(v: Value): (r: Value)
    ensures !Truthy(v) ==> r == Null
    ensures r == Null || (r.Int? && 1 <= r.i <= 4)
    ensures r != Null <==> v.Str? && ParseEither(v.s).Some?
  {
    if v.Str? && v.s != "" then
      match ParseEither(v.s)
      case Some(d) => Int((d.month - 1) / 3 + 1)
      case None => Null
    else Null
  }

  /** `datetime_to_year`: the year, 1 to 9999, of a date or time stamp. */
  function DatetimeToYear(v: Value): (r: Value)
    ensures !Truthy(v) ==> r == Null
    ensures r == Null || (r.Int? && 1 <= r.i <= 9999)
    ensures r != Null <==> v.Str? && ParseEither(v.s).Some?
  {
    if v.Str? && v.s != "" then
      match ParseEither(v.s)
      case Some(d) => Int(d.year)
      case None => Null
    else Null
  }

  /** Reformatting a date it has already reformatted changes nothing. */
  lemma DatetimeToDate2Idempotent(v: Value)
    requires DatetimeToDate2(v) != Null
    ensures DatetimeToDate2(DatetimeToDate2(v)) == DatetimeToDate2(v)
  {
    var d := ParseEither(v.s).value;
    FormatNotSpaced(d);
    FormatThenParseDay(d);
  }

  /** The year and the quarter read the same date that `datetime_to_date2` prints. */
  lemma QuarterAndYearMatchDate(v: Value)
    requires DatetimeToDate2(v) != Null
    ensures DatetimeToYear(v) == Int(DigitsValue(DatetimeToDate2(v).s[..4]))
    ensures DatetimeToQuarter(v) == Int((DigitsValue(DatetimeToDate2(v).s[5..7]) - 1) / 3 + 1)
  {
    FormatDateFields(ParseEither(v.s).value);
  }

  /** `datetime_to_date` accepts only the `T...Z` layout, and `datetime_to_date2`
      only the two others, so each refuses what the other accepts. */
  lemma DateLayoutsDiffer(d: Date, clock: string)
    requires ValidDate(d) && d.year >= 1900 && ClockOk(clock)
    ensures DatetimeToDate(Str(FormatDate(d) + "T" + clock + "Z")) == Str(FormatDate(d))
    ensures DatetimeToDate2(Str(FormatDate(d) + "T" + clock + "Z")) == Null
    ensures DatetimeToDate2(Str(FormatDate(d) + " " + clock)) == Str(FormatDate(d))
    ensures DatetimeToDate(Str(FormatDate(d) + " " + clock)) == Null
  {
    IsoZLayoutOnly(d, clock);
    SpacedLayoutOnly(d, clock);
  }

  /** A `T...Z` stamp is reduced by `datetime_to_date` and refused by `datetime_to_date2`. */
  lemma IsoZLayoutOnly(d: Date, clock: string)
    requires ValidDate(d) && d.year >= 1900 && ClockOk(clock)
    ensures DatetimeToDate(Str(FormatDate(d) + "T" + clock + "Z")) == Str(FormatDate(d))
    ensures DatetimeToDate2(Str(FormatDate(d) + "T" + clock + "Z")) == Null
  {
    FormatThenParseIsoZ(d, clock);
    IsoNotSpaced(d, clock);
  }

  /** A spaced stamp is reduced by `datetime_to_date2` and refused by `datetime_to_date`. */
  lemma SpacedLayoutOnly(d: Date, clock: string)
    requires ValidDate(d) && d.year >= 1900 && ClockOk(clock)
    ensures DatetimeToDate2(Str(FormatDate(d) + " " + clock)) == Str(FormatDate(d))
    ensures DatetimeToDate(Str(FormatDate(d) + " " + clock)) == Null
  {
    FormatThenParseSpaced(d, " ", clock);
    SpacedNotIso(d, clock);
  }
}
