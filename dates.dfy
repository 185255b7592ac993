/** The three `strptime` layouts the date adapters of sync/adapters.py parse
    with, and the `strftime('%Y-%m-%d')` they print with, as Python 2.7 does
    them: `%Y` is four digits; `%m`, `%d`, `%H`, `%M` and `%S` are one or two
    digits (`%d` also a space and a digit); a space in the layout matches any
    run of ASCII whitespace; the letters match in either case; the whole text
    must be consumed; the date must exist in the calendar; and printing a
    year before 1900 fails. */
module Dates {
  import opened Values

  datatype Date = Date(year: int, month: int, day: int)

  /** A `%m`, `%H`, `%M` or `%S` field: one or two digits whose value lies in lo..hi
      (the two-digit alternatives of each pattern spell exactly those values). */
  function Field(t: string, lo: int, hi: int): Option<int>
  {
    if 1 <= |t| <= 2 && AllDigits(t) && lo <= DigitsValue(t) <= hi then Some(DigitsValue(t)) else None
  }

  /** A `%d` field: one or two digits for 1..31, or a space and a digit 1..9. */
  function DayField(t: string): Option<int>
  {
    if |t| == 2 && t[0] == ' ' && '1' <= t[1] <= '9' then Some(DigitVal(t[1])) else Field(t, 1, 31)
  }

  predicate IsLeapYear(y: int)
  {
    y % 4 == 0 && (y % 100 != 0 || y % 400 == 0)
  }

  function DaysInMonth(y: int, m: int): int
    requires 1 <= m <= 12
  {
    if m == 2 then (if IsLeapYear(y) then 29 else 28)
    else if m == 4 || m == 6 || m == 9 || m == 11 then 30
    else 31
  }

  /** What Python's `datetime` accepts. */
  predicate ValidDate(d: Date)
  {
    1 <= d.year <= 9999 && 1 <= d.month <= 12 && 1 <= d.day <= DaysInMonth(d.year, d.month)
  }

  predicate AsciiSpace(c: char)
  {
    c == ' ' || '\t' <= c <= '\r'
  }

  /** Index of the first `c` in `s`, or `|s|`. */
  function IndexOf(s: string, c: char): (k: nat)
    ensures k <= |s| && (k < |s| ==> s[k] == c)
    ensures forall i :: 0 <= i < k ==> s[i] != c
  {
    if s == [] then 0 else if s[0] == c then 0 else 1 + IndexOf(s[1..], c)
  }

  /** Index of the first ASCII whitespace character in `s`, or `|s|`. */
  function IndexOfSpace(s: string): (k: nat)
    ensures k <= |s| && (k < |s| ==> AsciiSpace(s[k]))
    ensures forall i :: 0 <= i < k ==> !AsciiSpace(s[i])
  {
    if s == [] then 0 else if AsciiSpace(s[0]) then 0 else 1 + IndexOfSpace(s[1..])
  }

  /** Index of the first `T` or `t` in `s`, or `|s|`. */
  function IndexOfT(s: string): (k: nat)
    ensures k <= |s| && (k < |s| ==> s[k] == 'T' || s[k] == 't')
    ensures forall i :: 0 <= i < k ==> s[i] != 'T' && s[i] != 't'
  {
    if s == [] then 0 else if s[0] == 'T' || s[0] == 't' then 0 else 1 + IndexOfT(s[1..])
  }

  /** Length of the run of ASCII whitespace that starts `s`. */
  function SpanSpace(s: string): (k: nat)
    ensures k <= |s| && (k < |s| ==> !AsciiSpace(s[k]))
    ensures forall i :: 0 <= i < k ==> AsciiSpace(s[i])
  {
    if s == [] || !AsciiSpace(s[0]) then 0 else 1 + SpanSpace(s[1..])
  }

  /** `%Y-%m-` at the front of `s`: the year, the month, and the text after the second dash. */
  function YearMonth(s: string): Option<(int, int, string)>
  {
    if |s| < 5 || !AllDigits(s[..4]) || s[4] != '-' then None
    else
      var t := s[5..];
      var k := IndexOf(t, '-');
      if k == |t| then None
      else match Field(t[..k], 1, 12)
        case None => None
        case Some(m) => Some((DigitsValue(s[..4]), m, t[k + 1..]))
  }

  /** `%H:%M:%S` filling `t` exactly. Seconds 60 and 61 match the pattern, but
      `datetime` refuses them, so the layout fails on them all the same. */
  predicate ClockOk(t: string)
  {
    var i := IndexOf(t, ':');
    i < |t| && Field(t[..i], 0, 23).Some? &&
    var u := t[i + 1..];
    var j := IndexOf(u, ':');
    j < |u| && Field(u[..j], 0, 59).Some? && Field(u[j + 1..], 0, 59).Some?
  }

  function Checked(y: int, m: int, d: int): (r: Option<Date>)
    ensures r.Some? <==> ValidDate(Date(y, m, d))
    ensures r.Some? ==> r.value == Date(y, m, d)
  {
    if ValidDate(Date(y, m, d)) then Some(Date(y, m, d)) else None
  }

  /** `datetime.strptime(s, '%Y-%m-%d')`, None where it raises ValueError. */
  function ParseDay(s: string): (r: Option<Date>)
    ensures r.Some? ==> ValidDate(r.value)
  {
    match YearMonth(s)
    case None => None
    case Some((y, m, rest)) =>
      match DayField(rest)
      case None => None
      case Some(d) => Checked(y, m, d)
  }

  /** `datetime.strptime(s, '%Y-%m-%d %H:%M:%S')`, None where it raises ValueError. */
  function ParseSpaced(s: string): (r: Option<Date>)
    ensures r.Some? ==> ValidDate(r.value)
  {
    match YearMonth(s)
    case None => None
    case Some((y, m, rest)) => SpacedDay(y, m, rest)
  }

  /** The `%d %H:%M:%S` part of the spaced layout, after the year and month. */
  function SpacedDay(y: int, m: int, rest: string): (r: Option<Date>)
    ensures r.Some? ==> ValidDate(r.value)
  {
    // a day field that starts with a space is the " d" form, two characters long
    var k := if rest != [] && rest[0] == ' ' then (if |rest| >= 2 then 2 else 1) else IndexOfSpace(rest);
    var w := SpanSpace(rest[k..]);
    if w == 0 || !ClockOk(rest[k + w..]) then None
    else match DayField(rest[..k])
      case None => None
      case Some(d) => Checked(y, m, d)
  }

  /** `datetime.strptime(s, '%Y-%m-%dT%H:%M:%SZ')`, None where it raises ValueError. */
  function ParseIsoZ(s: string): (r: Option<Date>)
    ensures r.Some? ==> ValidDate(r.value)
  {
    match YearMonth(s)
    case None => None
    case Some((y, m, rest)) =>
      var k := IndexOfT(rest);
      if k == |rest| || !(rest[|rest| - 1] == 'Z' || rest[|rest| - 1] == 'z') || k + 1 > |rest| - 1
        || !ClockOk(rest[k + 1..|rest| - 1]) then None
      else match DayField(rest[..k])
        case None => None
        case Some(d) => Checked(y, m, d)
  }

  /** The `%Y-%m-%d %H:%M:%S`, then `%Y-%m-%d`, fallback chain of the date adapters. */
  function ParseEither(s: string): (r: Option<Date>)
    ensures r.Some? ==> ValidDate(r.value)
  {
    if ParseSpaced(s).Some? then ParseSpaced(s) else ParseDay(s)
  }

  /** No text matches both layouts of the fallback chain, so the order in
      which they are tried does not matter, and the chain fails exactly when
      both layouts do. */
  lemma FallbackLayoutsExclusive(s: string)
    ensures ParseSpaced(s).None? || ParseDay(s).None?
    ensures ParseEither(s) == if ParseDay(s).Some? then ParseDay(s) else ParseSpaced(s)
    ensures ParseEither(s).None? <==> ParseSpaced(s).None? && ParseDay(s).None?
  {
    if YearMonth(s).Some? && ParseDay(s).Some? {
      var (y, m, rest) := YearMonth(s).value;
      if rest != [] && rest[0] == ' ' {
        assert |rest| == 2 && rest[2..] == [];
      } else {
        assert AllDigits(rest);
        assert rest[|rest|..] == [];
      }
    }
  }

  /** `n` printed in `w` digits, zero-padded (the low `w` digits when `n` is wider). */
  function Pad(n: nat, w: nat): (r: string)
    ensures |r| == w && AllDigits(r)
  {
    if w == 0 then "" else Pad(n / 10, w - 1) + [DigitChar(n % 10)]
  }

  function Pow10(w: nat): nat
  {
    if w == 0 then 1 else 10 * Pow10(w - 1)
  }

  /** Reading back a padded number gives the number, when it fits. */
  lemma {:induction false} PadValue(n: nat, w: nat)
    requires n < Pow10(w)
    ensures DigitsValue(Pad(n, w)) == n
  {
    if w > 0 {
      var p := Pad(n, w);
      assert p[..|p| - 1] == Pad(n / 10, w - 1);
      PadValue(n / 10, w - 1);
    }
  }

  /** `strftime('%Y-%m-%d')` of a date from 1900 on. */
  function FormatDate(d: Date): (r: string)
    requires ValidDate(d) && d.year >= 1900
    ensures |r| == 10 && r[4] == '-' && r[7] == '-'
    ensures AllDigits(r[..4]) && AllDigits(r[5..7]) && AllDigits(r[8..])
  {
    Pad(d.year, 4) + "-" + Pad(d.month, 2) + "-" + Pad(d.day, 2)
  }

  /** Reading the fields of a printed date gives the date back. */
  lemma FormatDateFields(d: Date)
    requires ValidDate(d) && d.year >= 1900
    ensures DigitsValue(FormatDate(d)[..4]) == d.year
    ensures DigitsValue(FormatDate(d)[5..7]) == d.month
    ensures DigitsValue(FormatDate(d)[8..]) == d.day
  {
    var r := FormatDate(d);
    assert r[..4] == Pad(d.year, 4);
    assert r[5..7] == Pad(d.month, 2);
    assert r[8..] == Pad(d.day, 2);
    assert Pow10(2) == 100 && Pow10(4) == 10000;
    PadValue(d.year, 4);
    PadValue(d.month, 2);
    PadValue(d.day, 2);
  }

  /** The year and month of a printed date, whatever follows it. */
  lemma YearMonthOfFormat(d: Date, tail: string)
    requires ValidDate(d) && d.year >= 1900
    ensures YearMonth(FormatDate(d) + tail) == Some((d.year, d.month, FormatDate(d)[8..] + tail))
  {
    var r := FormatDate(d);
    var s := r + tail;
    FormatDateFields(d);
    assert s[..4] == r[..4];
    var t := s[5..];
    assert IndexOf(t, '-') == 2 by { assert t[2] == '-' && IsDigit(t[0]) && IsDigit(t[1]); }
    assert t[..2] == r[5..7];
    assert Field(t[..2], 1, 12) == Some(d.month);
    assert t[3..] == r[8..] + tail;
  }

  /** A printed date parses back to itself under `%Y-%m-%d`. */
  lemma FormatThenParseDay(d: Date)
    requires ValidDate(d) && d.year >= 1900
    ensures ParseDay(FormatDate(d)) == Some(d)
  {
    var r := FormatDate(d);
    FormatDateFields(d);
    YearMonthOfFormat(d, "");
    assert r + "" == r;
  }

  /** A printed date followed by whitespace and a clock parses back to itself
      under `%Y-%m-%d %H:%M:%S`. */
  lemma FormatThenParseSpaced(d: Date, sep: string, clock: string)
    requires ValidDate(d) && d.year >= 1900
    requires sep != [] && forall i :: 0 <= i < |sep| ==> AsciiSpace(sep[i])
    requires ClockOk(clock)
    ensures ParseSpaced(FormatDate(d) + sep + clock) == Some(d)
  {
    var r := FormatDate(d);
    FormatDateFields(d);
    assert r + sep + clock == r + (sep + clock);
    YearMonthOfFormat(d, sep + clock);
    SpacedOfParts(r + (sep + clock), d.year, d.month, r[8..], sep, clock, d.day);
  }

  /** A year and month, then a day, whitespace and a clock, parse as that date. */
  lemma SpacedOfParts(s: string, y: int, m: int, day: string, sep: string, clock: string, n: int)
    requires YearMonth(s) == Some((y, m, day + (sep + clock)))
    requires |day| == 2 && AllDigits(day) && DigitsValue(day) == n && 1 <= n <= 31
    requires sep != [] && forall i :: 0 <= i < |sep| ==> AsciiSpace(sep[i])
    requires ClockOk(clock) && ValidDate(Date(y, m, n))
    ensures ParseSpaced(s) == Some(Date(y, m, n))
  {
    SpacedRest(day, sep, clock, n);
    assert SpacedDay(y, m, day + (sep + clock)) == Some(Date(y, m, n));
  }

  /** What follows the month in a spaced stamp: a two-digit day, ending where
      the whitespace starts, which runs up to the clock. */
  lemma SpacedRest(day: string, sep: string, clock: string, n: int)
    requires |day| == 2 && AllDigits(day) && DigitsValue(day) == n && 1 <= n <= 31
    requires sep != [] && forall i :: 0 <= i < |sep| ==> AsciiSpace(sep[i])
    requires ClockOk(clock)
    ensures var rest := day + (sep + clock);
            rest[0] != ' ' && IndexOfSpace(rest) == 2 && rest[..2] == day
            && SpanSpace(rest[2..]) == |sep| && rest[2 + |sep|..] == clock
    ensures DayField(day) == Some(n)
  {
    var rest := day + (sep + clock);
    DayPart(day, sep + clock, n);
    assert rest[2..] == sep + clock;
    ClockChars(clock);
    SpanOfSpaces(sep, clock);
    assert rest[2 + |sep|..] == clock;
  }

  /** The day of a printed date, then whitespace: the day field ends where the whitespace starts. */
  lemma DayPart(day: string, tail: string, n: int)
    requires |day| == 2 && AllDigits(day) && DigitsValue(day) == n && 1 <= n <= 31
    requires tail != [] && AsciiSpace(tail[0])
    ensures IndexOfSpace(day + tail) == 2 && (day + tail)[..2] == day
    ensures DayField(day) == Some(n)
  {
    var x := day + tail;
    assert IsDigit(x[0]) && IsDigit(x[1]) && AsciiSpace(x[2]);
  }

  lemma {:induction false} SpanOfSpaces(sep: string, t: string)
    requires forall i :: 0 <= i < |sep| ==> AsciiSpace(sep[i])
    requires t != [] && IsDigit(t[0])
    ensures SpanSpace(sep + t) == |sep|
    decreases |sep|
  {
    if sep == [] {
      assert sep + t == t;
    } else {
      assert (sep + t)[1..] == sep[1..] + t;
      SpanOfSpaces(sep[1..], t);
    }
  }

  /** A clock is made of digits and colons only. */
  lemma ClockChars(t: string)
    requires ClockOk(t)
    ensures t != [] && IsDigit(t[0])
    ensures forall k :: 0 <= k < |t| ==> IsDigit(t[k]) || t[k] == ':'
  {
    var i := IndexOf(t, ':');
    var u := t[i + 1..];
    var j := IndexOf(u, ':');
    forall k | 0 <= k < |t| ensures IsDigit(t[k]) || t[k] == ':' {
      if k < i {
        assert t[k] == t[..i][k];
      } else if k > i {
        if k - i - 1 < j {
          assert t[k] == u[..j][k - i - 1];
        } else if k - i - 1 > j {
          assert t[k] == u[j + 1..][k - i - 1 - j - 1];
        }
      }
    }
  }

  /** A printed date alone has no clock, so `%Y-%m-%d %H:%M:%S` refuses it. */
  lemma FormatNotSpaced(d: Date)
    requires ValidDate(d) && d.year >= 1900
    ensures ParseSpaced(FormatDate(d)).None?
  {
    var r := FormatDate(d);
    YearMonthOfFormat(d, "");
    assert r + "" == r;
    var rest := r[8..];
    assert IsDigit(rest[0]) && IsDigit(rest[1]);
    assert IndexOfSpace(rest) == 2;
  }

  /** A printed date, `T`, a clock and `Z` parses back to the date under `%Y-%m-%dT%H:%M:%SZ`. */
  lemma FormatThenParseIsoZ(d: Date, clock: string)
    requires ValidDate(d) && d.year >= 1900
    requires ClockOk(clock)
    ensures ParseIsoZ(FormatDate(d) + "T" + clock + "Z") == Some(d)
  {
    var r := FormatDate(d);
    FormatDateFields(d);
    var tail := "T" + clock + "Z";
    assert r + "T" + clock + "Z" == r + tail;
    YearMonthOfFormat(d, tail);
    IsoZOfParts(r + tail, d.year, d.month, r[8..], clock, d.day);
  }

  /** A year and month, then a day, `T`, a clock and `Z`, parse as that date. */
  lemma IsoZOfParts(s: string, y: int, m: int, day: string, clock: string, n: int)
    requires YearMonth(s) == Some((y, m, day + ("T" + clock + "Z")))
    requires |day| == 2 && AllDigits(day) && DigitsValue(day) == n && 1 <= n <= 31
    requires ClockOk(clock) && ValidDate(Date(y, m, n))
    ensures ParseIsoZ(s) == Some(Date(y, m, n))
  {
    IsoDayPart(day, clock, n);
  }

  /** The day of a printed date, then a `T` clock and `Z`: the day field ends
      at the `T`, and the clock lies between it and the `Z`. */
  lemma IsoDayPart(day: string, clock: string, n: int)
    requires |day| == 2 && AllDigits(day) && DigitsValue(day) == n && 1 <= n <= 31
    ensures var rest := day + ("T" + clock + "Z");
            IndexOfT(rest) == 2 && rest[..2] == day && rest[|rest| - 1] == 'Z' && rest[3..|rest| - 1] == clock
    ensures DayField(day) == Some(n)
  {
    var rest := day + ("T" + clock + "Z");
    assert IsDigit(rest[0]) && IsDigit(rest[1]) && rest[2] == 'T';
    assert rest[3..|rest| - 1] == clock;
  }

  /** The ISO layout and the two others never accept the same text: a date with
      a `T` clock fails both fallbacks, and a date with a spaced clock fails the ISO layout. */
  lemma LayoutsDisjoint(d: Date, clock: string)
    requires ValidDate(d) && d.year >= 1900
    requires ClockOk(clock)
    ensures ParseEither(FormatDate(d) + "T" + clock + "Z").None?
    ensures ParseIsoZ(FormatDate(d) + " " + clock).None?
  {
    IsoNotSpaced(d, clock);
    SpacedNotIso(d, clock);
  }

  /** A date with a `T` clock has no whitespace after its month: both
      fallback layouts refuse it. */
  lemma IsoNotSpaced(d: Date, clock: string)
    requires ValidDate(d) && d.year >= 1900
    requires ClockOk(clock)
    ensures ParseEither(FormatDate(d) + "T" + clock + "Z").None?
  {
    var r := FormatDate(d);
    ClockChars(clock);
    var iso := "T" + clock + "Z";
    assert r + "T" + clock + "Z" == r + iso;
    YearMonthOfFormat(d, iso);
    var rest := r[8..] + iso;
    assert !AsciiSpace(rest[0]);
    assert forall k :: 0 <= k < |rest| ==> !AsciiSpace(rest[k]) by {
      forall k | 0 <= k < |rest| ensures !AsciiSpace(rest[k]) {
        if 3 <= k < |rest| - 1 { assert rest[k] == clock[k - 3]; }
      }
    }
    assert IndexOfSpace(rest) == |rest|;
  }

  /** A date with a spaced clock has no `T` after its month: the ISO
      layout refuses it. */
  lemma SpacedNotIso(d: Date, clock: string)
    requires ValidDate(d) && d.year >= 1900
    requires ClockOk(clock)
    ensures ParseIsoZ(FormatDate(d) + " " + clock).None?
  {
    var r := FormatDate(d);
    ClockChars(clock);
    var spaced := " " + clock;
    assert r + " " + clock == r + spaced;
    YearMonthOfFormat(d, spaced);
    var rest2 := r[8..] + spaced;
    assert forall k :: 0 <= k < |rest2| ==> rest2[k] != 'T' && rest2[k] != 't' by {
      forall k | 0 <= k < |rest2| ensures rest2[k] != 'T' && rest2[k] != 't' {
        if k >= 3 { assert rest2[k] == clock[k - 3]; }
      }
    }
    assert IndexOfT(rest2) == |rest2|;
  }
}
