/** Python values as the synchronisation engine sees them, with the few
    built-in operations the engine relies on: truthiness, `==`, `str()`,
    `str.split()`, `' '.join(...)` and `str.strip()`. */
module Values {

  datatype Option<T> = None | Some(value: T)

  /** A field value read from, or written to, one of the two CRMs. */
  datatype Value =
    | Null                               // Python None
    | Str(s: string)
    | Int(i: int)
    | Bool(b: bool)
    | Obj(attrs: map<string, Value>)     // an entity object reached through a related field
    | Dict(entries: map<string, Value>)  // a JSON object kept as a dict
    | List(items: seq<Value>)            // a JSON array

  /** The attributes of one entity, by field name. */
  type Record = map<string, Value>

  /** Python truthiness. */
  predicate Truthy(v: Value)
  {
    match v
    case Null => false
    case Str(s) => s != ""
    case Int(i) => i != 0
    case Bool(b) => b
    case Obj(_) => true
    case Dict(m) => |m| != 0
    case List(xs) => |xs| != 0
  }

  /** The integer a value stands for in a numeric comparison (`True == 1`). */
  function Numeric(v: Value): Option<int>
  {
    match v
    case Int(i) => Some(i)
    case Bool(b) => Some(if b then 1 else 0)
    case _ => None
  }

  /** Python `a == b`: booleans and integers compare numerically,
      everything else structurally. */
  predicate PyEq(a: Value, b: Value)
  {
    if Numeric(a).Some? && Numeric(b).Some? then Numeric(a) == Numeric(b) else a == b
  }

  /** "Nothing": the two values `update_field` never writes over an existing one. */
  predicate IsBlank(v: Value)
  {
    v == Null || v == Str("")
  }

  /** `record.name`, where a field the record does not hold reads as None. */
  function Get(r: Record, name: string): Value
  {
    if name in r then r[name] else Null
  }

  /** `obj.name` on a related entity; None on anything that is not an entity. */
  function Attr(o: Value, name: string): Value
  {
    if o.Obj? && name in o.attrs then o.attrs[name] else Null
  }

  // ---------------------------------------------------------------------
  // Decimal rendering of integers (`str(n)`)

  function DigitChar(d: int): char
    requires 0 <= d < 10
  {
    (('0' as int) + d) as char
  }

  predicate IsDigit(c: char)
  {
    '0' <= c <= '9'
  }

  function DigitVal(c: char): int
  {
    c as int - '0' as int
  }

  predicate AllDigits(s: string)
  {
    forall k :: 0 <= k < |s| ==> IsDigit(s[k])
  }

  /** The number a run of decimal digits spells. */
  function DigitsValue(s: string): nat
    requires AllDigits(s)
    decreases |s|
  {
    if s == [] then 0 else DigitsValue(s[..|s| - 1]) * 10 + DigitVal(s[|s| - 1])
  }

  /** A Python exception the modelled code raises. */
  datatype Exception =
    | InitializationError(entity: string)
    | SavingError(entity: string)
    | AttributeError(name: string)
    | KeyError(key: int)
    | MissingKey(name: string)
    | TypeError
    | ValueError
    | UnicodeEncodeError

  /** A result, or the exception raised instead of it. */
  datatype Outcome<T> = Ok(value: T) | Raised(exc: Exception)

  /** A JSON object as the clients return it: its pairs in iteration order. */
  type Data = seq<(string, Value)>

  /** The value of a key in a JSON object (its first occurrence). */
  function Lookup(data: Data, k: string): (r: Option<Value>)
    ensures r.Some? <==> exists i :: 0 <= i < |data| && data[i].0 == k
    decreases |data|
  {
    if data == [] then None
    else if data[0].0 == k then Some(data[0].1)
    else
      assert forall i :: 1 <= i < |data| ==> data[1..][i - 1] == data[i];
      Lookup(data[1..], k)
  }

  function NatToString(n: nat): (r: string)
    ensures |r| >= 1 && (n >= 10 <==> |r| >= 2)
    ensures forall k :: 0 <= k < |r| ==> IsDigit(r[k])
    decreases n
  {
    if n < 10 then [DigitChar(n)] else NatToString(n / 10) + [DigitChar(n % 10)]
  }

  lemma {:induction false} NatToStringInjective(a: nat, b: nat)
    requires NatToString(a) == NatToString(b)
    ensures a == b
    decreases a
  {
    if a >= 10 && b >= 10 {
      var ra, rb := NatToString(a), NatToString(b);
      assert ra[|ra| - 1] == DigitChar(a % 10) && rb[|rb| - 1] == DigitChar(b % 10);
      assert a % 10 == b % 10;
      assert ra[..|ra| - 1] == NatToString(a / 10);
      assert rb[..|rb| - 1] == NatToString(b / 10);
      NatToStringInjective(a / 10, b / 10);
    }
  }

  function IntToString(i: int): (r: string)
    ensures |r| >= 1 && (r[0] == '-' <==> i < 0)
  {
    if i < 0 then "-" + NatToString(-i) else NatToString(i)
  }

  /** Distinct integers print differently. */
  lemma IntToStringInjective(a: int, b: int)
    requires IntToString(a) == IntToString(b)
    ensures a == b
  {
    if a < 0 {
      assert IntToString(a)[1..] == NatToString(-a) && IntToString(b)[1..] == NatToString(-b);
      NatToStringInjective(-a, -b);
    } else {
      NatToStringInjective(a, b);
    }
  }

  /** Python `str(v)` (for entities, dicts and lists the source prints a
      representation the model does not reproduce; a fixed text stands for it). */
  function Show(v: Value): string
  {
    match v
    case Null => "None"
    case Str(s) => s
    case Int(i) => IntToString(i)
    case Bool(b) => if b then "True" else "False"
    case _ => "<object>"
  }

  predicate Ascii(s: string)
  {
    forall k :: 0 <= k < |s| ==> s[k] as int < 128
  }

  /** Python 2 `str(v)`: a unicode text holding a character outside ASCII
      cannot be encoded with the default codec and raises UnicodeEncodeError;
      every other value prints as `Show` has it. */
  function PyStr(v: Value): (r: Outcome<string>)
    ensures r.Raised? <==> v.Str? && !Ascii(v.s)
    ensures r.Raised? ==> r.exc == UnicodeEncodeError
    ensures r.Ok? ==> r.value == Show(v) && Ascii(r.value)
  {
    if v.Str? && !Ascii(v.s) then Raised(UnicodeEncodeError)
    else
      assert Ascii(Show(v)) by {
        if v.Int? { NatToStringAscii(if v.i < 0 then -v.i else v.i); }
      }
      Ok(Show(v))
  }

  lemma {:induction false} NatToStringAscii(n: nat)
    ensures Ascii(NatToString(n))
    decreases n
  {
    if n >= 10 {
      NatToStringAscii(n / 10);
    }
  }

  /** Joining ASCII texts with spaces gives an ASCII text. */
  lemma {:induction false} JoinAscii(ws: seq<string>)
    requires forall k :: 0 <= k < |ws| ==> Ascii(ws[k])
    ensures Ascii(JoinSpace(ws))
    decreases |ws|
  {
    if |ws| > 1 {
      JoinAscii(ws[1..]);
    }
  }

  /** What Python 2's `int()` makes of a value: an integer, a string that is
      no integer literal (ValueError), or a value of another type (TypeError).
      A string is read as optional whitespace, an optional sign, optional
      whitespace again, at least one decimal digit and optional whitespace. */
  datatype IntConversion = Converted(n: int) | NotALiteral | WrongType

  function PyInt(v: Value): (r: IntConversion)
    ensures v.Int? ==> r == Converted(v.i)
    ensures r.WrongType? <==> !(v.Int? || v.Bool? || v.Str?)
  {
    match v
    case Int(i) => Converted(i)
    case Bool(b) => Converted(if b then 1 else 0)
    case Str(s) =>
      var lit := SignedLiteral(Strip(s));
      if lit.Some? then Converted(lit.value) else NotALiteral
    case _ => WrongType
  }

  /** The integer a stripped text spells as an optional sign, optional
      whitespace and at least one decimal digit. */
  function SignedLiteral(t: string): Option<int>
  {
    var signed := t != "" && (t[0] == '-' || t[0] == '+');
    var digits := if signed then Strip(t[1..]) else t;
    if digits != "" && AllDigits(digits) then
      Some(if signed && t[0] == '-' then 0 - DigitsValue(digits) as int else DigitsValue(digits))
    else None
  }

  // ---------------------------------------------------------------------
  // Whitespace, split, join and strip, as Python 2.7's unicode methods do them

  predicate IsSpace(c: char)
  {
    c == ' ' || ('\t' <= c <= '\r') || ('\U{1C}' <= c <= '\U{1F}') || c == '\U{85}'
    || c == '\U{A0}' || c == '\U{1680}' || c == '\U{180E}' || ('\U{2000}' <= c <= '\U{200A}')
    || c == '\U{2028}' || c == '\U{2029}' || c == '\U{202F}' || c == '\U{205F}' || c == '\U{3000}'
  }

  predicate NoSpace(w: string)
  {
    forall k :: 0 <= k < |w| ==> !IsSpace(w[k])
  }

  /** A token `str.split()` can produce: non-empty, without whitespace. */
  predicate IsWord(w: string)
  {
    w != "" && NoSpace(w)
  }

  /** Length of the run of non-whitespace characters that starts `s`. */
  function SpanNonSpace(s: string): (k: nat)
    ensures k <= |s|
    ensures forall i :: 0 <= i < k ==> !IsSpace(s[i])
    ensures k < |s| ==> IsSpace(s[k])
  {
    if s == [] || IsSpace(s[0]) then 0 else 1 + SpanNonSpace(s[1..])
  }

  /** The characters of `s` that are not whitespace, in order. */
  function NonSpaces(s: string): string
  {
    if s == [] then "" else (if IsSpace(s[0]) then "" else [s[0]]) + NonSpaces(s[1..])
  }

  /** The texts of `ws` one after the other. */
  function Concat(ws: seq<string>): string
  {
    if ws == [] then "" else ws[0] + Concat(ws[1..])
  }

  /** Python `s.split()`: the maximal whitespace-free runs, in order.
      `WordsCoverNonSpaces`, `WordsAppend` and `WordsOfWordThen` show that
      the tokens hold exactly the non-whitespace characters of `s` and
      break exactly where `s` has whitespace. */
  function Words(s: string): (ws: seq<string>)
    ensures forall k :: 0 <= k < |ws| ==> IsWord(ws[k])
    decreases |s|
  {
    if s == [] then []
    else if IsSpace(s[0]) then Words(s[1..])
    else
      var k := SpanNonSpace(s);
      [s[..k]] + Words(s[k..])
  }

  /** The words of a text hold exactly its non-whitespace characters. */
  lemma {:induction false} WordsCoverNonSpaces(s: string)
    ensures Concat(Words(s)) == NonSpaces(s)
    decreases |s|
  {
    if s != [] {
      if IsSpace(s[0]) {
        WordsCoverNonSpaces(s[1..]);
      } else {
        var k := SpanNonSpace(s);
        var rest := Words(s[k..]);
        WordsCoverNonSpaces(s[k..]);
        assert s[..k] + s[k..] == s;
        NonSpacesOfWord(s[..k], s[k..]);
        assert ([s[..k]] + rest)[1..] == rest;
      }
    }
  }

  lemma {:induction false} NonSpacesOfWord(w: string, t: string)
    requires NoSpace(w)
    ensures NonSpaces(w + t) == w + NonSpaces(t)
    decreases |w|
  {
    if w == [] {
      assert w + t == t;
    } else {
      assert (w + t)[1..] == w[1..] + t;
      NonSpacesOfWord(w[1..], t);
      assert [w[0]] + w[1..] == w;
    }
  }

  /** Python `' '.join(ws)`. */
  function JoinSpace(ws: seq<string>): string
  {
    if |ws| == 0 then ""
    else if |ws| == 1 then ws[0]
    else ws[0] + " " + JoinSpace(ws[1..])
  }

  /** `r` stands at index `i` of `s` with only whitespace before and after it. */
  predicate Framed(s: string, i: int, r: string)
  {
    0 <= i <= |s| - |r| && r == s[i..i + |r|]
    && (forall k :: 0 <= k < i ==> IsSpace(s[k]))
    && (forall k :: i + |r| <= k < |s| ==> IsSpace(s[k]))
  }

  /** Python `s.strip()`: the part of `s` between its leading and its
      trailing whitespace (`StripIsFramed`); empty exactly when `s` is all
      whitespace. */
  function Strip(s: string): (r: string)
    ensures |r| <= |s|
    ensures r == "" <==> forall k :: 0 <= k < |s| ==> IsSpace(s[k])
    ensures r != "" ==> !IsSpace(r[0]) && !IsSpace(r[|r| - 1])
    decreases |s|
  {
    if s == [] then ""
    else if IsSpace(s[0]) then
      assert forall k :: 1 <= k < |s| ==> s[k] == s[1..][k - 1];
      Strip(s[1..])
    else if IsSpace(s[|s| - 1]) then
      assert forall k :: 0 <= k < |s| - 1 ==> s[k] == s[..|s| - 1][k];
      Strip(s[..|s| - 1])
    else s
  }

  /** What `strip()` returns stands in `s` with only whitespace around it. */
  lemma {:induction false} StripIsFramed(s: string)
    ensures exists i :: Framed(s, i, Strip(s))
    decreases |s|
  {
    var r := Strip(s);
    if s == [] {
      assert Framed(s, 0, r);
    } else if IsSpace(s[0]) {
      StripIsFramed(s[1..]);
      var i :| Framed(s[1..], i, r);
      FramedAfterSpace(s, i, r);
    } else if IsSpace(s[|s| - 1]) {
      StripIsFramed(s[..|s| - 1]);
      var i :| Framed(s[..|s| - 1], i, r);
      FramedBeforeSpace(s, i, r);
    } else {
      assert Framed(s, 0, r);
    }
  }

  lemma FramedAfterSpace(s: string, i: int, r: string)
    requires s != [] && IsSpace(s[0]) && Framed(s[1..], i, r)
    ensures Framed(s, i + 1, r)
  {
    assert s[1..][i..i + |r|] == s[i + 1..i + 1 + |r|];
    forall k | 0 <= k < i + 1 ensures IsSpace(s[k]) {
      if k > 0 { assert s[k] == s[1..][k - 1]; }
    }
    forall k | i + 1 + |r| <= k < |s| ensures IsSpace(s[k]) {
      assert s[k] == s[1..][k - 1];
    }
  }

  lemma FramedBeforeSpace(s: string, i: int, r: string)
    requires s != [] && IsSpace(s[|s| - 1]) && Framed(s[..|s| - 1], i, r)
    ensures Framed(s, i, r)
  {
    assert s[..|s| - 1][i..i + |r|] == s[i..i + |r|];
    forall k | 0 <= k < i ensures IsSpace(s[k]) {
      assert s[k] == s[..|s| - 1][k];
    }
    forall k | i + |r| <= k < |s| ensures IsSpace(s[k]) {
      if k < |s| - 1 { assert s[k] == s[..|s| - 1][k]; }
    }
  }

  lemma {:induction false} SpanOfWord(w: string, t: string)
    requires NoSpace(w)
    requires t == [] || IsSpace(t[0])
    ensures SpanNonSpace(w + t) == |w|
    decreases |w|
  {
    if w != [] {
      assert (w + t)[1..] == w[1..] + t;
      SpanOfWord(w[1..], t);
    } else {
      assert w + t == t;
    }
  }

  lemma WordsOfWordThen(w: string, t: string)
    requires IsWord(w)
    requires t == [] || IsSpace(t[0])
    ensures Words(w + t) == [w] + Words(t)
  {
    SpanOfWord(w, t);
    assert (w + t)[..|w|] == w;
    assert (w + t)[|w|..] == t;
  }

  /** Splitting a space-joined sequence of words gives the words back. */
  lemma {:induction false} WordsOfJoin(ws: seq<string>)
    requires forall k :: 0 <= k < |ws| ==> IsWord(ws[k])
    ensures Words(JoinSpace(ws)) == ws
    decreases |ws|
  {
    if |ws| == 1 {
      WordsOfWordThen(ws[0], "");
      assert ws[0] + "" == ws[0];
    } else if |ws| > 1 {
      var rest := JoinSpace(ws[1..]);
      assert ws[0] + " " + rest == ws[0] + (" " + rest);
      WordsOfWordThen(ws[0], " " + rest);
      assert (" " + rest)[1..] == rest;
      WordsOfJoin(ws[1..]);
      assert [ws[0]] + ws[1..] == ws;
    }
  }

  /** Joining all but the last word, then the last one, joins them all. */
  lemma {:induction false} JoinSnoc(ws: seq<string>)
    requires |ws| >= 2
    ensures JoinSpace(ws[..|ws| - 1]) + " " + ws[|ws| - 1] == JoinSpace(ws)
    decreases |ws|
  {
    if |ws| > 2 {
      JoinSnoc(ws[1..]);
      assert ws[1..][..|ws| - 2] == ws[..|ws| - 1][1..];
      assert ws[1..][|ws| - 2] == ws[|ws| - 1];
    }
  }

  /** The non-whitespace span of a text is unaffected by what follows a
      whitespace character. */
  lemma {:induction false} SpanNonSpaceAppend(a: string, t: string)
    requires SpanNonSpace(a) < |a| || t == [] || IsSpace(t[0])
    ensures SpanNonSpace(a + t) == SpanNonSpace(a)
    decreases |a|
  {
    if a == [] {
      assert a + t == t;
    } else if !IsSpace(a[0]) {
      assert (a + t)[1..] == a[1..] + t;
      SpanNonSpaceAppend(a[1..], t);
    }
  }

  /** `split()` breaks at whitespace: the words of a text followed by a
      whitespace-led text are the words of each. */
  lemma {:induction false} WordsAppend(a: string, t: string)
    requires t == [] || IsSpace(t[0])
    ensures Words(a + t) == Words(a) + Words(t)
    decreases |a|
  {
    if a == [] {
      assert a + t == t;
    } else if IsSpace(a[0]) {
      WordsAppend(a[1..], t);
      SpaceLedAppend(a, t);
    } else {
      var k := SpanNonSpace(a);
      SpanNonSpaceAppend(a, t);
      WordsAppend(a[k..], t);
      WordLedAppend(a, t, k);
      ShiftTail(Words(a + t), Words(a), [a[..k]], Words(a[k..]), Words(t));
    }
  }

  /** Leading whitespace is skipped whatever follows the text. */
  lemma SpaceLedAppend(a: string, t: string)
    requires a != [] && IsSpace(a[0])
    ensures Words(a + t) == Words(a[1..] + t)
    ensures Words(a) == Words(a[1..])
  {
    assert (a + t)[0] == a[0];
    assert (a + t)[1..] == a[1..] + t;
  }

  /** A text that starts with a word keeps that word first when another
      text follows the word's end. */
  lemma WordLedAppend(a: string, t: string, k: nat)
    requires a != [] && !IsSpace(a[0]) && k == SpanNonSpace(a) && SpanNonSpace(a + t) == k
    ensures Words(a + t) == [a[..k]] + Words(a[k..] + t)
    ensures Words(a) == [a[..k]] + Words(a[k..])
  {
    assert (a + t)[0] == a[0];
    assert (a + t)[..k] == a[..k];
    assert (a + t)[k..] == a[k..] + t;
  }

  /** A sequence made of a head and two parts is the head and the first
      part, followed by the second part. */
  lemma ShiftTail<T>(x: seq<T>, y: seq<T>, head: seq<T>, part: seq<T>, tail: seq<T>)
    requires x == head + (part + tail) && y == head + part
    ensures x == y + tail
  {
  }

  /** A text framed by whitespace and with no whitespace at either end is
      what `strip()` returns. */
  lemma StripFramed(s: string, i: int, r: string)
    requires Framed(s, i, r)
    requires r != "" ==> !IsSpace(r[0]) && !IsSpace(r[|r| - 1])
    ensures Strip(s) == r
  {
    var r' := Strip(s);
    StripIsFramed(s);
    var i' :| Framed(s, i', r');
    if r != "" {
      assert s[i] == r[0];
      assert r' != "";
      assert s[i'] == r'[0];
      assert i' == i;
      assert s[i + |r| - 1] == r[|r| - 1] && s[i' + |r'| - 1] == r'[|r'| - 1];
      assert |r'| == |r|;
    } else {
      assert forall k :: 0 <= k < |s| ==> IsSpace(s[k]) by {
        forall k | 0 <= k < |s| ensures IsSpace(s[k]) {
          assert k < i || i <= k;
        }
      }
    }
  }

  /** Reading back the digits of a number gives the number. */
  lemma {:induction false} DigitsOfNatToString(n: nat)
    ensures AllDigits(NatToString(n)) && DigitsValue(NatToString(n)) == n
    decreases n
  {
    var r := NatToString(n);
    if n >= 10 {
      DigitsOfNatToString(n / 10);
      assert r[..|r| - 1] == NatToString(n / 10);
    }
  }

  /** The printed form of an integer is a literal for it. */
  lemma SignedLiteralOfIntToString(n: int)
    ensures SignedLiteral(IntToString(n)) == Some(n)
  {
    var lit := IntToString(n);
    var m: nat := if n < 0 then -n else n;
    var digits := NatToString(m);
    DigitsOfNatToString(m);
    if n < 0 {
      assert lit[1..] == digits;
      assert !IsSpace(digits[0]) && !IsSpace(digits[|digits| - 1]);
      assert Framed(digits, 0, digits);
      StripFramed(digits, 0, digits);
    } else {
      assert lit == digits;
    }
  }

  /** `int(str(n)) == n`, also with whitespace around the literal. */
  lemma PyIntPadded(pre: string, n: int, post: string)
    requires forall k :: 0 <= k < |pre| ==> IsSpace(pre[k])
    requires forall k :: 0 <= k < |post| ==> IsSpace(post[k])
    ensures PyInt(Str(pre + IntToString(n) + post)) == Converted(n)
  {
    var lit := IntToString(n);
    var s := pre + lit + post;
    var m: nat := if n < 0 then -n else n;
    DigitsOfNatToString(m);
    assert !IsSpace(lit[0]) && !IsSpace(lit[|lit| - 1]) by {
      if n < 0 { assert lit[|lit| - 1] == NatToString(m)[|NatToString(m)| - 1]; }
    }
    assert s[|pre|..|pre| + |lit|] == lit;
    assert Framed(s, |pre|, lit);
    StripFramed(s, |pre|, lit);
    SignedLiteralOfIntToString(n);
  }

  /** `int(str(n)) == n`. */
  lemma PyIntOfIntToString(n: int)
    ensures PyInt(Str(IntToString(n))) == Converted(n)
  {
    var lit := IntToString(n);
    assert "" + lit + "" == lit;
    PyIntPadded("", n, "");
  }

  /** A text without a decimal digit is no integer literal. */
  lemma PyIntNoDigit(s: string)
    requires forall k :: 0 <= k < |s| ==> !IsDigit(s[k])
    ensures PyInt(Str(s)) == NotALiteral
  {
    var t := Strip(s);
    StripIsFramed(s);
    var i :| Framed(s, i, t);
    assert forall k :: 0 <= k < |t| ==> !IsDigit(t[k]) by {
      forall k | 0 <= k < |t| ensures !IsDigit(t[k]) { assert t[k] == s[i + k]; }
    }
    if t != "" && (t[0] == '-' || t[0] == '+') {
      var d := Strip(t[1..]);
      StripIsFramed(t[1..]);
      var j :| Framed(t[1..], j, d);
      if d != "" {
        assert d[0] == t[1 + j];
      }
    }
  }
}
