/** `to_snake_case` of sync/pipedrive/helpers.py (and of its older copy in
    pipedrive/helpers.py, which runs the same two regular expressions): the
    text is lowercased, every space or punctuation character becomes `_`,
    and then only digits, ASCII letters, `_` and `-` are kept. */
module SnakeCase {

  /** The first character class, `[<string.punctuation>\ ]`: the punctuation
      characters and the space. The backslash is missing, because inside the
      class it escapes the `]` that follows it. */
  predicate Separator(c: char)
  {
    (' ' <= c <= '/') || (':' <= c <= '@') || ('[' <= c <= '`' && c != '\\') || ('{' <= c <= '~')
  }

  /** The second character class, `[0-9a-zA-Z_-]`. */
  predicate Kept(c: char)
  {
    '0' <= c <= '9' || 'a' <= c <= 'z' || 'A' <= c <= 'Z' || c == '_' || c == '-'
  }

  /** What a snake-cased name is made of. */
  predicate SnakeChar(c: char)
  {
    '0' <= c <= '9' || 'a' <= c <= 'z' || c == '_'
  }

  function Lower(c: char): char
  {
    if 'A' <= c <= 'Z' then (c as int + 32) as char else c
  }

  /** What one character of the text turns into. */
  function Convert(c: char): (r: string)
    ensures |r| <= 1
    ensures forall i :: 0 <= i < |r| ==> SnakeChar(r[i])
  {
    var l := Lower(c);
    if Separator(l) then "_" else if Kept(l) then [l] else ""
  }

  function ToSnakeCase(text: string): (r: string)
    ensures |r| <= |text|
    ensures forall i :: 0 <= i < |r| ==> SnakeChar(r[i])
  {
    if text == [] then "" else Convert(text[0]) + ToSnakeCase(text[1..])
  }

  /** The conversion works character by character. */
  lemma {:induction false} ToSnakeCaseAppend(a: string, b: string)
    ensures ToSnakeCase(a + b) == ToSnakeCase(a) + ToSnakeCase(b)
    decreases |a|
  {
    if a != [] {
      assert (a + b)[0] == a[0] && (a + b)[1..] == a[1..] + b;
      ToSnakeCaseAppend(a[1..], b);
    } else {
      assert a + b == b;
    }
  }

  /** A name already in snake case is left as it is. */
  lemma {:induction false} SnakeCaseFixed(s: string)
    requires forall i :: 0 <= i < |s| ==> SnakeChar(s[i])
    ensures ToSnakeCase(s) == s
    decreases |s|
  {
    if s != [] {
      SnakeCaseFixed(s[1..]);
    }
  }

  /** Converting twice gives what converting once gives. */
  lemma ToSnakeCaseIdempotent(text: string)
    ensures ToSnakeCase(ToSnakeCase(text)) == ToSnakeCase(text)
  {
    SnakeCaseFixed(ToSnakeCase(text));
  }

  /** A text made only of ASCII letters, digits, spaces and punctuation other
      than the backslash loses no character: each one is replaced by one. */
  lemma {:induction false} NothingDropped(text: string)
    requires forall i :: 0 <= i < |text| ==> Kept(text[i]) || Separator(text[i])
    ensures |ToSnakeCase(text)| == |text|
    decreases |text|
  {
    if text != [] {
      NothingDropped(text[1..]);
    }
  }

  /** A backslash, a tab or any other character outside both classes is dropped. */
  lemma Dropped(c: char, rest: string)
    requires !Kept(Lower(c)) && !Separator(Lower(c))
    ensures ToSnakeCase([c] + rest) == ToSnakeCase(rest)
  {
    assert ([c] + rest)[1..] == rest;
  }

  /** An example of the function's documentation. */
  lemma ExampleMyLabel()
    ensures ToSnakeCase("My Label") == "my_label"
  {
  }

  /** An example of the function's documentation. */
  lemma ExampleStateCountry()
    ensures ToSnakeCase("State" + "/Country") == "state" + "_country"
  {
    ToSnakeCaseAppend("State", "/Country");
    StatePart();
    CountryPart();
  }

  lemma StatePart()
    ensures ToSnakeCase("State") == "state"
  {
  }

  lemma CountryPart()
    ensures ToSnakeCase("/Country") == "_country"
  {
  }

  /** An example of the function's documentation. */
  lemma ExampleDash()
    ensures ToSnakeCase("my-label") == "my_label"
  {
  }

  /** An example of the function's documentation. */
  lemma ExampleDateSql()
    ensures ToSnakeCase("Date SQL") == "date_sql"
  {
  }
}
