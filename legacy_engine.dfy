/** The engine of the first two versions of the synchronisation,
    marketo_pipedrive_sync.py and, earlier still, marketo_sync.py, with the
    person and lead tasks built on it. Unlike the engine of sync/tasks.py it
    has no combination mode: every field value is turned into text with
    Python 2's `str()` (None into the empty text) and the texts are always
    joined with single spaces. A field is written whenever the new value's
    text differs from the text of the old value or of `""` when the old
    value is falsy, so a blank value does overwrite, and a value of another
    type with the same text does not. `str()` of a unicode text holding a
    character outside ASCII raises UnicodeEncodeError, which ends the task. */
module LegacyEngine {
  import opened Values
  import R = RootAdapters
  import M = RootMappings
  import T = Tasks
  import Later = Engine

  /** A value Python 2's `str()` accepts. */
  predicate Printable(v: Value)
  {
    PyStr(v).Ok?
  }

  /** `str(v) if v is not None else ""`. */
  function Piece(v: Value): (r: Outcome<string>)
    ensures r.Raised? <==> !Printable(v)
    ensures r.Raised? ==> r.exc == UnicodeEncodeError
    ensures r.Ok? ==> Ascii(r.value) && r.value == if v == Null then "" else Show(v)
  {
    if v == Null then Ok("") else PyStr(v)
  }

  /** One field of `get_new_attr`'s loop: read, pre-adapted, stringified. */
  function ReadField(src: Record, f: string, pre: Option<R.Adapter>, env: R.Env): Outcome<string>
  {
    match R.ApplyOpt(pre, Get(src, f), env)
    case Raised(e) => Raised(e)
    case Ok(v) => Piece(v)
  }

  /** The loop both early versions run over the fields of an entry: the
      text `read` gives each field, in order, or the exception of the first
      field it raises on. */
  function Collect(fs: seq<string>, read: string -> Outcome<string>): (r: Outcome<seq<string>>)
    ensures r.Ok? <==> forall i :: 0 <= i < |fs| ==> read(fs[i]).Ok?
    ensures r.Raised? ==> exists i :: 0 <= i < |fs| && read(fs[i]) == Raised(r.exc)
    ensures r.Ok? ==> |r.value| == |fs| && forall i :: 0 <= i < |fs| ==> r.value[i] == read(fs[i]).value
    decreases |fs|
  {
    if fs == [] then Ok([])
    else
      var init := fs[..|fs| - 1];
      assert forall i :: 0 <= i < |init| ==> init[i] == fs[i];
      match Collect(init, read)
      case Raised(e) => Raised(e)
      case Ok(texts) =>
        match read(fs[|fs| - 1])
        case Raised(e) => Raised(e)
        case Ok(p) => Ok(texts + [p])
  }

  /** One more field read after the first `i`: its exception, or one more
      text. */
  lemma CollectStep(fs: seq<string>, read: string -> Outcome<string>, i: nat)
    requires i < |fs| && Collect(fs[..i], read).Ok?
    ensures read(fs[i]).Raised? ==> Collect(fs[..i + 1], read) == Raised(read(fs[i]).exc)
    ensures read(fs[i]).Ok? ==> Collect(fs[..i + 1], read) == Ok(Collect(fs[..i], read).value + [read(fs[i]).value])
  {
    assert fs[..i + 1][..i] == fs[..i];
  }

  /** Once a field raised, the later fields do not change the outcome. */
  lemma {:induction false} CollectRaisedStays(fs: seq<string>, read: string -> Outcome<string>, n: nat)
    requires n <= |fs| && Collect(fs[..n], read).Raised?
    ensures Collect(fs, read) == Collect(fs[..n], read)
    decreases |fs| - n
  {
    if n < |fs| {
      assert fs[..|fs| - 1][..n] == fs[..n];
      CollectRaisedStays(fs[..|fs| - 1], read, n);
    } else {
      assert fs[..n] == fs;
    }
  }

  /** Two readers that agree on every field gather the same texts, or raise
      the same exception. */
  lemma {:induction false} CollectAgree(fs: seq<string>, read1: string -> Outcome<string>, read2: string -> Outcome<string>)
    requires forall i :: 0 <= i < |fs| ==> read1(fs[i]) == read2(fs[i])
    ensures Collect(fs, read1) == Collect(fs, read2)
    decreases |fs|
  {
    if fs != [] {
      var init := fs[..|fs| - 1];
      assert forall i :: 0 <= i < |init| ==> init[i] == fs[i];
      CollectAgree(init, read1, read2);
    }
  }

  /** `ReadField` of one source, pre-adapter and environment, as a reader. */
  function Reader(src: Record, pre: Option<R.Adapter>, env: R.Env): string -> Outcome<string>
  {
    f => ReadField(src, f, pre, env)
  }

  /** The texts of the fields, or the exception the first failing field
      raised. */
  function Pieces(src: Record, fs: seq<string>, pre: Option<R.Adapter>, env: R.Env): (r: Outcome<seq<string>>)
    ensures r.Ok? <==> forall i :: 0 <= i < |fs| ==> ReadField(src, fs[i], pre, env).Ok?
    ensures r.Raised? ==> exists i :: 0 <= i < |fs| && ReadField(src, fs[i], pre, env) == Raised(r.exc)
    ensures r.Ok? ==> (|r.value| == |fs| &&
              forall i :: 0 <= i < |fs| ==> r.value[i] == ReadField(src, fs[i], pre, env).value)
  {
    var read := Reader(src, pre, env);
    assert forall i :: 0 <= i < |fs| ==> read(fs[i]) == ReadField(src, fs[i], pre, env);
    Collect(fs, read)
  }

  /** `get_new_attr(from_resource, mapping)` of marketo_pipedrive_sync.py. */
  function NewAttr(src: Record, m: M.Entry, env: R.Env): Outcome<Value>
  {
    match Pieces(src, m.fields, m.pre, env)
    case Raised(e) => Raised(e)
    case Ok(texts) => R.ApplyOpt(m.post, Str(JoinSpace(texts)), env)
  }

  /** One more field read after the first `i`. */
  lemma PiecesStep(src: Record, fs: seq<string>, pre: Option<R.Adapter>, env: R.Env, i: nat)
    requires i < |fs| && Pieces(src, fs[..i], pre, env).Ok?
    ensures ReadField(src, fs[i], pre, env).Raised? ==>
              Pieces(src, fs[..i + 1], pre, env) == Raised(ReadField(src, fs[i], pre, env).exc)
    ensures ReadField(src, fs[i], pre, env).Ok? ==>
              Pieces(src, fs[..i + 1], pre, env)
              == Ok(Pieces(src, fs[..i], pre, env).value + [ReadField(src, fs[i], pre, env).value])
  {
    CollectStep(fs, Reader(src, pre, env), i);
  }

  /** Once a field raised, the later fields do not change the outcome. */
  lemma PiecesRaisedStays(src: Record, fs: seq<string>, pre: Option<R.Adapter>, env: R.Env, n: nat)
    requires n <= |fs| && Pieces(src, fs[..n], pre, env).Raised?
    ensures Pieces(src, fs, pre, env) == Pieces(src, fs[..n], pre, env)
  {
    CollectRaisedStays(fs, Reader(src, pre, env), n);
  }

  /** `get_new_attr`, with its loop over the fields. */
  method GetNewAttr(src: Record, m: M.Entry, env: R.Env) returns (r: Outcome<Value>)
    ensures r == NewAttr(src, m, env)
  {
    var texts: Outcome<seq<string>> := Ok([]);
    var i := 0;
    while i < |m.fields| && texts.Ok?
      invariant 0 <= i <= |m.fields|
      invariant Pieces(src, m.fields[..i], m.pre, env) == texts
    {
      texts := ReadPiece(src, m.fields, m.pre, env, i, texts.value);
      i := i + 1;
    }
    if texts.Raised? {
      PiecesRaisedStays(src, m.fields, m.pre, env, i);
      r := Raised(texts.exc);
    } else {
      assert m.fields[..i] == m.fields;
      r := R.ApplyOpt(m.post, Str(JoinSpace(texts.value)), env);
    }
  }

  /** One iteration of the loop of `get_new_attr`: field `i` read through the
    pre-adapter, stringified, and its text appended to those of the first
    `i` fields. */
  method ReadPiece(src: Record, fs: seq<string>, pre: Option<R.Adapter>, env: R.Env, i: nat, texts: seq<string>)
    returns (r: Outcome<seq<string>>)
    requires i < |fs| && Pieces(src, fs[..i], pre, env) == Ok(texts)
    ensures r == Pieces(src, fs[..i + 1], pre, env)
  {
    PiecesStep(src, fs, pre, env, i);
    var v := R.ApplyOpt(pre, Get(src, fs[i]), env);
    if v.Raised? {
      return Raised(v.exc);
    }
    var text := Piece(v.value);
    if text.Raised? {
      return Raised(text.exc);
    }
    r := Ok(texts + [text.value]);
  }

  /** The post-adapter always receives text, never None: whatever the
      fields hold, what it is given is the joined texts. */
  lemma PostAdapterSeesText(src: Record, m: M.Entry, env: R.Env)
    requires Pieces(src, m.fields, m.pre, env).Ok?
    ensures exists s: string :: NewAttr(src, m, env) == R.ApplyOpt(m.post, Str(s), env)
  {
    var s := JoinSpace(Pieces(src, m.fields, m.pre, env).value);
    assert NewAttr(src, m, env) == R.ApplyOpt(m.post, Str(s), env);
  }

  /** A single plain field is copied as its text: an integer id becomes the
      text of its digits; a text outside ASCII raises. */
  lemma SingleFieldAsText(src: Record, f: string, env: R.Env)
    ensures Printable(Get(src, f)) ==> NewAttr(src, M.Plain([f]), env) == Ok(Str(Piece(Get(src, f)).value))
    ensures Get(src, f).Int? ==> NewAttr(src, M.Plain([f]), env) == Ok(Str(IntToString(Get(src, f).i)))
    ensures !Printable(Get(src, f)) ==> NewAttr(src, M.Plain([f]), env) == Raised(UnicodeEncodeError)
  {
    if Printable(Get(src, f)) {
      assert Pieces(src, [f], None, env).value == [Piece(Get(src, f)).value];
    } else {
      assert [f][..0] == [];
    }
  }

  /** `n` spaces. */
  function Spaces(n: nat): (r: string)
    ensures |r| == n && forall i :: 0 <= i < n ==> r[i] == ' '
  {
    seq(n, _ => ' ')
  }

  /** Joining `n + 1` empty texts leaves the `n` separators. */
  lemma {:induction false} JoinEmpties(n: nat)
    ensures JoinSpace(seq(n + 1, _ => "")) == Spaces(n)
  {
    if n > 0 {
      var ws: seq<string> := seq(n + 1, _ => "");
      assert ws[1..] == seq(n, _ => "");
      JoinEmpties(n - 1);
      assert JoinSpace(ws) == "" + " " + Spaces(n - 1);
    }
  }

  /** Fields that are all missing still give one space between each two of
      them; the later engine's `join` gives None instead. */
  lemma MissingFieldsLeaveSpaces(src: Record, fs: seq<string>, env: R.Env)
    requires fs != [] && forall i :: 0 <= i < |fs| ==> Get(src, fs[i]) == Null
    ensures NewAttr(src, M.Plain(fs), env) == Ok(Str(Spaces(|fs| - 1)))
  {
    assert Pieces(src, fs, None, env).value == seq(|fs|, _ => "");
    JoinEmpties(|fs| - 1);
  }

  /** A lead with neither first nor last name gives a person named with a
      single space, which is not blank. */
  lemma NamelessLeadNamedSpace(lead: Record, env: R.Env)
    requires Get(lead, "firstName") == Null && Get(lead, "lastName") == Null
    ensures M.PersonToLead()[1].0 == "name"
    ensures NewAttr(lead, M.PersonToLead()[1].1, env) == Ok(Str(" "))
    ensures Truthy(Str(" "))
  {
    assert M.PersonToLead()[1].1 == M.Plain(["firstName", "lastName"]);
    MissingFieldsLeaveSpaces(lead, ["firstName", "lastName"], env);
    assert Spaces(1) == " ";
  }

  /** A lead without a country reaches `country_iso_to_name` as the empty
      text, not None, so its None check never applies and the lookup raises. */
  lemma MissingCountryRaises(lead: Record, env: R.Env)
    requires Get(lead, "country") == Null && "" !in env.countries.nameByAlpha2
    ensures M.PersonToLead()[3].0 == "inferred_country"
    ensures NewAttr(lead, M.PersonToLead()[3].1, env) == Raised(MissingKey(""))
  {
    assert Pieces(lead, ["country"], None, env).value == [""];
  }

  // ---------------------------------------------------------------------
  // update_field

  /** `old_attr or ""`. */
  function OrEmpty(v: Value): Value
  {
    if Truthy(v) then v else Str("")
  }

  /** `update_field`'s effect on the target, given the new value: a field the
      target has is written when the texts differ, and `str()` of the new
      or of the old value may raise first; a field it lacks is always
      written. */
  function Update(t: Record, field: string, nv: Value): (r: Outcome<(Record, bool)>)
    ensures r.Raised? <==> field in t && (!Printable(nv) || !Printable(OrEmpty(t[field])))
    ensures r.Raised? ==> r.exc == UnicodeEncodeError
    ensures r.Ok? ==> (r.value.1 <==> field !in t || Show(nv) != Show(OrEmpty(t[field])))
    ensures r.Ok? ==> r.value.0 == if r.value.1 then t[field := nv] else t
  {
    if field in t then
      match PyStr(nv)
      case Raised(e) => Raised(e)
      case Ok(newText) =>
        match PyStr(OrEmpty(t[field]))
        case Raised(e) => Raised(e)
        case Ok(oldText) => if newText != oldText then Ok((t[field := nv], true)) else Ok((t, false))
    else Ok((t[field := nv], true))
  }

  /** A field that holds something is overwritten by the empty text, which
      the later engine never does. */
  lemma BlankOverwrites(t: Record, field: string)
    requires field in t && Truthy(t[field]) && Show(t[field]) != "" && Printable(t[field])
    ensures Update(t, field, Str("")) == Ok((t[field := Str("")], true))
    ensures Later.Update(t, field, Str("")) == (t, false)
  {
  }

  /** A number stored as a number is not replaced by the same number written
      as text, since only the texts are compared; the later engine replaces it. */
  lemma SameTextKept(t: Record, field: string, n: int)
    requires field in t && t[field] == Int(n) && n != 0
    ensures Update(t, field, Str(IntToString(n))) == Ok((t, false))
    ensures Later.Update(t, field, Str(IntToString(n))).1
  {
    assert Printable(Str(IntToString(n)));
  }

  /** Writing the same text, or any value that is not falsy, a second time
      changes nothing, unless `str()` refuses it: a field the target lacked
      is written without a comparison, so the second write raises. */
  lemma UpdateIdempotent(t: Record, field: string, nv: Value)
    requires (nv.Str? || Truthy(nv)) && Update(t, field, nv).Ok?
    ensures Printable(nv) ==> Update(Update(t, field, nv).value.0, field, nv) == Ok((Update(t, field, nv).value.0, false))
    ensures !Printable(nv) ==> field !in t && Update(Update(t, field, nv).value.0, field, nv) == Raised(UnicodeEncodeError)
  {
    if Printable(nv) {
      assert Printable(OrEmpty(nv));
    }
  }

  /** A falsy number is written again on every run: its text `0` never
      matches the `""` its falsiness reads as. */
  lemma ZeroRewrittenEveryTime(t: Record, field: string)
    requires field !in t || !Truthy(t[field])
    ensures Update(t, field, Int(0)) == Ok((t[field := Int(0)], true))
    ensures Update(t[field := Int(0)], field, Int(0)) == Ok((t[field := Int(0)], true))
  {
    assert Show(Int(0)) == "0" && Show(OrEmpty(Int(0))) == "";
    assert field in t ==> Printable(OrEmpty(t[field]));
    assert !Truthy(Int(0)) && t[field := Int(0)][field := Int(0)] == t[field := Int(0)];
  }

  /** `update_field` of marketo_pipedrive_sync.py for one entry of a table,
      after the entries before it left the target and the flag as `prev`. */
  function UpdateEntry(src: Record, prev: (Record, bool), entry: (string, M.Entry), env: R.Env): Outcome<(Record, bool)>
  {
    match NewAttr(src, entry.1, env)
    case Raised(e) => Raised(e)
    case Ok(nv) =>
      match Update(prev.0, entry.0, nv)
      case Raised(e) => Raised(e)
      case Ok(step) => Ok((step.0, step.1 || prev.1))
  }

  /** The sync task's loop over a table: each entry's `update_field` in turn, the
      flags OR-ed; the first exception ends the loop. */
  function ApplyAll(src: Record, t: Record, table: M.Table, env: R.Env): Outcome<(Record, bool)>
    decreases |table|
  {
    if table == [] then Ok((t, false))
    else
      match ApplyAll(src, t, table[..|table| - 1], env)
      case Raised(e) => Raised(e)
      case Ok(prev) => UpdateEntry(src, prev, table[|table| - 1], env)
  }

  /** One more entry of the table applied after the first `i`. */
  lemma ApplyAllStep(src: Record, t: Record, table: M.Table, env: R.Env, i: nat)
    requires i < |table|
    ensures ApplyAll(src, t, table[..i], env).Raised? ==> ApplyAll(src, t, table[..i + 1], env) == ApplyAll(src, t, table[..i], env)
    ensures ApplyAll(src, t, table[..i], env).Ok? ==>
              ApplyAll(src, t, table[..i + 1], env) == UpdateEntry(src, ApplyAll(src, t, table[..i], env).value, table[i], env)
  {
    assert table[..i + 1][..i] == table[..i];
  }

  /** Once an entry raised, the later entries do not change the outcome. */
  lemma {:induction false} RaisedStays(src: Record, t: Record, table: M.Table, env: R.Env, n: nat)
    requires n <= |table| && ApplyAll(src, t, table[..n], env).Raised?
    ensures ApplyAll(src, t, table, env) == ApplyAll(src, t, table[..n], env)
    decreases |table| - n
  {
    if n < |table| {
      assert table[..|table| - 1][..n] == table[..n];
      RaisedStays(src, t, table[..|table| - 1], env, n);
    } else {
      assert table[..n] == table;
    }
  }

  /** Every field the entries of a table read holds a value `str()` accepts. */
  predicate SourcePrintable(src: Record, table: M.Table)
  {
    forall i, j :: 0 <= i < |table| && 0 <= j < |table[i].1.fields| ==> Printable(Get(src, table[i].1.fields[j]))
  }

  /** Every value of a record is one `str()` accepts. */
  predicate RecordPrintable(t: Record)
  {
    forall k :: k in t ==> Printable(t[k])
  }

  /** Entries without adapters only raise on a text `str()` refuses: they
      never raise when the fields they read and the target's values are all
      accepted, and the target's values stay accepted. */
  lemma {:induction false} PlainNeverRaises(src: Record, t: Record, table: M.Table, env: R.Env)
    requires forall i :: 0 <= i < |table| ==> table[i].1.pre.None? && table[i].1.post.None?
    requires SourcePrintable(src, table) && RecordPrintable(t)
    ensures ApplyAll(src, t, table, env).Ok? && RecordPrintable(ApplyAll(src, t, table, env).value.0)
    decreases |table|
  {
    if table != [] {
      var n := |table| - 1;
      SourcePrintableSplit(src, table, n);
      PlainNeverRaises(src, t, table[..n], env);
      var prev := ApplyAll(src, t, table[..n], env).value;
      PlainEntryKeepsPrintable(src, prev, table[n], env);
      assert ApplyAll(src, t, table, env) == UpdateEntry(src, prev, table[n], env);
    }
  }

  /** A table whose fields are all accepted splits into its first entries
      and its last one, with the same holding for each. */
  lemma SourcePrintableSplit(src: Record, table: M.Table, n: nat)
    requires n == |table| - 1 && SourcePrintable(src, table)
    ensures SourcePrintable(src, table[..n])
    ensures forall j :: 0 <= j < |table[n].1.fields| ==> Printable(Get(src, table[n].1.fields[j]))
  {
    assert forall i :: 0 <= i < n ==> table[..n][i] == table[i];
  }

  /** One entry without adapters, on fields and a target `str()` accepts. */
  lemma PlainEntryKeepsPrintable(src: Record, prev: (Record, bool), entry: (string, M.Entry), env: R.Env)
    requires entry.1.pre.None? && entry.1.post.None? && RecordPrintable(prev.0)
    requires forall j :: 0 <= j < |entry.1.fields| ==> Printable(Get(src, entry.1.fields[j]))
    ensures UpdateEntry(src, prev, entry, env).Ok? && RecordPrintable(UpdateEntry(src, prev, entry, env).value.0)
  {
    var texts := Pieces(src, entry.1.fields, None, env).value;
    JoinAscii(texts);
    assert Printable(Str(JoinSpace(texts)));
  }

  /** Entries without adapters raise nothing but UnicodeEncodeError. */
  lemma {:induction false} PlainRaisesOnlyOnText(src: Record, t: Record, table: M.Table, env: R.Env)
    requires forall i :: 0 <= i < |table| ==> table[i].1.pre.None? && table[i].1.post.None?
    ensures ApplyAll(src, t, table, env).Raised? ==> ApplyAll(src, t, table, env).exc == UnicodeEncodeError
    decreases |table|
  {
    if table != [] {
      var n := |table| - 1;
      assert forall i :: 0 <= i < n ==> table[..n][i] == table[i];
      PlainRaisesOnlyOnText(src, t, table[..n], env);
      if ApplyAll(src, t, table[..n], env).Ok? {
        PiecesRaiseOnlyOnText(src, table[n].1.fields, env);
      }
    }
  }

  /** Fields read without a pre-adapter raise nothing but UnicodeEncodeError. */
  lemma {:induction false} PiecesRaiseOnlyOnText(src: Record, fs: seq<string>, env: R.Env)
    ensures Pieces(src, fs, None, env).Raised? ==> Pieces(src, fs, None, env).exc == UnicodeEncodeError
    decreases |fs|
  {
    if fs != [] {
      PiecesRaiseOnlyOnText(src, fs[..|fs| - 1], env);
    }
  }

  /** A field no entry writes keeps its value (or its absence). */
  lemma {:induction false} ApplyAllFrame(src: Record, t: Record, table: M.Table, env: R.Env, k: string)
    requires ApplyAll(src, t, table, env).Ok?
    requires forall i :: 0 <= i < |table| ==> table[i].0 != k
    ensures var r := ApplyAll(src, t, table, env).value.0;
            (k in r <==> k in t) && (k in t ==> r[k] == t[k])
    decreases |table|
  {
    if table != [] {
      PrefixRanThrough(src, t, table, env);
      ApplyAllFrame(src, t, table[..|table| - 1], env, k);
    }
  }

  /** A prefix of a table that ran through did not raise either. */
  lemma PrefixRanThrough(src: Record, t: Record, table: M.Table, env: R.Env)
    requires table != [] && ApplyAll(src, t, table, env).Ok?
    ensures ApplyAll(src, t, table[..|table| - 1], env).Ok?
  {
  }

  // ---------------------------------------------------------------------
  // The version of marketo_sync.py

  /** An entry of marketo_sync.py: the fields and an adapter applied to each
      field value. The Python adapter also receives the target CRM's client;
      the client is the same for the whole run, so the adapter here is the
      Python one with that argument bound, and it may raise. */
  datatype ClientEntry = ClientEntry(fields: seq<string>, adapter: Option<Value -> Outcome<Value>>)

  type ClientTable = seq<(string, ClientEntry)>

  /** The value an entry's adapter makes of `v`, or what the adapter raised;
      an entry without a callable adapter keeps `v`. */
  function Adapt(adapter: Option<Value -> Outcome<Value>>, v: Value): Outcome<Value>
  {
    if adapter.Some? then adapter.value(v) else Ok(v)
  }

  /** The adapter raised `e` on one of the fields `fs` of `src`. */
  predicate AdapterRaised(src: Record, fs: seq<string>, adapter: Option<Value -> Outcome<Value>>, e: Exception)
  {
    exists i :: 0 <= i < |fs| && Adapt(adapter, Get(src, fs[i])) == Raised(e)
  }

  /** One field of marketo_sync.py's loop: read, adapted, stringified. It
      raises what the adapter raised, or else UnicodeEncodeError exactly
      when `str()` refuses the adapted value. */
  function ClientField(src: Record, f: string, adapter: Option<Value -> Outcome<Value>>): (r: Outcome<string>)
    ensures var a := Adapt(adapter, Get(src, f));
            && (a.Raised? ==> r == Raised(a.exc))
            && (a.Ok? ==> (r.Raised? <==> !Printable(a.value)))
            && (a.Ok? && r.Raised? ==> r.exc == UnicodeEncodeError)
  {
    match Adapt(adapter, Get(src, f))
    case Raised(e) => Raised(e)
    case Ok(v) => Piece(v)
  }

  /** `ClientField` of one source and adapter, as a reader. */
  function ClientReader(src: Record, adapter: Option<Value -> Outcome<Value>>): string -> Outcome<string>
  {
    f => ClientField(src, f, adapter)
  }

  /** The texts of the fields, each adapted then stringified, or the
      exception of the first field whose adapter or `str()` raised: a
      UnicodeEncodeError or an exception of the adapter. */
  function ClientPieces(src: Record, fs: seq<string>, adapter: Option<Value -> Outcome<Value>>): (r: Outcome<seq<string>>)
    ensures r.Ok? <==> forall i :: 0 <= i < |fs| ==> ClientField(src, fs[i], adapter).Ok?
    ensures r.Raised? ==> r.exc == UnicodeEncodeError || AdapterRaised(src, fs, adapter, r.exc)
    ensures r.Ok? ==> |r.value| == |fs| && forall i :: 0 <= i < |fs| ==> r.value[i] == ClientField(src, fs[i], adapter).value
  {
    var read := ClientReader(src, adapter);
    assert forall i :: 0 <= i < |fs| ==> read(fs[i]) == ClientField(src, fs[i], adapter);
    Collect(fs, read)
  }

  /** `update_field(from_resource, to_resource, to_field, mapping, to_client)`
      of marketo_sync.py: the joined texts, written as in the later version. */
  function ClientUpdate(src: Record, t: Record, field: string, m: ClientEntry): Outcome<(Record, bool)>
  {
    match ClientPieces(src, m.fields, m.adapter)
    case Raised(e) => Raised(e)
    case Ok(texts) => Update(t, field, Str(JoinSpace(texts)))
  }

  /** Without adapters, both early versions read the same texts and write
      the same field alike. */
  lemma EarlyVersionsAgree(src: Record, t: Record, field: string, fs: seq<string>, env: R.Env)
    ensures Pieces(src, fs, None, env) == ClientPieces(src, fs, None)
    ensures ClientUpdate(src, t, field, ClientEntry(fs, None))
            == match NewAttr(src, M.Plain(fs), env)
               case Raised(e) => Raised(e)
               case Ok(nv) => Update(t, field, nv)
  {
    var read := Reader(src, None, env);
    var clientRead := ClientReader(src, None);
    assert forall i :: 0 <= i < |fs| ==> read(fs[i]) == clientRead(fs[i]);
    CollectAgree(fs, read, clientRead);
  }

  /** The loop of a task of marketo_sync.py over its table. */
  function ClientApplyAll(src: Record, t: Record, table: ClientTable): Outcome<(Record, bool)>
    decreases |table|
  {
    if table == [] then Ok((t, false))
    else
      match ClientApplyAll(src, t, table[..|table| - 1])
      case Raised(e) => Raised(e)
      case Ok(prev) => ClientUpdateEntry(src, prev, table[|table| - 1])
  }

  /** `update_field` of marketo_sync.py for one entry of a table, after the
      entries before it left the target and the flag as `prev`. */
  function ClientUpdateEntry(src: Record, prev: (Record, bool), entry: (string, ClientEntry)): Outcome<(Record, bool)>
  {
    match ClientUpdate(src, prev.0, entry.0, entry.1)
    case Raised(e) => Raised(e)
    case Ok(step) => Ok((step.0, step.1 || prev.1))
  }

  /** One more entry of a table of marketo_sync.py applied after the first `i`. */
  lemma ClientApplyAllStep(src: Record, t: Record, table: ClientTable, i: nat)
    requires i < |table| && ClientApplyAll(src, t, table[..i]).Ok?
    ensures ClientApplyAll(src, t, table[..i + 1]) == ClientUpdateEntry(src, ClientApplyAll(src, t, table[..i]).value, table[i])
  {
    assert table[..i + 1][..i] == table[..i];
  }

  /** One more field read after the first `i`, in marketo_sync.py. */
  lemma ClientPiecesStep(src: Record, fs: seq<string>, adapter: Option<Value -> Outcome<Value>>, i: nat)
    requires i < |fs| && ClientPieces(src, fs[..i], adapter).Ok?
    ensures var p := ClientField(src, fs[i], adapter);
            && (p.Raised? ==> ClientPieces(src, fs[..i + 1], adapter) == Raised(p.exc))
            && (p.Ok? ==> ClientPieces(src, fs[..i + 1], adapter) == Ok(ClientPieces(src, fs[..i], adapter).value + [p.value]))
  {
    CollectStep(fs, ClientReader(src, adapter), i);
  }

  /** Once a field `str()` refuses was read, the later fields do not change
      the outcome. */
  lemma ClientPiecesRaisedStays(src: Record, fs: seq<string>, adapter: Option<Value -> Outcome<Value>>, n: nat)
    requires n <= |fs| && ClientPieces(src, fs[..n], adapter).Raised?
    ensures ClientPieces(src, fs, adapter) == ClientPieces(src, fs[..n], adapter)
  {
    CollectRaisedStays(fs, ClientReader(src, adapter), n);
  }

  /** Once an entry of marketo_sync.py raised, the later entries do not
      change the outcome. */
  lemma {:induction false} ClientRaisedStays(src: Record, t: Record, table: ClientTable, n: nat)
    requires n <= |table| && ClientApplyAll(src, t, table[..n]).Raised?
    ensures ClientApplyAll(src, t, table) == ClientApplyAll(src, t, table[..n])
    decreases |table| - n
  {
    if n < |table| {
      assert table[..|table| - 1][..n] == table[..n];
      ClientRaisedStays(src, t, table[..|table| - 1], n);
    } else {
      assert table[..n] == table;
    }
  }

  // ---------------------------------------------------------------------
  // The sync tasks

  /** The owner every person the early versions send to Pipedrive is given. */
  const OWNER_ID := 1628545

  /** How the resources of the early versions are loaded: whatever the CRM
      holds under the id, with no check of Pipedrive's `active_flag`, so a
      deleted person is loaded like any other; the later entities leave it
      unloaded. */
  function OpenAny(db: T.Db, w: T.World, k: T.Kind, field: string, v: Value): (r: Record)
    ensures "id" in r
    ensures r["id"] == Null <==> !(T.Locate(w, k, field, v).Some? && T.Key(k, T.Locate(w, k, field, v).value) in db.store)
    ensures r["id"] == Null ==> r == T.Blank(w, k)
    ensures r["id"] != Null ==>
              var i := T.Locate(w, k, field, v).value;
              r["id"] == Int(i) && forall f :: f in db.store[T.Key(k, i)] && f != "id" ==> f in r && r[f] == db.store[T.Key(k, i)][f]
  {
    var i := T.Locate(w, k, field, v);
    if i.Some? && T.Key(k, i.value) in db.store then T.Blank(w, k) + db.store[T.Key(k, i.value)] + map["id" := Int(i.value)]
    else T.Blank(w, k)
  }

  /** Whatever the later entities load, the early resources load alike. */
  lemma OpenAnyExtendsOpen(db: T.Db, w: T.World, k: T.Kind, field: string, v: Value)
    ensures T.Open(db, w, k, field, v)["id"] != Null ==> OpenAny(db, w, k, field, v) == T.Open(db, w, k, field, v)
  {
  }

  /** `create_or_update_person_in_pipedrive(lead_id)` of
      marketo_pipedrive_sync.py: no check that the lead exists; the owner is
      set after the loop, so it never counts as a change; the lead is linked
      back when its link is missing or its id differs from the person's
      `marketoid`. */
  function PersonTask(db: T.Db, w: T.World, env: R.Env, leadId: Value): (T.Db, T.Ret)
  {
    var lead := OpenAny(db, w, T.Lead, "id", leadId);
    var found := OpenAny(db, w, T.Person, "id", Get(lead, "pipedriveId"));
    PersonWrite(db, lead, found, ApplyAll(lead, found, M.PersonToLead(), env))
  }

  /** The end of the person task, once PERSON_TO_LEAD gave `applied` for the
      lead and the person found. */
  function PersonWrite(db: T.Db, lead: Record, found: Record, applied: Outcome<(Record, bool)>): (T.Db, T.Ret)
  {
    match applied
    case Raised(e) => (db, T.Crashed(e))
    case Ok((person, changed)) =>
      var person1 := person["owner_id" := Int(OWNER_ID)];
      if !changed then (db, T.Synced(T.Skipped, Get(found, "id")))
      else
        var (db1, pid) := T.Save(db, T.Person, person1);
        var db2 := if Get(lead, "pipedriveId") == Null || !PyEq(Get(lead, "id"), Get(person1, "marketoid"))
                   then T.Save(db1, T.Lead, lead["pipedriveId" := Int(pid)]).0 else db1;
        (db2, T.Synced(T.StatusOf(found), Int(pid)))
  }

  /** `create_or_update_lead_in_marketo(person_id)` of marketo_pipedrive_sync.py. */
  function LeadTask(db: T.Db, w: T.World, env: R.Env, personId: Value): (T.Db, T.Ret)
  {
    var person := OpenAny(db, w, T.Person, "id", personId);
    var found := OpenAny(db, w, T.Lead, "id", Get(person, "marketoid"));
    match ApplyAll(person, found, M.LeadToPerson(), env)
    case Raised(e) => (db, T.Crashed(e))
    case Ok((lead, changed)) =>
      if !changed then (db, T.Synced(T.Skipped, found["id"]))
      else
        var (db1, lid) := T.Save(db, T.Lead, lead);
        var db2 := if Get(person, "marketoid") == Null || !PyEq(Get(person, "marketoid"), Int(lid))
                   then T.Save(db1, T.Person, person["marketoid" := Int(lid)]).0 else db1;
        (db2, T.Synced(T.StatusOf(found), Int(lid)))
  }

  /** The person task of marketo_sync.py, which returns no result: the
      CRMs afterwards, or the exception that ended it before anything was
      saved. */
  function EarliestPersonTask(db: T.Db, w: T.World, table: ClientTable, leadId: Value): Outcome<T.Db>
  {
    var lead := OpenAny(db, w, T.Lead, "id", leadId);
    var found := OpenAny(db, w, T.Person, "id", Get(lead, "pipedriveId"));
    match ClientApplyAll(lead, found, table)
    case Raised(e) => Raised(e)
    case Ok((person, updated)) =>
      var person1 := person["owner_id" := Int(OWNER_ID)];
      if !updated then Ok(db)
      else
        var (db1, pid) := T.Save(db, T.Person, person1);
        if Get(lead, "pipedriveId") == Null || !PyEq(Get(lead, "id"), Get(person1, "marketoid"))
        then Ok(T.Save(db1, T.Lead, lead["pipedriveId" := Int(pid)]).0) else Ok(db1)
  }

  /** The lead task of marketo_sync.py, which returns no result. */
  function EarliestLeadTask(db: T.Db, w: T.World, table: ClientTable, personId: Value): Outcome<T.Db>
  {
    var person := OpenAny(db, w, T.Person, "id", personId);
    var found := OpenAny(db, w, T.Lead, "id", Get(person, "marketoid"));
    match ClientApplyAll(person, found, table)
    case Raised(e) => Raised(e)
    case Ok((lead, updated)) =>
      if !updated then Ok(db)
      else
        var (db1, lid) := T.Save(db, T.Lead, lead);
        if Get(person, "marketoid") == Null || !PyEq(Get(person, "marketoid"), Int(lid))
        then Ok(T.Save(db1, T.Person, person["marketoid" := Int(lid)]).0) else Ok(db1)
  }

  /** What the person task reports and writes, in terms of what its table
      gave: an exception is reported and nothing is written; no change is
      reported as skipped and nothing is written; a change is reported as
      created or updated. */
  lemma PersonTaskOutcome(db: T.Db, lead: Record, found: Record, applied: Outcome<(Record, bool)>)
    ensures var (db1, ret) := PersonWrite(db, lead, found, applied);
            && (applied.Raised? ==> db1 == db && ret == T.Crashed(applied.exc))
            && (applied.Ok? && !applied.value.1 ==> db1 == db && ret == T.Synced(T.Skipped, Get(found, "id")))
            && (applied.Ok? && applied.value.1 ==> ret.Synced? && ret.status != T.Skipped)
  {
  }

  /** ... and a change saves the person with the owner, which the lead's
      link written after it leaves as saved. */
  lemma PersonTaskSaves(db: T.Db, lead: Record, found: Record, applied: Outcome<(Record, bool)>)
    requires applied.Ok? && applied.value.1
    ensures var (db1, ret) := PersonWrite(db, lead, found, applied);
            var (dbp, pid) := T.Save(db, T.Person, applied.value.0["owner_id" := Int(OWNER_ID)]);
            ret == T.Synced(T.StatusOf(found), Int(pid))
            && T.Key(T.Person, pid) in db1.store && db1.store[T.Key(T.Person, pid)] == dbp.store[T.Key(T.Person, pid)]
            && Get(db1.store[T.Key(T.Person, pid)], "owner_id") == Int(OWNER_ID)
  {
    var person1 := applied.value.0["owner_id" := Int(OWNER_ID)];
    var (dbp, pid) := T.Save(db, T.Person, person1);
    assert Get(dbp.store[T.Key(T.Person, pid)], "owner_id") == Int(OWNER_ID);
    T.SaveKeepsOtherKinds(dbp, T.Lead, lead["pipedriveId" := Int(pid)], T.Key(T.Person, pid));
  }

  /** The owner never counts as a change: the person task is skipped, and
      writes nothing, exactly when the table changed nothing; a person it
      saves carries the owner. */
  lemma OwnerNotCounted(db: T.Db, w: T.World, env: R.Env, leadId: Value)
    ensures var lead := OpenAny(db, w, T.Lead, "id", leadId);
            var found := OpenAny(db, w, T.Person, "id", Get(lead, "pipedriveId"));
            var applied := ApplyAll(lead, found, M.PersonToLead(), env);
            var (db1, ret) := PersonTask(db, w, env, leadId);
            && (ret.Crashed? <==> applied.Raised?)
            && (ret.Synced? && ret.status == T.Skipped <==> applied.Ok? && !applied.value.1)
            && (ret.Crashed? || ret.status == T.Skipped ==> db1 == db)
            && (ret.Synced? && ret.status != T.Skipped ==>
                  ret.id.Int? && T.Key(T.Person, ret.id.i) in db1.store
                  && Get(db1.store[T.Key(T.Person, ret.id.i)], "owner_id") == Int(OWNER_ID))
  {
    var lead := OpenAny(db, w, T.Lead, "id", leadId);
    var found := OpenAny(db, w, T.Person, "id", Get(lead, "pipedriveId"));
    var applied := ApplyAll(lead, found, M.PersonToLead(), env);
    PersonTaskOutcome(db, lead, found, applied);
    if applied.Ok? && applied.value.1 {
      PersonTaskSaves(db, lead, found, applied);
    }
  }

  /** PERSON_TO_LEAD's first four entries: three without adapters, then the
      country looked up after the join. */
  lemma PersonTableStart()
    ensures |M.PersonToLead()| >= 4
    ensures forall i :: 0 <= i < 3 ==> M.PersonToLead()[i].1.pre.None? && M.PersonToLead()[i].1.post.None?
    ensures M.PersonToLead()[1].1.fields == ["firstName", "lastName"]
  {
  }

  /** PERSON_TO_LEAD on a lead without a country raises, unless the country
      table lists the empty text: the lookup of `inferred_country` raises,
      or an earlier field holds a text `str()` refuses; with only texts it
      accepts, the lookup is what fails. */
  lemma MissingCountryTableRaises(lead: Record, found: Record, env: R.Env)
    requires Get(lead, "country") == Null && "" !in env.countries.nameByAlpha2
    ensures var applied := ApplyAll(lead, found, M.PersonToLead(), env);
            applied == Raised(MissingKey("")) || applied == Raised(UnicodeEncodeError)
    ensures SourcePrintable(lead, M.PersonToLead()[..3]) && RecordPrintable(found) ==>
              ApplyAll(lead, found, M.PersonToLead(), env) == Raised(MissingKey(""))
  {
    var table := M.PersonToLead();
    PersonTableStart();
    assert forall i :: 0 <= i < 3 ==> table[..3][i] == table[i];
    PlainRaisesOnlyOnText(lead, found, table[..3], env);
    if ApplyAll(lead, found, table[..3], env).Raised? {
      RaisedStays(lead, found, table, env, 3);
    } else {
      MissingCountryRaises(lead, env);
      ApplyAllStep(lead, found, table, env, 3);
      RaisedStays(lead, found, table, env, 4);
    }
    if SourcePrintable(lead, table[..3]) && RecordPrintable(found) {
      PlainNeverRaises(lead, found, table[..3], env);
    }
  }

  /** Every lead without a country makes the person task fail before
      anything is saved, unless the country table lists the empty text. */
  lemma MissingCountryCrashes(db: T.Db, w: T.World, env: R.Env, leadId: Value)
    requires Get(OpenAny(db, w, T.Lead, "id", leadId), "country") == Null
    requires "" !in env.countries.nameByAlpha2
    ensures PersonTask(db, w, env, leadId) == (db, T.Crashed(MissingKey("")))
            || PersonTask(db, w, env, leadId) == (db, T.Crashed(UnicodeEncodeError))
    ensures var lead := OpenAny(db, w, T.Lead, "id", leadId);
            var found := OpenAny(db, w, T.Person, "id", Get(lead, "pipedriveId"));
            SourcePrintable(lead, M.PersonToLead()[..3]) && RecordPrintable(found) ==>
              PersonTask(db, w, env, leadId) == (db, T.Crashed(MissingKey("")))
  {
    var lead := OpenAny(db, w, T.Lead, "id", leadId);
    var found := OpenAny(db, w, T.Person, "id", Get(lead, "pipedriveId"));
    MissingCountryTableRaises(lead, found, env);
    PersonTaskOutcome(db, lead, found, ApplyAll(lead, found, M.PersonToLead(), env));
  }

  /** PERSON_TO_LEAD on a lead whose first name holds a character outside
      ASCII raises UnicodeEncodeError: `str()` of the name raises, unless an
      earlier field already did. */
  lemma AccentedNameTableRaises(lead: Record, found: Record, env: R.Env)
    requires Get(lead, "firstName").Str? && !Ascii(Get(lead, "firstName").s)
    ensures ApplyAll(lead, found, M.PersonToLead(), env) == Raised(UnicodeEncodeError)
  {
    var table := M.PersonToLead();
    PersonTableStart();
    assert table[..1][0] == table[0];
    PlainRaisesOnlyOnText(lead, found, table[..1], env);
    if ApplyAll(lead, found, table[..1], env).Ok? {
      var fs := table[1].1.fields;
      PiecesStep(lead, fs, None, env, 0);
      assert fs[..0] == [];
      PiecesRaisedStays(lead, fs, None, env, 1);
      ApplyAllStep(lead, found, table, env, 1);
      RaisedStays(lead, found, table, env, 2);
    } else {
      RaisedStays(lead, found, table, env, 1);
    }
  }

  /** A lead whose first name holds a character outside ASCII makes the
      person task fail before anything is saved. */
  lemma AccentedNameCrashes(db: T.Db, w: T.World, env: R.Env, leadId: Value)
    requires var lead := OpenAny(db, w, T.Lead, "id", leadId);
             Get(lead, "firstName").Str? && !Ascii(Get(lead, "firstName").s)
    ensures PersonTask(db, w, env, leadId) == (db, T.Crashed(UnicodeEncodeError))
  {
    var lead := OpenAny(db, w, T.Lead, "id", leadId);
    var found := OpenAny(db, w, T.Person, "id", Get(lead, "pipedriveId"));
    AccentedNameTableRaises(lead, found, env);
    PersonTaskOutcome(db, lead, found, ApplyAll(lead, found, M.PersonToLead(), env));
  }

  /** A lead linked to a person that was deleted in Pipedrive still loads
      that person, which the later entities leave unloaded. */
  lemma DeletedPersonLoaded(db: T.Db, w: T.World, lead: Record, p: int)
    requires T.Locate(w, T.Person, "id", Get(lead, "pipedriveId")) == Some(p)
    requires T.Key(T.Person, p) in db.store && !T.Active(db.store[T.Key(T.Person, p)])
    ensures T.Open(db, w, T.Person, "id", Get(lead, "pipedriveId"))["id"] == Null
    ensures var found := OpenAny(db, w, T.Person, "id", Get(lead, "pipedriveId"));
            found["id"] == Int(p) && "active_flag" in found
            && found["active_flag"] == db.store[T.Key(T.Person, p)]["active_flag"]
  {
  }

  /** ... and a change to that person is saved over it, which stays deleted. */
  lemma DeletedPersonStillUpdated(db: T.Db, w: T.World, env: R.Env, leadId: Value, p: int)
    requires var lead := OpenAny(db, w, T.Lead, "id", leadId);
             T.Locate(w, T.Person, "id", Get(lead, "pipedriveId")) == Some(p)
    requires T.Key(T.Person, p) in db.store && !T.Active(db.store[T.Key(T.Person, p)])
    ensures var (db1, ret) := PersonTask(db, w, env, leadId);
            ret.Synced? && ret.status != T.Skipped ==>
              ret == T.Synced(T.Updated, Int(p)) && T.Key(T.Person, p) in db1.store && !T.Active(db1.store[T.Key(T.Person, p)])
  {
    var lead := OpenAny(db, w, T.Lead, "id", leadId);
    var found := OpenAny(db, w, T.Person, "id", Get(lead, "pipedriveId"));
    var applied := ApplyAll(lead, found, M.PersonToLead(), env);
    if applied.Ok? {
      PersonTableKeeps(lead, found, env);
    }
    DeletedPersonWritten(db, lead, found, applied, p);
  }

  /** The end of the person task on a deleted person the table kept as
      found: a change is saved over it. */
  lemma DeletedPersonWritten(db: T.Db, lead: Record, found: Record, applied: Outcome<(Record, bool)>, p: int)
    requires T.Key(T.Person, p) in db.store && !T.Active(db.store[T.Key(T.Person, p)])
    requires "id" in found && found["id"] == Int(p)
    requires "active_flag" in found && found["active_flag"] == db.store[T.Key(T.Person, p)]["active_flag"]
    requires applied.Ok? ==> var person := applied.value.0;
               "id" in person && person["id"] == Int(p)
               && "active_flag" in person && person["active_flag"] == found["active_flag"]
    ensures var (db1, ret) := PersonWrite(db, lead, found, applied);
            ret.Synced? && ret.status != T.Skipped ==>
              ret == T.Synced(T.Updated, Int(p)) && T.Key(T.Person, p) in db1.store && !T.Active(db1.store[T.Key(T.Person, p)])
  {
    PersonTaskOutcome(db, lead, found, applied);
    if applied.Ok? && applied.value.1 {
      PersonTaskSaves(db, lead, found, applied);
      SavedOverDeleted(db, applied.value.0["owner_id" := Int(OWNER_ID)], p);
    }
  }

  /** PERSON_TO_LEAD leaves the person's `id` and `active_flag` as found. */
  lemma PersonTableKeeps(lead: Record, found: Record, env: R.Env)
    requires ApplyAll(lead, found, M.PersonToLead(), env).Ok?
    ensures var person := ApplyAll(lead, found, M.PersonToLead(), env).value.0;
            && ("id" in person <==> "id" in found) && ("id" in found ==> person["id"] == found["id"])
            && ("active_flag" in person <==> "active_flag" in found)
            && ("active_flag" in found ==> person["active_flag"] == found["active_flag"])
  {
    PersonTableSkips();
    ApplyAllFrame(lead, found, M.PersonToLead(), env, "id");
    ApplyAllFrame(lead, found, M.PersonToLead(), env, "active_flag");
  }

  /** A person saved under the id of a deleted one, with its `active_flag`,
      updates it in place and leaves it deleted. */
  lemma SavedOverDeleted(db: T.Db, person: Record, p: int)
    requires T.Key(T.Person, p) in db.store && !T.Active(db.store[T.Key(T.Person, p)])
    requires "id" in person && person["id"] == Int(p)
    requires "active_flag" in person && person["active_flag"] == db.store[T.Key(T.Person, p)]["active_flag"]
    ensures T.Save(db, T.Person, person).1 == p
    ensures !T.Active(T.Save(db, T.Person, person).0.store[T.Key(T.Person, p)])
  {
    T.SaveUpdates(db, T.Person, person, p);
  }

  /** A lead already linked to its person is saved again whenever the person
      changes, because the person's `marketoid`, copied as text, never equals
      the lead's integer id; the later task leaves such a lead alone. */
  lemma LinkedLeadSavedAgain(db: T.Db, w: T.World, env: R.Env, leadId: Value, p: int, person: Record)
    requires var lead := OpenAny(db, w, T.Lead, "id", leadId);
             lead["id"].Int? && Get(lead, "pipedriveId") == Int(p)
    requires var lead := OpenAny(db, w, T.Lead, "id", leadId);
             var found := OpenAny(db, w, T.Person, "id", Int(p));
             found["id"] == Int(p) && ApplyAll(lead, found, M.PersonToLead(), env) == Ok((person, true))
    requires Get(person, "marketoid").Str?
    ensures var lead := OpenAny(db, w, T.Lead, "id", leadId);
            var db1 := T.Save(db, T.Person, person["owner_id" := Int(OWNER_ID)]).0;
            && !T.LinkStale(Get(lead, "pipedriveId"), p)
            && PersonTask(db, w, env, leadId) == (T.Save(db1, T.Lead, lead["pipedriveId" := Int(p)]).0, T.Synced(T.Updated, Int(p)))
  {
    var lead := OpenAny(db, w, T.Lead, "id", leadId);
    var found := OpenAny(db, w, T.Person, "id", Int(p));
    PersonTableKeeps(lead, found, env);
    LinkedLeadWritten(db, lead, found, person, p);
  }

  /** The end of the person task for a linked lead whose person changed and
      kept its id: the person is updated in place, then the lead saved. */
  lemma LinkedLeadWritten(db: T.Db, lead: Record, found: Record, person: Record, p: int)
    requires "id" in lead && lead["id"].Int? && Get(lead, "pipedriveId") == Int(p)
    requires T.Key(T.Person, p) in db.store && Get(found, "id") == Int(p) && Get(person, "id") == Int(p)
    requires Get(person, "marketoid").Str?
    ensures var db1 := T.Save(db, T.Person, person["owner_id" := Int(OWNER_ID)]).0;
            PersonWrite(db, lead, found, Ok((person, true))) == (T.Save(db1, T.Lead, lead["pipedriveId" := Int(p)]).0, T.Synced(T.Updated, Int(p)))
  {
    var person1 := person["owner_id" := Int(OWNER_ID)];
    T.SaveUpdates(db, T.Person, person1, p);
    assert !PyEq(Get(lead, "id"), Get(person1, "marketoid"));
  }

  /** PERSON_TO_LEAD never writes the person's `id` nor its `active_flag`. */
  lemma PersonTableSkips()
    ensures forall i :: 0 <= i < |M.PersonToLead()| ==> M.PersonToLead()[i].0 != "id" && M.PersonToLead()[i].0 != "active_flag"
  {
  }

  /** The lead task writes leads and persons only, and nothing when skipped. */
  lemma LeadTaskWrites(db: T.Db, w: T.World, env: R.Env, personId: Value, key: T.Key)
    requires key in db.store && key.kind != T.Lead && key.kind != T.Person
    ensures var (db1, ret) := LeadTask(db, w, env, personId);
            key in db1.store && db1.store[key] == db.store[key]
            && (ret.Crashed? || ret.status == T.Skipped ==> db1 == db)
  {
    var person := OpenAny(db, w, T.Person, "id", personId);
    var found := OpenAny(db, w, T.Lead, "id", Get(person, "marketoid"));
    var applied := ApplyAll(person, found, M.LeadToPerson(), env);
    if applied.Ok? && applied.value.1 {
      var (db1, lid) := T.Save(db, T.Lead, applied.value.0);
      T.SaveKeepsOtherKinds(db, T.Lead, applied.value.0, key);
      T.SaveKeepsOtherKinds(db1, T.Person, person["marketoid" := Int(lid)], key);
    }
  }

  /** The person task of marketo_sync.py writes nothing when its table
      raised or changed nothing, and otherwise saves the person with its
      owner; what it raises is a text `str()` refused or an exception of
      one of the table's adapters. */
  lemma EarliestPersonTaskWrites(db: T.Db, w: T.World, table: ClientTable, leadId: Value)
    ensures var lead := OpenAny(db, w, T.Lead, "id", leadId);
            var found := OpenAny(db, w, T.Person, "id", Get(lead, "pipedriveId"));
            var applied := ClientApplyAll(lead, found, table);
            var r := EarliestPersonTask(db, w, table, leadId);
            && (applied.Raised? ==> r == Raised(applied.exc) && ClientTableRaises(lead, table, applied.exc))
            && (applied.Ok? && !applied.value.1 ==> r == Ok(db))
            && (applied.Ok? && applied.value.1 ==>
                  var (dbp, pid) := T.Save(db, T.Person, applied.value.0["owner_id" := Int(OWNER_ID)]);
                  r.Ok? && T.Key(T.Person, pid) in r.value.store && Get(r.value.store[T.Key(T.Person, pid)], "owner_id") == Int(OWNER_ID))
  {
    var lead := OpenAny(db, w, T.Lead, "id", leadId);
    var found := OpenAny(db, w, T.Person, "id", Get(lead, "pipedriveId"));
    ClientRaises(lead, found, table);
    var applied := ClientApplyAll(lead, found, table);
    if applied.Ok? && applied.value.1 {
      var person1 := applied.value.0["owner_id" := Int(OWNER_ID)];
      var (db1, pid) := T.Save(db, T.Person, person1);
      assert Get(db1.store[T.Key(T.Person, pid)], "owner_id") == Int(OWNER_ID);
      T.SaveKeepsOtherKinds(db1, T.Lead, lead["pipedriveId" := Int(pid)], T.Key(T.Person, pid));
    }
  }

  /** The lead task of marketo_sync.py writes nothing when its table raised
      or changed nothing, and otherwise stores the lead with every field
      the table gave it; what it raises is a text `str()` refused or an
      exception of one of the table's adapters. */
  lemma EarliestLeadTaskWrites(db: T.Db, w: T.World, table: ClientTable, personId: Value)
    ensures var person := OpenAny(db, w, T.Person, "id", personId);
            var found := OpenAny(db, w, T.Lead, "id", Get(person, "marketoid"));
            var applied := ClientApplyAll(person, found, table);
            var r := EarliestLeadTask(db, w, table, personId);
            && (applied.Raised? ==> r == Raised(applied.exc) && ClientTableRaises(person, table, applied.exc))
            && (applied.Ok? && !applied.value.1 ==> r == Ok(db))
            && (applied.Ok? && applied.value.1 ==>
                  var (dbl, lid) := T.Save(db, T.Lead, applied.value.0);
                  r.Ok? && T.Key(T.Lead, lid) in r.value.store
                  && forall f :: f in applied.value.0 && f != "id" ==>
                       f in r.value.store[T.Key(T.Lead, lid)] && r.value.store[T.Key(T.Lead, lid)][f] == applied.value.0[f])
  {
    var person := OpenAny(db, w, T.Person, "id", personId);
    var found := OpenAny(db, w, T.Lead, "id", Get(person, "marketoid"));
    ClientRaises(person, found, table);
    var applied := ClientApplyAll(person, found, table);
    if applied.Ok? && applied.value.1 {
      var (db1, lid) := T.Save(db, T.Lead, applied.value.0);
      T.SaveKeepsOtherKinds(db1, T.Person, person["marketoid" := Int(lid)], T.Key(T.Lead, lid));
    }
  }

  /** What a table of marketo_sync.py may raise: the UnicodeEncodeError of
      `str()`, or an exception one of its adapters raised on a field of the
      source. */
  predicate ClientTableRaises(src: Record, table: ClientTable, e: Exception)
  {
    e == UnicodeEncodeError
    || exists k :: 0 <= k < |table| && AdapterRaised(src, table[k].1.fields, table[k].1.adapter, e)
  }

  /** The tables of marketo_sync.py raise nothing but UnicodeEncodeError
      and the exceptions of their adapters. */
  lemma {:induction false} ClientRaises(src: Record, t: Record, table: ClientTable)
    ensures ClientApplyAll(src, t, table).Raised? ==> ClientTableRaises(src, table, ClientApplyAll(src, t, table).exc)
    decreases |table|
  {
    if table != [] {
      var n := |table| - 1;
      ClientRaises(src, t, table[..n]);
      var prev := ClientApplyAll(src, t, table[..n]);
      if prev.Raised? {
        if prev.exc != UnicodeEncodeError {
          var k :| 0 <= k < n && AdapterRaised(src, table[..n][k].1.fields, table[..n][k].1.adapter, prev.exc);
          assert table[..n][k] == table[k];
        }
      } else {
        var m := table[n].1;
        var pieces := ClientPieces(src, m.fields, m.adapter);
        if pieces.Raised? && pieces.exc != UnicodeEncodeError {
          assert AdapterRaised(src, table[n].1.fields, table[n].1.adapter, pieces.exc);
        }
      }
    }
  }

  // ---------------------------------------------------------------------
  // The sync tasks as they run

  /** A resource as the early engines change it: its attributes. */
  class Resource {
    var attrs: Record

    constructor (init: Record)
      ensures attrs == init
    {
      attrs := init;
    }

    /** `update_field(from_resource, self, field, mapping)` of marketo_pipedrive_sync.py. */
    method UpdateField(src: Record, field: string, m: M.Entry, env: R.Env) returns (r: Outcome<bool>)
      modifies this
      ensures NewAttr(src, m, env).Raised? ==> r == Raised(NewAttr(src, m, env).exc) && attrs == old(attrs)
      ensures NewAttr(src, m, env).Ok? ==>
                var u := Update(old(attrs), field, NewAttr(src, m, env).value);
                (u.Raised? ==> r == Raised(u.exc) && attrs == old(attrs))
                && (u.Ok? ==> attrs == u.value.0 && r == Ok(u.value.1))
    {
      var nv := GetNewAttr(src, m, env);
      if nv.Raised? {
        return Raised(nv.exc);
      }
      r := WriteAttr(field, nv.value);
    }

    /** The comparison and write that end `update_field` in both early
      versions: `str(new_attr) != str(old_attr or "")`, or a field the
      resource lacks. */
    method WriteAttr(field: string, nv: Value) returns (r: Outcome<bool>)
      modifies this
      ensures var u := Update(old(attrs), field, nv);
              (u.Raised? ==> r == Raised(u.exc) && attrs == old(attrs))
              && (u.Ok? ==> attrs == u.value.0 && r == Ok(u.value.1))
    {
      var updated := false;
      if field in attrs {
        var newText := PyStr(nv);
        if newText.Raised? {
          return Raised(newText.exc);
        }
        var oldText := PyStr(OrEmpty(attrs[field]));
        if oldText.Raised? {
          return Raised(oldText.exc);
        }
        if newText.value != oldText.value {
          attrs := attrs[field := nv];
          updated := true;
        }
      } else {
        attrs := attrs[field := nv];
        updated := true;
      }
      r := Ok(updated);
    }

    /** The loop of the sync tasks of marketo_pipedrive_sync.py over a table. */
    method ApplyTable(src: Record, table: M.Table, env: R.Env) returns (r: Outcome<bool>)
      modifies this
      ensures var all := ApplyAll(src, old(attrs), table, env);
              if all.Raised? then r == Raised(all.exc) else r == Ok(all.value.1) && attrs == all.value.0
    {
      ghost var start := attrs;
      r := Ok(false);
      var i := 0;
      while i < |table| && r.Ok?
        invariant 0 <= i <= |table|
        invariant r.Ok? ==> ApplyAll(src, start, table[..i], env) == Ok((attrs, r.value))
        invariant r.Raised? ==> ApplyAll(src, start, table[..i], env) == Raised(r.exc)
      {
        r := ApplyEntry(src, start, table, env, i, r.value);
        i := i + 1;
      }
      if r.Raised? {
        RaisedStays(src, start, table, env, i);
      } else {
        assert table[..i] == table;
      }
    }

    /** One iteration of the loop: entry `i` applied, after the first `i`
      entries left the attributes as they are and the flag as `changed`. */
    method ApplyEntry(src: Record, ghost start: Record, table: M.Table, env: R.Env, i: nat, changed: bool)
      returns (r: Outcome<bool>)
      requires i < |table| && ApplyAll(src, start, table[..i], env) == Ok((attrs, changed))
      modifies this
      ensures r.Raised? ==> ApplyAll(src, start, table[..i + 1], env) == Raised(r.exc)
      ensures r.Ok? ==> ApplyAll(src, start, table[..i + 1], env) == Ok((attrs, r.value))
    {
      ApplyAllStep(src, start, table, env, i);
      var u := UpdateField(src, table[i].0, table[i].1, env);
      if u.Raised? {
        return Raised(u.exc);
      }
      r := Ok(u.value || changed);
    }

    /** `update_field(from_resource, to_resource, to_field, mapping, to_client)`
      of marketo_sync.py: the texts gathered, then compared and written. */
    method UpdateFieldWithClient(src: Record, field: string, m: ClientEntry) returns (r: Outcome<bool>)
      modifies this
      ensures var u := ClientUpdate(src, old(attrs), field, m);
              (u.Raised? ==> r == Raised(u.exc) && attrs == old(attrs))
              && (u.Ok? ==> attrs == u.value.0 && r == Ok(u.value.1))
    {
      var texts: Outcome<seq<string>> := Ok([]);
      var i := 0;
      while i < |m.fields| && texts.Ok?
        invariant 0 <= i <= |m.fields|
        invariant ClientPieces(src, m.fields[..i], m.adapter) == texts
        invariant attrs == old(attrs)
      {
        ClientPiecesStep(src, m.fields, m.adapter, i);
        var piece := ClientField(src, m.fields[i], m.adapter);
        texts := if piece.Raised? then Raised(piece.exc) else Ok(texts.value + [piece.value]);
        i := i + 1;
      }
      if texts.Raised? {
        ClientPiecesRaisedStays(src, m.fields, m.adapter, i);
        r := Raised(texts.exc);
      } else {
        assert m.fields[..i] == m.fields;
        r := WriteAttr(field, Str(JoinSpace(texts.value)));
      }
    }

    /** The loop of the sync tasks of marketo_sync.py over a table. */
    method ApplyClientTable(src: Record, table: ClientTable) returns (r: Outcome<bool>)
      modifies this
      ensures var all := ClientApplyAll(src, old(attrs), table);
              if all.Raised? then r == Raised(all.exc) else r == Ok(all.value.1) && attrs == all.value.0
    {
      ghost var start := attrs;
      r := Ok(false);
      var i := 0;
      while i < |table| && r.Ok?
        invariant 0 <= i <= |table|
        invariant r.Ok? ==> ClientApplyAll(src, start, table[..i]) == Ok((attrs, r.value))
        invariant r.Raised? ==> ClientApplyAll(src, start, table[..i]) == Raised(r.exc)
      {
        r := ApplyClientEntry(src, start, table, i, r.value);
        i := i + 1;
      }
      if r.Raised? {
        ClientRaisedStays(src, start, table, i);
      } else {
        assert table[..i] == table;
      }
    }

    /** One iteration of that loop: entry `i` applied, after the first `i`
      entries left the attributes as they are and the flag as `updated`. */
    method ApplyClientEntry(src: Record, ghost start: Record, table: ClientTable, i: nat, updated: bool)
      returns (r: Outcome<bool>)
      requires i < |table| && ClientApplyAll(src, start, table[..i]) == Ok((attrs, updated))
      modifies this
      ensures r.Raised? ==> ClientApplyAll(src, start, table[..i + 1]) == Raised(r.exc)
      ensures r.Ok? ==> ClientApplyAll(src, start, table[..i + 1]) == Ok((attrs, r.value))
    {
      ClientApplyAllStep(src, start, table, i);
      var u := UpdateFieldWithClient(src, table[i].0, table[i].1);
      if u.Raised? {
        return Raised(u.exc);
      }
      r := Ok(u.value || updated);
    }
  }

  /** The person task of marketo_pipedrive_sync.py against the two CRMs. */
  method SyncPerson(crm: T.Crm, w: T.World, env: R.Env, leadId: Value) returns (ret: T.Ret)
    modifies crm
    ensures (crm.State(), ret) == PersonTask(old(crm.State()), w, env, leadId)
  {
    var lead := OpenAny(crm.State(), w, T.Lead, "id", leadId);
    var found := OpenAny(crm.State(), w, T.Person, "id", Get(lead, "pipedriveId"));
    var person := new Resource(found);
    var changed := person.ApplyTable(lead, M.PersonToLead(), env);
    if changed.Raised? {
      return T.Crashed(changed.exc);
    }
    person.attrs := person.attrs["owner_id" := Int(OWNER_ID)];
    if !changed.value {
      return T.Synced(T.Skipped, found["id"]);
    }
    var pid := crm.SaveEntity(T.Person, person.attrs);
    if Get(lead, "pipedriveId") == Null || !PyEq(Get(lead, "id"), Get(person.attrs, "marketoid")) {
      var _ := crm.SaveEntity(T.Lead, lead["pipedriveId" := Int(pid)]);
    }
    ret := T.Synced(T.StatusOf(found), Int(pid));
  }

  /** The lead task of marketo_pipedrive_sync.py against the two CRMs. */
  method SyncLead(crm: T.Crm, w: T.World, env: R.Env, personId: Value) returns (ret: T.Ret)
    modifies crm
    ensures (crm.State(), ret) == LeadTask(old(crm.State()), w, env, personId)
  {
    var person := OpenAny(crm.State(), w, T.Person, "id", personId);
    var found := OpenAny(crm.State(), w, T.Lead, "id", Get(person, "marketoid"));
    var lead := new Resource(found);
    var changed := lead.ApplyTable(person, M.LeadToPerson(), env);
    if changed.Raised? {
      return T.Crashed(changed.exc);
    }
    if !changed.value {
      return T.Synced(T.Skipped, found["id"]);
    }
    var lid := crm.SaveEntity(T.Lead, lead.attrs);
    if Get(person, "marketoid") == Null || !PyEq(Get(person, "marketoid"), Int(lid)) {
      var _ := crm.SaveEntity(T.Person, person["marketoid" := Int(lid)]);
    }
    ret := T.Synced(T.StatusOf(found), Int(lid));
  }

  /** The person task of marketo_sync.py against the two CRMs: what it
      raises leaves both untouched. */
  method SyncPersonEarliest(crm: T.Crm, w: T.World, table: ClientTable, leadId: Value) returns (r: Outcome<()>)
    modifies crm
    ensures var res := EarliestPersonTask(old(crm.State()), w, table, leadId);
            (res.Raised? ==> r == Raised(res.exc) && crm.State() == old(crm.State()))
            && (res.Ok? ==> r == Ok(()) && crm.State() == res.value)
  {
    var lead := OpenAny(crm.State(), w, T.Lead, "id", leadId);
    var found := OpenAny(crm.State(), w, T.Person, "id", Get(lead, "pipedriveId"));
    var person := new Resource(found);
    var updated := person.ApplyClientTable(lead, table);
    if updated.Raised? {
      return Raised(updated.exc);
    }
    person.attrs := person.attrs["owner_id" := Int(OWNER_ID)];
    if updated.value {
      var pid := crm.SaveEntity(T.Person, person.attrs);
      if Get(lead, "pipedriveId") == Null || !PyEq(Get(lead, "id"), Get(person.attrs, "marketoid")) {
        var _ := crm.SaveEntity(T.Lead, lead["pipedriveId" := Int(pid)]);
      }
    }
    r := Ok(());
  }

  /** The lead task of marketo_sync.py against the two CRMs: what it raises
      leaves both untouched. */
  method SyncLeadEarliest(crm: T.Crm, w: T.World, table: ClientTable, personId: Value) returns (r: Outcome<()>)
    modifies crm
    ensures var res := EarliestLeadTask(old(crm.State()), w, table, personId);
            (res.Raised? ==> r == Raised(res.exc) && crm.State() == old(crm.State()))
            && (res.Ok? ==> r == Ok(()) && crm.State() == res.value)
  {
    var person := OpenAny(crm.State(), w, T.Person, "id", personId);
    var found := OpenAny(crm.State(), w, T.Lead, "id", Get(person, "marketoid"));
    var lead := new Resource(found);
    var updated := lead.ApplyClientTable(person, table);
    if updated.Raised? {
      return Raised(updated.exc);
    }
    if updated.value {
      var lid := crm.SaveEntity(T.Lead, lead.attrs);
      if Get(person, "marketoid") == Null || !PyEq(Get(person, "marketoid"), Int(lid)) {
        var _ := crm.SaveEntity(T.Person, person["marketoid" := Int(lid)]);
      }
    }
    r := Ok(());
  }
}
