/** The resolution engine of sync/tasks.py: `get_new_attr` computes the value
    a mapping entry gives for one target field, `update_field` writes it only
    when it is a real change, and a task applies a whole table, OR-ing the
    changed flags. */
module Engine {
  import opened Values
  import opened Registry
  import opened Mappings

  // ---------------------------------------------------------------------
  // Specification of get_new_attr

  /** The values of the named source fields, each through the pre-adapter, in order. */
  function CollectFields(src: Record, fs: seq<string>, pre: Option<Adapter>, env: Env): (vals: seq<Value>)
    ensures |vals| == |fs|
    ensures forall i :: 0 <= i < |fs| ==> vals[i] == ApplyOpt(pre, Get(src, fs[i]), env)
  {
    if fs == [] then []
    else CollectFields(src, fs[..|fs| - 1], pre, env) + [ApplyOpt(pre, Get(src, fs[|fs| - 1]), env)]
  }

  /** `from_values`: what `get_new_attr` gathers for an entry; the whole source
      record goes through the transformer when the entry names no fields. */
  function Collect(src: Record, m: Entry, env: Env): seq<Value>
  {
    if m.fields.Some? then CollectFields(src, m.fields.value, m.pre, env)
    else if m.transformer.Some? then [Apply(m.transformer.value, Obj(src), env)]
    else []
  }

  /** The texts of the truthy values, in order (what the `join` mode joins). */
  function TruthyTexts(vals: seq<Value>): seq<string>
  {
    if vals == [] then []
    else if Truthy(vals[0]) then [Show(vals[0])] + TruthyTexts(vals[1..])
    else TruthyTexts(vals[1..])
  }

  /** The first truthy value, None when there is none (the `choose` mode). */
  function FirstTruthy(vals: seq<Value>): (r: Value)
    ensures r == Null <==> forall i :: 0 <= i < |vals| ==> !Truthy(vals[i])
    ensures r != Null ==> exists i :: 0 <= i < |vals| && vals[i] == r && Truthy(r)
                                       && forall j :: 0 <= j < i ==> !Truthy(vals[j])
  {
    if vals == [] then Null
    else if Truthy(vals[0]) then vals[0]
    else
      var r := FirstTruthy(vals[1..]);
      assert forall i :: 1 <= i < |vals| ==> vals[i] == vals[1..][i - 1];
      r
  }

  /** How the gathered values become one: none gives None, one is kept as is,
      several are joined or chosen from by the mode, or else the first is kept. */
  function Combine(vals: seq<Value>, mode: Option<Mode>): Value
  {
    if |vals| == 0 then Null
    else if |vals| == 1 || mode.None? then vals[0]
    else match mode.value
      case Join =>
        var j := JoinSpace(TruthyTexts(vals));
        if Strip(j) == "" then Null else Str(j)
      case Choose => FirstTruthy(vals)
      case OtherMode(_) => vals[0]
  }

  /** `get_new_attr`: the post-adapter applied to the combined values. */
  function Resolve(src: Record, m: Entry, env: Env): Value
  {
    ApplyOpt(m.post, Combine(Collect(src, m, env), m.mode), env)
  }

  // ---------------------------------------------------------------------
  // Properties of get_new_attr

  /** An entry that reads no field and has no transformer resolves to the
      post-adapter applied to None, or to None. */
  lemma NoFieldsResolve(src: Record, m: Entry, env: Env)
    requires m.fields == Some([]) || (m.fields.None? && m.transformer.None?)
    ensures Resolve(src, m, env) == ApplyOpt(m.post, Null, env)
  {
  }

  /** A single value is kept as is; several values without a mode keep the first. */
  lemma FirstValueByDefault(vals: seq<Value>, mode: Option<Mode>)
    requires |vals| == 1 || (|vals| > 1 && mode.None?)
    ensures Combine(vals, mode) == vals[0]
  {
  }

  /** The pre-adapter runs on each field value on its own, in field order, and
      the post-adapter once, on the combined value. */
  lemma AdapterPlacement(src: Record, m: Entry, env: Env)
    requires m.fields.Some?
    ensures var fs := m.fields.value;
      Resolve(src, m, env) ==
      ApplyOpt(m.post, Combine(seq(|fs|, i requires 0 <= i < |fs| => ApplyOpt(m.pre, Get(src, fs[i]), env)), m.mode), env)
  {
    var fs := m.fields.value;
    var vals := CollectFields(src, fs, m.pre, env);
    var each := seq(|fs|, i requires 0 <= i < |fs| => ApplyOpt(m.pre, Get(src, fs[i]), env));
    assert Collect(src, m, env) == vals;
    assert vals == each;
  }

  /** The words of all texts, one text after the other. */
  function WordsOfAll(xs: seq<string>): seq<string>
  {
    if xs == [] then [] else Words(xs[0]) + WordsOfAll(xs[1..])
  }

  /** The words of a space-joined list of texts are the words of the texts. */
  lemma {:induction false} WordsOfJoinAll(xs: seq<string>)
    ensures Words(JoinSpace(xs)) == WordsOfAll(xs)
    decreases |xs|
  {
    if |xs| == 1 {
      assert Words(xs[0]) + [] == Words(xs[0]);
    } else if |xs| > 1 {
      var rest := JoinSpace(xs[1..]);
      assert xs[0] + " " + rest == xs[0] + (" " + rest);
      WordsAppend(xs[0], " " + rest);
      assert (" " + rest)[1..] == rest;
      WordsOfJoinAll(xs[1..]);
    }
  }

  /** Text is blank after `strip()` exactly when it has no words, that is
      exactly when it is all whitespace. */
  lemma {:induction false} StripBlankIffNoWords(s: string)
    ensures Strip(s) == "" <==> Words(s) == []
    ensures Words(s) == [] <==> forall i :: 0 <= i < |s| ==> IsSpace(s[i])
    decreases |s|
  {
    if s != [] {
      if IsSpace(s[0]) {
        StripBlankIffNoWords(s[1..]);
        assert forall i :: 1 <= i < |s| ==> s[i] == s[1..][i - 1];
      } else {
        assert Words(s) != [];
      }
    }
  }

  /** The words of the values the `join` mode keeps. */
  function JoinedWords(vals: seq<Value>): seq<string>
  {
    WordsOfAll(TruthyTexts(vals))
  }

  /** `join` mode: the result has exactly the words of the truthy values, in
      order, so empty and None values add no separator; it is None when no
      word is left. */
  lemma JoinMode(vals: seq<Value>)
    requires |vals| >= 2
    ensures Combine(vals, Some(Join)) == Null <==> JoinedWords(vals) == []
    ensures Combine(vals, Some(Join)) != Null ==>
              Combine(vals, Some(Join)).Str? && Words(Combine(vals, Some(Join)).s) == JoinedWords(vals)
  {
    var j := JoinSpace(TruthyTexts(vals));
    WordsOfJoinAll(TruthyTexts(vals));
    StripBlankIffNoWords(j);
  }

  /** Two names joined: both present give "first last", one missing gives the other. */
  lemma JoinTwoNames(first: string, last: string)
    requires IsWord(first) && IsWord(last)
    ensures Combine([Str(first), Str(last)], Some(Join)) == Str(first + " " + last)
    ensures Combine([Str(first), Null], Some(Join)) == Str(first)
    ensures Combine([Str(""), Str(last)], Some(Join)) == Str(last)
    ensures Combine([Null, Str("")], Some(Join)) == Null
  {
    assert [Str(first), Str(last)][1..] == [Str(last)] && [Str(last)][1..] == [];
    assert TruthyTexts([Str(last)]) == [last];
    assert TruthyTexts([Str(first), Str(last)]) == [first, last];
    assert [first, last][1..] == [last];
    assert JoinSpace([first, last]) == first + " " + last;
    assert (first + " " + last)[0] == first[0] && !IsSpace(first[0]);
    assert [Str(first), Null][1..] == [Null] && [Null][1..] == [];
    assert TruthyTexts([Str(first), Null]) == [first];
    assert [Str(""), Str(last)][1..] == [Str(last)];
    assert TruthyTexts([Str(""), Str(last)]) == [last];
    assert [Null, Str("")][1..] == [Str("")];
    assert TruthyTexts([Null, Str("")]) == [];
  }

  /** `choose` mode: the first truthy value in field order, None when all are falsy. */
  lemma ChooseMode(vals: seq<Value>)
    requires |vals| >= 2
    ensures Combine(vals, Some(Choose)) == Null <==> forall i :: 0 <= i < |vals| ==> !Truthy(vals[i])
    ensures Combine(vals, Some(Choose)) != Null ==>
              exists i :: 0 <= i < |vals| && vals[i] == Combine(vals, Some(Choose)) && Truthy(vals[i])
                          && forall j :: 0 <= j < i ==> !Truthy(vals[j])
  {
  }

  /** `get_new_attr`, computed the way the source computes it: a loop gathers
      the (pre-adapted) field values, then the mode and the post-adapter apply. */
  method GetNewAttr(src: Record, m: Entry, env: Env) returns (r: Value)
    ensures r == Resolve(src, m, env)
  {
    var fromValues: seq<Value> := [];
    if m.fields.Some? {
      var fs := m.fields.value;
      var i := 0;
      while i < |fs|
        invariant 0 <= i <= |fs|
        invariant fromValues == CollectFields(src, fs[..i], m.pre, env)
      {
        var fromAttr := Get(src, fs[i]);
        if m.pre.Some? {
          fromAttr := Apply(m.pre.value, fromAttr, env);
        }
        fromValues := fromValues + [fromAttr];
        assert fs[..i + 1][..i] == fs[..i];
        i := i + 1;
      }
      assert fs[..|fs|] == fs;
    } else if m.transformer.Some? {
      fromValues := [Apply(m.transformer.value, Obj(src), env)];
    }
    r := Null;
    if |fromValues| > 0 {
      r := fromValues[0];
      if |fromValues| > 1 && m.mode.Some? {
        if m.mode.value == Join {
          var joined := JoinSpace(TruthyTexts(fromValues));
          r := if Strip(joined) != "" then Str(joined) else Null;
        } else if m.mode.value == Choose {
          r := FirstTruthy(fromValues);
        }
      }
    }
    if m.post.Some? {
      r := Apply(m.post.value, r, env);
    }
  }

  // ---------------------------------------------------------------------
  // update_field

  /** `update_field`'s effect on the target record, given the resolved value:
      a field the target has is overwritten only by a different value that is
      neither None nor empty; a field it lacks is always written. */
  function Update(t: Record, field: string, nv: Value): (r: (Record, bool))
    ensures r.1 <==> field !in t || (!PyEq(nv, t[field]) && !IsBlank(nv))
    ensures r.0 == if r.1 then t[field := nv] else t
  {
    if field in t then
      if !PyEq(nv, t[field]) && nv != Null && nv != Str("") then (t[field := nv], true) else (t, false)
    else (t[field := nv], true)
  }

  /** A field the target has is never overwritten with nothing. */
  lemma NeverBlanked(t: Record, field: string, nv: Value)
    requires field in t && IsBlank(nv)
    ensures Update(t, field, nv) == (t, false)
  {
  }

  /** Writing the same value a second time changes nothing. */
  lemma UpdateIdempotent(t: Record, field: string, nv: Value)
    ensures Update(Update(t, field, nv).0, field, nv) == (Update(t, field, nv).0, false)
  {
    var t1 := Update(t, field, nv).0;
    assert field in t1;
    if t1[field] == nv {
      assert PyEq(nv, nv);
    }
  }

  /** A task's loop over a table: each entry's `update_field` in turn, the
      flags OR-ed (every entry runs, whatever the flag already is). */
  function ApplyAll(src: Record, t: Record, table: Table, env: Env): (Record, bool)
  {
    if table == [] then (t, false)
    else
      var prev := ApplyAll(src, t, table[..|table| - 1], env);
      var last := table[|table| - 1];
      var step := Update(prev.0, last.0, Resolve(src, last.1, env));
      (step.0, step.1 || prev.1)
  }

  /** One more entry of the table applied after the first `i`. */
  lemma ApplyAllStep(src: Record, t: Record, table: Table, env: Env, i: nat)
    requires i < |table|
    ensures var prev := ApplyAll(src, t, table[..i], env);
            var step := Update(prev.0, table[i].0, Resolve(src, table[i].1, env));
            ApplyAll(src, t, table[..i + 1], env) == (step.0, step.1 || prev.1)
  {
    assert table[..i + 1][..i] == table[..i];
  }

  /** Two records that agree on a field give `update_field` the same decision there. */
  lemma UpdateAgrees(t1: Record, t2: Record, f: string, nv: Value)
    requires (f in t1 <==> f in t2) && (f in t1 ==> t1[f] == t2[f])
    ensures Update(t1, f, nv).1 == Update(t2, f, nv).1
    ensures Update(t1, f, nv).0[f] == Update(t2, f, nv).0[f]
  {
  }

  predicate NotTarget(table: Table, k: string)
  {
    forall i :: 0 <= i < |table| ==> table[i].0 != k
  }

  /** A field no entry targets keeps its value (and its absence). */
  lemma {:induction false} ApplyAllFrame(src: Record, t: Record, table: Table, env: Env, k: string)
    requires NotTarget(table, k)
    ensures k in ApplyAll(src, t, table, env).0 <==> k in t
    ensures k in t ==> ApplyAll(src, t, table, env).0[k] == t[k]
    decreases |table|
  {
    if table != [] {
      var init := table[..|table| - 1];
      assert forall i :: 0 <= i < |init| ==> init[i] == table[i];
      ApplyAllFrame(src, t, init, env, k);
    }
  }

  lemma DistinctInit(table: Table)
    requires DistinctTargets(table) && table != []
    ensures DistinctTargets(table[..|table| - 1])
    ensures NotTarget(table[..|table| - 1], table[|table| - 1].0)
  {
    var init := table[..|table| - 1];
    assert forall i :: 0 <= i < |init| ==> init[i] == table[i];
  }

  /** `update_field` on one field leaves every other field as it was. */
  lemma UpdateElsewhere(t: Record, field: string, nv: Value, f: string)
    requires f != field && f in t
    ensures f in Update(t, field, nv).0 && Update(t, field, nv).0[f] == t[f]
  {
  }

  /** The last entry's target ends up as its own `update_field` would leave
      the original record. */
  lemma ApplyAllTargetLast(src: Record, t: Record, table: Table, env: Env)
    requires DistinctTargets(table) && table != []
    ensures var last := table[|table| - 1];
            last.0 in ApplyAll(src, t, table, env).0
            && ApplyAll(src, t, table, env).0[last.0] == Update(t, last.0, Resolve(src, last.1, env)).0[last.0]
  {
    var init := table[..|table| - 1];
    var last := table[|table| - 1];
    DistinctInit(table);
    ApplyAllFrame(src, t, init, env, last.0);
    UpdateAgrees(ApplyAll(src, t, init, env).0, t, last.0, Resolve(src, last.1, env));
  }

  /** With distinct targets, each target field ends up as that entry's own
      `update_field` would leave the original record. */
  lemma {:induction false} ApplyAllTarget(src: Record, t: Record, table: Table, env: Env, i: nat)
    requires DistinctTargets(table) && i < |table|
    ensures table[i].0 in ApplyAll(src, t, table, env).0
    ensures ApplyAll(src, t, table, env).0[table[i].0]
            == Update(t, table[i].0, Resolve(src, table[i].1, env)).0[table[i].0]
    decreases |table|
  {
    var n := |table| - 1;
    if i == n {
      ApplyAllTargetLast(src, t, table, env);
    } else {
      var init := table[..n];
      assert DistinctTargets(init) && init[i] == table[i] by {
        DistinctInit(table);
      }
      ApplyAllTarget(src, t, init, env, i);
      ApplyAllTargetKept(src, t, table, env, i);
    }
  }

  /** A target other than the last one keeps, past the last entry, what the
      entries before left in it. */
  lemma ApplyAllTargetKept(src: Record, t: Record, table: Table, env: Env, i: nat)
    requires DistinctTargets(table) && i < |table| - 1
    requires table[i].0 in ApplyAll(src, t, table[..|table| - 1], env).0
    ensures table[i].0 in ApplyAll(src, t, table, env).0
    ensures ApplyAll(src, t, table, env).0[table[i].0] == ApplyAll(src, t, table[..|table| - 1], env).0[table[i].0]
  {
    var n := |table| - 1;
    DistinctInit(table);
    assert table[..n][i] == table[i];
    var prev := ApplyAll(src, t, table[..n], env).0;
    UpdateElsewhere(prev, table[n].0, Resolve(src, table[n].1, env), table[i].0);
  }

  /** With distinct targets, the run changed something exactly when some entry
      alone would have changed the original record. */
  lemma {:induction false} ApplyAllFlag(src: Record, t: Record, table: Table, env: Env)
    requires DistinctTargets(table)
    ensures ApplyAll(src, t, table, env).1 <==>
              exists i :: 0 <= i < |table| && Update(t, table[i].0, Resolve(src, table[i].1, env)).1
    decreases |table|
  {
    if table != [] {
      var n := |table| - 1;
      var init := table[..n];
      DistinctInit(table);
      ApplyAllFlag(src, t, init, env);
      ApplyAllFrame(src, t, init, env, table[n].0);
      UpdateAgrees(ApplyAll(src, t, init, env).0, t, table[n].0, Resolve(src, table[n].1, env));
      assert forall i :: 0 <= i < n ==> init[i] == table[i];
    }
  }

  /** When no entry changes anything the target record is left as it was. */
  lemma {:induction false} NoChangeNoWrite(src: Record, t: Record, table: Table, env: Env)
    requires !ApplyAll(src, t, table, env).1
    ensures ApplyAll(src, t, table, env).0 == t
    decreases |table|
  {
    if table != [] {
      NoChangeNoWrite(src, t, table[..|table| - 1], env);
    }
  }

  /** Running a table a second time over its own result changes nothing: a
      synchronisation repeated without new source data is skipped. */
  lemma SecondRunChangesNothing(src: Record, t: Record, table: Table, env: Env)
    requires DistinctTargets(table)
    ensures !ApplyAll(src, ApplyAll(src, t, table, env).0, table, env).1
  {
    var t1 := ApplyAll(src, t, table, env).0;
    ApplyAllFlag(src, t1, table, env);
    forall i | 0 <= i < |table|
      ensures !Update(t1, table[i].0, Resolve(src, table[i].1, env)).1
    {
      var f, nv := table[i].0, Resolve(src, table[i].1, env);
      ApplyAllTarget(src, t, table, env, i);
      assert PyEq(nv, nv);
    }
  }

  /** An entry reading one field without a mode resolves to that field's
      value, through the post-adapter. */
  lemma SingleFieldResolve(src: Record, f: string, post: Option<Adapter>, env: Env)
    ensures Resolve(src, Entry(Some([f]), None, None, post, None), env) == ApplyOpt(post, Get(src, f), env)
  {
    assert CollectFields(src, [f], None, env) == [Get(src, f)];
  }

  /** One entry that would change the target makes the whole run report a change. */
  lemma ChangedByEntry(src: Record, t: Record, table: Table, env: Env, i: nat)
    requires DistinctTargets(table) && i < |table|
    requires Update(t, table[i].0, Resolve(src, table[i].1, env)).1
    ensures ApplyAll(src, t, table, env).1
  {
    ApplyAllFlag(src, t, table, env);
  }

  /** When the target has every field the table writes and every entry
      resolves to nothing, the run changes nothing. */
  lemma UnchangedWhenAllBlank(src: Record, t: Record, table: Table, env: Env)
    requires DistinctTargets(table)
    requires forall i :: 0 <= i < |table| ==> table[i].0 in t && IsBlank(Resolve(src, table[i].1, env))
    ensures !ApplyAll(src, t, table, env).1
  {
    ApplyAllFlag(src, t, table, env);
  }

  /** The target object of `update_field`: a record the sync task fills field by field. */
  class Entity {
    var attrs: Record

    constructor (init: Record)
      ensures attrs == init
    {
      attrs := init;
    }

    /** `update_field(from_resource, self, field, mapping)` */
    method UpdateField(src: Record, field: string, m: Entry, env: Env) returns (updated: bool)
      modifies this
      ensures (attrs, updated) == Update(old(attrs), field, Resolve(src, m, env))
    {
      var newAttr := GetNewAttr(src, m, env);
      updated := false;
      if field in attrs {
        var oldAttr := attrs[field];
        if !PyEq(newAttr, oldAttr) && newAttr != Null && newAttr != Str("") {
          attrs := attrs[field := newAttr];
          updated := true;
        }
      } else {
        attrs := attrs[field := newAttr];
        updated := true;
      }
    }

    /** The loop of a `create_or_update_*` task over its mapping table. */
    method ApplyTable(src: Record, table: Table, env: Env) returns (changed: bool)
      modifies this
      ensures (attrs, changed) == ApplyAll(src, old(attrs), table, env)
    {
      changed := false;
      var i := 0;
      while i < |table|
        invariant 0 <= i <= |table|
        invariant (attrs, changed) == ApplyAll(src, old(attrs), table[..i], env)
      {
        ApplyAllStep(src, old(attrs), table, env, i);
        var c := UpdateField(src, table[i].0, table[i].1, env);
        changed := c || changed;
        i := i + 1;
      }
      assert table[..|table|] == table;
    }
  }
}
