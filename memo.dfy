/** The `memoize(function_name)` decorator of sync/common/util.py: a method
    wrapped with it keeps its results in the instance's own `_memo`
    dictionary, `_memo[function_name][args]`, and calls the wrapped method
    only for arguments it has not seen. */
module Memo {
  import opened Values

  type Args = seq<Value>

  /** The instance state the decorator touches: the cache, and the calls the
      wrapped methods have received so far (function name and arguments). */
  datatype State = State(memo: map<string, map<Args, Value>>, calls: seq<(string, Args)>)

  /** The stored result for `function_name` and `args`, if any. */
  function Stored(memo: map<string, map<Args, Value>>, name: string, args: Args): (r: Option<Value>)
    ensures r.Some? <==> name in memo && args in memo[name]
    ensures r.Some? ==> r.value == memo[name][args]
  {
    if name in memo && args in memo[name] then Some(memo[name][args]) else None
  }

  /** One call of the decorated method: the stored result when there is one,
      otherwise the wrapped method's result, which is then stored. */
  function Invoke(s: State, name: string, f: Args -> Value, args: Args): (r: (State, Value))
    ensures Stored(s.memo, name, args).Some? ==> r == (s, Stored(s.memo, name, args).value)
    ensures Stored(s.memo, name, args).None? ==>
              r.1 == f(args) && r.0.calls == s.calls + [(name, args)]
    ensures Stored(r.0.memo, name, args) == Some(r.1)
  {
    if name in s.memo && args in s.memo[name] then (s, s.memo[name][args])
    else
      var table := if name in s.memo then s.memo[name] else map[];
      var rv := f(args);
      (State(s.memo[name := table[args := rv]], s.calls + [(name, args)]), rv)
  }

  /** Every other entry, of this function or of another, is left as it was. */
  lemma InvokeKeepsOthers(s: State, name: string, f: Args -> Value, args: Args, other: string, otherArgs: Args)
    requires other != name || otherArgs != args
    ensures Stored(Invoke(s, name, f, args).0.memo, other, otherArgs) == Stored(s.memo, other, otherArgs)
  {
  }

  /** A second call with the same arguments returns the first call's result
      and does not call the wrapped method again. */
  lemma SecondCallCached(s: State, name: string, f: Args -> Value, g: Args -> Value, args: Args)
    ensures var (s1, v1) := Invoke(s, name, f, args);
            Invoke(s1, name, g, args) == (s1, v1)
  {
  }

  /** An object whose methods are memoized; its cache is its own field, so
      two objects never share entries. */
  class Cached {
    var memo: map<string, map<Args, Value>>
    var calls: seq<(string, Args)>

    constructor ()
      ensures memo == map[] && calls == []
    {
      memo := map[];
      calls := [];
    }

    /** `decorated_function(self, *args)`. */
    method Call(name: string, f: Args -> Value, args: Args) returns (rv: Value)
      modifies this
      ensures (State(memo, calls), rv) == Invoke(State(old(memo), old(calls)), name, f, args)
    {
      if name in memo && args in memo[name] {
        rv := memo[name][args];
      } else {
        ghost var table := if name in memo then memo[name] else map[];
        if name !in memo {
          memo := memo[name := map[]];
        }
        assert memo[name] == table;
        rv := f(args);
        calls := calls + [(name, args)];
        memo := memo[name := memo[name][args := rv]];
        assert memo == old(memo)[name := table[args := rv]];
      }
    }
  }
}
