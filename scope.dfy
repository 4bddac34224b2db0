/** The code generator's symbol table: every name maps to a stack of bindings, the
    innermost binding last. A name with no binding has no entry, so two tables with
    the same bindings are equal. */
module Scope {
  import opened Wrappers

  type Table<V> = map<string, seq<V>>

  /** No name is kept with an empty stack. */
  ghost predicate WellFormed<V>(t: Table<V>)
  {
    forall n :: n in t ==> |t[n]| > 0
  }

  /** The bindings of `n`, outermost first. */
  function Stack<V>(t: Table<V>, n: string): seq<V>
  {
    if n in t then t[n] else []
  }

  /** `sym_push`: a new innermost binding of `n`. */
  function Push<V>(t: Table<V>, n: string, v: V): (r: Table<V>)
    ensures Stack(r, n) == Stack(t, n) + [v]
    ensures forall m :: m != n ==> Stack(r, m) == Stack(t, m)
  {
    t[n := Stack(t, n) + [v]]
  }

  /** `sym_pop`: drop the innermost binding of `n`; popping a name with no binding is
      an internal error (`None`). */
  function Pop<V>(t: Table<V>, n: string): (r: Option<Table<V>>)
    ensures r.Some? <==> |Stack(t, n)| > 0
    ensures r.Some? ==> Stack(r.value, n) == Stack(t, n)[..|Stack(t, n)| - 1]
    ensures r.Some? ==> forall m :: m != n ==> Stack(r.value, m) == Stack(t, m)
  {
    if |Stack(t, n)| == 0 then None
    else if |t[n]| == 1 then Some(t - {n})
    else Some(t[n := t[n][..|t[n]| - 1]])
  }

  /** `sym_get`: the innermost binding of `n`, if any. */
  function Lookup<V>(t: Table<V>, n: string): (r: Option<V>)
    ensures r.Some? <==> |Stack(t, n)| > 0
    ensures r.Some? ==> r.value == Stack(t, n)[|Stack(t, n)| - 1]
  {
    if |Stack(t, n)| == 0 then None else Some(t[n][|t[n]| - 1])
  }

  /** Push `ns[i]` bound to `vs[i]`, in order. */
  function PushAll<V>(t: Table<V>, ns: seq<string>, vs: seq<V>): Table<V>
    requires |ns| == |vs|
    decreases ns
  {
    if ns == [] then t else PushAll(Push(t, ns[0], vs[0]), ns[1..], vs[1..])
  }

  /** Pop `ns[0]`, then `ns[1]`, and so on; the error is the first name found with no
      binding. */
  function PopAll<V>(t: Table<V>, ns: seq<string>): Result<Table<V>, string>
  {
    if ns == [] then Ok(t)
    else match Pop(t, ns[0])
      case None => Err(ns[0])
      case Some(u) => PopAll(u, ns[1..])
  }

  /** How often `n` occurs in `ns`. */
  function Count(ns: seq<string>, n: string): nat
  {
    if ns == [] then 0 else (if ns[0] == n then 1 else 0) + Count(ns[1..], n)
  }

  /** Two well-formed tables with the same stacks are the same table. */
  lemma SameStacksSameTable<V>(t: Table<V>, u: Table<V>)
    requires WellFormed(t) && WellFormed(u)
    requires forall n :: Stack(t, n) == Stack(u, n)
    ensures t == u
  {
    forall n ensures (n in t <==> n in u) && (n in t ==> t[n] == u[n]) {
      assert Stack(t, n) == Stack(u, n);
    }
  }

  lemma PushWellFormed<V>(t: Table<V>, n: string, v: V)
    requires WellFormed(t)
    ensures WellFormed(Push(t, n, v))
  {
  }

  lemma PopWellFormed<V>(t: Table<V>, n: string)
    requires WellFormed(t) && Pop(t, n).Some?
    ensures WellFormed(Pop(t, n).value)
  {
  }

  /** A pop undoes the push just before it, and the shadowed binding is visible again. */
  lemma PopUndoesPush<V>(t: Table<V>, n: string, v: V)
    requires WellFormed(t)
    ensures Pop(Push(t, n, v), n) == Some(t)
    ensures Lookup(Push(t, n, v), n) == Some(v)
    ensures Lookup(Pop(Push(t, n, v), n).value, n) == Lookup(t, n)
  {
    var u := Pop(Push(t, n, v), n).value;
    assert Stack(u, n) == Stack(t, n);
    PushWellFormed(t, n, v);
    PopWellFormed(Push(t, n, v), n);
    SameStacksSameTable(u, t);
  }

  /** Pushing a list of names adds their bindings at the top of each stack. */
  lemma {:induction false} PushAllStacks<V>(t: Table<V>, ns: seq<string>, vs: seq<V>, n: string)
    requires |ns| == |vs|
    ensures |Stack(PushAll(t, ns, vs), n)| == |Stack(t, n)| + Count(ns, n)
    ensures Stack(PushAll(t, ns, vs), n)[..|Stack(t, n)|] == Stack(t, n)
    decreases ns
  {
    if ns != [] {
      var u := Push(t, ns[0], vs[0]);
      PushAllStacks(u, ns[1..], vs[1..], n);
      assert Stack(u, n)[..|Stack(t, n)|] == Stack(t, n);
    }
  }

  lemma {:induction false} PushAllWellFormed<V>(t: Table<V>, ns: seq<string>, vs: seq<V>)
    requires |ns| == |vs| && WellFormed(t)
    ensures WellFormed(PushAll(t, ns, vs))
    decreases ns
  {
    if ns != [] {
      PushWellFormed(t, ns[0], vs[0]);
      PushAllWellFormed(Push(t, ns[0], vs[0]), ns[1..], vs[1..]);
    }
  }

  /** Popping, in any order, names that occur as often as the bindings `u` holds above
      `t` brings `u` back to `t`. */
  lemma {:induction false} PopAllRestores<V>(t: Table<V>, u: Table<V>, ns: seq<string>)
    requires WellFormed(t) && WellFormed(u)
    requires forall n :: |Stack(u, n)| == |Stack(t, n)| + Count(ns, n) && Stack(u, n)[..|Stack(t, n)|] == Stack(t, n)
    ensures PopAll(u, ns) == Ok(t)
  {
    if ns == [] {
      forall n ensures Stack(u, n) == Stack(t, n) {
        assert Stack(u, n) == Stack(u, n)[..|Stack(t, n)|];
      }
      SameStacksSameTable(u, t);
    } else {
      var m := ns[0];
      assert Count(ns, m) == 1 + Count(ns[1..], m);
      var u' := Pop(u, m).value;
      PopWellFormed(u, m);
      forall n
        ensures |Stack(u', n)| == |Stack(t, n)| + Count(ns[1..], n) && Stack(u', n)[..|Stack(t, n)|] == Stack(t, n)
      {
        assert Count(ns, n) == (if m == n then 1 else 0) + Count(ns[1..], n);
        if n == m {
          assert Stack(u', n)[..|Stack(t, n)|] == Stack(u, n)[..|Stack(t, n)|];
        }
      }
      PopAllRestores(t, u', ns[1..]);
    }
  }

  /** Pushing one binding per name and then popping the same names in the same order
      (as a kernel's arguments are bound and released) restores the table, whatever
      the names. */
  lemma PushAllPopAll<V>(t: Table<V>, ns: seq<string>, vs: seq<V>)
    requires |ns| == |vs| && WellFormed(t)
    ensures PopAll(PushAll(t, ns, vs), ns) == Ok(t)
  {
    PushAllWellFormed(t, ns, vs);
    forall n
      ensures |Stack(PushAll(t, ns, vs), n)| == |Stack(t, n)| + Count(ns, n) &&
              Stack(PushAll(t, ns, vs), n)[..|Stack(t, n)|] == Stack(t, n)
    {
      PushAllStacks(t, ns, vs, n);
    }
    PopAllRestores(t, PushAll(t, ns, vs), ns);
  }

  /** Pushing one more name extends `PushAll` at the end. */
  lemma {:induction false} PushAllSnoc<V>(t: Table<V>, ns: seq<string>, vs: seq<V>, n: string, v: V)
    requires |ns| == |vs|
    ensures PushAll(t, ns + [n], vs + [v]) == Push(PushAll(t, ns, vs), n, v)
    decreases ns
  {
    if ns == [] {
      assert ns + [n] == [n] && vs + [v] == [v];
      assert [n][1..] == [] && [v][1..] == [];
    } else {
      assert (ns + [n])[1..] == ns[1..] + [n];
      assert (vs + [v])[1..] == vs[1..] + [v];
      PushAllSnoc(Push(t, ns[0], vs[0]), ns[1..], vs[1..], n, v);
    }
  }

  /** Popping one more name extends `PopAll` at the end. */
  lemma {:induction false} PopAllSnoc<V>(t: Table<V>, ns: seq<string>, n: string)
    ensures PopAll(t, ns + [n]) ==
              match PopAll(t, ns)
              case Err(m) => Err(m)
              case Ok(u) => if Pop(u, n).Some? then Ok(Pop(u, n).value) else Err(n)
    decreases ns
  {
    if ns == [] {
      assert ns + [n] == [n];
    } else {
      assert (ns + [n])[1..] == ns[1..] + [n];
      if Pop(t, ns[0]).Some? {
        PopAllSnoc(Pop(t, ns[0]).value, ns[1..], n);
      }
    }
  }

  /** Once a pop fails, popping further names does not change the error. */
  lemma {:induction false} PopAllErrPrefix<V>(t: Table<V>, ns: seq<string>, more: seq<string>)
    requires PopAll(t, ns).Err?
    ensures PopAll(t, ns + more) == PopAll(t, ns)
    decreases ns
  {
    assert ns != [];
    assert (ns + more)[0] == ns[0] && (ns + more)[1..] == ns[1..] + more;
    if Pop(t, ns[0]).Some? {
      PopAllErrPrefix(Pop(t, ns[0]).value, ns[1..], more);
    }
  }
}
