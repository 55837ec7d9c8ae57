/** State machines in general: runs, reachable states and what is carried along a run. */
module Machines {
  import opened Wrappers

  /** The state a trace leads to, or None when some action of it is not possible. */
  function Execute<S, A>(step: (S, A) -> Option<S>, s: S, trace: seq<A>): Option<S>
    decreases |trace|
  {
    if trace == [] then Some(s)
    else match step(s, trace[0]) case None => None case Some(n) => Execute(step, n, trace[1..])
  }

  /** Some run from the start ends in this state. */
  ghost predicate Reachable<S(!new), A(!new)>(step: (S, A) -> Option<S>, start: S, s: S) {
    exists trace :: Execute(step, start, trace) == Some(s)
  }

  lemma Single<S, A>(step: (S, A) -> Option<S>, s: S, a: A)
    ensures Execute(step, s, [a]) == step(s, a)
  {
  }

  lemma {:induction false} Concat<S, A>(step: (S, A) -> Option<S>, s: S, one: seq<A>, two: seq<A>)
    requires Execute(step, s, one).Some?
    ensures Execute(step, s, one + two) == Execute(step, Execute(step, s, one).value, two)
    decreases |one|
  {
    if one == [] {
      assert one + two == two;
    } else {
      assert (one + two)[1..] == one[1..] + two;
      Concat(step, step(s, one[0]).value, one[1..], two);
    }
  }

  lemma Extend<S, A>(step: (S, A) -> Option<S>, s: S, trace: seq<A>, m: S, a: A)
    requires Execute(step, s, trace) == Some(m) && step(m, a).Some?
    ensures Execute(step, s, trace + [a]) == step(m, a)
  {
    Concat(step, s, trace, [a]);
    Single(step, m, a);
  }

  lemma Prepend<S, A>(step: (S, A) -> Option<S>, s: S, a: A, trace: seq<A>)
    requires step(s, a).Some?
    ensures Execute(step, s, [a] + trace) == Execute(step, step(s, a).value, trace)
  {
    assert ([a] + trace)[1..] == trace;
  }

  /** Every action of the trace is one that `ok` allows in the state it meets. */
  ghost predicate AllSteps<S, A>(step: (S, A) -> Option<S>, ok: (S, A) -> bool, s: S, trace: seq<A>)
    decreases |trace|
  {
    trace == []
    || (ok(s, trace[0]) && match step(s, trace[0]) case None => true case Some(n) => AllSteps(step, ok, n, trace[1..]))
  }

  lemma {:induction false} AllConcat<S, A>(step: (S, A) -> Option<S>, ok: (S, A) -> bool, s: S, one: seq<A>, two: seq<A>)
    requires Execute(step, s, one).Some? && AllSteps(step, ok, s, one) && AllSteps(step, ok, Execute(step, s, one).value, two)
    ensures AllSteps(step, ok, s, one + two)
    decreases |one|
  {
    if one == [] {
      assert one + two == two;
    } else {
      assert (one + two)[1..] == one[1..] + two;
      AllConcat(step, ok, step(s, one[0]).value, one[1..], two);
    }
  }

  /** The trace leads from `s` to `n` by allowed actions. */
  ghost predicate Ran<S, A>(step: (S, A) -> Option<S>, ok: (S, A) -> bool, s: S, trace: seq<A>, n: S) {
    Execute(step, s, trace) == Some(n) && AllSteps(step, ok, s, trace)
  }

  lemma RanStep<S, A>(step: (S, A) -> Option<S>, ok: (S, A) -> bool, s: S, trace: seq<A>, m: S, a: A)
    requires Ran(step, ok, s, trace, m) && ok(m, a) && step(m, a).Some?
    ensures Ran(step, ok, s, trace + [a], step(m, a).value)
  {
    Extend(step, s, trace, m, a);
    AllConcat(step, ok, s, trace, [a]);
  }

  ghost function Joined<S, A>(step: (S, A) -> Option<S>, ok: (S, A) -> bool, s: S, one: seq<A>, two: seq<A>): (r: seq<A>)
    requires Execute(step, s, one).Some? && AllSteps(step, ok, s, one) && AllSteps(step, ok, Execute(step, s, one).value, two)
    ensures r == one + two && AllSteps(step, ok, s, r)
    ensures Execute(step, s, r) == Execute(step, Execute(step, s, one).value, two)
  {
    Concat(step, s, one, two);
    AllConcat(step, ok, s, one, two);
    one + two
  }

  lemma ReachableOn<S(!new), A(!new)>(step: (S, A) -> Option<S>, start: S, s: S, trace: seq<A>, s': S)
    requires Reachable(step, start, s) && Execute(step, s, trace) == Some(s')
    ensures Reachable(step, start, s')
  {
    var past :| Execute(step, start, past) == Some(s);
    Concat(step, start, past, trace);
  }

  /** What every step keeps holds at the end of every run. */
  lemma {:induction false} Invariant<S(!new), A(!new)>(step: (S, A) -> Option<S>, inv: S -> bool, s: S, trace: seq<A>, s': S)
    requires forall x, a :: inv(x) && step(x, a).Some? ==> inv(step(x, a).value)
    requires inv(s) && Execute(step, s, trace) == Some(s')
    ensures inv(s')
    decreases |trace|
  {
    if trace != [] {
      Invariant(step, inv, step(s, trace[0]).value, trace[1..], s');
    }
  }

  /** What every step relates is related by every run, if relations chain. */
  lemma {:induction false} Carried<S(!new), A(!new)>(step: (S, A) -> Option<S>, start: S, keeps: (S, S) -> bool, s: S, trace: seq<A>, s': S)
    requires forall x, a :: Reachable(step, start, x) && step(x, a).Some? ==> keeps(x, step(x, a).value)
    requires forall x :: Reachable(step, start, x) ==> keeps(x, x)
    requires forall x, y, z :: keeps(x, y) && keeps(y, z) ==> keeps(x, z)
    requires Reachable(step, start, s) && Execute(step, s, trace) == Some(s')
    ensures keeps(s, s') && Reachable(step, start, s')
    decreases |trace|
  {
    if trace != [] {
      var n := step(s, trace[0]).value;
      Single(step, s, trace[0]);
      ReachableOn(step, start, s, [trace[0]], n);
      Carried(step, start, keeps, n, trace[1..], s');
    }
  }
}
