/** Progress of a state machine whose calls wait for each other: if whoever is waited for is nearer its end, none waits for ever. */
module Progress {
  import opened Wrappers
  import opened Machines

  /** What drives a machine on: which calls are open, how far each is from its end, and the action that advances one. */
  datatype Drive<!S, !A> = Drive(
    step: (S, A) -> Option<S>, start: S, open: S -> set<nat>, weight: (S, nat) -> nat, advance: nat -> A)
  {
    function Next(s: S, r: nat): Option<S> { step(s, advance(r)) }

    predicate Nearer(s: S, b: nat, r: nat) { b in open(s) && weight(s, b) < weight(s, r) }

    /** A call that cannot advance waits for an open one that is nearer its end. */
    ghost predicate Waits(s: S, r: nat) { Next(s, r).None? ==> exists b :: Nearer(s, b, r) }

    /** A call that advances comes nearer its end, and no other call's distance changes. */
    ghost predicate Advances(s: S, r: nat) {
      Next(s, r).Some? ==>
        && open(Next(s, r).value) <= open(s)
        && (r in open(Next(s, r).value) ==> weight(Next(s, r).value, r) < weight(s, r))
        && forall t :: t in open(Next(s, r).value) && t != r ==> weight(Next(s, r).value, t) == weight(s, t)
    }
  }

  ghost predicate Sound<S(!new), A(!new)>(d: Drive<S, A>) {
    forall s, r :: Reachable(d.step, d.start, s) && r in d.open(s) ==> d.Waits(s, r) && d.Advances(s, r)
  }

  /** Every action of the trace advances a call. */
  ghost predicate Plain<S, A(!new)>(d: Drive<S, A>, trace: seq<A>) {
    forall i :: 0 <= i < |trace| ==> exists r :: trace[i] == d.advance(r)
  }

  /** `trace` leads from `s` to `s'` by advancing calls, none of which is further from its end afterwards. */
  ghost predicate Leads<S(!new), A(!new)>(d: Drive<S, A>, s: S, trace: seq<A>, s': S) {
    && Plain(d, trace) && Execute(d.step, s, trace) == Some(s') && Reachable(d.step, d.start, s') && d.open(s') <= d.open(s)
    && forall t :: t in d.open(s') ==> d.weight(s', t) <= d.weight(s, t)
  }

  lemma LeadsOn<S(!new), A(!new)>(d: Drive<S, A>, s: S, one: seq<A>, m: S, two: seq<A>, s': S)
    requires Leads(d, s, one, m) && Leads(d, m, two, s')
    ensures Leads(d, s, one + two, s')
  {
    Concat(d.step, s, one, two);
  }

  lemma LeadsOnce<S(!new), A(!new)>(d: Drive<S, A>, s: S, r: nat, n: S)
    requires Sound(d) && Reachable(d.step, d.start, s) && r in d.open(s) && d.Next(s, r) == Some(n)
    ensures Leads(d, s, [d.advance(r)], n) && (r in d.open(n) ==> d.weight(n, r) < d.weight(s, r))
  {
    assert d.Advances(s, r);
    Single(d.step, s, d.advance(r));
    ReachableOn(d.step, d.start, s, [d.advance(r)], n);
  }

  /** An open call can be brought to its end. */
  lemma {:induction false} Finish<S(!new), A(!new)>(d: Drive<S, A>, s: S, r: nat) returns (trace: seq<A>, s': S)
    requires Sound(d) && Reachable(d.step, d.start, s) && r in d.open(s)
    ensures Leads(d, s, trace, s') && r !in d.open(s')
    decreases d.open(s), d.weight(s, r)
  {
    var m;
    match d.Next(s, r) {
      case Some(n) =>
        LeadsOnce(d, s, r, n);
        trace, m := [d.advance(r)], n;
      case None =>
        assert d.Waits(s, r);
        var b :| d.Nearer(s, b, r);
        trace, m := Finish(d, s, b);
        assert b in d.open(s) && b !in d.open(m);
    }
    s' := m;
    if r in d.open(m) {
      var rest;
      rest, s' := Finish(d, m, r);
      LeadsOn(d, s, trace, m, rest, s');
      trace := trace + rest;
    }
  }

  /** From every reachable state all open calls can be brought to their ends by advancing them alone. */
  lemma {:induction false} FinishAll<S(!new), A(!new)>(d: Drive<S, A>, s: S) returns (trace: seq<A>, s': S)
    requires Sound(d) && Reachable(d.step, d.start, s)
    ensures Leads(d, s, trace, s') && d.open(s') == {}
    decreases d.open(s)
  {
    trace, s' := [], s;
    if d.open(s) != {} {
      var r :| r in d.open(s);
      var one, m := Finish(d, s, r);
      var two, last := FinishAll(d, m);
      LeadsOn(d, s, one, m, two, last);
      trace, s' := one + two, last;
    }
  }
}
