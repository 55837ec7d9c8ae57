/** Deleting every call of other accounts from a run leaves one account's results, rows and history unchanged. */
module AccountIndependence {
  import opened Wrappers
  import Machines
  import opened Values
  import opened Projects
  import opened Tables
  import opened Locking
  import opened Slices
  import opened ProjectRuns
  import opened ProjectInvariant
  import opened ProjectTheorems
  import opened AccountSlices
  import ProjectUpdates

  lemma OwnNext(s: Sys, r: Txn, a: Uuid, n: Sys)
    requires Own(s, r, a) && Next(s, r) == Some(n)
    ensures Slice(s, a).Active(r) && Next(Slice(s, a), r) == Some(Slice(n, a))
  {
    var op := s.runs[r].op;
    OwnActive(s, r, a);
    match s.runs[r].phase
    case Begin =>
      ProjectUpdates.LooksCommitted(s, r);
      if op.Create? { OwnReserve(s, r, a, n); }
      else if op.Retitle? { OwnCheck(s, r, a); }
      else { OwnUpdate(s, r, a, n); }
    case Conflicted =>
      OwnReplay(s, r, a);
      SliceLeave(s, r, Replay(op, s.db.requests.Visible(r, op.ReservationKey())), a);
    case Reserved => OwnInsert(s, r, a, n);
    case Added(p) => OwnComplete(s, r, a, p, n);
    case Checked =>
      ProjectUpdates.LooksCommitted(s, r);
      OwnUpdate(s, r, a, n);
    case Written(p) => OwnCommit(s, r, Returned(p), a);
  }

  lemma OtherNext(s: Sys, r: Txn, a: Uuid, n: Sys)
    requires Other(s, r, a) && Next(s, r) == Some(n)
    ensures Slice(n, a) == Slice(s, a)
  {
    var op := s.runs[r].op;
    match s.runs[r].phase
    case Begin =>
      ProjectUpdates.LooksCommitted(s, r);
      if op.Create? { OtherReserve(s, r, a, n); }
      else if op.Retitle? { OtherCheck(s, r, a); }
      else { OtherUpdate(s, r, a, n); }
    case Conflicted => SliceLeave(s, r, Replay(op, s.db.requests.Visible(r, op.ReservationKey())), a);
    case Reserved => OtherInsert(s, r, a, n);
    case Added(p) => OtherComplete(s, r, a, p, n);
    case Checked =>
      ProjectUpdates.LooksCommitted(s, r);
      OtherUpdate(s, r, a, n);
    case Written(p) => OtherCommit(s, r, Returned(p), a);
  }

  lemma OwnStep(s: Sys, action: Action, a: Uuid, n: Sys)
    requires Reached(s) && FreshIds(s.runs) && Step(s, action) == Some(n) && OwnRun(n.runs, action.run, a)
    ensures Step(Slice(s, a), action) == Some(Slice(n, a))
  {
    match action
    case Start(r, op, stamp) => OwnStart(s, r, op, stamp, a);
    case Advance(r) => OwnNext(s, r, a, n);
    case Cancel(r) =>
      OwnActive(s, r, a);
      SliceLeave(s, r, Failed(Cancelled), a);
    case LoseReply(r) =>
      OwnActive(s, r, a);
      OwnCommit(s, r, Failed(ReplyLost), a);
  }

  lemma OwnStart(s: Sys, r: Txn, op: Op, stamp: Timestamp, a: Uuid)
    requires r !in s.runs && op.Valid() && op.accountId == a
    ensures Step(Slice(s, a), Start(r, op, stamp)) == Some(Slice(s.(runs := s.runs[r := Run(op, stamp, Begin)]), a))
  {
    SliceRunsAdd(s.runs, r, Run(op, stamp, Begin), a);
  }

  lemma SliceRunsAdd(runs: map<Txn, Run>, r: Txn, run: Run, a: Uuid)
    requires run.op.accountId == a
    ensures SliceRuns(runs[r := run], a) == SliceRuns(runs, a)[r := run]
  {
  }

  lemma SliceRunsOther(runs: map<Txn, Run>, r: Txn, run: Run, a: Uuid)
    requires run.op.accountId != a && r !in runs
    ensures SliceRuns(runs[r := run], a) == SliceRuns(runs, a)
  {
  }

  lemma OtherStep(s: Sys, action: Action, a: Uuid, n: Sys)
    requires Reached(s) && FreshIds(s.runs) && Step(s, action) == Some(n) && !OwnRun(n.runs, action.run, a)
    ensures Slice(n, a) == Slice(s, a)
  {
    match action
    case Start(r, op, stamp) => SliceRunsOther(s.runs, r, Run(op, stamp, Begin), a);
    case Advance(r) => OtherNext(s, r, a, n);
    case Cancel(r) => SliceLeave(s, r, Failed(Cancelled), a);
    case LoseReply(r) => OtherCommit(s, r, Failed(ReplyLost), a);
  }

  /** The actions of the account's own calls. */
  function OwnActions(trace: seq<Action>, runs: map<Txn, Run>, a: Uuid): seq<Action> {
    if trace == [] then []
    else (if OwnRun(runs, trace[0].run, a) then [trace[0]] else []) + OwnActions(trace[1..], runs, a)
  }

  lemma FreshBefore(s: Sys, s': Sys)
    requires SameCalls(s, s') && FreshIds(s'.runs)
    ensures FreshIds(s.runs)
  {
  }

  lemma StepStarts(s: Sys, action: Action, n: Sys)
    requires Step(s, action) == Some(n)
    ensures action.run in n.runs
  {
  }

  /** The first step of a run, seen from its end. */
  lemma FirstStep(s: Sys, trace: seq<Action>, s': Sys) returns (n: Sys)
    requires Reached(s) && trace != [] && Execute(s, trace) == Some(s') && FreshIds(s'.runs)
    ensures Step(s, trace[0]) == Some(n) && Execute(n, trace[1..]) == Some(s') && Reached(n)
    ensures FreshIds(s.runs) && trace[0].run in n.runs && SameCalls(n, s')
  {
    n := Step(s, trace[0]).value;
    Machines.Single(Step, s, trace[0]);
    Machines.ReachableOn(Step, EMPTY, s, [trace[0]], n);
    StepStarts(s, trace[0], n);
    CallsStay(n, trace[1..], s');
    CallsStay(s, trace, s');
    FreshBefore(s, s');
  }

  lemma SliceStep(s: Sys, action: Action, n: Sys, runs: map<Txn, Run>, a: Uuid, rest: seq<Action>)
    requires Reached(s) && FreshIds(s.runs) && Step(s, action) == Some(n) && OwnRun(n.runs, action.run, a) == OwnRun(runs, action.run, a)
    ensures Execute(Slice(s, a), (if OwnRun(runs, action.run, a) then [action] else []) + rest) == Execute(Slice(n, a), rest)
  {
    if OwnRun(n.runs, action.run, a) {
      OwnStep(s, action, a, n);
      Machines.Prepend(Step, Slice(s, a), action, rest);
    } else {
      OtherStep(s, action, a, n);
      assert [] + rest == rest;
    }
  }

  /**
   Any interleaving of any accounts' calls, cut down to the calls of one account, is itself a run of the service, and
   ends with exactly that account's part of the whole: the same replies, the same rows and locks, the same history.
   */
  lemma {:induction false} Independent(s: Sys, trace: seq<Action>, s': Sys, a: Uuid)
    requires Reached(s) && Execute(s, trace) == Some(s') && FreshIds(s'.runs)
    ensures Execute(Slice(s, a), OwnActions(trace, s'.runs, a)) == Some(Slice(s', a))
    decreases |trace|
  {
    if trace != [] {
      var n := FirstStep(s, trace, s');
      Independent(n, trace[1..], s', a);
      SliceStep(s, trace[0], n, s'.runs, a, OwnActions(trace[1..], s'.runs, a));
    }
  }

  /**
   The corollary for runs from an empty database: other accounts might as well not exist. There is a run with the account's
   actions alone, in their order, that ends with its calls, its rows and locks and its history.
   */
  lemma Alone(trace: seq<Action>, s: Sys, a: Uuid) returns (own: seq<Action>, n: Sys)
    requires Execute(EMPTY, trace) == Some(s) && FreshIds(s.runs)
    ensures Execute(EMPTY, own) == Some(n) && own == OwnActions(trace, s.runs, a)
    ensures forall r :: r in n.runs <==> r in s.runs && s.runs[r].op.accountId == a
    ensures forall r :: r in n.runs ==> n.runs[r] == s.runs[r]
    ensures PartOf(n.db.requests, s.db.requests, (k: RequestKey, q: Request) => k.accountId == a)
    ensures PartOf(n.db.reserved, s.db.reserved, (id: Uuid, k: RequestKey) => k.accountId == a)
    ensures PartOf(n.db.projects, s.db.projects, (id: Uuid, p: Project) => p.accountId == a)
    ensures forall e :: e in n.history <==> e in s.history && e.after.accountId == a
  {
    assert Execute(EMPTY, []) == Some(EMPTY);
    Independent(EMPTY, trace, s, a);
    assert Slice(EMPTY, a) == EMPTY;
    own, n := OwnActions(trace, s.runs, a), Slice(s, a);
    SlicedHistory(s.history, a);
  }

  lemma {:induction false} SlicedHistory(h: seq<Event>, a: Uuid)
    ensures forall e :: e in SliceHistory(h, a) <==> e in h && e.after.accountId == a
  {
    if h != [] {
      SlicedHistory(h[..|h| - 1], a);
      assert forall e :: e in h <==> e in h[..|h| - 1] || e == h[|h| - 1];
    }
  }
}
