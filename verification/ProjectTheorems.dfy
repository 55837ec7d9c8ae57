/** What holds of every run of the project service, over all interleavings, cancellations and lost replies. */
module ProjectTheorems {
  import opened Wrappers
  import Machines
  import opened Values
  import opened Projects
  import opened Tables
  import opened ProjectRuns
  import opened ProjectInvariant
  import opened ProjectSteps

  lemma NextKeeps(s: Sys, r: Txn)
    requires Inv(s) && OpsValid(s) && s.Active(r)
    ensures var n := Next(s, r); n.Some? ==> Inv(n.value)
  {
    assert RunOk(s.db, s.runs[r]);
    match s.runs[r].phase
    case Begin =>
      if s.runs[r].op.Create? { ReserveKeeps(s, r); }
      else if s.runs[r].op.Retitle? { CheckKeeps(s, r); }
      else { UpdateKeeps(s, r); }
    case Conflicted => ReplayKeeps(s, r);
    case Reserved => InsertProjectKeeps(s, r);
    case Added(p) => CompleteKeeps(s, r);
    case Checked => UpdateKeeps(s, r);
    case Written(p) => CommitKeeps(s, r, Returned(p));
  }

  lemma StepKeeps(s: Sys, a: Action)
    requires Inv(s) && OpsValid(s)
    ensures var n := Step(s, a); n.Some? ==> Inv(n.value)
  {
    match a
    case Start(r, op, stamp) => if r !in s.runs { StartKeeps(s, r, op, stamp); }
    case Advance(r) => if s.Active(r) { NextKeeps(s, r); }
    case Cancel(r) =>
      if s.Active(r) { LeaveKeeps(s, r, Failed(Cancelled)); }
    case LoseReply(r) =>
      if s.Active(r) && s.runs[r].phase.Written? { CommitKeeps(s, r, Failed(ReplyLost)); }
  }

  /** Operations and stamps are fixed when a run starts. */
  ghost predicate SameCalls(s: Sys, s': Sys) {
    forall r :: r in s.runs ==> r in s'.runs && s'.runs[r].op == s.runs[r].op && s'.runs[r].stamp == s.runs[r].stamp
  }

  lemma MovedCalls(s: Sys, n: Sys, r: Txn)
    requires Moved(s, n, r)
    ensures SameCalls(s, n) && (OpsValid(s) ==> OpsValid(n))
  {
  }

  lemma StartCalls(s: Sys, r: Txn, run: Run)
    requires r !in s.runs && run.op.Valid()
    ensures SameCalls(s, s.(runs := s.runs[r := run])) && (OpsValid(s) ==> OpsValid(s.(runs := s.runs[r := run])))
  {
  }

  lemma StepMoves(s: Sys, a: Action, n: Sys)
    requires Step(s, a) == Some(n) && !a.Start?
    ensures Moved(s, n, a.run)
  {
  }

  lemma StepRuns(s: Sys, a: Action, n: Sys)
    requires Step(s, a) == Some(n)
    ensures SameCalls(s, n) && (OpsValid(s) ==> OpsValid(n))
  {
    if a.Start? {
      StartCalls(s, a.run, Run(a.op, a.stamp, Begin));
    } else {
      StepMoves(s, a, n);
      MovedCalls(s, n, a.run);
    }
  }

  lemma SameCallsOn(a: Sys, b: Sys, c: Sys)
    requires SameCalls(a, b) && SameCalls(b, c)
    ensures SameCalls(a, c)
  {
  }

  /** Runs are never forgotten, and keep their calls. */
  lemma {:induction false} CallsStay(s: Sys, trace: seq<Action>, s': Sys)
    requires Execute(s, trace) == Some(s')
    ensures SameCalls(s, s')
    decreases |trace|
  {
    if trace != [] {
      var n := Step(s, trace[0]).value;
      StepRuns(s, trace[0], n);
      CallsStay(n, trace[1..], s');
      SameCallsOn(s, n, s');
    }
  }

  lemma EmptyInv()
    ensures Inv(EMPTY) && OpsValid(EMPTY)
  {
  }

  /** Some run of the system, from an empty database, ends in this state. */
  ghost predicate Reached(s: Sys) { Machines.Reachable(Step, EMPTY, s) }

  lemma ReachedInv(s: Sys)
    requires Reached(s)
    ensures Inv(s) && OpsValid(s)
  {
    var trace :| Machines.Execute(Step, EMPTY, trace) == Some(s);
    EmptyInv();
    forall x, a | Inv(x) && OpsValid(x) && Step(x, a).Some? ensures Inv(Step(x, a).value) && OpsValid(Step(x, a).value) {
      StepKeeps(x, a);
      StepRuns(x, a, Step(x, a).value);
    }
    Machines.Invariant(Step, x => Inv(x) && OpsValid(x), EMPTY, trace, s);
  }

  lemma ReachedLocks(s: Sys)
    requires Reached(s)
    ensures Locks(s)
  {
    ReachedInv(s);
  }

  // ---------------------------------------------------------------- exactly-once create

  predicate CreateReturned(s: Sys, r: Txn, p: Project) {
    r in s.runs && s.runs[r].op.Create? && s.runs[r].phase == Done(Returned(p))
  }

  predicate SameKeyReturned(s: Sys, r: Txn, p: Project, u: Txn, q: Project) {
    CreateReturned(s, r, p) && CreateReturned(s, u, q) && s.runs[r].op.ReservationKey() == s.runs[u].op.ReservationKey()
  }

  lemma AnswerStored(s: Sys, r: Txn, p: Project)
    requires Reached(s) && CreateReturned(s, r, p)
    ensures var k := s.runs[r].op.ReservationKey();
      k in s.db.requests.rows && s.db.requests.rows[k].snapshot == Some(ToSnapshot(p)) && FromSnapshot(ToSnapshot(p)) == Some(p)
  {
    ReachedInv(s);
    assert RunOk(s.db, s.runs[r]);
  }

  lemma Origin(s: Sys, k: RequestKey) returns (i: nat, u: Txn)
    requires Reached(s) && k in s.db.requests.rows
    ensures i < |s.history| && s.history[i].run == u && Source(s.runs, s.history[i], k) && s.runs[u].op.Valid()
    ensures s.history[i].before.None? && s.history[i].after == s.runs[u].op.NewProject(s.runs[u].stamp)
    ensures s.db.requests.rows[k] == s.runs[u].op.Reservation(Some(ToSnapshot(s.history[i].after)))
  {
    ReachedInv(s);
    i, u := ReservationOrigin(s, k);
  }

  /** The answer to a create is the project as its key's one creating event left it. */
  lemma AnswerIsOriginal(s: Sys, r: Txn, p: Project) returns (i: nat)
    requires Reached(s) && CreateReturned(s, r, p)
    ensures i < |s.history| && s.history[i].before.None? && s.history[i].after == p
    ensures Source(s.runs, s.history[i], s.runs[r].op.ReservationKey())
  {
    AnswerStored(s, r, p);
    var u;
    i, u := Origin(s, s.runs[r].op.ReservationKey());
    NewSnapshot(s.runs[u].op, s.runs[u].stamp);
  }

  lemma OneSource(s: Sys, i: nat, j: nat, k: RequestKey)
    requires Reached(s) && i < |s.history| && j < |s.history| && Source(s.runs, s.history[i], k) && Source(s.runs, s.history[j], k)
    ensures i == j
  {
    ReachedInv(s);
  }

  lemma ReachedRows(s: Sys)
    requires Reached(s)
    ensures Committed(s.db)
  {
    ReachedInv(s);
  }

  /**
   Reservations, reserved ids and projects correspond one to one; a key is the source of at most one creating commit;
   and every create that returned for a key returned the one project that commit inserted, as it was then.
   */
  lemma ExactlyOnce(s: Sys)
    requires Reached(s)
    ensures Committed(s.db)
    ensures forall i: nat, j: nat, k :: i < j < |s.history| && Source(s.runs, s.history[i], k) ==> !Source(s.runs, s.history[j], k)
    ensures forall r, p :: CreateReturned(s, r, p) ==>
      exists i: nat :: i < |s.history| && Source(s.runs, s.history[i], s.runs[r].op.ReservationKey()) && s.history[i].after == p
    ensures forall r, p, u, q :: SameKeyReturned(s, r, p, u, q) ==> p == q
  {
    ReachedRows(s);
    forall i: nat, j: nat, k | i < j < |s.history| && Source(s.runs, s.history[i], k) ensures !Source(s.runs, s.history[j], k) {
      if Source(s.runs, s.history[j], k) { OneSource(s, i, j, k); }
    }
    forall r, p | CreateReturned(s, r, p)
      ensures exists i: nat :: i < |s.history| && Source(s.runs, s.history[i], s.runs[r].op.ReservationKey()) && s.history[i].after == p
    {
      var i := AnswerIsOriginal(s, r, p);
    }
    forall r, p, u, q | SameKeyReturned(s, r, p, u, q) ensures p == q
    {
      var i := AnswerIsOriginal(s, r, p);
      var j := AnswerIsOriginal(s, u, q);
      OneSource(s, i, j, s.runs[r].op.ReservationKey());
    }
  }

  /** Reusing a key is refused exactly when the normalised title or the type differs from the original create's. */
  lemma ConflictIsExact(s: Sys, r: Txn) returns (i: nat)
    requires Reached(s)
    requires r in s.runs && s.runs[r].op.Create? && s.runs[r].phase.Done?
    requires s.runs[r].phase.outcome.Returned? || s.runs[r].phase.outcome.Conflict?
    ensures i < |s.history| && Source(s.runs, s.history[i], s.runs[r].op.ReservationKey())
    ensures var first := s.runs[s.history[i].run].op;
      s.runs[r].phase.outcome.Conflict? <==> s.runs[r].op.title != first.title || s.runs[r].op.kind != first.kind
  {
    var k := s.runs[r].op.ReservationKey();
    FinishedCreate(s, r);
    var u;
    i, u := Origin(s, k);
    PayloadInjective(s.runs[r].op.title, s.runs[r].op.kind, s.runs[u].op.title, s.runs[u].op.kind);
  }

  /** A create that returned or was refused as a conflict found its key's reservation, with its own or another payload. */
  lemma FinishedCreate(s: Sys, r: Txn)
    requires Reached(s) && r in s.runs && s.runs[r].op.Create? && s.runs[r].phase.Done?
    requires s.runs[r].phase.outcome.Returned? || s.runs[r].phase.outcome.Conflict?
    ensures var op := s.runs[r].op;
      && op.ReservationKey() in s.db.requests.rows && op.Valid()
      && (s.runs[r].phase.outcome.Conflict? <==> s.db.requests.rows[op.ReservationKey()].payload != op.payload)
  {
    ReachedInv(s);
    assert RunOk(s.db, s.runs[r]) && s.runs[r].op.Valid();
  }

  /** The defensive failures of a create cannot be reached: a taken key has its reservation, with a readable snapshot. */
  lemma DeadBranches(s: Sys, r: Txn)
    requires Reached(s) && r in s.runs && s.runs[r].op.Create? && s.runs[r].phase.Done?
    requires s.runs[r].phase.outcome.Failed?
    ensures var cause := s.runs[r].phase.outcome.cause; cause == Integrity || cause == Cancelled || cause == ReplyLost
  {
    ReachedInv(s);
    assert RunOk(s.db, s.runs[r]);
    assert Answered(s.db, s.runs[r].op, s.runs[r].phase.outcome);
  }

  // ---------------------------------------------------------------- nothing committed is taken back

  /** Committed reservations are never rewritten, finished runs stay finished, and the history only grows. */
  ghost predicate Grows(s: Sys, s': Sys) {
    && (forall k :: k in s.db.requests.rows ==> k in s'.db.requests.rows && s'.db.requests.rows[k] == s.db.requests.rows[k])
    && (forall r :: r in s.runs && s.runs[r].phase.Done? ==> r in s'.runs && s'.runs[r] == s.runs[r])
    && s.history <= s'.history
  }

  lemma QuietGrows(s: Sys, s': Sys, r: Txn)
    requires s.Active(r) && Quiet(s, s', r)
    ensures Grows(s, s')
  {
  }

  lemma AppendsGrows(s: Sys, s': Sys, r: Txn)
    requires s.Active(r) && Appends(s, s', r) && RunOk(s.db, s.runs[r])
    ensures Grows(s, s')
  {
    assert s'.history[..|s.history|] == s.history;
  }

  lemma CommitGrows(s: Sys, r: Txn, outcome: Outcome)
    requires Inv(s) && s.Active(r) && s.runs[r].phase.Written?
    ensures Grows(s, s.Commit(r, s.runs[r].phase.project, outcome))
  {
    assert RunOk(s.db, s.runs[r]);
    CommitAppends(s, r, outcome);
    AppendsGrows(s, s.Commit(r, s.runs[r].phase.project, outcome), r);
  }

  /** Every statement before the commit is quiet. */
  lemma NextQuiet(s: Sys, r: Txn, s': Sys)
    requires s.Active(r) && !s.runs[r].phase.Written? && Next(s, r) == Some(s')
    ensures Quiet(s, s', r)
  {
  }

  lemma NextGrows(s: Sys, r: Txn, s': Sys)
    requires Inv(s) && s.Active(r) && Next(s, r) == Some(s')
    ensures Grows(s, s')
  {
    match s.runs[r].phase
    case Written(p) => CommitGrows(s, r, Returned(p));
    case Begin => NextQuiet(s, r, s'); QuietGrows(s, s', r);
    case Conflicted => NextQuiet(s, r, s'); QuietGrows(s, s', r);
    case Reserved => NextQuiet(s, r, s'); QuietGrows(s, s', r);
    case Added(_) => NextQuiet(s, r, s'); QuietGrows(s, s', r);
    case Checked => NextQuiet(s, r, s'); QuietGrows(s, s', r);
  }

  lemma StepGrows(s: Sys, a: Action)
    requires Inv(s)
    ensures var n := Step(s, a); n.Some? ==> Grows(s, n.value)
  {
    match a
    case Start(_, _, _) =>
    case Advance(r) => if s.Active(r) && Next(s, r).Some? { NextGrows(s, r, Next(s, r).value); }
    case Cancel(r) => if s.Active(r) { QuietGrows(s, s.Leave(r, Failed(Cancelled)), r); }
    case LoseReply(r) => if s.Active(r) && s.runs[r].phase.Written? { CommitGrows(s, r, Failed(ReplyLost)); }
  }

  lemma GrowsOn(a: Sys, b: Sys, c: Sys)
    requires Grows(a, b) && Grows(b, c)
    ensures Grows(a, c)
  {
  }

  lemma StepGrowsReached(s: Sys, a: Action, n: Sys)
    requires Reached(s) && Step(s, a) == Some(n)
    ensures Grows(s, n)
  {
    ReachedInv(s);
    StepGrows(s, a);
  }

  lemma AnswersAreStable(s: Sys, trace: seq<Action>, s': Sys)
    requires Reached(s) && Execute(s, trace) == Some(s')
    ensures Grows(s, s')
  {
    forall x, a | Reached(x) && Step(x, a).Some? ensures Grows(x, Step(x, a).value) {
      StepGrowsReached(x, a, Step(x, a).value);
    }
    forall x, y, z | Grows(x, y) && Grows(y, z) ensures Grows(x, z) {
      GrowsOn(x, y, z);
    }
    Machines.Carried(Step, EMPTY, Grows, s, trace, s');
  }
}
