/** How creates end, statement by statement and over whole runs, read off what is committed. */
module ProjectAnswers {
  import opened Wrappers
  import Machines
  import opened Values
  import opened Projects
  import opened Tables
  import opened Locking
  import opened ProjectRuns
  import opened ProjectInvariant
  import opened ProjectSteps
  import opened ProjectTheorems
  import opened ProjectUpdates

  /** Event `i` is the commit of a create under this account and key. */
  predicate CreatedUnder(s: Sys, i: nat, account: Uuid, key: string) {
    && i < |s.history| && s.history[i].run in s.runs && s.runs[s.history[i].run].op.Create?
    && s.runs[s.history[i].run].op.accountId == account && s.runs[s.history[i].run].op.key == key
  }

  /** What a create under a taken key is answered: the project as that key's create committed it, if it asks for the same. */
  function Owed(s: Sys, i: nat, op: Op): Outcome
    requires i < |s.history| && s.history[i].run in s.runs && s.runs[s.history[i].run].op.Create? && op.Create?
  {
    var first := s.runs[s.history[i].run].op;
    if op.title == first.title && op.kind == first.kind then Returned(s.history[i].after) else Conflict
  }

  lemma Nothing(s: Sys, r: Txn)
    requires Reached(s) && s.Active(r) && (s.runs[r].phase.Begin? || s.runs[r].phase.Conflicted?)
    ensures forall k :: !s.db.requests.Owns(r, k)
    ensures forall id :: !s.db.reserved.Owns(r, id)
  {
    ReachedLocks(s);
    assert HeldRequest(s.runs[r]).None? && HeldId(s.runs[r]).None?;
  }

  lemma RunIs(s: Sys, r: Txn)
    requires Reached(s) && s.Active(r)
    ensures RunOk(s.db, s.runs[r]) && s.runs[r].op.Valid()
  {
    ReachedInv(s);
  }

  /** A create begins by losing to a committed key, failing on a reserved id, or reserving both. */
  lemma BeginsExactly(s: Sys, r: Txn, n: Sys)
    requires Reached(s) && s.Active(r) && s.runs[r].op.Create? && s.runs[r].phase.Begin? && Next(s, r) == Some(n)
    ensures var op, end := s.runs[r].op, n.runs[r].phase;
      if RequestKey(op.accountId, op.key) in s.db.requests.rows then end.Conflicted?
      else if op.projectId in s.db.reserved.rows then end == Done(Failed(Integrity)) && n.db == s.db.Rollback(r)
      else end.Reserved?
  {
    Nothing(s, r);
  }

  /** The committed reservation of a key is that of its one creating commit. */
  lemma KeySource(s: Sys, k: RequestKey) returns (i: nat)
    requires Reached(s) && k in s.db.requests.rows
    ensures CreatedUnder(s, i, k.accountId, k.key)
    ensures forall j: nat :: CreatedUnder(s, j, k.accountId, k.key) ==> j == i
    ensures var first := s.runs[s.history[i].run].op;
      && s.db.requests.rows[k].payload == first.payload && first.Valid()
      && s.db.requests.rows[k].snapshot == Some(ToSnapshot(s.history[i].after))
      && FromSnapshot(ToSnapshot(s.history[i].after)) == Some(s.history[i].after)
  {
    var u;
    i, u := Origin(s, k);
    NewSnapshot(s.runs[u].op, s.runs[u].stamp);
    forall j: nat | CreatedUnder(s, j, k.accountId, k.key) ensures j == i {
      assert Source(s.runs, s.history[j], k) && Source(s.runs, s.history[i], k);
      OneSource(s, i, j, k);
    }
  }

  /** A create that lost to its key is answered: with the key's project if it asked for the same, else as a conflict. */
  lemma RetryIsAnswered(s: Sys, r: Txn, n: Sys) returns (i: nat)
    requires Reached(s) && s.Active(r) && s.runs[r].op.Create? && s.runs[r].phase.Conflicted? && Next(s, r) == Some(n)
    ensures CreatedUnder(s, i, s.runs[r].op.accountId, s.runs[r].op.key)
    ensures forall j: nat :: CreatedUnder(s, j, s.runs[r].op.accountId, s.runs[r].op.key) ==> j == i
    ensures n.runs[r].phase == Done(Owed(s, i, s.runs[r].op)) && n.db == s.db.Rollback(r)
  {
    var op := s.runs[r].op;
    var k := RequestKey(op.accountId, op.key);
    RunIs(s, r);
    Nothing(s, r);
    i := KeySource(s, k);
    var first := s.runs[s.history[i].run].op;
    PayloadInjective(op.title, op.kind, first.title, first.kind);
    ReplayOwed(s, op, i);
  }

  lemma ReplayOwed(s: Sys, op: Op, i: nat)
    requires op.Create? && CreatedUnder(s, i, op.accountId, op.key) && op.ReservationKey() in s.db.requests.rows
    requires var first, row := s.runs[s.history[i].run].op, s.db.requests.rows[op.ReservationKey()];
      && (op.payload == row.payload <==> op.title == first.title && op.kind == first.kind)
      && row.snapshot == Some(ToSnapshot(s.history[i].after))
      && FromSnapshot(ToSnapshot(s.history[i].after)) == Some(s.history[i].after)
    ensures Replay(op, Some(s.db.requests.rows[op.ReservationKey()])) == Owed(s, i, op)
  {
  }

  /** The draft project that a create commits. */
  function NewDraft(op: Op, stamp: Timestamp): Project
    requires op.Create?
  {
    Project(op.projectId, op.accountId, op.actorId, op.title, op.kind, Draft, 0, stamp, stamp, None)
  }

  /** A create that has reserved its key goes on to its commit: the id it reserved is no project's. */
  lemma InsertsExactly(s: Sys, r: Txn, n: Sys)
    requires Reached(s) && s.Active(r) && s.runs[r].op.Create? && s.runs[r].phase.Reserved? && Next(s, r) == Some(n)
    ensures s.runs[r].op.projectId !in s.db.projects.rows
    ensures n.runs[r].phase == Added(NewDraft(s.runs[r].op, s.runs[r].stamp))
  {
    RunIs(s, r);
    ReachedRows(s);
    NoProject(s, r);
  }

  lemma CompletesExactly(s: Sys, r: Txn, n: Sys)
    requires Reached(s) && s.Active(r) && s.runs[r].op.Create? && s.runs[r].phase.Added? && Next(s, r) == Some(n)
    ensures s.runs[r].phase.project == NewDraft(s.runs[r].op, s.runs[r].stamp)
    ensures n.runs[r].phase == Written(NewDraft(s.runs[r].op, s.runs[r].stamp))
  {
    RunIs(s, r);
    ReachedLocks(s);
    CompleteEffect(s, r);
  }

  lemma CommitsExactly(s: Sys, r: Txn, n: Sys)
    requires Reached(s) && s.Active(r) && s.runs[r].op.Create? && s.runs[r].phase.Written? && Next(s, r) == Some(n)
    ensures var op, p := s.runs[r].op, NewDraft(s.runs[r].op, s.runs[r].stamp);
      && n.runs[r].phase == Done(Returned(p)) && n.history == s.history + [Event(r, None, p)]
      && n.db.projects.rows == s.db.projects.rows[p.id := p]
      && RequestKey(op.accountId, op.key) !in s.db.requests.rows && RequestKey(op.accountId, op.key) in n.db.requests.rows
  {
    RunIs(s, r);
    CommitReturns(s, r);
    ReachedAppends(s, r);
  }

  lemma ReachedAppends(s: Sys, r: Txn)
    requires Reached(s) && s.Active(r) && s.runs[r].op.Create? && s.runs[r].phase.Written?
    ensures var p := s.runs[r].phase.project;
      && Appends(s, s.Commit(r, p, Returned(p)), r) && Latest(s.history, s.runs[r].op.projectId).None?
  {
    RunIs(s, r);
    ReachedRows(s);
    ReachedMirrors(s, s.runs[r].op.projectId);
    ReachedCommits(s, r);
  }

  lemma ReachedMirrors(s: Sys, id: Uuid)
    requires Reached(s)
    ensures Mirrors(s.history, s.db, id)
  {
    ReachedInv(s);
  }

  lemma ReachedCommits(s: Sys, r: Txn)
    requires Reached(s) && s.Active(r) && s.runs[r].phase.Written?
    ensures Appends(s, s.Commit(r, s.runs[r].phase.project, Returned(s.runs[r].phase.project)), r)
  {
    ReachedInv(s);
    assert RunOk(s.db, s.runs[r]);
    CommitAppends(s, r, Returned(s.runs[r].phase.project));
  }

  /** The conditions of the statements of a create put together; nothing else can end one, or keep it from going on. */
  lemma CreateEndsExactly(s: Sys, r: Txn, n: Sys)
    requires Reached(s) && s.Active(r) && s.runs[r].op.Create? && Next(s, r) == Some(n)
    ensures var op, end := s.runs[r].op, n.runs[r].phase;
      match s.runs[r].phase
      case Begin =>
        if RequestKey(op.accountId, op.key) in s.db.requests.rows then end.Conflicted?
        else if op.projectId in s.db.reserved.rows then end == Done(Failed(Integrity)) && n.db == s.db.Rollback(r)
        else end.Reserved?
      case Conflicted =>
        n.db == s.db.Rollback(r)
        && exists i: nat :: CreatedUnder(s, i, op.accountId, op.key) && end == Done(Owed(s, i, op))
      case Reserved => op.projectId !in s.db.projects.rows && end == Added(NewDraft(op, s.runs[r].stamp))
      case Added(p) => p == NewDraft(op, s.runs[r].stamp) && end == Written(p)
      case Written(p) =>
        p == NewDraft(op, s.runs[r].stamp) && end == Done(Returned(p)) && n.history == s.history + [Event(r, None, p)]
      case Checked => false
  {
    match s.runs[r].phase
    case Begin => BeginsExactly(s, r, n);
    case Conflicted => var i := RetryIsAnswered(s, r, n);
    case Reserved => InsertsExactly(s, r, n);
    case Added(_) => CompletesExactly(s, r, n);
    case Written(_) =>
      RunIs(s, r);
      CommitsExactly(s, r, n);
    case Checked => PhaseFits(s, r);
  }

  // ---------------------------------------------------------------- waiting

  /** A create waits exactly for another open create of its key or id, or for whoever is writing its id's project. */
  lemma CreateWaitsExactly(s: Sys, r: Txn)
    requires Reached(s) && s.Active(r) && s.runs[r].op.Create?
    ensures var op := s.runs[r].op;
      Next(s, r).None? <==>
        match s.runs[r].phase
        case Begin =>
          var k := RequestKey(op.accountId, op.key);
          k in s.db.requests.pending || (k !in s.db.requests.rows && op.projectId in s.db.reserved.pending)
        case Reserved => op.projectId in s.db.projects.pending
        case _ => false
  {
    PhaseFits(s, r);
    match s.runs[r].phase
    case Begin => Nothing(s, r);
    case Reserved => NoProject(s, r);
    case _ =>
  }

  lemma NoProject(s: Sys, r: Txn)
    requires Reached(s) && s.Active(r) && (s.runs[r].phase.Reserved? || s.runs[r].phase.Begin? || s.runs[r].phase.Checked?)
    ensures !s.db.projects.Owns(r, s.runs[r].op.projectId)
  {
    ReachedLocks(s);
    assert HeldProject(s.runs[r]).None?;
  }

  /** An update, archive or deletion waits exactly while it matches the committed project and another call is writing it. */
  lemma UpdateWaitsExactly(s: Sys, r: Txn)
    requires Reached(s) && s.Active(r) && !s.runs[r].op.Create?
    ensures var op := s.runs[r].op;
      Next(s, r).None? <==>
        && (s.runs[r].phase.Checked? || (s.runs[r].phase.Begin? && !op.Retitle?))
        && LiveProject(s.db, op) && (op.Retitle? ==> Fresh(s.db, op)) && op.projectId in s.db.projects.pending
  {
    PhaseFits(s, r);
    if s.runs[r].phase.Checked? || s.runs[r].phase.Begin? { NoProject(s, r); }
  }

  /** A cancelled call is rolled back; one whose reply is lost has committed all the same. */
  lemma InterruptsExactly(s: Sys, r: Txn)
    requires Reached(s) && s.Active(r)
    ensures Step(s, Cancel(r)).Some? && Step(s, Cancel(r)).value.runs[r].phase == Done(Failed(Cancelled))
    ensures Step(s, Cancel(r)).value.db == s.db.Rollback(r) && Step(s, Cancel(r)).value.history == s.history
    ensures Step(s, LoseReply(r)).Some? <==> s.runs[r].phase.Written?
    ensures s.runs[r].phase.Written? ==>
      var lost, kept := Step(s, LoseReply(r)).value, Step(s, Advance(r));
      kept.Some? && lost.db == kept.value.db && lost.history == kept.value.history && lost.runs[r].phase == Done(Failed(ReplyLost))
  {
    if s.runs[r].phase.Written? {
      CommitReturns(s, r);
      CommitLoses(s, r);
    }
  }

  lemma CommitLoses(s: Sys, r: Txn)
    requires Reached(s) && s.Active(r) && s.runs[r].phase.Written?
    ensures s.Commit(r, s.runs[r].phase.project, Failed(ReplyLost)).runs[r].phase == Done(Failed(ReplyLost))
  {
    ReachedInv(s);
    assert RunOk(s.db, s.runs[r]);
    CommitAppends(s, r, Failed(ReplyLost));
  }

  // ---------------------------------------------------------------- whole runs

  /** Where a create under a committed key can stand. */
  predicate Retrying(s: Sys, r: Txn, i: nat, account: Uuid, key: string) {
    && CreatedUnder(s, i, account, key)
    && (r in s.runs ==>
          && s.runs[r].op.Create? && s.runs[r].op.accountId == account && s.runs[r].op.key == key
          && (s.runs[r].phase.Begin? || s.runs[r].phase.Conflicted? || s.runs[r].phase == Done(Failed(Cancelled))
              || s.runs[r].phase == Done(Owed(s, i, s.runs[r].op))))
  }

  lemma RetryingStays(s: Sys, a: Action, n: Sys, r: Txn, i: nat, account: Uuid, key: string)
    requires Reached(s) && Step(s, a) == Some(n) && Retrying(s, r, i, account, key)
    requires r in n.runs ==> n.runs[r].op.Create? && n.runs[r].op.accountId == account && n.runs[r].op.key == key
    ensures Retrying(n, r, i, account, key)
  {
    StepGrowsReached(s, a, n);
    StepRuns(s, a, n);
    assert n.history[i] == s.history[i];
    if r in s.runs && a == Advance(r) { RetryAdvances(s, r, n, i, account, key); }
    else if a.run != r { OthersKeep(s, a, n, r); }
  }

  lemma OthersKeep(s: Sys, a: Action, n: Sys, r: Txn)
    requires Step(s, a) == Some(n) && a.run != r
    ensures r in n.runs <==> r in s.runs
    ensures r in s.runs ==> n.runs[r] == s.runs[r]
  {
  }

  lemma KeyTaken(s: Sys, i: nat, account: Uuid, key: string)
    requires Reached(s) && CreatedUnder(s, i, account, key)
    ensures RequestKey(account, key) in s.db.requests.rows
  {
    ReachedEvent(s, i);
  }

  lemma RetryAdvances(s: Sys, r: Txn, n: Sys, i: nat, account: Uuid, key: string)
    requires Reached(s) && s.Active(r) && Next(s, r) == Some(n) && Retrying(s, r, i, account, key)
    ensures r in n.runs && (n.runs[r].phase.Conflicted? || n.runs[r].phase == Done(Owed(s, i, s.runs[r].op)))
  {
    KeyTaken(s, i, account, key);
    if s.runs[r].phase.Begin? {
      BeginsExactly(s, r, n);
    } else {
      var j := RetryIsAnswered(s, r, n);
    }
  }

  lemma {:induction false} RetriesFrom(s: Sys, i: nat, trace: seq<Action>, m: Sys, r: Txn)
    requires Reached(s) && Execute(s, trace) == Some(m) && r in m.runs && m.runs[r].op.Create?
    requires Retrying(s, r, i, m.runs[r].op.accountId, m.runs[r].op.key)
    ensures Retrying(m, r, i, m.runs[r].op.accountId, m.runs[r].op.key)
    decreases |trace|
  {
    if trace != [] {
      var n := Step(s, trace[0]).value;
      CallsStay(n, trace[1..], m);
      RetryingStays(s, trace[0], n, r, i, m.runs[r].op.accountId, m.runs[r].op.key);
      Machines.Single(Step, s, trace[0]);
      Machines.ReachableOn(Step, EMPTY, s, [trace[0]], n);
      RetriesFrom(n, i, trace[1..], m, r);
    }
  }

  /**
   Every retry is answered. Once a create under a key has committed, every later create under that key, whatever else runs
   and unless it is itself cancelled, ends with that commit's project if it asks for the same title and type, and with a
   conflict if it does not.
   */
  lemma RetriesAreAnswered(s: Sys, i: nat, trace: seq<Action>, m: Sys, r: Txn)
    requires Reached(s) && Execute(s, trace) == Some(m) && r !in s.runs && r in m.runs && m.runs[r].op.Create?
    requires CreatedUnder(s, i, m.runs[r].op.accountId, m.runs[r].op.key) && m.runs[r].phase.Done?
    ensures CreatedUnder(m, i, m.runs[r].op.accountId, m.runs[r].op.key) && m.history[i] == s.history[i]
    ensures var op, first, outcome := m.runs[r].op, m.runs[m.history[i].run].op, m.runs[r].phase.outcome;
      || outcome == Failed(Cancelled)
      || outcome == if op.title == first.title && op.kind == first.kind then Returned(m.history[i].after) else Conflict
  {
    RetriesFrom(s, i, trace, m, r);
    AnswersAreStable(s, trace, m);
  }
}
