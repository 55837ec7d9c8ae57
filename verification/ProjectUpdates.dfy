/** Optimistic updates form a chain, an archive beats a racing title update, and no call waits for ever. */
module ProjectUpdates {
  import opened Wrappers
  import Machines
  import Progress
  import opened Values
  import opened Projects
  import opened Tables
  import opened Locking
  import opened ProjectRuns
  import opened ProjectInvariant
  import opened ProjectSteps
  import opened ProjectTheorems

  /** Transactions start at distinct instants. */
  ghost predicate DistinctStamps(s: Sys) {
    forall r, u :: r in s.runs && u in s.runs && s.runs[r].stamp == s.runs[u].stamp ==> r == u
  }

  predicate RetitleEvent(s: Sys, i: nat) {
    i < |s.history| && s.history[i].run in s.runs && s.runs[s.history[i].run].op.Retitle?
  }

  /** Event `j` is the last one before event `i` on the same project. */
  ghost predicate Precedes(h: seq<Event>, j: nat, i: nat) {
    && j < i < |h| && h[j].after.id == h[i].after.id
    && forall k: nat :: j < k < i ==> h[k].after.id != h[i].after.id
  }

  lemma ReachedEvent(s: Sys, i: nat)
    requires Reached(s) && i < |s.history|
    ensures EventOk(s.runs, s.db, s.history, i)
  {
    ReachedInv(s);
  }

  lemma Predecessor(s: Sys, i: nat) returns (j: nat)
    requires i < |s.history| && s.history[i].before.Some? && EventOk(s.runs, s.db, s.history, i)
    ensures Precedes(s.history, j, i) && s.history[i].before == Some(s.history[j].after)
  {
    j := LatestEvent(s.history[..i], s.history[i].after.id);
    forall k: nat | j < k < i ensures s.history[k].after.id != s.history[i].after.id {
      assert s.history[..i][k] == s.history[k];
    }
  }

  /**
   Every committed title update was made on the state its immediate predecessor committed, carried the stamp that
   predecessor wrote, changed the title and the stamp alone, and did not touch a deleted project.
   */
  lemma UpdateChain(s: Sys, i: nat) returns (j: nat)
    requires Reached(s) && RetitleEvent(s, i)
    ensures Precedes(s.history, j, i)
    ensures var e, op := s.history[i], s.runs[s.history[i].run].op;
      var was := s.history[j].after;
      && s.history[j].run in s.runs && was.updatedAt == op.expected == s.runs[s.history[j].run].stamp
      && e.after == was.(title := op.title, updatedAt := s.runs[e.run].stamp)
      && was.deletedAt.None? && was.accountId == op.accountId
  {
    ReachedEvent(s, i);
    j := Predecessor(s, i);
    ReachedEvent(s, j);
  }

  lemma EventStamp(s: Sys, i: nat)
    requires Reached(s) && i < |s.history|
    ensures s.history[i].run in s.runs && s.history[i].after.updatedAt == s.runs[s.history[i].run].stamp
  {
    ReachedEvent(s, i);
  }

  lemma OneCommitPerRun(s: Sys, i: nat, j: nat)
    requires Reached(s) && i < |s.history| && j < |s.history| && s.history[i].run == s.history[j].run
    ensures i == j
  {
    ReachedInv(s);
  }

  lemma SameStampSameEvent(s: Sys, i: nat, j: nat)
    requires Reached(s) && DistinctStamps(s) && i < |s.history| && j < |s.history|
    requires s.history[i].after.updatedAt == s.history[j].after.updatedAt
    ensures i == j
  {
    EventStamp(s, i);
    EventStamp(s, j);
    OneCommitPerRun(s, i, j);
  }

  /** Two committed title updates of a project never expected the same stamp, so neither overwrote the other unseen. */
  lemma NoLostUpdate(s: Sys, i: nat, i': nat)
    requires Reached(s) && DistinctStamps(s)
    requires RetitleEvent(s, i) && RetitleEvent(s, i') && s.history[i].after.id == s.history[i'].after.id && i < i'
    ensures s.runs[s.history[i].run].op.expected != s.runs[s.history[i'].run].op.expected
  {
    var j := UpdateChain(s, i);
    var j' := UpdateChain(s, i');
    if s.runs[s.history[i].run].op.expected == s.runs[s.history[i'].run].op.expected {
      SameStampSameEvent(s, j, j');
    }
  }

  /** Committed mutations of a project that carry one stamp leave it writable alike. */
  ghost predicate StampsTell(s: Sys, id: Uuid) {
    forall j: nat, k: nat :: SameStamp(s, id, j, k) ==> s.history[j].after.ReadOnly() == s.history[k].after.ReadOnly()
  }

  predicate SameStamp(s: Sys, id: Uuid, j: nat, k: nat) {
    && j < |s.history| && k < |s.history| && s.history[j].after.id == id && s.history[k].after.id == id
    && s.history[j].after.updatedAt == s.history[k].after.updatedAt
  }

  lemma DistinctStampsTell(s: Sys, id: Uuid)
    requires Reached(s) && DistinctStamps(s)
    ensures StampsTell(s, id)
  {
    forall j: nat, k: nat | SameStamp(s, id, j, k) ensures s.history[j].after.ReadOnly() == s.history[k].after.ReadOnly() {
      SameStampSameEvent(s, j, k);
    }
  }

  /** The state a title update replaced, and the writable one with the same stamp that its guards had read. */
  lemma Guarded(s: Sys, i: nat) returns (j: nat, k: nat)
    requires Reached(s) && RetitleEvent(s, i)
    ensures j < i && s.history[i].before == Some(s.history[j].after)
    ensures k < i && !s.history[k].after.ReadOnly() && SameStamp(s, s.history[i].after.id, j, k)
  {
    ReachedEvent(s, i);
    j := Predecessor(s, i);
    k := VoucherOf(s, i);
  }

  lemma VoucherOf(s: Sys, i: nat) returns (k: nat)
    requires Reached(s) && RetitleEvent(s, i)
    ensures k < i && Vouched(s.history, s.runs[s.history[i].run].op, k)
  {
    ReachedInv(s);
    k :| k < i && Vouched(s.history, s.runs[s.history[i].run].op, k);
  }

  /**
   No title change commits on an archived or deleted project whose stamps tell its writable states from the others: the
   archive's stamp defeats an update already past its guards. `ProjectRace.ArchiveRace` shows that less is not enough.
   */
  lemma ArchiveWins(s: Sys, i: nat)
    requires Reached(s) && RetitleEvent(s, i) && StampsTell(s, s.history[i].after.id)
    ensures s.history[i].before.Some? && !s.history[i].before.value.ReadOnly()
  {
    var j, k := Guarded(s, i);
  }

  /** What each committed mutation did, field by field. */
  lemma EventEffect(s: Sys, i: nat)
    requires Reached(s) && i < |s.history|
    ensures var e := s.history[i];
      && e.run in s.runs
      && var op, stamp := s.runs[e.run].op, s.runs[e.run].stamp;
         match op
         case Create(account, actor, _, title, kind, _, id) =>
           e.before.None? && e.after == Project(id, account, actor, title, kind, Draft, 0, stamp, stamp, None)
         case Retitle(account, id, title, expected) =>
           Mutates(e, account, id) && e.before.value.updatedAt == expected && e.after == e.before.value.(title := title, updatedAt := stamp)
         case Archive(account, id) => Mutates(e, account, id) && e.after == e.before.value.(status := Archived, updatedAt := stamp)
         case Delete(account, id) => Mutates(e, account, id) && e.after == e.before.value.(deletedAt := Some(stamp), updatedAt := stamp)
  {
    ReachedEvent(s, i);
    ReachedId(s, i);
  }

  /** The event replaced a version of this project that was in this account and not deleted. */
  predicate Mutates(e: Event, account: Uuid, id: Uuid) {
    e.before.Some? && e.before.value.id == id && e.before.value.accountId == account && e.before.value.deletedAt.None?
  }

  lemma ReachedId(s: Sys, i: nat)
    requires Reached(s) && i < |s.history| && EventOk(s.runs, s.db, s.history, i)
    ensures s.history[i].before.Some? ==> s.history[i].before.value.id == s.history[i].after.id
  {
    if s.history[i].before.Some? { var j := Predecessor(s, i); }
  }

  /** Nothing is committed on a deleted project any more, and an archived one stays archived. */
  lemma {:induction false} EndStates(s: Sys, i: nat, j: nat)
    requires Reached(s) && i < j < |s.history| && s.history[i].after.id == s.history[j].after.id
    ensures s.history[i].after.deletedAt.None?
    ensures s.history[i].after.status.Archived? ==> s.history[j].after.status.Archived?
    decreases j
  {
    EventEffect(s, j);
    ReachedEvent(s, j);
    LaterHasBefore(s.history, i, j);
    var k := Predecessor(s, j);
    if i < k { EndStates(s, i, k); }
  }

  lemma {:induction false} LaterHasBefore(h: seq<Event>, i: nat, j: nat)
    requires i < j <= |h|
    ensures Latest(h[..j], h[i].after.id).Some?
    decreases j
  {
    if h[j - 1].after.id != h[i].after.id {
      assert h[..j][..j - 1] == h[..j - 1];
      LaterHasBefore(h, i, j - 1);
    }
  }

  /** The project an update is about, as committed: in the caller's account and not deleted. */
  predicate LiveProject(db: Db, op: Op) {
    op.projectId in db.projects.rows && db.projects.rows[op.projectId].accountId == op.accountId
    && db.projects.rows[op.projectId].deletedAt.None?
  }

  /** The committed project carries the stamp that the update expects. */
  predicate Fresh(db: Db, op: Op) {
    op.Retitle? && op.projectId in db.projects.rows && db.projects.rows[op.projectId].updatedAt == op.expected
  }

  /**
   How an update, archive or deletion ends at each of its statements, by the project as committed at that moment: not
   found without a live one, read only if it is archived, stale if its stamp is not the expected one, and returned
   exactly by its commit; every other end rolls it back.
   */
  lemma EndsExactly(s: Sys, r: Txn, n: Sys)
    requires Reached(s) && s.Active(r) && !s.runs[r].op.Create? && Next(s, r) == Some(n)
    ensures var op, end := s.runs[r].op, n.runs[r].phase;
      && (end.Done? && end.outcome.Returned? <==> s.runs[r].phase.Written?)
      && (end.Done? && !end.outcome.Returned? ==> n.db == s.db.Rollback(r))
      && (match s.runs[r].phase
          case Begin =>
            if !LiveProject(s.db, op) then end == Done(NotFound)
            else if !op.Retitle? then end.Written?
            else if s.db.projects.rows[op.projectId].status.Archived? then end == Done(ReadOnly)
            else if !Fresh(s.db, op) then end == Done(StaleVersion)
            else end.Checked?
          case Checked => if LiveProject(s.db, op) && Fresh(s.db, op) then end.Written? else end == Done(StaleVersion)
          case _ => true)
  {
    PhaseFits(s, r);
    if s.runs[r].phase.Written? { CommitReturns(s, r); } else { LooksCommitted(s, r); }
  }

  lemma LooksCommitted(s: Sys, r: Txn)
    requires Reached(s) && s.Active(r) && (s.runs[r].phase.Begin? || s.runs[r].phase.Checked?)
    ensures !s.db.projects.Owns(r, s.runs[r].op.projectId)
  {
    ReachedLocks(s);
    assert HeldProject(s.runs[r]).None?;
  }

  lemma CommitReturns(s: Sys, r: Txn)
    requires Reached(s) && s.Active(r) && s.runs[r].phase.Written?
    ensures var p := s.runs[r].phase.project; s.Commit(r, p, Returned(p)).runs[r].phase == Done(Returned(p))
  {
    ReachedInv(s);
    assert RunOk(s.db, s.runs[r]);
    CommitAppends(s, r, Returned(s.runs[r].phase.project));
  }

  // ---------------------------------------------------------------- progress

  /** How many statements a run may still execute; whoever holds a lock is nearer its end than whoever waits for it. */
  function Weight(p: Phase): nat {
    match p
    case Begin => 5
    case Reserved => 4
    case Added(_) => 3
    case Conflicted => 2
    case Checked => 2
    case Written(_) => 1
    case Done(_) => 0
  }

  function Open(s: Sys): set<Txn> { set r | r in s.runs && !s.runs[r].phase.Done? }

  lemma RequestHolder(s: Sys, k: RequestKey) returns (b: Txn)
    requires Reached(s) && k in s.db.requests.pending
    ensures b in s.runs && HeldRequest(s.runs[b]).Some?
  {
    ReachedLocks(s);
    b := s.db.requests.pending[k].owner;
    Holder(s.db.requests, s.runs, HeldRequest, k);
  }

  lemma IdHolder(s: Sys, id: Uuid) returns (b: Txn)
    requires Reached(s) && id in s.db.reserved.pending
    ensures b in s.runs && HeldId(s.runs[b]).Some?
  {
    ReachedLocks(s);
    b := s.db.reserved.pending[id].owner;
    Holder(s.db.reserved, s.runs, HeldId, id);
  }

  lemma ProjectHolder(s: Sys, id: Uuid) returns (b: Txn)
    requires Reached(s) && id in s.db.projects.pending
    ensures b in s.runs && HeldProject(s.runs[b]) == Some((id, s.db.projects.pending[id].row)) && RunOk(s.db, s.runs[b])
  {
    ReachedInv(s);
    b := s.db.projects.pending[id].owner;
    Holder(s.db.projects, s.runs, HeldProject, id);
  }

  lemma ReserveWaits(s: Sys, r: Txn) returns (b: Txn)
    requires Reached(s) && s.Active(r) && s.runs[r].op.Create? && Reserve(s, r).None?
    ensures s.Active(b) && Weight(s.runs[b].phase) < 5
  {
    var k, id := s.runs[r].op.ReservationKey(), s.runs[r].op.projectId;
    if s.db.requests.LockedFor(r, k) { b := RequestHolder(s, k); } else { b := IdHolder(s, id); }
  }

  lemma InsertWaits(s: Sys, r: Txn) returns (b: Txn)
    requires Reached(s) && s.Active(r) && s.runs[r].op.Create? && InsertProject(s, r).None?
    ensures s.Active(b) && Weight(s.runs[b].phase) < 4
  {
    b := ProjectHolder(s, s.runs[r].op.projectId);
  }

  /** The lock on a committed project belongs to a run about to commit. */
  lemma UpdateWaits(s: Sys, r: Txn) returns (b: Txn)
    requires Reached(s) && s.Active(r) && !s.runs[r].op.Create? && UpdateProject(s, r).None?
    ensures s.Active(b) && s.runs[b].phase.Written?
  {
    var id := s.runs[r].op.projectId;
    b := ProjectHolder(s, id);
    if s.runs[b].phase.Added? { AddedIsNew(s, b); }
  }

  lemma AddedIsNew(s: Sys, b: Txn)
    requires Reached(s) && b in s.runs && s.runs[b].phase.Added?
    ensures s.runs[b].op.projectId !in s.db.projects.rows
  {
    ReachedInv(s);
    assert RunOk(s.db, s.runs[b]);
  }

  /** Which program points an operation visits, and that completing a reservation never waits. */
  lemma PhaseFits(s: Sys, r: Txn)
    requires Reached(s) && s.Active(r)
    ensures var run := s.runs[r];
      match run.phase
      case Begin => true
      case Conflicted => run.op.Create?
      case Reserved => run.op.Create?
      case Added(p) => run.op.Create? && Complete(s, r, p).Some?
      case Checked => run.op.Retitle?
      case Written(_) => true
  {
    ReachedInv(s);
    assert RunOk(s.db, s.runs[r]);
    if s.runs[r].phase.Added? { CompleteEffect(s, r); }
  }

  /** A waiting run waits for an open run that is strictly nearer its end. */
  lemma Waits(s: Sys, r: Txn) returns (b: Txn)
    requires Reached(s) && s.Active(r) && Next(s, r).None?
    ensures s.Active(b) && Weight(s.runs[b].phase) < Weight(s.runs[r].phase)
  {
    PhaseFits(s, r);
    match s.runs[r].phase
    case Begin =>
      if s.runs[r].op.Create? { b := ReserveWaits(s, r); } else { b := UpdateWaits(s, r); }
    case Reserved => b := InsertWaits(s, r);
    case Checked => b := UpdateWaits(s, r);
  }

  lemma NextLightens(s: Sys, r: Txn, n: Sys)
    requires s.Active(r) && Next(s, r) == Some(n)
    ensures Moved(s, n, r) && Weight(n.runs[r].phase) < Weight(s.runs[r].phase)
  {
  }

  function Distance(s: Sys, r: Txn): nat { if r in s.runs then Weight(s.runs[r].phase) else 0 }

  const DRIVE: Progress.Drive<Sys, Action> := Progress.Drive(Step, EMPTY, Open, Distance, r => Advance(r))

  lemma Driven()
    ensures Progress.Sound(DRIVE)
  {
    forall s, r | Machines.Reachable(Step, EMPTY, s) && r in Open(s) ensures DRIVE.Waits(s, r) && DRIVE.Advances(s, r) {
      assert DRIVE.Next(s, r) == Next(s, r);
      match Next(s, r)
      case None =>
        var b := Waits(s, r);
        assert DRIVE.Nearer(s, b, r);
      case Some(n) => NextLightens(s, r, n);
    }
  }

  /** No deadlock: every reachable state has a schedule of statements and commits after which every call has returned. */
  lemma NoDeadlock(s: Sys) returns (trace: seq<Action>, s': Sys)
    requires Reached(s)
    ensures Execute(s, trace) == Some(s') && Reached(s') && Open(s') == {}
    ensures forall i :: 0 <= i < |trace| ==> trace[i].Advance?
  {
    Driven();
    trace, s' := Progress.FinishAll(DRIVE, s);
  }
}
