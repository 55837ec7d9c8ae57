/** Every step of the project service keeps the invariant, for any number of runs and any interleaving. */
module ProjectSteps {
  import opened Wrappers
  import opened Values
  import opened Projects
  import opened Tables
  import opened Locking
  import opened ProjectRuns
  import opened ProjectInvariant

  // ---------------------------------------------------------------- locks

  lemma StartLocks(s: Sys, r: Txn, run: Run)
    requires Locks(s) && r !in s.runs && run.phase.Begin?
    ensures Locks(s.(runs := s.runs[r := run]))
  {
  }

  lemma LeaveLocks(s: Sys, r: Txn, outcome: Outcome)
    requires Locks(s) && r in s.runs
    ensures Locks(s.Leave(r, outcome))
  {
    var run := s.runs[r].(phase := Done(outcome));
    ExactRelease(s.db.requests, s.runs, HeldRequest, r, run);
    ExactRelease(s.db.reserved, s.runs, HeldId, r, run);
    ExactRelease(s.db.projects, s.runs, HeldProject, r, run);
  }

  lemma SameLocks(s: Sys, r: Txn, phase: Phase)
    requires Locks(s) && r in s.runs
    requires var run, run' := s.runs[r], s.runs[r].(phase := phase);
      HeldRequest(run') == HeldRequest(run) && HeldId(run') == HeldId(run) && HeldProject(run') == HeldProject(run)
    ensures Locks(s.Go(r, s.db, phase))
  {
    var run' := s.runs[r].(phase := phase);
    ExactSame(s.db.requests, s.runs, HeldRequest, r, run');
    ExactSame(s.db.reserved, s.runs, HeldId, r, run');
    ExactSame(s.db.projects, s.runs, HeldProject, r, run');
  }

  // ---------------------------------------------------------------- commit

  /** A commit publishes exactly the rows the run holds. */
  lemma CommitCreate(s: Sys, r: Txn)
    requires Locks(s) && r in s.runs && s.runs[r].phase.Written? && s.runs[r].op.Create?
    ensures var op, p := s.runs[r].op, s.runs[r].phase.project;
      var db := s.db.Commit(r);
      && db.projects.rows == s.db.projects.rows[op.projectId := p]
      && db.requests.rows == s.db.requests.rows[op.ReservationKey() := op.Reservation(Some(ToSnapshot(p)))]
      && db.reserved.rows == s.db.reserved.rows[op.projectId := op.ReservationKey()]
      && s.db.projects.Visible(r, op.projectId) == Some(p)
  {
    var op, p := s.runs[r].op, s.runs[r].phase.project;
    assert HeldRequest(s.runs[r]) == Some((op.ReservationKey(), op.Reservation(Some(ToSnapshot(p)))));
    CommitHeld(s.db.requests, s.runs, HeldRequest, r);
    CommitHeld(s.db.reserved, s.runs, HeldId, r);
    CommitHeld(s.db.projects, s.runs, HeldProject, r);
  }

  lemma CommitUpdate(s: Sys, r: Txn)
    requires Locks(s) && r in s.runs && s.runs[r].phase.Written? && !s.runs[r].op.Create?
    ensures var db := s.db.Commit(r);
      && db.projects.rows == s.db.projects.rows[s.runs[r].op.projectId := s.runs[r].phase.project]
      && db.requests.rows == s.db.requests.rows
      && db.reserved.rows == s.db.reserved.rows
  {
    CommitHeld(s.db.requests, s.runs, HeldRequest, r);
    CommitHeld(s.db.reserved, s.runs, HeldId, r);
    CommitHeld(s.db.projects, s.runs, HeldProject, r);
  }

  // ---------------------------------------------------------------- steps that publish nothing

  /** Only run `r` moves: it opens, or an open run goes on. */
  predicate Moves(runs: map<Txn, Run>, runs': map<Txn, Run>, r: Txn) {
    && r in runs' && runs' == runs[r := runs'[r]]
    && (r in runs ==> !runs[r].phase.Done? && runs'[r].op == runs[r].op && runs'[r].stamp == runs[r].stamp)
  }

  lemma QuietHistory(s: Sys, s': Sys, r: Txn)
    requires HistoryOk(s) && Moves(s.runs, s'.runs, r) && s'.history == s.history && SameRows(s.db, s'.db)
    ensures HistoryOk(s')
  {
    forall i: nat | i < |s'.history| ensures EventOk(s'.runs, s'.db, s'.history, i) {
      assert EventOk(s.runs, s.db, s.history, i);
    }
    forall i: nat, k | i < |s.history| ensures Source(s'.runs, s.history[i], k) == Source(s.runs, s.history[i], k) {
      assert EventOk(s.runs, s.db, s.history, i);
    }
    forall id ensures Mirrors(s'.history, s'.db, id) {
      assert Mirrors(s.history, s.db, id);
    }
  }

  lemma QuietRuns(s: Sys, s': Sys, r: Txn)
    requires RunsOk(s) && Moves(s.runs, s'.runs, r) && SameRows(s.db, s'.db) && RunOk(s'.db, s'.runs[r])
    ensures RunsOk(s')
  {
    forall t | t in s'.runs ensures RunOk(s'.db, s'.runs[t]) {
      if t != r { assert RunOk(s.db, s.runs[t]); }
    }
  }

  lemma QuietVouched(s: Sys, s': Sys, r: Txn)
    requires HistoryOk(s) && VouchedFor(s) && Moves(s.runs, s'.runs, r) && s'.history == s.history
    requires s'.runs[r].op.Retitle? && (s'.runs[r].phase.Checked? || s'.runs[r].phase.Written?) ==>
      exists i: nat :: Vouched(s.history, s'.runs[r].op, i)
    ensures VouchedFor(s')
  {
    forall j: nat | j < |s.history| ensures s.history[j].run in s.runs && s'.runs[s.history[j].run] == s.runs[s.history[j].run] {
      assert EventOk(s.runs, s.db, s.history, j);
    }
  }

  lemma QuietKeeps(s: Sys, s': Sys, r: Txn)
    requires Inv(s) && Moves(s.runs, s'.runs, r) && s'.history == s.history && SameRows(s.db, s'.db)
    requires Locks(s') && RunOk(s'.db, s'.runs[r])
    requires var run := s'.runs[r];
      && (run.op.Retitle? && (run.phase.Checked? || run.phase.Written?) ==> exists i: nat :: Vouched(s.history, run.op, i))
      && (run.phase.Done? && run.phase.outcome.Returned? ==> run.op.Create?)
    ensures Inv(s')
  {
    QuietHistory(s, s', r);
    QuietRuns(s, s', r);
    QuietVouched(s, s', r);
    assert Committed(s'.db);
    assert Recorded(s');
  }

  lemma LeaveKeeps(s: Sys, r: Txn, outcome: Outcome)
    requires Inv(s) && s.Active(r) && (s.runs[r].op.Create? ==> Answered(s.db, s.runs[r].op, outcome))
    requires outcome.Returned? ==> s.runs[r].op.Create?
    ensures Inv(s.Leave(r, outcome))
  {
    LeaveLocks(s, r, outcome);
    QuietKeeps(s, s.Leave(r, outcome), r);
  }

  lemma StartKeeps(s: Sys, r: Txn, op: Op, stamp: Timestamp)
    requires Inv(s) && r !in s.runs
    ensures Inv(s.(runs := s.runs[r := Run(op, stamp, Begin)]))
  {
    StartLocks(s, r, Run(op, stamp, Begin));
    QuietKeeps(s, s.(runs := s.runs[r := Run(op, stamp, Begin)]), r);
  }

  // ---------------------------------------------------------------- statements of a create

  lemma ReserveLocks(s: Sys, r: Txn)
    requires Locks(s) && s.Active(r) && s.runs[r].op.Create? && s.runs[r].phase.Begin?
    requires var op := s.runs[r].op;
      !s.db.requests.LockedFor(r, op.ReservationKey()) && !s.db.reserved.LockedFor(r, op.projectId)
    ensures var op := s.runs[r].op;
      Locks(s.Go(r, s.db.(requests := s.db.requests.Put(r, op.ReservationKey(), op.Reservation(None)),
                          reserved := s.db.reserved.Put(r, op.projectId, op.ReservationKey())), Reserved))
  {
    var run' := s.runs[r].(phase := Reserved);
    var op := run'.op;
    ExactPut(s.db.requests, s.runs, HeldRequest, r, run', op.ReservationKey(), op.Reservation(None));
    ExactPut(s.db.reserved, s.runs, HeldId, r, run', op.projectId, op.ReservationKey());
    ExactSame(s.db.projects, s.runs, HeldProject, r, run');
  }

  lemma ReserveKeeps(s: Sys, r: Txn)
    requires Inv(s) && s.Active(r) && s.runs[r].op.Create? && s.runs[r].phase.Begin?
    ensures var n := Reserve(s, r); n.Some? ==> Inv(n.value)
  {
    var run := s.runs[r];
    var op, k := run.op, run.op.ReservationKey();
    match s.db.requests.Insert(r, k, op.Reservation(None))
    case Blocked =>
    case Miss =>
      SameLocks(s, r, Conflicted);
      QuietKeeps(s, s.Go(r, s.db, Conflicted), r);
    case Hit(requests, _) =>
      match s.db.reserved.Insert(r, op.projectId, k)
      case Blocked =>
      case Miss => LeaveKeeps(s, r, Failed(Integrity));
      case Hit(reserved, _) =>
        var s' := s.Go(r, s.db.(requests := requests, reserved := reserved), Reserved);
        ReserveLocks(s, r);
        QuietKeeps(s, s', r);
  }

  lemma InsertProjectKeeps(s: Sys, r: Txn)
    requires Inv(s) && s.Active(r) && s.runs[r].op.Create? && s.runs[r].phase.Reserved?
    ensures var n := InsertProject(s, r); n.Some? ==> Inv(n.value)
  {
    var run := s.runs[r];
    var p := run.op.NewProject(run.stamp);
    match s.db.projects.Insert(r, p.id, p)
    case Blocked =>
    case Miss => LeaveKeeps(s, r, Failed(Integrity));
    case Hit(projects, _) =>
      var s' := s.Go(r, s.db.(projects := projects), Added(p));
      var run' := run.(phase := Added(p));
      ExactSame(s.db.requests, s.runs, HeldRequest, r, run');
      ExactSame(s.db.reserved, s.runs, HeldId, r, run');
      ExactPut(s.db.projects, s.runs, HeldProject, r, run', p.id, p);
      QuietKeeps(s, s', r);
  }

  /** The reservation to complete is always there: it is this run's own. */
  lemma CompleteEffect(s: Sys, r: Txn)
    requires Locks(s) && s.Active(r) && s.runs[r].op.Create? && s.runs[r].phase.Added? && RunOk(s.db, s.runs[r])
    ensures var op, p := s.runs[r].op, s.runs[r].phase.project;
      var row := op.Reservation(Some(ToSnapshot(p)));
      && !s.db.requests.LockedFor(r, op.ReservationKey())
      && Complete(s, r, p) == Some(s.Go(r, s.db.(requests := s.db.requests.Put(r, op.ReservationKey(), row)), Written(p)))
  {
    var op := s.runs[r].op;
    assert HeldRequest(s.runs[r]) == Some((op.ReservationKey(), op.Reservation(None)));
    assert s.db.requests.Visible(r, op.ReservationKey()) == Some(op.Reservation(None));
  }

  lemma CompleteLocks(s: Sys, r: Txn, row: Request)
    requires Locks(s) && s.Active(r) && s.runs[r].op.Create? && s.runs[r].phase.Added?
    requires var op, p := s.runs[r].op, s.runs[r].phase.project;
      !s.db.requests.LockedFor(r, op.ReservationKey()) && row == op.Reservation(Some(ToSnapshot(p)))
    ensures Locks(s.Go(r, s.db.(requests := s.db.requests.Put(r, s.runs[r].op.ReservationKey(), row)),
                       Written(s.runs[r].phase.project)))
  {
    var run' := s.runs[r].(phase := Written(s.runs[r].phase.project));
    var k := run'.op.ReservationKey();
    assert HeldRequest(run') == Some((k, row));
    assert HeldRequest(s.runs[r]) == Some((k, run'.op.Reservation(None)));
    ExactPut(s.db.requests, s.runs, HeldRequest, r, run', k, row);
    ExactSame(s.db.reserved, s.runs, HeldId, r, run');
    ExactSame(s.db.projects, s.runs, HeldProject, r, run');
  }

  lemma CompleteKeeps(s: Sys, r: Txn)
    requires Inv(s) && s.Active(r) && s.runs[r].op.Create? && s.runs[r].phase.Added?
    ensures var n := Complete(s, r, s.runs[r].phase.project); n.Some? && Inv(n.value)
  {
    var run, p := s.runs[r], s.runs[r].phase.project;
    var k, row := run.op.ReservationKey(), run.op.Reservation(Some(ToSnapshot(p)));
    assert RunOk(s.db, run);
    CompleteEffect(s, r);
    var s' := s.Go(r, s.db.(requests := s.db.requests.Put(r, k, row)), Written(p));
    CompleteLocks(s, r, row);
    QuietKeeps(s, s', r);
  }

  // ---------------------------------------------------------------- statements of an update

  /** A recorded state has an event that left it so. */
  lemma {:induction false} LatestEvent(h: seq<Event>, id: Uuid) returns (i: nat)
    requires Latest(h, id).Some?
    ensures i < |h| && h[i].after.id == id && Latest(h, id) == Some(h[i].after)
    ensures forall j: nat :: i < j < |h| ==> h[j].after.id != id
  {
    if h[|h| - 1].after.id == id {
      i := |h| - 1;
    } else {
      i := LatestEvent(h[..|h| - 1], id);
    }
  }

  lemma CheckPassed(s: Sys, r: Txn)
    requires HistoryOk(s) && s.Active(r) && s.runs[r].op.Retitle? && !s.db.projects.Owns(r, s.runs[r].op.projectId)
    requires Refusal(s.runs[r].op, s.db.projects.Visible(r, s.runs[r].op.projectId)).None?
    ensures exists i: nat :: Vouched(s.history, s.runs[r].op, i)
  {
    var op := s.runs[r].op;
    assert Mirrors(s.history, s.db, op.projectId);
    var i := LatestEvent(s.history, op.projectId);
    assert Vouched(s.history, op, i);
  }

  lemma CheckKeeps(s: Sys, r: Txn)
    requires Inv(s) && s.Active(r) && s.runs[r].op.Retitle? && s.runs[r].phase.Begin?
    ensures Inv(Check(s, r))
  {
    var op := s.runs[r].op;
    assert !s.db.projects.Owns(r, op.projectId);
    match Refusal(op, s.db.projects.Visible(r, op.projectId))
    case Some(outcome) => LeaveKeeps(s, r, outcome);
    case None =>
      SameLocks(s, r, Checked);
      CheckPassed(s, r);
      QuietKeeps(s, s.Go(r, s.db, Checked), r);
  }

  lemma UpdateKeeps(s: Sys, r: Txn)
    requires Inv(s) && s.Active(r) && !s.runs[r].op.Create?
    requires s.runs[r].phase == if s.runs[r].op.Retitle? then Checked else Begin
    ensures var n := UpdateProject(s, r); n.Some? ==> Inv(n.value)
  {
    var run := s.runs[r];
    var op, id := run.op, run.op.projectId;
    assert !s.db.projects.Owns(r, id);
    match UpdateProject(s, r)
    case None =>
    case Some(n) =>
      if n.runs[r].phase.Done? {
        LeaveKeeps(s, r, n.runs[r].phase.outcome);
      } else {
        UpdateLocks(s, r, op.Change(s.db.projects.rows[id], run.stamp));
        QuietKeeps(s, n, r);
      }
  }

  lemma UpdateLocks(s: Sys, r: Txn, p: Project)
    requires Locks(s) && s.Active(r) && !s.runs[r].op.Create? && (s.runs[r].phase.Begin? || s.runs[r].phase.Checked?)
    requires !s.db.projects.LockedFor(r, s.runs[r].op.projectId)
    ensures Locks(s.Go(r, s.db.(projects := s.db.projects.Put(r, s.runs[r].op.projectId, p)), Written(p)))
  {
    var run' := s.runs[r].(phase := Written(p));
    ExactSame(s.db.requests, s.runs, HeldRequest, r, run');
    ExactSame(s.db.reserved, s.runs, HeldId, r, run');
    ExactPut(s.db.projects, s.runs, HeldProject, r, run', run'.op.projectId, p);
  }

  // ---------------------------------------------------------------- the replay of a finished create

  ghost predicate OpsValid(s: Sys) { forall r :: r in s.runs ==> s.runs[r].op.Valid() }

  /** A committed reservation holds the snapshot of the project its own create inserted. */
  lemma ReservationOrigin(s: Sys, k: RequestKey) returns (i: nat, r: Txn)
    requires HistoryOk(s) && k in s.db.requests.rows
    ensures i < |s.history| && s.history[i].run == r && r in s.runs
    ensures s.runs[r].op.Create? && s.runs[r].op.ReservationKey() == k
    ensures s.history[i].before.None? && s.history[i].after == s.runs[r].op.NewProject(s.runs[r].stamp)
    ensures s.db.requests.rows[k] == s.runs[r].op.Reservation(Some(ToSnapshot(s.history[i].after)))
  {
    i :| i < |s.history| && Source(s.runs, s.history[i], k);
    r := s.history[i].run;
    assert EventOk(s.runs, s.db, s.history, i);
  }

  lemma NewSnapshot(op: Op, stamp: Timestamp)
    requires op.Create? && op.Valid()
    ensures FromSnapshot(ToSnapshot(op.NewProject(stamp))) == Some(op.NewProject(stamp))
  {
    SnapshotRoundTrip(op.NewProject(stamp));
  }

  /** Every committed reservation holds a snapshot that reads back as a project. */
  lemma StoredSnapshot(s: Sys, k: RequestKey) returns (p: Project)
    requires HistoryOk(s) && OpsValid(s) && k in s.db.requests.rows
    ensures s.db.requests.rows[k].snapshot == Some(ToSnapshot(p)) && FromSnapshot(ToSnapshot(p)) == Some(p)
  {
    var i, r := ReservationOrigin(s, k);
    p := s.runs[r].op.NewProject(s.runs[r].stamp);
    assert s.runs[r].op.Valid();
    NewSnapshot(s.runs[r].op, s.runs[r].stamp);
  }

  lemma ReplayAnswers(s: Sys, op: Op)
    requires HistoryOk(s) && OpsValid(s) && op.Create? && op.ReservationKey() in s.db.requests.rows
    ensures Answered(s.db, op, Replay(op, Some(s.db.requests.rows[op.ReservationKey()])))
  {
    var p := StoredSnapshot(s, op.ReservationKey());
    ReadableAnswers(s.db, op, p);
  }

  lemma ReadableAnswers(db: Db, op: Op, p: Project)
    requires op.Create? && op.ReservationKey() in db.requests.rows
    requires db.requests.rows[op.ReservationKey()].snapshot == Some(ToSnapshot(p)) && FromSnapshot(ToSnapshot(p)) == Some(p)
    ensures Answered(db, op, Replay(op, Some(db.requests.rows[op.ReservationKey()])))
  {
  }

  lemma ReplayKeeps(s: Sys, r: Txn)
    requires Inv(s) && OpsValid(s) && s.Active(r) && s.runs[r].op.Create? && s.runs[r].phase.Conflicted?
    ensures Inv(s.Leave(r, Replay(s.runs[r].op, s.db.requests.Visible(r, s.runs[r].op.ReservationKey()))))
  {
    var op := s.runs[r].op;
    assert RunOk(s.db, s.runs[r]);
    assert !s.db.requests.Owns(r, op.ReservationKey());
    ReplayAnswers(s, op);
    LeaveKeeps(s, r, Replay(op, Some(s.db.requests.rows[op.ReservationKey()])));
  }

  // ---------------------------------------------------------------- commit

  /** What the commit of a run about to commit does to the rows. */
  predicate Publishes(db: Db, db': Db, op: Op, p: Project) {
    && db'.projects.rows == db.projects.rows[op.projectId := p]
    && if op.Create? then
         && db'.requests.rows == db.requests.rows[op.ReservationKey() := op.Reservation(Some(ToSnapshot(p)))]
         && db'.reserved.rows == db.reserved.rows[op.projectId := op.ReservationKey()]
       else db'.requests.rows == db.requests.rows && db'.reserved.rows == db.reserved.rows
  }

  lemma PublishCreated(db: Db, db': Db, run: Run)
    requires Committed(db) && RunOk(db, run) && run.phase.Written? && Publishes(db, db', run.op, run.phase.project) && run.op.Create?
    ensures Committed(db')
  {
  }

  lemma PublishChanged(db: Db, db': Db, run: Run)
    requires Committed(db) && RunOk(db, run) && run.phase.Written? && Publishes(db, db', run.op, run.phase.project) && !run.op.Create?
    ensures Committed(db')
  {
  }

  lemma PublishCommitted(db: Db, db': Db, run: Run)
    requires Committed(db) && RunOk(db, run) && run.phase.Written? && Publishes(db, db', run.op, run.phase.project)
    ensures Committed(db')
  {
    if run.op.Create? { PublishCreated(db, db', run); } else { PublishChanged(db, db', run); }
  }

  lemma IdsApart(s: Sys, r: Txn, u: Txn)
    requires Locks(s) && r in s.runs && u in s.runs && r != u && HeldId(s.runs[r]).Some? && HeldId(s.runs[u]).Some?
    ensures s.runs[r].op.projectId != s.runs[u].op.projectId
  {
    HeldApart(s.db.reserved, s.runs, HeldId, r, u);
  }

  lemma HeldTogether(run: Run)
    requires HeldId(run).Some?
    ensures HeldRequest(run).Some? && HeldRequest(run).value.0 == run.op.ReservationKey()
  {
  }

  lemma KeysApart(s: Sys, r: Txn, u: Txn)
    requires Locks(s) && r in s.runs && u in s.runs && r != u && HeldId(s.runs[r]).Some? && HeldId(s.runs[u]).Some?
    ensures s.runs[r].op.ReservationKey() != s.runs[u].op.ReservationKey()
  {
    HeldTogether(s.runs[r]);
    HeldTogether(s.runs[u]);
    HeldApart(s.db.requests, s.runs, HeldRequest, r, u);
  }

  lemma PublishRun(db: Db, db': Db, run: Run, other: Run)
    requires Committed(db) && RunOk(db, run) && RunOk(db, other)
    requires run.phase.Written? && Publishes(db, db', run.op, run.phase.project)
    requires HeldProject(other).Some? ==> run.op.projectId != other.op.projectId
    requires HeldId(run).Some? && HeldId(other).Some? ==>
      run.op.projectId != other.op.projectId && run.op.ReservationKey() != other.op.ReservationKey()
    ensures RunOk(db', other)
  {
  }

  lemma PublishRuns(s: Sys, s': Sys, r: Txn)
    requires Locks(s) && Committed(s.db) && RunsOk(s) && r in s.runs && s.runs[r].phase.Written?
    requires Publishes(s.db, s'.db, s.runs[r].op, s.runs[r].phase.project)
    requires Moves(s.runs, s'.runs, r) && RunOk(s'.db, s'.runs[r])
    ensures RunsOk(s')
  {
    forall t | t in s'.runs ensures RunOk(s'.db, s'.runs[t]) {
      if t != r {
        if HeldProject(s.runs[t]).Some? { HeldApart(s.db.projects, s.runs, HeldProject, r, t); }
        if HeldId(s.runs[r]).Some? && HeldId(s.runs[t]).Some? { IdsApart(s, r, t); KeysApart(s, r, t); }
        assert RunOk(s.db, s.runs[r]) && RunOk(s.db, s.runs[t]);
        PublishRun(s.db, s'.db, s.runs[r], s.runs[t]);
      }
    }
  }

  // ---------------------------------------------------------------- commit and the history

  lemma LatestAppend(h: seq<Event>, e: Event, id: Uuid)
    ensures Latest(h + [e], id) == if e.after.id == id then Some(e.after) else Latest(h, id)
  {
    assert (h + [e])[..|h|] == h;
  }

  /** What a commit appends to the history. */
  ghost predicate Appends(s: Sys, s': Sys, r: Txn) {
    && r in s.runs && s.runs[r].phase.Written?
    && s'.history == s.history + [Event(r, Latest(s.history, s.runs[r].op.projectId), s.runs[r].phase.project)]
    && Moves(s.runs, s'.runs, r) && s'.runs[r].phase.Done?
    && Publishes(s.db, s'.db, s.runs[r].op, s.runs[r].phase.project)
  }

  lemma OldEventOk(s: Sys, s': Sys, r: Txn, i: nat)
    requires i < |s.history| && EventOk(s.runs, s.db, s.history, i) && Appends(s, s', r) && RunOk(s.db, s.runs[r])
    ensures EventOk(s'.runs, s'.db, s'.history, i)
  {
    assert s'.history[..i] == s.history[..i];
  }

  lemma NewEventOk(s: Sys, s': Sys, r: Txn)
    requires MirrorsOk(s) && Committed(s.db) && Appends(s, s', r) && RunOk(s.db, s.runs[r])
    ensures EventOk(s'.runs, s'.db, s'.history, |s.history|)
  {
    var id := s.runs[r].op.projectId;
    assert s'.history[..|s.history|] == s.history;
    assert Mirrors(s.history, s.db, id);
  }

  lemma PublishEvents(s: Sys, s': Sys, r: Txn)
    requires EventsOk(s) && MirrorsOk(s) && Committed(s.db) && Appends(s, s', r) && RunOk(s.db, s.runs[r])
    ensures EventsOk(s')
  {
    forall i: nat | i < |s'.history| ensures EventOk(s'.runs, s'.db, s'.history, i) {
      if i < |s.history| {
        assert EventOk(s.runs, s.db, s.history, i);
        OldEventOk(s, s', r, i);
      } else {
        NewEventOk(s, s', r);
      }
    }
  }

  lemma WrittenId(db: Db, run: Run)
    requires Committed(db) && RunOk(db, run) && run.phase.Written?
    ensures run.phase.project.id == run.op.projectId
  {
  }

  lemma PublishLatest(s: Sys, s': Sys, r: Txn, id: Uuid)
    requires Mirrors(s.history, s.db, id) && Appends(s, s', r) && s.runs[r].phase.project.id == s.runs[r].op.projectId
    ensures Mirrors(s'.history, s'.db, id)
  {
    LatestAppend(s.history, s'.history[|s.history|], id);
  }

  lemma PublishHistory(s: Sys, s': Sys, r: Txn)
    requires HistoryOk(s) && Committed(s.db) && Appends(s, s', r) && RunOk(s.db, s.runs[r])
    ensures HistoryOk(s')
  {
    PublishEvents(s, s', r);
    PublishSources(s, s', r);
    WrittenId(s.db, s.runs[r]);
    PublishMirrors(s, s', r);
  }

  lemma PublishMirrors(s: Sys, s': Sys, r: Txn)
    requires MirrorsOk(s) && Appends(s, s', r) && s.runs[r].phase.project.id == s.runs[r].op.projectId
    ensures MirrorsOk(s')
  {
    forall id ensures Mirrors(s'.history, s'.db, id) {
      PublishLatest(s, s', r, id);
    }
  }

  lemma PublishSource(s: Sys, s': Sys, r: Txn, i: nat)
    requires i < |s.history| && EventOk(s.runs, s.db, s.history, i) && Appends(s, s', r)
    ensures s.history[i].run != r && s'.history[i] == s.history[i]
    ensures forall k :: Source(s'.runs, s'.history[i], k) ==> Source(s.runs, s.history[i], k) && k in s.db.requests.rows
  {
  }

  /** The old events are other runs' and, if they are a key's source, their reservation is committed. */
  lemma OldSources(s: Sys, s': Sys, r: Txn)
    requires EventsOk(s) && Appends(s, s', r)
    ensures forall i: nat :: i < |s.history| ==> s.history[i].run != r && s'.history[i] == s.history[i]
    ensures forall i: nat, k :: i < |s.history| && Source(s'.runs, s'.history[i], k) ==>
      Source(s.runs, s.history[i], k) && k in s.db.requests.rows
  {
    forall i: nat | i < |s.history|
      ensures s.history[i].run != r && s'.history[i] == s.history[i]
      ensures forall k :: Source(s'.runs, s'.history[i], k) ==> Source(s.runs, s.history[i], k) && k in s.db.requests.rows
    {
      PublishSource(s, s', r, i);
    }
  }

  lemma PublishEverySource(s: Sys, s': Sys, r: Txn)
    requires SourcesOk(s) && Appends(s, s', r)
    ensures forall k :: k in s'.db.requests.rows ==> exists i: nat :: i < |s'.history| && Source(s'.runs, s'.history[i], k)
  {
    var n := |s.history|;
    forall k | k in s'.db.requests.rows ensures exists i: nat :: i < |s'.history| && Source(s'.runs, s'.history[i], k) {
      if k in s.db.requests.rows {
        var i: nat :| i < n && Source(s.runs, s.history[i], k);
        assert Source(s'.runs, s'.history[i], k);
      } else {
        assert Source(s'.runs, s'.history[n], k);
      }
    }
  }

  lemma PublishOneSource(s: Sys, s': Sys, r: Txn)
    requires EventsOk(s) && SourcesOk(s) && Appends(s, s', r) && RunOk(s.db, s.runs[r])
    ensures forall i: nat, j: nat :: i < j < |s'.history| ==> s'.history[i].run != s'.history[j].run
    ensures forall i: nat, j: nat, k :: i < j < |s'.history| && Source(s'.runs, s'.history[i], k) ==> !Source(s'.runs, s'.history[j], k)
  {
    OldSources(s, s', r);
    var n := |s.history|;
    assert s'.history[n].run == r && |s'.history| == n + 1;
    forall i: nat, j: nat, k | i < j < |s'.history| && Source(s'.runs, s'.history[i], k) ensures !Source(s'.runs, s'.history[j], k) {
      assert Source(s.runs, s.history[i], k);
    }
  }

  lemma PublishSources(s: Sys, s': Sys, r: Txn)
    requires EventsOk(s) && SourcesOk(s) && Appends(s, s', r) && RunOk(s.db, s.runs[r])
    ensures SourcesOk(s')
  {
    PublishOneSource(s, s', r);
    PublishEverySource(s, s', r);
  }

  lemma PublishVouched(s: Sys, s': Sys, r: Txn)
    requires HistoryOk(s) && VouchedFor(s) && Appends(s, s', r)
    ensures VouchedFor(s')
  {
    var n := |s.history|;
    forall t | t in s'.runs && s'.runs[t].op.Retitle? && (s'.runs[t].phase.Checked? || s'.runs[t].phase.Written?)
      ensures exists i: nat :: Vouched(s'.history, s'.runs[t].op, i)
    {
      var i: nat :| Vouched(s.history, s.runs[t].op, i);
      assert Vouched(s'.history, s'.runs[t].op, i);
    }
    forall j: nat | j < |s'.history| && s'.history[j].run in s'.runs && s'.runs[s'.history[j].run].op.Retitle?
      ensures exists i: nat :: i < j && Vouched(s'.history, s'.runs[s'.history[j].run].op, i)
    {
      if j < n {
        assert EventOk(s.runs, s.db, s.history, j);
        var i: nat :| i < j && Vouched(s.history, s.runs[s.history[j].run].op, i);
        assert Vouched(s'.history, s'.runs[s'.history[j].run].op, i);
      } else {
        var i: nat :| Vouched(s.history, s.runs[r].op, i);
        assert Vouched(s'.history, s'.runs[r].op, i);
      }
    }
  }

  lemma PublishRecorded(s: Sys, s': Sys, r: Txn)
    requires Recorded(s) && Appends(s, s', r)
    requires s'.runs[r].phase.outcome.Returned? ==> s'.runs[r].phase.outcome.project == s.runs[r].phase.project
    ensures Recorded(s')
  {
    forall t | t in s'.runs && !s'.runs[t].op.Create? && s'.runs[t].phase.Done? && s'.runs[t].phase.outcome.Returned?
      ensures exists i: nat :: i < |s'.history| && s'.history[i].run == t && s'.history[i].after == s'.runs[t].phase.outcome.project
    {
      if t == r {
        assert s'.history[|s.history|].run == r;
      } else {
        var i: nat :| i < |s.history| && s.history[i].run == t && s.history[i].after == s.runs[t].phase.outcome.project;
        assert s'.history[i] == s.history[i];
      }
    }
  }

  lemma CommitLocks(s: Sys, r: Txn, p: Project, outcome: Outcome)
    requires Locks(s) && s.Active(r)
    ensures Locks(s.Commit(r, p, outcome))
  {
    LeaveLocks(s, r, Failed(Integrity));
    var run := s.runs[r].(phase := Done(outcome));
    ExactRelease(s.db.requests, s.runs, HeldRequest, r, run);
    ExactRelease(s.db.reserved, s.runs, HeldId, r, run);
    ExactRelease(s.db.projects, s.runs, HeldProject, r, run);
  }

  /** A commit never fails its deferred check, and appends the event it stands for. */
  lemma CommitAppends(s: Sys, r: Txn, outcome: Outcome)
    requires Locks(s) && Committed(s.db) && HistoryOk(s) && s.Active(r) && s.runs[r].phase.Written? && RunOk(s.db, s.runs[r])
    ensures Appends(s, s.Commit(r, s.runs[r].phase.project, outcome), r)
    ensures s.Commit(r, s.runs[r].phase.project, outcome).runs[r].phase == Done(outcome)
  {
    var id := s.runs[r].op.projectId;
    assert Mirrors(s.history, s.db, id);
    WrittenId(s.db, s.runs[r]);
    if s.runs[r].op.Create? { CommitCreate(s, r); } else { CommitUpdate(s, r); }
  }

  /** A create that has committed is answered with its own project. */
  lemma CommittedOk(db: Db, db': Db, run: Run, outcome: Outcome)
    requires RunOk(db, run) && run.op.Valid() && run.phase.Written? && Publishes(db, db', run.op, run.phase.project)
    requires outcome == Returned(run.phase.project) || outcome == Failed(ReplyLost)
    ensures RunOk(db', run.(phase := Done(outcome)))
  {
    if run.op.Create? { NewSnapshot(run.op, run.stamp); }
  }

  lemma CommitHistory(s: Sys, s': Sys, r: Txn)
    requires HistoryOk(s) && VouchedFor(s) && Recorded(s) && Committed(s.db) && Appends(s, s', r) && RunOk(s.db, s.runs[r])
    requires s'.runs[r].phase.outcome.Returned? ==> s'.runs[r].phase.outcome.project == s.runs[r].phase.project
    ensures HistoryOk(s') && VouchedFor(s') && Recorded(s')
  {
    PublishHistory(s, s', r);
    PublishVouched(s, s', r);
    PublishRecorded(s, s', r);
  }

  lemma CommitRows(s: Sys, s': Sys, r: Txn)
    requires Locks(s) && Committed(s.db) && RunsOk(s) && Appends(s, s', r) && RunOk(s'.db, s'.runs[r])
    ensures Committed(s'.db) && RunsOk(s')
  {
    assert RunOk(s.db, s.runs[r]);
    PublishCommitted(s.db, s'.db, s.runs[r]);
    PublishRuns(s, s', r);
  }

  lemma CommitKeeps(s: Sys, r: Txn, outcome: Outcome)
    requires Inv(s) && OpsValid(s) && s.Active(r) && s.runs[r].phase.Written?
    requires outcome == Returned(s.runs[r].phase.project) || outcome == Failed(ReplyLost)
    ensures Inv(s.Commit(r, s.runs[r].phase.project, outcome))
  {
    var s' := s.Commit(r, s.runs[r].phase.project, outcome);
    assert RunOk(s.db, s.runs[r]) && s.runs[r].op.Valid();
    CommitLocks(s, r, s.runs[r].phase.project, outcome);
    CommitAppends(s, r, outcome);
    CommittedOk(s.db, s'.db, s.runs[r], outcome);
    CommitHistory(s, s', r);
    CommitRows(s, s', r);
  }
}
