/** Accounts do not interfere: what one account sees is what it would see if no other account existed. */
module AccountSlices {
  import opened Wrappers
  import opened Values
  import opened Projects
  import opened Tables
  import opened Slices
  import opened Locking
  import opened ProjectRuns
  import opened ProjectInvariant
  import opened ProjectSteps
  import opened ProjectTheorems

  // ---------------------------------------------------------------- the part of the system that is an account's

  function OwnRequest(a: Uuid): (RequestKey, Request) -> bool { (k: RequestKey, q: Request) => k.accountId == a }

  function OwnId(a: Uuid): (Uuid, RequestKey) -> bool { (id: Uuid, k: RequestKey) => k.accountId == a }

  function OwnProject(a: Uuid): (Uuid, Project) -> bool { (id: Uuid, p: Project) => p.accountId == a }

  function SliceDb(db: Db, a: Uuid): Db {
    Db(Only(db.requests, OwnRequest(a)), Only(db.reserved, OwnId(a)), Only(db.projects, OwnProject(a)))
  }

  function SliceRuns(runs: map<Txn, Run>, a: Uuid): map<Txn, Run> {
    map r | r in runs && runs[r].op.accountId == a :: runs[r]
  }

  function SliceHistory(h: seq<Event>, a: Uuid): seq<Event> {
    if h == [] then []
    else SliceHistory(h[..|h| - 1], a) + if h[|h| - 1].after.accountId == a then [h[|h| - 1]] else []
  }

  function Slice(s: Sys, a: Uuid): Sys { Sys(SliceDb(s.db, a), SliceRuns(s.runs, a), SliceHistory(s.history, a)) }

  predicate OwnRun(runs: map<Txn, Run>, r: Txn, a: Uuid) { r in runs && runs[r].op.accountId == a }

  /** The id factory never gives two accounts the same project id. */
  ghost predicate FreshIds(runs: map<Txn, Run>) {
    forall r, u :: r in runs && u in runs && runs[r].op.Create? && runs[u].op.Create? && runs[r].op.projectId == runs[u].op.projectId ==>
      runs[r].op.accountId == runs[u].op.accountId
  }

  // ---------------------------------------------------------------- who can be at a key

  lemma ReachedExact(s: Sys)
    requires Reached(s)
    ensures Exact(s.db.requests, s.runs, HeldRequest)
    ensures Exact(s.db.reserved, s.runs, HeldId)
    ensures Exact(s.db.projects, s.runs, HeldProject)
  {
    ReachedLocks(s);
  }

  lemma ReachedRun(s: Sys, r: Txn)
    requires Reached(s) && r in s.runs
    ensures RunOk(s.db, s.runs[r])
  {
    ReachedInv(s);
  }

  /** What a run writes belongs to its account, and so does the version it replaces. */
  lemma WriterTenant(db: Db, run: Run)
    requires Committed(db) && RunOk(db, run) && (run.phase.Written? || run.phase.Added?)
    ensures var id, a := run.op.projectId, run.op.accountId;
      && run.phase.project.id == id && run.phase.project.accountId == a
      && (id in db.projects.rows ==> db.projects.rows[id].accountId == a)
  {
  }

  lemma HeldKeys(run: Run)
    ensures HeldRequest(run).Some? ==> run.op.Create? && HeldRequest(run).value.0 == run.op.ReservationKey()
    ensures HeldId(run).Some? ==> run.op.Create? && HeldId(run).value == (run.op.projectId, run.op.ReservationKey())
  {
  }

  /** The call that a committed reserved id came from. */
  lemma IdOrigin(s: Sys, id: Uuid) returns (u: Txn)
    requires Reached(s) && id in s.db.reserved.rows
    ensures u in s.runs && s.runs[u].op.Create? && s.runs[u].op.projectId == id
    ensures s.runs[u].op.ReservationKey() == s.db.reserved.rows[id]
  {
    ReachedInv(s);
    var i;
    i, u := ReservationOrigin(s, s.db.reserved.rows[id]);
  }

  /** Whoever else reserved a create's project id belongs to the same account. */
  lemma ReservedTenant(s: Sys, r: Txn)
    requires Reached(s) && FreshIds(s.runs) && r in s.runs && s.runs[r].op.Create?
    ensures Clear(s.db.reserved, OwnId(s.runs[r].op.accountId), s.runs[r].op.projectId)
  {
    var id := s.runs[r].op.projectId;
    if id in s.db.reserved.rows {
      var u := IdOrigin(s, id);
    }
    if id in s.db.reserved.pending {
      ReachedExact(s);
      HeldKeys(s.runs[s.db.reserved.pending[id].owner]);
    }
  }

  lemma HeldProjectAt(run: Run)
    ensures HeldProject(run).Some? ==>
      (run.phase.Written? || run.phase.Added?) && HeldProject(run).value == (run.op.projectId, run.phase.project)
  {
  }

  /** An uncommitted project belongs to its writer's account, and so does the version it replaces. */
  lemma ProjectTenant(s: Sys, id: Uuid)
    requires Reached(s) && id in s.db.projects.pending
    ensures s.db.projects.pending[id].owner in s.runs
    ensures Clear(s.db.projects, OwnProject(s.runs[s.db.projects.pending[id].owner].op.accountId), id)
  {
    var u := s.db.projects.pending[id].owner;
    ReachedExact(s);
    ReachedRun(s, u);
    ReachedRows(s);
    HeldProjectAt(s.runs[u]);
    WriterTenant(s.db, s.runs[u]);
  }

  lemma OwnedProjects(s: Sys, r: Txn, a: Uuid)
    requires Reached(s) && r in s.runs
    ensures s.runs[r].op.accountId == a ==> OwnsMine(s.db.projects, OwnProject(a), r)
    ensures s.runs[r].op.accountId != a ==> OwnsOther(s.db.projects, OwnProject(a), r)
  {
    forall id | s.db.projects.Owns(r, id) ensures Clear(s.db.projects, OwnProject(s.runs[r].op.accountId), id) {
      ProjectTenant(s, id);
    }
  }

  lemma OwnedIds(s: Sys, r: Txn, a: Uuid)
    requires Reached(s) && FreshIds(s.runs) && r in s.runs
    ensures s.runs[r].op.accountId == a ==> OwnsMine(s.db.reserved, OwnId(a), r)
    ensures s.runs[r].op.accountId != a ==> OwnsOther(s.db.reserved, OwnId(a), r)
  {
    ReachedLocks(s);
    forall id | s.db.reserved.Owns(r, id) ensures Clear(s.db.reserved, OwnId(s.runs[r].op.accountId), id) {
      ReservedTenant(s, r);
    }
  }

  lemma OwnedRequests(s: Sys, r: Txn, a: Uuid)
    requires Reached(s) && r in s.runs
    ensures s.runs[r].op.accountId == a ==> OwnsMine(s.db.requests, OwnRequest(a), r)
    ensures s.runs[r].op.accountId != a ==> OwnsOther(s.db.requests, OwnRequest(a), r)
  {
    ReachedExact(s);
    HeldKeys(s.runs[r]);
  }

  // ---------------------------------------------------------------- moving on and leaving

  lemma SliceGo(s: Sys, r: Txn, db: Db, phase: Phase, a: Uuid)
    requires r in s.runs
    ensures s.runs[r].op.accountId == a ==> Slice(s.Go(r, db, phase), a) == Slice(s, a).Go(r, SliceDb(db, a), phase)
    ensures s.runs[r].op.accountId != a && SliceDb(db, a) == SliceDb(s.db, a) ==> Slice(s.Go(r, db, phase), a) == Slice(s, a)
  {
  }

  lemma SliceRollback(s: Sys, r: Txn, a: Uuid)
    requires Reached(s) && FreshIds(s.runs) && r in s.runs
    ensures s.runs[r].op.accountId == a ==> SliceDb(s.db.Rollback(r), a) == SliceDb(s.db, a).Rollback(r)
    ensures s.runs[r].op.accountId != a ==> SliceDb(s.db.Rollback(r), a) == SliceDb(s.db, a)
  {
    OwnedRequests(s, r, a);
    OwnedIds(s, r, a);
    OwnedProjects(s, r, a);
    if s.runs[r].op.accountId == a {
      OnlyRollback(s.db.requests, OwnRequest(a), r);
      OnlyRollback(s.db.reserved, OwnId(a), r);
      OnlyRollback(s.db.projects, OwnProject(a), r);
    } else {
      OnlyCommitOther(s.db.requests, OwnRequest(a), r);
      OnlyCommitOther(s.db.reserved, OwnId(a), r);
      OnlyCommitOther(s.db.projects, OwnProject(a), r);
    }
  }

  lemma SliceCommitDb(s: Sys, r: Txn, a: Uuid)
    requires Reached(s) && FreshIds(s.runs) && r in s.runs
    ensures s.runs[r].op.accountId == a ==> SliceDb(s.db.Commit(r), a) == SliceDb(s.db, a).Commit(r)
    ensures s.runs[r].op.accountId != a ==> SliceDb(s.db.Commit(r), a) == SliceDb(s.db, a)
  {
    OwnedRequests(s, r, a);
    OwnedIds(s, r, a);
    OwnedProjects(s, r, a);
    if s.runs[r].op.accountId == a {
      OnlyCommit(s.db.requests, OwnRequest(a), r);
      OnlyCommit(s.db.reserved, OwnId(a), r);
      OnlyCommit(s.db.projects, OwnProject(a), r);
    } else {
      OnlyCommitOther(s.db.requests, OwnRequest(a), r);
      OnlyCommitOther(s.db.reserved, OwnId(a), r);
      OnlyCommitOther(s.db.projects, OwnProject(a), r);
    }
  }

  lemma SliceLeave(s: Sys, r: Txn, outcome: Outcome, a: Uuid)
    requires Reached(s) && FreshIds(s.runs) && r in s.runs
    ensures s.runs[r].op.accountId == a ==> Slice(s.Leave(r, outcome), a) == Slice(s, a).Leave(r, outcome)
    ensures s.runs[r].op.accountId != a ==> Slice(s.Leave(r, outcome), a) == Slice(s, a)
  {
    SliceRollback(s, r, a);
    SliceGo(s, r, s.db.Rollback(r), Done(outcome), a);
  }

  lemma SliceAppend(h: seq<Event>, e: Event, a: Uuid)
    ensures SliceHistory(h + [e], a) == SliceHistory(h, a) + if e.after.accountId == a then [e] else []
  {
    assert (h + [e])[..|h|] == h;
  }

  // ---------------------------------------------------------------- statements of the account's own runs

  /** A run of the account at work. */
  ghost predicate Own(s: Sys, r: Txn, a: Uuid) {
    Reached(s) && FreshIds(s.runs) && s.Active(r) && s.runs[r].op.accountId == a
  }

  lemma OwnActive(s: Sys, r: Txn, a: Uuid)
    requires Own(s, r, a)
    ensures Slice(s, a).Active(r) && Slice(s, a).runs[r] == s.runs[r]
  {
  }

  lemma ClearRequests(s: Sys, k: RequestKey)
    ensures Clear(s.db.requests, OwnRequest(k.accountId), k)
  {
  }

  lemma OwnReserve(s: Sys, r: Txn, a: Uuid, n: Sys)
    requires Own(s, r, a) && s.runs[r].op.Create? && Reserve(s, r) == Some(n)
    ensures Slice(s, a).Active(r) && Slice(s, a).runs[r].op.Create? && Reserve(Slice(s, a), r) == Some(Slice(n, a))
  {
    OwnActive(s, r, a);
    var op := s.runs[r].op;
    ClearRequests(s, op.ReservationKey());
    OnlyInsert(s.db.requests, OwnRequest(a), r, op.ReservationKey(), op.Reservation(None));
    match s.db.requests.Insert(r, op.ReservationKey(), op.Reservation(None))
    case Miss => SliceGo(s, r, s.db, Conflicted, a);
    case Hit(requests, _) =>
      ReservedTenant(s, r);
      OnlyInsert(s.db.reserved, OwnId(a), r, op.projectId, op.ReservationKey());
      match s.db.reserved.Insert(r, op.projectId, op.ReservationKey())
      case Miss => SliceLeave(s, r, Failed(Integrity), a);
      case Hit(reserved, _) => SliceGo(s, r, s.db.(requests := requests, reserved := reserved), Reserved, a);
  }

  /** Nobody else holds the id that a run has reserved. */
  lemma InsertTenant(s: Sys, r: Txn, a: Uuid)
    requires Own(s, r, a) && s.runs[r].op.Create? && s.runs[r].phase.Reserved?
    ensures Clear(s.db.projects, OwnProject(a), s.runs[r].op.projectId)
  {
    var id := s.runs[r].op.projectId;
    ReachedRun(s, r);
    ReachedRows(s);
    assert id !in s.db.projects.rows;
    if id in s.db.projects.pending {
      var u := s.db.projects.pending[id].owner;
      ReachedExact(s);
      ReachedRun(s, u);
      HeldProjectAt(s.runs[u]);
      NewWriter(s.db, s.runs[u]);
      ProjectTenant(s, id);
    }
  }

  lemma NewWriter(db: Db, run: Run)
    requires RunOk(db, run) && (run.phase.Written? || run.phase.Added?) && run.op.projectId !in db.projects.rows
    ensures run.op.Create?
  {
  }

  lemma OwnInsert(s: Sys, r: Txn, a: Uuid, n: Sys)
    requires Own(s, r, a) && s.runs[r].op.Create? && s.runs[r].phase.Reserved? && InsertProject(s, r) == Some(n)
    ensures Slice(s, a).Active(r) && Slice(s, a).runs[r].op.Create? && InsertProject(Slice(s, a), r) == Some(Slice(n, a))
  {
    OwnActive(s, r, a);
    InsertTenant(s, r, a);
    var p := s.runs[r].op.NewProject(s.runs[r].stamp);
    OnlyInsert(s.db.projects, OwnProject(a), r, p.id, p);
    match s.db.projects.Insert(r, p.id, p)
    case Miss => SliceLeave(s, r, Failed(Integrity), a);
    case Hit(projects, _) => SliceGo(s, r, s.db.(projects := projects), Added(p), a);
  }

  lemma OwnComplete(s: Sys, r: Txn, a: Uuid, p: Project, n: Sys)
    requires Own(s, r, a) && s.runs[r].op.Create? && Complete(s, r, p) == Some(n)
    ensures Slice(s, a).Active(r) && Slice(s, a).runs[r].op.Create? && Complete(Slice(s, a), r, p) == Some(Slice(n, a))
  {
    OwnActive(s, r, a);
    var k := s.runs[r].op.ReservationKey();
    var matches, change := (q: Request) => q.projectId == p.id, (q: Request) => q.(snapshot := Some(ToSnapshot(p)));
    ClearRequests(s, k);
    OnlyUpdate(s.db.requests, OwnRequest(a), r, k, matches, change);
    match s.db.requests.Update(r, k, matches, change)
    case Miss => SliceLeave(s, r, Failed(NotCompleted), a);
    case Hit(requests, _) => SliceGo(s, r, s.db.(requests := requests), Written(p), a);
  }

  /** A run that owns nothing sees a project in the slice exactly when it is the account's. */
  lemma SeesOwn(s: Sys, r: Txn, a: Uuid, id: Uuid)
    requires Own(s, r, a) && !s.db.projects.Owns(r, id)
    ensures var seen := s.db.projects.Visible(r, id);
      Slice(s, a).db.projects.Visible(r, id) == if seen.Some? && seen.value.accountId == a then seen else None
  {
  }

  lemma OwnCheck(s: Sys, r: Txn, a: Uuid)
    requires Own(s, r, a) && s.runs[r].op.Retitle? && !s.db.projects.Owns(r, s.runs[r].op.projectId)
    ensures Slice(s, a).Active(r) && Slice(s, a).runs[r].op.Retitle? && Check(Slice(s, a), r) == Slice(Check(s, r), a)
  {
    OwnActive(s, r, a);
    var op := s.runs[r].op;
    SeesOwn(s, r, a, op.projectId);
    match Refusal(op, s.db.projects.Visible(r, op.projectId))
    case Some(outcome) => SliceLeave(s, r, outcome, a);
    case None => SliceGo(s, r, s.db, Checked, a);
  }

  /** An update finds the same row in the slice, or none on both sides. */
  lemma OwnRow(s: Sys, r: Txn, a: Uuid)
    requires Own(s, r, a) && !s.runs[r].op.Create? && !s.db.projects.Owns(r, s.runs[r].op.projectId)
    ensures var op, stamp := s.runs[r].op, s.runs[r].stamp;
      var matches, change := (p: Project) => op.Matches(p), (p: Project) => op.Change(p, stamp);
      Slice(s, a).db.projects.Update(r, op.projectId, matches, change)
      == OnlyReply(s.db.projects.Update(r, op.projectId, matches, change), OwnProject(a))
  {
    var op, stamp := s.runs[r].op, s.runs[r].stamp;
    var id := op.projectId;
    if id in s.db.projects.rows && s.db.projects.rows[id].accountId == a {
      if id in s.db.projects.pending { ProjectTenant(s, id); }
      OnlyUpdate(s.db.projects, OwnProject(a), r, id, (p: Project) => op.Matches(p), (p: Project) => op.Change(p, stamp));
    } else {
      SeesOwn(s, r, a, id);
    }
  }

  lemma OwnUpdate(s: Sys, r: Txn, a: Uuid, n: Sys)
    requires Own(s, r, a) && !s.runs[r].op.Create? && !s.db.projects.Owns(r, s.runs[r].op.projectId)
    requires UpdateProject(s, r) == Some(n)
    ensures Slice(s, a).Active(r) && !Slice(s, a).runs[r].op.Create? && UpdateProject(Slice(s, a), r) == Some(Slice(n, a))
  {
    OwnActive(s, r, a);
    OwnRow(s, r, a);
    var op, stamp := s.runs[r].op, s.runs[r].stamp;
    match s.db.projects.Update(r, op.projectId, (p: Project) => op.Matches(p), (p: Project) => op.Change(p, stamp))
    case Miss => SliceLeave(s, r, if op.Retitle? then StaleVersion else NotFound, a);
    case Hit(projects, row) => SliceGo(s, r, s.db.(projects := projects), Written(row), a);
  }

  lemma OwnReplay(s: Sys, r: Txn, a: Uuid)
    requires Own(s, r, a) && s.runs[r].op.Create?
    ensures var op := s.runs[r].op;
      Slice(s, a).db.requests.Visible(r, op.ReservationKey()) == s.db.requests.Visible(r, op.ReservationKey())
  {
    ClearRequests(s, s.runs[r].op.ReservationKey());
    OnlySees(s.db.requests, OwnRequest(a), r, s.runs[r].op.ReservationKey());
  }

  /** A run about to commit holds its project, so the deferred reference is always met. */
  lemma CommitIs(s: Sys, r: Txn, outcome: Outcome)
    requires r in s.runs && s.runs[r].phase.Written?
    requires s.db.projects.Owns(r, s.runs[r].op.projectId)
    ensures var p := s.runs[r].phase.project;
      var before := if p.id in s.db.projects.rows then Some(s.db.projects.rows[p.id]) else None;
      s.Commit(r, p, outcome) == s.Go(r, s.db.Commit(r), Done(outcome)).(history := s.history + [Event(r, before, p)])
  {
  }

  lemma WrittenTenant(s: Sys, r: Txn)
    requires Reached(s) && s.Active(r) && s.runs[r].phase.Written?
    ensures var p, a := s.runs[r].phase.project, s.runs[r].op.accountId;
      && p.id == s.runs[r].op.projectId && p.accountId == a
      && s.db.projects.Owns(r, p.id) && Clear(s.db.projects, OwnProject(a), p.id)
  {
    ReachedExact(s);
    ReachedRun(s, r);
    ReachedRows(s);
    WriterTenant(s.db, s.runs[r]);
    assert HeldProject(s.runs[r]) == Some((s.runs[r].op.projectId, s.runs[r].phase.project));
  }

  lemma OwnCommit(s: Sys, r: Txn, outcome: Outcome, a: Uuid)
    requires Own(s, r, a) && s.runs[r].phase.Written?
    ensures var p := s.runs[r].phase.project;
      Slice(s, a).Active(r) && Slice(s.Commit(r, p, outcome), a) == Slice(s, a).Commit(r, p, outcome)
  {
    var p := s.runs[r].phase.project;
    var before := if p.id in s.db.projects.rows then Some(s.db.projects.rows[p.id]) else None;
    OwnActive(s, r, a);
    WrittenTenant(s, r);
    SliceCommitDb(s, r, a);
    CommitIs(s, r, outcome);
    CommitIs(Slice(s, a), r, outcome);
    SliceGo(s, r, s.db.Commit(r), Done(outcome), a);
    SliceAppend(s.history, Event(r, before, p), a);
  }

  // ---------------------------------------------------------------- statements of other accounts' runs

  ghost predicate Other(s: Sys, r: Txn, a: Uuid) {
    Reached(s) && FreshIds(s.runs) && s.Active(r) && s.runs[r].op.accountId != a
  }

  lemma OtherCommit(s: Sys, r: Txn, outcome: Outcome, a: Uuid)
    requires Other(s, r, a) && s.runs[r].phase.Written?
    ensures Slice(s.Commit(r, s.runs[r].phase.project, outcome), a) == Slice(s, a)
  {
    var p := s.runs[r].phase.project;
    var before := if p.id in s.db.projects.rows then Some(s.db.projects.rows[p.id]) else None;
    WrittenTenant(s, r);
    SliceCommitDb(s, r, a);
    CommitIs(s, r, outcome);
    SliceGo(s, r, s.db.Commit(r), Done(outcome), a);
    SliceAppend(s.history, Event(r, before, p), a);
  }

  lemma OtherReserve(s: Sys, r: Txn, a: Uuid, n: Sys)
    requires Other(s, r, a) && s.runs[r].op.Create? && Reserve(s, r) == Some(n)
    ensures Slice(n, a) == Slice(s, a)
  {
    var op := s.runs[r].op;
    ClearRequests(s, op.ReservationKey());
    match s.db.requests.Insert(r, op.ReservationKey(), op.Reservation(None))
    case Miss => SliceGo(s, r, s.db, Conflicted, a);
    case Hit(requests, _) =>
      OnlyPutOther(s.db.requests, OwnRequest(a), r, op.ReservationKey(), op.Reservation(None));
      ReservedTenant(s, r);
      match s.db.reserved.Insert(r, op.projectId, op.ReservationKey())
      case Miss => SliceLeave(s, r, Failed(Integrity), a);
      case Hit(reserved, _) =>
        OnlyPutOther(s.db.reserved, OwnId(a), r, op.projectId, op.ReservationKey());
        SliceGo(s, r, s.db.(requests := requests, reserved := reserved), Reserved, a);
  }

  /** What another account's run may write over is not this account's. */
  lemma OtherWrite(s: Sys, r: Txn, a: Uuid, p: Project, phase: Phase)
    requires Other(s, r, a) && p.accountId == s.runs[r].op.accountId && !s.db.projects.LockedFor(r, p.id)
    ensures Slice(s.Go(r, s.db.(projects := s.db.projects.Put(r, p.id, p)), phase), a) == Slice(s, a)
  {
    if p.id in s.db.projects.pending { ProjectTenant(s, p.id); }
    OnlyPutOther(s.db.projects, OwnProject(a), r, p.id, p);
    SliceGo(s, r, s.db.(projects := s.db.projects.Put(r, p.id, p)), phase, a);
  }

  lemma OtherInsert(s: Sys, r: Txn, a: Uuid, n: Sys)
    requires Other(s, r, a) && s.runs[r].op.Create? && InsertProject(s, r) == Some(n)
    ensures Slice(n, a) == Slice(s, a)
  {
    var p := s.runs[r].op.NewProject(s.runs[r].stamp);
    match s.db.projects.Insert(r, p.id, p)
    case Miss => SliceLeave(s, r, Failed(Integrity), a);
    case Hit(_, _) => OtherWrite(s, r, a, p, Added(p));
  }

  lemma OtherComplete(s: Sys, r: Txn, a: Uuid, p: Project, n: Sys)
    requires Other(s, r, a) && s.runs[r].op.Create? && Complete(s, r, p) == Some(n)
    ensures Slice(n, a) == Slice(s, a)
  {
    var k := s.runs[r].op.ReservationKey();
    ClearRequests(s, k);
    match s.db.requests.Update(r, k, (q: Request) => q.projectId == p.id, (q: Request) => q.(snapshot := Some(ToSnapshot(p))))
    case Miss => SliceLeave(s, r, Failed(NotCompleted), a);
    case Hit(requests, row) =>
      OnlyPutOther(s.db.requests, OwnRequest(a), r, k, row);
      SliceGo(s, r, s.db.(requests := requests), Written(p), a);
  }

  lemma OtherCheck(s: Sys, r: Txn, a: Uuid)
    requires Other(s, r, a) && s.runs[r].op.Retitle?
    ensures Slice(Check(s, r), a) == Slice(s, a)
  {
    match Refusal(s.runs[r].op, s.db.projects.Visible(r, s.runs[r].op.projectId))
    case Some(outcome) => SliceLeave(s, r, outcome, a);
    case None => SliceGo(s, r, s.db, Checked, a);
  }

  lemma OtherUpdate(s: Sys, r: Txn, a: Uuid, n: Sys)
    requires Other(s, r, a) && !s.runs[r].op.Create? && !s.db.projects.Owns(r, s.runs[r].op.projectId)
    requires UpdateProject(s, r) == Some(n)
    ensures Slice(n, a) == Slice(s, a)
  {
    var op, stamp := s.runs[r].op, s.runs[r].stamp;
    match s.db.projects.Update(r, op.projectId, (p: Project) => op.Matches(p), (p: Project) => op.Change(p, stamp))
    case Miss => SliceLeave(s, r, if op.Retitle? then StaleVersion else NotFound, a);
    case Hit(_, row) =>
      ReachedRows(s);
      OtherWrite(s, r, a, row, Written(row));
  }
}
