/** The lifecycle of context sources and versions, and the derived current version, over every interleaving. */
module ContextTheorems {
  import opened Wrappers
  import Machines
  import Progress
  import opened Values
  import opened Tables
  import opened Locking
  import opened ContextRuns
  import opened ContextProofs

  lemma ReachedRows(s: Sys)
    requires Reached(s)
    ensures Committed(s.db, s.projects) && StatusOk(s.db) && PointerOk(s.db, s.current)
  {
    ReachedInv(s);
  }

  // ---------------------------------------------------------------- what never changes

  /** Ready versions and deleted sources are frozen, and the pointer of a source never moves to a lower number. */
  ghost predicate Kept(s: Sys, s': Sys) {
    && (forall id :: id in s.db.versions.rows && s.db.versions.rows[id].status.Ready? ==>
          id in s'.db.versions.rows && s'.db.versions.rows[id] == s.db.versions.rows[id])
    && (forall id :: id in s.db.sources.rows && s.db.sources.rows[id].status.Deleted? ==>
          id in s'.db.sources.rows && s'.db.sources.rows[id] == s.db.sources.rows[id])
    && (forall source :: source in s.current && s.current[source] in s.db.versions.rows ==>
          source in s'.current && s'.current[source] in s'.db.versions.rows
          && s.db.versions.rows[s.current[source]].number <= s'.db.versions.rows[s'.current[source]].number)
  }

  /** A version is rewritten only while its source lives, and the source's new status says how. */
  ghost predicate RewritesUnderLiveSource(db: Db, db': Db) {
    forall id :: id in db.versions.rows && id in db'.versions.rows && db'.versions.rows[id] != db.versions.rows[id] ==>
      var source := db.versions.rows[id].sourceId;
      && !db.versions.rows[id].status.Ready?
      && source in db.sources.rows && !db.sources.rows[source].status.Deleted?
      && source in db'.sources.rows
      && ((db'.versions.rows[id].status.Ready? && db'.sources.rows[source].status.SourceReady?)
          || (db'.versions.rows[id].status.Failed? && db'.sources.rows[source].status.SourceFailed?))
  }

  lemma CommitKept(s: Sys, r: Txn, outcome: Outcome)
    requires Reached(s) && s.Active(r) && s.runs[r].phase.Written?
    ensures Kept(s, s.Commit(r, outcome)) && RewritesUnderLiveSource(s.db, s.db.Commit(r))
  {
    WrittenRun(s, r);
    PublishKept(s.db, s.db.Commit(r), s.projects, s.runs[r]);
    PointerKept(s, r, s.db.Commit(r));
  }

  lemma WrittenRun(s: Sys, r: Txn)
    requires Reached(s) && s.Active(r) && s.runs[r].phase.Written?
    ensures RunOk(s.db, s.projects, s.runs[r]) && Publishes(s.db, s.db.Commit(r), s.runs[r])
    ensures Committed(s.db, s.projects) && PointerOk(s.db, s.current)
  {
    ReachedInv(s);
    CommitEffect(s, r);
  }

  lemma PublishKept(db: Db, db': Db, projects: map<Uuid, Uuid>, run: Run)
    requires Committed(db, projects) && run.phase.Written? && RunOk(db, projects, run) && Publishes(db, db', run)
    ensures RewritesUnderLiveSource(db, db')
    ensures forall id :: id in db.versions.rows && db.versions.rows[id].status.Ready? ==>
      id in db'.versions.rows && db'.versions.rows[id] == db.versions.rows[id]
    ensures forall id :: id in db.sources.rows && db.sources.rows[id].status.Deleted? ==>
      id in db'.sources.rows && db'.sources.rows[id] == db.sources.rows[id]
  {
  }

  lemma PointerKept(s: Sys, r: Txn, db': Db)
    requires Committed(s.db, s.projects) && PointerOk(s.db, s.current) && r in s.runs && s.runs[r].phase.Written?
    requires RunOk(s.db, s.projects, s.runs[r]) && Publishes(s.db, db', s.runs[r])
    ensures forall source :: source in s.current && s.current[source] in s.db.versions.rows ==>
      source in s.Point(r) && s.Point(r)[source] in db'.versions.rows
      && s.db.versions.rows[s.current[source]].number <= db'.versions.rows[s.Point(r)[source]].number
  {
    PublishVersions(s.db, db', s.projects, s.runs[r]);
  }

  lemma NextKept(s: Sys, r: Txn, n: Sys)
    requires Reached(s) && s.Active(r) && Next(s, r) == Some(n)
    ensures Kept(s, n) && RewritesUnderLiveSource(s.db, n.db)
  {
    match s.runs[r].phase
    case Begin =>
    case Found =>
    case Marked(_) =>
    case Written(_, _) => CommitKept(s, r, Succeeded);
  }

  lemma StepKept(s: Sys, a: Action, n: Sys)
    requires Reached(s) && Step(s, a) == Some(n)
    ensures Kept(s, n) && RewritesUnderLiveSource(s.db, n.db)
  {
    match a
    case Start(_, _, _) =>
    case Advance(r) => NextKept(s, r, n);
    case Cancel(_) =>
    case LoseReply(r) => CommitKept(s, r, Error(ReplyLost));
    case AddProject(_, _) =>
  }

  /** The source a call rewrites: live, in its account and project. */
  predicate LiveSource(db: Db, op: Op) {
    op.sourceId in db.sources.rows && db.sources.rows[op.sourceId].accountId == op.accountId
    && db.sources.rows[op.sourceId].projectId == op.projectId && !db.sources.rows[op.sourceId].status.Deleted?
  }

  /** The version a call marks: not ready, and of the call's own source. */
  predicate UnfinishedVersion(db: Db, op: Op)
    requires op.Marks()
  {
    op.versionId in db.versions.rows && db.versions.rows[op.versionId].sourceId == op.sourceId
    && db.versions.rows[op.versionId].accountId == op.accountId && db.versions.rows[op.versionId].projectId == op.projectId
    && !db.versions.rows[op.versionId].status.Ready?
  }

  /** What each committing call did to the rows, field by field. */
  lemma CommitEffects(s: Sys, r: Txn)
    requires Reached(s) && s.Active(r) && s.runs[r].phase.Written?
    ensures var db, db', op, stamp := s.db, s.db.Commit(r), s.runs[r].op, s.runs[r].stamp;
      match op
      case CreateSource(account, project, id, details) =>
        && id !in db.sources.rows && project in s.projects && s.projects[project] == account
        && db'.sources.rows == db.sources.rows[id := Source(id, account, project, Uploaded, details, stamp)]
        && db'.versions.rows == db.versions.rows
      case CreateVersion(account, project, source, id, number) =>
        && id !in db.versions.rows && (source, number) !in db.numbers.rows
        && db'.versions.rows == db.versions.rows[id := Version(id, account, project, source, number, Content(None, None, None, None), Pending)]
        && db'.sources.rows == db.sources.rows
      case Complete(_, _, source, id, content) =>
        && LiveSource(db, op) && UnfinishedVersion(db, op)
        && db'.versions.rows == db.versions.rows[id := db.versions.rows[id].(content := content, status := Ready)]
        && db'.sources.rows == db.sources.rows[source := db.sources.rows[source].(status := SourceReady, updatedAt := stamp)]
      case Fail(_, _, source, id) =>
        && LiveSource(db, op) && UnfinishedVersion(db, op)
        && db'.versions.rows == db.versions.rows[id := db.versions.rows[id].(status := Failed)]
        && db'.sources.rows == db.sources.rows[source := db.sources.rows[source].(status := SourceFailed, updatedAt := stamp)]
      case Delete(_, _, source) =>
        && LiveSource(db, op) && db'.versions.rows == db.versions.rows
        && db'.sources.rows == db.sources.rows[source := db.sources.rows[source].(status := Deleted, updatedAt := stamp)]
  {
    WrittenRun(s, r);
  }

  /**
   Where each statement takes a call, by the rows as committed at that moment: it goes on exactly when its keys are free,
   its project is its account's, its source is live, its version is there to mark; and it succeeds exactly by its commit.
   */
  lemma EndsExactly(s: Sys, r: Txn, n: Sys)
    requires Reached(s) && s.Active(r) && Next(s, r) == Some(n)
    ensures var op, end := s.runs[r].op, n.runs[r].phase;
      && (end.Done? && !s.runs[r].phase.Written? ==> n.db == s.db.Rollback(r))
      && match s.runs[r].phase
         case Begin =>
           if op.CreateSource? then
             if op.sourceId !in s.db.sources.rows && op.projectId in s.projects && s.projects[op.projectId] == op.accountId
             then end.Written? else end == Done(Error(Integrity))
           else if !LiveSource(s.db, op) then end == Done(NotFound)
           else if op.Delete? then end.Written? else end.Found?
         case Found =>
           if op.CreateVersion? then
             if op.versionId !in s.db.versions.rows && (op.sourceId, op.number) !in s.db.numbers.rows && HasParent(s.db, op)
             then end.Written? else end == Done(Error(Integrity))
           else if UnfinishedVersion(s.db, op) then end.Marked? else end == Done(NotFound)
         case Marked(_) => if LiveSource(s.db, op) then end.Written? else end == Done(NotFound)
         case Written(_, _) => end == Done(Succeeded) && n.db == s.db.Commit(r)
  {
    Looks(s, r);
    if !s.runs[r].phase.Written? { LooksCommitted(s, r); }
    match s.runs[r].phase
    case Begin => BeginsExactly(s, r, n);
    case Found => FoundGoesOn(s, r, n);
    case _ =>
  }

  /** A call waits exactly while it would write a row, or take a key, that another call is writing. */
  lemma WaitsExactly(s: Sys, r: Txn)
    requires Reached(s) && s.Active(r)
    ensures var op := s.runs[r].op;
      Next(s, r).None? <==>
        match s.runs[r].phase
        case Begin => (op.CreateSource? || (op.Delete? && LiveSource(s.db, op))) && op.sourceId in s.db.sources.pending
        case Found =>
          if op.CreateVersion? then
            op.versionId in s.db.versions.pending
            || (op.versionId !in s.db.versions.rows && (op.sourceId, op.number) in s.db.numbers.pending)
          else op.Marks() && UnfinishedVersion(s.db, op) && op.versionId in s.db.versions.pending
        case Marked(_) => LiveSource(s.db, op) && op.sourceId in s.db.sources.pending
        case _ => false
  {
    Looks(s, r);
    if !s.runs[r].phase.Written? { LooksCommitted(s, r); }
    if s.runs[r].phase.Found? { HoldsNothing(s, r); }
  }

  /** A cancelled call is rolled back; one whose reply is lost has committed all the same. */
  lemma InterruptsExactly(s: Sys, r: Txn)
    requires Reached(s) && s.Active(r)
    ensures Step(s, Cancel(r)) == Some(s.Go(r, s.db.Rollback(r), Done(Error(Cancelled))))
    ensures Step(s, LoseReply(r)).Some? <==> s.runs[r].phase.Written?
    ensures s.runs[r].phase.Written? ==>
      var lost, kept := Step(s, LoseReply(r)).value, Step(s, Advance(r));
      kept.Some? && lost.db == kept.value.db && lost.current == kept.value.current && lost.runs[r].phase == Done(Error(ReplyLost))
  {
  }

  /** The source that a new version belongs to exists in its account and project. */
  predicate HasParent(db: Db, op: Op) {
    op.sourceId in db.sources.rows && db.sources.rows[op.sourceId].accountId == op.accountId
    && db.sources.rows[op.sourceId].projectId == op.projectId
  }

  lemma BeginsExactly(s: Sys, r: Txn, n: Sys)
    requires s.Active(r) && s.runs[r].phase.Begin? && Next(s, r) == Some(n) && !s.db.sources.Owns(r, s.runs[r].op.sourceId)
    ensures var op, end := s.runs[r].op, n.runs[r].phase;
      && (end.Done? ==> n.db == s.db.Rollback(r))
      && if op.CreateSource? then
           if op.sourceId !in s.db.sources.rows && op.projectId in s.projects && s.projects[op.projectId] == op.accountId
           then end.Written? else end == Done(Error(Integrity))
         else if !LiveSource(s.db, op) then end == Done(NotFound)
         else if op.Delete? then end.Written? else end.Found?
  {
  }

  lemma FoundGoesOn(s: Sys, r: Txn, n: Sys)
    requires Reached(s) && s.Active(r) && s.runs[r].phase.Found? && Next(s, r) == Some(n)
    ensures var op, end := s.runs[r].op, n.runs[r].phase;
      && (end.Done? ==> n.db == s.db.Rollback(r))
      && if op.CreateVersion? then
           if op.versionId !in s.db.versions.rows && (op.sourceId, op.number) !in s.db.numbers.rows && HasParent(s.db, op)
           then end.Written? else end == Done(Error(Integrity))
         else op.Marks() && if UnfinishedVersion(s.db, op) then end.Marked? else end == Done(NotFound)
  {
    Looks(s, r);
    HoldsNothing(s, r);
  }

  lemma HoldsNothing(s: Sys, r: Txn)
    requires Reached(s) && s.Active(r) && s.runs[r].phase.Found?
    ensures forall id :: !s.db.versions.Owns(r, id)
    ensures forall k :: !s.db.numbers.Owns(r, k)
  {
    ReachedInv(s);
    assert HeldVersion(s.runs[r]).None? && HeldNumber(s.runs[r]).None?;
  }

  /** Before it has written them, a call sees its source and its version as they are committed. */
  lemma LooksCommitted(s: Sys, r: Txn)
    requires Reached(s) && s.Active(r) && !s.runs[r].phase.Written?
    ensures !s.db.sources.Owns(r, s.runs[r].op.sourceId)
    ensures s.runs[r].op.Marks() && !s.runs[r].phase.Marked? ==> !s.db.versions.Owns(r, s.runs[r].op.versionId)
  {
    ReachedInv(s);
    assert HeldSource(s.runs[r]).None?;
    if s.runs[r].op.Marks() && !s.runs[r].phase.Marked? { assert HeldVersion(s.runs[r]).None?; }
  }

  /** The filters of the statements, read on committed rows. */
  lemma Looks(s: Sys, r: Txn)
    requires Reached(s) && s.Active(r)
    ensures var op := s.runs[r].op;
      && (op.sourceId in s.db.sources.rows && op.Live(s.db.sources.rows[op.sourceId]) <==> LiveSource(s.db, op))
      && (op.Marks() ==> (op.versionId in s.db.versions.rows && op.Markable(s.db.versions.rows[op.versionId]) <==> UnfinishedVersion(s.db, op)))
      && (s.runs[r].phase.Found? ==> op.CreateVersion? || op.Marks())
      && (s.runs[r].phase.Marked? ==> op.Marks())
  {
    ReachedInv(s);
    assert RunOk(s.db, s.projects, s.runs[r]);
  }

  /** A ready version and a deleted source never change again, and the current version never steps back. */
  lemma FrozenForever(s: Sys, trace: seq<Action>, s': Sys)
    requires Reached(s) && Execute(s, trace) == Some(s')
    ensures Kept(s, s')
  {
    forall x, a | Reached(x) && Step(x, a).Some? ensures Kept(x, Step(x, a).value) {
      StepKept(x, a, Step(x, a).value);
    }
    forall x, y, z | Kept(x, y) && Kept(y, z) ensures Kept(x, z) {
      KeptOn(x, y, z);
    }
    Machines.Carried(Step, EMPTY, Kept, s, trace, s');
  }

  lemma KeptOn(a: Sys, b: Sys, c: Sys)
    requires Kept(a, b) && Kept(b, c)
    ensures Kept(a, c)
  {
  }

  // ---------------------------------------------------------------- the derived current version

  /** A ready version of this source in this account and project. */
  predicate ReadyOf(db: Db, account: Uuid, project: Uuid, source: Uuid, id: Uuid) {
    id in db.versions.rows && db.versions.rows[id].accountId == account && db.versions.rows[id].projectId == project
    && db.versions.rows[id].sourceId == source && db.versions.rows[id].status.Ready?
  }

  predicate LiveAt(db: Db, account: Uuid, project: Uuid, source: Uuid) {
    source in db.sources.rows && db.sources.rows[source].accountId == account && db.sources.rows[source].projectId == project
    && !db.sources.rows[source].status.Deleted?
  }

  /** The query answers with a version exactly if it is a live source's ready version that no ready one outnumbers. */
  lemma CurrentExactly(db: Db, account: Uuid, project: Uuid, source: Uuid, v: Version)
    ensures IsCurrent(db, account, project, source, Some(v)) <==>
      && LiveAt(db, account, project, source)
      && (exists id :: ReadyOf(db, account, project, source, id) && db.versions.rows[id] == v)
      && (forall id :: ReadyOf(db, account, project, source, id) ==> db.versions.rows[id].number <= v.number)
    ensures IsCurrent(db, account, project, source, None) <==>
      !LiveAt(db, account, project, source) || !exists id :: ReadyOf(db, account, project, source, id)
  {
    var found := Candidates(db, account, project, source);
    assert forall id :: LiveAt(db, account, project, source) && ReadyOf(db, account, project, source, id) ==> db.versions.rows[id] in found;
    assert forall w :: w in found ==>
      LiveAt(db, account, project, source) && exists id :: ReadyOf(db, account, project, source, id) && db.versions.rows[id] == w;
  }

  /** What a cached pointer would answer. */
  function Cached(s: Sys, account: Uuid, project: Uuid, source: Uuid): Option<Version> {
    if source in s.db.sources.rows && s.db.sources.rows[source].accountId == account
       && s.db.sources.rows[source].projectId == project && !s.db.sources.rows[source].status.Deleted?
       && source in s.current && s.current[source] in s.db.versions.rows
    then Some(s.db.versions.rows[s.current[source]]) else None
  }

  /** The current-version query answers exactly what the cached pointer would, and so has one answer. */
  lemma CurrentIsCached(s: Sys, account: Uuid, project: Uuid, source: Uuid, answer: Option<Version>)
    requires Reached(s)
    ensures IsCurrent(s.db, account, project, source, answer) <==> answer == Cached(s, account, project, source)
  {
    ReachedRows(s);
    CachedIsCurrent(s, account, project, source);
    if IsCurrent(s.db, account, project, source, answer) {
      OneCurrent(s.db, s.projects, account, project, source, answer, Cached(s, account, project, source));
    }
  }

  lemma CachedIsCurrent(s: Sys, account: Uuid, project: Uuid, source: Uuid)
    requires Committed(s.db, s.projects) && PointerOk(s.db, s.current)
    ensures IsCurrent(s.db, account, project, source, Cached(s, account, project, source))
  {
    var found := Candidates(s.db, account, project, source);
    forall w | w in found
      ensures Cached(s, account, project, source).Some? && w.number <= Cached(s, account, project, source).value.number
    {
      assert HasVersion(s.db, source, w.id, Ready);
    }
    if Cached(s, account, project, source).Some? {
      var id := s.current[source];
      assert HasVersion(s.db, source, id, Ready);
      assert s.db.versions.rows[id] in found;
    }
  }

  lemma OneCurrent(db: Db, projects: map<Uuid, Uuid>, account: Uuid, project: Uuid, source: Uuid, one: Option<Version>, two: Option<Version>)
    requires Committed(db, projects)
    requires IsCurrent(db, account, project, source, one) && IsCurrent(db, account, project, source, two)
    ensures one == two
  {
    if one.Some? && two.Some? {
      assert db.versions.rows[one.value.id] == one.value && db.versions.rows[two.value.id] == two.value;
      assert db.numbers.rows[(source, one.value.number)] == one.value.id;
    }
  }

  /**
   Between two moments of a run at which a source has a current version, the number has not fallen, and the same number
   means the identical version; a deleted source has none from then on.
   */
  lemma CurrentIsMonotone(s: Sys, trace: seq<Action>, s': Sys, account: Uuid, project: Uuid, source: Uuid, v: Version, w: Option<Version>)
    requires Reached(s) && Execute(s, trace) == Some(s')
    requires IsCurrent(s.db, account, project, source, Some(v)) && IsCurrent(s'.db, account, project, source, w)
    ensures w.Some? ==> v.number <= w.value.number && (v.number == w.value.number ==> v == w.value)
    ensures w.None? <==> source in s'.db.sources.rows && s'.db.sources.rows[source].status.Deleted?
  {
    Machines.ReachableOn(Step, EMPTY, s, trace, s');
    CurrentIsCached(s, account, project, source, Some(v));
    CurrentIsCached(s', account, project, source, w);
    CachedStays(s, trace, s', source, v);
  }

  lemma CachedStays(s: Sys, trace: seq<Action>, s': Sys, source: Uuid, v: Version)
    requires Reached(s) && Reached(s') && Execute(s, trace) == Some(s')
    requires source in s.current && s.current[source] in s.db.versions.rows && s.db.versions.rows[s.current[source]] == v
    ensures source in s'.current && s'.current[source] in s'.db.versions.rows && source in s'.db.sources.rows
    ensures s'.db.sources.rows[source].accountId == v.accountId && s'.db.sources.rows[source].projectId == v.projectId
    ensures v.number <= s'.db.versions.rows[s'.current[source]].number
    ensures v.number == s'.db.versions.rows[s'.current[source]].number ==> s'.db.versions.rows[s'.current[source]] == v
  {
    FrozenForever(s, trace, s');
    ReachedRows(s);
    ReachedRows(s');
    StillThere(s, s', source, v);
  }

  lemma StillThere(s: Sys, s': Sys, source: Uuid, v: Version)
    requires Committed(s.db, s.projects) && Committed(s'.db, s'.projects) && Kept(s, s')
    requires PointerOk(s.db, s.current) && PointerOk(s'.db, s'.current)
    requires source in s.current && s.current[source] in s.db.versions.rows && s.db.versions.rows[s.current[source]] == v
    ensures source in s'.current && s'.current[source] in s'.db.versions.rows && source in s'.db.sources.rows
    ensures s'.db.sources.rows[source].accountId == v.accountId && s'.db.sources.rows[source].projectId == v.projectId
    ensures v.number <= s'.db.versions.rows[s'.current[source]].number
    ensures v.number == s'.db.versions.rows[s'.current[source]].number ==> s'.db.versions.rows[s'.current[source]] == v
  {
    assert HasVersion(s.db, source, s.current[source], Ready);
    assert HasVersion(s'.db, source, s'.current[source], Ready);
    assert s'.db.versions.rows[v.id] == v;
    assert s'.db.numbers.rows[(source, v.number)] == v.id;
  }

  /** Completing a version below the current one leaves the current version as it is. */
  lemma LowerCompletionChangesNothing(s: Sys, r: Txn, n: Sys, v: Version)
    requires Reached(s) && s.Active(r) && s.runs[r].op.Complete? && s.runs[r].phase.Written? && Step(s, Advance(r)) == Some(n)
    requires var op := s.runs[r].op;
      IsCurrent(s.db, op.accountId, op.projectId, op.sourceId, Some(v)) && s.runs[r].phase.written.Some?
      && s.runs[r].phase.written.value.number < v.number
    ensures var op := s.runs[r].op; IsCurrent(n.db, op.accountId, op.projectId, op.sourceId, Some(v))
  {
    var op := s.runs[r].op;
    CurrentIsCached(s, op.accountId, op.projectId, op.sourceId, Some(v));
    WrittenRun(s, r);
    assert n.current == s.current;
    StepKept(s, Advance(r), n);
    Machines.Single(Step, s, Advance(r));
    Machines.ReachableOn(Step, EMPTY, s, [Advance(r)], n);
    assert HasVersion(s.db, op.sourceId, s.current[op.sourceId], Ready);
    CurrentIsCached(n, op.accountId, op.projectId, op.sourceId, Some(v));
  }

  // ---------------------------------------------------------------- progress

  function Weight(p: Phase): nat {
    match p
    case Begin => 4
    case Found => 3
    case Marked(_) => 2
    case Written(_, _) => 1
    case Done(_) => 0
  }

  /** Locks are taken version first, then source, so whoever is waited for is nearer its end. */
  lemma Waits(s: Sys, r: Txn) returns (b: Txn)
    requires Locks(s) && RunsOk(s) && s.Active(r) && Next(s, r).None?
    ensures s.Active(b) && Weight(s.runs[b].phase) < Weight(s.runs[r].phase)
  {
    var op := s.runs[r].op;
    assert RunOk(s.db, s.projects, s.runs[r]);
    if s.runs[r].phase.Found? {
      if s.db.versions.LockedFor(r, op.versionId) {
        b := s.db.versions.pending[op.versionId].owner;
        Holder(s.db.versions, s.runs, HeldVersion, op.versionId);
      } else {
        b := s.db.numbers.pending[(op.sourceId, op.number)].owner;
        Holder(s.db.numbers, s.runs, HeldNumber, (op.sourceId, op.number));
      }
    } else {
      b := s.db.sources.pending[op.sourceId].owner;
      Holder(s.db.sources, s.runs, HeldSource, op.sourceId);
    }
  }

  lemma ReachedWaits(s: Sys, r: Txn) returns (b: Txn)
    requires Reached(s) && s.Active(r) && Next(s, r).None?
    ensures s.Active(b) && Weight(s.runs[b].phase) < Weight(s.runs[r].phase)
  {
    ReachedInv(s);
    b := Waits(s, r);
  }

  function Open(s: Sys): set<Txn> { set r | r in s.runs && !s.runs[r].phase.Done? }

  function Distance(s: Sys, r: Txn): nat { if r in s.runs then Weight(s.runs[r].phase) else 0 }

  const DRIVE: Progress.Drive<Sys, Action> := Progress.Drive(Step, EMPTY, Open, Distance, r => Advance(r))

  lemma NextLightens(s: Sys, r: Txn, n: Sys)
    requires s.Active(r) && Next(s, r) == Some(n)
    ensures r in n.runs && n.runs == s.runs[r := n.runs[r]] && Weight(n.runs[r].phase) < Weight(s.runs[r].phase)
  {
  }

  lemma Driven()
    ensures Progress.Sound(DRIVE)
  {
    forall s, r | Machines.Reachable(Step, EMPTY, s) && r in Open(s) ensures DRIVE.Waits(s, r) && DRIVE.Advances(s, r) {
      assert DRIVE.Next(s, r) == Next(s, r);
      match Next(s, r)
      case None =>
        var b := ReachedWaits(s, r);
        assert DRIVE.Nearer(s, b, r);
      case Some(n) => NextLightens(s, r, n);
    }
  }

  /** No deadlock: every reachable state has a schedule of statements and commits after which every call has returned. */
  lemma NoDeadlock(s: Sys) returns (trace: seq<Action>, s': Sys)
    requires Reached(s)
    ensures Execute(s, trace) == Some(s') && Reached(s') && Open(s') == {}
    ensures forall i :: 0 <= i < |trace| ==> trace[i].Advance?
  {
    Driven();
    trace, s' := Progress.FinishAll(DRIVE, s);
  }
}
