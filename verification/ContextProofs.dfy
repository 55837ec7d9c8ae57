/** What every step of the context service keeps. */
module ContextProofs {
  import opened Wrappers
  import Machines
  import opened Values
  import opened Tables
  import opened Locking
  import opened ContextRuns

  // ---------------------------------------------------------------- the invariant

  function HeldSource(run: Run): Option<(Uuid, Source)> {
    if run.phase.Written? && run.phase.source.Some? then Some((run.op.sourceId, run.phase.source.value)) else None
  }

  function HeldVersion(run: Run): Option<(Uuid, Version)> {
    if run.op.CreateSource? || run.op.Delete? then None
    else match run.phase
      case Marked(v) => Some((run.op.versionId, v))
      case Written(_, Some(v)) => Some((run.op.versionId, v))
      case _ => None
  }

  function HeldNumber(run: Run): Option<((Uuid, nat), Uuid)> {
    if run.op.CreateVersion? && run.phase.Written? then Some(((run.op.sourceId, run.op.number), run.op.versionId)) else None
  }

  ghost predicate Locks(s: Sys) {
    && Exact(s.db.sources, s.runs, HeldSource) && Exact(s.db.versions, s.runs, HeldVersion)
    && Exact(s.db.numbers, s.runs, HeldNumber)
  }

  /** The tenant of a version is its source's, the tenant of a source is its project's, and numbers are unique per source. */
  ghost predicate Committed(db: Db, projects: map<Uuid, Uuid>) {
    && (forall id :: id in db.sources.rows ==>
          var src := db.sources.rows[id];
          src.id == id && src.projectId in projects && projects[src.projectId] == src.accountId)
    && (forall id :: id in db.versions.rows ==>
          var v := db.versions.rows[id];
          && v.id == id && v.number >= 1 && (v.status.Ready? ==> v.content.Sufficient())
          && v.sourceId in db.sources.rows && db.sources.rows[v.sourceId].accountId == v.accountId
          && db.sources.rows[v.sourceId].projectId == v.projectId
          && (v.sourceId, v.number) in db.numbers.rows && db.numbers.rows[(v.sourceId, v.number)] == id)
    && (forall k :: k in db.numbers.rows ==>
          var id := db.numbers.rows[k];
          id in db.versions.rows && db.versions.rows[id].sourceId == k.0 && db.versions.rows[id].number == k.1)
  }

  predicate HasVersion(db: Db, source: Uuid, id: Uuid, status: ParseStatus) {
    id in db.versions.rows && db.versions.rows[id].sourceId == source && db.versions.rows[id].status == status
  }

  /** A ready source has a ready version, and a failed source has a version that is failed still. */
  ghost predicate StatusOk(db: Db) {
    && (forall id :: id in db.sources.rows && db.sources.rows[id].status.SourceReady? ==> exists v :: HasVersion(db, id, v, Ready))
    && (forall id :: id in db.sources.rows && db.sources.rows[id].status.SourceFailed? ==> exists v :: HasVersion(db, id, v, Failed))
  }

  /** The pointer of a source stands at its highest ready version, and is absent when there is none. */
  ghost predicate PointerOk(db: Db, current: map<Uuid, Uuid>) {
    && (forall source :: source in current ==> HasVersion(db, source, current[source], Ready))
    && (forall v, source :: HasVersion(db, source, v, Ready) ==>
          source in current && current[source] in db.versions.rows
          && db.versions.rows[v].number <= db.versions.rows[current[source]].number)
  }

  /** What a marking run has found, and still holds locked. */
  predicate MarkedFrom(db: Db, op: Op, v: Version) {
    op.Marks() && op.versionId in db.versions.rows && op.Markable(db.versions.rows[op.versionId])
    && v == op.Mark(db.versions.rows[op.versionId])
  }

  predicate StatusFrom(db: Db, op: Op, stamp: Timestamp, src: Source) {
    op.sourceId in db.sources.rows && op.Live(db.sources.rows[op.sourceId])
    && src == op.SetStatus(db.sources.rows[op.sourceId], stamp)
  }

  predicate RunOk(db: Db, projects: map<Uuid, Uuid>, run: Run) {
    && run.op.Valid()
    && match run.phase
       case Begin => true
       case Found => run.op.CreateVersion? || run.op.Marks()
       case Marked(v) => MarkedFrom(db, run.op, v)
       case Written(src, ver) => WrittenOk(db, projects, run.op, run.stamp, src, ver)
       case Done(_) => true
  }

  predicate WrittenOk(db: Db, projects: map<Uuid, Uuid>, op: Op, stamp: Timestamp, src: Option<Source>, ver: Option<Version>) {
    match op
    case CreateSource(account, project, id, _) =>
      && src == Some(op.NewSource(stamp)) && ver.None? && id !in db.sources.rows
      && project in projects && projects[project] == account
    case CreateVersion(_, _, source, id, number) =>
      src.None? && ver == Some(op.NewVersion()) && id !in db.versions.rows && (source, number) !in db.numbers.rows && ParentExists(db, op)
    case Delete(_, _, _) => src.Some? && ver.None? && StatusFrom(db, op, stamp, src.value)
    case _ => src.Some? && ver.Some? && MarkedFrom(db, op, ver.value) && StatusFrom(db, op, stamp, src.value)
  }

  ghost predicate RunsOk(s: Sys) { forall r :: r in s.runs ==> RunOk(s.db, s.projects, s.runs[r]) }

  ghost predicate Inv(s: Sys) {
    Locks(s) && Committed(s.db, s.projects) && StatusOk(s.db) && PointerOk(s.db, s.current) && RunsOk(s)
  }

  // ---------------------------------------------------------------- quiet steps

  predicate Moves(runs: map<Txn, Run>, runs': map<Txn, Run>, r: Txn) {
    r in runs' && runs' == runs[r := runs'[r]]
  }

  lemma QuietKeeps(s: Sys, s': Sys, r: Txn)
    requires Inv(s) && Moves(s.runs, s'.runs, r) && SameRows(s.db, s'.db) && s'.projects == s.projects && s'.current == s.current
    requires Locks(s') && RunOk(s'.db, s'.projects, s'.runs[r])
    ensures Inv(s')
  {
    QuietRuns(s, s', r);
    QuietRows(s.db, s'.db, s.projects, s.current);
  }

  lemma QuietRuns(s: Sys, s': Sys, r: Txn)
    requires RunsOk(s) && Moves(s.runs, s'.runs, r) && SameRows(s.db, s'.db) && s'.projects == s.projects
    requires RunOk(s'.db, s'.projects, s'.runs[r])
    ensures RunsOk(s')
  {
    forall t | t in s'.runs ensures RunOk(s'.db, s'.projects, s'.runs[t]) {
      if t != r { assert RunOk(s.db, s.projects, s.runs[t]); }
    }
  }

  lemma QuietRows(db: Db, db': Db, projects: map<Uuid, Uuid>, current: map<Uuid, Uuid>)
    requires SameRows(db, db') && Committed(db, projects) && StatusOk(db) && PointerOk(db, current)
    ensures Committed(db', projects) && StatusOk(db') && PointerOk(db', current)
  {
    assert forall id, v, status :: HasVersion(db, id, v, status) <==> HasVersion(db', id, v, status);
  }

  lemma SameLocks(s: Sys, r: Txn, phase: Phase)
    requires Locks(s) && r in s.runs && s.runs[r].phase.Begin? && phase.Found?
    ensures Locks(s.Go(r, s.db, phase))
  {
    var run' := s.runs[r].(phase := phase);
    ExactSame(s.db.sources, s.runs, HeldSource, r, run');
    ExactSame(s.db.versions, s.runs, HeldVersion, r, run');
    ExactSame(s.db.numbers, s.runs, HeldNumber, r, run');
  }

  lemma ReleaseLocks(s: Sys, r: Txn, outcome: Outcome)
    requires Locks(s) && r in s.runs
    ensures Locks(s.Leave(r, outcome)) && Locks(s.Commit(r, outcome))
  {
    var run' := s.runs[r].(phase := Done(outcome));
    ExactRelease(s.db.sources, s.runs, HeldSource, r, run');
    ExactRelease(s.db.versions, s.runs, HeldVersion, r, run');
    ExactRelease(s.db.numbers, s.runs, HeldNumber, r, run');
  }

  lemma LeaveKeeps(s: Sys, r: Txn, outcome: Outcome)
    requires Inv(s) && s.Active(r)
    ensures Inv(s.Leave(r, outcome))
  {
    ReleaseLocks(s, r, outcome);
    assert RunOk(s.db, s.projects, s.runs[r]);
    QuietKeeps(s, s.Leave(r, outcome), r);
  }

  lemma StartKeeps(s: Sys, r: Txn, op: Op, stamp: Timestamp)
    requires Inv(s) && r !in s.runs && op.Valid()
    ensures Inv(s.(runs := s.runs[r := Run(op, stamp, Begin)]))
  {
    var run' := Run(op, stamp, Begin);
    ExactOpen(s.db.sources, s.runs, HeldSource, r, run');
    ExactOpen(s.db.versions, s.runs, HeldVersion, r, run');
    ExactOpen(s.db.numbers, s.runs, HeldNumber, r, run');
    QuietKeeps(s, s.(runs := s.runs[r := run']), r);
  }

  lemma AddProjectKeeps(s: Sys, id: Uuid, account: Uuid)
    requires Inv(s) && id !in s.projects
    ensures Inv(s.(projects := s.projects[id := account]))
  {
    var s' := s.(projects := s.projects[id := account]);
    forall t | t in s'.runs ensures RunOk(s'.db, s'.projects, s'.runs[t]) {
      assert RunOk(s.db, s.projects, s.runs[t]);
    }
  }

  lemma InsertSourceKeeps(s: Sys, r: Txn)
    requires Inv(s) && s.Active(r) && s.runs[r].op.CreateSource? && s.runs[r].phase.Begin?
    ensures var n := InsertSource(s, r); n.Some? ==> Inv(n.value)
  {
    var run := s.runs[r];
    var op, row := run.op, run.op.NewSource(run.stamp);
    assert RunOk(s.db, s.projects, run);
    match InsertSource(s, r)
    case None =>
    case Some(n) =>
      if n.runs[r].phase.Done? {
        LeaveKeeps(s, r, Error(Integrity));
      } else {
        var run' := run.(phase := Written(Some(row), None));
        ExactPut(s.db.sources, s.runs, HeldSource, r, run', op.sourceId, row);
        ExactSame(s.db.versions, s.runs, HeldVersion, r, run');
        ExactSame(s.db.numbers, s.runs, HeldNumber, r, run');
        QuietKeeps(s, n, r);
      }
  }

  lemma RequireSourceKeeps(s: Sys, r: Txn)
    requires Inv(s) && s.Active(r) && s.runs[r].phase.Begin? && !s.runs[r].op.CreateSource? && !s.runs[r].op.Delete?
    ensures Inv(RequireSource(s, r))
  {
    assert RunOk(s.db, s.projects, s.runs[r]);
    if RequireSource(s, r).runs[r].phase.Done? {
      LeaveKeeps(s, r, NotFound);
    } else {
      SameLocks(s, r, Found);
      QuietKeeps(s, s.Go(r, s.db, Found), r);
    }
  }

  lemma InsertVersionLocks(s: Sys, r: Txn)
    requires Locks(s) && s.Active(r) && s.runs[r].op.CreateVersion? && s.runs[r].phase.Found?
    requires var op := s.runs[r].op;
      !s.db.versions.LockedFor(r, op.versionId) && !s.db.numbers.LockedFor(r, (op.sourceId, op.number))
    ensures var op, row := s.runs[r].op, s.runs[r].op.NewVersion();
      Locks(s.Go(r, s.db.(versions := s.db.versions.Put(r, op.versionId, row),
                          numbers := s.db.numbers.Put(r, (op.sourceId, op.number), op.versionId)), Written(None, Some(row))))
  {
    var op, row := s.runs[r].op, s.runs[r].op.NewVersion();
    var run' := s.runs[r].(phase := Written(None, Some(row)));
    ExactSame(s.db.sources, s.runs, HeldSource, r, run');
    ExactPut(s.db.versions, s.runs, HeldVersion, r, run', op.versionId, row);
    ExactPut(s.db.numbers, s.runs, HeldNumber, r, run', (op.sourceId, op.number), op.versionId);
  }

  lemma InsertVersionKeeps(s: Sys, r: Txn)
    requires Inv(s) && s.Active(r) && s.runs[r].op.CreateVersion? && s.runs[r].phase.Found?
    ensures var n := InsertVersion(s, r); n.Some? ==> Inv(n.value)
  {
    var run := s.runs[r];
    var op, row := run.op, run.op.NewVersion();
    assert RunOk(s.db, s.projects, run);
    match InsertVersion(s, r)
    case None =>
    case Some(n) =>
      if n.runs[r].phase.Done? {
        LeaveKeeps(s, r, Error(Integrity));
      } else {
        InsertVersionLocks(s, r);
        QuietKeeps(s, n, r);
      }
  }

  lemma MarkVersionKeeps(s: Sys, r: Txn)
    requires Inv(s) && s.Active(r) && s.runs[r].op.Marks() && s.runs[r].phase.Found?
    ensures var n := MarkVersion(s, r); n.Some? ==> Inv(n.value)
  {
    var run := s.runs[r];
    var op := run.op;
    assert RunOk(s.db, s.projects, run);
    assert !s.db.versions.Owns(r, op.versionId);
    match MarkVersion(s, r)
    case None =>
    case Some(n) =>
      if n.runs[r].phase.Done? {
        LeaveKeeps(s, r, NotFound);
      } else {
        var row := op.Mark(s.db.versions.rows[op.versionId]);
        var run' := run.(phase := Marked(row));
        ExactSame(s.db.sources, s.runs, HeldSource, r, run');
        ExactPut(s.db.versions, s.runs, HeldVersion, r, run', op.versionId, row);
        ExactSame(s.db.numbers, s.runs, HeldNumber, r, run');
        QuietKeeps(s, n, r);
      }
  }

  lemma SetSourceStatusLocks(s: Sys, r: Txn, marked: Option<Version>, row: Source)
    requires Locks(s) && s.Active(r) && !s.db.sources.LockedFor(r, s.runs[r].op.sourceId)
    requires if marked.Some? then s.runs[r].op.Marks() && s.runs[r].phase == Marked(marked.value)
             else s.runs[r].op.Delete? && s.runs[r].phase.Begin?
    ensures Locks(s.Go(r, s.db.(sources := s.db.sources.Put(r, s.runs[r].op.sourceId, row)), Written(Some(row), marked)))
  {
    var run' := s.runs[r].(phase := Written(Some(row), marked));
    ExactPut(s.db.sources, s.runs, HeldSource, r, run', run'.op.sourceId, row);
    ExactSame(s.db.versions, s.runs, HeldVersion, r, run');
    ExactSame(s.db.numbers, s.runs, HeldNumber, r, run');
  }

  lemma SetSourceStatusKeeps(s: Sys, r: Txn, marked: Option<Version>)
    requires Inv(s) && s.Active(r)
    requires if marked.Some? then s.runs[r].phase == Marked(marked.value) else s.runs[r].op.Delete? && s.runs[r].phase.Begin?
    ensures var n := SetSourceStatus(s, r, marked); n.Some? ==> Inv(n.value)
  {
    var run := s.runs[r];
    var op := run.op;
    assert RunOk(s.db, s.projects, run);
    assert !s.db.sources.Owns(r, op.sourceId);
    match SetSourceStatus(s, r, marked)
    case None =>
    case Some(n) =>
      if n.runs[r].phase.Done? {
        LeaveKeeps(s, r, NotFound);
      } else {
        SetSourceStatusLocks(s, r, marked, op.SetStatus(s.db.sources.rows[op.sourceId], run.stamp));
        QuietKeeps(s, n, r);
      }
  }

  // ---------------------------------------------------------------- commit

  /** What a commit does to the rows: the source and the version the run has written, if any. */
  predicate Publishes(db: Db, db': Db, run: Run)
    requires run.phase.Written?
  {
    var op := run.op;
    && db'.sources.rows == (if run.phase.source.Some? then db.sources.rows[op.sourceId := run.phase.source.value] else db.sources.rows)
    && db'.versions.rows == (if HeldVersion(run).Some? then db.versions.rows[op.versionId := HeldVersion(run).value.1] else db.versions.rows)
    && db'.numbers.rows == (if op.CreateVersion? then db.numbers.rows[(op.sourceId, op.number) := op.versionId] else db.numbers.rows)
  }

  lemma CommitSources(s: Sys, r: Txn)
    requires Exact(s.db.sources, s.runs, HeldSource) && r in s.runs && s.runs[r].phase.Written?
    ensures s.db.Commit(r).sources.rows ==
      if s.runs[r].phase.source.Some? then s.db.sources.rows[s.runs[r].op.sourceId := s.runs[r].phase.source.value] else s.db.sources.rows
  {
    CommitHeld(s.db.sources, s.runs, HeldSource, r);
  }

  lemma CommitVersions(s: Sys, r: Txn)
    requires Exact(s.db.versions, s.runs, HeldVersion) && r in s.runs && s.runs[r].phase.Written?
    ensures s.db.Commit(r).versions.rows ==
      if HeldVersion(s.runs[r]).Some? then s.db.versions.rows[s.runs[r].op.versionId := HeldVersion(s.runs[r]).value.1] else s.db.versions.rows
  {
    CommitHeld(s.db.versions, s.runs, HeldVersion, r);
  }

  lemma CommitEffect(s: Sys, r: Txn)
    requires Locks(s) && r in s.runs && s.runs[r].phase.Written?
    ensures Publishes(s.db, s.db.Commit(r), s.runs[r])
  {
    CommitSources(s, r);
    CommitVersions(s, r);
    CommitHeld(s.db.numbers, s.runs, HeldNumber, r);
  }

  /** A run about to commit leaves the tenant and the key of every row it rewrites alone. */
  lemma PublishVersions(db: Db, db': Db, projects: map<Uuid, Uuid>, run: Run)
    requires Committed(db, projects) && run.phase.Written? && RunOk(db, projects, run) && Publishes(db, db', run)
    ensures forall id :: id in db.versions.rows ==>
      id in db'.versions.rows && db'.versions.rows[id].sourceId == db.versions.rows[id].sourceId
      && db'.versions.rows[id].number == db.versions.rows[id].number
    ensures forall id :: id in db.sources.rows ==>
      id in db'.sources.rows && db'.sources.rows[id].accountId == db.sources.rows[id].accountId
      && db'.sources.rows[id].projectId == db.sources.rows[id].projectId
    ensures forall id :: id in db'.versions.rows ==>
      var v := db'.versions.rows[id];
      && v.id == id && v.number >= 1 && (v.status.Ready? ==> v.content.Sufficient())
      && v.sourceId in db'.sources.rows && db'.sources.rows[v.sourceId].accountId == v.accountId
      && db'.sources.rows[v.sourceId].projectId == v.projectId
  {
  }

  lemma PublishCommitted(db: Db, db': Db, projects: map<Uuid, Uuid>, run: Run)
    requires Committed(db, projects) && run.phase.Written? && RunOk(db, projects, run) && Publishes(db, db', run)
    ensures Committed(db', projects)
  {
    PublishVersions(db, db', projects, run);
    if run.op.CreateVersion? {
      PublishNumber(db, db', projects, run);
    }
  }

  lemma PublishNumber(db: Db, db': Db, projects: map<Uuid, Uuid>, run: Run)
    requires Committed(db, projects) && run.phase.Written? && RunOk(db, projects, run) && Publishes(db, db', run)
    requires run.op.CreateVersion?
    ensures Committed(db', projects)
  {
  }

  /** Only a completion or a failure changes an existing version, and it sets the status of that version's source too. */
  lemma PublishStatus(db: Db, db': Db, projects: map<Uuid, Uuid>, run: Run)
    requires Committed(db, projects) && StatusOk(db) && run.phase.Written? && RunOk(db, projects, run) && Publishes(db, db', run)
    ensures StatusOk(db')
  {
    var op := run.op;
    forall id | id in db'.sources.rows && db'.sources.rows[id].status.SourceReady?
      ensures exists v :: HasVersion(db', id, v, Ready)
    {
      if op.Marks() && id == op.sourceId {
        assert HasVersion(db', id, op.versionId, Ready);
      } else {
        var v :| HasVersion(db, id, v, Ready);
        assert HasVersion(db', id, v, Ready);
      }
    }
    forall id | id in db'.sources.rows && db'.sources.rows[id].status.SourceFailed?
      ensures exists v :: HasVersion(db', id, v, Failed)
    {
      if op.Marks() && id == op.sourceId {
        assert HasVersion(db', id, op.versionId, Failed);
      } else {
        var v :| HasVersion(db, id, v, Failed);
        assert HasVersion(db', id, v, Failed);
      }
    }
  }

  /** A ready version is never rewritten, and only a completion makes one. */
  lemma PublishReady(db: Db, db': Db, projects: map<Uuid, Uuid>, run: Run)
    requires Committed(db, projects) && run.phase.Written? && RunOk(db, projects, run) && Publishes(db, db', run)
    ensures forall source, v :: HasVersion(db, source, v, Ready) ==> v in db'.versions.rows && db'.versions.rows[v] == db.versions.rows[v]
    ensures forall source, v :: HasVersion(db', source, v, Ready) && !HasVersion(db, source, v, Ready) ==>
      run.op.Complete? && v == run.op.versionId && source == run.op.sourceId
    ensures run.op.Complete? ==>
      HasVersion(db', run.op.sourceId, run.op.versionId, Ready) && run.op.versionId in db.versions.rows
      && db'.versions.rows[run.op.versionId].number == db.versions.rows[run.op.versionId].number
  {
  }

  lemma PublishPointer(s: Sys, r: Txn, db': Db)
    requires Committed(s.db, s.projects) && PointerOk(s.db, s.current) && r in s.runs && s.runs[r].phase.Written?
    requires RunOk(s.db, s.projects, s.runs[r]) && Publishes(s.db, db', s.runs[r])
    ensures PointerOk(db', s.Point(r))
  {
    PublishReady(s.db, db', s.projects, s.runs[r]);
    MovePointer(s.db, db', s.current, s.Point(r), s.runs[r].op);
  }

  lemma MovePointer(db: Db, db': Db, current: map<Uuid, Uuid>, current': map<Uuid, Uuid>, op: Op)
    requires PointerOk(db, current)
    requires forall source, v :: HasVersion(db, source, v, Ready) ==> v in db'.versions.rows && db'.versions.rows[v] == db.versions.rows[v]
    requires forall source, v :: HasVersion(db', source, v, Ready) && !HasVersion(db, source, v, Ready) ==>
      op.Complete? && v == op.versionId && source == op.sourceId
    requires if op.Complete? then
        && HasVersion(db', op.sourceId, op.versionId, Ready)
        && var number := db'.versions.rows[op.versionId].number;
           current' == (if op.sourceId in current && current[op.sourceId] in db.versions.rows
                           && db.versions.rows[current[op.sourceId]].number > number
                        then current else current[op.sourceId := op.versionId])
      else current' == current
    ensures PointerOk(db', current')
  {
    forall source | source in current' ensures HasVersion(db', source, current'[source], Ready) {
      if current' == current || source != op.sourceId {
        assert HasVersion(db, source, current[source], Ready);
      }
    }
    forall v, source | HasVersion(db', source, v, Ready)
      ensures source in current' && current'[source] in db'.versions.rows
      ensures db'.versions.rows[v].number <= db'.versions.rows[current'[source]].number
    {
      if HasVersion(db, source, v, Ready) {
        assert HasVersion(db, source, current[source], Ready);
      } else if source in current {
        assert HasVersion(db, source, current[source], Ready);
      }
    }
  }

  lemma PublishRun(db: Db, db': Db, projects: map<Uuid, Uuid>, run: Run, other: Run)
    requires Committed(db, projects) && RunOk(db, projects, run) && RunOk(db, projects, other)
    requires run.phase.Written? && Publishes(db, db', run)
    requires HeldSource(run).Some? && HeldSource(other).Some? ==> run.op.sourceId != other.op.sourceId
    requires HeldVersion(run).Some? && HeldVersion(other).Some? ==> run.op.versionId != other.op.versionId
    requires HeldNumber(run).Some? && HeldNumber(other).Some? ==> (run.op.sourceId, run.op.number) != (other.op.sourceId, other.op.number)
    ensures RunOk(db', projects, other)
  {
  }

  lemma PublishRuns(s: Sys, s': Sys, r: Txn)
    requires Locks(s) && Committed(s.db, s.projects) && RunsOk(s) && r in s.runs && s.runs[r].phase.Written?
    requires Publishes(s.db, s'.db, s.runs[r]) && s'.projects == s.projects
    requires Moves(s.runs, s'.runs, r) && RunOk(s'.db, s'.projects, s'.runs[r])
    ensures RunsOk(s')
  {
    forall t | t in s'.runs ensures RunOk(s'.db, s'.projects, s'.runs[t]) {
      if t != r {
        if HeldSource(s.runs[r]).Some? && HeldSource(s.runs[t]).Some? { HeldApart(s.db.sources, s.runs, HeldSource, r, t); }
        if HeldVersion(s.runs[r]).Some? && HeldVersion(s.runs[t]).Some? { HeldApart(s.db.versions, s.runs, HeldVersion, r, t); }
        if HeldNumber(s.runs[r]).Some? && HeldNumber(s.runs[t]).Some? { HeldApart(s.db.numbers, s.runs, HeldNumber, r, t); }
        assert RunOk(s.db, s.projects, s.runs[r]) && RunOk(s.db, s.projects, s.runs[t]);
        PublishRun(s.db, s'.db, s.projects, s.runs[r], s.runs[t]);
      }
    }
  }

  lemma CommitKeeps(s: Sys, r: Txn, outcome: Outcome)
    requires Inv(s) && s.Active(r) && s.runs[r].phase.Written?
    ensures Inv(s.Commit(r, outcome))
  {
    var s' := s.Commit(r, outcome);
    assert RunOk(s.db, s.projects, s.runs[r]);
    ReleaseLocks(s, r, outcome);
    CommitEffect(s, r);
    PublishCommitted(s.db, s'.db, s.projects, s.runs[r]);
    PublishStatus(s.db, s'.db, s.projects, s.runs[r]);
    PublishPointer(s, r, s'.db);
    PublishRuns(s, s', r);
  }

  // ---------------------------------------------------------------- every run of the system

  lemma NextKeeps(s: Sys, r: Txn)
    requires Inv(s) && s.Active(r)
    ensures var n := Next(s, r); n.Some? ==> Inv(n.value)
  {
    assert RunOk(s.db, s.projects, s.runs[r]);
    match s.runs[r].phase
    case Begin =>
      if s.runs[r].op.CreateSource? { InsertSourceKeeps(s, r); }
      else if s.runs[r].op.Delete? { SetSourceStatusKeeps(s, r, None); }
      else { RequireSourceKeeps(s, r); }
    case Found => if s.runs[r].op.CreateVersion? { InsertVersionKeeps(s, r); } else { MarkVersionKeeps(s, r); }
    case Marked(v) => SetSourceStatusKeeps(s, r, Some(v));
    case Written(_, _) => CommitKeeps(s, r, Succeeded);
  }

  lemma StepKeeps(s: Sys, a: Action)
    requires Inv(s)
    ensures var n := Step(s, a); n.Some? ==> Inv(n.value)
  {
    match a
    case Start(r, op, stamp) => if r !in s.runs && op.Valid() { StartKeeps(s, r, op, stamp); }
    case Advance(r) => if s.Active(r) { NextKeeps(s, r); }
    case Cancel(r) => if s.Active(r) { LeaveKeeps(s, r, Error(Cancelled)); }
    case LoseReply(r) => if s.Active(r) && s.runs[r].phase.Written? { CommitKeeps(s, r, Error(ReplyLost)); }
    case AddProject(id, account) => if id !in s.projects { AddProjectKeeps(s, id, account); }
  }

  /** Some run of the system, from empty tables, ends in this state. */
  ghost predicate Reached(s: Sys) { Machines.Reachable(Step, EMPTY, s) }

  lemma ReachedInv(s: Sys)
    requires Reached(s)
    ensures Inv(s)
  {
    var trace :| Machines.Execute(Step, EMPTY, trace) == Some(s);
    forall x, a | Inv(x) && Step(x, a).Some? ensures Inv(Step(x, a).value) {
      StepKeeps(x, a);
    }
    Machines.Invariant(Step, Inv, EMPTY, trace, s);
  }
}
