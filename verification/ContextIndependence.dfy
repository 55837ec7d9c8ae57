/** In the context service, too, one account's part of any run is a run of its own. */
module ContextIndependence {
  import opened Wrappers
  import Machines
  import opened Values
  import opened Tables
  import opened Locking
  import opened Slices
  import opened ContextRuns
  import opened ContextProofs
  import opened ContextTheorems
  import opened ContextSlices

  // ---------------------------------------------------------------- statements of the account's own calls

  ghost predicate Own(s: Sys, r: Txn, a: Uuid, own: set<Uuid>) {
    Sound(s, a, own) && s.Active(r) && s.runs[r].op.accountId == a
  }

  lemma OwnActive(s: Sys, r: Txn, a: Uuid, own: set<Uuid>)
    requires Own(s, r, a, own)
    ensures Slice(s, a, own).Active(r) && Slice(s, a, own).runs[r] == s.runs[r]
  {
  }

  lemma OwnInsertSource(s: Sys, r: Txn, a: Uuid, own: set<Uuid>, n: Sys)
    requires Own(s, r, a, own) && s.runs[r].op.CreateSource? && InsertSource(s, r) == Some(n)
    ensures Slice(s, a, own).Active(r) && Slice(s, a, own).runs[r].op.CreateSource?
    ensures InsertSource(Slice(s, a, own), r) == Some(Slice(n, a, own))
  {
    OwnActive(s, r, a, own);
    NewSourceClear(s, r);
    var op, row := s.runs[r].op, s.runs[r].op.NewSource(s.runs[r].stamp);
    OnlyInsert(s.db.sources, OwnSource(a), r, op.sourceId, row);
    SliceLeave(s, r, Error(Integrity), a, own);
    match s.db.sources.Insert(r, op.sourceId, row)
    case Miss =>
    case Hit(sources, _) => SliceGo(s, r, s.db.(sources := sources), Written(Some(row), None), a, own);
  }

  /** A call that has written no source sees one in the slice exactly when it is the account's. */
  lemma SeesOwn(s: Sys, r: Txn, a: Uuid, own: set<Uuid>, id: Uuid)
    requires Own(s, r, a, own) && !s.db.sources.Owns(r, id)
    ensures var seen := s.db.sources.Visible(r, id);
      Slice(s, a, own).db.sources.Visible(r, id) == if seen.Some? && seen.value.accountId == a then seen else None
  {
  }

  lemma OwnRequire(s: Sys, r: Txn, a: Uuid, own: set<Uuid>)
    requires Own(s, r, a, own) && !s.db.sources.Owns(r, s.runs[r].op.sourceId)
    ensures Slice(s, a, own).Active(r) && RequireSource(Slice(s, a, own), r) == Slice(RequireSource(s, r), a, own)
  {
    OwnActive(s, r, a, own);
    SeesOwn(s, r, a, own, s.runs[r].op.sourceId);
    SliceGo(s, r, s.db, Found, a, own);
    SliceLeave(s, r, NotFound, a, own);
  }

  lemma OwnParent(s: Sys, r: Txn, a: Uuid, own: set<Uuid>)
    requires Own(s, r, a, own)
    ensures ParentExists(SliceDb(s.db, a, own), s.runs[r].op) == ParentExists(s.db, s.runs[r].op)
  {
  }

  lemma ClearNumbers(db: Db, own: set<Uuid>, k: (Uuid, nat))
    requires k.0 in own
    ensures Clear(db.numbers, OwnNumber(own), k)
  {
  }

  lemma FoundInOwn(s: Sys, r: Txn, a: Uuid, own: set<Uuid>)
    requires Own(s, r, a, own) && s.runs[r].phase.Found?
    ensures s.runs[r].op.sourceId in own
  {
    ReachedOrigins(s);
  }

  lemma OwnInsertVersion(s: Sys, r: Txn, a: Uuid, own: set<Uuid>, n: Sys)
    requires Own(s, r, a, own) && s.runs[r].op.CreateVersion? && s.runs[r].phase.Found? && InsertVersion(s, r) == Some(n)
    ensures Slice(s, a, own).Active(r) && Slice(s, a, own).runs[r].op.CreateVersion?
    ensures InsertVersion(Slice(s, a, own), r) == Some(Slice(n, a, own))
  {
    OwnActive(s, r, a, own);
    NewVersionClear(s, r);
    FoundInOwn(s, r, a, own);
    OwnParent(s, r, a, own);
    var op, row := s.runs[r].op, s.runs[r].op.NewVersion();
    var k := (op.sourceId, op.number);
    OnlyInsert(s.db.versions, OwnVersion(a), r, op.versionId, row);
    ClearNumbers(s.db, own, k);
    OnlyInsert(s.db.numbers, OwnNumber(own), r, k, op.versionId);
    SliceLeave(s, r, Error(Integrity), a, own);
    match s.db.versions.Insert(r, op.versionId, row)
    case Miss =>
    case Hit(versions, _) =>
      match s.db.numbers.Insert(r, k, op.versionId)
      case Miss =>
      case Hit(numbers, _) => SliceGo(s, r, s.db.(versions := versions, numbers := numbers), Written(None, Some(row)), a, own);
  }

  /** A marking update finds the same version in the slice, or none on both sides. */
  lemma OwnVersionRow(s: Sys, r: Txn, a: Uuid, own: set<Uuid>)
    requires Own(s, r, a, own) && s.runs[r].op.Marks() && !s.db.versions.Owns(r, s.runs[r].op.versionId)
    ensures var op := s.runs[r].op;
      var matches, change := (v: Version) => op.Markable(v), (v: Version) => op.Mark(v);
      Slice(s, a, own).db.versions.Update(r, op.versionId, matches, change)
      == OnlyReply(s.db.versions.Update(r, op.versionId, matches, change), OwnVersion(a))
  {
    var op := s.runs[r].op;
    var id := op.versionId;
    if id in s.db.versions.rows && s.db.versions.rows[id].accountId == a {
      if id in s.db.versions.pending { var u := VersionTenant(s, id); }
      OnlyUpdate(s.db.versions, OwnVersion(a), r, id, (v: Version) => op.Markable(v), (v: Version) => op.Mark(v));
    }
  }

  lemma OwnMark(s: Sys, r: Txn, a: Uuid, own: set<Uuid>, n: Sys)
    requires Own(s, r, a, own) && s.runs[r].op.Marks() && !s.db.versions.Owns(r, s.runs[r].op.versionId)
    requires MarkVersion(s, r) == Some(n)
    ensures Slice(s, a, own).Active(r) && Slice(s, a, own).runs[r].op.Marks()
    ensures MarkVersion(Slice(s, a, own), r) == Some(Slice(n, a, own))
  {
    OwnActive(s, r, a, own);
    OwnVersionRow(s, r, a, own);
    var op := s.runs[r].op;
    match s.db.versions.Update(r, op.versionId, (v: Version) => op.Markable(v), (v: Version) => op.Mark(v))
    case Miss => SliceLeave(s, r, NotFound, a, own);
    case Hit(versions, row) => SliceGo(s, r, s.db.(versions := versions), Marked(row), a, own);
  }

  lemma OwnSourceRow(s: Sys, r: Txn, a: Uuid, own: set<Uuid>)
    requires Own(s, r, a, own) && !s.db.sources.Owns(r, s.runs[r].op.sourceId)
    ensures var op, stamp := s.runs[r].op, s.runs[r].stamp;
      var matches, change := (src: Source) => op.Live(src), (src: Source) => op.SetStatus(src, stamp);
      Slice(s, a, own).db.sources.Update(r, op.sourceId, matches, change)
      == OnlyReply(s.db.sources.Update(r, op.sourceId, matches, change), OwnSource(a))
  {
    var op, stamp := s.runs[r].op, s.runs[r].stamp;
    var id := op.sourceId;
    if id in s.db.sources.rows && s.db.sources.rows[id].accountId == a {
      if id in s.db.sources.pending { var u := SourceTenant(s, id); }
      OnlyUpdate(s.db.sources, OwnSource(a), r, id, (src: Source) => op.Live(src), (src: Source) => op.SetStatus(src, stamp));
    }
  }

  lemma OwnSetStatus(s: Sys, r: Txn, a: Uuid, own: set<Uuid>, marked: Option<Version>, n: Sys)
    requires Own(s, r, a, own) && !s.db.sources.Owns(r, s.runs[r].op.sourceId) && SetSourceStatus(s, r, marked) == Some(n)
    ensures Slice(s, a, own).Active(r) && SetSourceStatus(Slice(s, a, own), r, marked) == Some(Slice(n, a, own))
  {
    OwnActive(s, r, a, own);
    OwnSourceRow(s, r, a, own);
    var op, stamp := s.runs[r].op, s.runs[r].stamp;
    match s.db.sources.Update(r, op.sourceId, (src: Source) => op.Live(src), (src: Source) => op.SetStatus(src, stamp))
    case Miss => SliceLeave(s, r, NotFound, a, own);
    case Hit(sources, row) => SliceGo(s, r, s.db.(sources := sources), Written(Some(row), marked), a, own);
  }

  // ---------------------------------------------------------------- the pointer

  /** What a completing call is about to publish: a version of its own account's, under its own source. */
  lemma CompleteTenant(s: Sys, r: Txn)
    requires Reached(s) && s.Active(r) && s.runs[r].op.Complete? && s.runs[r].phase.Written?
    ensures var op := s.runs[r].op;
      && op.versionId in s.db.versions.rows && s.db.versions.rows[op.versionId].accountId == op.accountId
      && TenantOf(s.db, op.sourceId, op.accountId)
  {
    ReachedRun(s, r);
  }

  lemma PointedTenant(s: Sys, source: Uuid, a: Uuid)
    requires Reached(s) && TenantOf(s.db, source, a) && source in s.current
    ensures s.current[source] in s.db.versions.rows && s.db.versions.rows[s.current[source]].accountId == a
  {
    ReachedRows(s);
    assert HasVersion(s.db, source, s.current[source], Ready);
  }

  lemma OwnHigher(s: Sys, a: Uuid, own: set<Uuid>, source: Uuid, number: nat)
    requires Sound(s, a, own) && TenantOf(s.db, source, a)
    ensures Slice(s, a, own).Higher(source, number) == s.Higher(source, number)
  {
    if source in s.current { PointedTenant(s, source, a); }
  }

  lemma SliceCurrentSet(current: map<Uuid, Uuid>, own: set<Uuid>, source: Uuid, version: Uuid)
    ensures source in own ==> SliceCurrent(current[source := version], own) == SliceCurrent(current, own)[source := version]
    ensures source !in own ==> SliceCurrent(current[source := version], own) == SliceCurrent(current, own)
  {
  }

  lemma OwnPoint(s: Sys, r: Txn, a: Uuid, own: set<Uuid>)
    requires Own(s, r, a, own) && s.runs[r].phase.Written?
    ensures Slice(s, a, own).Active(r) && SliceCurrent(s.Point(r), own) == Slice(s, a, own).Point(r)
  {
    OwnActive(s, r, a, own);
    var op := s.runs[r].op;
    if op.Complete? {
      CompleteTenant(s, r);
      OwnHigher(s, a, own, op.sourceId, s.db.versions.rows[op.versionId].number);
      SliceCurrentSet(s.current, own, op.sourceId, op.versionId);
    }
  }

  lemma OtherPoint(s: Sys, r: Txn, a: Uuid, own: set<Uuid>)
    requires Sound(s, a, own) && s.Active(r) && s.runs[r].op.accountId != a && s.runs[r].phase.Written?
    ensures SliceCurrent(s.Point(r), own) == SliceCurrent(s.current, own)
  {
    var op := s.runs[r].op;
    if op.Complete? {
      CompleteTenant(s, r);
      SliceCurrentSet(s.current, own, op.sourceId, op.versionId);
    }
  }

  lemma OwnCommit(s: Sys, r: Txn, outcome: Outcome, a: Uuid, own: set<Uuid>)
    requires Own(s, r, a, own) && s.runs[r].phase.Written?
    ensures Slice(s, a, own).Active(r) && Slice(s.Commit(r, outcome), a, own) == Slice(s, a, own).Commit(r, outcome)
  {
    OwnPoint(s, r, a, own);
    SliceCommitDb(s, r, a, own);
    SliceGo(s, r, s.db.Commit(r), Done(outcome), a, own);
  }

  // ---------------------------------------------------------------- statements of other accounts' calls

  ghost predicate Other(s: Sys, r: Txn, a: Uuid, own: set<Uuid>) {
    Sound(s, a, own) && s.Active(r) && s.runs[r].op.accountId != a
  }

  lemma OtherCommit(s: Sys, r: Txn, outcome: Outcome, a: Uuid, own: set<Uuid>)
    requires Other(s, r, a, own) && s.runs[r].phase.Written?
    ensures Slice(s.Commit(r, outcome), a, own) == Slice(s, a, own)
  {
    OtherPoint(s, r, a, own);
    SliceCommitDb(s, r, a, own);
    SliceGo(s, r, s.db.Commit(r), Done(outcome), a, own);
  }

  lemma OtherSourceWrite(s: Sys, r: Txn, a: Uuid, own: set<Uuid>, src: Source, phase: Phase)
    requires Other(s, r, a, own) && src.accountId == s.runs[r].op.accountId && !s.db.sources.LockedFor(r, src.id)
    ensures Slice(s.Go(r, s.db.(sources := s.db.sources.Put(r, src.id, src)), phase), a, own) == Slice(s, a, own)
  {
    if src.id in s.db.sources.pending { var u := SourceTenant(s, src.id); }
    OnlyPutOther(s.db.sources, OwnSource(a), r, src.id, src);
    SliceGo(s, r, s.db.(sources := s.db.sources.Put(r, src.id, src)), phase, a, own);
  }

  lemma OtherInsertSource(s: Sys, r: Txn, a: Uuid, own: set<Uuid>, n: Sys)
    requires Other(s, r, a, own) && s.runs[r].op.CreateSource? && InsertSource(s, r) == Some(n)
    ensures Slice(n, a, own) == Slice(s, a, own)
  {
    var op, row := s.runs[r].op, s.runs[r].op.NewSource(s.runs[r].stamp);
    SliceLeave(s, r, Error(Integrity), a, own);
    match s.db.sources.Insert(r, op.sourceId, row)
    case Miss =>
    case Hit(_, _) => OtherSourceWrite(s, r, a, own, row, Written(Some(row), None));
  }

  lemma OtherRequire(s: Sys, r: Txn, a: Uuid, own: set<Uuid>)
    requires Other(s, r, a, own)
    ensures Slice(RequireSource(s, r), a, own) == Slice(s, a, own)
  {
    SliceGo(s, r, s.db, Found, a, own);
    SliceLeave(s, r, NotFound, a, own);
  }

  lemma FoundNotOwn(s: Sys, r: Txn, a: Uuid, own: set<Uuid>)
    requires Other(s, r, a, own) && s.runs[r].phase.Found?
    ensures s.runs[r].op.sourceId !in own
  {
    ReachedOrigins(s);
  }

  lemma OtherInsertVersion(s: Sys, r: Txn, a: Uuid, own: set<Uuid>, n: Sys)
    requires Other(s, r, a, own) && s.runs[r].op.CreateVersion? && s.runs[r].phase.Found? && InsertVersion(s, r) == Some(n)
    ensures Slice(n, a, own) == Slice(s, a, own)
  {
    var op, row := s.runs[r].op, s.runs[r].op.NewVersion();
    var k := (op.sourceId, op.number);
    SliceLeave(s, r, Error(Integrity), a, own);
    match s.db.versions.Insert(r, op.versionId, row)
    case Miss =>
    case Hit(versions, _) =>
      NewVersionClear(s, r);
      OnlyPutOther(s.db.versions, OwnVersion(a), r, op.versionId, row);
      match s.db.numbers.Insert(r, k, op.versionId)
      case Miss =>
      case Hit(numbers, _) =>
        FoundNotOwn(s, r, a, own);
        OnlyPutOther(s.db.numbers, OwnNumber(own), r, k, op.versionId);
        SliceGo(s, r, s.db.(versions := versions, numbers := numbers), Written(None, Some(row)), a, own);
  }

  lemma OtherMark(s: Sys, r: Txn, a: Uuid, own: set<Uuid>, n: Sys)
    requires Other(s, r, a, own) && s.runs[r].op.Marks() && MarkVersion(s, r) == Some(n)
    ensures Slice(n, a, own) == Slice(s, a, own)
  {
    var op := s.runs[r].op;
    match s.db.versions.Update(r, op.versionId, (v: Version) => op.Markable(v), (v: Version) => op.Mark(v))
    case Miss => SliceLeave(s, r, NotFound, a, own);
    case Hit(versions, row) =>
      if op.versionId in s.db.versions.pending { var u := VersionTenant(s, op.versionId); }
      OnlyPutOther(s.db.versions, OwnVersion(a), r, op.versionId, row);
      SliceGo(s, r, s.db.(versions := versions), Marked(row), a, own);
  }

  lemma OtherSetStatus(s: Sys, r: Txn, a: Uuid, own: set<Uuid>, marked: Option<Version>, n: Sys)
    requires Other(s, r, a, own) && SetSourceStatus(s, r, marked) == Some(n)
    ensures Slice(n, a, own) == Slice(s, a, own)
  {
    var op, stamp := s.runs[r].op, s.runs[r].stamp;
    match s.db.sources.Update(r, op.sourceId, (src: Source) => op.Live(src), (src: Source) => op.SetStatus(src, stamp))
    case Miss => SliceLeave(s, r, NotFound, a, own);
    case Hit(sources, row) =>
      if op.sourceId in s.db.sources.pending { var u := SourceTenant(s, op.sourceId); }
      OnlyPutOther(s.db.sources, OwnSource(a), r, op.sourceId, row);
      SliceGo(s, r, s.db.(sources := sources), Written(Some(row), marked), a, own);
  }

  // ---------------------------------------------------------------- steps

  lemma OwnsNothing(s: Sys, r: Txn)
    requires Reached(s) && r in s.runs && !s.runs[r].phase.Written?
    ensures !s.db.sources.Owns(r, s.runs[r].op.sourceId)
    ensures !s.runs[r].phase.Marked? && s.runs[r].op.Marks() ==> !s.db.versions.Owns(r, s.runs[r].op.versionId)
  {
    ReachedExact(s);
    HeldSourceAt(s.runs[r]);
    HeldVersionAt(s.runs[r]);
  }

  lemma OwnNext(s: Sys, r: Txn, a: Uuid, own: set<Uuid>, n: Sys)
    requires Own(s, r, a, own) && Next(s, r) == Some(n)
    ensures Slice(s, a, own).Active(r) && Next(Slice(s, a, own), r) == Some(Slice(n, a, own))
  {
    var op := s.runs[r].op;
    OwnActive(s, r, a, own);
    match s.runs[r].phase
    case Begin =>
      OwnsNothing(s, r);
      if op.CreateSource? { OwnInsertSource(s, r, a, own, n); }
      else if op.Delete? { OwnSetStatus(s, r, a, own, None, n); }
      else { OwnRequire(s, r, a, own); }
    case Found =>
      OwnsNothing(s, r);
      if op.CreateVersion? { OwnInsertVersion(s, r, a, own, n); } else { OwnMark(s, r, a, own, n); }
    case Marked(v) =>
      OwnsNothing(s, r);
      OwnSetStatus(s, r, a, own, Some(v), n);
    case Written(_, _) => OwnCommit(s, r, Succeeded, a, own);
  }

  lemma OtherNext(s: Sys, r: Txn, a: Uuid, own: set<Uuid>, n: Sys)
    requires Other(s, r, a, own) && Next(s, r) == Some(n)
    ensures Slice(n, a, own) == Slice(s, a, own)
  {
    var op := s.runs[r].op;
    match s.runs[r].phase
    case Begin =>
      if op.CreateSource? { OtherInsertSource(s, r, a, own, n); }
      else if op.Delete? { OtherSetStatus(s, r, a, own, None, n); }
      else { OtherRequire(s, r, a, own); }
    case Found => if op.CreateVersion? { OtherInsertVersion(s, r, a, own, n); } else { OtherMark(s, r, a, own, n); }
    case Marked(v) => OtherSetStatus(s, r, a, own, Some(v), n);
    case Written(_, _) => OtherCommit(s, r, Succeeded, a, own);
  }

  /** An action of the account: one of its calls, or a new project of its own. */
  predicate OwnAction(action: Action, runs: map<Txn, Run>, a: Uuid) {
    if action.AddProject? then action.accountId == a else action.run in runs && runs[action.run].op.accountId == a
  }

  function OwnActions(trace: seq<Action>, runs: map<Txn, Run>, a: Uuid): seq<Action> {
    if trace == [] then []
    else (if OwnAction(trace[0], runs, a) then [trace[0]] else []) + OwnActions(trace[1..], runs, a)
  }

  lemma SliceRunsAdd(runs: map<Txn, Run>, r: Txn, run: Run, a: Uuid)
    ensures run.op.accountId == a ==> SliceRuns(runs[r := run], a) == SliceRuns(runs, a)[r := run]
    ensures run.op.accountId != a && r !in runs ==> SliceRuns(runs[r := run], a) == SliceRuns(runs, a)
  {
  }

  lemma SliceProjectsAdd(projects: map<Uuid, Uuid>, id: Uuid, account: Uuid, a: Uuid)
    requires id !in projects
    ensures SliceProjects(projects[id := account], a) ==
      if account == a then SliceProjects(projects, a)[id := account] else SliceProjects(projects, a)
  {
  }

  lemma OwnStep(s: Sys, action: Action, a: Uuid, own: set<Uuid>, n: Sys)
    requires Sound(s, a, own) && Step(s, action) == Some(n) && OwnAction(action, n.runs, a)
    ensures Step(Slice(s, a, own), action) == Some(Slice(n, a, own))
  {
    match action
    case Start(r, op, stamp) => SliceRunsAdd(s.runs, r, Run(op, stamp, Begin), a);
    case Advance(r) => OwnNext(s, r, a, own, n);
    case Cancel(r) =>
      OwnActive(s, r, a, own);
      SliceLeave(s, r, Error(Cancelled), a, own);
    case LoseReply(r) =>
      OwnActive(s, r, a, own);
      OwnCommit(s, r, Error(ReplyLost), a, own);
    case AddProject(id, account) => SliceProjectsAdd(s.projects, id, account, a);
  }

  lemma OtherStep(s: Sys, action: Action, a: Uuid, own: set<Uuid>, n: Sys)
    requires Sound(s, a, own) && Step(s, action) == Some(n) && !OwnAction(action, n.runs, a)
    ensures Slice(n, a, own) == Slice(s, a, own)
  {
    match action
    case Start(r, op, stamp) => SliceRunsAdd(s.runs, r, Run(op, stamp, Begin), a);
    case Advance(r) => OtherNext(s, r, a, own, n);
    case Cancel(r) => SliceLeave(s, r, Error(Cancelled), a, own);
    case LoseReply(r) => OtherCommit(s, r, Error(ReplyLost), a, own);
    case AddProject(id, account) => SliceProjectsAdd(s.projects, id, account, a);
  }

  // ---------------------------------------------------------------- whole runs

  lemma SoundBefore(s: Sys, s': Sys, a: Uuid, own: set<Uuid>)
    requires Reached(s) && Stays(s, s') && FreshIds(s'.runs) && Belong(s', a, own)
    ensures Sound(s, a, own)
  {
    CreatedStays(s, s');
  }

  lemma FirstStep(s: Sys, trace: seq<Action>, s': Sys, a: Uuid, own: set<Uuid>) returns (n: Sys)
    requires Reached(s) && trace != [] && Execute(s, trace) == Some(s') && FreshIds(s'.runs) && Belong(s', a, own)
    ensures Step(s, trace[0]) == Some(n) && Execute(n, trace[1..]) == Some(s') && Reached(n) && Sound(s, a, own)
    ensures OwnAction(trace[0], n.runs, a) == OwnAction(trace[0], s'.runs, a)
  {
    n := Step(s, trace[0]).value;
    Machines.Single(Step, s, trace[0]);
    Machines.ReachableOn(Step, EMPTY, s, [trace[0]], n);
    RunStays(n, trace[1..], s');
    RunStays(s, trace, s');
    SoundBefore(s, s', a, own);
    if !trace[0].AddProject? { StepActs(s, trace[0], n); }
  }

  lemma StepActs(s: Sys, action: Action, n: Sys)
    requires Step(s, action) == Some(n) && !action.AddProject?
    ensures action.run in n.runs
  {
  }

  lemma SliceStep(s: Sys, action: Action, n: Sys, runs: map<Txn, Run>, a: Uuid, own: set<Uuid>, rest: seq<Action>)
    requires Sound(s, a, own) && Step(s, action) == Some(n) && OwnAction(action, n.runs, a) == OwnAction(action, runs, a)
    ensures Execute(Slice(s, a, own), (if OwnAction(action, runs, a) then [action] else []) + rest) == Execute(Slice(n, a, own), rest)
  {
    if OwnAction(action, n.runs, a) {
      OwnStep(s, action, a, own, n);
      Machines.Prepend(Step, Slice(s, a, own), action, rest);
    } else {
      OtherStep(s, action, a, own, n);
      assert [] + rest == rest;
    }
  }

  lemma {:induction false} IndependentFrom(s: Sys, trace: seq<Action>, s': Sys, a: Uuid, own: set<Uuid>)
    requires Reached(s) && Execute(s, trace) == Some(s') && FreshIds(s'.runs) && Belong(s', a, own)
    ensures Execute(Slice(s, a, own), OwnActions(trace, s'.runs, a)) == Some(Slice(s', a, own))
    decreases |trace|
  {
    if trace != [] {
      var n := FirstStep(s, trace, s', a, own);
      IndependentFrom(n, trace[1..], s', a, own);
      SliceStep(s, trace[0], n, s'.runs, a, own, OwnActions(trace[1..], s'.runs, a));
    }
  }

  function SourcesOf(s: Sys, a: Uuid): set<Uuid> { set id | id in s.db.sources.rows && s.db.sources.rows[id].accountId == a }

  /**
   Any run from empty tables, cut down to one account's calls and projects, is itself a run, and ends with exactly that
   account's part of the whole: the same outcomes, rows, locks and current versions.
   */
  lemma Independent(trace: seq<Action>, s: Sys, a: Uuid) returns (own: seq<Action>, n: Sys)
    requires Execute(EMPTY, trace) == Some(s) && FreshIds(s.runs)
    ensures Execute(EMPTY, own) == Some(n) && own == OwnActions(trace, s.runs, a)
    ensures forall r :: r in n.runs <==> r in s.runs && s.runs[r].op.accountId == a
    ensures forall r :: r in n.runs ==> n.runs[r] == s.runs[r]
    ensures PartOf(n.db.sources, s.db.sources, (id: Uuid, src: Source) => src.accountId == a)
    ensures PartOf(n.db.versions, s.db.versions, (id: Uuid, v: Version) => v.accountId == a)
    ensures forall source :: source in n.current <==>
      source in s.current && source in s.db.sources.rows && s.db.sources.rows[source].accountId == a
    ensures forall source :: source in n.current ==> n.current[source] == s.current[source]
  {
    assert Machines.Execute(Step, EMPTY, []) == Some(EMPTY);
    IndependentFrom(EMPTY, trace, s, a, SourcesOf(s, a));
    assert Slice(EMPTY, a, SourcesOf(s, a)) == EMPTY;
    own, n := OwnActions(trace, s.runs, a), Slice(s, a, SourcesOf(s, a));
  }
}
