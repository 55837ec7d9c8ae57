/**
 The context source service as a state machine: any number of calls create sources and versions, complete or fail
 versions and delete sources, one statement at a time.
 */
module ContextRuns {
  import opened Wrappers
  import Machines
  import opened Values
  import opened Tables

  // ---------------------------------------------------------------- entities

  datatype SourceStatus = Uploaded | Parsing | SourceReady | SourceFailed | Deleted

  datatype ParseStatus = Pending | InParsing | Ready | Failed

  datatype Details = Details(sourceType: string, originalName: Option<string>, mimeType: Option<string>,
                             storageRef: Option<string>, rawText: Option<string>, checksum: Option<string>, createdBy: Uuid)

  datatype Source = Source(id: Uuid, accountId: Uuid, projectId: Uuid, status: SourceStatus, details: Details, updatedAt: Timestamp)

  datatype Content = Content(hash: Option<string>, text: Option<string>, storageRef: Option<string>, metadata: Option<string>)
  {
    /** A ready version needs canonical text or a storage reference. */
    predicate Sufficient() { text.Some? || storageRef.Some? }
  }

  datatype Version = Version(id: Uuid, accountId: Uuid, projectId: Uuid, sourceId: Uuid, number: nat, content: Content, status: ParseStatus)

  const BLANK: Content := Content(None, None, None, None)

  /** `numbers` is the unique index on (source, version number). */
  datatype Db = Db(sources: Table<Uuid, Source>, versions: Table<Uuid, Version>, numbers: Table<(Uuid, nat), Uuid>)
  {
    function Commit(t: Txn): Db { Db(sources.Commit(t), versions.Commit(t), numbers.Commit(t)) }

    function Rollback(t: Txn): Db { Db(sources.Rollback(t), versions.Rollback(t), numbers.Rollback(t)) }
  }

  // ---------------------------------------------------------------- calls

  datatype Op =
    | CreateSource(accountId: Uuid, projectId: Uuid, sourceId: Uuid, details: Details)
    | CreateVersion(accountId: Uuid, projectId: Uuid, sourceId: Uuid, versionId: Uuid, number: nat)
    | Complete(accountId: Uuid, projectId: Uuid, sourceId: Uuid, versionId: Uuid, content: Content)
    | Fail(accountId: Uuid, projectId: Uuid, sourceId: Uuid, versionId: Uuid)
    | Delete(accountId: Uuid, projectId: Uuid, sourceId: Uuid)
  {
    predicate Valid() { (CreateVersion? ==> number >= 1) && (Complete? ==> content.Sufficient()) }

    predicate Marks() { Complete? || Fail? }

    function NewSource(stamp: Timestamp): Source
      requires CreateSource?
    {
      Source(sourceId, accountId, projectId, Uploaded, details, stamp)
    }

    function NewVersion(): Version
      requires CreateVersion?
    {
      Version(versionId, accountId, projectId, sourceId, number, BLANK, Pending)
    }

    /** The filter on the source in every statement of this call: its tenant, and not deleted. */
    predicate Live(src: Source) { src.accountId == accountId && src.projectId == projectId && !src.status.Deleted? }

    /** The filter of the two marking updates. */
    predicate Markable(v: Version) {
      v.accountId == accountId && v.projectId == projectId && v.sourceId == sourceId && !v.status.Ready?
    }

    function Mark(v: Version): Version {
      if Complete? then v.(content := content, status := Ready) else v.(status := Failed)
    }

    function SetStatus(src: Source, stamp: Timestamp): Source {
      src.(status := if Complete? then SourceReady else if Fail? then SourceFailed else Deleted, updatedAt := stamp)
    }
  }

  datatype Cause = Integrity | Cancelled | ReplyLost

  datatype Outcome = Succeeded | NotFound | Error(cause: Cause)

  /** `Marked` and `Written` carry the row versions written so far. */
  datatype Phase =
    | Begin | Found | Marked(version: Version) | Written(source: Option<Source>, written: Option<Version>) | Done(outcome: Outcome)

  datatype Run = Run(op: Op, stamp: Timestamp, phase: Phase)

  /** `projects` maps each committed project to its account; `current` is a pointer kept by maximum at each completion. */
  datatype Sys = Sys(db: Db, projects: map<Uuid, Uuid>, runs: map<Txn, Run>, current: map<Uuid, Uuid>)
  {
    predicate Active(r: Txn) { r in runs && !runs[r].phase.Done? }

    function Go(r: Txn, db: Db, phase: Phase): Sys
      requires r in runs
    {
      this.(db := db, runs := runs[r := runs[r].(phase := phase)])
    }

    function Leave(r: Txn, outcome: Outcome): Sys
      requires r in runs
    {
      Go(r, db.Rollback(r), Done(outcome))
    }

    function Commit(r: Txn, outcome: Outcome): Sys
      requires r in runs
    {
      Go(r, db.Commit(r), Done(outcome)).(current := Point(r))
    }

    /** The pointer moves to a completed version unless it already stands at a higher number. */
    function Point(r: Txn): map<Uuid, Uuid>
      requires r in runs
    {
      var op := runs[r].op;
      if op.Complete? && op.versionId in db.versions.rows && !Higher(op.sourceId, db.versions.rows[op.versionId].number)
      then current[op.sourceId := op.versionId] else current
    }

    predicate Higher(source: Uuid, number: nat) {
      source in current && current[source] in db.versions.rows && db.versions.rows[current[source]].number > number
    }
  }

  const EMPTY: Sys := Sys(Db(Table(map[], map[]), Table(map[], map[]), Table(map[], map[])), map[], map[], map[])

  predicate SameRows(a: Db, b: Db) {
    a.sources.rows == b.sources.rows && a.versions.rows == b.versions.rows && a.numbers.rows == b.numbers.rows
  }

  /** One statement of `r`: its phase moves, and nothing is committed. */
  predicate Quiet(s: Sys, s': Sys, r: Txn) {
    && r in s.runs && r in s'.runs && s'.runs == s.runs[r := s.runs[r].(phase := s'.runs[r].phase)]
    && SameRows(s.db, s'.db) && s'.projects == s.projects && s'.current == s.current
  }

  // ---------------------------------------------------------------- statements

  function InsertSource(s: Sys, r: Txn): (n: Option<Sys>)
    requires s.Active(r) && s.runs[r].op.CreateSource?
    ensures n.Some? ==> Quiet(s, n.value, r)
  {
    var op, row := s.runs[r].op, s.runs[r].op.NewSource(s.runs[r].stamp);
    match s.db.sources.Insert(r, op.sourceId, row)
    case Blocked => None
    case Miss => Some(s.Leave(r, Error(Integrity)))
    case Hit(sources, _) =>
      if op.projectId in s.projects && s.projects[op.projectId] == op.accountId then
        Some(s.Go(r, s.db.(sources := sources), Written(Some(row), None)))
      else Some(s.Leave(r, Error(Integrity)))
  }

  function RequireSource(s: Sys, r: Txn): (n: Sys)
    requires s.Active(r)
    ensures Quiet(s, n, r)
  {
    var op := s.runs[r].op;
    var seen := s.db.sources.Visible(r, op.sourceId);
    if seen.Some? && op.Live(seen.value) then s.Go(r, s.db, Found) else s.Leave(r, NotFound)
  }

  function InsertVersion(s: Sys, r: Txn): (n: Option<Sys>)
    requires s.Active(r) && s.runs[r].op.CreateVersion?
    ensures n.Some? ==> Quiet(s, n.value, r)
  {
    var op, row := s.runs[r].op, s.runs[r].op.NewVersion();
    match s.db.versions.Insert(r, op.versionId, row)
    case Blocked => None
    case Miss => Some(s.Leave(r, Error(Integrity)))
    case Hit(versions, _) =>
      match s.db.numbers.Insert(r, (op.sourceId, op.number), op.versionId)
      case Blocked => None
      case Miss => Some(s.Leave(r, Error(Integrity)))
      case Hit(numbers, _) =>
        if ParentExists(s.db, op) then
          Some(s.Go(r, s.db.(versions := versions, numbers := numbers), Written(None, Some(row))))
        else Some(s.Leave(r, Error(Integrity)))
  }

  /** The composite foreign key: the source exists in the same account and project, whatever its status. */
  predicate ParentExists(db: Db, op: Op) {
    op.sourceId in db.sources.rows
    && db.sources.rows[op.sourceId].accountId == op.accountId && db.sources.rows[op.sourceId].projectId == op.projectId
  }

  function MarkVersion(s: Sys, r: Txn): (n: Option<Sys>)
    requires s.Active(r) && s.runs[r].op.Marks()
    ensures n.Some? ==> Quiet(s, n.value, r)
  {
    var op := s.runs[r].op;
    match s.db.versions.Update(r, op.versionId, (v: Version) => op.Markable(v), (v: Version) => op.Mark(v))
    case Blocked => None
    case Miss => Some(s.Leave(r, NotFound))
    case Hit(versions, row) => Some(s.Go(r, s.db.(versions := versions), Marked(row)))
  }

  function SetSourceStatus(s: Sys, r: Txn, marked: Option<Version>): (n: Option<Sys>)
    requires s.Active(r)
    ensures n.Some? ==> Quiet(s, n.value, r)
  {
    var op, stamp := s.runs[r].op, s.runs[r].stamp;
    match s.db.sources.Update(r, op.sourceId, (src: Source) => op.Live(src), (src: Source) => op.SetStatus(src, stamp))
    case Blocked => None
    case Miss => Some(s.Leave(r, NotFound))
    case Hit(sources, row) => Some(s.Go(r, s.db.(sources := sources), Written(Some(row), marked)))
  }

  function Next(s: Sys, r: Txn): (n: Option<Sys>)
    requires s.Active(r)
    ensures n.Some? && !s.runs[r].phase.Written? ==> Quiet(s, n.value, r)
  {
    var op := s.runs[r].op;
    match s.runs[r].phase
    case Begin =>
      if op.CreateSource? then InsertSource(s, r)
      else if op.Delete? then SetSourceStatus(s, r, None)
      else Some(RequireSource(s, r))
    case Found => if op.CreateVersion? then InsertVersion(s, r) else if op.Marks() then MarkVersion(s, r) else None
    case Marked(v) => SetSourceStatus(s, r, Some(v))
    case Written(_, _) => Some(s.Commit(r, Succeeded))
  }

  datatype Action =
    | Start(run: Txn, op: Op, stamp: Timestamp)
    | Advance(run: Txn)
    | Cancel(run: Txn)
    | LoseReply(run: Txn)
    | AddProject(projectId: Uuid, accountId: Uuid)

  function Step(s: Sys, a: Action): Option<Sys> {
    match a
    case Start(r, op, stamp) =>
      if r in s.runs || !op.Valid() then None else Some(s.(runs := s.runs[r := Run(op, stamp, Begin)]))
    case Advance(r) => if s.Active(r) then Next(s, r) else None
    case Cancel(r) => if s.Active(r) then Some(s.Leave(r, Error(Cancelled))) else None
    case LoseReply(r) => if s.Active(r) && s.runs[r].phase.Written? then Some(s.Commit(r, Error(ReplyLost))) else None
    case AddProject(id, account) => if id in s.projects then None else Some(s.(projects := s.projects[id := account]))
  }

  function Execute(s: Sys, trace: seq<Action>): Option<Sys> { Machines.Execute(Step, s, trace) }

  // ---------------------------------------------------------------- the derived current version

  /** The rows the current-version query ranges over: ready versions joined to a source that is not deleted. */
  function Candidates(db: Db, account: Uuid, project: Uuid, source: Uuid): set<Version> {
    set id | id in db.versions.rows
      && db.versions.rows[id].accountId == account && db.versions.rows[id].projectId == project
      && db.versions.rows[id].sourceId == source && db.versions.rows[id].status.Ready?
      && source in db.sources.rows && db.sources.rows[source].accountId == account
      && db.sources.rows[source].projectId == project && !db.sources.rows[source].status.Deleted?
      :: db.versions.rows[id]
  }

  /** ORDER BY version_no DESC LIMIT 1: no row when there is no candidate, else one that no candidate outnumbers. */
  ghost predicate IsCurrent(db: Db, account: Uuid, project: Uuid, source: Uuid, answer: Option<Version>) {
    var found := Candidates(db, account, project, source);
    match answer
    case None => found == {}
    case Some(v) => v in found && forall w :: w in found ==> w.number <= v.number
  }
}
