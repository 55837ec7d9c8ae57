/**
 The project service as a state machine. A run is one service call inside its Unit of Work; a step is one database
 statement, a commit, a cancellation, or a commit whose reply is lost. Any number of runs may be open at once.
 */
module ProjectRuns {
  import opened Wrappers
  import Machines
  import opened Values
  import opened Projects
  import opened Tables

  // ---------------------------------------------------------------- stored rows

  datatype RequestKey = RequestKey(accountId: Uuid, key: string)

  datatype Request = Request(actorId: Uuid, payload: string, projectId: Uuid, snapshot: Option<Snapshot>)

  /** `reserved` is the unique index on the reservation's project id. */
  datatype Db = Db(requests: Table<RequestKey, Request>, reserved: Table<Uuid, RequestKey>, projects: Table<Uuid, Project>)
  {
    function Commit(t: Txn): Db { Db(requests.Commit(t), reserved.Commit(t), projects.Commit(t)) }

    function Rollback(t: Txn): Db { Db(requests.Rollback(t), reserved.Rollback(t), projects.Rollback(t)) }
  }

  // ---------------------------------------------------------------- runs

  datatype Op =
    | Create(accountId: Uuid, actorId: Uuid, key: string, title: string, kind: ProjectType, payload: string,
             projectId: Uuid)
    | Retitle(accountId: Uuid, projectId: Uuid, title: string, expected: Timestamp)
    | Archive(accountId: Uuid, projectId: Uuid)
    | Delete(accountId: Uuid, projectId: Uuid)
  {
    /** A create reaches its transaction with a normalised title and the digest of its payload. */
    predicate Valid() { Create? ==> ValidateTitle(title) == Some(title) && payload == Payload(title, kind) }

    function ReservationKey(): RequestKey
      requires Create?
    {
      RequestKey(accountId, key)
    }

    /** The reservation this call writes, with the snapshot once there is one. */
    function Reservation(snapshot: Option<Snapshot>): Request
      requires Create?
    {
      Request(actorId, payload, projectId, snapshot)
    }

    /** The row this call inserts in a transaction whose CURRENT_TIMESTAMP is `stamp`. */
    function NewProject(stamp: Timestamp): Project
      requires Create?
    {
      Project(projectId, accountId, actorId, title, kind, Draft, 0, stamp, stamp, None)
    }

    /** The WHERE clause of this call's UPDATE. */
    predicate Matches(p: Project) {
      p.accountId == accountId && p.deletedAt.None? && (Retitle? ==> p.updatedAt == expected)
    }

    /** The SET clause of this call's UPDATE, and the trigger's stamp. */
    function Change(p: Project, stamp: Timestamp): Project {
      match this
      case Create(_, _, _, _, _, _, _) => p
      case Retitle(_, _, title, _) => p.(title := title, updatedAt := stamp)
      case Archive(_, _) => p.(status := Archived, updatedAt := stamp)
      case Delete(_, _) => p.(deletedAt := Some(stamp), updatedAt := stamp)
    }
  }

  datatype Cause = Integrity | Cancelled | ReplyLost | MissingRequest | MissingSnapshot | BadSnapshot | NotCompleted

  datatype Outcome = Returned(project: Project) | Conflict | NotFound | ReadOnly | StaleVersion | Failed(cause: Cause)

  /** Where a run stands: `Written` is about to commit. */
  datatype Phase =
    | Begin | Conflicted | Reserved | Added(project: Project) | Checked | Written(project: Project)
    | Done(outcome: Outcome)

  datatype Run = Run(op: Op, stamp: Timestamp, phase: Phase)

  /** One committed mutation of a project. */
  datatype Event = Event(run: Txn, before: Option<Project>, after: Project)

  datatype Sys = Sys(db: Db, runs: map<Txn, Run>, history: seq<Event>)
  {
    predicate Active(r: Txn) { r in runs && !runs[r].phase.Done? }

    function Go(r: Txn, db: Db, phase: Phase): Sys
      requires r in runs
    {
      this.(db := db, runs := runs[r := runs[r].(phase := phase)])
    }

    /** Leaving the Unit of Work without a commit. */
    function Leave(r: Txn, outcome: Outcome): Sys
      requires r in runs
    {
      Go(r, db.Rollback(r), Done(outcome))
    }

    /** COMMIT, where the deferred reference from a reservation to its project is checked. */
    function Commit(r: Txn, p: Project, outcome: Outcome): Sys
      requires r in runs
    {
      if runs[r].op.Create? && db.projects.Visible(r, runs[r].op.projectId).None? then Leave(r, Failed(Integrity))
      else
        var before := if p.id in db.projects.rows then Some(db.projects.rows[p.id]) else None;
        Go(r, db.Commit(r), Done(outcome)).(history := history + [Event(r, before, p)])
    }
  }

  /** Nothing about the runs changes but the phase of `r`. */
  predicate Moved(s: Sys, s': Sys, r: Txn) {
    r in s.runs && r in s'.runs && s'.runs == s.runs[r := s.runs[r].(phase := s'.runs[r].phase)]
  }

  predicate SameRows(a: Db, b: Db) {
    a.requests.rows == b.requests.rows && a.reserved.rows == b.reserved.rows && a.projects.rows == b.projects.rows
  }

  /** One statement of `r`: its phase moves, and nothing is committed. */
  predicate Quiet(s: Sys, s': Sys, r: Txn) { Moved(s, s', r) && SameRows(s.db, s'.db) && s'.history == s.history }

  const EMPTY: Sys := Sys(Db(Table(map[], map[]), Table(map[], map[]), Table(map[], map[])), map[], [])

  // ---------------------------------------------------------------- statements

  /** INSERT INTO project_create_requests .. ON CONFLICT (account_id, idempotency_key) DO NOTHING. */
  function Reserve(s: Sys, r: Txn): (n: Option<Sys>)
    requires s.Active(r) && s.runs[r].op.Create?
    ensures n.Some? ==> Quiet(s, n.value, r)
  {
    var op := s.runs[r].op;
    match s.db.requests.Insert(r, op.ReservationKey(), op.Reservation(None))
    case Blocked => None
    case Miss => Some(s.Go(r, s.db, Conflicted))
    case Hit(requests, _) =>
      match s.db.reserved.Insert(r, op.projectId, op.ReservationKey())
      case Blocked => None
      case Miss => Some(s.Leave(r, Failed(Integrity)))
      case Hit(reserved, _) => Some(s.Go(r, s.db.(requests := requests, reserved := reserved), Reserved))
  }

  /** The reply to a caller whose key is taken. */
  function Replay(op: Op, existing: Option<Request>): Outcome
    requires op.Create?
  {
    if existing.None? then Failed(MissingRequest)
    else
      var snapshot := existing.value.snapshot;
      var project := if snapshot.Some? then FromSnapshot(snapshot.value) else None;
      if snapshot.Some? && project.None? then Failed(BadSnapshot)
      else if existing.value.payload != op.payload then Conflict
      else if snapshot.None? then Failed(MissingSnapshot)
      else Returned(project.value)
  }

  function InsertProject(s: Sys, r: Txn): (n: Option<Sys>)
    requires s.Active(r) && s.runs[r].op.Create?
    ensures n.Some? ==> Quiet(s, n.value, r)
  {
    var project := s.runs[r].op.NewProject(s.runs[r].stamp);
    match s.db.projects.Insert(r, project.id, project)
    case Blocked => None
    case Miss => Some(s.Leave(r, Failed(Integrity)))
    case Hit(projects, _) => Some(s.Go(r, s.db.(projects := projects), Added(project)))
  }

  /** UPDATE project_create_requests SET response_snapshot. */
  function Complete(s: Sys, r: Txn, p: Project): (n: Option<Sys>)
    requires s.Active(r) && s.runs[r].op.Create?
    ensures n.Some? ==> Quiet(s, n.value, r)
  {
    match s.db.requests.Update(r, s.runs[r].op.ReservationKey(), (q: Request) => q.projectId == p.id,
                               (q: Request) => q.(snapshot := Some(ToSnapshot(p))))
    case Blocked => None
    case Miss => Some(s.Leave(r, Failed(NotCompleted)))
    case Hit(requests, _) => Some(s.Go(r, s.db.(requests := requests), Written(p)))
  }

  /** The guards of a title update, on the row it reads first. */
  function Refusal(op: Op, seen: Option<Project>): Option<Outcome>
    requires op.Retitle?
  {
    if seen.None? || seen.value.accountId != op.accountId || seen.value.deletedAt.Some? then Some(NotFound)
    else if seen.value.ReadOnly() then Some(ReadOnly)
    else if seen.value.updatedAt != op.expected then Some(StaleVersion)
    else None
  }

  function Check(s: Sys, r: Txn): (n: Sys)
    requires s.Active(r) && s.runs[r].op.Retitle?
    ensures Quiet(s, n, r)
  {
    match Refusal(s.runs[r].op, s.db.projects.Visible(r, s.runs[r].op.projectId))
    case Some(outcome) => s.Leave(r, outcome)
    case None => s.Go(r, s.db, Checked)
  }

  function UpdateProject(s: Sys, r: Txn): (n: Option<Sys>)
    requires s.Active(r) && !s.runs[r].op.Create?
    ensures n.Some? ==> Quiet(s, n.value, r)
  {
    var op, stamp := s.runs[r].op, s.runs[r].stamp;
    match s.db.projects.Update(r, op.projectId, (p: Project) => op.Matches(p), (p: Project) => op.Change(p, stamp))
    case Blocked => None
    case Miss => Some(s.Leave(r, if op.Retitle? then StaleVersion else NotFound))
    case Hit(projects, row) => Some(s.Go(r, s.db.(projects := projects), Written(row)))
  }

  /** The next statement of an open run, or None while it waits for another transaction. */
  function Next(s: Sys, r: Txn): (n: Option<Sys>)
    requires s.Active(r)
    ensures n.Some? ==> Moved(s, n.value, r)
    ensures n.Some? && !s.runs[r].phase.Written? ==> Quiet(s, n.value, r)
  {
    var op := s.runs[r].op;
    match s.runs[r].phase
    case Begin =>
      if op.Create? then Reserve(s, r)
      else if op.Retitle? then Some(Check(s, r))
      else UpdateProject(s, r)
    case Conflicted =>
      if op.Create? then Some(s.Leave(r, Replay(op, s.db.requests.Visible(r, op.ReservationKey())))) else None
    case Reserved => if op.Create? then InsertProject(s, r) else None
    case Added(p) => if op.Create? then Complete(s, r, p) else None
    case Checked => if op.Create? then None else UpdateProject(s, r)
    case Written(p) => Some(s.Commit(r, p, Returned(p)))
  }

  datatype Action =
    | Start(run: Txn, op: Op, stamp: Timestamp)
    | Advance(run: Txn)
    | Cancel(run: Txn)
    | LoseReply(run: Txn)

  /** One step of the whole system, or None when the action is not possible. */
  function Step(s: Sys, a: Action): Option<Sys> {
    match a
    case Start(r, op, stamp) =>
      if r in s.runs || !op.Valid() then None else Some(s.(runs := s.runs[r := Run(op, stamp, Begin)]))
    case Advance(r) => if s.Active(r) then Next(s, r) else None
    case Cancel(r) => if s.Active(r) then Some(s.Leave(r, Failed(Cancelled))) else None
    case LoseReply(r) =>
      if s.Active(r) && s.runs[r].phase.Written? then Some(s.Commit(r, s.runs[r].phase.project, Failed(ReplyLost))) else None
  }

  function Execute(s: Sys, trace: seq<Action>): Option<Sys> { Machines.Execute(Step, s, trace) }
}
