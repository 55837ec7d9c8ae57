/** What every step of the project service keeps. */
module ProjectInvariant {
  import opened Wrappers
  import opened Values
  import opened Projects
  import opened Tables
  import opened Locking
  import opened ProjectRuns

  // ---------------------------------------------------------------- locks match program counters

  /** The reservation row a run holds uncommitted at its program point. */
  function HeldRequest(run: Run): Option<(RequestKey, Request)> {
    if !run.op.Create? then None
    else match run.phase
      case Reserved => Some((run.op.ReservationKey(), run.op.Reservation(None)))
      case Added(_) => Some((run.op.ReservationKey(), run.op.Reservation(None)))
      case Written(p) => Some((run.op.ReservationKey(), run.op.Reservation(Some(ToSnapshot(p)))))
      case _ => None
  }

  function HeldId(run: Run): Option<(Uuid, RequestKey)> {
    if run.op.Create? && (run.phase.Reserved? || run.phase.Added? || run.phase.Written?) then
      Some((run.op.projectId, run.op.ReservationKey()))
    else None
  }

  function HeldProject(run: Run): Option<(Uuid, Project)> {
    if run.phase.Written? || run.phase.Added? then Some((run.op.projectId, run.phase.project)) else None
  }

  ghost predicate Locks(s: Sys) {
    && Exact(s.db.requests, s.runs, HeldRequest)
    && Exact(s.db.reserved, s.runs, HeldId)
    && Exact(s.db.projects, s.runs, HeldProject)
  }

  // ---------------------------------------------------------------- committed rows

  /** Reservations, reserved ids and projects stand in one-to-one correspondence. */
  ghost predicate Committed(db: Db) {
    && (forall k :: k in db.requests.rows ==>
          var q := db.requests.rows[k];
          q.snapshot.Some? && q.projectId in db.reserved.rows && db.reserved.rows[q.projectId] == k)
    && (forall id :: id in db.reserved.rows ==>
          var k := db.reserved.rows[id];
          k in db.requests.rows && db.requests.rows[k].projectId == id && id in db.projects.rows)
    && (forall id :: id in db.projects.rows ==>
          var p := db.projects.rows[id];
          p.id == id && id in db.reserved.rows && db.reserved.rows[id].accountId == p.accountId)
  }

  // ---------------------------------------------------------------- open and finished runs

  /** What a run that has answered a create may rely on. */
  ghost predicate Answered(db: Db, op: Op, outcome: Outcome)
    requires op.Create?
  {
    var k := op.ReservationKey();
    match outcome
    case Returned(p) =>
      k in db.requests.rows && db.requests.rows[k].payload == op.payload && db.requests.rows[k].snapshot == Some(ToSnapshot(p))
      && FromSnapshot(ToSnapshot(p)) == Some(p)
    case Conflict => k in db.requests.rows && db.requests.rows[k].payload != op.payload
    case Failed(cause) => cause.Integrity? || cause.Cancelled? || cause.ReplyLost?
    case _ => false
  }

  ghost predicate RunOk(db: Db, run: Run) {
    match run.phase
    case Begin => true
    case Conflicted => run.op.Create? && run.op.ReservationKey() in db.requests.rows
    case Reserved => run.op.Create? && Unclaimed(db, run.op)
    case Added(p) => run.op.Create? && Unclaimed(db, run.op) && p == run.op.NewProject(run.stamp)
    case Checked => run.op.Retitle?
    case Written(p) =>
      if run.op.Create? then Unclaimed(db, run.op) && p == run.op.NewProject(run.stamp)
      else
        var id := run.op.projectId;
        id in db.projects.rows && run.op.Matches(db.projects.rows[id]) && p == run.op.Change(db.projects.rows[id], run.stamp)
    case Done(outcome) => run.op.Create? ==> Answered(db, run.op, outcome)
  }

  predicate Unclaimed(db: Db, op: Op)
    requires op.Create?
  {
    op.ReservationKey() !in db.requests.rows && op.projectId !in db.reserved.rows
  }

  ghost predicate RunsOk(s: Sys) {
    forall r :: r in s.runs ==> RunOk(s.db, s.runs[r])
  }

  // ---------------------------------------------------------------- the history

  /** The state the last recorded mutation of a project left it in. */
  function Latest(h: seq<Event>, id: Uuid): Option<Project> {
    if h == [] then None
    else if h[|h| - 1].after.id == id then Some(h[|h| - 1].after)
    else Latest(h[..|h| - 1], id)
  }

  ghost predicate EventOk(runs: map<Txn, Run>, db: Db, h: seq<Event>, i: nat)
    requires i < |h|
  {
    var e := h[i];
    && e.run in runs && runs[e.run].phase.Done?
    && e.after.id == runs[e.run].op.projectId
    && e.before == Latest(h[..i], e.after.id)
    && var op := runs[e.run].op;
       if op.Create? then
         && e.before.None? && e.after == op.NewProject(runs[e.run].stamp)
         && op.ReservationKey() in db.requests.rows
         && db.requests.rows[op.ReservationKey()] == op.Reservation(Some(ToSnapshot(e.after)))
       else e.before.Some? && op.Matches(e.before.value) && e.after == op.Change(e.before.value, runs[e.run].stamp)
  }

  /** The event of the create call that a reservation came from. */
  predicate Source(runs: map<Txn, Run>, e: Event, k: RequestKey) {
    e.run in runs && runs[e.run].op.Create? && runs[e.run].op.ReservationKey() == k
  }

  /** Each run commits once, each reservation was committed by exactly one event. */
  ghost predicate SourcesOk(s: Sys) {
    && (forall i: nat, j: nat :: i < j < |s.history| ==> s.history[i].run != s.history[j].run)
    && (forall i: nat, j: nat, k :: i < j < |s.history| && Source(s.runs, s.history[i], k) ==> !Source(s.runs, s.history[j], k))
    && (forall k :: k in s.db.requests.rows ==> exists i: nat :: i < |s.history| && Source(s.runs, s.history[i], k))
  }

  ghost predicate EventsOk(s: Sys) { forall i: nat :: i < |s.history| ==> EventOk(s.runs, s.db, s.history, i) }

  predicate Mirrors(h: seq<Event>, db: Db, id: Uuid) {
    Latest(h, id) == if id in db.projects.rows then Some(db.projects.rows[id]) else None
  }

  /** The history ends in what is committed. */
  ghost predicate MirrorsOk(s: Sys) { forall id :: Mirrors(s.history, s.db, id) }

  ghost predicate HistoryOk(s: Sys) { EventsOk(s) && SourcesOk(s) && MirrorsOk(s) }

  /** A title update that passed its guards did so on an earlier, writable state carrying the expected stamp. */
  predicate Vouched(h: seq<Event>, op: Op, i: nat)
    requires op.Retitle?
  {
    && i < |h| && h[i].after.id == op.projectId && h[i].after.accountId == op.accountId
    && h[i].after.updatedAt == op.expected && !h[i].after.ReadOnly()
  }

  ghost predicate VouchedFor(s: Sys) {
    && (forall r :: r in s.runs && s.runs[r].op.Retitle? && (s.runs[r].phase.Checked? || s.runs[r].phase.Written?) ==>
          exists i: nat :: Vouched(s.history, s.runs[r].op, i))
    && (forall j: nat :: j < |s.history| && s.history[j].run in s.runs && s.runs[s.history[j].run].op.Retitle? ==>
          exists i: nat :: i < j && Vouched(s.history, s.runs[s.history[j].run].op, i))
  }

  /** A title update, archive or deletion that returned has an event of its own. */
  ghost predicate Recorded(s: Sys) {
    forall r :: r in s.runs && !s.runs[r].op.Create? && s.runs[r].phase.Done? && s.runs[r].phase.outcome.Returned? ==>
      exists i: nat :: i < |s.history| && s.history[i].run == r && s.history[i].after == s.runs[r].phase.outcome.project
  }

  ghost predicate Inv(s: Sys) {
    Locks(s) && Committed(s.db) && RunsOk(s) && HistoryOk(s) && VouchedFor(s) && Recorded(s)
  }
}
