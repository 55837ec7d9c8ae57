/**
 The project service in action: its repository statements, its Unit of Work and its calls, as methods that change a
 shared database while other calls do the same between any two statements.

 A statement's method is proved against the statement's function in `ProjectRuns`. What the methods add to the state
 machine is the calls themselves: their order of guards, statements and early returns, arbitrary calls of others at every
 suspension, the retry of a statement after a wait and the cancellation of a call that has waited too long.
 */
module ProjectService {
  import opened Wrappers
  import Machines
  import opened Values
  import opened Projects
  import opened Tables
  import opened ProjectRuns
  import opened ProjectInvariant
  import opened ProjectTheorems
  import ProjectUpdates
  import ProjectAnswers
  import Identity
  import opened Requests
  import Text

  /** How a statement went: it has to wait for another transaction, it went on, or the call ended. */
  datatype Answer = Waits | Proceeds | Ends(outcome: Outcome)

  class Database {
    var db: Db
    var runs: map<Txn, Run>
    var history: seq<Event>

    function State(): Sys reads this { Sys(db, runs, history) }

    // -------------------------------------------------------------- the Unit of Work

    method Enter(r: Txn, op: Op, stamp: Timestamp) returns (ghost trace: seq<Action>)
      requires r !in runs && op.Valid()
      modifies this
      ensures Machines.Ran(Step, PatientFor(r), old(State()), trace, State())
      ensures runs == old(runs)[r := Run(op, stamp, Begin)] && db == old(db)
    {
      Machines.RanStep(Step, PatientFor(r), State(), [], State(), Start(r, op, stamp));
      trace := [] + [Start(r, op, stamp)];
      runs := runs[r := Run(op, stamp, Begin)];
    }

    method Move(r: Txn, phase: Phase)
      requires r in runs
      modifies this`runs
      ensures runs == old(runs)[r := old(runs)[r].(phase := phase)]
    {
      runs := runs[r := runs[r].(phase := phase)];
    }

    /** Leaving without a commit rolls back. */
    method Exit(r: Txn, outcome: Outcome)
      requires r in runs
      modifies this
      ensures State() == old(State()).Leave(r, outcome)
    {
      db := db.Rollback(r);
      Move(r, Done(outcome));
    }

    /** COMMIT checks the deferred reference of a reservation to its project; otherwise the writes become visible. */
    method Commit(r: Txn, project: Project, outcome: Outcome) returns (committed: bool)
      requires r in runs
      modifies this
      ensures State() == old(State()).Commit(r, project, outcome) && r in runs
      ensures committed ==> runs[r].phase == Done(outcome)
      ensures !committed ==> State() == old(State()).Leave(r, Failed(Integrity))
    {
      if runs[r].op.Create? && db.projects.Visible(r, runs[r].op.projectId).None? {
        Exit(r, Failed(Integrity));
        return false;
      }
      var before := if project.id in db.projects.rows then Some(db.projects.rows[project.id]) else None;
      history := history + [Event(r, before, project)];
      db := db.Commit(r);
      Move(r, Done(outcome));
      committed := true;
    }

    // -------------------------------------------------------------- repository statements

    /** The INSERT of `reserve_create`. */
    method ReserveCreate(r: Txn) returns (answer: Answer)
      requires State().Active(r) && runs[r].op.Create?
      modifies this
      ensures Follows(old(State()), State(), r, answer, Reserve(old(State()), r))
    {
      var op := runs[r].op;
      match db.requests.Insert(r, op.ReservationKey(), op.Reservation(None))
      case Blocked => answer := Waits;
      case Miss =>
        Move(r, Conflicted);
        answer := Proceeds;
      case Hit(requests, _) =>
        match db.reserved.Insert(r, op.projectId, op.ReservationKey())
        case Blocked => answer := Waits;
        case Miss =>
          Exit(r, Failed(Integrity));
          answer := Ends(Failed(Integrity));
        case Hit(reserved, _) =>
          db := db.(requests := requests, reserved := reserved);
          Move(r, Reserved);
          answer := Proceeds;
    }

    /** `add`: INSERT, flush and refresh. */
    method Add(r: Txn) returns (answer: Answer)
      requires State().Active(r) && runs[r].op.Create?
      modifies this
      ensures Follows(old(State()), State(), r, answer, InsertProject(old(State()), r))
    {
      var project := runs[r].op.NewProject(runs[r].stamp);
      match db.projects.Insert(r, project.id, project)
      case Blocked => answer := Waits;
      case Miss =>
        Exit(r, Failed(Integrity));
        answer := Ends(Failed(Integrity));
      case Hit(projects, _) =>
        db := db.(projects := projects);
        Move(r, Added(project));
        answer := Proceeds;
    }

    method CompleteCreateReservation(r: Txn, project: Project) returns (answer: Answer)
      requires State().Active(r) && runs[r].op.Create?
      modifies this
      ensures Follows(old(State()), State(), r, answer, Complete(old(State()), r, project))
    {
      match db.requests.Update(r, runs[r].op.ReservationKey(), (q: Request) => q.projectId == project.id,
                               (q: Request) => q.(snapshot := Some(ToSnapshot(project))))
      case Blocked => answer := Waits;
      case Miss =>
        Exit(r, Failed(NotCompleted));
        answer := Ends(Failed(NotCompleted));
      case Hit(requests, _) =>
        db := db.(requests := requests);
        Move(r, Written(project));
        answer := Proceeds;
    }

    /** `update` and `soft_delete`: UPDATE .. WHERE .. RETURNING. */
    method Update(r: Txn) returns (answer: Answer)
      requires State().Active(r) && !runs[r].op.Create?
      modifies this
      ensures Follows(old(State()), State(), r, answer, UpdateProject(old(State()), r))
    {
      var op, stamp := runs[r].op, runs[r].stamp;
      match db.projects.Update(r, op.projectId, (p: Project) => op.Matches(p), (p: Project) => op.Change(p, stamp))
      case Blocked => answer := Waits;
      case Miss =>
        var outcome := if op.Retitle? then StaleVersion else Outcome.NotFound;
        Exit(r, outcome);
        answer := Ends(outcome);
      case Hit(projects, row) =>
        db := db.(projects := projects);
        Move(r, Written(row));
        answer := Proceeds;
    }

    // -------------------------------------------------------------- the calls, among others

    /** What other calls do while this one is suspended: `others` lists it, impossible actions being skipped. */
    method Await(r: Txn, others: seq<Action>) returns (ghost trace: seq<Action>)
      requires r in runs
      modifies this
      ensures Machines.Ran(Step, PatientFor(r), old(State()), trace, State())
      ensures r in runs && runs[r] == old(runs)[r]
    {
      trace := [];
      for i := 0 to |others|
        invariant Machines.Ran(Step, PatientFor(r), old(State()), trace, State())
        invariant r in runs && runs[r] == old(runs)[r]
      {
        var next := Step(State(), others[i]);
        if others[i].run != r && next.Some? {
          OthersKeep(State(), others[i], r);
          Machines.RanStep(Step, PatientFor(r), old(State()), trace, State(), others[i]);
          trace := trace + [others[i]];
          db, runs, history := next.value.db, next.value.runs, next.value.history;
        }
      }
    }

    method Perform(r: Txn, statement: Statement) returns (answer: Answer)
      requires State().Active(r) && Fits(runs[r], statement)
      modifies this
      ensures Follows(old(State()), State(), r, answer, Next(old(State()), r))
      ensures r in runs && runs[r].op == old(runs)[r].op && runs[r].stamp == old(runs)[r].stamp
      ensures answer.Proceeds? ==> Reaches(runs[r], statement)
    {
      StatementIs(State(), r, statement);
      match statement
      case Reserving => answer := ReserveCreate(r);
      case Adding => answer := Add(r);
      case Completing(project) => answer := CompleteCreateReservation(r, project);
      case Updating => answer := Update(r);
    }

    /**
     Suspends, then executes a statement; while it has to wait for another transaction the call stays suspended, and
     when no turn is left it is cancelled.
     */
    method Attempt(r: Txn, statement: Statement, turns: seq<seq<Action>>)
      returns (answer: Answer, rest: seq<seq<Action>>, ghost trace: seq<Action>)
      requires State().Active(r) && Fits(runs[r], statement)
      modifies this
      ensures Machines.Ran(Step, PatientFor(r), old(State()), trace, State())
      ensures r in runs && runs[r].op == old(runs)[r].op && runs[r].stamp == old(runs)[r].stamp
      ensures answer.Proceeds? ==> State().Active(r) && Reaches(runs[r], statement)
      ensures !answer.Waits? && (answer.Ends? ==> runs[r].phase == Done(answer.outcome))
      decreases |turns|
    {
      trace := [];
      rest := turns;
      if rest != [] {
        trace := Await(r, rest[0]);
        rest := rest[1..];
      }
      ghost var before := State();
      answer := Perform(r, statement);
      if answer.Waits? {
        ghost var more;
        if rest == [] {
          more := Abandon(r);
          answer := Ends(Failed(Cancelled));
        } else {
          answer, rest, more := Attempt(r, statement, rest);
        }
        trace := Machines.Joined(Step, PatientFor(r), old(State()), trace, more);
      } else {
        Machines.RanStep(Step, PatientFor(r), old(State()), trace, before, Advance(r));
        trace := trace + [Advance(r)];
      }
    }

    /** A call that has to wait is cancelled. */
    method Abandon(r: Txn) returns (ghost trace: seq<Action>)
      requires State().Active(r) && Next(State(), r).None?
      modifies this
      ensures Machines.Ran(Step, PatientFor(r), old(State()), trace, State())
      ensures r in runs && runs[r] == old(runs)[r].(phase := Done(Failed(Cancelled)))
    {
      Machines.RanStep(Step, PatientFor(r), State(), [], State(), Cancel(r));
      Exit(r, Failed(Cancelled));
      trace := [] + [Cancel(r)];
    }

    /** `commit`, after one more suspension; `project` is the row to be returned. */
    method Finish(r: Txn, project: Project, turns: seq<seq<Action>>) returns (outcome: Outcome, ghost trace: seq<Action>)
      requires State().Active(r) && runs[r].phase == Written(project)
      modifies this
      ensures Machines.Ran(Step, PatientFor(r), old(State()), trace, State())
      ensures r in runs && runs[r] == old(runs)[r].(phase := Done(outcome))
    {
      trace := [];
      if turns != [] { trace := Await(r, turns[0]); }
      Machines.RanStep(Step, PatientFor(r), old(State()), trace, State(), Advance(r));
      var committed := Commit(r, project, Returned(project));
      outcome := if committed then Returned(project) else Failed(Integrity);
      trace := trace + [Advance(r)];
    }

    /** The SELECT that follows a conflict, and the answer it leads to. */
    method Replayed(r: Txn, turns: seq<seq<Action>>) returns (outcome: Outcome, ghost trace: seq<Action>)
      requires State().Active(r) && runs[r].op.Create? && runs[r].phase.Conflicted?
      modifies this
      ensures Machines.Ran(Step, PatientFor(r), old(State()), trace, State())
      ensures r in runs && runs[r] == old(runs)[r].(phase := Done(outcome))
    {
      trace := [];
      if turns != [] { trace := Await(r, turns[0]); }
      Machines.RanStep(Step, PatientFor(r), old(State()), trace, State(), Advance(r));
      outcome := Replay(runs[r].op, db.requests.Visible(r, runs[r].op.ReservationKey()));
      Exit(r, outcome);
      trace := trace + [Advance(r)];
    }

    // -------------------------------------------------------------- the service's calls

    /**
     `create`. Whatever other calls do between its statements, the whole is a run of the state machine in which this
     call advances, is cancelled only while it has to wait, and ends with the reply it returns.
     */
    method Create(r: Txn, context: TenantContext, title: string, kind: string, key: string, freshId: Uuid, stamp: Timestamp,
                  turns: seq<seq<Action>>)
      returns (reply: Result<Outcome, Denial>, ghost trace: seq<Action>)
      requires r !in runs
      modifies this
      ensures Machines.Ran(Step, PatientFor(r), old(State()), trace, State())
      ensures Served(State(), r, Prepare(context, CreateCommand(title, kind, key), freshId), stamp, reply)
      ensures reply.Err? ==> State() == old(State())
    {
      trace := [];
      if context.membershipStatus != Identity.MembershipStatus.Active { return Err(PermissionDenied), []; }
      var validTitle, validType := ValidateTitle(title), ParseType(kind);
      if validTitle.None? || validType.None? || Text.Strip(key) == "" { return Err(Invalid), []; }
      var payload := Payload(validTitle.value, validType.value);
      var op := ProjectRuns.Create(context.accountId, context.subjectId, key, validTitle.value, validType.value, payload, freshId);
      PreparedOp(context, CreateCommand(title, kind, key), freshId);
      var outcome;
      outcome, trace := CreateIn(r, op, stamp, turns);
      reply := Ok(outcome);
    }

    /** The body of the `async with` block of `create`. */
    method CreateIn(r: Txn, op: Op, stamp: Timestamp, turns: seq<seq<Action>>) returns (outcome: Outcome, ghost trace: seq<Action>)
      requires r !in runs && op.Create? && op.Valid()
      modifies this
      ensures Machines.Ran(Step, PatientFor(r), old(State()), trace, State())
      ensures r in runs && runs[r] == Run(op, stamp, Done(outcome))
    {
      ghost var start, more := State(), [];
      trace := Enter(r, op, stamp);
      outcome, more := ReserveAndInsert(r, turns);
      trace := Machines.Joined(Step, PatientFor(r), start, trace, more);
    }

    /** The reservation, and what its answer leads to. */
    method ReserveAndInsert(r: Txn, turns: seq<seq<Action>>) returns (outcome: Outcome, ghost trace: seq<Action>)
      requires State().Active(r) && Fits(runs[r], Reserving)
      modifies this
      ensures Machines.Ran(Step, PatientFor(r), old(State()), trace, State())
      ensures r in runs && runs[r] == old(runs)[r].(phase := Done(outcome))
    {
      ghost var start, more := State(), [];
      var answer, rest;
      answer, rest, trace := Attempt(r, Reserving, turns);
      if answer.Ends? { return answer.outcome, trace; }
      if runs[r].phase.Conflicted? {
        outcome, more := Replayed(r, rest);
      } else {
        outcome, more := Insert(r, rest);
      }
      trace := Machines.Joined(Step, PatientFor(r), start, trace, more);
    }

    /** What follows a new reservation: the project is written, then its snapshot, and both are committed. */
    method Insert(r: Txn, turns: seq<seq<Action>>) returns (outcome: Outcome, ghost trace: seq<Action>)
      requires State().Active(r) && Fits(runs[r], Adding)
      modifies this
      ensures Machines.Ran(Step, PatientFor(r), old(State()), trace, State())
      ensures r in runs && runs[r] == old(runs)[r].(phase := Done(outcome))
    {
      ghost var start, more := State(), [];
      var answer, rest;
      answer, rest, trace := Attempt(r, Adding, turns);
      if answer.Ends? { return answer.outcome, trace; }
      var project := runs[r].phase.project;
      answer, rest, more := Attempt(r, Completing(project), rest);
      trace := Machines.Joined(Step, PatientFor(r), start, trace, more);
      if answer.Ends? { return answer.outcome, trace; }
      outcome, more := Finish(r, project, rest);
      trace := Machines.Joined(Step, PatientFor(r), start, trace, more);
    }

    /** `get` and the guards of `update`, after a suspension. */
    method CheckCurrent(r: Txn, turns: seq<seq<Action>>) returns (refusal: Option<Outcome>, ghost trace: seq<Action>)
      requires State().Active(r) && runs[r].op.Retitle? && runs[r].phase.Begin?
      modifies this
      ensures Machines.Ran(Step, PatientFor(r), old(State()), trace, State())
      ensures r in runs && runs[r] == old(runs)[r].(phase := if refusal.Some? then Done(refusal.value) else Checked)
    {
      trace := [];
      if turns != [] { trace := Await(r, turns[0]); }
      Machines.RanStep(Step, PatientFor(r), old(State()), trace, State(), Advance(r));
      var op := runs[r].op;
      var current := db.projects.Visible(r, op.projectId);
      if current.None? || current.value.accountId != op.accountId || current.value.deletedAt.Some? {
        refusal := Some(Outcome.NotFound);
      } else if current.value.ReadOnly() {
        refusal := Some(ReadOnly);
      } else if current.value.updatedAt != op.expected {
        refusal := Some(StaleVersion);
      } else {
        refusal := None;
      }
      if refusal.Some? { Exit(r, refusal.value); } else { Move(r, Checked); }
      trace := trace + [Advance(r)];
    }

    /** One UPDATE and the commit. */
    method Modify(r: Txn, turns: seq<seq<Action>>) returns (outcome: Outcome, ghost trace: seq<Action>)
      requires State().Active(r) && Fits(runs[r], Updating)
      modifies this
      ensures Machines.Ran(Step, PatientFor(r), old(State()), trace, State())
      ensures r in runs && runs[r] == old(runs)[r].(phase := Done(outcome))
    {
      ghost var start, more := State(), [];
      var answer, rest;
      answer, rest, trace := Attempt(r, Updating, turns);
      if answer.Ends? { return answer.outcome, trace; }
      outcome, more := Finish(r, runs[r].phase.project, rest);
      trace := Machines.Joined(Step, PatientFor(r), start, trace, more);
    }

    /** The bodies of the `async with` blocks of `update`, `archive` and `soft_delete`. */
    method ModifyIn(r: Txn, op: Op, stamp: Timestamp, turns: seq<seq<Action>>) returns (outcome: Outcome, ghost trace: seq<Action>)
      requires r !in runs && !op.Create? && op.Valid()
      modifies this
      ensures Machines.Ran(Step, PatientFor(r), old(State()), trace, State())
      ensures r in runs && runs[r] == Run(op, stamp, Done(outcome))
    {
      ghost var start, more := State(), [];
      var rest := turns;
      trace := Enter(r, op, stamp);
      if op.Retitle? {
        var refusal;
        refusal, more := CheckCurrent(r, rest);
        trace := Machines.Joined(Step, PatientFor(r), start, trace, more);
        if refusal.Some? { return refusal.value, trace; }
        if rest != [] { rest := rest[1..]; }
      }
      outcome, more := Modify(r, rest);
      trace := Machines.Joined(Step, PatientFor(r), start, trace, more);
    }

    /** `update`; an `expected` of None is a timestamp without a timezone. */
    method UpdateTitle(r: Txn, context: TenantContext, projectId: Uuid, title: string, expected: Option<Timestamp>, stamp: Timestamp,
                       turns: seq<seq<Action>>)
      returns (reply: Result<Outcome, Denial>, ghost trace: seq<Action>)
      requires r !in runs
      modifies this
      ensures Machines.Ran(Step, PatientFor(r), old(State()), trace, State())
      ensures Served(State(), r, Prepare(context, UpdateCommand(projectId, title, expected), UNUSED), stamp, reply)
      ensures reply.Err? ==> State() == old(State())
    {
      if context.membershipStatus != Identity.MembershipStatus.Active { return Err(PermissionDenied), []; }
      var validTitle := ValidateTitle(title);
      if validTitle.None? || expected.None? { return Err(Invalid), []; }
      var outcome;
      outcome, trace := ModifyIn(r, Retitle(context.accountId, projectId, validTitle.value, expected.value), stamp, turns);
      reply := Ok(outcome);
    }

    /** `archive`, and `soft_delete` when `delete` is set. */
    method ArchiveOrDelete(r: Txn, context: TenantContext, projectId: Uuid, delete: bool, stamp: Timestamp, turns: seq<seq<Action>>)
      returns (reply: Result<Outcome, Denial>, ghost trace: seq<Action>)
      requires r !in runs
      modifies this
      ensures Machines.Ran(Step, PatientFor(r), old(State()), trace, State())
      ensures Served(State(), r, Prepare(context, if delete then DeleteCommand(projectId) else ArchiveCommand(projectId), UNUSED), stamp, reply)
      ensures reply.Err? ==> State() == old(State())
    {
      if context.membershipStatus != Identity.MembershipStatus.Active { return Err(PermissionDenied), []; }
      if !context.role.Owner? && !context.role.Admin? { return Err(PermissionDenied), []; }
      var op := if delete then Delete(context.accountId, projectId) else Archive(context.accountId, projectId);
      var outcome;
      outcome, trace := ModifyIn(r, op, stamp, turns);
      reply := Ok(outcome);
    }
  }

  /** The id factory plays no part in calls that create nothing. */
  const UNUSED: Uuid := 0

  /** What a call leaves behind: nothing when it is refused before its transaction, else a finished run with its reply. */
  predicate Served(s: Sys, r: Txn, prepared: Result<Op, Denial>, stamp: Timestamp, reply: Result<Outcome, Denial>) {
    match prepared
    case Err(denial) => reply == Err(denial)
    case Ok(op) => reply.Ok? && r in s.runs && s.runs[r] == Run(op, stamp, Done(reply.value))
  }

  /**
   A create served from a reachable state leaves a reachable one; if it returned a project, its key's reservation is
   committed with that project's snapshot, and if it was refused as a conflict, with another payload.
   */
  lemma CreateServed(s: Sys, trace: seq<Action>, s': Sys, r: Txn, op: Op, stamp: Timestamp, outcome: Outcome)
    requires Reached(s) && Execute(s, trace) == Some(s') && op.Create? && r in s'.runs && s'.runs[r] == Run(op, stamp, Done(outcome))
    ensures Reached(s') && Answered(s'.db, op, outcome)
  {
    Machines.ReachableOn(Step, EMPTY, s, trace, s');
    ReachedInv(s');
    assert RunOk(s'.db, s'.runs[r]);
  }

  /** A call that ended with this reply, as a run of the machine. */
  predicate Replied(s: Sys, r: Txn, prepared: Result<Op, Denial>, stamp: Timestamp, p: Project) {
    prepared.Ok? && r in s.runs && s.runs[r] == Run(prepared.value, stamp, Done(Returned(p)))
  }

  /** The event of a returned title update, archive or deletion. */
  lemma OwnEvent(s: Sys, r: Txn, p: Project) returns (i: nat)
    requires Reached(s) && r in s.runs && !s.runs[r].op.Create? && s.runs[r].phase == Done(Returned(p))
    ensures i < |s.history| && s.history[i].run == r && s.history[i].after == p
  {
    ReachedInv(s);
    i :| i < |s.history| && s.history[i].run == r && s.history[i].after == p;
  }

  /** A create that returned gave the project committed under its key, with the title and type that were asked for. */
  lemma CreateReplies(s: Sys, r: Txn, context: TenantContext, title: string, kind: string, key: string, freshId: Uuid,
                      stamp: Timestamp, p: Project) returns (i: nat)
    requires Reached(s) && Replied(s, r, Prepare(context, CreateCommand(title, kind, key), freshId), stamp, p)
    ensures ProjectAnswers.CreatedUnder(s, i, context.accountId, key) && s.history[i].after == p && s.history[i].before.None?
    ensures p.title == Text.Strip(title) && TypeName(p.projectType) == kind && p.accountId == context.accountId
    ensures p.status == Draft && p.contextVersion == 0 && p.deletedAt.None? && p.createdAt == p.updatedAt
    ensures s.history[i].run == r ==> p.id == freshId && p.ownerId == context.subjectId && p.createdAt == stamp
  {
    PreparedOp(context, CreateCommand(title, kind, key), freshId);
    i := ConflictIsExact(s, r);
    var j := AnswerIsOriginal(s, r, p);
    OneSource(s, i, j, s.runs[r].op.ReservationKey());
    ProjectUpdates.EventEffect(s, i);
  }

  /** A title update that returned has committed the title that was asked for, stripped, on the version it expected. */
  lemma UpdateReplies(s: Sys, r: Txn, context: TenantContext, projectId: Uuid, title: string, expected: Option<Timestamp>,
                      stamp: Timestamp, p: Project) returns (i: nat)
    requires Reached(s) && Replied(s, r, Prepare(context, UpdateCommand(projectId, title, expected), UNUSED), stamp, p)
    ensures i < |s.history| && s.history[i].run == r && s.history[i].after == p && s.history[i].before.Some?
    ensures var was := s.history[i].before.value;
      && was.id == projectId && was.accountId == context.accountId && Some(was.updatedAt) == expected
      && p == was.(title := Text.Strip(title), updatedAt := stamp)
  {
    PreparedOp(context, UpdateCommand(projectId, title, expected), UNUSED);
    i := OwnEvent(s, r, p);
    ProjectUpdates.EventEffect(s, i);
  }

  /** An archive or deletion that returned has committed just that, for an owner or admin of the project's account. */
  lemma RemovalReplies(s: Sys, r: Txn, context: TenantContext, projectId: Uuid, delete: bool, stamp: Timestamp, p: Project)
    returns (i: nat)
    requires Reached(s)
    requires Replied(s, r, Prepare(context, if delete then DeleteCommand(projectId) else ArchiveCommand(projectId), UNUSED), stamp, p)
    ensures context.role.Owner? || context.role.Admin?
    ensures i < |s.history| && s.history[i].run == r && s.history[i].after == p && s.history[i].before.Some?
    ensures var was := s.history[i].before.value;
      && was.id == projectId && was.accountId == context.accountId && was.deletedAt.None?
      && p == if delete then was.(deletedAt := Some(stamp), updatedAt := stamp) else was.(status := Archived, updatedAt := stamp)
  {
    PreparedOp(context, if delete then DeleteCommand(projectId) else ArchiveCommand(projectId), UNUSED);
    i := OwnEvent(s, r, p);
    ProjectUpdates.EventEffect(s, i);
  }

  /** The repository statement a call executes next. */
  datatype Statement = Reserving | Adding | Completing(project: Project) | Updating

  predicate Fits(run: Run, statement: Statement) {
    match statement
    case Reserving => run.op.Create? && run.phase.Begin?
    case Adding => run.op.Create? && run.phase.Reserved?
    case Completing(project) => run.op.Create? && run.phase == Added(project)
    case Updating => if run.op.Retitle? then run.phase.Checked? else !run.op.Create? && run.phase.Begin?
  }

  predicate Reaches(run: Run, statement: Statement) {
    match statement
    case Reserving => run.phase.Conflicted? || run.phase.Reserved?
    case Adding => run.phase.Added?
    case Completing(project) => run.phase == Written(project)
    case Updating => run.phase.Written?
  }

  function Effect(s: Sys, r: Txn, statement: Statement): Option<Sys>
    requires s.Active(r) && Fits(s.runs[r], statement)
  {
    match statement
    case Reserving => Reserve(s, r)
    case Adding => InsertProject(s, r)
    case Completing(project) => Complete(s, r, project)
    case Updating => UpdateProject(s, r)
  }

  lemma StatementIs(s: Sys, r: Txn, statement: Statement)
    requires s.Active(r) && Fits(s.runs[r], statement)
    ensures Next(s, r) == Effect(s, r, statement)
  {
  }

  lemma OthersKeep(s: Sys, a: Action, r: Txn)
    requires r in s.runs && a.run != r
    ensures var n := Step(s, a); n.Some? ==> r in n.value.runs && n.value.runs[r] == s.runs[r]
  {
  }

  /**
   How a call behaves in a run: it opens, advances, and is cancelled only while it has to wait for another transaction; its
   replies are not lost.
   */
  predicate Patient(s: Sys, a: Action, r: Txn) {
    a.run == r ==> a.Start? || a.Advance? || (a.Cancel? && s.Active(r) && Next(s, r).None?)
  }

  ghost function PatientFor(r: Txn): (Sys, Action) -> bool { (s: Sys, a: Action) => Patient(s, a, r) }

  /** What a statement's answer says of the state it leaves, `next` being where the call stands after it. */
  predicate Follows(s: Sys, s': Sys, r: Txn, answer: Answer, next: Option<Sys>) {
    match answer
    case Waits => next.None? && s' == s
    case Proceeds => next == Some(s') && s'.Active(r)
    case Ends(outcome) => next == Some(s') && r in s'.runs && s'.runs[r].phase == Done(outcome)
  }
}
