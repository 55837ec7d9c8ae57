/**
 The context source service in action: guards, repository statements and calls as methods over a shared database.

 A statement's method is proved against the statement's function in `ContextRuns`. What the methods add to the state
 machine is the calls themselves: their order of guards, statements and early returns, arbitrary calls of others at every
 suspension, the retry of a write after a wait, the cancellation of a call that has waited too long, and the read of the
 current version, which no run of the machine makes.
 */
module ContextService {
  import opened Wrappers
  import Machines
  import opened Values
  import opened Tables
  import opened ContextRuns
  import ContextProofs
  import ContextTheorems
  import Identity
  import Requests

  datatype Answer = Waits | Proceeds | Ends

  // ---------------------------------------------------------------- what a call checks before its transaction

  datatype Command =
    | CreateSourceCommand(projectId: Uuid, details: Details)
    | CreateVersionCommand(projectId: Uuid, sourceId: Uuid, number: int)
    | CompleteCommand(projectId: Uuid, sourceId: Uuid, versionId: Uuid, content: Content)
    | FailCommand(projectId: Uuid, sourceId: Uuid, versionId: Uuid)
    | DeleteCommand(projectId: Uuid, sourceId: Uuid)

  datatype Denial = PermissionDenied | Invalid | TypeUnavailable

  predicate KnownType(t: string) { t == "text" || t == "file" || t == "message" || t == "url_reference" }

  function Prepare(context: Requests.TenantContext, command: Command, freshId: Uuid): Result<Op, Denial> {
    var account := context.accountId;
    if context.membershipStatus != Identity.MembershipStatus.Active then Err(PermissionDenied)
    else match command
      case CreateSourceCommand(project, details) =>
        if !KnownType(details.sourceType) then Err(Invalid)
        else if details.sourceType != "text" then Err(TypeUnavailable)
        else Ok(CreateSource(account, project, freshId, details.(createdBy := context.subjectId)))
      case CreateVersionCommand(project, source, number) =>
        if number < 1 then Err(Invalid) else Ok(CreateVersion(account, project, source, freshId, number))
      case CompleteCommand(project, source, version, content) =>
        if !content.Sufficient() then Err(Invalid) else Ok(Complete(account, project, source, version, content))
      case FailCommand(project, source, version) => Ok(Fail(account, project, source, version))
      case DeleteCommand(project, source) => Ok(Delete(account, project, source))
  }

  /**
   What reaches a transaction is the operation asked for, field by field: in the caller's account and the given project, a
   new source as plain text of the caller's, new ids from the factory.
   */
  lemma PreparedOp(context: Requests.TenantContext, command: Command, freshId: Uuid)
    requires Prepare(context, command, freshId).Ok?
    ensures var op := Prepare(context, command, freshId).value;
      && op.Valid() && op.accountId == context.accountId && op.projectId == command.projectId
      && context.membershipStatus == Identity.MembershipStatus.Active
      && match command
         case CreateSourceCommand(_, details) =>
           op.CreateSource? && op.sourceId == freshId && op.details == details.(createdBy := context.subjectId)
           && op.details.sourceType == "text"
         case CreateVersionCommand(_, source, number) =>
           op.CreateVersion? && op.sourceId == source && op.versionId == freshId && op.number == number >= 1
         case CompleteCommand(_, source, version, content) =>
           op.Complete? && op.sourceId == source && op.versionId == version && op.content == content
           && (content.text.Some? || content.storageRef.Some?)
         case FailCommand(_, source, version) => op.Fail? && op.sourceId == source && op.versionId == version
         case DeleteCommand(_, source) => op.Delete? && op.sourceId == source
  {
  }

  /** Each refusal before the transaction, exactly when the guards demand it. */
  lemma RefusedExactly(context: Requests.TenantContext, command: Command, freshId: Uuid)
    ensures var active := context.membershipStatus == Identity.MembershipStatus.Active;
      && (Prepare(context, command, freshId) == Err(PermissionDenied) <==> !active)
      && (Prepare(context, command, freshId) == Err(TypeUnavailable) <==>
            active && command.CreateSourceCommand?
            && (var t := command.details.sourceType; t == "file" || t == "message" || t == "url_reference"))
      && (Prepare(context, command, freshId) == Err(Invalid) <==>
            active
            && match command
               case CreateSourceCommand(_, details) =>
                 var t := details.sourceType; t != "text" && t != "file" && t != "message" && t != "url_reference"
               case CreateVersionCommand(_, _, number) => number < 1
               case CompleteCommand(_, _, _, content) => content.text.None? && content.storageRef.None?
               case FailCommand(_, _, _) => false
               case DeleteCommand(_, _) => false)
  {
  }

  datatype Refusal = Forbidden | SourceNotFound

  class Database {
    var db: Db
    var projects: map<Uuid, Uuid>
    var runs: map<Txn, Run>
    var current: map<Uuid, Uuid>

    function State(): Sys reads this { Sys(db, projects, runs, current) }

    // -------------------------------------------------------------- the Unit of Work

    method Move(r: Txn, phase: Phase)
      requires r in runs
      modifies this`runs
      ensures runs == old(runs)[r := old(runs)[r].(phase := phase)]
    {
      runs := runs[r := runs[r].(phase := phase)];
    }

    method Exit(r: Txn, outcome: Outcome)
      requires r in runs
      modifies this
      ensures State() == old(State()).Leave(r, outcome)
    {
      db := db.Rollback(r);
      Move(r, Done(outcome));
    }

    method Commit(r: Txn, outcome: Outcome)
      requires r in runs
      modifies this
      ensures State() == old(State()).Commit(r, outcome)
    {
      current := State().Point(r);
      db := db.Commit(r);
      Move(r, Done(outcome));
    }

    // -------------------------------------------------------------- repository statements

    method AddSource(r: Txn) returns (answer: Answer)
      requires State().Active(r) && runs[r].op.CreateSource?
      modifies this
      ensures Follows(old(State()), State(), r, answer, InsertSource(old(State()), r))
      ensures answer.Proceeds? ==> runs[r].phase.Written?
    {
      var op, row := runs[r].op, runs[r].op.NewSource(runs[r].stamp);
      match db.sources.Insert(r, op.sourceId, row)
      case Blocked => answer := Waits;
      case Miss =>
        Exit(r, Error(Integrity));
        answer := Ends;
      case Hit(sources, _) =>
        if op.projectId in projects && projects[op.projectId] == op.accountId {
          db := db.(sources := sources);
          Move(r, Written(Some(row), None));
          answer := Proceeds;
        } else {
          Exit(r, Error(Integrity));
          answer := Ends;
        }
    }

    method AddVersion(r: Txn) returns (answer: Answer)
      requires State().Active(r) && runs[r].op.CreateVersion?
      modifies this
      ensures Follows(old(State()), State(), r, answer, InsertVersion(old(State()), r))
      ensures answer.Proceeds? ==> runs[r].phase.Written?
    {
      var op, row := runs[r].op, runs[r].op.NewVersion();
      match db.versions.Insert(r, op.versionId, row)
      case Blocked => answer := Waits;
      case Miss =>
        Exit(r, Error(Integrity));
        answer := Ends;
      case Hit(versions, _) =>
        match db.numbers.Insert(r, (op.sourceId, op.number), op.versionId)
        case Blocked => answer := Waits;
        case Miss =>
          Exit(r, Error(Integrity));
          answer := Ends;
        case Hit(numbers, _) =>
          if ParentExists(db, op) {
            db := db.(versions := versions, numbers := numbers);
            Move(r, Written(None, Some(row)));
            answer := Proceeds;
          } else {
            Exit(r, Error(Integrity));
            answer := Ends;
          }
    }

    /** `mark_version_ready` or `mark_version_failed`; no row means not found. */
    method Mark(r: Txn) returns (answer: Answer)
      requires State().Active(r) && runs[r].op.Marks()
      modifies this
      ensures Follows(old(State()), State(), r, answer, MarkVersion(old(State()), r))
      ensures answer.Proceeds? ==> runs[r].phase.Marked?
    {
      var op := runs[r].op;
      match db.versions.Update(r, op.versionId, (v: Version) => op.Markable(v), (v: Version) => op.Mark(v))
      case Blocked => answer := Waits;
      case Miss =>
        Exit(r, NotFound);
        answer := Ends;
      case Hit(versions, row) =>
        db := db.(versions := versions);
        Move(r, Marked(row));
        answer := Proceeds;
    }

    method SetStatus(r: Txn, marked: Option<Version>) returns (answer: Answer)
      requires State().Active(r)
      modifies this
      ensures Follows(old(State()), State(), r, answer, SetSourceStatus(old(State()), r, marked))
      ensures answer.Proceeds? ==> runs[r].phase.Written?
    {
      var op, stamp := runs[r].op, runs[r].stamp;
      match db.sources.Update(r, op.sourceId, (src: Source) => op.Live(src), (src: Source) => op.SetStatus(src, stamp))
      case Blocked => answer := Waits;
      case Miss =>
        Exit(r, NotFound);
        answer := Ends;
      case Hit(sources, row) =>
        db := db.(sources := sources);
        Move(r, Written(Some(row), marked));
        answer := Proceeds;
    }

    // -------------------------------------------------------------- the calls, among others

    method Await(r: Txn, others: seq<Action>) returns (ghost trace: seq<Action>)
      modifies this
      ensures Machines.Ran(Step, PatientFor(r), old(State()), trace, State())
      ensures r in old(runs) ==> r in runs && runs[r] == old(runs)[r]
    {
      trace := [];
      for i := 0 to |others|
        invariant Machines.Ran(Step, PatientFor(r), old(State()), trace, State())
        invariant r in old(runs) ==> r in runs && runs[r] == old(runs)[r]
      {
        var next := Step(State(), others[i]);
        if !Moves(others[i], r) && next.Some? {
          if r in runs { OthersKeep(State(), others[i], r); }
          Machines.RanStep(Step, PatientFor(r), old(State()), trace, State(), others[i]);
          trace := trace + [others[i]];
          db, projects, runs, current := next.value.db, next.value.projects, next.value.runs, next.value.current;
        }
      }
    }

    method Perform(r: Txn) returns (answer: Answer)
      requires State().Active(r) && Writing(runs[r])
      modifies this
      ensures Follows(old(State()), State(), r, answer, Next(old(State()), r))
      ensures answer.Proceeds? ==> Reaches(old(runs)[r], runs[r])
    {
      var run := runs[r];
      if run.phase.Marked? {
        answer := SetStatus(r, Some(run.phase.version));
      } else if run.op.CreateSource? {
        answer := AddSource(r);
      } else if run.op.Delete? {
        answer := SetStatus(r, None);
      } else if run.op.CreateVersion? {
        answer := AddVersion(r);
      } else {
        answer := Mark(r);
      }
    }

    /** Suspends, then executes the next write, waiting while it must; a call left without turns is cancelled. */
    method Attempt(r: Txn, turns: seq<seq<Action>>) returns (proceeds: bool, rest: seq<seq<Action>>, ghost trace: seq<Action>)
      requires State().Active(r) && Writing(runs[r])
      modifies this
      ensures Machines.Ran(Step, PatientFor(r), old(State()), trace, State())
      ensures r in runs && runs[r].op == old(runs)[r].op && runs[r].stamp == old(runs)[r].stamp
      ensures proceeds ==> Reaches(old(runs)[r], runs[r])
      ensures !proceeds ==> runs[r].phase.Done?
      decreases |turns|
    {
      trace := [];
      rest := turns;
      if rest != [] {
        trace := Await(r, rest[0]);
        rest := rest[1..];
      }
      ghost var before := State();
      var answer := Perform(r);
      proceeds := answer.Proceeds?;
      if answer.Waits? {
        ghost var more;
        if rest == [] {
          Exit(r, Error(Cancelled));
          Machines.RanStep(Step, PatientFor(r), old(State()), trace, before, Cancel(r));
          more := [Cancel(r)];
        } else {
          proceeds, rest, more := Attempt(r, rest);
          ghost var whole := Machines.Joined(Step, PatientFor(r), old(State()), trace, more);
        }
        trace := trace + more;
      } else {
        Machines.RanStep(Step, PatientFor(r), old(State()), trace, before, Advance(r));
        trace := trace + [Advance(r)];
      }
    }

    /** `_require_source`, after a suspension. */
    method Require(r: Txn, turns: seq<seq<Action>>) returns (found: bool, rest: seq<seq<Action>>, ghost trace: seq<Action>)
      requires State().Active(r) && runs[r].phase.Begin? && !runs[r].op.CreateSource? && !runs[r].op.Delete?
      modifies this
      ensures Machines.Ran(Step, PatientFor(r), old(State()), trace, State())
      ensures r in runs && runs[r] == old(runs)[r].(phase := if found then Found else Done(NotFound))
    {
      trace := [];
      rest := turns;
      if rest != [] {
        trace := Await(r, rest[0]);
        rest := rest[1..];
      }
      Machines.RanStep(Step, PatientFor(r), old(State()), trace, State(), Advance(r));
      var source := db.sources.Visible(r, runs[r].op.sourceId);
      found := source.Some? && runs[r].op.Live(source.value);
      if found { Move(r, Found); } else { Exit(r, NotFound); }
      trace := trace + [Advance(r)];
    }

    /** `commit`, after a suspension. */
    method Finish(r: Txn, turns: seq<seq<Action>>) returns (outcome: Outcome, ghost trace: seq<Action>)
      requires State().Active(r) && runs[r].phase.Written?
      modifies this
      ensures Machines.Ran(Step, PatientFor(r), old(State()), trace, State())
      ensures r in runs && runs[r] == old(runs)[r].(phase := Done(outcome))
    {
      trace := [];
      if turns != [] { trace := Await(r, turns[0]); }
      Machines.RanStep(Step, PatientFor(r), old(State()), trace, State(), Advance(r));
      outcome := Succeeded;
      Commit(r, outcome);
      trace := trace + [Advance(r)];
    }

    /**
     The transactions of `create_source`, `create_version`, `complete_version`, `fail_version` and
     `mark_source_deleted`. Whatever other calls do between the statements, the whole is a run of the state machine in
     which this call ends with the outcome it returns.
     */
    method Transact(r: Txn, op: Op, stamp: Timestamp, turns: seq<seq<Action>>) returns (outcome: Outcome, ghost trace: seq<Action>)
      requires r !in runs && op.Valid()
      modifies this
      ensures Machines.Ran(Step, PatientFor(r), old(State()), trace, State())
      ensures r in runs && runs[r] == Run(op, stamp, Done(outcome))
    {
      ghost var start, more := State(), [];
      runs := runs[r := Run(op, stamp, Begin)];
      trace := [Start(r, op, stamp)];
      Machines.Single(Step, start, Start(r, op, stamp));
      var rest, proceeds := turns, true;
      if !op.CreateSource? && !op.Delete? {
        proceeds, rest, more := Require(r, rest);
        trace := Machines.Joined(Step, PatientFor(r), start, trace, more);
        if !proceeds { return runs[r].phase.outcome, trace; }
      }
      proceeds, rest, more := Attempt(r, rest);
      trace := Machines.Joined(Step, PatientFor(r), start, trace, more);
      if !proceeds { return runs[r].phase.outcome, trace; }
      if op.Marks() {
        proceeds, rest, more := Attempt(r, rest);
        trace := Machines.Joined(Step, PatientFor(r), start, trace, more);
        if !proceeds { return runs[r].phase.outcome, trace; }
      }
      outcome, more := Finish(r, rest);
      trace := Machines.Joined(Step, PatientFor(r), start, trace, more);
    }

    /** A whole call: refused before its transaction without any effect, or served. */
    method Serve(r: Txn, context: Requests.TenantContext, command: Command, freshId: Uuid, stamp: Timestamp, turns: seq<seq<Action>>)
      returns (reply: Result<Outcome, Denial>, ghost trace: seq<Action>)
      requires r !in runs
      modifies this
      ensures Machines.Ran(Step, PatientFor(r), old(State()), trace, State())
      ensures match Prepare(context, command, freshId)
        case Err(denial) => reply == Err(denial) && State() == old(State())
        case Ok(op) => reply.Ok? && r in runs && runs[r] == Run(op, stamp, Done(reply.value))
    {
      match Prepare(context, command, freshId)
      case Err(denial) => return Err(denial), [];
      case Ok(op) =>
        PreparedOp(context, command, freshId);
        var outcome;
        outcome, trace := Transact(r, op, stamp, turns);
        reply := Ok(outcome);
    }

    // -------------------------------------------------------------- the current version

    /**
     `get_current_version`. `checked` is the state in which the source is looked for: not found exactly if it is not live
     there. The answer is the current version at the moment of the last statement, which is reached by other calls alone;
     None is a source without a ready version, or deleted since it was looked for.
     */
    method GetCurrentVersion(context: Requests.TenantContext, project: Uuid, source: Uuid, r: Txn, turns: seq<seq<Action>>)
      returns (reply: Result<Option<Version>, Refusal>, ghost front: seq<Action>, ghost checked: Sys, ghost rest: seq<Action>)
      modifies this
      ensures Machines.Ran(Step, PatientFor(r), old(State()), front, checked)
      ensures Machines.Ran(Step, PatientFor(r), checked, rest, State())
      ensures reply == Err(Forbidden) <==> context.membershipStatus != Identity.MembershipStatus.Active
      ensures reply == Err(SourceNotFound) <==>
        context.membershipStatus == Identity.MembershipStatus.Active && !Findable(checked, context.accountId, project, source)
      ensures reply.Ok? ==> IsCurrent(db, context.accountId, project, source, reply.value)
    {
      front, checked, rest := [], State(), [];
      if context.membershipStatus != Identity.MembershipStatus.Active { return Err(Forbidden), front, checked, rest; }
      if turns != [] { front := Await(r, turns[0]); }
      checked := State();
      var account := context.accountId;
      if !(source in db.sources.rows && db.sources.rows[source].accountId == account
           && db.sources.rows[source].projectId == project && !db.sources.rows[source].status.Deleted?) {
        return Err(SourceNotFound), front, checked, rest;
      }
      if |turns| > 1 { rest := Await(r, turns[1]); }
      var answer := GetCurrentReadyVersion(account, project, source);
      reply := Ok(answer);
    }

    /** ORDER BY version_no DESC LIMIT 1, over the ready versions of a source that is not deleted. */
    method GetCurrentReadyVersion(account: Uuid, project: Uuid, source: Uuid) returns (answer: Option<Version>)
      ensures IsCurrent(db, account, project, source, answer)
    {
      var found := Candidates(db, account, project, source);
      var rest := found;
      answer := None;
      while rest != {}
        invariant rest <= found
        invariant answer.None? ==> rest == found
        invariant answer.Some? ==> answer.value in found && forall w :: w in found && w !in rest ==> w.number <= answer.value.number
        decreases rest
      {
        var v :| v in rest;
        if answer.None? || v.number > answer.value.number { answer := Some(v); }
        rest := rest - {v};
      }
    }
  }

  /** The source is committed in this account and project, and not deleted. */
  predicate Findable(s: Sys, account: Uuid, project: Uuid, source: Uuid) {
    source in s.db.sources.rows && s.db.sources.rows[source].accountId == account
    && s.db.sources.rows[source].projectId == project && !s.db.sources.rows[source].status.Deleted?
  }

  /**
   How a call behaves in a run: it opens, advances, and is cancelled only while it has to wait for another transaction; its
   replies are not lost.
   */
  predicate Patient(s: Sys, a: Action, r: Txn) {
    Moves(a, r) ==> a.Start? || a.Advance? || (a.Cancel? && s.Active(r) && Next(s, r).None?)
  }

  ghost function PatientFor(r: Txn): (Sys, Action) -> bool { (s: Sys, a: Action) => Patient(s, a, r) }

  predicate Follows(s: Sys, s': Sys, r: Txn, answer: Answer, next: Option<Sys>) {
    match answer
    case Waits => next.None? && s' == s
    case Proceeds => next == Some(s') && s'.Active(r) && SameCall(s, s', r)
    case Ends => next == Some(s') && r in s'.runs && s'.runs[r].phase.Done? && SameCall(s, s', r)
  }

  predicate SameCall(s: Sys, s': Sys, r: Txn) {
    r in s.runs && r in s'.runs && s'.runs[r].op == s.runs[r].op && s'.runs[r].stamp == s.runs[r].stamp
  }

  /** The run's next statement writes. */
  predicate Writing(run: Run) {
    match run.phase
    case Begin => run.op.CreateSource? || run.op.Delete?
    case Found => run.op.CreateVersion? || run.op.Marks()
    case Marked(_) => run.op.Marks()
    case _ => false
  }

  predicate Reaches(before: Run, after: Run) {
    if before.phase.Found? && before.op.Marks() then after.phase.Marked? else after.phase.Written?
  }

  /** The action is one of run `r`'s own. */
  predicate Moves(a: Action, r: Txn) { !a.AddProject? && a.run == r }

  lemma OthersKeep(s: Sys, a: Action, r: Txn)
    requires r in s.runs && !Moves(a, r)
    ensures var n := Step(s, a); n.Some? ==> r in n.value.runs && n.value.runs[r] == s.runs[r]
  {
  }

  // ---------------------------------------------------------------- what a served call did

  lemma CallKept(s: Sys, a: Action, n: Sys, r: Txn)
    requires Step(s, a) == Some(n) && r in s.runs
    ensures r in n.runs && n.runs[r].op == s.runs[r].op
  {
  }

  lemma NotYet(s: Sys, a: Action, n: Sys, r: Txn)
    requires Step(s, a) == Some(n) && (r in s.runs ==> s.runs[r].phase != Done(Succeeded))
    requires r in n.runs && n.runs[r].phase == Done(Succeeded)
    ensures a == Advance(r) && s.Active(r) && s.runs[r].phase.Written?
  {
    if a == Advance(r) { SucceedsByCommit(s, r, n); }
  }

  lemma SucceedsByCommit(s: Sys, r: Txn, n: Sys)
    requires s.Active(r) && Next(s, r) == Some(n) && r in n.runs && n.runs[r].phase == Done(Succeeded)
    ensures s.runs[r].phase.Written?
  {
  }

  /** A call that has succeeded in a run committed in it, at one action of its own. */
  lemma {:induction false} SuccessCommitted(s: Sys, trace: seq<Action>, s': Sys, r: Txn)
    returns (front: seq<Action>, last: Sys, rest: seq<Action>)
    requires ContextProofs.Reached(s) && Execute(s, trace) == Some(s') && (r in s.runs ==> s.runs[r].phase != Done(Succeeded))
    requires r in s'.runs && s'.runs[r].phase == Done(Succeeded)
    ensures trace == front + ([Advance(r)] + rest) && Execute(s, front) == Some(last) && ContextProofs.Reached(last)
    ensures last.Active(r) && last.runs[r].phase.Written? && last.runs[r].op == s'.runs[r].op
    ensures Step(last, Advance(r)).Some? && Execute(Step(last, Advance(r)).value, rest) == Some(s')
    decreases |trace|
  {
    var n := Step(s, trace[0]).value;
    Machines.Single(Step, s, trace[0]);
    Machines.ReachableOn(Step, EMPTY, s, [trace[0]], n);
    if r in n.runs && n.runs[r].phase == Done(Succeeded) {
      NotYet(s, trace[0], n, r);
      front, last, rest := [], s, trace[1..];
      OpStays(s, trace, s', r);
    } else {
      front, last, rest := SuccessCommitted(n, trace[1..], s', r);
      Machines.Prepend(Step, s, trace[0], front);
      front := [trace[0]] + front;
    }
  }

  lemma {:induction false} OpStays(s: Sys, trace: seq<Action>, s': Sys, r: Txn)
    requires Execute(s, trace) == Some(s') && r in s.runs
    ensures r in s'.runs && s'.runs[r].op == s.runs[r].op
    decreases |trace|
  {
    if trace != [] {
      var n := Step(s, trace[0]).value;
      CallKept(s, trace[0], n, r);
      OpStays(n, trace[1..], s', r);
    }
  }

  /** The rows before and after a served command's commit: exactly the change that was asked for, in the caller's account. */
  predicate Did(db: Db, db': Db, context: Requests.TenantContext, command: Command, freshId: Uuid, stamp: Timestamp) {
    match command
    case CreateSourceCommand(project, details) =>
      && freshId !in db.sources.rows && db'.versions.rows == db.versions.rows
      && db'.sources.rows == db.sources.rows[freshId :=
           Source(freshId, context.accountId, project, Uploaded, details.(createdBy := context.subjectId), stamp)]
    case CreateVersionCommand(project, source, number) =>
      && freshId !in db.versions.rows && number >= 1 && db'.sources.rows == db.sources.rows
      && db'.versions.rows == db.versions.rows[freshId :=
           Version(freshId, context.accountId, project, source, number, Content(None, None, None, None), Pending)]
    case CompleteCommand(project, source, version, content) =>
      && ContextTheorems.LiveAt(db, context.accountId, project, source) && version in db.versions.rows
      && db.versions.rows[version].sourceId == source && !db.versions.rows[version].status.Ready?
      && db'.versions.rows == db.versions.rows[version := db.versions.rows[version].(content := content, status := Ready)]
      && db'.sources.rows == db.sources.rows[source := db.sources.rows[source].(status := SourceReady, updatedAt := stamp)]
    case FailCommand(project, source, version) =>
      && ContextTheorems.LiveAt(db, context.accountId, project, source) && version in db.versions.rows
      && db.versions.rows[version].sourceId == source && !db.versions.rows[version].status.Ready?
      && db'.versions.rows == db.versions.rows[version := db.versions.rows[version].(status := Failed)]
      && db'.sources.rows == db.sources.rows[source := db.sources.rows[source].(status := SourceFailed, updatedAt := stamp)]
    case DeleteCommand(project, source) =>
      && ContextTheorems.LiveAt(db, context.accountId, project, source) && db'.versions.rows == db.versions.rows
      && db'.sources.rows == db.sources.rows[source := db.sources.rows[source].(status := Deleted, updatedAt := stamp)]
  }

  lemma CommandDid(last: Sys, r: Txn, context: Requests.TenantContext, command: Command, freshId: Uuid)
    requires ContextProofs.Reached(last) && last.Active(r) && last.runs[r].phase.Written?
    requires Prepare(context, command, freshId) == Ok(last.runs[r].op)
    ensures Did(last.db, last.db.Commit(r), context, command, freshId, last.runs[r].stamp)
  {
    PreparedOp(context, command, freshId);
    ContextTheorems.CommitEffects(last, r);
  }

  /** A command that was served and succeeded has committed exactly what it asked for, at one moment of the run. */
  lemma ServedDid(s: Sys, trace: seq<Action>, s': Sys, r: Txn, context: Requests.TenantContext, command: Command, freshId: Uuid)
    returns (front: seq<Action>, last: Sys, rest: seq<Action>)
    requires ContextProofs.Reached(s) && Execute(s, trace) == Some(s') && r !in s.runs && r in s'.runs
    requires s'.runs[r].phase == Done(Succeeded) && Prepare(context, command, freshId) == Ok(s'.runs[r].op)
    ensures trace == front + ([Advance(r)] + rest) && Execute(s, front) == Some(last) && last.Active(r)
    ensures Step(last, Advance(r)).Some? && Execute(Step(last, Advance(r)).value, rest) == Some(s')
    ensures Did(last.db, Step(last, Advance(r)).value.db, context, command, freshId, last.runs[r].stamp)
  {
    front, last, rest := SuccessCommitted(s, trace, s', r);
    CommandDid(last, r, context, command, freshId);
  }
}
