/**
 Account bootstrap in action: repository statements, Unit of Work and use case as methods over a shared database.

 A statement's method is proved against the statement's function in `BootstrapRuns`. What the methods add to the state
 machine is the use case itself: its order of reads, writes and early returns, arbitrary runs of others at every
 suspension, the retry of an insert after a wait and the cancellation of a run that has waited too long.
 */
module BootstrapService {
  import opened Wrappers
  import Machines
  import opened Values
  import opened Tables
  import opened BootstrapRuns
  import Identity
  import BootstrapProofs

  datatype Answer = Waits | Proceeds | Ends

  class Database {
    var db: Db
    var runs: map<Txn, Run>
    var log: seq<Txn>

    function State(): Sys reads this { Sys(db, runs, log) }

    // -------------------------------------------------------------- the Unit of Work

    method Move(r: Txn, phase: Phase)
      requires r in runs
      modifies this`runs
      ensures runs == old(runs)[r := old(runs)[r].(phase := phase)]
    {
      runs := runs[r := runs[r].(phase := phase)];
    }

    method Exit(r: Txn, outcome: Outcome)
      requires r in runs
      modifies this
      ensures State() == old(State()).Leave(r, outcome)
    {
      db := db.Rollback(r);
      Move(r, Done(outcome));
    }

    method Commit(r: Txn, outcome: Outcome)
      requires r in runs
      modifies this
      ensures State() == old(State()).Commit(r, outcome)
    {
      db := db.Commit(r);
      log := log + [r];
      Move(r, Done(outcome));
    }

    // -------------------------------------------------------------- repository statements

    /** `create_profile_if_absent`. */
    method CreateProfileIfAbsent(r: Txn) returns (answer: Answer)
      requires State().Active(r)
      modifies this
      ensures Follows(old(State()), State(), r, answer, InsertProfile(old(State()), r))
      ensures answer.Proceeds? ==> runs[r].phase.Profiled? || runs[r].phase.Recheck?
      ensures !answer.Ends?
    {
      match db.profiles.Insert(r, runs[r].call.subject, Present)
      case Blocked => answer := Waits;
      case Miss =>
        Move(r, Recheck);
        answer := Proceeds;
      case Hit(profiles, _) =>
        db := db.(profiles := profiles);
        Move(r, Profiled);
        answer := Proceeds;
    }

    method AddAccount(r: Txn) returns (answer: Answer)
      requires State().Active(r)
      modifies this
      ensures Follows(old(State()), State(), r, answer, InsertAccount(old(State()), r))
      ensures answer.Proceeds? ==> runs[r].phase.Opened?
    {
      match db.accounts.Insert(r, runs[r].call.accountId, Present)
      case Blocked => answer := Waits;
      case Miss =>
        Exit(r, Failed(Integrity));
        answer := Ends;
      case Hit(accounts, _) =>
        db := db.(accounts := accounts);
        Move(r, Opened);
        answer := Proceeds;
    }

    /** `add_owner_membership`, as its row reaches the database. */
    method AddOwnerMembership(r: Txn) returns (answer: Answer)
      requires State().Active(r)
      modifies this
      ensures Follows(old(State()), State(), r, answer, InsertMembership(old(State()), r))
      ensures answer.Proceeds? ==> runs[r].phase.Flushed?
    {
      var call := runs[r].call;
      match db.memberships.Insert(r, call.membershipId, call.Membership())
      case Blocked => answer := Waits;
      case Miss =>
        Exit(r, Failed(Integrity));
        answer := Ends;
      case Hit(memberships, _) =>
        match db.pairs.Insert(r, (call.accountId, call.subject), call.membershipId)
        case Blocked => answer := Waits;
        case Miss =>
          Exit(r, Failed(Integrity));
          answer := Ends;
        case Hit(pairs, _) =>
          db := db.(memberships := memberships, pairs := pairs);
          Move(r, Flushed);
          answer := Proceeds;
    }

    // -------------------------------------------------------------- the use case, among others

    /** What others do while this run is suspended; impossible actions are skipped. */
    method Await(r: Txn, others: seq<Action>) returns (ghost trace: seq<Action>)
      requires r in runs
      modifies this
      ensures Machines.Ran(Step, PatientFor(r), old(State()), trace, State())
      ensures r in runs && runs[r] == old(runs)[r]
    {
      trace := [];
      for i := 0 to |others|
        invariant Machines.Ran(Step, PatientFor(r), old(State()), trace, State())
        invariant r in runs && runs[r] == old(runs)[r]
      {
        var next := Step(State(), others[i]);
        if !Moves(others[i], r) && next.Some? {
          OthersKeep(State(), others[i], r);
          Machines.RanStep(Step, PatientFor(r), old(State()), trace, State(), others[i]);
          trace := trace + [others[i]];
          db, runs, log := next.value.db, next.value.runs, next.value.log;
        }
      }
    }

    method Perform(r: Txn) returns (answer: Answer)
      requires State().Active(r) && Inserting(runs[r].phase)
      modifies this
      ensures Follows(old(State()), State(), r, answer, Next(old(State()), r))
      ensures answer.Proceeds? ==> Reaches(old(runs)[r].phase, runs[r].phase)
    {
      match runs[r].phase
      case Gate => answer := CreateProfileIfAbsent(r);
      case Profiled => answer := AddAccount(r);
      case Opened => answer := AddOwnerMembership(r);
    }

    /** Suspends, then executes the next INSERT, waiting while it must; a run left without turns is cancelled. */
    method Attempt(r: Txn, turns: seq<seq<Action>>) returns (proceeds: bool, rest: seq<seq<Action>>, ghost trace: seq<Action>)
      requires State().Active(r) && Inserting(runs[r].phase)
      modifies this
      ensures Machines.Ran(Step, PatientFor(r), old(State()), trace, State())
      ensures r in runs && runs[r].call == old(runs)[r].call
      ensures proceeds ==> Reaches(old(runs)[r].phase, runs[r].phase)
      ensures !proceeds ==> runs[r].phase.Done?
      decreases |turns|
    {
      trace := [];
      rest := turns;
      if rest != [] {
        trace := Await(r, rest[0]);
        rest := rest[1..];
      }
      ghost var before := State();
      var answer := Perform(r);
      proceeds := answer.Proceeds?;
      if answer.Waits? {
        ghost var more;
        if rest == [] {
          Exit(r, Failed(Cancelled));
          Machines.RanStep(Step, PatientFor(r), old(State()), trace, before, Cancel(r));
          more := [Cancel(r)];
        } else {
          proceeds, rest, more := Attempt(r, rest);
          ghost var whole := Machines.Joined(Step, PatientFor(r), old(State()), trace, more);
        }
        trace := trace + more;
      } else {
        Machines.RanStep(Step, PatientFor(r), old(State()), trace, before, Advance(r));
        trace := trace + [Advance(r)];
      }
    }

    /** `resolve_memberships` and, when it decides the run, the reply; after a suspension. */
    method ResolveMemberships(r: Txn, turns: seq<seq<Action>>) returns (rest: seq<seq<Action>>, ghost trace: seq<Action>)
      requires State().Active(r) && (runs[r].phase.Begin? || runs[r].phase.Recheck?)
      modifies this
      ensures Machines.Ran(Step, PatientFor(r), old(State()), trace, State())
      ensures r in runs && runs[r].call == old(runs)[r].call
      ensures runs[r].phase.Done? || (old(runs)[r].phase.Begin? && runs[r].phase.Gate?)
    {
      trace := [];
      rest := turns;
      if rest != [] {
        trace := Await(r, rest[0]);
        rest := rest[1..];
      }
      Machines.RanStep(Step, PatientFor(r), old(State()), trace, State(), Advance(r));
      var existing := db.Of(runs[r].call.subject);
      if existing != {} {
        Exit(r, ContextFrom(existing, false));
      } else if runs[r].phase.Recheck? {
        Exit(r, InvariantError);
      } else {
        Move(r, Gate);
      }
      trace := trace + [Advance(r)];
    }

    /** The account, its owner membership and the commit. */
    method Establish(r: Txn, turns: seq<seq<Action>>) returns (outcome: Outcome, ghost trace: seq<Action>)
      requires State().Active(r) && runs[r].phase.Profiled?
      modifies this
      ensures Machines.Ran(Step, PatientFor(r), old(State()), trace, State())
      ensures r in runs && runs[r] == Run(old(runs)[r].call, Done(outcome))
    {
      ghost var start, more := State(), [];
      var call := runs[r].call;
      var proceeds, rest;
      proceeds, rest, trace := Attempt(r, turns);
      if !proceeds { return runs[r].phase.outcome, trace; }
      proceeds, rest, more := Attempt(r, rest);
      trace := Machines.Joined(Step, PatientFor(r), start, trace, more);
      if !proceeds { return runs[r].phase.outcome, trace; }
      outcome := Context({call.Membership()}, true);
      Machines.RanStep(Step, PatientFor(r), start, trace, State(), Advance(r));
      Commit(r, outcome);
      trace := trace + [Advance(r)];
    }

    /**
     `execute`. Whatever others do between its statements, the whole is a run of the state machine in which this run
     ends with the outcome it returns.
     */
    method Bootstrap(r: Txn, call: Call, turns: seq<seq<Action>>) returns (outcome: Outcome, ghost trace: seq<Action>)
      requires r !in runs
      modifies this
      ensures Machines.Ran(Step, PatientFor(r), old(State()), trace, State())
      ensures r in runs && runs[r] == Run(call, Done(outcome))
    {
      ghost var start, more := State(), [];
      runs := runs[r := Run(call, Begin)];
      trace := [Start(r, call)];
      Machines.Single(Step, start, Start(r, call));
      var rest, proceeds;
      rest, more := ResolveMemberships(r, turns);
      trace := Machines.Joined(Step, PatientFor(r), start, trace, more);
      if runs[r].phase.Done? { return runs[r].phase.outcome, trace; }
      proceeds, rest, more := Attempt(r, rest);
      trace := Machines.Joined(Step, PatientFor(r), start, trace, more);
      if !proceeds { return runs[r].phase.outcome, trace; }
      if runs[r].phase.Recheck? {
        rest, more := ResolveMemberships(r, rest);
        trace := Machines.Joined(Step, PatientFor(r), start, trace, more);
        return runs[r].phase.outcome, trace;
      }
      outcome, more := Establish(r, rest);
      trace := Machines.Joined(Step, PatientFor(r), start, trace, more);
    }
  }

  /**
   How a call behaves in a run: it opens, advances, and is cancelled only while it has to wait for another transaction; its
   replies are not lost.
   */
  predicate Patient(s: Sys, a: Action, r: Txn) {
    Moves(a, r) ==> a.Start? || a.Advance? || (a.Cancel? && s.Active(r) && Next(s, r).None?)
  }

  ghost function PatientFor(r: Txn): (Sys, Action) -> bool { (s: Sys, a: Action) => Patient(s, a, r) }

  predicate Follows(s: Sys, s': Sys, r: Txn, answer: Answer, next: Option<Sys>) {
    match answer
    case Waits => next.None? && s' == s
    case Proceeds => next == Some(s') && s'.Active(r) && r in s.runs && s'.runs[r].call == s.runs[r].call
    case Ends => next == Some(s') && r in s'.runs && s'.runs[r].phase.Done? && r in s.runs && s'.runs[r].call == s.runs[r].call
  }

  predicate Inserting(phase: Phase) { phase.Gate? || phase.Profiled? || phase.Opened? }

  predicate Reaches(before: Phase, after: Phase) {
    match before
    case Gate => after.Profiled? || after.Recheck?
    case Profiled => after.Opened?
    case Opened => after.Flushed?
    case _ => false
  }

  /** The action is one of run `r`'s own. */
  predicate Moves(a: Action, r: Txn) { !a.Enroll? && !a.Amend? && a.run == r }

  lemma OthersKeep(s: Sys, a: Action, r: Txn)
    requires r in s.runs && !Moves(a, r)
    ensures var n := Step(s, a); n.Some? ==> r in n.value.runs && n.value.runs[r] == s.runs[r]
  {
  }

  /** A use case run from a reachable state: if it reports a created context, its aggregate is committed and no other run's is. */
  lemma BootstrapServed(s: Sys, trace: seq<Action>, s': Sys, r: Txn, call: Call, outcome: Outcome)
    requires BootstrapProofs.Reached(s) && Execute(s, trace) == Some(s') && r in s'.runs && s'.runs[r] == Run(call, Done(outcome))
    ensures BootstrapProofs.Reached(s') && !outcome.InvariantError?
    ensures outcome.Context? && outcome.created ==>
      forall u :: BootstrapProofs.Created(s', u) && s'.runs[u].call.subject == call.subject ==> u == r
  {
    Machines.ReachableOn(Step, EMPTY, s, trace, s');
    BootstrapProofs.OneAggregatePerSubject(s');
  }
}
