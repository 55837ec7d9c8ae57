/** Account bootstrap creates one aggregate per subject, in one transaction, over every interleaving. */
module BootstrapProofs {
  import opened Wrappers
  import Machines
  import Progress
  import opened Values
  import opened Identity
  import opened Tables
  import opened Locking
  import opened BootstrapRuns

  // ---------------------------------------------------------------- the invariant

  function HeldProfile(run: Run): Option<(Uuid, Presence)> {
    if run.phase.Profiled? || run.phase.Opened? || run.phase.Flushed? then Some((run.call.subject, Present)) else None
  }

  function HeldAccount(run: Run): Option<(Uuid, Presence)> {
    if run.phase.Opened? || run.phase.Flushed? then Some((run.call.accountId, Present)) else None
  }

  function HeldMembership(run: Run): Option<(Uuid, Membership)> {
    if run.phase.Flushed? then Some((run.call.membershipId, run.call.Membership())) else None
  }

  function HeldPair(run: Run): Option<((Uuid, Uuid), Uuid)> {
    if run.phase.Flushed? then Some(((run.call.accountId, run.call.subject), run.call.membershipId)) else None
  }

  ghost predicate Locks(s: Sys) {
    && Exact(s.db.profiles, s.runs, HeldProfile) && Exact(s.db.accounts, s.runs, HeldAccount)
    && Exact(s.db.memberships, s.runs, HeldMembership) && Exact(s.db.pairs, s.runs, HeldPair)
  }

  /** The account, profile and membership of a call are committed; role and status may have been amended since. */
  predicate Founded(db: Db, call: Call) {
    && call.subject in db.profiles.rows && call.accountId in db.accounts.rows
    && call.membershipId in db.memberships.rows
    && db.memberships.rows[call.membershipId].accountId == call.accountId
    && db.memberships.rows[call.membershipId].userId == call.subject
  }

  /** The outcomes of a run whose commit was applied. */
  predicate Published(outcome: Outcome) {
    (outcome.Context? && outcome.created) || outcome == Failed(ReplyLost)
  }

  predicate RunOk(db: Db, log: seq<Txn>, r: Txn, run: Run) {
    match run.phase
    case Recheck => run.call.subject in db.profiles.rows
    case Profiled => run.call.subject !in db.profiles.rows
    case Opened => run.call.subject !in db.profiles.rows
    case Flushed => run.call.subject !in db.profiles.rows && run.call.membershipId !in db.memberships.rows
    case Done(outcome) => !outcome.InvariantError? && (outcome.Context? && outcome.created ==> r in log)
    case _ => true
  }

  ghost predicate LogOk(s: Sys) {
    && (forall r :: r in s.log ==>
          r in s.runs && s.runs[r].phase.Done? && Founded(s.db, s.runs[r].call) && Published(s.runs[r].phase.outcome))
    && (forall i, j :: 0 <= i < j < |s.log| ==>
          s.log[i] in s.runs && s.log[j] in s.runs && s.runs[s.log[i]].call.subject != s.runs[s.log[j]].call.subject)
    && (forall user :: user in s.db.profiles.rows ==> exists r :: r in s.log && r in s.runs && s.runs[r].call.subject == user)
  }

  ghost predicate Inv(s: Sys) {
    Locks(s) && LogOk(s) && forall r :: r in s.runs ==> RunOk(s.db, s.log, r, s.runs[r])
  }

  // ---------------------------------------------------------------- quiet steps

  predicate Moves(runs: map<Txn, Run>, runs': map<Txn, Run>, r: Txn) {
    r in runs' && runs' == runs[r := runs'[r]] && (r in runs ==> !runs[r].phase.Done? && runs'[r].call == runs[r].call)
  }

  lemma QuietKeeps(s: Sys, s': Sys, r: Txn)
    requires Inv(s) && Moves(s.runs, s'.runs, r) && s'.log == s.log && SameRows(s.db, s'.db)
    requires Locks(s') && RunOk(s'.db, s'.log, r, s'.runs[r])
    ensures Inv(s')
  {
    forall t | t in s'.runs ensures RunOk(s'.db, s'.log, t, s'.runs[t]) {
      if t != r { assert RunOk(s.db, s.log, t, s.runs[t]); }
    }
  }

  lemma SameLocks(s: Sys, r: Txn, phase: Phase)
    requires Locks(s) && r in s.runs && HeldProfile(s.runs[r]).None? && (phase.Gate? || phase.Recheck?)
    ensures Locks(s.Go(r, s.db, phase))
  {
    var run' := s.runs[r].(phase := phase);
    ExactSame(s.db.profiles, s.runs, HeldProfile, r, run');
    ExactSame(s.db.accounts, s.runs, HeldAccount, r, run');
    ExactSame(s.db.memberships, s.runs, HeldMembership, r, run');
    ExactSame(s.db.pairs, s.runs, HeldPair, r, run');
  }

  lemma ReleaseLocks(s: Sys, r: Txn, outcome: Outcome)
    requires Locks(s) && r in s.runs
    ensures Locks(s.Leave(r, outcome)) && Locks(s.Commit(r, outcome))
  {
    var run' := s.runs[r].(phase := Done(outcome));
    ExactRelease(s.db.profiles, s.runs, HeldProfile, r, run');
    ExactRelease(s.db.accounts, s.runs, HeldAccount, r, run');
    ExactRelease(s.db.memberships, s.runs, HeldMembership, r, run');
    ExactRelease(s.db.pairs, s.runs, HeldPair, r, run');
  }

  lemma LeaveKeeps(s: Sys, r: Txn, outcome: Outcome)
    requires Inv(s) && s.Active(r) && !outcome.InvariantError? && !(outcome.Context? && outcome.created)
    ensures Inv(s.Leave(r, outcome))
  {
    ReleaseLocks(s, r, outcome);
    QuietKeeps(s, s.Leave(r, outcome), r);
  }

  lemma StartKeeps(s: Sys, r: Txn, call: Call)
    requires Inv(s) && r !in s.runs
    ensures Inv(s.(runs := s.runs[r := Run(call, Begin)]))
  {
    var run' := Run(call, Begin);
    ExactOpen(s.db.profiles, s.runs, HeldProfile, r, run');
    ExactOpen(s.db.accounts, s.runs, HeldAccount, r, run');
    ExactOpen(s.db.memberships, s.runs, HeldMembership, r, run');
    ExactOpen(s.db.pairs, s.runs, HeldPair, r, run');
    QuietKeeps(s, s.(runs := s.runs[r := run']), r);
  }

  lemma ResolveKeeps(s: Sys, r: Txn)
    requires Inv(s) && s.Active(r) && s.runs[r].phase.Begin?
    ensures Inv(Resolve(s, r))
  {
    var found := s.db.Of(s.runs[r].call.subject);
    if found != {} {
      LeaveKeeps(s, r, ContextFrom(found, false));
    } else {
      SameLocks(s, r, Gate);
      QuietKeeps(s, s.Go(r, s.db, Gate), r);
    }
  }

  lemma InsertProfileKeeps(s: Sys, r: Txn)
    requires Inv(s) && s.Active(r) && s.runs[r].phase.Gate?
    ensures var n := InsertProfile(s, r); n.Some? ==> Inv(n.value)
  {
    var run := s.runs[r];
    match s.db.profiles.Insert(r, run.call.subject, Present)
    case Blocked =>
    case Miss =>
      SameLocks(s, r, Recheck);
      QuietKeeps(s, s.Go(r, s.db, Recheck), r);
    case Hit(profiles, _) =>
      var run' := run.(phase := Profiled);
      ExactPut(s.db.profiles, s.runs, HeldProfile, r, run', run.call.subject, Present);
      ExactSame(s.db.accounts, s.runs, HeldAccount, r, run');
      ExactSame(s.db.memberships, s.runs, HeldMembership, r, run');
      ExactSame(s.db.pairs, s.runs, HeldPair, r, run');
      QuietKeeps(s, s.Go(r, s.db.(profiles := profiles), Profiled), r);
  }

  /** A subject whose profile is committed has a membership to find, so the invariant error cannot be raised. */
  lemma ResolveAgainKeeps(s: Sys, r: Txn)
    requires Inv(s) && s.Active(r) && s.runs[r].phase.Recheck?
    ensures Inv(ResolveAgain(s, r))
  {
    assert RunOk(s.db, s.log, r, s.runs[r]);
    FindsMembership(s, s.runs[r].call.subject);
    LeaveKeeps(s, r, ContextFrom(s.db.Of(s.runs[r].call.subject), false));
  }

  lemma FindsMembership(s: Sys, user: Uuid)
    requires LogOk(s) && user in s.db.profiles.rows
    ensures s.db.Of(user) != {}
  {
    var u :| u in s.log && u in s.runs && s.runs[u].call.subject == user;
    assert s.db.memberships.rows[s.runs[u].call.membershipId] in s.db.Of(user);
  }

  lemma InsertAccountKeeps(s: Sys, r: Txn)
    requires Inv(s) && s.Active(r) && s.runs[r].phase.Profiled?
    ensures var n := InsertAccount(s, r); n.Some? ==> Inv(n.value)
  {
    var run := s.runs[r];
    match s.db.accounts.Insert(r, run.call.accountId, Present)
    case Blocked =>
    case Miss => LeaveKeeps(s, r, Failed(Integrity));
    case Hit(accounts, _) =>
      var run' := run.(phase := Opened);
      ExactSame(s.db.profiles, s.runs, HeldProfile, r, run');
      ExactPut(s.db.accounts, s.runs, HeldAccount, r, run', run.call.accountId, Present);
      ExactSame(s.db.memberships, s.runs, HeldMembership, r, run');
      ExactSame(s.db.pairs, s.runs, HeldPair, r, run');
      assert RunOk(s.db, s.log, r, run);
      QuietKeeps(s, s.Go(r, s.db.(accounts := accounts), Opened), r);
  }

  lemma InsertMembershipKeeps(s: Sys, r: Txn)
    requires Inv(s) && s.Active(r) && s.runs[r].phase.Opened?
    ensures var n := InsertMembership(s, r); n.Some? ==> Inv(n.value)
  {
    var run := s.runs[r];
    var call := run.call;
    match s.db.memberships.Insert(r, call.membershipId, call.Membership())
    case Blocked =>
    case Miss => LeaveKeeps(s, r, Failed(Integrity));
    case Hit(memberships, _) =>
      match s.db.pairs.Insert(r, (call.accountId, call.subject), call.membershipId)
      case Blocked =>
      case Miss => LeaveKeeps(s, r, Failed(Integrity));
      case Hit(pairs, _) =>
        var run' := run.(phase := Flushed);
        ExactSame(s.db.profiles, s.runs, HeldProfile, r, run');
        ExactSame(s.db.accounts, s.runs, HeldAccount, r, run');
        ExactPut(s.db.memberships, s.runs, HeldMembership, r, run', call.membershipId, call.Membership());
        ExactPut(s.db.pairs, s.runs, HeldPair, r, run', (call.accountId, call.subject), call.membershipId);
        assert RunOk(s.db, s.log, r, run);
        QuietKeeps(s, s.Go(r, s.db.(memberships := memberships, pairs := pairs), Flushed), r);
  }

  // ---------------------------------------------------------------- commit

  /** A commit publishes a profile, an account and an active owner membership, and nothing else. */
  predicate Publishes(db: Db, db': Db, call: Call) {
    && db'.profiles.rows == db.profiles.rows[call.subject := Present]
    && db'.accounts.rows == db.accounts.rows[call.accountId := Present]
    && db'.memberships.rows == db.memberships.rows[call.membershipId :=
         Identity.Membership(call.membershipId, call.accountId, call.subject, Owner, Active, call.stamp)]
    && db'.pairs.rows == db.pairs.rows[(call.accountId, call.subject) := call.membershipId]
  }

  lemma CommitEffect(s: Sys, r: Txn)
    requires Locks(s) && r in s.runs && s.runs[r].phase.Flushed?
    ensures Publishes(s.db, s.db.Commit(r), s.runs[r].call)
  {
    CommitHeld(s.db.profiles, s.runs, HeldProfile, r);
    CommitHeld(s.db.accounts, s.runs, HeldAccount, r);
    CommitHeld(s.db.memberships, s.runs, HeldMembership, r);
    CommitHeld(s.db.pairs, s.runs, HeldPair, r);
  }

  lemma CommitRuns(s: Sys, s': Sys, r: Txn, t: Txn)
    requires Inv(s) && r in s.runs && s.runs[r].phase.Flushed? && t in s.runs && t != r
    requires Publishes(s.db, s'.db, s.runs[r].call) && s'.log == s.log + [r]
    ensures RunOk(s'.db, s'.log, t, s.runs[t])
  {
    assert RunOk(s.db, s.log, t, s.runs[t]);
    if HeldProfile(s.runs[t]).Some? { HeldApart(s.db.profiles, s.runs, HeldProfile, r, t); }
    if HeldMembership(s.runs[t]).Some? { HeldApart(s.db.memberships, s.runs, HeldMembership, r, t); }
  }

  lemma FoundedStays(db: Db, db': Db, call: Call, other: Call)
    requires Founded(db, other) && Publishes(db, db', call) && call.membershipId !in db.memberships.rows
    ensures Founded(db', other) && Founded(db', call)
  {
  }

  lemma CommitSubjects(s: Sys, s': Sys, r: Txn)
    requires LogOk(s) && s.Active(r) && s'.log == s.log + [r] && Moves(s.runs, s'.runs, r)
    requires Publishes(s.db, s'.db, s.runs[r].call) && s'.runs[r].call == s.runs[r].call
    ensures forall user :: user in s'.db.profiles.rows ==> exists t :: t in s'.log && t in s'.runs && s'.runs[t].call.subject == user
  {
    forall user | user in s'.db.profiles.rows
      ensures exists t :: t in s'.log && t in s'.runs && s'.runs[t].call.subject == user
    {
      if user == s.runs[r].call.subject {
        assert s'.log[|s.log|] == r;
      } else {
        var t :| t in s.log && t in s.runs && s.runs[t].call.subject == user;
        assert t in s'.log;
      }
    }
  }

  lemma CommitDistinct(s: Sys, s': Sys, r: Txn)
    requires LogOk(s) && s.Active(r) && s'.log == s.log + [r] && Moves(s.runs, s'.runs, r) && s'.runs[r].call == s.runs[r].call
    requires s.runs[r].call.subject !in s.db.profiles.rows
    ensures forall i, j :: 0 <= i < j < |s'.log| ==>
      s'.log[i] in s'.runs && s'.log[j] in s'.runs && s'.runs[s'.log[i]].call.subject != s'.runs[s'.log[j]].call.subject
  {
    assert forall i :: 0 <= i < |s.log| ==> s.log[i] in s.log && s'.log[i] == s.log[i];
  }

  lemma CommitLog(s: Sys, s': Sys, r: Txn)
    requires LogOk(s) && s.Active(r) && RunOk(s.db, s.log, r, s.runs[r]) && s.runs[r].phase.Flushed?
    requires Publishes(s.db, s'.db, s.runs[r].call) && s'.log == s.log + [r]
    requires Moves(s.runs, s'.runs, r) && s'.runs[r].phase.Done? && Published(s'.runs[r].phase.outcome)
    ensures LogOk(s')
  {
    CommitSubjects(s, s', r);
    CommitDistinct(s, s', r);
    forall t | t in s'.log
      ensures t in s'.runs && s'.runs[t].phase.Done? && Founded(s'.db, s'.runs[t].call) && Published(s'.runs[t].phase.outcome)
    {
      if t in s.log {
        FoundedStays(s.db, s'.db, s.runs[r].call, s.runs[t].call);
      }
    }
  }

  lemma CommitKeeps(s: Sys, r: Txn, outcome: Outcome)
    requires Inv(s) && s.Active(r) && s.runs[r].phase.Flushed? && Published(outcome)
    ensures Inv(s.Commit(r, outcome))
  {
    var s' := s.Commit(r, outcome);
    ReleaseLocks(s, r, outcome);
    CommitEffect(s, r);
    assert RunOk(s.db, s.log, r, s.runs[r]);
    CommitLog(s, s', r);
    forall t | t in s'.runs ensures RunOk(s'.db, s'.log, t, s'.runs[t]) {
      if t != r { CommitRuns(s, s', r, t); } else { assert s'.log[|s.log|] == r; }
    }
  }

  // ---------------------------------------------------------------- memberships changed from outside

  /** Rows are added to memberships or amended in place; ids, accounts and users of old rows stay. */
  lemma OutsideKeeps(s: Sys, s': Sys)
    requires Inv(s) && s'.runs == s.runs && s'.log == s.log && Locks(s')
    requires s'.db.profiles.rows == s.db.profiles.rows && s'.db.accounts.rows == s.db.accounts.rows
    requires forall id :: id in s.db.memberships.rows ==>
      id in s'.db.memberships.rows
      && s'.db.memberships.rows[id].accountId == s.db.memberships.rows[id].accountId
      && s'.db.memberships.rows[id].userId == s.db.memberships.rows[id].userId
    requires forall id :: id in s'.db.memberships.rows ==> id in s.db.memberships.rows || id !in s.db.memberships.pending
    ensures Inv(s')
  {
    forall r | r in s'.runs ensures RunOk(s'.db, s'.log, r, s'.runs[r]) {
      assert RunOk(s.db, s.log, r, s.runs[r]);
    }
  }

  lemma NextKeeps(s: Sys, r: Txn)
    requires Inv(s) && s.Active(r)
    ensures var n := Next(s, r); n.Some? ==> Inv(n.value)
  {
    match s.runs[r].phase
    case Begin => ResolveKeeps(s, r);
    case Gate => InsertProfileKeeps(s, r);
    case Recheck => ResolveAgainKeeps(s, r);
    case Profiled => InsertAccountKeeps(s, r);
    case Opened => InsertMembershipKeeps(s, r);
    case Flushed => CommitKeeps(s, r, Context({s.runs[r].call.Membership()}, true));
  }

  lemma StepKeeps(s: Sys, a: Action)
    requires Inv(s)
    ensures var n := Step(s, a); n.Some? ==> Inv(n.value)
  {
    match a
    case Start(r, call) => if r !in s.runs { StartKeeps(s, r, call); }
    case Advance(r) => if s.Active(r) { NextKeeps(s, r); }
    case Cancel(r) => if s.Active(r) { LeaveKeeps(s, r, Failed(Cancelled)); }
    case LoseReply(r) => if s.Active(r) && s.runs[r].phase.Flushed? { CommitKeeps(s, r, Failed(ReplyLost)); }
    case Enroll(m) => if Admissible(s.db, m) { OutsideKeeps(s, Step(s, a).value); }
    case Amend(id, role, status) => if id in s.db.memberships.rows { OutsideKeeps(s, Step(s, a).value); }
  }

  /** Some run of the system, from empty tables, ends in this state. */
  ghost predicate Reached(s: Sys) { Machines.Reachable(Step, EMPTY, s) }

  lemma ReachedInv(s: Sys)
    requires Reached(s)
    ensures Inv(s)
  {
    var trace :| Machines.Execute(Step, EMPTY, trace) == Some(s);
    forall x, a | Inv(x) && Step(x, a).Some? ensures Inv(Step(x, a).value) {
      StepKeeps(x, a);
    }
    Machines.Invariant(Step, Inv, EMPTY, trace, s);
  }

  // ---------------------------------------------------------------- what a reader may rely on

  predicate Created(s: Sys, r: Txn) {
    r in s.runs && s.runs[r].phase.Done? && s.runs[r].phase.outcome.Context? && s.runs[r].phase.outcome.created
  }

  /**
   Whatever the ids and the interleaving: every committed profile was founded together with its account and its
   membership by one logged run, no two logged runs share a subject, at most one run of a subject reports that it
   created the account, a run that found memberships committed nothing, and no run fails on a half-made projection.
   */
  lemma OneAggregatePerSubject(s: Sys)
    requires Reached(s)
    ensures forall user :: user in s.db.profiles.rows ==>
      exists r :: r in s.log && r in s.runs && s.runs[r].call.subject == user && Founded(s.db, s.runs[r].call)
    ensures forall i, j :: 0 <= i < j < |s.log| ==>
      s.log[i] in s.runs && s.log[j] in s.runs && s.runs[s.log[i]].call.subject != s.runs[s.log[j]].call.subject
    ensures forall r, u :: Created(s, r) && Created(s, u) && s.runs[r].call.subject == s.runs[u].call.subject ==> r == u
    ensures forall r :: r in s.log ==> r in s.runs && s.runs[r].phase.Done? && Published(s.runs[r].phase.outcome)
    ensures forall r :: r in s.runs && s.runs[r].phase.Done? ==> !s.runs[r].phase.outcome.InvariantError?
  {
    ReachedInv(s);
    forall r, u | Created(s, r) && Created(s, u) && s.runs[r].call.subject == s.runs[u].call.subject ensures r == u {
      CreatedLogged(s, r);
      CreatedLogged(s, u);
    }
    forall r | r in s.runs && s.runs[r].phase.Done? ensures !s.runs[r].phase.outcome.InvariantError? {
      assert RunOk(s.db, s.log, r, s.runs[r]);
    }
  }

  lemma CreatedLogged(s: Sys, r: Txn)
    requires Inv(s) && Created(s, r)
    ensures r in s.log
  {
    assert RunOk(s.db, s.log, r, s.runs[r]);
  }

  lemma ReachedLocks(s: Sys)
    requires Reached(s)
    ensures Locks(s)
  {
    ReachedInv(s);
  }

  lemma CommitPublishes(s: Sys, r: Txn)
    requires Reached(s) && s.Active(r) && s.runs[r].phase.Flushed?
    ensures Publishes(s.db, s.db.Commit(r), s.runs[r].call)
  {
    ReachedLocks(s);
    CommitEffect(s, r);
  }

  /** A step of a run either publishes its whole aggregate, with the subject as active owner, or no row at all. */
  lemma AllOrNothing(s: Sys, a: Action, n: Sys)
    requires Reached(s) && Step(s, a) == Some(n) && !a.Enroll? && !a.Amend?
    ensures SameRows(s.db, n.db) || (s.Active(a.run) && Publishes(s.db, n.db, s.runs[a.run].call) && n.log == s.log + [a.run])
    ensures a.Cancel? ==> SameRows(s.db, n.db)
  {
    match a
    case Start(_, _) =>
    case Cancel(_) =>
    case Advance(r) => if s.runs[r].phase.Flushed? { CommitPublishes(s, r); }
    case LoseReply(r) => CommitPublishes(s, r);
  }

  /**
   Where each statement takes a run, by the rows as committed at that moment: it ends at either read exactly when it finds
   memberships, with the context they give and nothing written; it goes on from every insert exactly when the key is free,
   the profile's decided by the gate; and its commit ends it with the new owner membership alone.
   */
  lemma EndsExactly(s: Sys, r: Txn, n: Sys)
    requires Reached(s) && s.Active(r) && Next(s, r) == Some(n)
    ensures var call, found, end := s.runs[r].call, s.db.Of(s.runs[r].call.subject), n.runs[r].phase;
      && (end == Done(Failed(Integrity)) ==> n.db == s.db.Rollback(r))
      && match s.runs[r].phase
         case Begin => if found == {} then end.Gate? else end == Done(ContextFrom(found, false)) && n.db == s.db.Rollback(r)
         case Gate => if call.subject in s.db.profiles.rows then end.Recheck? else end.Profiled?
         case Recheck => found != {} && end == Done(ContextFrom(found, false)) && n.db == s.db.Rollback(r)
         case Profiled => if call.accountId in s.db.accounts.rows then end == Done(Failed(Integrity)) else end.Opened?
         case Opened =>
           if call.membershipId in s.db.memberships.rows || (call.accountId, call.subject) in s.db.pairs.rows
           then end == Done(Failed(Integrity)) else end.Flushed?
         case Flushed =>
           var owner := Identity.Membership(call.membershipId, call.accountId, call.subject, Owner, Active, call.stamp);
           end == Done(Context({owner}, true)) && n.db == s.db.Commit(r)
  {
    OwnsNothingYet(s, r);
    if s.runs[r].phase.Recheck? { RecheckFinds(s, r); }
  }

  /** A run owns no row that it has still to insert. */
  lemma OwnsNothingYet(s: Sys, r: Txn)
    requires Reached(s) && s.Active(r)
    ensures s.runs[r].phase.Gate? ==> !s.db.profiles.Owns(r, s.runs[r].call.subject)
    ensures s.runs[r].phase.Profiled? ==> !s.db.accounts.Owns(r, s.runs[r].call.accountId)
    ensures s.runs[r].phase.Opened? ==> !s.db.memberships.Owns(r, s.runs[r].call.membershipId)
    ensures s.runs[r].phase.Opened? ==> !s.db.pairs.Owns(r, (s.runs[r].call.accountId, s.runs[r].call.subject))
  {
    ReachedLocks(s);
    if s.runs[r].phase.Gate? { assert HeldProfile(s.runs[r]).None?; }
    if s.runs[r].phase.Profiled? { assert HeldAccount(s.runs[r]).None?; }
    if s.runs[r].phase.Opened? { assert HeldMembership(s.runs[r]).None? && HeldPair(s.runs[r]).None?; }
  }

  /** A run waits exactly while another run is inserting the key it needs next. */
  lemma WaitsExactly(s: Sys, r: Txn)
    requires Reached(s) && s.Active(r)
    ensures var call := s.runs[r].call;
      Next(s, r).None? <==>
        match s.runs[r].phase
        case Gate => call.subject in s.db.profiles.pending
        case Profiled => call.accountId in s.db.accounts.pending
        case Opened =>
          call.membershipId in s.db.memberships.pending
          || (call.membershipId !in s.db.memberships.rows && (call.accountId, call.subject) in s.db.pairs.pending)
        case _ => false
  {
    OwnsNothingYet(s, r);
  }

  /** A cancelled run is rolled back; one whose reply is lost has committed all the same. */
  lemma InterruptsExactly(s: Sys, r: Txn)
    requires Reached(s) && s.Active(r)
    ensures Step(s, Cancel(r)) == Some(s.Go(r, s.db.Rollback(r), Done(Failed(Cancelled))))
    ensures Step(s, LoseReply(r)).Some? <==> s.runs[r].phase.Flushed?
    ensures s.runs[r].phase.Flushed? ==>
      var lost, kept := Step(s, LoseReply(r)).value, Step(s, Advance(r));
      kept.Some? && lost.db == kept.value.db && lost.log == kept.value.log && lost.runs[r].phase == Done(Failed(ReplyLost))
  {
  }

  lemma RecheckFinds(s: Sys, r: Txn)
    requires Reached(s) && s.Active(r) && s.runs[r].phase.Recheck?
    ensures s.db.Of(s.runs[r].call.subject) != {}
  {
    ReachedInv(s);
    assert RunOk(s.db, s.log, r, s.runs[r]);
    FindsMembership(s, s.runs[r].call.subject);
  }

  /** Memberships found admit the subject if one is active; else the subject is told of an invitation before a suspension. */
  lemma ContextExact(found: set<Membership>, created: bool)
    requires found != {}
    ensures var outcome := ContextFrom(found, created);
      && (outcome.Context? <==> exists m :: m in found && m.status.Active?)
      && (outcome.Context? ==> outcome.created == created && forall m :: m in outcome.active <==> m in found && m.status.Active?)
      && (outcome == Denied(WasSuspended) <==> forall m :: m in found ==> m.status.Suspended?)
      && (outcome == Denied(WasInvited) <==> (forall m :: m in found ==> !m.status.Active?) && exists m :: m in found && m.status.Invited?)
  {
    var m :| m in found;
    var active := set m | m in found && m.status.Active?;
    if x :| x in found && x.status.Active? { assert x in active; }
  }

  /** A run that is over holds no lock and has left no uncommitted row. */
  lemma OverHoldsNothing(s: Sys, r: Txn)
    requires Reached(s) && r in s.runs && s.runs[r].phase.Done?
    ensures forall k :: !s.db.profiles.Owns(r, k) && !s.db.accounts.Owns(r, k) && !s.db.memberships.Owns(r, k)
    ensures forall k :: !s.db.pairs.Owns(r, k)
  {
    ReachedLocks(s);
  }

  // ---------------------------------------------------------------- progress

  function Weight(p: Phase): nat {
    match p
    case Begin => 6
    case Gate => 5
    case Profiled => 4
    case Opened => 3
    case Flushed => 2
    case Recheck => 1
    case Done(_) => 0
  }

  lemma GateWaits(s: Sys, r: Txn) returns (b: Txn)
    requires Exact(s.db.profiles, s.runs, HeldProfile) && s.Active(r) && InsertProfile(s, r).None?
    ensures s.Active(b) && Weight(s.runs[b].phase) < 5
  {
    b := s.db.profiles.pending[s.runs[r].call.subject].owner;
    Holder(s.db.profiles, s.runs, HeldProfile, s.runs[r].call.subject);
  }

  lemma AccountWaits(s: Sys, r: Txn) returns (b: Txn)
    requires Exact(s.db.accounts, s.runs, HeldAccount) && s.Active(r) && InsertAccount(s, r).None?
    ensures s.Active(b) && Weight(s.runs[b].phase) < 4
  {
    b := s.db.accounts.pending[s.runs[r].call.accountId].owner;
    Holder(s.db.accounts, s.runs, HeldAccount, s.runs[r].call.accountId);
  }

  lemma MembershipWaits(s: Sys, r: Txn) returns (b: Txn)
    requires Exact(s.db.memberships, s.runs, HeldMembership) && Exact(s.db.pairs, s.runs, HeldPair)
    requires s.Active(r) && InsertMembership(s, r).None?
    ensures s.Active(b) && Weight(s.runs[b].phase) < 3
  {
    var call := s.runs[r].call;
    if s.db.memberships.LockedFor(r, call.membershipId) {
      b := s.db.memberships.pending[call.membershipId].owner;
      Holder(s.db.memberships, s.runs, HeldMembership, call.membershipId);
    } else {
      b := s.db.pairs.pending[(call.accountId, call.subject)].owner;
      Holder(s.db.pairs, s.runs, HeldPair, (call.accountId, call.subject));
    }
  }

  /** Locks are taken profile first, then account, then membership, so whoever is waited for is nearer its end. */
  lemma Waits(s: Sys, r: Txn) returns (b: Txn)
    requires Locks(s) && s.Active(r) && Next(s, r).None?
    ensures s.Active(b) && Weight(s.runs[b].phase) < Weight(s.runs[r].phase)
  {
    match s.runs[r].phase
    case Gate => b := GateWaits(s, r);
    case Profiled => b := AccountWaits(s, r);
    case Opened => b := MembershipWaits(s, r);
  }

  function Open(s: Sys): set<Txn> { set r | r in s.runs && !s.runs[r].phase.Done? }

  function Distance(s: Sys, r: Txn): nat { if r in s.runs then Weight(s.runs[r].phase) else 0 }

  const DRIVE: Progress.Drive<Sys, Action> := Progress.Drive(Step, EMPTY, Open, Distance, r => Advance(r))

  lemma NextLightens(s: Sys, r: Txn, n: Sys)
    requires s.Active(r) && Next(s, r) == Some(n)
    ensures r in n.runs && n.runs == s.runs[r := n.runs[r]] && Weight(n.runs[r].phase) < Weight(s.runs[r].phase)
  {
  }

  lemma Driven()
    ensures Progress.Sound(DRIVE)
  {
    forall s, r | Machines.Reachable(Step, EMPTY, s) && r in Open(s) ensures DRIVE.Waits(s, r) && DRIVE.Advances(s, r) {
      assert DRIVE.Next(s, r) == Next(s, r);
      match Next(s, r)
      case None =>
        ReachedLocks(s);
        var b := Waits(s, r);
        assert DRIVE.Nearer(s, b, r);
      case Some(n) => NextLightens(s, r, n);
    }
  }

  /** No deadlock: every reachable state has a schedule of statements and commits after which every run has returned. */
  lemma NoDeadlock(s: Sys) returns (trace: seq<Action>, s': Sys)
    requires Reached(s)
    ensures Execute(s, trace) == Some(s') && Reached(s') && Open(s') == {}
    ensures forall i :: 0 <= i < |trace| ==> trace[i].Advance?
  {
    Driven();
    trace, s' := Progress.FinishAll(DRIVE, s);
  }
}
