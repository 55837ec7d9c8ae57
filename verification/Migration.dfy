/** Controlled migrations: one advisory lock, any number of runners, each statement of which may fail. */
module Migration {
  import opened Wrappers
  import Machines

  type Session = nat

  // ---------------------------------------------------------------- one runner

  /** What a single execution meets on its way; the upgrade leaves `rows` in the version table, whether or not it raises. */
  datatype Environment = Environment(
    databaseUrl: Option<string>, head: Option<string>, connects: bool, rows: seq<string>, raises: bool, readable: bool,
    unlockable: bool)
  {
    /** What has to go well for an execution to succeed on a free lock. */
    predicate Smooth() {
      && databaseUrl.Some? && databaseUrl.value != "" && head.Some? && connects
      && !raises && rows == [head.value] && readable && unlockable
    }

    predicate Connects() { databaseUrl.Some? && databaseUrl.value != "" && head.Some? && connects }
  }

  datatype Failure = NoUrl | NoHead | Unreachable | LockUnavailable | UpgradeFailed | ReadFailed | WrongRevision | UnlockFailed

  class Database {
    var holder: Option<Session>
    var versions: seq<string>

    /** SELECT pg_try_advisory_lock. */
    method TryLock(session: Session) returns (acquired: bool)
      modifies this`holder
      ensures acquired == (old(holder).None? || old(holder) == Some(session))
      ensures holder == if acquired then Some(session) else old(holder)
    {
      acquired := holder.None? || holder == Some(session);
      if acquired { holder := Some(session); }
    }

    /** SELECT pg_advisory_unlock. */
    method Unlock(session: Session) returns (unlocked: bool)
      modifies this`holder
      ensures unlocked == (old(holder) == Some(session))
      ensures holder == if unlocked then None else old(holder)
    {
      unlocked := holder == Some(session);
      if unlocked { holder := None; }
    }

    /** Closing a connection ends its session, and with it the session's locks. */
    method Close(session: Session)
      modifies this`holder
      ensures holder == if old(holder) == Some(session) then None else old(holder)
    {
      if holder == Some(session) { holder := None; }
    }
  }

  /** The body of the inner `try`: upgrade, then verify. */
  method UpgradeAndVerify(db: Database, env: Environment) returns (failure: Option<Failure>)
    requires env.head.Some?
    modifies db`versions
    ensures db.versions == env.rows
    ensures failure.None? <==> !env.raises && env.readable && env.rows == [env.head.value]
    ensures failure.Some? ==> failure.value in {UpgradeFailed, ReadFailed, WrongRevision}
  {
    db.versions := env.rows;
    if env.raises { return Some(UpgradeFailed); }
    if !env.readable { return Some(ReadFailed); }
    failure := if db.versions != [env.head.value] then Some(WrongRevision) else None;
  }

  /**
   `migrate`: succeeds exactly on a free lock and a smooth way, and on every path gives the lock back as it found it;
   without the lock it does not touch the schema.
   */
  method Migrate(db: Database, session: Session, env: Environment) returns (failure: Option<Failure>)
    requires db.holder != Some(session)
    modifies db
    ensures db.holder == old(db.holder)
    ensures failure.None? <==> old(db.holder).None? && env.Smooth()
    ensures failure == Some(LockUnavailable) <==> old(db.holder).Some? && env.Connects()
    ensures db.versions == if old(db.holder).None? && env.Connects() then env.rows else old(db.versions)
    ensures failure.None? ==> db.versions == [env.head.value]
  {
    if env.databaseUrl.None? || env.databaseUrl.value == "" { return Some(NoUrl); }
    if env.head.None? { return Some(NoHead); }
    if !env.connects { return Some(Unreachable); }
    var acquired := db.TryLock(session);
    if !acquired {
      failure := Some(LockUnavailable);
    } else {
      failure := UpgradeAndVerify(db, env);
      if env.unlockable {
        var unlocked := db.Unlock(session);
      } else {
        failure := Some(UnlockFailed);
      }
    }
    db.Close(session);
  }

  /** `main`: the exit code. */
  method ExitCode(db: Database, session: Session, env: Environment) returns (code: nat)
    requires db.holder != Some(session)
    modifies db
    ensures code == 0 <==> old(db.holder).None? && env.Smooth()
    ensures code <= 1 && db.holder == old(db.holder)
  {
    var failure := Migrate(db, session, env);
    code := if failure.None? then 0 else 1;
  }

  // ---------------------------------------------------------------- any number of runners

  /** Where a runner stands; from `Locked` to `Unlocking` it is between acquiring and releasing. */
  datatype Phase =
    | Starting | Connected | Locked | Upgraded | Unlocking(ok: bool) | Closing(ok: bool) | Exited(code: nat)

  /** What the version table held when it was read, and who held the lock. */
  datatype Reading = Reading(rows: seq<string>, holder: Option<Session>)

  /**
   `alive` is false once the server has dropped the runner's connection; `thread` is true while an upgrade goes on whose
   wait was cancelled.
   */
  datatype Runner = Runner(head: string, phase: Phase, alive: bool, thread: bool, seen: Option<Reading>)

  datatype LockEvent = Acquired(session: Session) | Released(session: Session)

  datatype Sys = Sys(holder: Option<Session>, versions: seq<string>, runners: map<Session, Runner>, log: seq<LockEvent>)
  {
    function Go(r: Session, phase: Phase): Sys
      requires r in runners
    {
      this.(runners := runners[r := runners[r].(phase := phase)])
    }

    function Grant(r: Session): Sys { this.(holder := Some(r), log := log + [Acquired(r)]) }

    function Free(r: Session): Sys {
      if holder == Some(r) then this.(holder := None, log := log + [Released(r)]) else this
    }
  }

  const EMPTY: Sys := Sys(None, [], map[], [])

  /**
   How a statement goes. It can fail before the server acts or, when only the reply is lost, after. An upgrade leaves
   `rows` in the version table whether or not it raises; it uses connections of its own, in a thread that goes on when
   only the wait for it is cancelled.
   */
  datatype Luck = Fine(rows: seq<string>) | Fails(rows: seq<string>) | Lost

  function Next(s: Sys, r: Session, luck: Luck): Option<Sys>
    requires r in s.runners
  {
    var fine := luck.Fine? && s.runners[r].alive;
    var lost := luck.Lost? && s.runners[r].alive;
    match s.runners[r].phase
    case Starting => Some(s.Go(r, if fine then Connected else Exited(1)))
    case Connected =>
      if fine && s.holder.None? then Some(s.Grant(r).Go(r, Locked))
      else if lost && s.holder.None? then Some(s.Grant(r).Go(r, Closing(false)))
      else Some(s.Go(r, Closing(false)))
    case Locked =>
      (match luck
       case Fine(rows) => Some(s.Go(r, Upgraded).(versions := rows))
       case Fails(rows) => Some(s.Go(r, Unlocking(false)).(versions := rows))
       case Lost => Some(s.(runners := s.runners[r := s.runners[r].(phase := Unlocking(false), thread := true)])))
    case Upgraded =>
      if fine then
        var n := s.(runners := s.runners[r := s.runners[r].(seen := Some(Reading(s.versions, s.holder)))]);
        Some(n.Go(r, Unlocking(s.versions == [s.runners[r].head])))
      else Some(s.Go(r, Unlocking(false)))
    case Unlocking(ok) =>
      if fine then Some(s.Free(r).Go(r, Closing(ok)))
      else if lost then Some(s.Free(r).Go(r, Closing(false)))
      else Some(s.Go(r, Closing(false)))
    case Closing(ok) => Some(s.Free(r).Go(r, Exited(if ok then 0 else 1)))
    case Exited(_) => None
  }

  datatype Action =
    | Start(runner: Session, head: string)
    | Advance(runner: Session, luck: Luck)
    | Drop(runner: Session)
    | EndThread(runner: Session, rows: seq<string>)

  function Step(s: Sys, a: Action): Option<Sys> {
    match a
    case Start(r, head) =>
      if r in s.runners then None else Some(s.(runners := s.runners[r := Runner(head, Starting, true, false, None)]))
    case Advance(r, luck) => if r in s.runners then Next(s, r, luck) else None
    case Drop(r) =>
      if r in s.runners && !s.runners[r].phase.Starting? && !s.runners[r].phase.Exited? then
        Some(s.Free(r).(runners := s.runners[r := s.runners[r].(alive := false)]))
      else None
    case EndThread(r, rows) =>
      if r in s.runners && s.runners[r].thread then
        Some(s.(versions := rows, runners := s.runners[r := s.runners[r].(thread := false)]))
      else None
  }

  function Execute(s: Sys, trace: seq<Action>): Option<Sys> { Machines.Execute(Step, s, trace) }

  // ---------------------------------------------------------------- what every step keeps

  predicate Inside(p: Phase) { p.Locked? || p.Upgraded? || p.Unlocking? }

  /** The log so far leaves the lock with `holder`, and was bracketed: each release is by the last acquirer. */
  predicate Bracketed(log: seq<LockEvent>, holder: Option<Session>) {
    if log == [] then holder.None?
    else match log[|log| - 1]
      case Acquired(r) => holder == Some(r) && Bracketed(log[..|log| - 1], None)
      case Released(r) => holder.None? && Bracketed(log[..|log| - 1], Some(r))
  }

  predicate RunnerOk(s: Sys, r: Session)
    requires r in s.runners
  {
    var x := s.runners[r];
    && (Inside(x.phase) && x.alive ==> s.holder == Some(r))
    && (s.holder == Some(r) ==> x.alive && (Inside(x.phase) || x.phase == Closing(false)))
    && (x.phase == Unlocking(true) || x.phase == Closing(true) || x.phase == Exited(0) ==> x.seen == Some(Reading([x.head], Some(r))))
  }

  ghost predicate Inv(s: Sys) {
    && (forall r :: r in s.runners ==> RunnerOk(s, r))
    && (s.holder.Some? ==> s.holder.value in s.runners)
    && Bracketed(s.log, s.holder)
  }

  lemma LogOn(log: seq<LockEvent>, e: LockEvent)
    ensures (log + [e])[..|log|] == log && (log + [e])[|log|] == e
  {
  }

  /** A step of `r` keeps the invariant when `r` is well placed afterwards and whoever else held the lock still does. */
  lemma Keeps(s: Sys, n: Sys, r: Session)
    requires Inv(s) && r in n.runners && n.runners == s.runners[r := n.runners[r]] && RunnerOk(n, r)
    requires n.holder == s.holder || (s.holder.None? && n.holder == Some(r)) || (s.holder == Some(r) && n.holder.None?)
    requires Bracketed(n.log, n.holder)
    ensures Inv(n)
  {
    forall u | u in n.runners ensures RunnerOk(n, u) {
      if u != r { assert RunnerOk(s, u); }
    }
  }

  lemma NextKeeps(s: Sys, r: Session, luck: Luck)
    requires Inv(s) && r in s.runners
    ensures var n := Next(s, r, luck); n.Some? ==> Inv(n.value)
  {
    LogOn(s.log, Acquired(r));
    LogOn(s.log, Released(r));
    assert RunnerOk(s, r);
    match Next(s, r, luck) case None => case Some(n) => Keeps(s, n, r);
  }

  lemma StepKeeps(s: Sys, a: Action)
    requires Inv(s)
    ensures var n := Step(s, a); n.Some? ==> Inv(n.value)
  {
    match a
    case Start(r, _) =>
      match Step(s, a) { case None => case Some(n) => Keeps(s, n, r); }
    case Advance(r, luck) => if r in s.runners { NextKeeps(s, r, luck); }
    case Drop(r) =>
      LogOn(s.log, Released(r));
      match Step(s, a) {
        case None =>
        case Some(n) =>
          assert RunnerOk(s, r);
          Keeps(s, n, r);
      }
    case EndThread(r, _) =>
      match Step(s, a) {
        case None =>
        case Some(n) =>
          assert RunnerOk(s, r);
          Keeps(s, n, r);
      }
  }

  /** Some interleaving of runners, from a free lock, ends in this state. */
  ghost predicate Reached(s: Sys) { Machines.Reachable(Step, EMPTY, s) }

  lemma ReachedInv(s: Sys)
    requires Reached(s)
    ensures Inv(s)
  {
    var trace :| Machines.Execute(Step, EMPTY, trace) == Some(s);
    forall x, a | Inv(x) && Step(x, a).Some? ensures Inv(Step(x, a).value) {
      StepKeeps(x, a);
    }
    Machines.Invariant(Step, Inv, EMPTY, trace, s);
  }

  // ---------------------------------------------------------------- the theorems

  /** Between acquiring and releasing, over a living connection. */
  predicate Holds(s: Sys, r: Session) { r in s.runners && Inside(s.runners[r].phase) && s.runners[r].alive }

  /**
   However runners interleave and fail: of those whose connection lives, at most one is between acquiring and
   releasing; a runner in between has the lock if and only if its connection lives; every acquisition is released by the
   session that made it before the next one; a runner that has exited holds nothing; and exit code 0 means that the
   version table was read as exactly the head under the runner's own lock.
   */
  lemma MutualExclusion(s: Sys)
    requires Reached(s)
    ensures forall r, u :: Holds(s, r) && Holds(s, u) ==> r == u
    ensures forall r :: r in s.runners && Inside(s.runners[r].phase) ==> (s.holder == Some(r) <==> s.runners[r].alive)
    ensures Bracketed(s.log, s.holder)
    ensures forall r :: r in s.runners && s.runners[r].phase.Exited? ==> s.holder != Some(r)
    ensures forall r :: r in s.runners && s.runners[r].phase == Exited(0) ==> s.runners[r].seen == Some(Reading([s.runners[r].head], Some(r)))
  {
    ReachedInv(s);
  }

  /** Unlocking over a living connection always finds the lock its own: the logged unlock failure cannot happen. */
  lemma UnlockSucceeds(s: Sys, r: Session)
    requires Reached(s) && r in s.runners && s.runners[r].phase.Unlocking? && s.runners[r].alive
    ensures s.holder == Some(r) && s.Free(r).holder == None
  {
    ReachedInv(s);
    assert RunnerOk(s, r);
  }

  /** A runner that never acquired never unlocks: it is not among the log's sessions until it is inside. */
  lemma {:induction false} OnlyAcquirersRelease(log: seq<LockEvent>, holder: Option<Session>, i: nat)
    requires Bracketed(log, holder) && i < |log| && log[i].Released?
    ensures i > 0 && log[i - 1] == Acquired(log[i].session)
    decreases |log|
  {
    if i < |log| - 1 {
      var h := if log[|log| - 1].Acquired? then None else Some(log[|log| - 1].session);
      OnlyAcquirersRelease(log[..|log| - 1], h, i);
    }
  }

  // ---------------------------------------------------------------- when exclusion ends

  ghost predicate ByOthers(trace: seq<Action>, r: Session) { forall i :: 0 <= i < |trace| ==> trace[i].runner != r }

  /** By the actions of others alone, `v` comes to stand between acquiring and releasing, over a living connection. */
  ghost predicate Overtaken(s: Sys, r: Session, more: seq<Action>, n: Sys, v: Session) {
    ByOthers(more, r) && Execute(s, more) == Some(n) && v != r && Holds(n, v)
  }

  ghost predicate OthersCanHold(s: Sys, r: Session) { exists more, n, v :: Overtaken(s, r, more, n, v) }

  /** The same, with `v` at its upgrade. */
  ghost predicate OthersCanUpgrade(s: Sys, r: Session) {
    exists more, n, v :: Overtaken(s, r, more, n, v) && n.runners[v].phase.Locked?
  }

  lemma OthersKeep(s: Sys, a: Action, n: Sys, r: Session)
    requires r in s.runners && s.holder == Some(r) && a.runner != r && Step(s, a) == Some(n)
    ensures r in n.runners && n.holder == Some(r)
  {
  }

  /** While a session has the lock nobody else gets it. */
  lemma {:induction false} StaysHeld(s: Sys, r: Session, more: seq<Action>, n: Sys)
    requires Reached(s) && r in s.runners && s.holder == Some(r) && ByOthers(more, r) && Execute(s, more) == Some(n)
    ensures Reached(n) && n.holder == Some(r)
    decreases |more|
  {
    if more != [] {
      var m := Step(s, more[0]).value;
      OthersKeep(s, more[0], m, r);
      Machines.Single(Step, s, more[0]);
      Machines.ReachableOn(Step, EMPTY, s, [more[0]], m);
      StaysHeld(m, r, more[1..], n);
    }
  }

  /** A run of others that leads from `s` to `n`. */
  ghost predicate Others(s: Sys, r: Session, more: seq<Action>, n: Sys) { ByOthers(more, r) && Execute(s, more) == Some(n) && Reached(n) }

  lemma Then(s: Sys, r: Session, more: seq<Action>, m: Sys, a: Action) returns (longer: seq<Action>, n: Sys)
    requires Others(s, r, more, m) && Step(m, a).Some? && a.runner != r
    ensures Others(s, r, longer, n) && Step(m, a) == Some(n)
  {
    longer, n := more + [a], Step(m, a).value;
    Machines.Extend(Step, s, more, m, a);
    Machines.Single(Step, m, a);
    Machines.ReachableOn(Step, EMPTY, m, [a], n);
  }

  /** Whoever else has the lock can be brought to give it up. */
  lemma {:induction false} GivesUp(s: Sys, r: Session, more: seq<Action>, m: Sys) returns (longer: seq<Action>, n: Sys)
    requires Others(s, r, more, m) && m.holder != Some(r)
    ensures Others(s, r, longer, n) && n.holder.None?
    decreases if m.holder.None? then 0 else Rank(m, m.holder.value)
  {
    longer, n := more, m;
    if m.holder.Some? {
      var h := m.holder.value;
      ReachedInv(m);
      assert RunnerOk(m, h);
      longer, n := Then(s, r, more, m, Advance(h, Fine(m.versions)));
      longer, n := GivesUp(s, r, longer, n);
    }
  }

  function Rank(s: Sys, h: Session): nat {
    if h !in s.runners then 0
    else match s.runners[h].phase
      case Locked => 4
      case Upgraded => 3
      case Unlocking(_) => 2
      case Closing(_) => 1
      case _ => 0
  }

  lemma {:induction false} SomeNewSession(taken: set<Session>) returns (u: Session)
    ensures u !in taken && forall t :: t in taken ==> t < u
    decreases taken
  {
    u := 0;
    if taken != {} {
      var t :| t in taken;
      u := SomeNewSession(taken - {t});
      if u <= t { u := t + 1; }
      assert forall x :: x in taken ==> x == t || x in taken - {t};
    }
  }

  /** Where `r` has not the lock, a new runner can acquire it and upgrade. */
  lemma OthersUpgrade(s: Sys, r: Session)
    requires Reached(s) && r in s.runners && s.holder != Some(r)
    ensures OthersCanUpgrade(s, r) && OthersCanHold(s, r)
  {
    var ok := Fine(s.versions);
    var more, m := GivesUp(s, r, [], s);
    var u := SomeNewSession(m.runners.Keys + {r});
    var n;
    more, n := Then(s, r, more, m, Start(u, ""));
    more, n := Then(s, r, more, n, Advance(u, ok));
    more, n := Then(s, r, more, n, Advance(u, ok));
    assert Overtaken(s, r, more, n, u) && n.runners[u].phase.Locked?;
  }

  lemma NobodyHolds(s: Sys, r: Session)
    requires Reached(s) && r in s.runners && s.holder == Some(r)
    ensures !OthersCanHold(s, r) && !OthersCanUpgrade(s, r)
  {
    forall more, n, v | ByOthers(more, r) && Execute(s, more) == Some(n) && Holds(n, v) ensures v == r {
      StaysHeld(s, r, more, n);
      HolderHolds(n, v);
    }
  }

  lemma HolderHolds(s: Sys, r: Session)
    requires Reached(s) && Holds(s, r)
    ensures s.holder == Some(r)
  {
    ReachedInv(s);
    assert RunnerOk(s, r);
  }

  /**
   The exclusion, exactly: while a runner is between acquiring and releasing, others can come to stand there too, without
   any action of the runner itself, if and only if the server has dropped the runner's connection.
   */
  lemma ExclusionIsTheConnections(s: Sys, r: Session)
    requires Reached(s) && r in s.runners && Inside(s.runners[r].phase)
    ensures OthersCanHold(s, r) <==> !s.runners[r].alive
  {
    ReachedInv(s);
    assert RunnerOk(s, r);
    if s.runners[r].alive { NobodyHolds(s, r); } else { OthersUpgrade(s, r); }
  }

  /** The runner's upgrade is going on: it is waited for, or its wait was cancelled. */
  predicate Upgrading(s: Sys, r: Session) { r in s.runners && (s.runners[r].phase.Locked? || s.runners[r].thread) }

  /**
   Overlapping upgrades, exactly: while a runner's upgrade goes on another runner can upgrade if and only if the upgrading
   runner's session has lost the lock, by a dropped connection or, after a cancelled wait, by its own unlocking.
   */
  lemma UpgradesOverlapExactly(s: Sys, r: Session)
    requires Reached(s) && Upgrading(s, r)
    ensures OthersCanUpgrade(s, r) <==> s.holder != Some(r)
    ensures Inside(s.runners[r].phase) ==> (s.holder == Some(r) <==> s.runners[r].alive)
  {
    ReachedInv(s);
    assert RunnerOk(s, r);
    if s.holder == Some(r) { NobodyHolds(s, r); } else { OthersUpgrade(s, r); }
  }

  /** A cancelled wait does lose the lock over a living connection while the upgrade goes on. */
  lemma CancelledUpgradeGoesOn(s: Sys, r: Session) returns (n: Sys)
    requires Reached(s) && r in s.runners && s.runners[r].phase.Locked? && s.runners[r].alive
    ensures Execute(s, [Advance(r, Lost), Advance(r, Fine(s.versions))]) == Some(n) && Reached(n)
    ensures Upgrading(n, r) && n.runners[r].alive && OthersCanUpgrade(n, r)
  {
    ReachedInv(s);
    assert RunnerOk(s, r);
    var m := Next(s, r, Lost).value;
    n := Next(m, r, Fine(s.versions)).value;
    Machines.Single(Step, s, Advance(r, Lost));
    Machines.Extend(Step, s, [Advance(r, Lost)], m, Advance(r, Fine(s.versions)));
    assert [Advance(r, Lost)] + [Advance(r, Fine(s.versions))] == [Advance(r, Lost), Advance(r, Fine(s.versions))];
    Machines.ReachableOn(Step, EMPTY, s, [Advance(r, Lost), Advance(r, Fine(s.versions))], n);
    UpgradesOverlapExactly(n, r);
  }

  // ---------------------------------------------------------------- undisturbed runs

  lemma Goes(s: Sys, trace: seq<Action>, m: Sys, a: Action, n: Sys)
    requires Execute(s, trace) == Some(m) && Step(m, a) == Some(n)
    ensures Execute(s, trace + [a]) == Some(n)
  {
    Machines.Extend(Step, s, trace, m, a);
  }

  /**
   A runner that finds the lock free and meets no failure exits 0 if its upgrade leaves exactly its head, else 1; the lock
   is free again.
   */
  lemma LoneRun(s: Sys, u: Session, head: string, rows: seq<string>) returns (n: Sys)
    requires s.holder.None? && u !in s.runners
    ensures var a := Advance(u, Fine(rows)); Execute(s, [Start(u, head)] + [a] + [a] + [a] + [a] + [a] + [a]) == Some(n)
    ensures u in n.runners && n.runners[u].phase == Exited(if rows == [head] then 0 else 1)
    ensures n.holder.None? && n.versions == rows
  {
    var a := Advance(u, Fine(rows));
    var b := Step(s, Start(u, head)).value;
    Machines.Single(Step, s, Start(u, head));
    var c := Step(b, a).value;
    Goes(s, [Start(u, head)], b, a, c);
    var d := Step(c, a).value;
    Goes(s, [Start(u, head)] + [a], c, a, d);
    var e := Step(d, a).value;
    Goes(s, [Start(u, head)] + [a] + [a], d, a, e);
    var f := Step(e, a).value;
    Goes(s, [Start(u, head)] + [a] + [a] + [a], e, a, f);
    var g := Step(f, a).value;
    Goes(s, [Start(u, head)] + [a] + [a] + [a] + [a], f, a, g);
    n := Step(g, a).value;
    Goes(s, [Start(u, head)] + [a] + [a] + [a] + [a] + [a], g, a, n);
  }

  /** A runner that finds the lock taken exits 1 and leaves lock and schema alone. */
  lemma BusyRun(s: Sys, u: Session, head: string, rows: seq<string>) returns (n: Sys)
    requires s.holder.Some? && s.holder != Some(u) && u !in s.runners
    ensures var a := Advance(u, Fine(rows)); Execute(s, [Start(u, head)] + [a] + [a] + [a]) == Some(n)
    ensures u in n.runners && n.runners[u].phase == Exited(1) && n.holder == s.holder && n.versions == s.versions
  {
    var a := Advance(u, Fine(rows));
    var b := Step(s, Start(u, head)).value;
    Machines.Single(Step, s, Start(u, head));
    var c := Step(b, a).value;
    Goes(s, [Start(u, head)], b, a, c);
    var d := Step(c, a).value;
    Goes(s, [Start(u, head)] + [a], c, a, d);
    n := Step(d, a).value;
    Goes(s, [Start(u, head)] + [a] + [a], d, a, n);
  }
}
