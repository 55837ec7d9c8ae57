/**
 Account bootstrap as a state machine: any number of sign-ins, of any subjects, take one statement at a time against
 the profile, account and membership tables, while memberships are added and amended from outside.
 */
module BootstrapRuns {
  import opened Wrappers
  import Machines
  import opened Values
  import opened Identity
  import opened Tables

  datatype Presence = Present

  /** `pairs` is the unique index on (account, user). */
  datatype Db = Db(
    profiles: Table<Uuid, Presence>, accounts: Table<Uuid, Presence>,
    memberships: Table<Uuid, Membership>, pairs: Table<(Uuid, Uuid), Uuid>)
  {
    function Commit(t: Txn): Db { Db(profiles.Commit(t), accounts.Commit(t), memberships.Commit(t), pairs.Commit(t)) }

    function Rollback(t: Txn): Db {
      Db(profiles.Rollback(t), accounts.Rollback(t), memberships.Rollback(t), pairs.Rollback(t))
    }

    /** SELECT .. WHERE user_id, in a transaction that has written no membership. */
    function Of(user: Uuid): set<Membership> {
      set id | id in memberships.rows && memberships.rows[id].userId == user :: memberships.rows[id]
    }
  }

  datatype Cause = Integrity | Cancelled | ReplyLost

  datatype Outcome =
    | Context(active: set<Membership>, created: bool)
    | Denied(reason: DenialReason)
    | InvariantError
    | Failed(cause: Cause)

  /** The two ids are whatever the id factory returned; nothing is assumed of them. */
  datatype Call = Call(subject: Uuid, accountId: Uuid, membershipId: Uuid, stamp: Timestamp)
  {
    function Membership(): Membership { Identity.Membership(membershipId, accountId, subject, Owner, Active, stamp) }
  }

  datatype Phase = Begin | Gate | Recheck | Profiled | Opened | Flushed | Done(outcome: Outcome)

  datatype Run = Run(call: Call, phase: Phase)

  /** `log` records the runs whose transaction committed, in commit order. */
  datatype Sys = Sys(db: Db, runs: map<Txn, Run>, log: seq<Txn>)
  {
    predicate Active(r: Txn) { r in runs && !runs[r].phase.Done? }

    function Go(r: Txn, db: Db, phase: Phase): Sys
      requires r in runs
    {
      this.(db := db, runs := runs[r := runs[r].(phase := phase)])
    }

    function Leave(r: Txn, outcome: Outcome): Sys
      requires r in runs
    {
      Go(r, db.Rollback(r), Done(outcome))
    }

    function Commit(r: Txn, outcome: Outcome): Sys
      requires r in runs
    {
      Go(r, db.Commit(r), Done(outcome)).(log := log + [r])
    }
  }

  predicate SameRows(a: Db, b: Db) {
    a.profiles.rows == b.profiles.rows && a.accounts.rows == b.accounts.rows && a.memberships.rows == b.memberships.rows
    && a.pairs.rows == b.pairs.rows
  }

  const EMPTY: Sys := Sys(Db(Table(map[], map[]), Table(map[], map[]), Table(map[], map[]), Table(map[], map[])), map[], [])

  /** The context of the memberships found, or why none of them admits the subject. */
  function ContextFrom(found: set<Membership>, created: bool): Outcome {
    var active := set m | m in found && m.status.Active?;
    if active == {} then Denied(if exists m :: m in found && m.status.Invited? then WasInvited else WasSuspended)
    else Context(active, created)
  }

  function Resolve(s: Sys, r: Txn): Sys
    requires s.Active(r)
  {
    var found := s.db.Of(s.runs[r].call.subject);
    if found != {} then s.Leave(r, ContextFrom(found, false)) else s.Go(r, s.db, Gate)
  }

  /** INSERT INTO profiles .. ON CONFLICT (user_id) DO NOTHING. */
  function InsertProfile(s: Sys, r: Txn): (n: Option<Sys>)
    requires s.Active(r)
    ensures n.Some? ==> SameRows(s.db, n.value.db)
  {
    match s.db.profiles.Insert(r, s.runs[r].call.subject, Present)
    case Blocked => None
    case Miss => Some(s.Go(r, s.db, Recheck))
    case Hit(profiles, _) => Some(s.Go(r, s.db.(profiles := profiles), Profiled))
  }

  function ResolveAgain(s: Sys, r: Txn): Sys
    requires s.Active(r)
  {
    var found := s.db.Of(s.runs[r].call.subject);
    s.Leave(r, if found == {} then InvariantError else ContextFrom(found, false))
  }

  function InsertAccount(s: Sys, r: Txn): (n: Option<Sys>)
    requires s.Active(r)
    ensures n.Some? ==> SameRows(s.db, n.value.db)
  {
    match s.db.accounts.Insert(r, s.runs[r].call.accountId, Present)
    case Blocked => None
    case Miss => Some(s.Leave(r, Failed(Integrity)))
    case Hit(accounts, _) => Some(s.Go(r, s.db.(accounts := accounts), Opened))
  }

  /** The membership reaches the database with the flush that precedes COMMIT. */
  function InsertMembership(s: Sys, r: Txn): (n: Option<Sys>)
    requires s.Active(r)
    ensures n.Some? ==> SameRows(s.db, n.value.db)
  {
    var call := s.runs[r].call;
    match s.db.memberships.Insert(r, call.membershipId, call.Membership())
    case Blocked => None
    case Miss => Some(s.Leave(r, Failed(Integrity)))
    case Hit(memberships, _) =>
      match s.db.pairs.Insert(r, (call.accountId, call.subject), call.membershipId)
      case Blocked => None
      case Miss => Some(s.Leave(r, Failed(Integrity)))
      case Hit(pairs, _) => Some(s.Go(r, s.db.(memberships := memberships, pairs := pairs), Flushed))
  }

  function Next(s: Sys, r: Txn): (n: Option<Sys>)
    requires s.Active(r)
    ensures n.Some? && !s.runs[r].phase.Flushed? ==> SameRows(s.db, n.value.db)
  {
    match s.runs[r].phase
    case Begin => Some(Resolve(s, r))
    case Gate => InsertProfile(s, r)
    case Recheck => Some(ResolveAgain(s, r))
    case Profiled => InsertAccount(s, r)
    case Opened => InsertMembership(s, r)
    case Flushed => Some(s.Commit(r, Context({s.runs[r].call.Membership()}, true)))
  }

  datatype Action =
    | Start(run: Txn, call: Call)
    | Advance(run: Txn)
    | Cancel(run: Txn)
    | LoseReply(run: Txn)
    | Enroll(membership: Membership)
    | Amend(id: Uuid, role: Role, status: MembershipStatus)

  /** A membership added from outside meets the schema: its account and profile exist and no unique key is taken. */
  predicate Admissible(db: Db, m: Membership) {
    && m.userId in db.profiles.rows && m.accountId in db.accounts.rows
    && m.id !in db.memberships.rows && m.id !in db.memberships.pending
    && (m.accountId, m.userId) !in db.pairs.rows && (m.accountId, m.userId) !in db.pairs.pending
  }

  function Step(s: Sys, a: Action): Option<Sys> {
    match a
    case Start(r, call) => if r in s.runs then None else Some(s.(runs := s.runs[r := Run(call, Begin)]))
    case Advance(r) => if s.Active(r) then Next(s, r) else None
    case Cancel(r) => if s.Active(r) then Some(s.Leave(r, Failed(Cancelled))) else None
    case LoseReply(r) => if s.Active(r) && s.runs[r].phase.Flushed? then Some(s.Commit(r, Failed(ReplyLost))) else None
    case Enroll(m) =>
      if Admissible(s.db, m) then
        Some(s.(db := s.db.(memberships := s.db.memberships.(rows := s.db.memberships.rows[m.id := m]),
                            pairs := s.db.pairs.(rows := s.db.pairs.rows[(m.accountId, m.userId) := m.id]))))
      else None
    case Amend(id, role, status) =>
      if id in s.db.memberships.rows then
        Some(s.(db := s.db.(memberships := s.db.memberships.(rows :=
          s.db.memberships.rows[id := s.db.memberships.rows[id].(role := role, status := status)]))))
      else None
  }

  function Execute(s: Sys, trace: seq<Action>): Option<Sys> { Machines.Execute(Step, s, trace) }
}
