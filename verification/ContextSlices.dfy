/** One account's part of the context service, and where the rows it could meet come from. */
module ContextSlices {
  import opened Wrappers
  import Machines
  import opened Values
  import opened Tables
  import opened Locking
  import opened Slices
  import opened ContextRuns
  import opened ContextProofs
  import opened ContextTheorems

  // ---------------------------------------------------------------- where rows come from

  /** The call that creates a source or a version under this id, for this account. */
  predicate CreatesSource(runs: map<Txn, Run>, r: Txn, id: Uuid, account: Uuid) {
    r in runs && runs[r].op.CreateSource? && runs[r].op.sourceId == id && runs[r].op.accountId == account
  }

  predicate CreatesVersion(runs: map<Txn, Run>, r: Txn, id: Uuid, account: Uuid) {
    r in runs && runs[r].op.CreateVersion? && runs[r].op.versionId == id && runs[r].op.accountId == account
  }

  ghost predicate SourcesCreated(s: Sys) {
    forall id :: id in s.db.sources.rows ==> exists r :: CreatesSource(s.runs, r, id, s.db.sources.rows[id].accountId)
  }

  ghost predicate VersionsCreated(s: Sys) {
    forall id :: id in s.db.versions.rows ==> exists r :: CreatesVersion(s.runs, r, id, s.db.versions.rows[id].accountId)
  }

  predicate TenantOf(db: Db, source: Uuid, account: Uuid) {
    source in db.sources.rows && db.sources.rows[source].accountId == account
  }

  /** A call that has found its source found one of its own account and project. */
  ghost predicate FoundOwn(s: Sys) {
    forall r :: r in s.runs && s.runs[r].phase.Found? ==> ParentExists(s.db, s.runs[r].op)
  }

  ghost predicate Origins(s: Sys) { SourcesCreated(s) && VersionsCreated(s) && FoundOwn(s) }

  /** Calls are kept, and sources stay with their accounts. */
  ghost predicate SameCalls(s: Sys, n: Sys) {
    forall r :: r in s.runs ==> r in n.runs && n.runs[r].op == s.runs[r].op
  }

  ghost predicate SameTenants(s: Sys, n: Sys) {
    forall id :: id in s.db.sources.rows ==>
      TenantOf(n.db, id, s.db.sources.rows[id].accountId) && n.db.sources.rows[id].projectId == s.db.sources.rows[id].projectId
  }

  lemma CreatedStays(s: Sys, n: Sys)
    requires SameCalls(s, n)
    ensures forall r, id, account :: CreatesSource(s.runs, r, id, account) ==> CreatesSource(n.runs, r, id, account)
    ensures forall r, id, account :: CreatesVersion(s.runs, r, id, account) ==> CreatesVersion(n.runs, r, id, account)
  {
  }

  lemma QuietOrigins(s: Sys, n: Sys, r: Txn)
    requires Origins(s) && Quiet(s, n, r)
    requires n.runs[r].phase.Found? ==> ParentExists(s.db, s.runs[r].op)
    ensures Origins(n) && SameCalls(s, n) && SameTenants(s, n)
  {
    CreatedStays(s, n);
  }

  lemma SourcesPublished(s: Sys, n: Sys, r: Txn)
    requires SourcesCreated(s) && SameCalls(s, n) && r in s.runs && s.runs[r].phase.Written?
    requires RunOk(s.db, s.projects, s.runs[r]) && Publishes(s.db, n.db, s.runs[r])
    ensures SourcesCreated(n) && SameTenants(s, n)
  {
    CreatedStays(s, n);
    var op := s.runs[r].op;
    forall id | id in n.db.sources.rows ensures exists u :: CreatesSource(n.runs, u, id, n.db.sources.rows[id].accountId) {
      if id in s.db.sources.rows {
        var u :| CreatesSource(s.runs, u, id, s.db.sources.rows[id].accountId);
        assert CreatesSource(n.runs, u, id, n.db.sources.rows[id].accountId);
      } else {
        assert CreatesSource(n.runs, r, id, n.db.sources.rows[id].accountId);
      }
    }
  }

  lemma VersionsPublished(s: Sys, n: Sys, r: Txn)
    requires VersionsCreated(s) && SameCalls(s, n) && r in s.runs && s.runs[r].phase.Written?
    requires RunOk(s.db, s.projects, s.runs[r]) && Publishes(s.db, n.db, s.runs[r])
    ensures VersionsCreated(n)
  {
    CreatedStays(s, n);
    forall id | id in n.db.versions.rows ensures exists u :: CreatesVersion(n.runs, u, id, n.db.versions.rows[id].accountId) {
      if id in s.db.versions.rows {
        var u :| CreatesVersion(s.runs, u, id, s.db.versions.rows[id].accountId);
        assert CreatesVersion(n.runs, u, id, n.db.versions.rows[id].accountId);
      } else {
        assert CreatesVersion(n.runs, r, id, n.db.versions.rows[id].accountId);
      }
    }
  }

  lemma CommitOrigins(s: Sys, r: Txn, outcome: Outcome)
    requires Reached(s) && Origins(s) && s.Active(r) && s.runs[r].phase.Written?
    ensures var n := s.Commit(r, outcome); Origins(n) && SameCalls(s, n) && SameTenants(s, n)
  {
    var n := s.Commit(r, outcome);
    WrittenRun(s, r);
    assert SameCalls(s, n);
    SourcesPublished(s, n, r);
    VersionsPublished(s, n, r);
    FoundStays(s, n, r);
  }

  lemma FoundStays(s: Sys, n: Sys, r: Txn)
    requires FoundOwn(s) && SameTenants(s, n) && r in s.runs && r in n.runs && n.runs[r].phase.Done?
    requires n.runs == s.runs[r := n.runs[r]]
    ensures FoundOwn(n)
  {
    forall u | u in n.runs && n.runs[u].phase.Found? ensures ParentExists(n.db, n.runs[u].op) {
      assert ParentExists(s.db, s.runs[u].op);
    }
  }

  /** A statement that ends in `Found` has just read its source. */
  lemma NextFound(s: Sys, r: Txn, n: Sys)
    requires Reached(s) && s.Active(r) && !s.runs[r].phase.Written? && Next(s, r) == Some(n) && n.runs[r].phase.Found?
    ensures ParentExists(s.db, s.runs[r].op)
  {
    LooksCommitted(s, r);
    FoundByReading(s, r, n);
  }

  lemma FoundByReading(s: Sys, r: Txn, n: Sys)
    requires s.Active(r) && !s.runs[r].phase.Written? && Next(s, r) == Some(n) && n.runs[r].phase.Found?
    requires !s.db.sources.Owns(r, s.runs[r].op.sourceId)
    ensures ParentExists(s.db, s.runs[r].op)
  {
    assert s.runs[r].phase.Begin?;
  }

  lemma ReachedExact(s: Sys)
    requires Reached(s)
    ensures Exact(s.db.sources, s.runs, HeldSource)
    ensures Exact(s.db.versions, s.runs, HeldVersion)
    ensures Exact(s.db.numbers, s.runs, HeldNumber)
  {
    ReachedInv(s);
  }

  lemma NextQuiet(s: Sys, r: Txn, n: Sys)
    requires s.Active(r) && !s.runs[r].phase.Written? && Next(s, r) == Some(n)
    ensures Quiet(s, n, r)
  {
  }

  lemma StepOrigins(s: Sys, a: Action, n: Sys)
    requires Reached(s) && Origins(s) && Step(s, a) == Some(n)
    ensures Origins(n) && SameCalls(s, n) && SameTenants(s, n)
  {
    match a
    case Start(r, op, stamp) => StartOrigins(s, r, Run(op, stamp, Begin));
    case Advance(r) =>
      if s.runs[r].phase.Written? {
        CommitOrigins(s, r, Succeeded);
      } else {
        NextQuiet(s, r, n);
        if n.runs[r].phase.Found? { NextFound(s, r, n); }
        QuietOrigins(s, n, r);
      }
    case Cancel(r) => QuietOrigins(s, n, r);
    case LoseReply(r) => CommitOrigins(s, r, Error(ReplyLost));
    case AddProject(_, _) => CreatedStays(s, n);
  }

  lemma StartOrigins(s: Sys, r: Txn, run: Run)
    requires Origins(s) && r !in s.runs && run.phase.Begin?
    ensures var n := s.(runs := s.runs[r := run]); Origins(n) && SameCalls(s, n) && SameTenants(s, n)
  {
    CreatedStays(s, s.(runs := s.runs[r := run]));
  }

  lemma ReachedOrigins(s: Sys)
    requires Reached(s)
    ensures Origins(s)
  {
    var trace :| Machines.Execute(Step, EMPTY, trace) == Some(s);
    assert Machines.Execute(Step, EMPTY, []) == Some(EMPTY);
    forall x, a | Reached(x) && Origins(x) && Step(x, a).Some? ensures Reached(Step(x, a).value) && Origins(Step(x, a).value) {
      StepOrigins(x, a, Step(x, a).value);
      Machines.Single(Step, x, a);
      Machines.ReachableOn(Step, EMPTY, x, [a], Step(x, a).value);
    }
    Machines.Invariant(Step, x => Reached(x) && Origins(x), EMPTY, trace, s);
  }

  /** Over every run calls are kept and sources stay with their accounts. */
  ghost predicate Stays(s: Sys, n: Sys) { SameCalls(s, n) && SameTenants(s, n) }

  lemma StaysOn(a: Sys, b: Sys, c: Sys)
    requires Stays(a, b) && Stays(b, c)
    ensures Stays(a, c)
  {
    forall id | id in a.db.sources.rows
      ensures TenantOf(c.db, id, a.db.sources.rows[id].accountId) && c.db.sources.rows[id].projectId == a.db.sources.rows[id].projectId
    {
      assert TenantOf(b.db, id, a.db.sources.rows[id].accountId);
    }
  }

  lemma RunStays(s: Sys, trace: seq<Action>, s': Sys)
    requires Reached(s) && Execute(s, trace) == Some(s')
    ensures Stays(s, s') && Reached(s')
  {
    forall x, a | Reached(x) && Step(x, a).Some? ensures Stays(x, Step(x, a).value) {
      ReachedOrigins(x);
      StepOrigins(x, a, Step(x, a).value);
    }
    forall x, y, z | Stays(x, y) && Stays(y, z) ensures Stays(x, z) {
      StaysOn(x, y, z);
    }
    Machines.Carried(Step, EMPTY, Stays, s, trace, s');
  }

  // ---------------------------------------------------------------- the part of the system that is an account's

  function OwnSource(a: Uuid): (Uuid, Source) -> bool { (id: Uuid, src: Source) => src.accountId == a }

  function OwnVersion(a: Uuid): (Uuid, Version) -> bool { (id: Uuid, v: Version) => v.accountId == a }

  /** `own` holds the ids of the account's sources. */
  function OwnNumber(own: set<Uuid>): ((Uuid, nat), Uuid) -> bool { (k: (Uuid, nat), id: Uuid) => k.0 in own }

  function SliceDb(db: Db, a: Uuid, own: set<Uuid>): Db {
    Db(Only(db.sources, OwnSource(a)), Only(db.versions, OwnVersion(a)), Only(db.numbers, OwnNumber(own)))
  }

  function SliceRuns(runs: map<Txn, Run>, a: Uuid): map<Txn, Run> {
    map r | r in runs && runs[r].op.accountId == a :: runs[r]
  }

  function SliceProjects(projects: map<Uuid, Uuid>, a: Uuid): map<Uuid, Uuid> {
    map p | p in projects && projects[p] == a :: projects[p]
  }

  function SliceCurrent(current: map<Uuid, Uuid>, own: set<Uuid>): map<Uuid, Uuid> {
    map source | source in current && source in own :: current[source]
  }

  function Slice(s: Sys, a: Uuid, own: set<Uuid>): Sys {
    Sys(SliceDb(s.db, a, own), SliceProjects(s.projects, a), SliceRuns(s.runs, a), SliceCurrent(s.current, own))
  }

  ghost predicate Belong(s: Sys, a: Uuid, own: set<Uuid>) {
    forall id :: id in s.db.sources.rows ==> (id in own <==> s.db.sources.rows[id].accountId == a)
  }

  /** The id factory never gives two accounts the same source or version id. */
  ghost predicate FreshIds(runs: map<Txn, Run>) {
    && (forall r, u, id, a, b :: CreatesSource(runs, r, id, a) && CreatesSource(runs, u, id, b) ==> a == b)
    && (forall r, u, id, a, b :: CreatesVersion(runs, r, id, a) && CreatesVersion(runs, u, id, b) ==> a == b)
  }

  ghost predicate Sound(s: Sys, a: Uuid, own: set<Uuid>) { Reached(s) && FreshIds(s.runs) && Belong(s, a, own) }

  // ---------------------------------------------------------------- who can be at a key

  lemma ReachedRun(s: Sys, r: Txn)
    requires Reached(s) && r in s.runs
    ensures RunOk(s.db, s.projects, s.runs[r])
  {
    ReachedInv(s);
  }

  lemma HeldSourceAt(run: Run)
    ensures HeldSource(run).Some? ==>
      run.phase.Written? && run.phase.source.Some? && HeldSource(run).value == (run.op.sourceId, run.phase.source.value)
  {
  }

  /** What a call writes belongs to its account, and so does the row it replaces. */
  lemma SourceWriter(db: Db, projects: map<Uuid, Uuid>, run: Run)
    requires RunOk(db, projects, run) && run.phase.Written? && run.phase.source.Some?
    ensures run.phase.source.value.accountId == run.op.accountId
    ensures run.op.sourceId in db.sources.rows ==> TenantOf(db, run.op.sourceId, run.op.accountId)
    ensures run.op.sourceId !in db.sources.rows ==> run.op.CreateSource?
  {
  }

  lemma SourceTenant(s: Sys, id: Uuid) returns (u: Txn)
    requires Reached(s) && id in s.db.sources.pending
    ensures u == s.db.sources.pending[id].owner && u in s.runs && s.runs[u].op.sourceId == id
    ensures Clear(s.db.sources, OwnSource(s.runs[u].op.accountId), id)
    ensures id !in s.db.sources.rows ==> s.runs[u].op.CreateSource?
  {
    u := s.db.sources.pending[id].owner;
    ReachedExact(s);
    ReachedRun(s, u);
    HeldSourceAt(s.runs[u]);
    SourceWriter(s.db, s.projects, s.runs[u]);
  }

  lemma HeldVersionAt(run: Run)
    ensures HeldVersion(run).Some? ==>
      (run.op.CreateVersion? || run.op.Marks()) && (run.phase.Marked? || (run.phase.Written? && run.phase.written.Some?))
      && HeldVersion(run).value.0 == run.op.versionId
      && HeldVersion(run).value.1 == if run.phase.Marked? then run.phase.version else run.phase.written.value
  {
  }

  lemma VersionWriter(db: Db, projects: map<Uuid, Uuid>, run: Run)
    requires RunOk(db, projects, run) && HeldVersion(run).Some?
    ensures HeldVersion(run).value.1.accountId == run.op.accountId
    ensures run.op.versionId in db.versions.rows ==> db.versions.rows[run.op.versionId].accountId == run.op.accountId
    ensures run.op.versionId !in db.versions.rows ==> run.op.CreateVersion?
  {
    HeldVersionAt(run);
  }

  lemma VersionTenant(s: Sys, id: Uuid) returns (u: Txn)
    requires Reached(s) && id in s.db.versions.pending
    ensures u == s.db.versions.pending[id].owner && u in s.runs && HeldVersion(s.runs[u]).Some? && s.runs[u].op.versionId == id
    ensures Clear(s.db.versions, OwnVersion(s.runs[u].op.accountId), id)
    ensures id !in s.db.versions.rows ==> s.runs[u].op.CreateVersion?
  {
    u := s.db.versions.pending[id].owner;
    ReachedExact(s);
    ReachedRun(s, u);
    HeldVersionAt(s.runs[u]);
    VersionWriter(s.db, s.projects, s.runs[u]);
  }

  lemma NumberTenant(s: Sys, k: (Uuid, nat)) returns (u: Txn)
    requires Reached(s) && k in s.db.numbers.pending
    ensures u == s.db.numbers.pending[k].owner && u in s.runs && TenantOf(s.db, k.0, s.runs[u].op.accountId)
  {
    u := s.db.numbers.pending[k].owner;
    ReachedExact(s);
    ReachedRun(s, u);
    NumberWriter(s.db, s.projects, s.runs[u]);
  }

  lemma NumberWriter(db: Db, projects: map<Uuid, Uuid>, run: Run)
    requires RunOk(db, projects, run) && HeldNumber(run).Some?
    ensures TenantOf(db, HeldNumber(run).value.0.0, run.op.accountId)
  {
  }

  lemma CommittedSource(s: Sys, r: Txn)
    requires Reached(s) && FreshIds(s.runs) && r in s.runs && s.runs[r].op.CreateSource?
    ensures var id := s.runs[r].op.sourceId; id in s.db.sources.rows ==> TenantOf(s.db, id, s.runs[r].op.accountId)
  {
    ReachedOrigins(s);
    var id, a := s.runs[r].op.sourceId, s.runs[r].op.accountId;
    assert CreatesSource(s.runs, r, id, a);
    if id in s.db.sources.rows {
      var u :| CreatesSource(s.runs, u, id, s.db.sources.rows[id].accountId);
    }
  }

  /** Whoever else is at a new source's id belongs to the same account. */
  lemma NewSourceClear(s: Sys, r: Txn)
    requires Reached(s) && FreshIds(s.runs) && r in s.runs && s.runs[r].op.CreateSource?
    ensures Clear(s.db.sources, OwnSource(s.runs[r].op.accountId), s.runs[r].op.sourceId)
  {
    var id, a := s.runs[r].op.sourceId, s.runs[r].op.accountId;
    CommittedSource(s, r);
    if id in s.db.sources.pending {
      var u := SourceTenant(s, id);
      if id !in s.db.sources.rows {
        assert CreatesSource(s.runs, r, id, a) && CreatesSource(s.runs, u, id, s.runs[u].op.accountId);
      }
    }
  }

  lemma CommittedVersion(s: Sys, r: Txn)
    requires Reached(s) && FreshIds(s.runs) && r in s.runs && s.runs[r].op.CreateVersion?
    ensures var id := s.runs[r].op.versionId;
      id in s.db.versions.rows ==> s.db.versions.rows[id].accountId == s.runs[r].op.accountId
  {
    ReachedOrigins(s);
    var id, a := s.runs[r].op.versionId, s.runs[r].op.accountId;
    assert CreatesVersion(s.runs, r, id, a);
    if id in s.db.versions.rows {
      var u :| CreatesVersion(s.runs, u, id, s.db.versions.rows[id].accountId);
    }
  }

  lemma NewVersionClear(s: Sys, r: Txn)
    requires Reached(s) && FreshIds(s.runs) && r in s.runs && s.runs[r].op.CreateVersion?
    ensures Clear(s.db.versions, OwnVersion(s.runs[r].op.accountId), s.runs[r].op.versionId)
  {
    var id, a := s.runs[r].op.versionId, s.runs[r].op.accountId;
    CommittedVersion(s, r);
    if id in s.db.versions.pending {
      var u := VersionTenant(s, id);
      if id !in s.db.versions.rows {
        assert CreatesVersion(s.runs, r, id, a) && CreatesVersion(s.runs, u, id, s.runs[u].op.accountId);
      }
    }
  }

  // ---------------------------------------------------------------- moving on and leaving

  lemma OwnedSources(s: Sys, r: Txn, a: Uuid)
    requires Reached(s) && r in s.runs
    ensures s.runs[r].op.accountId == a ==> OwnsMine(s.db.sources, OwnSource(a), r)
    ensures s.runs[r].op.accountId != a ==> OwnsOther(s.db.sources, OwnSource(a), r)
  {
    forall id | s.db.sources.Owns(r, id) ensures Clear(s.db.sources, OwnSource(s.runs[r].op.accountId), id) {
      var u := SourceTenant(s, id);
    }
  }

  lemma OwnedVersions(s: Sys, r: Txn, a: Uuid)
    requires Reached(s) && r in s.runs
    ensures s.runs[r].op.accountId == a ==> OwnsMine(s.db.versions, OwnVersion(a), r)
    ensures s.runs[r].op.accountId != a ==> OwnsOther(s.db.versions, OwnVersion(a), r)
  {
    forall id | s.db.versions.Owns(r, id) ensures Clear(s.db.versions, OwnVersion(s.runs[r].op.accountId), id) {
      var u := VersionTenant(s, id);
    }
  }

  lemma OwnedNumbers(s: Sys, r: Txn, a: Uuid, own: set<Uuid>)
    requires Reached(s) && Belong(s, a, own) && r in s.runs
    ensures s.runs[r].op.accountId == a ==> OwnsMine(s.db.numbers, OwnNumber(own), r)
    ensures s.runs[r].op.accountId != a ==> OwnsOther(s.db.numbers, OwnNumber(own), r)
  {
    forall k | s.db.numbers.Owns(r, k) ensures k.0 in own <==> s.runs[r].op.accountId == a {
      var u := NumberTenant(s, k);
    }
  }

  lemma SliceGo(s: Sys, r: Txn, db: Db, phase: Phase, a: Uuid, own: set<Uuid>)
    requires r in s.runs
    ensures s.runs[r].op.accountId == a ==> Slice(s.Go(r, db, phase), a, own) == Slice(s, a, own).Go(r, SliceDb(db, a, own), phase)
    ensures s.runs[r].op.accountId != a && SliceDb(db, a, own) == SliceDb(s.db, a, own) ==>
      Slice(s.Go(r, db, phase), a, own) == Slice(s, a, own)
  {
  }

  lemma SliceRollback(s: Sys, r: Txn, a: Uuid, own: set<Uuid>)
    requires Reached(s) && Belong(s, a, own) && r in s.runs
    ensures s.runs[r].op.accountId == a ==> SliceDb(s.db.Rollback(r), a, own) == SliceDb(s.db, a, own).Rollback(r)
    ensures s.runs[r].op.accountId != a ==> SliceDb(s.db.Rollback(r), a, own) == SliceDb(s.db, a, own)
  {
    OwnedSources(s, r, a);
    OwnedVersions(s, r, a);
    OwnedNumbers(s, r, a, own);
    if s.runs[r].op.accountId == a {
      OnlyRollback(s.db.sources, OwnSource(a), r);
      OnlyRollback(s.db.versions, OwnVersion(a), r);
      OnlyRollback(s.db.numbers, OwnNumber(own), r);
    } else {
      OnlyCommitOther(s.db.sources, OwnSource(a), r);
      OnlyCommitOther(s.db.versions, OwnVersion(a), r);
      OnlyCommitOther(s.db.numbers, OwnNumber(own), r);
    }
  }

  lemma SliceCommitDb(s: Sys, r: Txn, a: Uuid, own: set<Uuid>)
    requires Reached(s) && Belong(s, a, own) && r in s.runs
    ensures s.runs[r].op.accountId == a ==> SliceDb(s.db.Commit(r), a, own) == SliceDb(s.db, a, own).Commit(r)
    ensures s.runs[r].op.accountId != a ==> SliceDb(s.db.Commit(r), a, own) == SliceDb(s.db, a, own)
  {
    OwnedSources(s, r, a);
    OwnedVersions(s, r, a);
    OwnedNumbers(s, r, a, own);
    if s.runs[r].op.accountId == a {
      OnlyCommit(s.db.sources, OwnSource(a), r);
      OnlyCommit(s.db.versions, OwnVersion(a), r);
      OnlyCommit(s.db.numbers, OwnNumber(own), r);
    } else {
      OnlyCommitOther(s.db.sources, OwnSource(a), r);
      OnlyCommitOther(s.db.versions, OwnVersion(a), r);
      OnlyCommitOther(s.db.numbers, OwnNumber(own), r);
    }
  }

  lemma SliceLeave(s: Sys, r: Txn, outcome: Outcome, a: Uuid, own: set<Uuid>)
    requires Sound(s, a, own) && r in s.runs
    ensures s.runs[r].op.accountId == a ==> Slice(s.Leave(r, outcome), a, own) == Slice(s, a, own).Leave(r, outcome)
    ensures s.runs[r].op.accountId != a ==> Slice(s.Leave(r, outcome), a, own) == Slice(s, a, own)
  {
    SliceRollback(s, r, a, own);
    SliceGo(s, r, s.db.Rollback(r), Done(outcome), a, own);
  }
}
