/** The one race of the context service: a version inserted under a source that is deleted meanwhile, and exactly when. */
module ContextRace {
  import opened Wrappers
  import Machines
  import opened Values
  import opened Tables
  import opened Locking
  import opened ContextRuns
  import opened ContextProofs
  import opened ContextTheorems
  import opened ContextSlices

  // ---------------------------------------------------------------- exactly when a source is deleted meanwhile

  /** The action commits the deletion of this source, whether or not its reply arrives. */
  predicate CommitsDelete(s: Sys, a: Action, source: Uuid) {
    && (a.Advance? || a.LoseReply?) && s.Active(a.run) && s.runs[a.run].phase.Written?
    && s.runs[a.run].op.Delete? && s.runs[a.run].op.sourceId == source
  }

  /** Some action of the run does. */
  predicate DeleteCommitted(s: Sys, trace: seq<Action>, source: Uuid)
    decreases |trace|
  {
    trace != []
    && (CommitsDelete(s, trace[0], source)
        || match Step(s, trace[0]) case None => false case Some(n) => DeleteCommitted(n, trace[1..], source))
  }

  predicate IsDeleted(s: Sys, source: Uuid) { source in s.db.sources.rows && s.db.sources.rows[source].status.Deleted? }

  predicate IsLive(s: Sys, source: Uuid) { source in s.db.sources.rows && !s.db.sources.rows[source].status.Deleted? }

  lemma CommitDeletes(s: Sys, r: Txn, source: Uuid)
    requires Reached(s) && IsLive(s, source) && s.Active(r) && s.runs[r].phase.Written?
    ensures var rows := s.db.Commit(r).sources.rows;
      source in rows && (rows[source].status.Deleted? <==> s.runs[r].op.Delete? && s.runs[r].op.sourceId == source)
  {
    CommitEffects(s, r);
  }

  lemma StepDeletes(s: Sys, a: Action, n: Sys, source: Uuid)
    requires Reached(s) && IsLive(s, source) && Step(s, a) == Some(n)
    ensures if CommitsDelete(s, a, source) then IsDeleted(n, source) else IsLive(n, source)
  {
    match a
    case Start(_, _, _) =>
    case Advance(r) => if s.runs[r].phase.Written? { CommitDeletes(s, r, source); } else { NextQuiet(s, r, n); }
    case Cancel(_) =>
    case LoseReply(r) => CommitDeletes(s, r, source);
    case AddProject(_, _) =>
  }

  /** A live source is deleted at the end of a run if and only if some action of the run commits its deletion. */
  lemma {:induction false} DeletedExactly(s: Sys, trace: seq<Action>, m: Sys, source: Uuid)
    requires Reached(s) && IsLive(s, source) && Execute(s, trace) == Some(m)
    ensures if DeleteCommitted(s, trace, source) then IsDeleted(m, source) else IsLive(m, source)
    decreases |trace|
  {
    if trace != [] {
      var n := Step(s, trace[0]).value;
      StepDeletes(s, trace[0], n, source);
      Machines.Single(Step, s, trace[0]);
      Machines.ReachableOn(Step, EMPTY, s, [trace[0]], n);
      if CommitsDelete(s, trace[0], source) {
        FrozenForever(n, trace[1..], m);
      } else {
        DeletedExactly(n, trace[1..], m, source);
      }
    }
  }

  /** Past its check, an unblocked insert succeeds if and only if its id and number are free, whatever became of the source. */
  lemma InsertsExactly(s: Sys, r: Txn, n: Sys)
    requires Reached(s) && s.Active(r) && s.runs[r].op.CreateVersion? && s.runs[r].phase.Found? && Next(s, r) == Some(n)
    ensures var op := s.runs[r].op;
      && (n.runs[r].phase.Written? <==> op.versionId !in s.db.versions.rows && (op.sourceId, op.number) !in s.db.numbers.rows)
      && (!n.runs[r].phase.Written? ==> n.runs[r].phase == Done(Error(Integrity)))
  {
    FoundParent(s, r);
    OwnsNoVersion(s, r);
  }

  lemma FoundParent(s: Sys, r: Txn)
    requires Reached(s) && s.Active(r) && s.runs[r].phase.Found?
    ensures ParentExists(s.db, s.runs[r].op)
  {
    ReachedOrigins(s);
  }

  lemma OwnsNoVersion(s: Sys, r: Txn)
    requires Reached(s) && s.Active(r) && s.runs[r].op.CreateVersion? && s.runs[r].phase.Found?
    ensures !s.db.versions.Owns(r, s.runs[r].op.versionId)
    ensures !s.db.numbers.Owns(r, (s.runs[r].op.sourceId, s.runs[r].op.number))
  {
    ReachedExact(s);
    assert HeldVersion(s.runs[r]).None? && HeldNumber(s.runs[r]).None?;
  }

  /**
   A create of a version has passed its check under a live source. Whenever, after any further run, it commits, it commits
   a pending version; and that version's source is then deleted if and only if its deletion was committed in that run.
   */
  lemma PendingExactly(s: Sys, r: Txn, trace: seq<Action>, m: Sys, action: Action, n: Sys)
    requires Reached(s) && s.Active(r) && s.runs[r].op.CreateVersion? && s.runs[r].phase.Found? && IsLive(s, s.runs[r].op.sourceId)
    requires Execute(s, trace) == Some(m) && m.Active(r) && m.runs[r].phase.Written?
    requires (action == Advance(r) || action == LoseReply(r)) && Step(m, action) == Some(n)
    ensures var op := s.runs[r].op;
      && HasVersion(n.db, op.sourceId, op.versionId, Pending)
      && (IsDeleted(n, op.sourceId) <==> DeleteCommitted(s, trace, op.sourceId))
  {
    RunStays(s, trace, m);
    DeletedExactly(s, trace, m, s.runs[r].op.sourceId);
    CommitEffects(m, r);
  }

  // ---------------------------------------------------------------- it happens

  /** A live source nobody is writing. */
  predicate Idle(s: Sys, src: Source) {
    src.id in s.db.sources.rows && s.db.sources.rows[src.id] == src && !src.status.Deleted? && src.id !in s.db.sources.pending
  }

  lemma Then(s: Sys, trace: seq<Action>, m: Sys, a: Action, n: Sys) returns (longer: seq<Action>)
    requires Execute(s, trace) == Some(m) && Reached(m) && Step(m, a) == Some(n)
    ensures longer == trace + [a] && Execute(s, longer) == Some(n) && Reached(n)
  {
    longer := trace + [a];
    Machines.Extend(Step, s, trace, m, a);
    Machines.Single(Step, m, a);
    Machines.ReachableOn(Step, EMPTY, m, [a], n);
  }

  /** A create that has seen its source live .. */
  lemma SeesLive(s: Sys, src: Source, r: Txn, version: Uuid, number: nat, stamp: Timestamp) returns (trace: seq<Action>, n: Sys)
    requires Reached(s) && Idle(s, src) && r !in s.runs && number >= 1
    ensures Execute(s, trace) == Some(n) && Reached(n) && Idle(n, src) && n.db == s.db
    ensures n.runs == s.runs[r := Run(CreateVersion(src.accountId, src.projectId, src.id, version, number), stamp, Found)]
  {
    var create := CreateVersion(src.accountId, src.projectId, src.id, version, number);
    var a := s.(runs := s.runs[r := Run(create, stamp, Begin)]);
    trace := Then(s, [], s, Start(r, create, stamp), a);
    n := RequireSource(a, r);
    trace := Then(s, trace, a, Advance(r), n);
  }

  lemma WritesDeleted(s: Sys, src: Source, d: Txn, stamp: Timestamp) returns (trace: seq<Action>, e: Sys)
    requires Reached(s) && Idle(s, src) && d !in s.runs
    ensures var gone := src.(status := Deleted, updatedAt := stamp);
      && Execute(s, trace) == Some(e) && Reached(e) && e.db == s.db.(sources := s.db.sources.Put(d, src.id, gone))
      && e.runs == s.runs[d := Run(Delete(src.accountId, src.projectId, src.id), stamp, Written(Some(gone), None))]
  {
    var delete := Delete(src.accountId, src.projectId, src.id);
    var c := s.(runs := s.runs[d := Run(delete, stamp, Begin)]);
    trace := Then(s, [], s, Start(d, delete, stamp), c);
    var gone := src.(status := Deleted, updatedAt := stamp);
    e := c.Go(d, c.db.(sources := c.db.sources.Put(d, src.id, gone)), Written(Some(gone), None));
    assert SetSourceStatus(c, d, None) == Some(e);
    trace := Then(s, trace, c, Advance(d), e);
  }

  /** .. may find it deleted by the time it inserts. */
  lemma Deletes(s: Sys, src: Source, d: Txn, stamp: Timestamp) returns (trace: seq<Action>, n: Sys)
    requires Reached(s) && Idle(s, src) && d !in s.runs
    ensures Execute(s, trace) == Some(n) && Reached(n) && d in n.runs && n.runs == s.runs[d := n.runs[d]]
    ensures n.db.sources.rows == s.db.sources.rows[src.id := src.(status := Deleted, updatedAt := stamp)]
    ensures n.db.versions.rows == s.db.versions.rows && n.db.numbers.rows == s.db.numbers.rows
    ensures forall k :: k in n.db.versions.pending ==> k in s.db.versions.pending
    ensures forall k :: k in n.db.numbers.pending ==> k in s.db.numbers.pending
  {
    var e;
    trace, e := WritesDeleted(s, src, d, stamp);
    n := e.Commit(d, Succeeded);
    DeleteCommits(e, d, src.(status := Deleted, updatedAt := stamp));
    trace := Then(s, trace, e, Advance(d), n);
  }

  lemma DeleteCommits(e: Sys, d: Txn, gone: Source)
    requires Reached(e) && e.Active(d) && e.runs[d].op.Delete? && e.runs[d].phase == Written(Some(gone), None)
    ensures var n := e.Commit(d, Succeeded);
      && n.db.sources.rows == e.db.sources.rows[e.runs[d].op.sourceId := gone]
      && n.db.versions.rows == e.db.versions.rows && n.db.numbers.rows == e.db.numbers.rows
      && (forall k :: k in n.db.versions.pending ==> k in e.db.versions.pending)
      && (forall k :: k in n.db.numbers.pending ==> k in e.db.numbers.pending)
  {
    WrittenRun(e, d);
  }

  /**
   Every live source can gain a pending version after it is deleted: from every reachable state there is a run to one in
   which the source is deleted and the version not there yet, and a further run that inserts the version.
   */
  lemma PendingUnderDeleted(s: Sys, src: Source, r: Txn, d: Txn, version: Uuid, number: nat, stamp: Timestamp)
    returns (front: seq<Action>, f: Sys, rest: seq<Action>, n: Sys)
    requires Reached(s) && Idle(s, src) && r !in s.runs && d !in s.runs && r != d && number >= 1
    requires version !in s.db.versions.rows && version !in s.db.versions.pending
    requires (src.id, number) !in s.db.numbers.rows && (src.id, number) !in s.db.numbers.pending
    ensures Execute(s, front) == Some(f) && IsDeleted(f, src.id) && version !in f.db.versions.rows
    ensures Execute(f, rest) == Some(n) && IsDeleted(n, src.id) && HasVersion(n.db, src.id, version, Pending)
  {
    var b, more;
    front, b := SeesLive(s, src, r, version, number, stamp);
    more, f := Deletes(b, src, d, stamp);
    Machines.Concat(Step, s, front, more);
    front := front + more;
    rest, n := Inserts(f, r);
  }

  /** The insert of a version whose keys are free succeeds whatever the status of its source. */
  lemma Inserts(f: Sys, r: Txn) returns (rest: seq<Action>, n: Sys)
    requires Reached(f) && f.Active(r) && f.runs[r].op.CreateVersion? && f.runs[r].phase.Found?
    requires var op := f.runs[r].op;
      && op.versionId !in f.db.versions.rows && op.versionId !in f.db.versions.pending
      && (op.sourceId, op.number) !in f.db.numbers.rows && (op.sourceId, op.number) !in f.db.numbers.pending
    ensures Execute(f, rest) == Some(n) && n.db.sources.rows == f.db.sources.rows
    ensures HasVersion(n.db, f.runs[r].op.sourceId, f.runs[r].op.versionId, Pending)
  {
    FoundParent(f, r);
    var m := InsertVersion(f, r).value;
    rest := Then(f, [], f, Advance(r), m);
    n := m.Commit(r, Succeeded);
    WrittenRun(m, r);
    rest := Then(f, rest, m, Advance(r), n);
  }
}
