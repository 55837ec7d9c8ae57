/** The one way past an archive: a title update gets past it exactly when the archive's transaction reuses the expected stamp. */
module ProjectRace {
  import opened Wrappers
  import Machines
  import opened Values
  import opened Projects
  import opened Tables
  import opened ProjectRuns
  import opened ProjectInvariant
  import opened ProjectSteps
  import opened ProjectTheorems
  import opened ProjectUpdates

  /** A live project nobody is writing. */
  predicate Idle(s: Sys, p: Project) {
    && p.id in s.db.projects.rows && s.db.projects.rows[p.id] == p && p.id !in s.db.projects.pending && p.deletedAt.None?
  }

  /** Opening a run and letting it execute its first statement leaves the project alone. */
  lemma ReadsFirst(s: Sys, p: Project, r: Txn, title: string, stamp: Timestamp) returns (n: Sys)
    requires Reached(s) && Idle(s, p) && !p.status.Archived? && r !in s.runs
    ensures Execute(s, [Start(r, Retitle(p.accountId, p.id, title, p.updatedAt), stamp), Advance(r)]) == Some(n)
    ensures Reached(n) && Idle(n, p) && n.history == s.history && r in n.runs && n.runs == s.runs[r := n.runs[r]]
    ensures n.runs[r] == Run(Retitle(p.accountId, p.id, title, p.updatedAt), stamp, Checked)
  {
    var op := Retitle(p.accountId, p.id, title, p.updatedAt);
    var m := s.(runs := s.runs[r := Run(op, stamp, Begin)]);
    Machines.Single(Step, s, Start(r, op, stamp));
    assert Step(s, Start(r, op, stamp)) == Some(m);
    n := Check(m, r);
    Machines.Single(Step, m, Advance(r));
    assert Step(m, Advance(r)) == Some(n);
    Machines.Concat(Step, s, [Start(r, op, stamp)], [Advance(r)]);
    assert [Start(r, op, stamp)] + [Advance(r)] == [Start(r, op, stamp), Advance(r)];
    Machines.ReachableOn(Step, EMPTY, s, [Start(r, op, stamp), Advance(r)], n);
  }

  /** An update of an idle project that matches it writes a new version .. */
  lemma Writes(s: Sys, p: Project, r: Txn) returns (m: Sys)
    requires Reached(s) && Idle(s, p) && s.Active(r) && s.runs[r].op.projectId == p.id && s.runs[r].op.Matches(p)
    requires if s.runs[r].op.Retitle? then s.runs[r].phase.Checked? else s.runs[r].op.Archive? && s.runs[r].phase.Begin?
    ensures var q := s.runs[r].op.Change(p, s.runs[r].stamp);
      && Execute(s, [Advance(r)]) == Some(m) && Reached(m)
      && m == s.Go(r, s.db.(projects := s.db.projects.Put(r, p.id, q)), Written(q))
  {
    var q := s.runs[r].op.Change(p, s.runs[r].stamp);
    m := s.Go(r, s.db.(projects := s.db.projects.Put(r, p.id, q)), Written(q));
    assert UpdateProject(s, r) == Some(m);
    Machines.Single(Step, s, Advance(r));
    Machines.ReachableOn(Step, EMPTY, s, [Advance(r)], m);
  }

  /** .. which its commit publishes. */
  lemma Closes(m: Sys, p: Project, q: Project, r: Txn) returns (n: Sys)
    requires Reached(m) && m.Active(r) && !m.runs[r].op.Create? && m.runs[r].phase == Written(q) && m.db.projects.Owns(r, q.id)
    requires q.id in m.db.projects.rows && m.db.projects.rows[q.id] == p && m.runs[r].op.projectId == q.id && q.deletedAt.None?
    ensures Execute(m, [Advance(r)]) == Some(n) && Reached(n) && Idle(n, q)
    ensures n.history == m.history + [Event(r, Some(p), q)] && n.runs == m.runs[r := m.runs[r].(phase := Done(Returned(q)))]
  {
    ReachedLocks(m);
    CommitUpdate(m, r);
    n := m.Commit(r, q, Returned(q));
    Machines.Single(Step, m, Advance(r));
    Machines.ReachableOn(Step, EMPTY, m, [Advance(r)], n);
  }

  lemma CommitsIdle(s: Sys, p: Project, r: Txn) returns (n: Sys)
    requires Reached(s) && Idle(s, p) && s.Active(r) && s.runs[r].op.projectId == p.id && s.runs[r].op.Matches(p)
    requires if s.runs[r].op.Retitle? then s.runs[r].phase.Checked? else s.runs[r].op.Archive? && s.runs[r].phase.Begin?
    ensures var q := s.runs[r].op.Change(p, s.runs[r].stamp);
      && Execute(s, [Advance(r)] + [Advance(r)]) == Some(n) && Reached(n) && Idle(n, q)
      && n.history == s.history + [Event(r, Some(p), q)] && n.runs == s.runs[r := s.runs[r].(phase := Done(Returned(q)))]
  {
    var m := Writes(s, p, r);
    n := Closes(m, p, s.runs[r].op.Change(p, s.runs[r].stamp), r);
    Machines.Concat(Step, s, [Advance(r)], [Advance(r)]);
  }

  lemma Opens(s: Sys, r: Txn, op: Op, stamp: Timestamp) returns (n: Sys)
    requires Reached(s) && r !in s.runs && op.Valid()
    ensures Execute(s, [Start(r, op, stamp)]) == Some(n) && Reached(n)
    ensures n == s.(runs := s.runs[r := Run(op, stamp, Begin)])
  {
    n := s.(runs := s.runs[r := Run(op, stamp, Begin)]);
    Machines.Single(Step, s, Start(r, op, stamp));
    Machines.ReachableOn(Step, EMPTY, s, [Start(r, op, stamp)], n);
  }

  // ---------------------------------------------------------------- exactly when an update overtakes

  /** Event `j` is the last committed mutation of its project. */
  ghost predicate LastOf(h: seq<Event>, id: Uuid, j: nat) {
    j < |h| && h[j].after.id == id && forall k: nat :: j < k < |h| ==> h[k].after.id != id
  }

  lemma {:induction false} LatestIsLast(h: seq<Event>, id: Uuid, j: nat)
    requires LastOf(h, id, j)
    ensures Latest(h, id) == Some(h[j].after)
    decreases |h|
  {
    if j < |h| - 1 {
      assert forall k: nat :: k < |h| - 1 ==> h[..|h| - 1][k] == h[k];
      LatestIsLast(h[..|h| - 1], id, j);
    }
  }

  /** What is committed of a project is what its last mutation left. */
  lemma LastIsCommitted(s: Sys, id: Uuid, j: nat)
    requires Reached(s) && LastOf(s.history, id, j)
    ensures id in s.db.projects.rows && s.db.projects.rows[id] == s.history[j].after
  {
    ReachedInv(s);
    assert Mirrors(s.history, s.db, id);
    LatestIsLast(s.history, id, j);
  }

  /** A project stays in its account. */
  lemma {:induction false} OneAccount(s: Sys, i: nat, j: nat)
    requires Reached(s) && i <= j < |s.history| && s.history[i].after.id == s.history[j].after.id
    ensures s.history[i].after.accountId == s.history[j].after.accountId
    decreases j
  {
    if i < j {
      ReachedEvent(s, j);
      EventEffect(s, j);
      LaterHasBefore(s.history, i, j);
      var k := Predecessor(s, j);
      OneAccount(s, i, k);
    }
  }

  /** A title update past its guards is about a project of its own account. */
  lemma CheckedAccount(s: Sys, r: Txn, j: nat)
    requires Reached(s) && s.Active(r) && s.runs[r].op.Retitle? && s.runs[r].phase.Checked?
    requires LastOf(s.history, s.runs[r].op.projectId, j)
    ensures s.history[j].after.accountId == s.runs[r].op.accountId
  {
    var i := CheckedVoucher(s, r);
    OneAccount(s, i, j);
  }

  lemma CheckedVoucher(s: Sys, r: Txn) returns (i: nat)
    requires Reached(s) && s.Active(r) && s.runs[r].op.Retitle? && s.runs[r].phase.Checked?
    ensures Vouched(s.history, s.runs[r].op, i)
  {
    ReachedInv(s);
    i :| Vouched(s.history, s.runs[r].op, i);
  }

  /**
   The last committed mutation of the project decides a title update past its guards, whatever happened in between: the
   update writes if and only if that mutation was not a deletion and its transaction's instant is the expected stamp;
   otherwise it is refused as stale.
   */
  lemma LastMutationDecides(s: Sys, r: Txn, n: Sys, j: nat)
    requires Reached(s) && s.Active(r) && s.runs[r].op.Retitle? && s.runs[r].phase.Checked? && Next(s, r) == Some(n)
    requires LastOf(s.history, s.runs[r].op.projectId, j)
    ensures var op, last := s.runs[r].op, s.history[j];
      && last.run in s.runs
      && (n.runs[r].phase.Written? <==> !s.runs[last.run].op.Delete? && s.runs[last.run].stamp == op.expected)
      && (!n.runs[r].phase.Written? ==> n.runs[r].phase == Done(StaleVersion))
      && (n.runs[r].phase.Written? ==> n.runs[r].phase == Written(last.after.(title := op.title, updatedAt := s.runs[r].stamp)))
  {
    EventEffect(s, j);
    LastIsCommitted(s, s.runs[r].op.projectId, j);
    CheckedAccount(s, r, j);
    EndsExactly(s, r, n);
    if n.runs[r].phase.Written? { WritesChange(s, r, n); }
  }

  lemma WritesChange(s: Sys, r: Txn, n: Sys)
    requires Reached(s) && s.Active(r) && s.runs[r].op.Retitle? && s.runs[r].phase.Checked? && Next(s, r) == Some(n)
    requires n.runs[r].phase.Written?
    ensures s.runs[r].op.projectId in s.db.projects.rows
    ensures n.runs[r].phase.project == s.runs[r].op.Change(s.db.projects.rows[s.runs[r].op.projectId], s.runs[r].stamp)
  {
    LooksCommitted(s, r);
  }

  /** The action commits run `a`, whether or not its reply arrives. */
  predicate Commits(action: Action, a: Txn) { action == Advance(a) || action == LoseReply(a) }

  lemma CommitRecords(s: Sys, a: Txn, action: Action, c: Sys)
    requires Reached(s) && s.Active(a) && s.runs[a].phase.Written? && Commits(action, a) && Step(s, action) == Some(c)
    ensures Reached(c) && |c.history| == |s.history| + 1 && c.history[|s.history|].run == a && a in c.runs
    ensures c.history[|s.history|].after.id == s.runs[a].op.projectId && c.runs[a].op == s.runs[a].op && c.runs[a].stamp == s.runs[a].stamp
  {
    Machines.Single(Step, s, action);
    Machines.ReachableOn(Step, EMPTY, s, [action], c);
    CommitIsRecorded(s, a, if action.Advance? then Returned(s.runs[a].phase.project) else Failed(ReplyLost));
  }

  lemma CommitIsRecorded(s: Sys, a: Txn, outcome: Outcome)
    requires Reached(s) && s.Active(a) && s.runs[a].phase.Written?
    ensures var c := s.Commit(a, s.runs[a].phase.project, outcome);
      && |c.history| == |s.history| + 1 && c.history[|s.history|].run == a && a in c.runs
      && c.history[|s.history|].after.id == s.runs[a].op.projectId
      && c.runs[a].op == s.runs[a].op && c.runs[a].stamp == s.runs[a].stamp
  {
    ReachedInv(s);
    assert RunOk(s.db, s.runs[a]);
    WrittenId(s.db, s.runs[a]);
    CommitAppends(s, a, outcome);
  }

  /**
   A title update is past its guards when an archive of its project commits, and is still there after any further run
   in which the project is not touched again. The update then writes, onto the archived project, if and only if the
   archiving transaction's instant is the stamp the update expects; otherwise it is refused as stale.
   */
  lemma ArchiveRace(s: Sys, r: Txn, a: Txn, action: Action, c: Sys, more: seq<Action>, m: Sys, n: Sys)
    requires Reached(s) && s.Active(r) && s.runs[r].op.Retitle? && s.runs[r].phase.Checked?
    requires s.Active(a) && s.runs[a].op.Archive? && s.runs[a].phase.Written? && s.runs[a].op.projectId == s.runs[r].op.projectId
    requires Commits(action, a) && Step(s, action) == Some(c) && Execute(c, more) == Some(m)
    requires forall i :: |c.history| <= i < |m.history| ==> m.history[i].after.id != s.runs[r].op.projectId
    requires m.Active(r) && m.runs[r].phase.Checked? && Next(m, r) == Some(n)
    ensures n.runs[r].phase.Written? <==> s.runs[a].stamp == s.runs[r].op.expected
    ensures !n.runs[r].phase.Written? ==> n.runs[r].phase == Done(StaleVersion)
    ensures n.runs[r].phase.Written? ==>
      n.runs[r].phase.project.status.Archived? && n.runs[r].phase.project.title == s.runs[r].op.title
  {
    CommitRecords(s, a, action, c);
    Machines.ReachableOn(Step, EMPTY, c, more, m);
    AnswersAreStable(c, more, m);
    CallsStay(c, more, m);
    StepRuns(s, action, c);
    var j := |s.history|;
    assert m.history[j] == c.history[j];
    EventEffect(m, j);
    LastMutationDecides(m, r, n, j);
  }

  // ---------------------------------------------------------------- the race happens

  /** The steps of a title update up to its guards, then of an archive up to its commit. */
  function Race(p: Project, r: Txn, title: string, stamp: Timestamp, a: Txn, archived: Timestamp): seq<Action> {
    [Start(r, Retitle(p.accountId, p.id, title, p.updatedAt), stamp), Advance(r),
     Start(a, Archive(p.accountId, p.id), archived), Advance(a), Advance(a)]
  }

  /** Every idle project can be archived while a title update of it is past its guards .. */
  lemma RaceHappens(s: Sys, p: Project, r: Txn, title: string, stamp: Timestamp, a: Txn, archived: Timestamp) returns (m: Sys)
    requires Reached(s) && Idle(s, p) && !p.status.Archived? && r !in s.runs && a !in s.runs && r != a
    ensures Execute(s, Race(p, r, title, stamp, a, archived)) == Some(m) && Reached(m)
    ensures r in m.runs && m.runs[r] == Run(Retitle(p.accountId, p.id, title, p.updatedAt), stamp, Checked)
    ensures var q := p.(status := Archived, updatedAt := archived);
      Idle(m, q) && m.history == s.history + [Event(a, Some(p), q)]
  {
    var read := ReadsFirst(s, p, r, title, stamp);
    var one := [Start(r, Retitle(p.accountId, p.id, title, p.updatedAt), stamp), Advance(r)];
    var start := Start(a, Archive(p.accountId, p.id), archived);
    var begun := Opens(read, a, Archive(p.accountId, p.id), archived);
    Machines.Concat(Step, s, one, [start]);
    m := CommitsIdle(begun, p, a);
    Machines.Concat(Step, s, one + [start], [Advance(a)] + [Advance(a)]);
    assert (one + [start]) + ([Advance(a)] + [Advance(a)]) == Race(p, r, title, stamp, a, archived);
  }

  /** .. and, where the archive reuses the stamp, the update then commits onto the archived project. */
  lemma UpdateOvertakes(s: Sys, p: Project, r: Txn, title: string, stamp: Timestamp, a: Txn) returns (n: Sys)
    requires Reached(s) && Idle(s, p) && !p.status.Archived? && r !in s.runs && a !in s.runs && r != a
    ensures Execute(s, Race(p, r, title, stamp, a, p.updatedAt) + [Advance(r), Advance(r)]) == Some(n)
    ensures var q := p.(status := Archived);
      n.history == s.history + [Event(a, Some(p), q), Event(r, Some(q), q.(title := title, updatedAt := stamp))]
  {
    var m := RaceHappens(s, p, r, title, stamp, a, p.updatedAt);
    var q := p.(status := Archived);
    n := CommitsIdle(m, q, r);
    Machines.Concat(Step, s, Race(p, r, title, stamp, a, p.updatedAt), [Advance(r)] + [Advance(r)]);
    assert [Advance(r)] + [Advance(r)] == [Advance(r), Advance(r)];
  }
}
