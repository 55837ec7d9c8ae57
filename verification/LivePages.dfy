/** The project list read while the project service runs: its steps meet what a crawl asks of the table. */
module LivePages {
  import opened Wrappers
  import Machines
  import opened Values
  import opened Projects
  import opened Tables
  import opened Sorting
  import opened Pagination
  import opened PaginationProofs
  import opened ProjectRuns
  import opened ProjectInvariant
  import opened ProjectSteps
  import opened ProjectTheorems
  import ProjectList

  /** Committed projects stay, with their account and creation time. */
  ghost predicate KeepsRows(rows: Rows, rows': Rows) {
    forall id :: id in rows ==>
      id in rows' && rows'[id].accountId == rows[id].accountId && rows'[id].createdAt == rows[id].createdAt
  }

  lemma CommitKeepsRows(s: Sys, r: Txn, outcome: Outcome)
    requires Inv(s) && s.Active(r) && s.runs[r].phase.Written?
    ensures KeepsRows(s.db.projects.rows, s.Commit(r, s.runs[r].phase.project, outcome).db.projects.rows)
  {
    assert RunOk(s.db, s.runs[r]);
    CommitAppends(s, r, outcome);
    var op := s.runs[r].op;
    if op.Create? { assert op.projectId !in s.db.projects.rows; }
  }

  lemma NextKeepsRows(s: Sys, r: Txn, s': Sys)
    requires Inv(s) && s.Active(r) && Next(s, r) == Some(s')
    ensures KeepsRows(s.db.projects.rows, s'.db.projects.rows)
  {
    match s.runs[r].phase
    case Written(p) => CommitKeepsRows(s, r, Returned(p));
    case Begin => NextQuiet(s, r, s');
    case Conflicted => NextQuiet(s, r, s');
    case Reserved => NextQuiet(s, r, s');
    case Added(_) => NextQuiet(s, r, s');
    case Checked => NextQuiet(s, r, s');
  }

  lemma ReachedStep(s: Sys, a: Action, s': Sys)
    requires Reached(s) && Step(s, a) == Some(s')
    ensures KeepsRows(s.db.projects.rows, s'.db.projects.rows)
  {
    match a
    case Start(_, _, _) =>
    case Advance(r) => ReachedNextKeepsRows(s, r, s');
    case Cancel(_) =>
    case LoseReply(r) => ReachedCommitKeepsRows(s, r, Failed(ReplyLost));
  }

  lemma ReachedNextKeepsRows(s: Sys, r: Txn, s': Sys)
    requires Reached(s) && s.Active(r) && Next(s, r) == Some(s')
    ensures KeepsRows(s.db.projects.rows, s'.db.projects.rows)
  {
    ReachedInv(s);
    NextKeepsRows(s, r, s');
  }

  lemma ReachedCommitKeepsRows(s: Sys, r: Txn, outcome: Outcome)
    requires Reached(s) && s.Active(r) && s.runs[r].phase.Written?
    ensures KeepsRows(s.db.projects.rows, s.Commit(r, s.runs[r].phase.project, outcome).db.projects.rows)
  {
    ReachedInv(s);
    CommitKeepsRows(s, r, outcome);
  }

  ghost predicate RowsKept(s: Sys, s': Sys) { KeepsRows(s.db.projects.rows, s'.db.projects.rows) }

  lemma RunKeepsRows(s: Sys, trace: seq<Action>, s': Sys)
    requires Reached(s) && Execute(s, trace) == Some(s')
    ensures RowsKept(s, s')
  {
    forall x, a | Reached(x) && Step(x, a).Some? ensures RowsKept(x, Step(x, a).value) {
      ReachedStep(x, a, Step(x, a).value);
    }
    Machines.Carried(Step, EMPTY, RowsKept, s, trace, s');
  }

  ghost predicate Later(s: Sys, s': Sys) { exists trace :: Execute(s, trace) == Some(s') }

  /** The states in which the fetches of a crawl find the database, the service running in between. */
  ghost predicate Observed(states: seq<Sys>) {
    && (forall i :: 0 <= i < |states| ==> Reached(states[i]))
    && (forall i :: 0 < i < |states| ==> Later(states[i - 1], states[i]))
  }

  lemma {:induction false} ObservedKeepsRows(states: seq<Sys>, i: nat, j: nat)
    requires Observed(states) && i <= j < |states|
    ensures KeepsRows(states[i].db.projects.rows, states[j].db.projects.rows)
    decreases j
  {
    if i < j {
      ObservedKeepsRows(states, i, j - 1);
      assert Later(states[j - 1], states[j]);
      var trace :| Execute(states[j - 1], trace) == Some(states[j]);
      RunKeepsRows(states[j - 1], trace, states[j]);
    }
  }

  function TablesOf(states: seq<Sys>): (tables: seq<Rows>)
    ensures |tables| == |states| && forall i :: 0 <= i < |states| ==> tables[i] == states[i].db.projects.rows
  {
    seq(|states|, i requires 0 <= i < |states| => states[i].db.projects.rows)
  }

  lemma ReachedKeyed(s: Sys)
    requires Reached(s)
    ensures Keyed(s.db.projects.rows)
  {
    ReachedInv(s);
  }

  lemma ObservedSteady(states: seq<Sys>)
    requires Observed(states)
    ensures AllKeyed(TablesOf(states)) && Steady(TablesOf(states))
  {
    forall i | 0 <= i < |states| ensures Keyed(TablesOf(states)[i]) {
      ReachedKeyed(states[i]);
    }
    forall i, j, id | 0 <= i < |states| && 0 <= j < |states| && id in TablesOf(states)[i] && id in TablesOf(states)[j]
      ensures TablesOf(states)[i][id].createdAt == TablesOf(states)[j][id].createdAt
    {
      if i <= j { ObservedKeepsRows(states, i, j); } else { ObservedKeepsRows(states, j, i); }
    }
  }

  /**
   What a crawl whose fetches meet these states returns: full pages as long as more follow, newest first, each project once
   and as committed at its fetch, and, once no page follows, every project that stayed live.
   */
  ghost predicate Fair(states: seq<Sys>, account: Uuid, limit: nat, pages: seq<Page<string>>) {
    && WellPaged(pages, limit, |states|) && NewestFirst(Items(pages)) && DistinctIds(Items(pages))
    && |pages| <= |states| && Sound(TablesOf(states), account, pages)
    && (Finished(pages) ==> forall id :: LiveThroughout(TablesOf(states)[..|pages|], account, id) ==> Listed(Items(pages), id))
  }

  /** A crawl made while projects are created, retitled, archived and deleted. */
  lemma CrawlWhileServing(states: seq<Sys>, account: Uuid, limit: nat) returns (pages: seq<Page<string>>)
    requires Observed(states) && limit >= 1
    ensures AllKeyed(TablesOf(states))
    ensures Crawl(CURSORS, TablesOf(states), account, limit, None) == Some(pages)
    ensures Fair(states, account, limit, pages)
  {
    ObservedSteady(states);
    pages := CrawlAgrees(TablesOf(states), account, limit);
  }

  lemma {:induction false} AnsweredFetches(fetches: seq<ProjectList.Fetch>)
    requires AllKeyed(ProjectList.AnsweredRows(fetches))
    ensures ProjectList.FetchesKeyed(fetches)
  {
    if fetches != [] {
      var rows, tail := ProjectList.AnsweredRows(fetches), fetches[1..];
      if fetches[0].Answered? {
        assert rows[0] == fetches[0].rows && rows[1..] == ProjectList.AnsweredRows(tail);
      } else {
        assert rows == ProjectList.AnsweredRows(tail);
      }
      AnsweredFetches(tail);
    }
  }

  /**
   The browser in front of the running service: opened in one state, its requests answered in later ones, some of them
   failing in between, it shows exactly such a crawl's projects.
   */
  lemma BrowserWhileServing(states: seq<Sys>, account: Uuid, limit: nat, fetches: seq<ProjectList.Fetch>)
    returns (pages: seq<Page<string>>)
    requires Observed(states) && limit >= 1 && states != []
    requires TablesOf(states) == [states[0].db.projects.rows] + ProjectList.AnsweredRows(fetches)
    ensures ProjectList.FetchesKeyed(fetches) && pages != [] && Fair(states, account, limit, pages)
    ensures ProjectList.Depicts(ProjectList.Browse(CURSORS, ProjectList.Opened(pages[0]), account, limit, fetches).projects, Items(pages))
  {
    ObservedSteady(states);
    var rows := ProjectList.AnsweredRows(fetches);
    assert forall i :: 0 <= i < |rows| ==> rows[i] == TablesOf(states)[i + 1];
    AnsweredFetches(fetches);
    pages := CrawlWhileServing(states, account, limit);
    var same := ProjectList.BrowserAgrees(states[0].db.projects.rows, account, limit, fetches);
  }
}
