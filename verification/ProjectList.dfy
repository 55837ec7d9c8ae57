/** The browser's project list: pages are fetched one after another and merged by id. */
module ProjectList {
  import opened Wrappers
  import opened Values
  import opened Projects
  import opened Pagination
  import opened PaginationProofs
  import Cursor
  import Json
  import Utf8
  import Base64Url

  datatype Summary = Summary(id: Uuid, title: string, kind: ProjectType, status: Status, updatedAt: Timestamp)

  function Summarize(p: Project): Summary { Summary(p.id, p.title, p.projectType, p.status, p.updatedAt) }

  function Summaries(ps: seq<Project>): (r: seq<Summary>)
    ensures |r| == |ps| && forall i :: 0 <= i < |r| ==> r[i] == Summarize(ps[i])
  {
    seq(|ps|, i requires 0 <= i < |ps| => Summarize(ps[i]))
  }

  datatype LoadResult = Success(page: Page<string>) | Error(requestId: Option<string>)

  /** What the component keeps in its state. */
  datatype View = View(projects: seq<Summary>, nextCursor: Option<string>, hasMore: bool, failure: Option<Option<string>>)
  {
    /** `!nextCursor` is false: there is a cursor and it is not the empty string. */
    predicate CanLoad() { nextCursor.Some? && nextCursor.value != "" }

    function Loaded(result: LoadResult): View {
      match result
      case Error(requestId) => this.(failure := Some(requestId))
      case Success(page) =>
        View(projects + Unknown(Ids(projects), Summaries(page.data)), page.nextCursor, page.hasMore, None)
    }
  }

  function Ids(list: seq<Summary>): set<Uuid> { set s <- list :: s.id }

  /** `data.filter((project) => !known.has(project.id))`. */
  function Unknown(known: set<Uuid>, data: seq<Summary>): seq<Summary> {
    if data == [] then []
    else (if data[0].id in known then [] else [data[0]]) + Unknown(known, data[1..])
  }

  class ProjectList {
    var projects: seq<Summary>
    var nextCursor: Option<string>
    var hasMore: bool
    var failure: Option<Option<string>>

    ghost function Shown(): View reads this { View(projects, nextCursor, hasMore, failure) }

    constructor (page: Page<string>)
      ensures Shown() == Opened(page)
    {
      projects, nextCursor, hasMore, failure := Summaries(page.data), page.nextCursor, page.hasMore, None;
    }

    /** `result` is the answer to the request made with the current cursor. */
    method LoadMore(isPending: bool, result: LoadResult)
      modifies this
      ensures Shown() == if old(Shown()).CanLoad() && !isPending then old(Shown()).Loaded(result) else old(Shown())
      ensures old(nextCursor).None? || old(nextCursor) == Some("") || isPending ==> Shown() == old(Shown())
      ensures old(nextCursor).Some? && old(nextCursor) != Some("") && !isPending ==>
        match result
        case Error(requestId) =>
          failure == Some(requestId) && projects == old(projects) && nextCursor == old(nextCursor) && hasMore == old(hasMore)
        case Success(page) =>
          && failure == None && nextCursor == page.nextCursor && hasMore == page.hasMore && old(projects) <= projects
          && forall s :: s in projects <==>
               s in old(projects) || ((exists p :: p in page.data && DepictsOne(s, p)) && forall t :: t in old(projects) ==> t.id != s.id)
    {
      if nextCursor.None? || nextCursor.value == "" || isPending { return; }
      failure := None;
      match result
      case Error(requestId) =>
        failure := Some(requestId);
      case Success(page) =>
        var known := Ids(projects);
        MergedExactly(projects, page.data);
        projects := projects + Unknown(known, Summaries(page.data));
        assert projects[..|old(projects)|] == old(projects);
        nextCursor := page.nextCursor;
        hasMore := page.hasMore;
    }
  }

  /** A list entry shows this project. */
  predicate DepictsOne(s: Summary, p: Project) {
    s.id == p.id && s.title == p.title && s.kind == p.projectType && s.status == p.status && s.updatedAt == p.updatedAt
  }

  /** The list shows these projects, one by one. */
  ghost predicate Depicts(list: seq<Summary>, items: seq<Project>) {
    |list| == |items| && forall i :: 0 <= i < |list| ==> DepictsOne(list[i], items[i])
  }

  lemma SummariesDepict(items: seq<Project>)
    ensures Depicts(Summaries(items), items)
  {
  }

  lemma SummaryOf(data: seq<Project>, s: Summary)
    ensures s in Summaries(data) <==> exists p :: p in data && DepictsOne(s, p)
  {
    if s in Summaries(data) {
      var i :| 0 <= i < |data| && Summaries(data)[i] == s;
      assert data[i] in data && DepictsOne(s, data[i]);
    }
    if p :| p in data && DepictsOne(s, p) {
      var i :| 0 <= i < |data| && data[i] == p;
      assert Summaries(data)[i] == s;
    }
  }

  lemma {:induction false} UnknownExactly(known: set<Uuid>, data: seq<Summary>, s: Summary)
    ensures s in Unknown(known, data) <==> s in data && s.id !in known
  {
    if data != [] {
      UnknownExactly(known, data[1..], s);
      assert s in data <==> s == data[0] || s in data[1..];
    }
  }

  lemma MergedExactly(list: seq<Summary>, data: seq<Project>)
    ensures forall s :: s in list + Unknown(Ids(list), Summaries(data)) <==>
      s in list || ((exists p :: p in data && DepictsOne(s, p)) && forall t :: t in list ==> t.id != s.id)
  {
    forall s ensures s in list + Unknown(Ids(list), Summaries(data)) <==>
      s in list || ((exists p :: p in data && DepictsOne(s, p)) && forall t :: t in list ==> t.id != s.id)
    {
      UnknownExactly(Ids(list), Summaries(data), s);
      SummaryOf(data, s);
    }
  }

  /** New entries keep the order of their page. */
  lemma {:induction false} UnknownInOrder(known: set<Uuid>, a: seq<Summary>, b: seq<Summary>)
    ensures Unknown(known, a + b) == Unknown(known, a) + Unknown(known, b)
  {
    if a == [] {
      assert a + b == b;
    } else {
      assert (a + b)[1..] == a[1..] + b;
      UnknownInOrder(known, a[1..], b);
    }
  }

  // ---------------------------------------------------------------- browsing

  function Opened(page: Page<string>): View { View(Summaries(page.data), page.nextCursor, page.hasMore, None) }

  /** One press of the button: the server answers from what is committed, or the request fails. */
  datatype Fetch = Answered(rows: Rows) | Broken(requestId: Option<string>)

  ghost function Ask(codec: Codec, view: View, account: Uuid, limit: nat, fetch: Fetch): LoadResult
    requires view.CanLoad() && limit >= 1 && (fetch.Answered? ==> Keyed(fetch.rows))
  {
    match fetch
    case Broken(requestId) => Error(requestId)
    case Answered(rows) =>
      match ListProjects(codec, rows, account, limit, view.nextCursor)
      case None => Error(None)
      case Some(page) => Success(page)
  }

  ghost predicate FetchesKeyed(fetches: seq<Fetch>) {
    forall i :: 0 <= i < |fetches| && fetches[i].Answered? ==> Keyed(fetches[i].rows)
  }

  ghost function Browse(codec: Codec, view: View, account: Uuid, limit: nat, fetches: seq<Fetch>): View
    requires limit >= 1 && FetchesKeyed(fetches)
    decreases |fetches|
  {
    if fetches == [] || !view.CanLoad() then view
    else Browse(codec, view.Loaded(Ask(codec, view, account, limit, fetches[0])), account, limit, fetches[1..])
  }

  function AnsweredRows(fetches: seq<Fetch>): seq<Rows> {
    if fetches == [] then []
    else (match fetches[0] case Answered(rows) => [rows] case Broken(_) => []) + AnsweredRows(fetches[1..])
  }

  lemma {:induction false} AnsweredKeyed(fetches: seq<Fetch>)
    requires FetchesKeyed(fetches)
    ensures AllKeyed(AnsweredRows(fetches)) && |AnsweredRows(fetches)| <= |fetches|
  {
    if fetches != [] {
      AnsweredKeyed(fetches[1..]);
    }
  }

  // ---------------------------------------------------------------- merging

  ghost predicate Distinct(list: seq<Summary>) { forall i, j :: 0 <= i < j < |list| ==> list[i].id != list[j].id }

  lemma {:induction false} UnknownAll(known: set<Uuid>, data: seq<Summary>)
    requires forall i :: 0 <= i < |data| ==> data[i].id !in known
    ensures Unknown(known, data) == data
  {
    if data != [] {
      UnknownAll(known, data[1..]);
    }
  }

  /** Merging drops nothing when no project comes twice. */
  lemma MergeAppends(list: seq<Summary>, data: seq<Summary>)
    requires Distinct(list + data)
    ensures list + Unknown(Ids(list), data) == list + data
  {
    forall i, s | 0 <= i < |data| && s in list ensures s.id != data[i].id {
      assert (list + data)[|list| + i] == data[i] && s in (list + data)[..|list|];
    }
    UnknownAll(Ids(list), data);
  }

  lemma SummariesConcat(a: seq<Project>, b: seq<Project>)
    ensures Summaries(a + b) == Summaries(a) + Summaries(b)
  {
  }

  lemma DistinctPrefix(list: seq<Summary>, data: seq<Summary>, rest: seq<Summary>)
    requires Distinct(list + (data + rest))
    ensures Distinct(list + data) && Distinct((list + data) + rest)
  {
    assert (list + data) + rest == list + (data + rest);
    assert forall i :: 0 <= i < |list + data| ==> (list + data)[i] == ((list + data) + rest)[i];
  }

  /** A codec that reads what it prints and never prints the empty string. */
  ghost predicate Usable(codec: Codec) { Faithful(codec) && forall k :: codec.spell(k) != "" }

  lemma Answer(codec: Codec, view: View, account: Uuid, limit: nat, rows: Rows, k: Cursor.Key)
    requires limit >= 1 && Keyed(rows) && Usable(codec) && view.nextCursor == codec.Print(Some(k))
    requires Distinct(view.projects + Summaries(PageAt(rows, account, limit, Some(k)).data))
    ensures view.CanLoad()
    ensures var page := PageAt(rows, account, limit, Some(k));
      view.Loaded(Ask(codec, view, account, limit, Answered(rows)))
      == View(view.projects + Summaries(page.data), codec.Print(page.nextCursor), page.hasMore, None)
  {
    MergeAppends(view.projects, Summaries(PageAt(rows, account, limit, Some(k)).data));
  }

  function After(list: seq<Summary>, codec: Codec, page: Page<Cursor.Key>): View {
    View(list + Summaries(page.data), codec.Print(page.nextCursor), page.hasMore, None)
  }

  lemma Split(list: seq<Summary>, data: seq<Project>, rest: seq<Project>)
    requires Distinct(list + Summaries(data + rest))
    ensures list + Summaries(data + rest) == (list + Summaries(data)) + Summaries(rest)
    ensures Distinct(list + Summaries(data)) && Distinct((list + Summaries(data)) + Summaries(rest))
  {
    SummariesConcat(data, rest);
    DistinctPrefix(list, Summaries(data), Summaries(rest));
  }

  lemma ItemsStep(rows: Rows, tables: seq<Rows>, account: Uuid, limit: nat, cursor: Option<Cursor.Key>)
    returns (page: Page<Cursor.Key>, rest: seq<Page<Cursor.Key>>)
    requires limit >= 1 && Keyed(rows) && AllKeyed(tables)
    ensures page == PageAt(rows, account, limit, cursor)
    ensures rest == if page.hasMore then Pages(tables, account, limit, page.nextCursor) else []
    ensures Items(Pages([rows] + tables, account, limit, cursor)) == page.data + Items(rest)
    ensures page.hasMore <==> page.nextCursor.Some?
  {
    page, rest := PagesStep([rows] + tables, account, limit, cursor);
    PageFacts(rows, account, limit, cursor);
    assert ([rows] + tables)[1..] == tables;
    ItemsCons(page, rest);
  }

  lemma BrowseDone(codec: Codec, view: View, account: Uuid, limit: nat, fetches: seq<Fetch>)
    requires limit >= 1 && FetchesKeyed(fetches) && !view.CanLoad()
    ensures Browse(codec, view, account, limit, fetches) == view
  {
  }

  lemma BrowseBroken(codec: Codec, view: View, account: Uuid, limit: nat, fetches: seq<Fetch>, k: Cursor.Key)
    requires limit >= 1 && FetchesKeyed(fetches) && fetches != [] && fetches[0].Broken? && view.nextCursor == codec.Print(Some(k))
    ensures Browse(codec, view, account, limit, fetches).projects
         == Browse(codec, view.(failure := Some(fetches[0].requestId)), account, limit, fetches[1..]).projects
    ensures AnsweredRows(fetches) == AnsweredRows(fetches[1..])
  {
  }

  lemma BrowseAnswered(codec: Codec, view: View, account: Uuid, limit: nat, fetches: seq<Fetch>, k: Cursor.Key)
    returns (page: Page<Cursor.Key>, rest: seq<Page<Cursor.Key>>)
    requires limit >= 1 && FetchesKeyed(fetches) && AllKeyed(AnsweredRows(fetches)) && Usable(codec)
    requires fetches != [] && fetches[0].Answered? && view.nextCursor == codec.Print(Some(k)) && AllKeyed(AnsweredRows(fetches[1..]))
    requires Distinct(view.projects + Summaries(Items(Pages(AnsweredRows(fetches), account, limit, Some(k)))))
    ensures rest == if page.hasMore then Pages(AnsweredRows(fetches[1..]), account, limit, page.nextCursor) else []
    ensures page.hasMore <==> page.nextCursor.Some?
    ensures Browse(codec, view, account, limit, fetches)
         == Browse(codec, After(view.projects, codec, page), account, limit, fetches[1..])
    ensures Distinct((view.projects + Summaries(page.data)) + Summaries(Items(rest)))
    ensures view.projects + Summaries(Items(Pages(AnsweredRows(fetches), account, limit, Some(k))))
         == (view.projects + Summaries(page.data)) + Summaries(Items(rest))
  {
    var rows, tail := fetches[0].rows, fetches[1..];
    assert AnsweredRows(fetches) == [rows] + AnsweredRows(tail);
    page, rest := ItemsStep(rows, AnsweredRows(tail), account, limit, Some(k));
    Split(view.projects, page.data, Items(rest));
    Answer(codec, view, account, limit, rows, k);
  }

  /** The projects shown after some presses are those shown before and those of the pages answered since. */
  lemma {:induction false} Browsing(codec: Codec, view: View, account: Uuid, limit: nat, fetches: seq<Fetch>, k: Cursor.Key)
    requires limit >= 1 && FetchesKeyed(fetches) && AllKeyed(AnsweredRows(fetches)) && Usable(codec)
    requires view.nextCursor == codec.Print(Some(k))
    requires Distinct(view.projects + Summaries(Items(Pages(AnsweredRows(fetches), account, limit, Some(k)))))
    ensures Browse(codec, view, account, limit, fetches).projects
         == view.projects + Summaries(Items(Pages(AnsweredRows(fetches), account, limit, Some(k))))
    decreases |fetches|, 0
  {
    if fetches == [] {
      assert view.projects + [] == view.projects;
    } else {
      AnsweredKeyed(fetches[1..]);
      if fetches[0].Broken? {
        BrowseBroken(codec, view, account, limit, fetches, k);
        Browsing(codec, view.(failure := Some(fetches[0].requestId)), account, limit, fetches[1..], k);
      } else {
        var page, rest := BrowseAnswered(codec, view, account, limit, fetches, k);
        BrowsingOn(codec, After(view.projects, codec, page), account, limit, fetches[1..], page, rest);
      }
    }
  }

  lemma {:induction false} BrowsingOn(codec: Codec, view: View, account: Uuid, limit: nat, fetches: seq<Fetch>,
                                      page: Page<Cursor.Key>, rest: seq<Page<Cursor.Key>>)
    requires limit >= 1 && FetchesKeyed(fetches) && AllKeyed(AnsweredRows(fetches)) && Usable(codec)
    requires view.nextCursor == codec.Print(page.nextCursor) && (page.hasMore <==> page.nextCursor.Some?)
    requires rest == if page.hasMore then Pages(AnsweredRows(fetches), account, limit, page.nextCursor) else []
    requires Distinct(view.projects + Summaries(Items(rest)))
    ensures Browse(codec, view, account, limit, fetches).projects == view.projects + Summaries(Items(rest))
    decreases |fetches|, 1
  {
    if page.hasMore {
      Browsing(codec, view, account, limit, fetches, page.nextCursor.value);
    } else {
      BrowseDone(codec, view, account, limit, fetches);
    }
  }

  lemma CursorsUsable()
    ensures Usable(CURSORS)
  {
    forall k ensures CURSORS.read(CURSORS.spell(k)) == Some(k) && CURSORS.spell(k) != "" {
      Cursor.CursorRoundTrip(k);
      NoCursor();
    }
  }

  lemma NoCursor()
    ensures Cursor.DecodeCursor("") == None
  {
    assert Base64Url.Repad("") == "";
    assert Base64Url.Decode("") == Some([]);
  }

  /**
   The list opened on a first page and extended by any presses, some of which fail, shows exactly the pages that a
   crawl of the answered requests returns: merging loses nothing, adds nothing and keeps the order.
   */
  lemma BrowserAgrees(rows: Rows, account: Uuid, limit: nat, fetches: seq<Fetch>) returns (pages: seq<Page<string>>)
    requires limit >= 1 && Keyed(rows) && FetchesKeyed(fetches) && AllKeyed(AnsweredRows(fetches))
    requires Steady([rows] + AnsweredRows(fetches))
    ensures Crawl(CURSORS, [rows] + AnsweredRows(fetches), account, limit, None) == Some(pages) && pages != []
    ensures Browse(CURSORS, Opened(pages[0]), account, limit, fetches).projects == Summaries(Items(pages))
    ensures Depicts(Browse(CURSORS, Opened(pages[0]), account, limit, fetches).projects, Items(pages))
  {
    var tables := [rows] + AnsweredRows(fetches);
    var keyed := Pages(tables, account, limit, None);
    pages := Printed(CURSORS, keyed);
    Cursors(tables, account, limit);
    PrintedItems(CURSORS, keyed);
    NoRepeats(tables, account, limit);
    var page, rest := ItemsStep(rows, AnsweredRows(fetches), account, limit, None);
    assert forall list: seq<Summary> :: [] + list == list;
    Split([], page.data, Items(rest));
    CursorsUsable();
    BrowsingOn(CURSORS, Opened(pages[0]), account, limit, fetches, page, rest);
    SummariesDepict(Items(pages));
  }

  lemma Repeated(rows: Rows, tables: seq<Rows>)
    requires Keyed(rows) && forall i :: 0 <= i < |tables| ==> tables[i] == rows
    ensures [rows] + tables == seq(|tables| + 1, _ => rows) && AllKeyed(tables) && Steady([rows] + tables)
  {
  }

  /** On an unchanging list, once enough requests are answered the browser shows the whole sorted list. */
  lemma BrowserShowsAll(rows: Rows, account: Uuid, limit: nat, fetches: seq<Fetch>) returns (pages: seq<Page<string>>)
    requires limit >= 1 && Keyed(rows) && FetchesKeyed(fetches)
    requires forall i :: 0 <= i < |AnsweredRows(fetches)| ==> AnsweredRows(fetches)[i] == rows
    requires |AnsweredRows(fetches)| + 1 >= PageCount(|All(rows, account, None)|, limit)
    ensures Crawl(CURSORS, seq(|AnsweredRows(fetches)| + 1, _ => rows), account, limit, None) == Some(pages) && pages != []
    ensures WholeList(rows, account, Items(pages))
    ensures Depicts(Browse(CURSORS, Opened(pages[0]), account, limit, fetches).projects, Items(pages))
  {
    Repeated(rows, AnsweredRows(fetches));
    pages := BrowserAgrees(rows, account, limit, fetches);
    var whole := CrawlWhole(rows, account, limit, |AnsweredRows(fetches)| + 1);
  }
}
