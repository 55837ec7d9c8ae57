/** A crawl against a changing table agrees with the whole sorted list. */
module PaginationProofs {
  import opened Wrappers
  import opened Values
  import opened Projects
  import opened Cursor
  import opened Sorting
  import opened Pagination

  /** Whatever commits between fetches, a stored project keeps its creation time. */
  ghost predicate Steady(tables: seq<Rows>) {
    forall i, j, id :: 0 <= i < |tables| && 0 <= j < |tables| && id in tables[i] && id in tables[j] ==>
      tables[i][id].createdAt == tables[j][id].createdAt
  }

  // ---------------------------------------------------------------- one page

  ghost function All(rows: Rows, account: Uuid, cursor: Option<Key>): (all: seq<Project>)
    requires Keyed(rows)
    ensures Ordered(all, Newer) && Elements(all) == Selected(rows, account, cursor)
  {
    SelectedTotal(rows, account, cursor);
    OrderBy(Selected(rows, account, cursor), Newer)
  }

  function Last(page: Page<Key>): Key
    requires page.data != []
  {
    KeyOf(page.data[|page.data| - 1])
  }

  /** A page is a prefix of the rows after its cursor; only a full page is followed by another, from its last row. */
  lemma PageFacts(rows: Rows, account: Uuid, limit: nat, cursor: Option<Key>)
    requires Keyed(rows) && limit >= 1
    ensures var page, all := PageAt(rows, account, limit, cursor), All(rows, account, cursor);
      && page.hasMore == (|all| > limit)
      && page.data == (if page.hasMore then all[..limit] else all)
      && page.nextCursor == if page.hasMore then Some(Last(page)) else None
  {
    var all := All(rows, account, cursor);
    if |all| > limit { assert all[..limit + 1][..limit] == all[..limit]; }
  }

  lemma PageMember(rows: Rows, account: Uuid, limit: nat, cursor: Option<Key>, p: Project)
    requires Keyed(rows) && limit >= 1 && p in PageAt(rows, account, limit, cursor).data
    ensures Live(rows, account, p.id) && rows[p.id] == p && (cursor.Some? ==> Older(KeyOf(p), cursor.value))
  {
    PageFacts(rows, account, limit, cursor);
    assert p in Elements(All(rows, account, cursor));
  }

  /** What a page leaves out comes after its last row. */
  lemma PageComplete(rows: Rows, account: Uuid, limit: nat, cursor: Option<Key>, id: Uuid)
    requires Keyed(rows) && limit >= 1 && Live(rows, account, id)
    requires cursor.Some? ==> Older(KeyOf(rows[id]), cursor.value)
    ensures var page := PageAt(rows, account, limit, cursor);
      rows[id] in page.data || (page.hasMore && page.data != [] && Older(KeyOf(rows[id]), Last(page)))
  {
    PageFacts(rows, account, limit, cursor);
    var all := All(rows, account, cursor);
    assert rows[id] in Selected(rows, account, cursor);
    assert rows[id] in Elements(all);
    var i :| 0 <= i < |all| && all[i] == rows[id];
    if |all| > limit && i < limit { assert all[..limit][i] == rows[id]; }
  }

  // ---------------------------------------------------------------- the crawl

  /** The crawl on keys instead of their spellings. */
  ghost function Pages(tables: seq<Rows>, account: Uuid, limit: nat, cursor: Option<Key>): (pages: seq<Page<Key>>)
    requires AllKeyed(tables) && limit >= 1
    ensures |pages| <= |tables|
    decreases |tables|
  {
    if tables == [] then []
    else
      var page := PageAt(tables[0], account, limit, cursor);
      [page] + if page.hasMore then Pages(tables[1..], account, limit, page.nextCursor) else []
  }

  lemma PagesStep(tables: seq<Rows>, account: Uuid, limit: nat, cursor: Option<Key>) returns (page: Page<Key>, rest: seq<Page<Key>>)
    requires AllKeyed(tables) && limit >= 1 && tables != []
    ensures page == PageAt(tables[0], account, limit, cursor)
    ensures rest == if page.hasMore then Pages(tables[1..], account, limit, page.nextCursor) else []
    ensures Pages(tables, account, limit, cursor) == [page] + rest
    ensures |Pages(tables, account, limit, cursor)| == 1 + |rest|
  {
    page := PageAt(tables[0], account, limit, cursor);
    rest := if page.hasMore then Pages(tables[1..], account, limit, page.nextCursor) else [];
  }

  function Printed(codec: Codec, pages: seq<Page<Key>>): (r: seq<Page<string>>)
    ensures |r| == |pages| && forall i :: 0 <= i < |r| ==> r[i] == codec.PrintPage(pages[i])
  {
    seq(|pages|, i requires 0 <= i < |pages| => codec.PrintPage(pages[i]))
  }

  ghost predicate Faithful(codec: Codec) { forall k :: codec.read(codec.spell(k)) == Some(k) }

  lemma CrawlStep(codec: Codec, tables: seq<Rows>, account: Uuid, limit: nat, cursor: Option<Key>, page: Page<Key>)
    requires AllKeyed(tables) && limit >= 1 && tables != [] && page == PageAt(tables[0], account, limit, cursor) && Faithful(codec)
    ensures Crawl(codec, tables, account, limit, codec.Print(cursor)) ==
      if !page.hasMore then Some([codec.PrintPage(page)])
      else match Crawl(codec, tables[1..], account, limit, codec.Print(page.nextCursor))
        case None => None
        case Some(rest) => Some([codec.PrintPage(page)] + rest)
  {
    assert ListProjects(codec, tables[0], account, limit, codec.Print(cursor)) == Some(codec.PrintPage(page));
  }

  lemma PrintedCons(codec: Codec, page: Page<Key>, rest: seq<Page<Key>>)
    ensures Printed(codec, [page] + rest) == [codec.PrintPage(page)] + Printed(codec, rest)
    ensures rest == [] ==> Printed(codec, [page] + rest) == [codec.PrintPage(page)]
  {
  }

  /** A crawl is never refused: printing and reading cursors between the fetches changes nothing. */
  lemma {:induction false} CrawlPrinted(codec: Codec, tables: seq<Rows>, account: Uuid, limit: nat, cursor: Option<Key>)
    requires AllKeyed(tables) && limit >= 1 && Faithful(codec)
    ensures Crawl(codec, tables, account, limit, codec.Print(cursor)) == Some(Printed(codec, Pages(tables, account, limit, cursor)))
    decreases |tables|
  {
    if tables != [] {
      var page, rest := PagesStep(tables, account, limit, cursor);
      PrintedCons(codec, page, rest);
      CrawlStep(codec, tables, account, limit, cursor, page);
      if page.hasMore { CrawlPrinted(codec, tables[1..], account, limit, page.nextCursor); }
    }
  }

  lemma Cursors(tables: seq<Rows>, account: Uuid, limit: nat)
    requires AllKeyed(tables) && limit >= 1
    ensures Crawl(CURSORS, tables, account, limit, None) == Some(Printed(CURSORS, Pages(tables, account, limit, None)))
  {
    forall k ensures CURSORS.read(CURSORS.spell(k)) == Some(k) {
      CursorRoundTrip(k);
    }
    CrawlPrinted(CURSORS, tables, account, limit, None);
  }

  lemma {:induction false} PrintedItems(codec: Codec, pages: seq<Page<Key>>)
    ensures Items(Printed(codec, pages)) == Items(pages)
  {
    if pages != [] {
      assert Printed(codec, pages)[1..] == Printed(codec, pages[1..]);
      PrintedItems(codec, pages[1..]);
    }
  }

  ghost predicate Below(items: seq<Project>, cursor: Option<Key>) {
    forall p :: p in items && cursor.Some? ==> Older(KeyOf(p), cursor.value)
  }

  lemma OrderedConcat(page: seq<Project>, rest: seq<Project>)
    requires Ordered(page, Newer) && Ordered(rest, Newer) && page != []
    requires Below(rest, Some(KeyOf(page[|page| - 1])))
    ensures Ordered(page + rest, Newer)
  {
    var last := page[|page| - 1];
    forall i, j | 0 <= i < |page| && 0 <= j < |rest| ensures Newer(page[i], rest[j]) {
      assert rest[j] in rest;
      assert Newer(last, rest[j]);
      if i < |page| - 1 { assert Newer(page[i], last); }
    }
  }

  lemma BelowConcat(page: seq<Project>, rest: seq<Project>, cursor: Option<Key>)
    requires page != [] && Below(page, cursor) && Below(rest, Some(KeyOf(page[|page| - 1])))
    ensures Below(page + rest, cursor)
  {
    var last := page[|page| - 1];
    assert last in page;
  }

  lemma DescendsOn(page: Page<Key>, rest: seq<Page<Key>>, cursor: Option<Key>)
    requires Ordered(page.data, Newer) && Below(page.data, cursor)
    requires if page.hasMore then page.data != [] && page.nextCursor == Some(Last(page)) else rest == []
    requires page.hasMore ==> Ordered(Items(rest), Newer) && Below(Items(rest), page.nextCursor)
    ensures Ordered(Items([page] + rest), Newer) && Below(Items([page] + rest), cursor)
  {
    ItemsCons(page, rest);
    if page.hasMore {
      OrderedConcat(page.data, Items(rest));
      BelowConcat(page.data, Items(rest), cursor);
    }
  }

  /** The rows of a crawl come in strictly descending order, whatever happens between its fetches. */
  lemma {:induction false} Descends(tables: seq<Rows>, account: Uuid, limit: nat, cursor: Option<Key>)
    requires AllKeyed(tables) && limit >= 1
    ensures Ordered(Items(Pages(tables, account, limit, cursor)), Newer)
    ensures Below(Items(Pages(tables, account, limit, cursor)), cursor)
    decreases |tables|
  {
    if tables != [] {
      var page, rest := PagesStep(tables, account, limit, cursor);
      PageDescends(tables[0], account, limit, cursor);
      if page.hasMore { Descends(tables[1..], account, limit, page.nextCursor); }
      DescendsOn(page, rest, cursor);
    }
  }

  lemma PageDescends(rows: Rows, account: Uuid, limit: nat, cursor: Option<Key>)
    requires Keyed(rows) && limit >= 1
    ensures var page := PageAt(rows, account, limit, cursor);
      && Ordered(page.data, Newer) && Below(page.data, cursor)
      && (page.hasMore ==> page.data != [] && page.nextCursor == Some(Last(page)))
  {
    PageFacts(rows, account, limit, cursor);
    PageBelow(rows, account, limit, cursor);
  }

  lemma PageBelow(rows: Rows, account: Uuid, limit: nat, cursor: Option<Key>)
    requires Keyed(rows) && limit >= 1
    ensures Below(PageAt(rows, account, limit, cursor).data, cursor)
  {
    forall p | p in PageAt(rows, account, limit, cursor).data ensures cursor.Some? ==> Older(KeyOf(p), cursor.value) {
      PageMember(rows, account, limit, cursor, p);
    }
  }

  lemma ItemsCons<C>(page: Page<C>, rest: seq<Page<C>>)
    ensures Items([page] + rest) == page.data + Items(rest)
  {
    assert ([page] + rest)[1..] == rest;
  }

  /** `p` is a live project of the account in `rows`. */
  predicate Shows(rows: Rows, account: Uuid, p: Project) {
    p.id in rows && rows[p.id] == p && p.accountId == account && p.deletedAt.None?
  }

  /** Every row of the i-th page is a live project of the account in what was committed at the i-th fetch. */
  ghost predicate Sound<C>(tables: seq<Rows>, account: Uuid, pages: seq<Page<C>>)
    requires |pages| <= |tables|
  {
    forall i, p :: 0 <= i < |pages| && p in pages[i].data ==> Shows(tables[i], account, p)
  }

  lemma SoundCons(tables: seq<Rows>, account: Uuid, page: Page<Key>, rest: seq<Page<Key>>)
    requires |rest| < |tables| && Sound(tables[1..], account, rest)
    requires forall p :: p in page.data ==> Shows(tables[0], account, p)
    ensures Sound(tables, account, [page] + rest)
  {
    forall i, p | 0 <= i < |[page] + rest| && p in ([page] + rest)[i].data ensures Shows(tables[i], account, p) {
      if i > 0 { assert p in rest[i - 1].data && tables[1..][i - 1] == tables[i]; }
    }
  }

  lemma {:induction false} CrawlSound(tables: seq<Rows>, account: Uuid, limit: nat, cursor: Option<Key>)
    requires AllKeyed(tables) && limit >= 1
    ensures Sound(tables, account, Pages(tables, account, limit, cursor))
    decreases |tables|
  {
    if tables != [] {
      var page, rest := PagesStep(tables, account, limit, cursor);
      forall p | p in page.data ensures Shows(tables[0], account, p) {
        PageMember(tables[0], account, limit, cursor, p);
      }
      if page.hasMore { CrawlSound(tables[1..], account, limit, page.nextCursor); }
      SoundCons(tables, account, page, rest);
    }
  }

  predicate Finished<C>(pages: seq<Page<C>>) { pages != [] && !pages[|pages| - 1].hasMore }

  ghost predicate LiveThroughout(tables: seq<Rows>, account: Uuid, id: Uuid) {
    forall i :: 0 <= i < |tables| ==> id in tables[i] && Shows(tables[i], account, tables[i][id])
  }

  ghost predicate Listed(items: seq<Project>, id: Uuid) { exists i :: 0 <= i < |items| && items[i].id == id }

  lemma ListedBy(items: seq<Project>, p: Project)
    requires p in items
    ensures Listed(items, p.id)
  {
  }

  lemma ListedOn(page: seq<Project>, rest: seq<Project>, id: Uuid)
    requires Listed(page, id) || Listed(rest, id)
    ensures Listed(page + rest, id)
  {
    if Listed(page, id) {
      var i :| 0 <= i < |page| && page[i].id == id;
      assert (page + rest)[i].id == id;
    } else {
      var i :| 0 <= i < |rest| && rest[i].id == id;
      assert (page + rest)[|page| + i].id == id;
    }
  }

  /** By its last page a crawl has returned every project that was live at each of its fetches. */
  lemma {:induction false} Complete(tables: seq<Rows>, account: Uuid, limit: nat, cursor: Option<Key>, id: Uuid)
    requires AllKeyed(tables) && Steady(tables) && limit >= 1 && Finished(Pages(tables, account, limit, cursor))
    requires LiveThroughout(tables[..|Pages(tables, account, limit, cursor)|], account, id)
    requires cursor.Some? && id in tables[0] ==> Older(KeyOf(tables[0][id]), cursor.value)
    ensures Listed(Items(Pages(tables, account, limit, cursor)), id)
    decreases |tables|
  {
    var page, rest := PagesStep(tables, account, limit, cursor);
    assert tables[..1 + |rest|][0] == tables[0];
    PageComplete(tables[0], account, limit, cursor, id);
    ItemsCons(page, rest);
    if tables[0][id] in page.data {
      ListedBy(page.data, tables[0][id]);
    } else {
      PageDescends(tables[0], account, limit, cursor);
      FinishedRest(page, rest);
      CompleteNext(tables, account, id, 1 + |rest|);
      Complete(tables[1..], account, limit, page.nextCursor, id);
    }
    ListedOn(page.data, Items(rest), id);
  }

  lemma FinishedRest(page: Page<Key>, rest: seq<Page<Key>>)
    requires Finished([page] + rest) && page.hasMore
    ensures Finished(rest)
  {
  }

  lemma CompleteNext(tables: seq<Rows>, account: Uuid, id: Uuid, n: nat)
    requires AllKeyed(tables) && Steady(tables) && 1 < n <= |tables| && LiveThroughout(tables[..n], account, id)
    ensures AllKeyed(tables[1..]) && Steady(tables[1..]) && LiveThroughout(tables[1..][..n - 1], account, id)
    ensures id in tables[0] && id in tables[1..][0] && KeyOf(tables[1..][0][id]) == KeyOf(tables[0][id])
  {
    assert tables[..n][0] == tables[0] && tables[..n][1] == tables[1];
    assert tables[1..][..n - 1] == tables[..n][1..];
  }

  lemma {:induction false} ItemFrom<C>(pages: seq<Page<C>>, p: Project) returns (i: nat)
    requires p in Items(pages)
    ensures i < |pages| && p in pages[i].data
  {
    if p in pages[0].data {
      i := 0;
    } else {
      i := ItemFrom(pages[1..], p);
      i := i + 1;
    }
  }

  ghost predicate DistinctIds(items: seq<Project>) { forall i, j :: 0 <= i < j < |items| ==> items[i].id != items[j].id }

  lemma NoRepeats(tables: seq<Rows>, account: Uuid, limit: nat)
    requires AllKeyed(tables) && Steady(tables) && limit >= 1
    ensures DistinctIds(Items(Pages(tables, account, limit, None)))
  {
    var pages := Pages(tables, account, limit, None);
    Descends(tables, account, limit, None);
    CrawlSound(tables, account, limit, None);
    forall i, j | 0 <= i < j < |Items(pages)| ensures Items(pages)[i].id != Items(pages)[j].id {
      var p, q := Items(pages)[i], Items(pages)[j];
      var a := ItemFrom(pages, p);
      var b := ItemFrom(pages, q);
      assert Newer(p, q);
      assert Shows(tables[a], account, p) && Shows(tables[b], account, q);
    }
  }

  /**
   Following the cursors from the first page, with arbitrary changes between fetches: no request is refused, the rows
   come newest first, pages are full as long as more follow, no project comes twice, each is live and as committed at
   its fetch, and once a page says that no more follow, every project live throughout has come.
   */
  lemma CrawlAgrees(tables: seq<Rows>, account: Uuid, limit: nat) returns (pages: seq<Page<string>>)
    requires AllKeyed(tables) && Steady(tables) && limit >= 1
    ensures Crawl(CURSORS, tables, account, limit, None) == Some(pages) && |pages| <= |tables|
    ensures NewestFirst(Items(pages)) && DistinctIds(Items(pages)) && WellPaged(pages, limit, |tables|)
    ensures Sound(tables, account, pages)
    ensures Finished(pages) ==>
      forall id :: LiveThroughout(tables[..|pages|], account, id) ==> Listed(Items(pages), id)
  {
    var keyed := Pages(tables, account, limit, None);
    pages := Printed(CURSORS, keyed);
    Cursors(tables, account, limit);
    PrintedItems(CURSORS, keyed);
    Descends(tables, account, limit, None);
    OrderedIsNewestFirst(Items(pages));
    NoRepeats(tables, account, limit);
    CrawlSound(tables, account, limit, None);
    PagesWellPaged(tables, account, limit, None);
    AllComplete(tables, account, limit);
  }

  lemma AllComplete(tables: seq<Rows>, account: Uuid, limit: nat)
    requires AllKeyed(tables) && Steady(tables) && limit >= 1
    ensures var pages := Pages(tables, account, limit, None);
      Finished(pages) ==> forall id :: LiveThroughout(tables[..|pages|], account, id) ==> Listed(Items(pages), id)
  {
    var pages := Pages(tables, account, limit, None);
    if Finished(pages) {
      forall id | LiveThroughout(tables[..|pages|], account, id) ensures Listed(Items(pages), id) {
        Complete(tables, account, limit, None, id);
      }
    }
  }

  // ---------------------------------------------------------------- the shape of a crawl

  /** A page is full whenever another follows, has a cursor exactly then, and only the last fetch can leave it at that. */
  ghost predicate WellPaged<C>(pages: seq<Page<C>>, limit: nat, fetches: nat) {
    && |pages| <= fetches && (|pages| < fetches ==> Finished(pages))
    && forall i :: 0 <= i < |pages| ==>
         && |pages[i].data| <= limit && (pages[i].hasMore ==> |pages[i].data| == limit)
         && (pages[i].nextCursor.Some? <==> pages[i].hasMore) && (i < |pages| - 1 ==> pages[i].hasMore)
  }

  lemma PageSize(rows: Rows, account: Uuid, limit: nat, cursor: Option<Key>)
    requires Keyed(rows) && limit >= 1
    ensures var page := PageAt(rows, account, limit, cursor);
      |page.data| <= limit && (page.hasMore ==> |page.data| == limit) && (page.nextCursor.Some? <==> page.hasMore)
  {
    PageFacts(rows, account, limit, cursor);
  }

  lemma WellPagedCons(page: Page<Key>, rest: seq<Page<Key>>, limit: nat, fetches: nat)
    requires |page.data| <= limit && (page.hasMore ==> |page.data| == limit) && (page.nextCursor.Some? <==> page.hasMore)
    requires if page.hasMore then WellPaged(rest, limit, fetches) else rest == []
    ensures WellPaged([page] + rest, limit, fetches + 1)
  {
    if page.hasMore && rest != [] { assert ([page] + rest)[|rest|] == rest[|rest| - 1]; }
  }

  lemma {:induction false} PagesWellPaged(tables: seq<Rows>, account: Uuid, limit: nat, cursor: Option<Key>)
    requires AllKeyed(tables) && limit >= 1
    ensures WellPaged(Pages(tables, account, limit, cursor), limit, |tables|)
    decreases |tables|
  {
    if tables != [] {
      var page, rest := PagesStep(tables, account, limit, cursor);
      PageSize(tables[0], account, limit, cursor);
      if page.hasMore { PagesWellPaged(tables[1..], account, limit, page.nextCursor); }
      WellPagedCons(page, rest, limit, |tables| - 1);
    }
  }

  // ---------------------------------------------------------------- an unchanging list

  lemma OrderedPart(all: seq<Project>, n: nat)
    requires Ordered(all, Newer) && n <= |all|
    ensures Ordered(all[n..], Newer)
  {
  }

  /** The rows after a full page are the tail of the list. */
  lemma Tail(rows: Rows, account: Uuid, limit: nat, cursor: Option<Key>)
    requires Keyed(rows) && limit >= 1 && |All(rows, account, cursor)| > limit
    ensures var all := All(rows, account, cursor); All(rows, account, Some(KeyOf(all[limit - 1]))) == all[limit..]
  {
    var all := All(rows, account, cursor);
    var key := KeyOf(all[limit - 1]);
    var tail := All(rows, account, Some(key));
    forall p ensures p in Elements(tail) <==> p in Elements(all[limit..]) {
      if p in all[limit..] {
        var i :| limit <= i < |all| && all[i] == p;
        assert p in Elements(all) && Newer(all[limit - 1], p);
      }
      if p in tail {
        TailMember(rows, account, limit, cursor, p);
      }
    }
    OrderedPart(all, limit);
    OrderedUnique(tail, all[limit..], Newer);
  }

  lemma TailMember(rows: Rows, account: Uuid, limit: nat, cursor: Option<Key>, p: Project)
    requires Keyed(rows) && limit >= 1 && |All(rows, account, cursor)| > limit
    requires p in Selected(rows, account, Some(KeyOf(All(rows, account, cursor)[limit - 1])))
    ensures p in All(rows, account, cursor)[limit..]
  {
    var all := All(rows, account, cursor);
    assert all[limit - 1] in Elements(all);
    assert p in Selected(rows, account, cursor);
    assert p in Elements(all);
    var i :| 0 <= i < |all| && all[i] == p;
    assert i == |all| - 1 || i != limit - 1;
    assert all[limit..][i - limit] == p;
  }

  /** max(1, ceil(n / limit)). */
  function PageCount(n: nat, limit: nat): nat
    requires limit >= 1
  {
    if n == 0 then 1 else (n + limit - 1) / limit
  }

  lemma PageCountOk(n: nat, limit: nat)
    requires limit >= 1
    ensures Fits(n, limit, PageCount(n, limit))
  {
    if n > 0 {
      var q, r := (n + limit - 1) / limit, (n + limit - 1) % limit;
      assert q * limit + r == n + limit - 1;
      assert (q - 1) * limit == q * limit - limit;
    }
  }

  /** `n` rows fill `pages` pages of `limit`. */
  predicate Fits(n: nat, limit: nat, pages: nat) {
    pages >= 1 && n <= pages * limit && (pages > 1 ==> (pages - 1) * limit < n)
  }

  /** `pages` lists exactly `all`, in `count` pages. */
  ghost predicate Lists<C>(pages: seq<Page<C>>, all: seq<Project>, count: nat) {
    Finished(pages) && |pages| == count && Items(pages) == all
  }

  lemma WholeLast(tables: seq<Rows>, account: Uuid, limit: nat, cursor: Option<Key>, count: nat)
    requires AllKeyed(tables) && limit >= 1 && tables != [] && |All(tables[0], account, cursor)| <= limit
    requires Fits(|All(tables[0], account, cursor)|, limit, count)
    ensures Lists(Pages(tables, account, limit, cursor), All(tables[0], account, cursor), count)
  {
    var page, rest := PagesStep(tables, account, limit, cursor);
    PageFacts(tables[0], account, limit, cursor);
    PageCountLast(|All(tables[0], account, cursor)|, limit, count);
    ItemsCons(page, rest);
  }

  lemma FullPage(rows: Rows, account: Uuid, limit: nat, cursor: Option<Key>)
    requires Keyed(rows) && limit >= 1 && |All(rows, account, cursor)| > limit
    ensures var page, all := PageAt(rows, account, limit, cursor), All(rows, account, cursor);
      page.hasMore && page.data == all[..limit] && page.nextCursor == Some(KeyOf(all[limit - 1]))
  {
    PageFacts(rows, account, limit, cursor);
  }

  lemma WholeNext(tables: seq<Rows>, account: Uuid, limit: nat, cursor: Option<Key>, count: nat) returns (key: Key)
    requires AllKeyed(tables) && limit >= 1 && tables != [] && |All(tables[0], account, cursor)| > limit
    ensures var all := All(tables[0], account, cursor);
      && All(tables[0], account, Some(key)) == all[limit..]
      && (Lists(Pages(tables[1..], account, limit, Some(key)), all[limit..], count) ==>
            Lists(Pages(tables, account, limit, cursor), all, count + 1))
  {
    var all := All(tables[0], account, cursor);
    var page, rest := PagesStep(tables, account, limit, cursor);
    FullPage(tables[0], account, limit, cursor);
    Tail(tables[0], account, limit, cursor);
    key := KeyOf(all[limit - 1]);
    if Lists(rest, all[limit..], count) { ListsCons(page, rest, all, limit, count); }
  }

  lemma ListsCons(page: Page<Key>, rest: seq<Page<Key>>, all: seq<Project>, limit: nat, count: nat)
    requires limit <= |all| && page.data == all[..limit] && Lists(rest, all[limit..], count)
    ensures Lists([page] + rest, all, count + 1)
  {
    ItemsCons(page, rest);
    FinishedCons(page, rest);
  }

  lemma {:induction false} Whole(tables: seq<Rows>, rows: Rows, account: Uuid, limit: nat, cursor: Option<Key>, count: nat)
    requires Keyed(rows) && AllKeyed(tables) && limit >= 1 && forall i :: 0 <= i < |tables| ==> tables[i] == rows
    requires Fits(|All(rows, account, cursor)|, limit, count) && |tables| >= count
    ensures Lists(Pages(tables, account, limit, cursor), All(rows, account, cursor), count)
    decreases count
  {
    var n := |All(rows, account, cursor)|;
    if n <= limit {
      WholeLast(tables, account, limit, cursor, count);
    } else {
      PageCountRest(n, limit, count);
      var key := WholeNext(tables, account, limit, cursor, count - 1);
      Whole(tables[1..], rows, account, limit, Some(key), count - 1);
    }
  }

  lemma FinishedCons(page: Page<Key>, rest: seq<Page<Key>>)
    requires Finished(rest)
    ensures Finished([page] + rest)
  {
  }

  /** On an unchanging list the crawl returns exactly the whole sorted list, in as many pages as that takes. */
  lemma CrawlWhole(rows: Rows, account: Uuid, limit: nat, fetches: nat) returns (pages: seq<Page<string>>)
    requires Keyed(rows) && limit >= 1 && fetches >= PageCount(|All(rows, account, None)|, limit)
    ensures Crawl(CURSORS, seq(fetches, _ => rows), account, limit, None) == Some(pages)
    ensures Lists(pages, All(rows, account, None), PageCount(|Items(pages)|, limit))
    ensures WholeList(rows, account, Items(pages)) && WellPaged(pages, limit, fetches)
  {
    var tables := seq(fetches, _ => rows);
    var keyed := Pages(tables, account, limit, None);
    var n := |All(rows, account, None)|;
    pages := Printed(CURSORS, keyed);
    Cursors(tables, account, limit);
    PrintedItems(CURSORS, keyed);
    PageCountOk(n, limit);
    Whole(tables, rows, account, limit, None, PageCount(n, limit));
    PagesWellPaged(tables, account, limit, None);
    AllIsWhole(rows, account);
  }

  /** Every live project of the account, and no other row, newest first. */
  ghost predicate WholeList(rows: Rows, account: Uuid, items: seq<Project>) {
    NewestFirst(items) && forall p :: p in items <==> Shows(rows, account, p)
  }

  lemma AllIsWhole(rows: Rows, account: Uuid)
    requires Keyed(rows)
    ensures WholeList(rows, account, All(rows, account, None))
  {
    var all := All(rows, account, None);
    OrderedIsNewestFirst(all);
    forall p ensures p in all <==> Shows(rows, account, p) {
      assert p in all <==> p in Elements(all);
    }
  }

  lemma PageCountRest(n: nat, limit: nat, count: nat)
    requires limit >= 1 && n > limit && Fits(n, limit, count)
    ensures count >= 2 && Fits(n - limit, limit, count - 1)
  {
    assert (count - 1) * limit == count * limit - limit;
    if count > 1 { assert (count - 2) * limit == (count - 1) * limit - limit; }
  }

  lemma PageCountLast(n: nat, limit: nat, count: nat)
    requires limit >= 1 && n <= limit && Fits(n, limit, count)
    ensures count == 1
  {
    if count > 1 { AtLeast(count - 1, limit); }
  }
}
