/** The project list: one keyset page with a lookahead row, and the crawl that follows its cursors. */
module Pagination {
  import opened Wrappers
  import opened Values
  import opened Projects
  import opened Cursor
  import opened Sorting

  type Rows = map<Uuid, Project>

  function KeyOf(p: Project): Key { Key(p.createdAt, p.id) }

  /** `a` sorts after `b` under ORDER BY created_at DESC, id DESC. */
  predicate Older(a: Key, b: Key) {
    Instant(a.createdAt) < Instant(b.createdAt) || (a.createdAt == b.createdAt && a.id < b.id)
  }

  predicate Newer(p: Project, q: Project) { Older(KeyOf(q), KeyOf(p)) }

  predicate Live(rows: Rows, account: Uuid, id: Uuid) {
    id in rows && rows[id].accountId == account && rows[id].deletedAt.None?
  }

  /** The primary key. */
  predicate Keyed(rows: Rows) { forall id :: id in rows ==> rows[id].id == id }

  /** The rows that the WHERE clause keeps. */
  function Selected(rows: Rows, account: Uuid, cursor: Option<Key>): set<Project> {
    set id | id in rows && Live(rows, account, id) && (cursor.Some? ==> Older(KeyOf(rows[id]), cursor.value)) :: rows[id]
  }

  ghost function ListByAccount(rows: Rows, account: Uuid, limit: nat, cursor: Option<Key>): (page: seq<Project>)
    requires Keyed(rows)
  {
    SelectedTotal(rows, account, cursor);
    var all := OrderBy(Selected(rows, account, cursor), Newer);
    if |all| <= limit then all else all[..limit]
  }

  /** A page whose continuation is a key, or a key's spelling. */
  datatype Page<+C> = Page(data: seq<Project>, nextCursor: Option<C>, hasMore: bool)

  /** One row more than the page is asked for, to learn whether another page follows. */
  ghost function PageAt(rows: Rows, account: Uuid, limit: nat, cursor: Option<Key>): Page<Key>
    requires Keyed(rows) && limit >= 1
  {
    var found := ListByAccount(rows, account, limit + 1, cursor);
    var hasMore := |found| > limit;
    var page := if hasMore then found[..limit] else found;
    Page(page, if hasMore && page != [] then Some(KeyOf(page[|page| - 1])) else None, hasMore)
  }

  /** How keys are spelled as opaque cursors. */
  datatype Codec = Codec(spell: Key -> string, read: string -> Option<Key>)
  {
    function Print(cursor: Option<Key>): Option<string> {
      match cursor case None => None case Some(k) => Some(spell(k))
    }

    function PrintPage(page: Page<Key>): Page<string> { Page(page.data, Print(page.nextCursor), page.hasMore) }
  }

  const CURSORS: Codec := Codec(EncodeCursor, DecodeCursor)

  /** A whole request; None is the refusal of a cursor that cannot be read. */
  ghost function ListProjects(codec: Codec, rows: Rows, account: Uuid, limit: nat, cursor: Option<string>): Option<Page<string>>
    requires Keyed(rows) && limit >= 1
  {
    if cursor.None? then Some(codec.PrintPage(PageAt(rows, account, limit, None)))
    else match codec.read(cursor.value)
      case None => None
      case Some(key) => Some(codec.PrintPage(PageAt(rows, account, limit, Some(key))))
  }

  ghost predicate AllKeyed(tables: seq<Rows>) { forall i :: 0 <= i < |tables| ==> Keyed(tables[i]) }

  /** The list followed from a cursor, fetch by fetch; `tables[i]` is what is committed at the i-th fetch. */
  ghost function Crawl(codec: Codec, tables: seq<Rows>, account: Uuid, limit: nat, cursor: Option<string>): Option<seq<Page<string>>>
    requires AllKeyed(tables) && limit >= 1
    decreases |tables|
  {
    if tables == [] then Some([])
    else match ListProjects(codec, tables[0], account, limit, cursor)
      case None => None
      case Some(page) =>
        if !page.hasMore then Some([page])
        else match Crawl(codec, tables[1..], account, limit, page.nextCursor)
          case None => None
          case Some(rest) => Some([page] + rest)
  }

  function Items<C>(pages: seq<Page<C>>): seq<Project> {
    if pages == [] then [] else pages[0].data + Items(pages[1..])
  }

  // ---------------------------------------------------------------- the order

  /** Newest first; of one moment, the greater id first. */
  ghost predicate NewestFirst(items: seq<Project>) {
    forall i, j :: 0 <= i < j < |items| ==>
      After(items[i].createdAt, items[j].createdAt) || (items[i].createdAt == items[j].createdAt && items[i].id > items[j].id)
  }

  /** A key comes later in the list exactly if its moment is earlier, or its id smaller at the same moment. */
  lemma OlderExactly(a: Key, b: Key)
    ensures Older(a, b) <==> After(b.createdAt, a.createdAt) || (b.createdAt == a.createdAt && b.id > a.id)
  {
    InstantAfter(b.createdAt, a.createdAt);
  }

  lemma OrderedIsNewestFirst(items: seq<Project>)
    ensures Ordered(items, Newer) <==> NewestFirst(items)
  {
    forall i, j | 0 <= i < j < |items|
      ensures Newer(items[i], items[j]) <==>
        After(items[i].createdAt, items[j].createdAt) || (items[i].createdAt == items[j].createdAt && items[i].id > items[j].id)
    {
      OlderExactly(KeyOf(items[j]), KeyOf(items[i]));
    }
  }

  lemma OlderTotal(a: Key, b: Key)
    ensures a != b ==> Older(a, b) || Older(b, a)
    ensures Older(a, b) ==> !Older(b, a)
  {
    InstantInjective(a.createdAt, b.createdAt);
  }

  lemma SelectedTotal(rows: Rows, account: Uuid, cursor: Option<Key>)
    requires Keyed(rows)
    ensures TotalOn(Selected(rows, account, cursor), Newer)
  {
    forall p, q | p in Selected(rows, account, cursor) && q in Selected(rows, account, cursor) && p != q
      ensures Newer(p, q) || Newer(q, p)
    {
      OlderTotal(KeyOf(p), KeyOf(q));
    }
  }
}
