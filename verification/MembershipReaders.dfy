/** Three readers of the membership table: account discovery, membership resolution and the bootstrap context. */
module MembershipReaders {
  import opened Wrappers
  import opened Values
  import opened Sorting
  import Identity
  import BootstrapRuns

  datatype Row = Row(id: Uuid, accountId: Uuid, userId: Uuid, role: string, status: string, joinedAt: Timestamp)

  type Rows = map<Uuid, Row>

  function ParseRole(s: string): Option<Identity.Role> {
    if s == "owner" then Some(Identity.Owner) else if s == "admin" then Some(Identity.Admin)
    else if s == "member" then Some(Identity.Member) else None
  }

  function ParseStatus(s: string): Option<Identity.MembershipStatus> {
    if s == "active" then Some(Identity.Active) else if s == "invited" then Some(Identity.Invited)
    else if s == "suspended" then Some(Identity.Suspended) else None
  }

  /** The primary key, the unique (account, user) pair and the two vocabularies. */
  ghost predicate Schema(rows: Rows) {
    && (forall k :: k in rows ==> rows[k].id == k && ParseRole(rows[k].role).Some? && ParseStatus(rows[k].status).Some?)
    && (forall k, l :: k in rows && l in rows && rows[k].accountId == rows[l].accountId && rows[k].userId == rows[l].userId ==> k == l)
  }

  function Of(rows: Rows, user: Uuid): set<Row> { set k | k in rows && rows[k].userId == user :: rows[k] }

  function ActiveOf(rows: Rows, user: Uuid): set<Row> {
    set k | k in rows && rows[k].userId == user && ParseStatus(rows[k].status) == Some(Identity.Active) :: rows[k]
  }

  // ---------------------------------------------------------------- account discovery

  datatype Selection = Selection(id: Uuid, role: Identity.Role)

  predicate ByAccount(a: Row, b: Row) { a.accountId < b.accountId }

  /** `for account_id, role in rows if role in {"owner", "admin", "member"}`. */
  function Selections(found: seq<Row>): seq<Selection> {
    if found == [] then []
    else
      (match ParseRole(found[0].role) case None => [] case Some(role) => [Selection(found[0].accountId, role)])
      + Selections(found[1..])
  }

  lemma ByAccountTotal(rows: Rows, user: Uuid)
    requires Schema(rows)
    ensures TotalOn(ActiveOf(rows, user), ByAccount)
  {
  }

  ghost function Discover(rows: Rows, user: Uuid): seq<Selection>
    requires Schema(rows)
  {
    ByAccountTotal(rows, user);
    Selections(OrderBy(ActiveOf(rows, user), ByAccount))
  }

  // ---------------------------------------------------------------- membership resolution

  datatype Resolution = Resolved(membership: Identity.Membership) | Required(reason: Identity.DenialReason) | ProjectionError

  function Typed(row: Row): Option<Identity.Membership> {
    match (ParseRole(row.role), ParseStatus(row.status))
    case (Some(role), Some(status)) => Some(Identity.Membership(row.id, row.accountId, row.userId, role, status, row.joinedAt))
    case _ => None
  }

  /** The row of a (user, account) pair. */
  ghost function Find(rows: Rows, user: Uuid, account: Uuid): (row: Option<Row>)
    ensures row.Some? ==> row.value in rows.Values && row.value.userId == user && row.value.accountId == account
    ensures row.None? ==> forall k :: k in rows ==> rows[k].userId != user || rows[k].accountId != account
  {
    if k :| k in rows && rows[k].userId == user && rows[k].accountId == account then Some(rows[k]) else None
  }

  /** What the use case makes of the row the repository returns. */
  function Judge(row: Option<Row>, user: Uuid, account: Uuid): Resolution {
    if row.None? then Required(Identity.NotFound)
    else match Typed(row.value)
      case None => ProjectionError
      case Some(m) =>
        if m.status.Invited? then Required(Identity.WasInvited)
        else if m.status.Suspended? then Required(Identity.WasSuspended)
        else if m.userId != user || m.accountId != account then ProjectionError
        else Resolved(m)
  }

  ghost function ResolveActive(rows: Rows, user: Uuid, account: Uuid): Resolution {
    Judge(Find(rows, user, account), user, account)
  }

  // ---------------------------------------------------------------- the bootstrap context

  predicate ByJoining(a: Row, b: Row) {
    Instant(a.joinedAt) < Instant(b.joinedAt) || (Instant(a.joinedAt) == Instant(b.joinedAt) && a.id < b.id)
  }

  lemma ByJoiningTotal(rows: Rows, user: Uuid)
    requires Schema(rows)
    ensures TotalOn(Of(rows, user), ByJoining)
  {
  }

  /** `active = tuple(m for m in memberships if m.status == "active")`, over rows already read as memberships. */
  function ActiveTuple(found: seq<Row>): seq<Identity.Membership> {
    if found == [] then []
    else
      (match Typed(found[0]) case None => [] case Some(m) => if m.status.Active? then [m] else [])
      + ActiveTuple(found[1..])
  }

  /** The memberships of the context, oldest first. */
  ghost function BootstrapContext(rows: Rows, user: Uuid): seq<Identity.Membership>
    requires Schema(rows)
  {
    ByJoiningTotal(rows, user);
    ActiveTuple(OrderBy(Of(rows, user), ByJoining))
  }

  // ---------------------------------------------------------------- agreement

  lemma {:induction false} InSelections(found: seq<Row>, s: Selection)
    ensures s in Selections(found) <==>
      exists i :: 0 <= i < |found| && found[i].accountId == s.id && ParseRole(found[i].role) == Some(s.role)
  {
    if found != [] {
      InSelections(found[1..], s);
      assert forall i :: 0 < i < |found| ==> found[i] == found[1..][i - 1];
      if i :| 0 <= i < |found| && found[i].accountId == s.id && ParseRole(found[i].role) == Some(s.role) {
        if i > 0 { assert found[1..][i - 1] == found[i]; }
      }
    }
  }

  predicate Picks(row: Row, s: Selection) { row.accountId == s.id && ParseRole(row.role) == Some(s.role) }

  lemma Discovered(rows: Rows, user: Uuid, s: Selection)
    requires Schema(rows)
    ensures s in Discover(rows, user) <==> exists k :: k in rows && rows[k] in ActiveOf(rows, user) && Picks(rows[k], s)
  {
    ByAccountTotal(rows, user);
    var found := OrderBy(ActiveOf(rows, user), ByAccount);
    InSelections(found, s);
    if s in Discover(rows, user) {
      var i :| 0 <= i < |found| && found[i].accountId == s.id && ParseRole(found[i].role) == Some(s.role);
      assert found[i] in Elements(found);
      assert rows[found[i].id] == found[i];
    }
    if k :| k in rows && rows[k] in ActiveOf(rows, user) && Picks(rows[k], s) {
      assert rows[k] in Elements(found);
    }
  }

  /** Discovery lists an account with a role exactly when selecting that account resolves to an active membership with that role. */
  lemma DiscoveryAgrees(rows: Rows, user: Uuid, s: Selection)
    requires Schema(rows)
    ensures s in Discover(rows, user) <==>
      ResolveActive(rows, user, s.id).Resolved? && ResolveActive(rows, user, s.id).membership.role == s.role
  {
    Discovered(rows, user, s);
    var row := Find(rows, user, s.id);
    if row.Some? {
      var k :| k in rows && rows[k] == row.value;
      assert k == row.value.id;
    }
  }

  predicate RowOf(rows: Rows, k: Uuid, user: Uuid, account: Uuid, status: Identity.MembershipStatus) {
    k in rows && rows[k].userId == user && rows[k].accountId == account && ParseStatus(rows[k].status) == Some(status)
  }

  /** Selecting an account is denied for the reason its one row gives, or for want of a row, and never fails. */
  lemma DenialAgrees(rows: Rows, user: Uuid, account: Uuid)
    requires Schema(rows)
    ensures var r := ResolveActive(rows, user, account);
      && !r.ProjectionError?
      && (r == Required(Identity.WasInvited) <==> exists k :: RowOf(rows, k, user, account, Identity.Invited))
      && (r == Required(Identity.WasSuspended) <==> exists k :: RowOf(rows, k, user, account, Identity.Suspended))
      && (r.Resolved? <==> exists k :: RowOf(rows, k, user, account, Identity.Active))
  {
    var row := Find(rows, user, account);
    if row.Some? {
      var k :| k in rows && rows[k] == row.value;
      assert RowOf(rows, k, user, account, ParseStatus(rows[k].status).value);
      assert forall l, status :: RowOf(rows, l, user, account, status) ==> l == k;
    }
  }

  /** Selecting an account resolves to a membership exactly if it is the pair's own row, read as it stands, and active. */
  lemma ResolvedExactly(rows: Rows, user: Uuid, account: Uuid, m: Identity.Membership)
    requires Schema(rows)
    ensures ResolveActive(rows, user, account) == Resolved(m) <==>
      && m.id in rows && m.userId == user && m.accountId == account && m.status == Identity.Active
      && (var row := rows[m.id];
          && row.userId == user && row.accountId == account && row.joinedAt == m.joinedAt && row.status == "active"
          && row.role == match m.role case Owner => "owner" case Admin => "admin" case Member => "member")
  {
    var row := Find(rows, user, account);
    if row.Some? {
      var k :| k in rows && rows[k] == row.value;
      assert k == row.value.id;
    }
    if m.id in rows && rows[m.id].userId == user && rows[m.id].accountId == account { assert row.Some?; }
  }

  ghost predicate StrictlySorted(list: seq<Selection>) { forall i, j :: 0 <= i < j < |list| ==> list[i].id < list[j].id }

  lemma {:induction false} SelectionsSorted(found: seq<Row>)
    requires Ordered(found, ByAccount)
    ensures StrictlySorted(Selections(found))
  {
    if found != [] {
      var rest := found[1..];
      SelectionsSorted(rest);
      forall s | s in Selections(rest) ensures found[0].accountId < s.id {
        InSelections(rest, s);
        var i :| 0 <= i < |rest| && rest[i].accountId == s.id;
        assert rest[i] == found[i + 1];
      }
      assert forall i :: 0 <= i < |Selections(rest)| ==> Selections(rest)[i] in Selections(rest);
    }
  }

  /** The list is strictly sorted by account, so no account comes twice. */
  lemma DiscoverySorted(rows: Rows, user: Uuid)
    requires Schema(rows)
    ensures StrictlySorted(Discover(rows, user))
  {
    ByAccountTotal(rows, user);
    SelectionsSorted(OrderBy(ActiveOf(rows, user), ByAccount));
  }

  predicate Yields(row: Row, m: Identity.Membership) { Typed(row) == Some(m) && m.status.Active? }

  lemma {:induction false} InActiveTuple(found: seq<Row>, m: Identity.Membership)
    ensures m in ActiveTuple(found) <==> exists i :: 0 <= i < |found| && Yields(found[i], m)
  {
    if found != [] {
      InActiveTuple(found[1..], m);
      assert forall i :: 0 < i < |found| ==> found[i] == found[1..][i - 1];
      if i :| 0 <= i < |found| && Yields(found[i], m) {
        if i > 0 { assert found[1..][i - 1] == found[i]; }
      }
    }
  }

  lemma InContext(rows: Rows, user: Uuid, m: Identity.Membership)
    requires Schema(rows)
    ensures m in BootstrapContext(rows, user) <==> m.id in rows && rows[m.id].userId == user && Yields(rows[m.id], m)
  {
    ByJoiningTotal(rows, user);
    var found := OrderBy(Of(rows, user), ByJoining);
    InActiveTuple(found, m);
    if m in BootstrapContext(rows, user) {
      var i :| 0 <= i < |found| && Yields(found[i], m);
      assert found[i] in Elements(found);
    }
    if m.id in rows && rows[m.id].userId == user && Yields(rows[m.id], m) {
      assert rows[m.id] in Elements(found);
    }
  }

  /** The accounts of the bootstrap context are exactly those that discovery lists, with the same roles. */
  lemma ContextAgrees(rows: Rows, user: Uuid, s: Selection)
    requires Schema(rows)
    ensures s in Discover(rows, user) <==>
      exists m :: m in BootstrapContext(rows, user) && m.accountId == s.id && m.role == s.role
  {
    Discovered(rows, user, s);
    if s in Discover(rows, user) {
      var k :| k in rows && rows[k] in ActiveOf(rows, user) && Picks(rows[k], s);
      var m := Typed(rows[k]).value;
      InContext(rows, user, m);
      assert m in BootstrapContext(rows, user);
    }
    if m :| m in BootstrapContext(rows, user) && m.accountId == s.id && m.role == s.role {
      InContext(rows, user, m);
      assert Picks(rows[m.id], s);
    }
  }

  /** Oldest membership first; of one moment, the smaller id first. */
  ghost predicate OldestFirst(list: seq<Identity.Membership>) {
    forall i, j :: 0 <= i < j < |list| ==>
      After(list[j].joinedAt, list[i].joinedAt) || (list[i].joinedAt == list[j].joinedAt && list[i].id < list[j].id)
  }

  lemma JoinedExactly(a: Row, b: Row)
    ensures ByJoining(a, b) <==> After(b.joinedAt, a.joinedAt) || (a.joinedAt == b.joinedAt && a.id < b.id)
  {
    InstantAfter(b.joinedAt, a.joinedAt);
    InstantInjective(a.joinedAt, b.joinedAt);
  }

  lemma FromLater(found: seq<Row>, m: Identity.Membership) returns (i: nat)
    requires found != [] && m in ActiveTuple(found[1..])
    ensures 0 < i < |found| && Yields(found[i], m)
  {
    InActiveTuple(found[1..], m);
    i :| 0 <= i < |found[1..]| && Yields(found[1..][i], m);
    i := i + 1;
  }

  lemma {:induction false} TupleOrdered(found: seq<Row>)
    requires Ordered(found, ByJoining)
    ensures OldestFirst(ActiveTuple(found))
  {
    if found != [] {
      var later := ActiveTuple(found[1..]);
      TupleOrdered(found[1..]);
      if Typed(found[0]).Some? {
        var m := Typed(found[0]).value;
        forall j | 0 <= j < |later|
          ensures After(later[j].joinedAt, m.joinedAt) || (m.joinedAt == later[j].joinedAt && m.id < later[j].id)
        {
          var i := FromLater(found, later[j]);
          JoinedExactly(found[0], found[i]);
        }
      }
    }
  }

  /** The context lists the memberships in the order they were joined. */
  lemma ContextOrdered(rows: Rows, user: Uuid)
    requires Schema(rows)
    ensures OldestFirst(BootstrapContext(rows, user))
  {
    ByJoiningTotal(rows, user);
    TupleOrdered(OrderBy(Of(rows, user), ByJoining));
  }

  // ---------------------------------------------------------------- the bootstrap transaction reads the same

  function RoleName(role: Identity.Role): string {
    match role case Owner => "owner" case Admin => "admin" case Member => "member"
  }

  function StatusName(status: Identity.MembershipStatus): string {
    match status case Active => "active" case Invited => "invited" case Suspended => "suspended"
  }

  function Stored(m: Identity.Membership): Row { Row(m.id, m.accountId, m.userId, RoleName(m.role), StatusName(m.status), m.joinedAt) }

  function StoredRows(ms: map<Uuid, Identity.Membership>): Rows { map k | k in ms :: Stored(ms[k]) }

  lemma TypedStored(m: Identity.Membership)
    ensures Typed(Stored(m)) == Some(m)
  {
  }

  /** On the rows of a bootstrap database, the run's context and this reader's hold the same memberships. */
  lemma BootstrapReadsTheSame(db: BootstrapRuns.Db, user: Uuid, created: bool)
    requires Schema(StoredRows(db.memberships.rows))
    ensures var outcome, list := BootstrapRuns.ContextFrom(db.Of(user), created), BootstrapContext(StoredRows(db.memberships.rows), user);
      && (outcome.Context? <==> list != [])
      && (outcome.Context? ==> outcome.active == Elements(list))
  {
    var rows := StoredRows(db.memberships.rows);
    var list := BootstrapContext(rows, user);
    var active := set m | m in db.Of(user) && m.status.Active?;
    forall m ensures m in Elements(list) <==> m in active {
      InContext(rows, user, m);
      if m.id in db.memberships.rows { TypedStored(db.memberships.rows[m.id]); }
      if m in active {
        var k :| k in db.memberships.rows && db.memberships.rows[k] == m;
        assert rows[k] == Stored(m);
        TypedStored(m);
      }
    }
    NoElements(list);
  }
}
