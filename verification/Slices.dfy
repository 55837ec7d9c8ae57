/** The part of a table that belongs to one tenant, and when statements act on it as they do on the whole. */
module Slices {
  import opened Wrappers
  import opened Tables

  function Only<K(!new), V>(t: Table<K, V>, mine: (K, V) -> bool): Table<K, V> {
    Table(map k | k in t.rows && mine(k, t.rows[k]) :: t.rows[k],
          map k | k in t.pending && mine(k, t.pending[k].row) :: t.pending[k])
  }

  lemma OnlyPut<K(!new), V>(t: Table<K, V>, mine: (K, V) -> bool, r: Txn, k: K, v: V)
    requires mine(k, v)
    ensures Only(t.Put(r, k, v), mine) == Only(t, mine).Put(r, k, v)
  {
  }

  lemma OnlyPutOther<K(!new), V>(t: Table<K, V>, mine: (K, V) -> bool, r: Txn, k: K, v: V)
    requires !mine(k, v) && (k in t.pending ==> !mine(k, t.pending[k].row))
    ensures Only(t.Put(r, k, v), mine) == Only(t, mine)
  {
  }

  lemma OnlyRollback<K(!new), V>(t: Table<K, V>, mine: (K, V) -> bool, r: Txn)
    ensures Only(t.Rollback(r), mine) == Only(t, mine).Rollback(r)
  {
  }

  ghost predicate OwnsMine<K(!new), V>(t: Table<K, V>, mine: (K, V) -> bool, r: Txn) {
    forall k :: t.Owns(r, k) ==> mine(k, t.pending[k].row)
  }

  ghost predicate OwnsOther<K(!new), V>(t: Table<K, V>, mine: (K, V) -> bool, r: Txn) {
    forall k :: t.Owns(r, k) ==> !mine(k, t.pending[k].row) && (k in t.rows ==> !mine(k, t.rows[k]))
  }

  lemma OnlyCommit<K(!new), V>(t: Table<K, V>, mine: (K, V) -> bool, r: Txn)
    requires OwnsMine(t, mine, r)
    ensures Only(t.Commit(r), mine) == Only(t, mine).Commit(r)
  {
    OnlyRollback(t, mine, r);
    forall k { OnlyCommitAt(t, mine, r, k); }
    assert Only(t.Commit(r), mine).rows == Only(t, mine).Commit(r).rows;
  }

  lemma OnlyCommitAt<K(!new), V>(t: Table<K, V>, mine: (K, V) -> bool, r: Txn, k: K)
    requires OwnsMine(t, mine, r)
    ensures k in Only(t.Commit(r), mine).rows <==> k in Only(t, mine).Commit(r).rows
    ensures k in Only(t, mine).Commit(r).rows ==> Only(t.Commit(r), mine).rows[k] == Only(t, mine).Commit(r).rows[k]
  {
    assert Only(t, mine).Owns(r, k) <==> t.Owns(r, k);
  }

  lemma OnlyCommitOther<K(!new), V>(t: Table<K, V>, mine: (K, V) -> bool, r: Txn)
    requires OwnsOther(t, mine, r)
    ensures Only(t.Commit(r), mine) == Only(t, mine)
    ensures Only(t.Rollback(r), mine) == Only(t, mine)
  {
    assert Only(t.Commit(r), mine).rows == Only(t, mine).rows;
    assert Only(t.Rollback(r), mine).pending == Only(t, mine).pending;
  }

  /** Nobody else has anything at this key. */
  predicate Clear<K(!new), V>(t: Table<K, V>, mine: (K, V) -> bool, k: K) {
    (k in t.rows ==> mine(k, t.rows[k])) && (k in t.pending ==> mine(k, t.pending[k].row))
  }

  lemma OnlySees<K(!new), V>(t: Table<K, V>, mine: (K, V) -> bool, r: Txn, k: K)
    requires Clear(t, mine, k)
    ensures Only(t, mine).Visible(r, k) == t.Visible(r, k)
    ensures Only(t, mine).LockedFor(r, k) == t.LockedFor(r, k)
  {
  }

  function OnlyReply<K(!new), V>(reply: Reply<K, V>, mine: (K, V) -> bool): Reply<K, V> {
    match reply
    case Blocked => Blocked
    case Miss => Miss
    case Hit(t, row) => Hit(Only(t, mine), row)
  }

  lemma OnlyInsert<K(!new), V>(t: Table<K, V>, mine: (K, V) -> bool, r: Txn, k: K, v: V)
    requires Clear(t, mine, k) && mine(k, v)
    ensures Only(t, mine).Insert(r, k, v) == OnlyReply(t.Insert(r, k, v), mine)
  {
    OnlySees(t, mine, r, k);
    OnlyPut(t, mine, r, k, v);
  }

  lemma OnlyUpdate<K(!new), V>(t: Table<K, V>, mine: (K, V) -> bool, r: Txn, k: K, matches: V -> bool, change: V -> V)
    requires Clear(t, mine, k) && forall v :: mine(k, v) && matches(v) ==> mine(k, change(v))
    ensures Only(t, mine).Update(r, k, matches, change) == OnlyReply(t.Update(r, k, matches, change), mine)
  {
    OnlySees(t, mine, r, k);
    var seen := t.Visible(r, k);
    if seen.Some? && matches(seen.value) { OnlyPut(t, mine, r, k, change(seen.value)); }
  }

  /** An account's part of a table: its rows and its uncommitted rows, and nothing else. */
  ghost predicate PartOf<K(!new), V>(part: Table<K, V>, whole: Table<K, V>, mine: (K, V) -> bool) {
    && (forall k :: k in part.rows <==> k in whole.rows && mine(k, whole.rows[k]))
    && (forall k :: k in part.rows ==> part.rows[k] == whole.rows[k])
    && (forall k :: k in part.pending <==> k in whole.pending && mine(k, whole.pending[k].row))
    && (forall k :: k in part.pending ==> part.pending[k] == whole.pending[k])
  }
}
