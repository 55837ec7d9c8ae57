/**
 One table of a READ COMMITTED database. `rows` holds what is committed. `pending` holds the row versions that open
 transactions have written, each tagged with its transaction: read by owner it is that transaction's write buffer,
 read by key it is the lock table.
 */
module Tables {
  import opened Wrappers

  type Txn = nat

  datatype Uncommitted<+V> = Uncommitted(owner: Txn, row: V)

  /** What one statement does: wait for another transaction, touch no row, or write one. */
  datatype Reply<!K(==,!new), +V> = Blocked | Miss | Hit(table: Table<K, V>, row: V)

  datatype Table<!K(==,!new), +V> = Table(rows: map<K, V>, pending: map<K, Uncommitted<V>>)
  {
    predicate Owns(t: Txn, k: K) { k in pending && pending[k].owner == t }

    predicate LockedFor(t: Txn, k: K) { k in pending && pending[k].owner != t }

    /** The row as a statement of `t` sees it: its own write, else what is committed at that moment. */
    function Visible(t: Txn, k: K): Option<V> {
      if Owns(t, k) then Some(pending[k].row)
      else if k in rows then Some(rows[k])
      else None
    }

    function Put(t: Txn, k: K, v: V): Table<K, V>
    {
      this.(pending := pending[k := Uncommitted(t, v)])
    }

    /** INSERT: waits for an in-flight holder of the key, and misses when the key is taken. */
    function Insert(t: Txn, k: K, v: V): Reply<K, V> {
      if LockedFor(t, k) then Blocked
      else if Visible(t, k).Some? then Miss
      else Hit(Put(t, k, v), v)
    }

    /**
     UPDATE .. WHERE key = k AND matches: a committed row that does not match is skipped without waiting; a matching
     row locked by another transaction is waited for, after which the filter is evaluated again.
     */
    function Update(t: Txn, k: K, matches: V -> bool, change: V -> V): Reply<K, V> {
      var seen := Visible(t, k);
      if seen.None? || !matches(seen.value) then Miss
      else if LockedFor(t, k) then Blocked
      else Hit(Put(t, k, change(seen.value)), change(seen.value))
    }

    function Commit(t: Txn): (r: Table<K, V>)
      ensures forall k :: k in r.rows <==> k in rows || Owns(t, k)
      ensures forall k :: k in r.rows ==> r.rows[k] == if Owns(t, k) then pending[k].row else rows[k]
      ensures r.pending == Rollback(t).pending
    {
      Table(rows + map k | k in pending && pending[k].owner == t :: pending[k].row, Rollback(t).pending)
    }

    function Rollback(t: Txn): (r: Table<K, V>)
      ensures r.rows == rows
      ensures forall k :: k in r.pending <==> k in pending && pending[k].owner != t
      ensures forall k :: k in r.pending ==> r.pending[k] == pending[k]
    {
      this.(pending := map k | k in pending && pending[k].owner != t :: pending[k])
    }
  }
}
