/**
 The discipline every protocol keeps: the uncommitted rows of a table are exactly the rows that the open runs hold at
 their program points. `held` says what a run at its program point holds in the table.
 */
module Locking {
  import opened Wrappers
  import opened Tables

  ghost predicate Exact<K(!new), V, R>(t: Table<K, V>, runs: map<Txn, R>, held: R -> Option<(K, V)>) {
    && (forall k :: k in t.pending ==>
          t.pending[k].owner in runs && held(runs[t.pending[k].owner]) == Some((k, t.pending[k].row)))
    && (forall r :: r in runs && held(runs[r]).Some? ==>
          held(runs[r]).value.0 in t.pending
          && t.pending[held(runs[r]).value.0] == Uncommitted(r, held(runs[r]).value.1))
  }

  lemma ExactOpen<K(!new), V, R>(t: Table<K, V>, runs: map<Txn, R>, held: R -> Option<(K, V)>, r: Txn, run: R)
    requires Exact(t, runs, held) && r !in runs && held(run).None?
    ensures Exact(t, runs[r := run], held)
  {
  }

  lemma ExactSame<K(!new), V, R>(t: Table<K, V>, runs: map<Txn, R>, held: R -> Option<(K, V)>, r: Txn, run: R)
    requires Exact(t, runs, held) && r in runs && held(run) == held(runs[r])
    ensures Exact(t, runs[r := run], held)
  {
  }

  lemma ExactPut<K(!new), V, R>(t: Table<K, V>, runs: map<Txn, R>, held: R -> Option<(K, V)>, r: Txn, run: R, k: K, v: V)
    requires Exact(t, runs, held) && r in runs && !t.LockedFor(r, k)
    requires held(runs[r]).None? || held(runs[r]).value.0 == k
    requires held(run) == Some((k, v))
    ensures Exact(t.Put(r, k, v), runs[r := run], held)
  {
  }

  lemma ExactRelease<K(!new), V, R>(t: Table<K, V>, runs: map<Txn, R>, held: R -> Option<(K, V)>, r: Txn, run: R)
    requires Exact(t, runs, held) && r in runs && held(run).None?
    ensures Exact(t.Rollback(r), runs[r := run], held)
    ensures Exact(t.Commit(r), runs[r := run], held)
  {
  }

  /** A commit publishes exactly the row the run holds. */
  lemma CommitHeld<K(!new), V, R>(t: Table<K, V>, runs: map<Txn, R>, held: R -> Option<(K, V)>, r: Txn)
    requires Exact(t, runs, held) && r in runs
    ensures held(runs[r]).None? ==> t.Commit(r).rows == t.rows
    ensures held(runs[r]).Some? ==>
      t.Commit(r).rows == t.rows[held(runs[r]).value.0 := held(runs[r]).value.1]
      && t.Visible(r, held(runs[r]).value.0) == Some(held(runs[r]).value.1)
  {
    var rows := t.Commit(r).rows;
    assert forall k :: t.Owns(r, k) ==> held(runs[r]) == Some((k, t.pending[k].row));
    if held(runs[r]).Some? {
      assert rows == t.rows[held(runs[r]).value.0 := held(runs[r]).value.1];
    } else {
      assert rows == t.rows;
    }
  }

  /** No two runs hold the same key. */
  lemma HeldApart<K(!new), V, R>(t: Table<K, V>, runs: map<Txn, R>, held: R -> Option<(K, V)>, r: Txn, u: Txn)
    requires Exact(t, runs, held) && r in runs && u in runs && r != u && held(runs[r]).Some? && held(runs[u]).Some?
    ensures held(runs[r]).value.0 != held(runs[u]).value.0
  {
  }

  /** Whoever is waited for holds the key. */
  lemma Holder<K(!new), V, R>(t: Table<K, V>, runs: map<Txn, R>, held: R -> Option<(K, V)>, k: K)
    requires Exact(t, runs, held) && k in t.pending
    ensures t.pending[k].owner in runs && held(runs[t.pending[k].owner]).Some?
  {
  }
}
