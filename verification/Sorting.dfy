/** ORDER BY over a finite set of rows: its one strictly ordered enumeration. */
module Sorting {
  /** A strict total order on the rows of `s`. */
  ghost predicate TotalOn<T(!new)>(s: set<T>, before: (T, T) -> bool) {
    && (forall x, y :: before(x, y) ==> !before(y, x))
    && (forall x, y, z :: before(x, y) && before(y, z) ==> before(x, z))
    && (forall x, y :: x in s && y in s && x != y ==> before(x, y) || before(y, x))
  }

  ghost predicate Ordered<T>(q: seq<T>, before: (T, T) -> bool) {
    forall i, j :: 0 <= i < j < |q| ==> before(q[i], q[j])
  }

  function Elements<T>(q: seq<T>): set<T> { set x | x in q }

  lemma {:induction false} FirstExists<T(!new)>(s: set<T>, before: (T, T) -> bool) returns (m: T)
    requires TotalOn(s, before) && s != {}
    ensures m in s && forall x :: x in s && x != m ==> before(m, x)
    decreases s
  {
    m :| m in s;
    if s != {m} {
      var x := m;
      m := FirstExists(s - {x}, before);
      if before(x, m) { m := x; }
    }
  }

  lemma {:induction false} OrderedExists<T(!new)>(s: set<T>, before: (T, T) -> bool) returns (q: seq<T>)
    requires TotalOn(s, before)
    ensures Ordered(q, before) && Elements(q) == s && |q| == |s|
    decreases s
  {
    q := [];
    if s != {} {
      var m := FirstExists(s, before);
      var rest := OrderedExists(s - {m}, before);
      q := [m] + rest;
      forall x ensures x in q <==> x in s {
        assert x in rest <==> x in Elements(rest);
      }
      forall i, j | 0 <= i < j < |q| ensures before(q[i], q[j]) {
        assert q[j] in Elements(rest);
      }
    }
  }

  lemma SomeOrdered<T(!new)>(s: set<T>, before: (T, T) -> bool)
    requires TotalOn(s, before)
    ensures exists q :: Ordered(q, before) && Elements(q) == s && |q| == |s|
  {
    var q := OrderedExists(s, before);
  }

  ghost function OrderBy<T(!new)>(s: set<T>, before: (T, T) -> bool): (q: seq<T>)
    requires TotalOn(s, before)
    ensures Ordered(q, before) && Elements(q) == s && |q| == |s|
  {
    SomeOrdered(s, before);
    var q :| Ordered(q, before) && Elements(q) == s && |q| == |s|;
    q
  }

  /** Two ordered enumerations of the same rows are the same list. */
  lemma {:induction false} OrderedUnique<T(!new)>(p: seq<T>, q: seq<T>, before: (T, T) -> bool)
    requires forall x, y :: before(x, y) ==> !before(y, x)
    requires Ordered(p, before) && Ordered(q, before) && Elements(p) == Elements(q)
    ensures p == q
    decreases |p|
  {
    NoElements(p);
    NoElements(q);
    if p != [] {
      assert p[0] in Elements(p) && q[0] in Elements(q);
      assert p[0] == q[0];
      RestElements(p, before);
      RestElements(q, before);
      OrderedUnique(p[1..], q[1..], before);
    }
  }

  lemma NoElements<T>(q: seq<T>)
    ensures Elements(q) == {} <==> q == []
  {
    if q != [] { assert q[0] in Elements(q); }
  }

  lemma RestElements<T(!new)>(p: seq<T>, before: (T, T) -> bool)
    requires p != [] && Ordered(p, before) && forall x, y :: before(x, y) ==> !before(y, x)
    ensures Elements(p[1..]) == Elements(p) - {p[0]} && Ordered(p[1..], before)
  {
    forall x ensures x in p[1..] <==> x in p && x != p[0] {
      if x in p && x != p[0] {
        var i :| 0 <= i < |p| && p[i] == x;
        assert p[1..][i - 1] == x;
      }
    }
  }
}
