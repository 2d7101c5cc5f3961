/** A stable insertion sort over sequences, driven by a "may come first" relation, with
    the facts both sorted views need: the result is a permutation of the input, it is
    ordered, and an ordering with no ties among the elements has only one sorted form.
    Both the server's `$sort` on statistics and the client's `sortedLinks` use it. */
module Sorting {

  /** `before(a, b)`: `a` may be placed ahead of `b`. */
  ghost predicate TotalPreorder<T(!new)>(before: (T, T) -> bool) {
    && (forall a, b :: before(a, b) || before(b, a))
    && (forall a, b, c :: before(a, b) && before(b, c) ==> before(a, c))
  }

  predicate SortedBy<T>(s: seq<T>, before: (T, T) -> bool) {
    forall i, j :: 0 <= i < j < |s| ==> before(s[i], s[j])
  }

  /** Puts `x` ahead of the first element it may precede. */
  function Insert<T>(x: T, s: seq<T>, before: (T, T) -> bool): (r: seq<T>)
    ensures multiset(r) == multiset(s) + multiset{x}
    ensures |r| == |s| + 1
    decreases |s|
  {
    if s == [] || before(x, s[0]) then [x] + s
    else
      assert s == [s[0]] + s[1..];
      [s[0]] + Insert(x, s[1..], before)
  }

  lemma {:induction false} InsertSorted<T(!new)>(x: T, s: seq<T>, before: (T, T) -> bool)
    requires TotalPreorder(before)
    requires SortedBy(s, before)
    ensures SortedBy(Insert(x, s, before), before)
    decreases |s|
  {
    var r := Insert(x, s, before);
    if s == [] || before(x, s[0]) {
      forall i, j | 0 <= i < j < |r|
        ensures before(r[i], r[j])
      {
        if i == 0 && j > 1 {
          assert before(s[0], s[j - 1]);
        }
      }
    } else {
      InsertSorted(x, s[1..], before);
      var t := Insert(x, s[1..], before);
      assert r == [s[0]] + t;
      forall j | 0 <= j < |t|
        ensures before(s[0], t[j])
      {
        assert t[j] in multiset(t);
        if t[j] == x {
          assert before(s[0], x);
        } else {
          assert t[j] in multiset(s[1..]);
          var k :| 0 <= k < |s[1..]| && s[1..][k] == t[j];
          assert before(s[0], s[k + 1]);
        }
      }
    }
  }

  /** Stable insertion sort: an element goes ahead of every later element it ties with. */
  function SortBy<T>(s: seq<T>, before: (T, T) -> bool): (r: seq<T>)
    ensures multiset(r) == multiset(s)
    ensures |r| == |s|
    decreases |s|
  {
    if s == [] then [] else
      var r := Insert(s[0], SortBy(s[1..], before), before);
      assert s == [s[0]] + s[1..];
      r
  }

  lemma {:induction false} SortBySorted<T(!new)>(s: seq<T>, before: (T, T) -> bool)
    requires TotalPreorder(before)
    ensures SortedBy(SortBy(s, before), before)
    decreases |s|
  {
    if s != [] {
      SortBySorted(s[1..], before);
      InsertSorted(s[0], SortBy(s[1..], before), before);
    }
  }

  lemma TailsSameElements<T>(a: seq<T>, b: seq<T>)
    requires a != [] && b != [] && a[0] == b[0]
    requires multiset(a) == multiset(b)
    ensures multiset(a[1..]) == multiset(b[1..])
  {
    assert a == [a[0]] + a[1..];
    assert b == [b[0]] + b[1..];
    assert multiset(a[1..]) == multiset(a) - multiset{a[0]};
    assert multiset(b[1..]) == multiset(b) - multiset{b[0]};
  }

  /** Two orderings of the same elements, both sorted, with no two distinct elements
      tied, are the same sequence. */
  lemma {:induction false} SortedUnique<T(!new)>(a: seq<T>, b: seq<T>, before: (T, T) -> bool)
    requires multiset(a) == multiset(b)
    requires SortedBy(a, before) && SortedBy(b, before)
    requires forall x, y :: x in a && y in a && before(x, y) && before(y, x) ==> x == y
    ensures a == b
    decreases |a|
  {
    assert |a| == |multiset(a)| == |b|;
    if a != [] {
      assert a[0] in multiset(b);
      var j :| 0 <= j < |b| && b[j] == a[0];
      assert b[0] in multiset(a);
      var i :| 0 <= i < |a| && a[i] == b[0];
      if i > 0 { assert before(a[0], a[i]); }
      if j > 0 { assert before(b[0], b[j]); }
      assert a[0] == b[0];
      TailsSameElements(a, b);
      assert forall x :: x in a[1..] ==> x in a;
      SortedUnique(a[1..], b[1..], before);
      assert a == [a[0]] + a[1..];
      assert b == [b[0]] + b[1..];
    }
  }
}
