/** The statistics pipeline `$group` by category with `$sum: 1`, `$project` to
    `{category, count}` and `$sort` by count descending, as an operation on the
    sequence of the documents' category values. */
module Aggregation {
  import opened JsonValues
  import opened Sorting

  /** One output row: `{"category": ..., "count": ...}` (no `_id`). */
  datatype Stat = Stat(category: Json, count: nat)

  /** Total of the counts. */
  function SumCounts(stats: seq<Stat>): nat
    decreases |stats|
  {
    if stats == [] then 0 else stats[0].count + SumCounts(stats[1..])
  }

  /** The distinct values of `keys`, each once, in order of first appearance. */
  function Distinct(keys: seq<Json>): (d: seq<Json>)
    ensures forall i, j :: 0 <= i < j < |d| ==> d[i] != d[j]
    ensures forall k :: k in d <==> k in keys
    decreases |keys|
  {
    if keys == [] then []
    else
      var prev := Distinct(keys[..|keys| - 1]);
      var x := keys[|keys| - 1];
      assert keys == keys[..|keys| - 1] + [x];
      if x in prev then prev else prev + [x]
  }

  /** One row per value of `d`, counting its occurrences in `m`. */
  function GroupsOf(d: seq<Json>, m: multiset<Json>): (g: seq<Stat>)
    ensures |g| == |d|
    ensures forall i :: 0 <= i < |d| ==> g[i] == Stat(d[i], m[d[i]])
    decreases |d|
  {
    if d == [] then [] else [Stat(d[0], m[d[0]])] + GroupsOf(d[1..], m)
  }

  /** Rows with the higher count come first. */
  function CountDesc(): (Stat, Stat) -> bool {
    (a: Stat, b: Stat) => a.count >= b.count
  }

  /** The pipeline: group, count, then sort by count, highest first. MongoDB leaves the
      order of equal counts open; this model keeps first-appearance order among them. */
  function GroupCountSort(keys: seq<Json>): seq<Stat> {
    SortBy(GroupsOf(Distinct(keys), multiset(keys)), CountDesc())
  }

  function Categories(stats: seq<Stat>): set<Json> {
    set i | 0 <= i < |stats| :: stats[i].category
  }

  /** What `$group`/`$project`/`$sort` promise, whatever order ties take: one row per
      distinct value, each with its number of occurrences, by count non-increasing. */
  ghost predicate IsCategoryStats(keys: seq<Json>, stats: seq<Stat>) {
    && (forall i, j :: 0 <= i < j < |stats| ==> stats[i].category != stats[j].category)
    && Categories(stats) == (set k | k in keys)
    && (forall i :: 0 <= i < |stats| ==> stats[i].count == multiset(keys)[stats[i].category])
    && SortedBy(stats, CountDesc())
  }

  /* ---------- sum of counts ---------- */

  lemma {:induction false} SumGroupsAppend(d: seq<Json>, m: multiset<Json>, x: Json)
    ensures SumCounts(GroupsOf(d + [x], m)) == SumCounts(GroupsOf(d, m)) + m[x]
    decreases |d|
  {
    if d != [] {
      assert (d + [x])[1..] == d[1..] + [x];
      SumGroupsAppend(d[1..], m, x);
    }
  }

  lemma {:induction false} SumGroupsAdd(d: seq<Json>, m: multiset<Json>, x: Json)
    requires forall i, j :: 0 <= i < j < |d| ==> d[i] != d[j]
    ensures SumCounts(GroupsOf(d, m + multiset{x})) == SumCounts(GroupsOf(d, m)) + (if x in d then 1 else 0)
    decreases |d|
  {
    if d != [] {
      SumGroupsAdd(d[1..], m, x);
      assert x in d <==> x == d[0] || x in d[1..] by {
        assert d == [d[0]] + d[1..];
      }
      assert x == d[0] ==> x !in d[1..];
    }
  }

  /** The counts of the grouped rows add up to the number of documents. */
  lemma {:induction false} GroupsCoverAll(keys: seq<Json>)
    ensures SumCounts(GroupsOf(Distinct(keys), multiset(keys))) == |keys|
    decreases |keys|
  {
    if keys != [] {
      var init := keys[..|keys| - 1];
      var x := keys[|keys| - 1];
      assert keys == init + [x];
      assert multiset(keys) == multiset(init) + multiset{x};
      GroupsCoverAll(init);
      var prev := Distinct(init);
      SumGroupsAdd(prev, multiset(init), x);
      if x !in prev {
        SumGroupsAppend(prev, multiset(keys), x);
        assert x !in init;
        assert multiset(init)[x] == 0;
      }
    }
  }

  lemma {:induction false} SumInsert(x: Stat, s: seq<Stat>)
    ensures SumCounts(Insert(x, s, CountDesc())) == x.count + SumCounts(s)
    decreases |s|
  {
    if s != [] && !CountDesc()(x, s[0]) {
      SumInsert(x, s[1..]);
    }
  }

  lemma {:induction false} SumSort(s: seq<Stat>)
    ensures SumCounts(SortBy(s, CountDesc())) == SumCounts(s)
    decreases |s|
  {
    if s != [] {
      SumSort(s[1..]);
      SumInsert(s[0], SortBy(s[1..], CountDesc()));
    }
  }

  /* ---------- distinct categories survive the sort ---------- */

  ghost predicate DistinctCategories(s: seq<Stat>) {
    forall i, j :: 0 <= i < j < |s| ==> s[i].category != s[j].category
  }

  lemma CategoriesCons(x: Stat, s: seq<Stat>)
    ensures Categories([x] + s) == {x.category} + Categories(s)
  {
    var r := [x] + s;
    forall c | c in Categories(r) ensures c in {x.category} + Categories(s) {
      var i :| 0 <= i < |r| && r[i].category == c;
      if i > 0 { assert s[i - 1].category == c; }
    }
    assert r[0].category == x.category;
    forall c | c in Categories(s) ensures c in Categories(r) {
      var i :| 0 <= i < |s| && s[i].category == c;
      assert r[i + 1].category == c;
    }
  }

  lemma DistinctCons(x: Stat, s: seq<Stat>)
    ensures DistinctCategories([x] + s) <==> DistinctCategories(s) && x.category !in Categories(s)
  {
    var r := [x] + s;
    if DistinctCategories(r) {
      forall i, j | 0 <= i < j < |s| ensures s[i].category != s[j].category {
        assert r[i + 1] == s[i] && r[j + 1] == s[j];
      }
      forall i | 0 <= i < |s| ensures s[i].category != x.category {
        assert r[i + 1] == s[i] && r[0] == x;
        assert r[0].category != r[i + 1].category;
      }
    }
    if DistinctCategories(s) && x.category !in Categories(s) {
      forall i, j | 0 <= i < j < |r| ensures r[i].category != r[j].category {
        assert r[j] == s[j - 1];
        if i > 0 { assert r[i] == s[i - 1]; }
        else { assert s[j - 1].category in Categories(s); }
      }
    }
  }

  lemma {:induction false} InsertKeepsDistinct(x: Stat, s: seq<Stat>)
    requires DistinctCategories(s)
    requires x.category !in Categories(s)
    ensures DistinctCategories(Insert(x, s, CountDesc()))
    ensures Categories(Insert(x, s, CountDesc())) == Categories(s) + {x.category}
    decreases |s|
  {
    if s == [] || CountDesc()(x, s[0]) {
      CategoriesCons(x, s);
      DistinctCons(x, s);
    } else {
      var t := s[1..];
      assert s == [s[0]] + t;
      CategoriesCons(s[0], t);
      DistinctCons(s[0], t);
      InsertKeepsDistinct(x, t);
      var u := Insert(x, t, CountDesc());
      CategoriesCons(s[0], u);
      DistinctCons(s[0], u);
    }
  }

  lemma {:induction false} SortKeepsDistinct(s: seq<Stat>)
    requires DistinctCategories(s)
    ensures DistinctCategories(SortBy(s, CountDesc()))
    ensures Categories(SortBy(s, CountDesc())) == Categories(s)
    decreases |s|
  {
    if s != [] {
      var t := s[1..];
      assert s == [s[0]] + t;
      CategoriesCons(s[0], t);
      DistinctCons(s[0], t);
      SortKeepsDistinct(t);
      InsertKeepsDistinct(s[0], SortBy(t, CountDesc()));
    }
  }

  /* ---------- the pipeline meets its promise ---------- */

  lemma CountDescIsPreorder()
    ensures TotalPreorder(CountDesc())
  {
  }

  lemma GroupsShape(keys: seq<Json>)
    ensures DistinctCategories(GroupsOf(Distinct(keys), multiset(keys)))
    ensures Categories(GroupsOf(Distinct(keys), multiset(keys))) == (set k | k in keys)
  {
    var d := Distinct(keys);
    var g := GroupsOf(d, multiset(keys));
    forall c | c in Categories(g) ensures c in keys {
      var i :| 0 <= i < |g| && g[i].category == c;
      assert d[i] == c;
    }
    forall c | c in keys ensures c in Categories(g) {
      var i :| 0 <= i < |d| && d[i] == c;
      assert g[i].category == c;
    }
  }

  /** The pipeline's output is a valid statistics table and its counts add up to the
      number of documents. */
  lemma GroupCountSortCorrect(keys: seq<Json>)
    ensures IsCategoryStats(keys, GroupCountSort(keys))
    ensures SumCounts(GroupCountSort(keys)) == |keys|
  {
    var g := GroupsOf(Distinct(keys), multiset(keys));
    var r := GroupCountSort(keys);
    GroupsShape(keys);
    SortKeepsDistinct(g);
    CountDescIsPreorder();
    SortBySorted(g, CountDesc());
    forall i | 0 <= i < |r|
      ensures r[i].count == multiset(keys)[r[i].category]
    {
      assert r[i] in multiset(g);
      var j :| 0 <= j < |g| && g[j] == r[i];
    }
    GroupsCoverAll(keys);
    SumSort(g);
  }
}
