/** The "Top Categories" panel of `src/components/receipt/ReceiptStatistics.tsx`: the
    statistics' categories ordered by total, largest first, and cut to three. */
module ReceiptStatistics {
  import opened ReceiptHistory

  type Entry = (string, CategoryStat)

  /** Ordered by total, largest first. */
  predicate SortedByTotalDesc(s: seq<Entry>) {
    forall i, j :: 0 <= i < j < |s| ==> s[i].1.total >= s[j].1.total
  }

  /** Puts `x` before the first entry whose total is not larger. */
  function Insert(x: Entry, s: seq<Entry>): seq<Entry> {
    if s == [] then [x]
    else if x.1.total >= s[0].1.total then [x] + s
    else [s[0]] + Insert(x, s[1..])
  }

  /** `entries.sort((a, b) => b[1].total - a[1].total)` */
  function SortByTotalDesc(s: seq<Entry>): seq<Entry> {
    if s == [] then [] else Insert(s[0], SortByTotalDesc(s[1..]))
  }

  lemma {:induction false} InsertPermutes(x: Entry, s: seq<Entry>)
    ensures multiset(Insert(x, s)) == multiset(s) + multiset{x}
    decreases |s|
  {
    if s != [] && x.1.total < s[0].1.total {
      InsertPermutes(x, s[1..]);
      assert s == [s[0]] + s[1..];
    }
  }

  lemma {:induction false} InsertKeepsOrder(x: Entry, s: seq<Entry>)
    requires SortedByTotalDesc(s)
    ensures SortedByTotalDesc(Insert(x, s))
    decreases |s|
  {
    if s != [] && x.1.total < s[0].1.total {
      var r := Insert(x, s[1..]);
      InsertKeepsOrder(x, s[1..]);
      InsertPermutes(x, s[1..]);
      forall j | 0 <= j < |r|
        ensures r[j].1.total <= s[0].1.total
      {
        assert r[j] in multiset(r);
        if r[j] != x {
          assert r[j] in multiset(s[1..]);
          var k :| 0 <= k < |s[1..]| && s[1..][k] == r[j];
          assert s[k + 1] == r[j];
        }
      }
    }
  }

  /** The sort orders by total and neither loses nor invents an entry. */
  lemma {:induction false} SortIsCorrect(s: seq<Entry>)
    ensures SortedByTotalDesc(SortByTotalDesc(s))
    ensures multiset(SortByTotalDesc(s)) == multiset(s)
    decreases |s|
  {
    if s != [] {
      SortIsCorrect(s[1..]);
      InsertKeepsOrder(s[0], SortByTotalDesc(s[1..]));
      InsertPermutes(s[0], SortByTotalDesc(s[1..]));
      assert s == [s[0]] + s[1..];
    }
  }

  function Min(a: int, b: int): int { if a <= b then a else b }

  /** `Object.entries(byCategory).sort(...).slice(0, 3)` */
  function TopCategories(byCategory: seq<Entry>): seq<Entry> {
    var sorted := SortByTotalDesc(byCategory);
    sorted[..Min(3, |sorted|)]
  }

  /** The panel shows three categories, or all of them when there are fewer, largest total
      first; each shown entry is one of the statistics' entries, and no category left out
      has a larger total than the smallest one shown. */
  lemma TopCategoriesAreTheLargest(byCategory: seq<Entry>)
    ensures var top := TopCategories(byCategory);
      && |top| == Min(3, |byCategory|)
      && SortedByTotalDesc(top)
      && multiset(top) <= multiset(byCategory)
      && forall e :: e in multiset(byCategory) - multiset(top) ==> e.1.total <= top[|top| - 1].1.total
  {
    var sorted := SortByTotalDesc(byCategory);
    SortIsCorrect(byCategory);
    assert |sorted| == |byCategory| by {
      assert |multiset(sorted)| == |multiset(byCategory)|;
    }
    var n := Min(3, |sorted|);
    assert sorted == sorted[..n] + sorted[n..];
    assert multiset(sorted) == multiset(sorted[..n]) + multiset(sorted[n..]);
    if n > 0 {
      RestIsNotLarger(sorted, n);
    }
  }

  /** In a list ordered by total, nothing after the first `n` entries is larger than the
      `n`-th. */
  lemma RestIsNotLarger(sorted: seq<Entry>, n: nat)
    requires SortedByTotalDesc(sorted) && 0 < n <= |sorted|
    ensures forall e :: e in multiset(sorted) - multiset(sorted[..n]) ==> e.1.total <= sorted[n - 1].1.total
  {
    var top := sorted[..n];
    var rest := sorted[n..];
    assert sorted == top + rest;
    assert multiset(sorted) == multiset(top) + multiset(rest);
    forall e | e in multiset(sorted) - multiset(top)
      ensures e.1.total <= sorted[n - 1].1.total
    {
      assert e in multiset(rest);
      var k :| 0 <= k < |rest| && rest[k] == e;
      assert sorted[n + k] == e;
    }
  }

  /** The entries of `getStatistics`' record are distinct, so the shown categories are
      distinct too. */
  lemma TopCategoriesAreDistinct(byCategory: seq<Entry>)
    requires DistinctKeys(byCategory)
    ensures forall i, j :: 0 <= i < j < |TopCategories(byCategory)| ==>
      TopCategories(byCategory)[i].0 != TopCategories(byCategory)[j].0
  {
    var top := TopCategories(byCategory);
    TopCategoriesAreTheLargest(byCategory);
    forall i, j | 0 <= i < j < |top|
      ensures top[i].0 != top[j].0
    {
      DistinctPair(byCategory, top, i, j);
    }
  }

  /** Two positions of a sub-multiset of a list with distinct keys hold distinct keys. */
  lemma DistinctPair(all: seq<Entry>, part: seq<Entry>, i: int, j: int)
    requires DistinctKeys(all) && multiset(part) <= multiset(all)
    requires 0 <= i < j < |part|
    ensures part[i].0 != part[j].0
  {
    DistinctCount(all, part[i]);
    assert part == part[..j] + part[j..];
    assert multiset(part) == multiset(part[..j]) + multiset(part[j..]);
    assert part[i] in multiset(part[..j]);
    assert part[j..][0] == part[j];
    assert part[i] != part[j];
    assert part[i] in multiset(all) && part[j] in multiset(all);
    var a :| 0 <= a < |all| && all[a] == part[i];
    var b :| 0 <= b < |all| && all[b] == part[j];
  }

  /** An entry occurs at most once in a list with distinct keys. */
  lemma {:induction false} DistinctCount(s: seq<Entry>, e: Entry)
    requires DistinctKeys(s)
    ensures multiset(s)[e] <= 1
    decreases |s|
  {
    if s != [] {
      DistinctCount(s[1..], e);
      assert s == [s[0]] + s[1..];
    }
  }
}
