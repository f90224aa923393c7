/**
 * Truncated queries: `ORDER BY key DESC LIMIT n`, ties in any order. Merging two pages and
 * truncating again gives a page of both tables together.
 */
module Pages {
  import opened Prelude
  import opened StableSort

  /** `rest` is what the limit cut off. */
  ghost predicate PageWith<T(!new)>(all: seq<T>, page: seq<T>, rest: seq<T>, limit: nat, key: T -> real) {
    && multiset(page + rest) == multiset(all)
    && |page| == Min(limit, |all|)
    && Descending(page, key)
    && forall i, j :: 0 <= i < |page| && 0 <= j < |rest| ==> key(rest[j]) <= key(page[i])
  }

  ghost predicate IsPage<T(!new)>(all: seq<T>, page: seq<T>, limit: nat, key: T -> real) {
    exists rest :: PageWith(all, page, rest, limit, key)
  }

  // ----- counting by key -----

  function AtLeast<T>(xs: seq<T>, low: real, key: T -> real): nat {
    if xs == [] then 0 else (if key(xs[0]) >= low then 1 else 0) + AtLeast(xs[1..], low, key)
  }

  lemma {:induction false} AtLeastOfConcat<T>(a: seq<T>, b: seq<T>, low: real, key: T -> real)
    ensures AtLeast(a + b, low, key) == AtLeast(a, low, key) + AtLeast(b, low, key)
  {
    if a == [] {
      assert a + b == b;
    } else {
      AtLeastOfConcat(a[1..], b, low, key);
      assert (a + b)[1..] == a[1..] + b;
    }
  }

  lemma AtLeastWithoutOne<T>(xs: seq<T>, k: nat, low: real, key: T -> real)
    requires k < |xs|
    ensures AtLeast(xs, low, key) == AtLeast(RemoveAt(xs, k), low, key) + if key(xs[k]) >= low then 1 else 0
  {
    assert xs == xs[..k] + xs[k..];
    AtLeastOfConcat(xs[..k], xs[k..], low, key);
    AtLeastOfConcat(xs[..k], xs[k + 1..], low, key);
    assert xs[k..][1..] == xs[k + 1..];
  }

  lemma {:induction false} AtLeastPermutes<T>(xs: seq<T>, ys: seq<T>, low: real, key: T -> real)
    requires multiset(xs) == multiset(ys)
    ensures AtLeast(xs, low, key) == AtLeast(ys, low, key)
    decreases |xs|
  {
    PermutationsHaveSameLength(xs, ys);
    if xs != [] {
      var k := FindsIn(xs, ys, 0);
      AtLeastWithoutOne(xs, 0, low, key);
      AtLeastWithoutOne(ys, k, low, key);
      RemovalsArePermutations(xs, ys, 0, k);
      AtLeastPermutes(RemoveAt(xs, 0), RemoveAt(ys, k), low, key);
    }
  }

  lemma {:induction false} AtLeastBounds<T>(xs: seq<T>, low: real, key: T -> real)
    ensures AtLeast(xs, low, key) <= |xs|
    ensures (forall i :: 0 <= i < |xs| ==> key(xs[i]) >= low) ==> AtLeast(xs, low, key) == |xs|
    ensures (forall i :: 0 <= i < |xs| ==> key(xs[i]) < low) ==> AtLeast(xs, low, key) == 0
  {
    if xs != [] {
      AtLeastBounds(xs[1..], low, key);
    }
  }

  /** In descending order the large keys come first. */
  lemma LargeComeFirst<T>(xs: seq<T>, low: real, j: nat, key: T -> real)
    requires Descending(xs, key) && j < |xs| && key(xs[j]) < low
    ensures AtLeast(xs, low, key) <= j
  {
    var head, tail := xs[..j], xs[j..];
    assert xs == head + tail;
    AtLeastOfConcat(head, tail, low, key);
    AtLeastBounds(head, low, key);
    forall i | 0 <= i < |tail| ensures key(tail[i]) < low {
      assert i > 0 ==> key(xs[j]) >= key(xs[j + i]);
    }
    AtLeastBounds(tail, low, key);
  }

  // ----- merging -----

  function Merged<T>(a: seq<T>, b: seq<T>, limit: nat, key: T -> real): seq<T> {
    var sorted := SortDescending(a + b, key);
    if |sorted| <= limit then sorted else sorted[..limit]
  }

  /**
   * What a query cut off is no larger than anything kept of its page sorted with others:
   * there are `limit` elements at least that large on the page alone.
   */
  lemma CutOffIsNotLarger<T(!new)>(all: seq<T>, page: seq<T>, rest: seq<T>, other: seq<T>, both: seq<T>, limit: nat,
                                   key: T -> real, i: nat, j: nat)
    requires PageWith(all, page, rest, limit, key) && multiset(both) == multiset(page + other)
    requires i < |SortDescending(both, key)| && i < limit && j < |rest|
    ensures key(rest[j]) <= key(SortDescending(both, key)[i])
  {
    var sorted := SortDescending(both, key);
    SortSorts(both, key);
    PermutationsHaveSameLength(page + rest, all);
    var low := key(rest[j]);
    if key(sorted[i]) < low {
      LargeComeFirst(sorted, low, i, key);
      AtLeastPermutes(sorted, page + other, low, key);
      AtLeastOfConcat(page, other, low, key);
      AtLeastBounds(page, low, key);
      assert false;
    }
  }

  lemma MergedElements<T>(all1: seq<T>, page1: seq<T>, rest1: seq<T>, all2: seq<T>, page2: seq<T>, rest2: seq<T>,
                          merged: seq<T>, tail: seq<T>)
    requires multiset(page1 + rest1) == multiset(all1) && multiset(page2 + rest2) == multiset(all2)
    requires multiset(merged + tail) == multiset(page1 + page2)
    ensures multiset(merged + (tail + rest1 + rest2)) == multiset(all1 + all2)
  {
    assert merged + (tail + rest1 + rest2) == (merged + tail) + (rest1 + rest2);
  }

  lemma MergedOrder<T(!new)>(all1: seq<T>, page1: seq<T>, rest1: seq<T>, all2: seq<T>, page2: seq<T>, rest2: seq<T>,
                             limit: nat, key: T -> real, i: nat, x: T)
    requires PageWith(all1, page1, rest1, limit, key) && PageWith(all2, page2, rest2, limit, key)
    requires i < |Merged(page1, page2, limit, key)|
    requires x in SortDescending(page1 + page2, key)[|Merged(page1, page2, limit, key)|..] || x in rest1 || x in rest2
    ensures key(x) <= key(Merged(page1, page2, limit, key)[i])
  {
    var sorted := SortDescending(page1 + page2, key);
    SortSorts(page1 + page2, key);
    if x in rest1 {
      var j :| 0 <= j < |rest1| && rest1[j] == x;
      CutOffIsNotLarger(all1, page1, rest1, page2, page1 + page2, limit, key, i, j);
    } else if x in rest2 {
      var j :| 0 <= j < |rest2| && rest2[j] == x;
      CutOffIsNotLarger(all2, page2, rest2, page1, page1 + page2, limit, key, i, j);
    }
  }

  lemma MergedIsPage<T(!new)>(all1: seq<T>, page1: seq<T>, all2: seq<T>, page2: seq<T>, limit: nat, key: T -> real)
    requires IsPage(all1, page1, limit, key) && IsPage(all2, page2, limit, key)
    ensures IsPage(all1 + all2, Merged(page1, page2, limit, key), limit, key)
  {
    var rest1 :| PageWith(all1, page1, rest1, limit, key);
    var rest2 :| PageWith(all2, page2, rest2, limit, key);
    var sorted := SortDescending(page1 + page2, key);
    var merged := Merged(page1, page2, limit, key);
    var tail := sorted[|merged|..];
    MergedHead(page1 + page2, limit, key, merged, tail);
    MergedElements(all1, page1, rest1, all2, page2, rest2, merged, tail);
    MergedLength(all1, page1, rest1, all2, page2, rest2, limit, key);
    var rest := tail + rest1 + rest2;
    forall i, j | 0 <= i < |merged| && 0 <= j < |rest| ensures key(rest[j]) <= key(merged[i]) {
      assert rest[j] in tail || rest[j] in rest1 || rest[j] in rest2;
      MergedOrder(all1, page1, rest1, all2, page2, rest2, limit, key, i, rest[j]);
    }
    assert PageWith(all1 + all2, merged, rest, limit, key);
  }

  lemma MergedHead<T(!new)>(both: seq<T>, limit: nat, key: T -> real, merged: seq<T>, tail: seq<T>)
    requires var sorted := SortDescending(both, key);
             merged == (if |sorted| <= limit then sorted else sorted[..limit]) && tail == sorted[|merged|..]
    ensures Descending(merged, key) && multiset(merged + tail) == multiset(both)
  {
    SortSorts(both, key);
    assert merged + tail == SortDescending(both, key);
  }

  lemma MergedLength<T(!new)>(all1: seq<T>, page1: seq<T>, rest1: seq<T>, all2: seq<T>, page2: seq<T>, rest2: seq<T>,
                              limit: nat, key: T -> real)
    requires PageWith(all1, page1, rest1, limit, key) && PageWith(all2, page2, rest2, limit, key)
    ensures |Merged(page1, page2, limit, key)| == Min(limit, |all1 + all2|)
  {
    SortSorts(page1 + page2, key);
  }

  // ----- pages agree -----

  /** Two pages of one table show the same keys, in the same places. */
  lemma PagesAgree<T(!new)>(all: seq<T>, p: seq<T>, q: seq<T>, limit: nat, key: T -> real, i: nat)
    requires IsPage(all, p, limit, key) && IsPage(all, q, limit, key)
    requires i < |p|
    ensures i < |q| && key(p[i]) == key(q[i])
  {
    PageKeyAtMost(all, p, q, limit, key, i);
    PageKeyAtMost(all, q, p, limit, key, i);
  }

  lemma PageKeyAtMost<T(!new)>(all: seq<T>, p: seq<T>, q: seq<T>, limit: nat, key: T -> real, i: nat)
    requires IsPage(all, p, limit, key) && IsPage(all, q, limit, key)
    requires i < |p|
    ensures i < |q| && key(p[i]) <= key(q[i])
  {
    var rest :| PageWith(all, q, rest, limit, key);
    var cut :| PageWith(all, p, cut, limit, key);
    var low := key(p[i]);
    if key(q[i]) < low {
      LargeComeFirst(q, low, i, key);
      AtLeastBounds(rest, low, key);
      AtLeastOfConcat(q, rest, low, key);
      AtLeastPermutes(q + rest, p + cut, low, key);
      AtLeastOfConcat(p, cut, low, key);
      assert p == p[..i + 1] + p[i + 1..];
      AtLeastOfConcat(p[..i + 1], p[i + 1..], low, key);
      AtLeastBounds(p[..i + 1], low, key);
      assert false;
    }
  }

  /** Sorting everything and taking the first `limit` is the page to compare with. */
  lemma SortEverythingIsPage<T(!new)>(all: seq<T>, limit: nat, key: T -> real)
    ensures IsPage(all, SortDescending(all, key)[..Min(limit, |SortDescending(all, key)|)], limit, key)
  {
    var sorted := SortDescending(all, key);
    SortSorts(all, key);
    var n := Min(limit, |sorted|);
    assert sorted[..n] + sorted[n..] == sorted;
    assert PageWith(all, sorted[..n], sorted[n..], limit, key);
  }

  // ----- rows turned into items -----

  function Map<S, T>(xs: seq<S>, f: S -> T): (ys: seq<T>)
    ensures |ys| == |xs| && forall i :: 0 <= i < |xs| ==> ys[i] == f(xs[i])
  {
    seq(|xs|, (i: nat) requires i < |xs| => f(xs[i]))
  }

  lemma {:induction false} MapPermutes<S, T>(xs: seq<S>, ys: seq<S>, f: S -> T)
    requires multiset(xs) == multiset(ys)
    ensures multiset(Map(xs, f)) == multiset(Map(ys, f))
    decreases |xs|
  {
    PermutationsHaveSameLength(xs, ys);
    if xs == [] {
      assert Map(xs, f) == Map(ys, f);
    } else {
      var k := FindsIn(xs, ys, 0);
      RemovalsArePermutations(xs, ys, 0, k);
      MapPermutes(RemoveAt(xs, 0), RemoveAt(ys, k), f);
      MapWithoutOne(xs, 0, f);
      MapWithoutOne(ys, k, f);
    }
  }

  lemma MapWithoutOne<S, T>(xs: seq<S>, k: nat, f: S -> T)
    requires k < |xs|
    ensures multiset(Map(xs, f)) == multiset(Map(RemoveAt(xs, k), f)) + multiset{f(xs[k])}
  {
    assert Map(RemoveAt(xs, k), f) == RemoveAt(Map(xs, f), k);
    RemoveAtElements(Map(xs, f), k);
  }

  lemma MapKeepsPage<S(!new), T(!new)>(all: seq<S>, page: seq<S>, limit: nat, key: S -> real, f: S -> T, key': T -> real)
    requires IsPage(all, page, limit, key)
    requires forall x :: key'(f(x)) == key(x)
    ensures IsPage(Map(all, f), Map(page, f), limit, key')
  {
    var rest :| PageWith(all, page, rest, limit, key);
    MapPermutes(page + rest, all, f);
    assert Map(page + rest, f) == Map(page, f) + Map(rest, f);
    assert PageWith(Map(all, f), Map(page, f), Map(rest, f), limit, key');
  }
}
