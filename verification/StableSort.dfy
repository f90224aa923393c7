/**
 * The library's stable descending sort (`sorted(..., reverse=True)` and
 * `list.sort(reverse=True)`): larger keys first, equal keys in their original order.
 */
module StableSort {

  ghost predicate Descending<T>(xs: seq<T>, key: T -> real) {
    forall i, j :: 0 <= i < j < |xs| ==> key(xs[i]) >= key(xs[j])
  }

  /** `x` came before every element of `ys` in the original list. */
  function Insert<T>(x: T, ys: seq<T>, key: T -> real): seq<T> {
    if ys == [] || key(ys[0]) <= key(x) then [x] + ys
    else [ys[0]] + Insert(x, ys[1..], key)
  }

  function SortDescending<T>(xs: seq<T>, key: T -> real): seq<T> {
    if xs == [] then []
    else Insert(xs[0], SortDescending(xs[1..], key), key)
  }

  lemma {:induction false} InsertKeepsElements<T>(x: T, ys: seq<T>, key: T -> real)
    ensures multiset(Insert(x, ys, key)) == multiset{x} + multiset(ys)
  {
    if ys == [] || key(ys[0]) <= key(x) {
    } else {
      InsertKeepsElements(x, ys[1..], key);
      assert ys == [ys[0]] + ys[1..];
    }
  }

  lemma {:induction false} InsertSorts<T>(x: T, ys: seq<T>, key: T -> real)
    requires Descending(ys, key)
    ensures Descending(Insert(x, ys, key), key)
    ensures forall y :: y in Insert(x, ys, key) ==> y == x || y in ys
  {
    if ys == [] || key(ys[0]) <= key(x) {
    } else {
      InsertSorts(x, ys[1..], key);
      var rest := Insert(x, ys[1..], key);
      forall j | 0 <= j < |rest| ensures key(ys[0]) >= key(rest[j]) {
        assert rest[j] in rest;
      }
    }
  }

  lemma {:induction false} SortSorts<T>(xs: seq<T>, key: T -> real)
    ensures Descending(SortDescending(xs, key), key)
    ensures multiset(SortDescending(xs, key)) == multiset(xs)
    ensures |SortDescending(xs, key)| == |xs|
  {
    if xs != [] {
      SortSorts(xs[1..], key);
      InsertSorts(xs[0], SortDescending(xs[1..], key), key);
      InsertKeepsElements(xs[0], SortDescending(xs[1..], key), key);
      assert xs == [xs[0]] + xs[1..];
      assert |multiset(SortDescending(xs, key))| == |multiset(xs)|;
    }
  }
}
