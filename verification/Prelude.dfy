/** Vocabulary shared by every component: optional values, clock readings and identifiers. */
module Prelude {

  datatype Option<+T> = None | Some(value: T) {
    function GetOr(default: T): T {
      match this
      case Some(v) => v
      case None => default
    }
  }

  /** What a call into a broker's adapter comes to. */
  datatype Call<+T> = Threw | Returned(value: T)

  /** Clock readings, in seconds. */
  type Time = real

  type UserId = string
  type DeviceId = string
  type OrderId = string

  function Max(a: int, b: int): (m: int)
    ensures m >= a && m >= b && (m == a || m == b)
  {
    if a < b then b else a
  }

  function Min(a: int, b: int): (m: int)
    ensures m <= a && m <= b && (m == a || m == b)
  {
    if a < b then a else b
  }

  ghost predicate NoDuplicates<T>(xs: seq<T>) {
    forall i, j :: 0 <= i < j < |xs| ==> xs[i] != xs[j]
  }

  /** `xs` without the elements of `gone`, in the same order. */
  function Without<T(==)>(xs: seq<T>, gone: set<T>): (ys: seq<T>)
    ensures forall i :: 0 <= i < |ys| ==> ys[i] in xs && ys[i] !in gone
    ensures forall i :: 0 <= i < |xs| && xs[i] !in gone ==> xs[i] in ys
    ensures |ys| <= |xs|
  {
    if xs == [] then []
    else if xs[0] in gone then Without(xs[1..], gone)
    else [xs[0]] + Without(xs[1..], gone)
  }

  lemma {:induction false} WithoutKeepsDistinct<T>(xs: seq<T>, gone: set<T>)
    requires NoDuplicates(xs)
    ensures NoDuplicates(Without(xs, gone))
  {
    if xs != [] {
      WithoutKeepsDistinct(xs[1..], gone);
      assert xs[0] !in xs[1..];
    }
  }

  /** `x` comes before `y`. */
  ghost predicate Before<T>(xs: seq<T>, x: T, y: T) {
    exists i, j :: 0 <= i < j < |xs| && xs[i] == x && xs[j] == y
  }

  lemma BeforeInCons<T>(x: T, xs: seq<T>, a: T, b: T)
    ensures Before([x] + xs, a, b) <==> (x == a && b in xs) || Before(xs, a, b)
  {
    var all := [x] + xs;
    if Before(all, a, b) {
      var i, j :| 0 <= i < j < |all| && all[i] == a && all[j] == b;
      assert xs[j - 1] == b && (i > 0 ==> xs[i - 1] == a);
    }
    if x == a && b in xs {
      var j :| 0 <= j < |xs| && xs[j] == b;
      assert all[0] == a && all[j + 1] == b;
    }
    if Before(xs, a, b) {
      var i, j :| 0 <= i < j < |xs| && xs[i] == a && xs[j] == b;
      assert all[i + 1] == a && all[j + 1] == b;
    }
  }

  /** What is left keeps its order. */
  lemma {:induction false} WithoutKeepsOrder<T>(xs: seq<T>, gone: set<T>, a: T, b: T)
    requires a !in gone && b !in gone
    ensures Before(Without(xs, gone), a, b) <==> Before(xs, a, b)
  {
    if xs != [] {
      WithoutKeepsOrder(xs[1..], gone, a, b);
      assert xs == [xs[0]] + xs[1..];
      BeforeInCons(xs[0], xs[1..], a, b);
      BeforeInCons(xs[0], Without(xs[1..], gone), a, b);
    }
  }

  /** Removing in two goes is removing once. */
  lemma {:induction false} WithoutTwice<T>(xs: seq<T>, a: set<T>, b: set<T>)
    ensures Without(Without(xs, a), b) == Without(xs, a + b)
  {
    if xs != [] {
      WithoutTwice(xs[1..], a, b);
      if xs[0] !in a {
        assert ([xs[0]] + Without(xs[1..], a))[1..] == Without(xs[1..], a);
      }
    }
  }

  lemma {:induction false} WithoutNothing<T>(xs: seq<T>, gone: set<T>)
    requires forall x :: x in xs ==> x !in gone
    ensures Without(xs, gone) == xs
  {
    if xs != [] {
      WithoutNothing(xs[1..], gone);
    }
  }

  function RemoveAt<T>(xs: seq<T>, k: nat): seq<T>
    requires k < |xs|
  {
    xs[..k] + xs[k + 1..]
  }

  lemma RemoveAtElements<T>(xs: seq<T>, k: nat)
    requires k < |xs|
    ensures multiset(RemoveAt(xs, k)) == multiset(xs) - multiset{xs[k]}
  {
    assert xs == xs[..k] + ([xs[k]] + xs[k + 1..]);
  }

  /** Two permutations stay permutations after losing equal elements. */
  lemma RemovalsArePermutations<T>(xs: seq<T>, ys: seq<T>, j: nat, k: nat)
    requires multiset(xs) == multiset(ys) && j < |xs| && k < |ys| && xs[j] == ys[k]
    ensures multiset(RemoveAt(xs, j)) == multiset(RemoveAt(ys, k))
  {
    RemoveAtElements(xs, j);
    RemoveAtElements(ys, k);
  }

  /** A permutation of a list that has an element has it too. */
  lemma FindsIn<T>(xs: seq<T>, ys: seq<T>, j: nat) returns (k: nat)
    requires multiset(xs) == multiset(ys) && j < |xs|
    ensures k < |ys| && ys[k] == xs[j]
  {
    assert xs[j] in multiset(ys);
    k :| 0 <= k < |ys| && ys[k] == xs[j];
  }

  lemma PermutationsHaveSameLength<T>(xs: seq<T>, ys: seq<T>)
    requires multiset(xs) == multiset(ys)
    ensures |xs| == |ys|
  {
    assert |multiset(xs)| == |xs| && |multiset(ys)| == |ys|;
  }
}
