/** Python's `sorted(xs, key=..., reverse=True)` and `list.sort` with the
    same arguments, on a real-valued key: a stable insertion sort into
    descending order. */
module Sorting {
  predicate Descending<T>(xs: seq<T>, key: T -> real)
  {
    forall i, j :: 0 <= i < j < |xs| ==> key(xs[i]) >= key(xs[j])
  }

  /** Inserts `x` after every element whose key is at least its own, so an
      element inserted later stays behind earlier ones with the same key. */
  function Insert<T>(x: T, xs: seq<T>, key: T -> real): (r: seq<T>)
    ensures multiset(r) == multiset(xs) + multiset{x}
    ensures |r| == |xs| + 1
    ensures forall y :: y in r ==> y == x || y in xs
  {
    if xs == [] then [x]
    else if key(xs[0]) >= key(x) then
      assert xs == [xs[0]] + xs[1..];
      [xs[0]] + Insert(x, xs[1..], key)
    else [x] + xs
  }

  /** The head of a descending sequence has the largest key. */
  lemma HeadIsMax<T>(xs: seq<T>, key: T -> real)
    requires xs != [] && Descending(xs, key)
    ensures forall y :: y in xs ==> key(y) <= key(xs[0])
  {
    forall y | y in xs
      ensures key(y) <= key(xs[0])
    {
      var j :| 0 <= j < |xs| && xs[j] == y;
    }
  }

  lemma ConsDescending<T>(h: T, rest: seq<T>, key: T -> real)
    requires Descending(rest, key)
    requires forall y :: y in rest ==> key(y) <= key(h)
    ensures Descending([h] + rest, key)
  {
    var r := [h] + rest;
    forall i, j | 0 <= i < j < |r|
      ensures key(r[i]) >= key(r[j])
    {
      assert r[j] == rest[j - 1];
      if i > 0 {
        assert r[i] == rest[i - 1];
      }
    }
  }

  lemma {:induction false} InsertDescending<T>(x: T, xs: seq<T>, key: T -> real)
    requires Descending(xs, key)
    ensures Descending(Insert(x, xs, key), key)
    decreases |xs|
  {
    if xs == [] {
    } else if key(xs[0]) >= key(x) {
      assert Descending(xs[1..], key);
      InsertDescending(x, xs[1..], key);
      HeadIsMax(xs, key);
      ConsDescending(xs[0], Insert(x, xs[1..], key), key);
    } else {
      ConsDescending(x, xs, key);
    }
  }

  /** The elements in descending order of their key, equal keys in their
      original order. */
  function SortDesc<T>(xs: seq<T>, key: T -> real): (r: seq<T>)
    ensures multiset(r) == multiset(xs)
    ensures |r| == |xs|
    decreases |xs|
  {
    if xs == [] then []
    else
      var n := |xs| - 1;
      assert xs == xs[..n] + [xs[n]];
      Insert(xs[n], SortDesc(xs[..n], key), key)
  }

  /** The sort is ordered by the key and keeps every element. */
  lemma {:induction false} SortDescOrdered<T>(xs: seq<T>, key: T -> real)
    ensures Descending(SortDesc(xs, key), key)
    ensures forall y :: y in SortDesc(xs, key) <==> y in xs
    decreases |xs|
  {
    if xs != [] {
      var n := |xs| - 1;
      SortDescOrdered(xs[..n], key);
      InsertDescending(xs[n], SortDesc(xs[..n], key), key);
    }
    forall y
      ensures y in SortDesc(xs, key) <==> y in xs
    {
      assert y in SortDesc(xs, key) <==> y in multiset(SortDesc(xs, key));
      assert y in xs <==> y in multiset(xs);
    }
  }

  /** `sorted(...)[:n]`. */
  function TopN<T>(xs: seq<T>, key: T -> real, n: nat): (r: seq<T>)
    ensures |r| == if n <= |xs| then n else |xs|
  {
    var s := SortDesc(xs, key);
    if n <= |s| then s[..n] else s
  }

  /** The first `n` by key: ordered, taken from the input, and no element
      left out has a larger key than one kept. */
  lemma TopNOrdered<T>(xs: seq<T>, key: T -> real, n: nat)
    ensures Descending(TopN(xs, key, n), key)
    ensures forall y :: y in TopN(xs, key, n) ==> y in xs
    ensures forall i, y | 0 <= i < |TopN(xs, key, n)| && y in xs && y !in TopN(xs, key, n) ::
              key(y) <= key(TopN(xs, key, n)[i])
  {
    SortDescOrdered(xs, key);
    var s := SortDesc(xs, key);
    var r := TopN(xs, key, n);
    assert forall k :: 0 <= k < |r| ==> r[k] == s[k];
    forall y | y in r
      ensures y in xs
    {
      var k :| 0 <= k < |r| && r[k] == y;
      assert y == s[k] && y in s;
      assert y in multiset(s);
    }
    forall i, y | 0 <= i < |r| && y in xs && y !in r
      ensures key(y) <= key(r[i])
    {
      assert y in s;
      var j :| 0 <= j < |s| && s[j] == y;
      assert forall k :: 0 <= k < |r| ==> s[k] in r;
      assert key(s[i]) >= key(s[j]);
    }
  }

  /** A projection `f` that tells the elements apart. */
  ghost predicate DistinctBy<T, K>(xs: seq<T>, f: T -> K)
  {
    forall i, j :: 0 <= i < j < |xs| ==> f(xs[i]) != f(xs[j])
  }

  lemma {:induction false} InsertKeepsDistinct<T, K>(x: T, xs: seq<T>, key: T -> real, f: T -> K)
    requires DistinctBy(xs, f)
    requires forall y :: y in xs ==> f(y) != f(x)
    ensures DistinctBy(Insert(x, xs, key), f)
    decreases |xs|
  {
    if xs != [] && key(xs[0]) >= key(x) {
      var rest := Insert(x, xs[1..], key);
      InsertKeepsDistinct(x, xs[1..], key, f);
      var r := Insert(x, xs, key);
      assert r == [xs[0]] + rest;
      forall i, j | 0 <= i < j < |r|
        ensures f(r[i]) != f(r[j])
      {
        if i == 0 {
          assert r[j] == rest[j - 1] && rest[j - 1] in rest;
          if r[j] != x {
            var k :| 0 <= k < |xs[1..]| && xs[1..][k] == r[j];
            assert xs[k + 1] == r[j];
          }
        } else {
          assert r[i] == rest[i - 1];
        }
      }
    } else if xs != [] {
      var r := Insert(x, xs, key);
      assert r == [x] + xs;
      forall i, j | 0 <= i < j < |r|
        ensures f(r[i]) != f(r[j])
      {
        assert r[j] == xs[j - 1];
        if i > 0 {
          assert r[i] == xs[i - 1];
        }
      }
    }
  }

  /** Sorting keeps the elements told apart by `f`. */
  lemma {:induction false} SortKeepsDistinct<T, K>(xs: seq<T>, key: T -> real, f: T -> K)
    requires DistinctBy(xs, f)
    ensures DistinctBy(SortDesc(xs, key), f)
    decreases |xs|
  {
    if xs != [] {
      var n := |xs| - 1;
      assert DistinctBy(xs[..n], f);
      SortKeepsDistinct(xs[..n], key, f);
      var s := SortDesc(xs[..n], key);
      forall y | y in s
        ensures f(y) != f(xs[n])
      {
        assert y in multiset(s);
        assert y in xs[..n];
        var k :| 0 <= k < n && xs[..n][k] == y;
      }
      InsertKeepsDistinct(xs[n], s, key, f);
    }
  }
}
