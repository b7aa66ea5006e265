/** Python dicts with string keys and real values, as association lists in
    insertion order, `sum` over reals and `int()` on a real. */
module Dicts {
  import opened Wrappers

  /** One key/value pair of a dict. */
  datatype Entry = Entry(key: string, value: real)

  /** A key of a dict as `get` sees it: missing, present with the value
      None, or present with a value. */
  datatype Field<T> = Missing | Null | Present(value: T)

  /** `d.get(key, default)`: the default for a missing key, `None` for a
      key that holds None. */
  function GetField<T>(f: Field<T>, default: T): Option<T>
  {
    match f
    case Missing => Some(default)
    case Null => None
    case Present(v) => Some(v)
  }

  /** `sum(xs)`. */
  function Sum(xs: seq<real>): real
  {
    if xs == [] then 0.0 else Sum(xs[..|xs| - 1]) + xs[|xs| - 1]
  }

  /** Python's `int(x)`: truncation toward zero. */
  function TruncInt(x: real): (n: int)
    ensures x >= 0.0 ==> n as real <= x < n as real + 1.0
    ensures x < 0.0 ==> n as real - 1.0 < x <= n as real
  {
    if x >= 0.0 then x.Floor else -((-x).Floor)
  }

  /** Multiplying both sides by a non-negative factor keeps `<=`. */
  lemma MulMono(a: real, b: real, c: real)
    requires a <= b && 0.0 <= c
    ensures a * c <= b * c
  {
  }

  lemma MulStrict(a: real, b: real, c: real)
    requires a < b && 0.0 < c
    ensures a * c < b * c
  {
  }

  /** Moving a positive divisor across `<=`, in both directions. */
  lemma DivLe(a: real, b: real, d: real)
    requires 0.0 < d
    ensures a * d <= b <==> a <= b / d
  {
    assert b / d * d == b;
    if a <= b / d { MulMono(a, b / d, d); } else { MulStrict(b / d, a, d); }
  }

  lemma DivGe(a: real, b: real, d: real)
    requires 0.0 < d
    ensures b <= a * d <==> b / d <= a
  {
    assert b / d * d == b;
    if b / d <= a { MulMono(b / d, a, d); } else { MulStrict(a, b / d, d); }
  }

  /** Dividing a product by one factor gives the other. */
  lemma DivOfProduct(x: real, y: real, p: real)
    requires p != 0.0 && x == y * p
    ensures x / p == y
  {
  }

  /** The position of key `k`, or |es|. */
  function IndexOfKey(es: seq<Entry>, k: string): (i: nat)
    ensures i <= |es|
    ensures i < |es| ==> es[i].key == k
    ensures forall j :: 0 <= j < i ==> es[j].key != k
  {
    if es == [] then 0 else if es[0].key == k then 0 else 1 + IndexOfKey(es[1..], k)
  }

  function Lookup(es: seq<Entry>, k: string): Option<real>
  {
    var i := IndexOfKey(es, k);
    if i < |es| then Some(es[i].value) else None
  }

  /** `d[k] += w` on a defaultdict(float). */
  function AddTo(es: seq<Entry>, k: string, w: real): seq<Entry>
  {
    var i := IndexOfKey(es, k);
    if i < |es| then es[i := Entry(k, es[i].value + w)] else es + [Entry(k, w)]
  }

  /** `d[k] = v`. */
  function Put(es: seq<Entry>, k: string, v: real): seq<Entry>
  {
    var i := IndexOfKey(es, k);
    if i < |es| then es[i := Entry(k, v)] else es + [Entry(k, v)]
  }

  lemma IndexAfterUpdate(es: seq<Entry>, k: string, v: real, k2: string)
    requires IndexOfKey(es, k) < |es|
    ensures IndexOfKey(es[IndexOfKey(es, k) := Entry(k, v)], k2) == IndexOfKey(es, k2)
  {
    var i := IndexOfKey(es, k);
    SameKeysSameIndex(es[i := Entry(k, v)], es, k2);
  }

  lemma {:induction false} SameKeysSameIndex(a: seq<Entry>, b: seq<Entry>, k: string)
    requires |a| == |b| && forall m :: 0 <= m < |a| ==> a[m].key == b[m].key
    ensures IndexOfKey(a, k) == IndexOfKey(b, k)
    decreases |a|
  {
    if a != [] && a[0].key != k {
      SameKeysSameIndex(a[1..], b[1..], k);
    }
  }

  lemma IndexAfterAppend(es: seq<Entry>, e: Entry, k2: string)
    ensures IndexOfKey(es, k2) < |es| ==> IndexOfKey(es + [e], k2) == IndexOfKey(es, k2)
    ensures IndexOfKey(es, k2) == |es| ==> IndexOfKey(es + [e], k2) == if k2 == e.key then |es| else |es| + 1
  {
    var es2 := es + [e];
    var j0 := IndexOfKey(es, k2);
    assert forall m :: 0 <= m < |es| ==> es2[m] == es[m];
    if j0 < |es| {
      assert es2[j0].key == k2;
    } else {
      assert es2[|es|] == e;
    }
  }

  /** `+=` adds to the key's entry and leaves every other key alone. */
  lemma LookupAddTo(es: seq<Entry>, k: string, w: real, k2: string)
    ensures Lookup(AddTo(es, k, w), k2) == if k2 == k then Some(Lookup(es, k).GetOr(0.0) + w) else Lookup(es, k2)
  {
    var i := IndexOfKey(es, k);
    var j := IndexOfKey(es, k2);
    if i < |es| {
      var es2 := es[i := Entry(k, es[i].value + w)];
      IndexAfterUpdate(es, k, es[i].value + w, k2);
      assert AddTo(es, k, w) == es2 && IndexOfKey(es2, k2) == j;
      if k2 != k && j < |es| {
        assert es2[j] == es[j];
      }
    } else if k2 == k {
      IndexAfterAppend(es, Entry(k, w), k2);
      assert IndexOfKey(es + [Entry(k, w)], k2) == |es|;
    } else {
      IndexAfterAppend(es, Entry(k, w), k2);
    }
  }

  /** Assignment replaces the key's value and leaves every other key alone. */
  lemma LookupPut(es: seq<Entry>, k: string, v: real, k2: string)
    ensures Lookup(Put(es, k, v), k2) == if k2 == k then Some(v) else Lookup(es, k2)
  {
    var i := IndexOfKey(es, k);
    if i < |es| {
      IndexAfterUpdate(es, k, v, k2);
    } else {
      IndexAfterAppend(es, Entry(k, v), k2);
    }
  }

  /** `del d[k]` for a key that is present: the entry with that key goes,
      the others keep their order. */
  function Remove(es: seq<Entry>, k: string): (r: seq<Entry>)
    ensures forall e :: e in r <==> e in es && e.key != k
  {
    if es == [] then []
    else (if es[0].key == k then [] else [es[0]]) + Remove(es[1..], k)
  }

  /** After removal the key is gone and every other key keeps its value. */
  lemma {:induction false} LookupRemove(es: seq<Entry>, k: string, k2: string)
    ensures Lookup(Remove(es, k), k2) == if k2 == k then None else Lookup(es, k2)
  {
    if es != [] {
      LookupRemove(es[1..], k, k2);
      assert es == [es[0]] + es[1..];
      LookupCons(es[0], es[1..], k2);
      if es[0].key != k {
        LookupCons(es[0], Remove(es[1..], k), k2);
      } else {
        assert Remove(es, k) == Remove(es[1..], k);
      }
    }
  }

  lemma LookupCons(e: Entry, rest: seq<Entry>, k: string)
    ensures Lookup([e] + rest, k) == if e.key == k then Some(e.value) else Lookup(rest, k)
  {
    assert ([e] + rest)[1..] == rest;
  }

  function KeysOf(es: seq<Entry>): (ks: seq<string>)
    ensures |ks| == |es| && forall i :: 0 <= i < |es| ==> ks[i] == es[i].key
  {
    seq(|es|, i requires 0 <= i < |es| => es[i].key)
  }

  function ValuesOf(es: seq<Entry>): (vs: seq<real>)
    ensures |vs| == |es| && forall i :: 0 <= i < |es| ==> vs[i] == es[i].value
  {
    seq(|es|, i requires 0 <= i < |es| => es[i].value)
  }
}
