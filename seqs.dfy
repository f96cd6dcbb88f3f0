/** The array operations the application uses: `filter`, `slice`, removal by index or value, membership toggles. */
module Seqs {

  /** `s.filter(p)`: the elements satisfying `p`, in their original order. */
  function Filter<T>(s: seq<T>, p: T -> bool): (r: seq<T>)
    ensures |r| <= |s|
    ensures forall i :: 0 <= i < |r| ==> r[i] in s && p(r[i])
    ensures forall i :: 0 <= i < |s| && p(s[i]) ==> s[i] in r
    ensures multiset(r) <= multiset(s)
    decreases |s|
  {
    if s == [] then []
    else
      assert s == [s[0]] + s[1..];
      (if p(s[0]) then [s[0]] else []) + Filter(s[1..], p)
  }

  /** What the filter keeps comes from the list and passes the test. */
  lemma FilterMember<T>(s: seq<T>, p: T -> bool, x: T)
    requires x in Filter(s, p)
    ensures x in s && p(x)
  {
    var r := Filter(s, p);
    var i :| 0 <= i < |r| && r[i] == x;
  }

  /** The filter keeps every passing element as often as it occurs, and nothing else. */
  lemma {:induction false} FilterCount<T>(s: seq<T>, p: T -> bool, x: T)
    ensures multiset(Filter(s, p))[x] == if p(x) then multiset(s)[x] else 0
    decreases |s|
  {
    if s != [] {
      FilterCount(s[1..], p, x);
      assert s == [s[0]] + s[1..];
      assert multiset(s) == multiset{s[0]} + multiset(s[1..]);
    }
  }

  /** Filtering a list whose every element passes changes nothing. */
  lemma {:induction false} FilterAllPass<T>(s: seq<T>, p: T -> bool)
    requires forall i :: 0 <= i < |s| ==> p(s[i])
    ensures Filter(s, p) == s
    decreases |s|
  {
    if s != [] {
      FilterAllPass(s[1..], p);
    }
  }

  /** Filtering distributes over concatenation, so the kept elements keep their relative order. */
  lemma {:induction false} FilterConcat<T>(a: seq<T>, b: seq<T>, p: T -> bool)
    ensures Filter(a + b, p) == Filter(a, p) + Filter(b, p)
    decreases |a|
  {
    if a == [] {
      assert a + b == b;
    } else {
      assert (a + b)[0] == a[0] && (a + b)[1..] == a[1..] + b;
      FilterConcat(a[1..], b, p);
    }
  }

  /** Two filters in a row keep exactly what their conjunction keeps, in the same order. */
  lemma {:induction false} FilterFusion<T>(s: seq<T>, p: T -> bool, q: T -> bool, pq: T -> bool)
    requires forall x :: pq(x) == (p(x) && q(x))
    ensures Filter(Filter(s, p), q) == Filter(s, pq)
    decreases |s|
  {
    if s != [] {
      FilterFusion(s[1..], p, q, pq);
      FilterConcat(if p(s[0]) then [s[0]] else [], Filter(s[1..], p), q);
      assert Filter([s[0]], q) == if q(s[0]) then [s[0]] else [];
    }
  }

  /** Predicates that agree on every value filter alike. */
  lemma {:induction false} FilterAgree<T>(s: seq<T>, p: T -> bool, q: T -> bool)
    requires forall x :: p(x) == q(x)
    ensures Filter(s, p) == Filter(s, q)
    decreases |s|
  {
    if s != [] {
      FilterAgree(s[1..], p, q);
    }
  }

  /** Filtering twice by the same predicate is filtering once. */
  lemma FilterIdempotent<T>(s: seq<T>, p: T -> bool)
    ensures Filter(Filter(s, p), p) == Filter(s, p)
  {
    FilterAllPass(Filter(s, p), p);
  }

  /** `s.slice(0, end)`, where a negative `end` counts back from the end of the array. */
  function SliceTo<T>(s: seq<T>, end: int): (r: seq<T>)
    ensures |r| <= |s| && r == s[..|r|]
    ensures end >= 0 ==> |r| == if end < |s| then end else |s|
    ensures end < 0 ==> |r| == if |s| + end > 0 then |s| + end else 0
  {
    if end >= |s| then s
    else if end >= 0 then s[..end]
    else if |s| + end > 0 then s[..|s| + end]
    else []
  }

  /** `s.filter((_, j) => j !== i)`: drops the element at index `i`, if there is one. */
  function RemoveAt<T>(s: seq<T>, i: int): (r: seq<T>)
    ensures 0 <= i < |s| ==>
      |r| == |s| - 1 && (forall j :: 0 <= j < i ==> r[j] == s[j]) && (forall j :: i <= j < |r| ==> r[j] == s[j + 1])
    ensures !(0 <= i < |s|) ==> r == s
  {
    if 0 <= i < |s| then s[..i] + s[i + 1..] else s
  }

  /** `s.filter(y => y !== x)`: every occurrence of `x` removed, the rest in order. */
  function RemoveAll<T(==)>(s: seq<T>, x: T): (r: seq<T>)
    ensures x !in r
    ensures multiset(r) == multiset(s)[x := 0]
    ensures |r| <= |s|
    decreases |s|
  {
    if s == [] then []
    else
      assert s == [s[0]] + s[1..];
      if s[0] == x then RemoveAll(s[1..], x) else [s[0]] + RemoveAll(s[1..], x)
  }

  lemma {:induction false} RemoveAllAbsent<T>(s: seq<T>, x: T)
    requires x !in s
    ensures RemoveAll(s, x) == s
    decreases |s|
  {
    if s != [] {
      RemoveAllAbsent(s[1..], x);
    }
  }

  lemma {:induction false} RemoveAllConcat<T>(a: seq<T>, b: seq<T>, x: T)
    ensures RemoveAll(a + b, x) == RemoveAll(a, x) + RemoveAll(b, x)
    decreases |a|
  {
    if a == [] {
      assert a + b == b;
    } else {
      var ab := a + b;
      assert ab[0] == a[0];
      assert ab[1..] == a[1..] + b;
      RemoveAllConcat(a[1..], b, x);
      if a[0] == x {
        calc {
          RemoveAll(ab, x);
          RemoveAll(a[1..] + b, x);
          RemoveAll(a[1..], x) + RemoveAll(b, x);
        }
      } else {
        calc {
          RemoveAll(ab, x);
          [a[0]] + RemoveAll(a[1..] + b, x);
          [a[0]] + (RemoveAll(a[1..], x) + RemoveAll(b, x));
        }
      }
    }
  }

  /** A checkbox toggle: a present value is removed everywhere, an absent one is added at the end. */
  function Toggle<T(==)>(s: seq<T>, x: T): (r: seq<T>)
    ensures x in s ==> x !in r
    ensures x !in s ==> r == s + [x]
    ensures x in s ==> multiset(r) == multiset(s)[x := 0]
  {
    if x in s then RemoveAll(s, x) else s + [x]
  }

  /** Toggling an absent value on and off again restores the list. */
  lemma {:induction false} ToggleTwice<T>(s: seq<T>, x: T)
    requires x !in s
    ensures Toggle(Toggle(s, x), x) == s
  {
    assert x in s + [x];
    RemoveAllConcat(s, [x], x);
    RemoveAllAbsent(s, x);
    assert RemoveAll([x], x) == [];
  }

  /** Removing a present value keeps every other value's relative order. */
  lemma ToggleRemovesInOrder<T>(a: seq<T>, b: seq<T>, x: T)
    requires x !in a && x !in b
    ensures Toggle(a + [x] + b, x) == a + b
  {
    assert x in a + [x] + b;
    assert RemoveAll([x], x) == [] by { assert [x][1..] == []; }
    calc {
      Toggle(a + [x] + b, x);
      RemoveAll(a + [x] + b, x);
      { RemoveAllConcat(a + [x], b, x); }
      RemoveAll(a + [x], x) + RemoveAll(b, x);
      { RemoveAllConcat(a, [x], x); }
      RemoveAll(a, x) + RemoveAll([x], x) + RemoveAll(b, x);
      { RemoveAllAbsent(a, x); RemoveAllAbsent(b, x); }
      a + [] + b;
    }
    assert a + [] + b == a + b;
  }

  /** `s.findIndex(x => key(x) === k)`: the first position whose key is `k`, or -1. */
  function IndexOfKey<T, K(==)>(s: seq<T>, key: T -> K, k: K): (i: int)
    ensures -1 <= i < |s|
    ensures 0 <= i ==> key(s[i]) == k && forall j :: 0 <= j < i ==> key(s[j]) != k
    ensures i == -1 ==> forall j :: 0 <= j < |s| ==> key(s[j]) != k
    decreases |s|
  {
    if s == [] then -1
    else if key(s[0]) == k then 0
    else
      var j := IndexOfKey(s[1..], key, k);
      if j < 0 then -1 else j + 1
  }
}
