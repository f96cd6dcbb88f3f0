/**
 * `Array.prototype.sort` with a comparator of the form `(a, b) => key(a) - key(b)`: a stable sort,
 * here an insertion sort on values, so equal keys keep their input order.
 */
module Sorting {

  /** Non-decreasing in `key`. */
  predicate SortedBy<T>(s: seq<T>, key: T -> int) {
    forall i, j :: 0 <= i < j < |s| ==> key(s[i]) <= key(s[j])
  }

  /** Places `x` just before the first element whose key is not smaller. */
  function Insert<T>(x: T, s: seq<T>, key: T -> int): (r: seq<T>)
    ensures |r| == |s| + 1
    ensures multiset(r) == multiset(s) + multiset{x}
    ensures s != [] ==> r[0] == x || r[0] == s[0]
    decreases |s|
  {
    if s == [] || key(x) <= key(s[0]) then [x] + s
    else
      assert s == [s[0]] + s[1..];
      [s[0]] + Insert(x, s[1..], key)
  }

  /** The stable sort by `key`. */
  function SortBy<T>(s: seq<T>, key: T -> int): (r: seq<T>)
    ensures |r| == |s|
    ensures multiset(r) == multiset(s)
    decreases |s|
  {
    if s == [] then []
    else
      assert s == [s[0]] + s[1..];
      Insert(s[0], SortBy(s[1..], key), key)
  }

  lemma {:induction false} InsertSorted<T>(x: T, s: seq<T>, key: T -> int)
    requires SortedBy(s, key)
    ensures SortedBy(Insert(x, s, key), key)
    decreases |s|
  {
    if s != [] && key(x) > key(s[0]) {
      InsertSorted(x, s[1..], key);
    }
  }

  /** The result of the sort is non-decreasing in the key. */
  lemma {:induction false} SortBySorted<T>(s: seq<T>, key: T -> int)
    ensures SortedBy(SortBy(s, key), key)
    decreases |s|
  {
    if s != [] {
      SortBySorted(s[1..], key);
      InsertSorted(s[0], SortBy(s[1..], key), key);
    }
  }

  /** `[x]` when `x` has key `v`, else nothing. */
  function KeyHead<T>(x: T, key: T -> int, v: int): seq<T> {
    if key(x) == v then [x] else []
  }

  /** The elements with key `v`, in order. */
  function WithKey<T>(s: seq<T>, key: T -> int, v: int): seq<T>
    decreases |s|
  {
    if s == [] then [] else KeyHead(s[0], key, v) + WithKey(s[1..], key, v)
  }

  lemma {:induction false} WithKeyConcat<T>(a: seq<T>, b: seq<T>, key: T -> int, v: int)
    ensures WithKey(a + b, key, v) == WithKey(a, key, v) + WithKey(b, key, v)
    decreases |a|
  {
    if a == [] {
      assert a + b == b;
    } else {
      var ab := a + b;
      assert ab[0] == a[0];
      assert ab[1..] == a[1..] + b;
      WithKeyConcat(a[1..], b, key, v);
      calc {
        WithKey(ab, key, v);
        KeyHead(a[0], key, v) + WithKey(a[1..] + b, key, v);
        KeyHead(a[0], key, v) + (WithKey(a[1..], key, v) + WithKey(b, key, v));
      }
    }
  }

  /** The elements of a one-element list with key `v`. */
  lemma WithKeySingle<T>(x: T, key: T -> int, v: int)
    ensures WithKey([x], key, v) == KeyHead(x, key, v)
  {
    assert [x][1..] == [];
  }

  /** Inserting `x` puts it before every element of equal key. */
  lemma {:induction false} WithKeyInsert<T>(x: T, s: seq<T>, key: T -> int, v: int)
    ensures WithKey(Insert(x, s, key), key, v) == KeyHead(x, key, v) + WithKey(s, key, v)
    decreases |s|
  {
    if s == [] || key(x) <= key(s[0]) {
      assert Insert(x, s, key) == [x] + s;
      WithKeyConcat([x], s, key, v);
      WithKeySingle(x, key, v);
    } else {
      var rest := Insert(x, s[1..], key);
      var hx, h0 := KeyHead(x, key, v), KeyHead(s[0], key, v);
      calc {
        WithKey(Insert(x, s, key), key, v);
        WithKey([s[0]] + rest, key, v);
        { WithKeyConcat([s[0]], rest, key, v); WithKeySingle(s[0], key, v); }
        h0 + WithKey(rest, key, v);
        { WithKeyInsert(x, s[1..], key, v); }
        h0 + (hx + WithKey(s[1..], key, v));
        { HeadsCommute(hx, h0, WithKey(s[1..], key, v)); }
        hx + (h0 + WithKey(s[1..], key, v));
        hx + WithKey(s, key, v);
      }
    }
  }

  lemma HeadsCommute<T>(a: seq<T>, b: seq<T>, c: seq<T>)
    requires a == [] || b == []
    ensures b + (a + c) == a + (b + c)
  {
    if a == [] {
      assert a + c == c && a + (b + c) == b + c;
    } else {
      assert b + (a + c) == a + c && b + c == c;
    }
  }

  /** Stability: for every key value, the elements with that key appear in their input order. */
  lemma {:induction false} SortStable<T>(s: seq<T>, key: T -> int, v: int)
    ensures WithKey(SortBy(s, key), key, v) == WithKey(s, key, v)
    decreases |s|
  {
    if s != [] {
      SortStable(s[1..], key, v);
      WithKeyInsert(s[0], SortBy(s[1..], key), key, v);
    }
  }

  /** A list that is already sorted is left as it is. */
  lemma {:induction false} SortOfSorted<T>(s: seq<T>, key: T -> int)
    requires SortedBy(s, key)
    ensures SortBy(s, key) == s
    decreases |s|
  {
    if s != [] {
      assert SortedBy(s[1..], key);
      SortOfSorted(s[1..], key);
      assert s == [s[0]] + s[1..];
    }
  }

  /** `reverse()`. */
  function Reverse<T>(s: seq<T>): (r: seq<T>)
    ensures |r| == |s|
    ensures forall i :: 0 <= i < |s| ==> r[i] == s[|s| - 1 - i]
    decreases |s|
  {
    if s == [] then [] else Reverse(s[1..]) + [s[0]]
  }

  lemma {:induction false} ReverseMultiset<T>(s: seq<T>)
    ensures multiset(Reverse(s)) == multiset(s)
    decreases |s|
  {
    if s != [] {
      ReverseMultiset(s[1..]);
      assert s == [s[0]] + s[1..];
    }
  }

  /** Reversal reverses the order within every group of equal keys. */
  lemma {:induction false} WithKeyReverse<T>(s: seq<T>, key: T -> int, v: int)
    ensures WithKey(Reverse(s), key, v) == Reverse(WithKey(s, key, v))
    decreases |s|
  {
    if s != [] {
      WithKeyReverse(s[1..], key, v);
      WithKeyConcat(Reverse(s[1..]), [s[0]], key, v);
      var head := if key(s[0]) == v then [s[0]] else [];
      assert WithKey([s[0]], key, v) == head;
      ReverseConcat(head, WithKey(s[1..], key, v));
      assert Reverse(head) == head;
    }
  }

  lemma ReverseConcat<T>(a: seq<T>, b: seq<T>)
    ensures Reverse(a + b) == Reverse(b) + Reverse(a)
  {
  }

  /** A list sorted by the negated key, once reversed, is sorted by the key. */
  lemma ReverseSorted<T>(s: seq<T>, key: T -> int, neg: T -> int)
    requires forall x :: neg(x) == -key(x)
    requires SortedBy(s, neg)
    ensures SortedBy(Reverse(s), key)
  {
    var r := Reverse(s);
    forall i, j | 0 <= i < j < |r|
      ensures key(r[i]) <= key(r[j])
    {
      assert neg(s[|s| - 1 - j]) <= neg(s[|s| - 1 - i]);
    }
  }

  /** A prefix of a sorted list is sorted. */
  lemma PrefixSorted<T>(s: seq<T>, n: nat, key: T -> int)
    requires n <= |s| && SortedBy(s, key)
    ensures SortedBy(s[..n], key)
  {
  }

  /** What a prefix of a sorted list leaves out is the rest of the list, and none of it sorts before the prefix. */
  lemma PrefixHoldsTheLeast<T>(s: seq<T>, n: nat, key: T -> int)
    requires n <= |s| && SortedBy(s, key)
    ensures multiset(s) - multiset(s[..n]) == multiset(s[n..])
    ensures forall x, k :: x in multiset(s[n..]) && 0 <= k < n ==> key(s[k]) <= key(x)
  {
    assert s == s[..n] + s[n..];
    assert multiset(s) == multiset(s[..n]) + multiset(s[n..]);
    forall x, k | x in multiset(s[n..]) && 0 <= k < n
      ensures key(s[k]) <= key(x)
    {
      var j :| 0 <= j < |s[n..]| && s[n..][j] == x;
      assert s[n + j] == x;
    }
  }

  /** A prefix of the sort is sorted and drawn from the input, with multiplicity. */
  lemma SortByPrefix<T>(s: seq<T>, n: nat, key: T -> int)
    requires n <= |s|
    ensures var p := SortBy(s, key)[..n];
      SortedBy(p, key) && multiset(p) <= multiset(s) && forall i :: 0 <= i < |p| ==> p[i] in s
  {
    var sorted := SortBy(s, key);
    var p := sorted[..n];
    SortBySorted(s, key);
    PrefixSorted(sorted, n, key);
    assert sorted == p + sorted[n..];
    assert multiset(sorted) == multiset(p) + multiset(sorted[n..]);
    forall i | 0 <= i < |p|
      ensures p[i] in s
    {
      assert p[i] in multiset(p) && p[i] in multiset(s);
    }
  }

  /** `Array.prototype.sort(cmp)`: stable, placing `x` before the first element it does not compare above. */
  function InsertWith<T>(x: T, s: seq<T>, cmp: (T, T) -> int): seq<T>
    decreases |s|
  {
    if s == [] || cmp(x, s[0]) <= 0 then [x] + s else [s[0]] + InsertWith(x, s[1..], cmp)
  }

  function SortWith<T>(s: seq<T>, cmp: (T, T) -> int): seq<T>
    decreases |s|
  {
    if s == [] then [] else InsertWith(s[0], SortWith(s[1..], cmp), cmp)
  }

  /** A comparator that is a difference of keys sorts exactly as the stable sort by that key. */
  lemma {:induction false} SortWithIsSortBy<T>(s: seq<T>, cmp: (T, T) -> int, key: T -> int)
    requires forall a, b :: cmp(a, b) == key(a) - key(b)
    ensures SortWith(s, cmp) == SortBy(s, key)
    decreases |s|
  {
    if s != [] {
      SortWithIsSortBy(s[1..], cmp, key);
      InsertWithIsInsert(s[0], SortBy(s[1..], key), cmp, key);
    }
  }

  lemma {:induction false} InsertWithIsInsert<T>(x: T, s: seq<T>, cmp: (T, T) -> int, key: T -> int)
    requires forall a, b :: cmp(a, b) == key(a) - key(b)
    ensures InsertWith(x, s, cmp) == Insert(x, s, key)
    decreases |s|
  {
    if s != [] {
      InsertWithIsInsert(x, s[1..], cmp, key);
    }
  }

  /** Keys that agree pointwise select the same groups. */
  lemma {:induction false} WithKeyAgree<T>(s: seq<T>, k1: T -> int, v1: int, k2: T -> int, v2: int)
    requires forall x :: (k1(x) == v1) == (k2(x) == v2)
    ensures WithKey(s, k1, v1) == WithKey(s, k2, v2)
    decreases |s|
  {
    if s != [] {
      WithKeyAgree(s[1..], k1, v1, k2, v2);
    }
  }

  /** Sortedness only depends on the key's values. */
  lemma SortedByAgree<T>(s: seq<T>, k1: T -> int, k2: T -> int)
    requires forall x :: k1(x) == k2(x)
    requires SortedBy(s, k1)
    ensures SortedBy(s, k2)
  {
    forall i, j | 0 <= i < j < |s|
      ensures k2(s[i]) <= k2(s[j])
    {
      assert k1(s[i]) <= k1(s[j]);
    }
  }
}
