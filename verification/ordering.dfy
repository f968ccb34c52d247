/** `Array.prototype.sort` with a numeric comparator `(a, b) => key(b) - key(a)`:
    a stable sort into descending key order. `SortDesc` is its specification
    (an insertion sort, stable because an element only moves ahead of strictly
    smaller keys) and `SortInPlace` performs it on an array. */
module Ordering {
  import opened Wrappers

  predicate SortedDesc<T>(s: seq<T>, key: T -> int) {
    forall i, j :: 0 <= i < j < |s| ==> key(s[i]) >= key(s[j])
  }

  /** Inserts x after every element whose key is at least key(x). */
  function Insert<T>(x: T, s: seq<T>, key: T -> int): (r: seq<T>)
    ensures |r| == |s| + 1
    ensures multiset(r) == multiset(s) + multiset{x}
  {
    if s == [] || key(x) > key(s[0]) then [x] + s
    else
      assert s == [s[0]] + s[1..];
      [s[0]] + Insert(x, s[1..], key)
  }

  /** Inserting into a descending sequence keeps it descending. */
  lemma {:induction false} InsertSorted<T>(x: T, s: seq<T>, key: T -> int)
    requires SortedDesc(s, key)
    ensures SortedDesc(Insert(x, s, key), key)
  {
    if s != [] && key(x) <= key(s[0]) {
      var t := s[1..];
      InsertSorted(x, t, key);
      var r := Insert(x, t, key);
      forall k | 0 <= k < |r| ensures key(r[k]) <= key(s[0]) {
        assert r[k] in multiset(r);
        if r[k] != x {
          assert r[k] in multiset(t);
          assert r[k] in t;
        }
      }
      assert Insert(x, s, key) == [s[0]] + r;
    }
  }

  /** The stable descending sort of s. */
  function SortDesc<T>(s: seq<T>, key: T -> int): (r: seq<T>)
    ensures |r| == |s|
    ensures multiset(r) == multiset(s)
    ensures SortedDesc(r, key)
  {
    if s == [] then []
    else
      assert s == s[..|s| - 1] + [s[|s| - 1]];
      InsertSorted(s[|s| - 1], SortDesc(s[..|s| - 1], key), key);
      Insert(s[|s| - 1], SortDesc(s[..|s| - 1], key), key)
  }

  /** The elements of s whose key is k, in their order in s. */
  function WithKey<T>(s: seq<T>, key: T -> int, k: int): seq<T> {
    if s == [] then []
    else (if key(s[0]) == k then [s[0]] else []) + WithKey(s[1..], key, k)
  }

  lemma {:induction false} WithKeyAppend<T>(a: seq<T>, b: seq<T>, key: T -> int, k: int)
    ensures WithKey(a + b, key, k) == WithKey(a, key, k) + WithKey(b, key, k)
  {
    if a == [] {
      assert a + b == b;
    } else {
      WithKeyAppend(a[1..], b, key, k);
      assert (a + b)[1..] == a[1..] + b;
    }
  }

  /** A descending sequence whose first key is below k holds no element with key k. */
  lemma {:induction false} WithKeyBelow<T>(s: seq<T>, key: T -> int, k: int)
    requires SortedDesc(s, key)
    requires s != [] ==> key(s[0]) < k
    ensures WithKey(s, key, k) == []
  {
    if s != [] {
      WithKeyBelow(s[1..], key, k);
    }
  }

  /** Inserting x into a descending sequence places it after every element
      with the same key. */
  lemma {:induction false} InsertWithKey<T>(x: T, s: seq<T>, key: T -> int, k: int)
    requires SortedDesc(s, key)
    ensures WithKey(Insert(x, s, key), key, k) == WithKey(s, key, k) + (if key(x) == k then [x] else [])
  {
    if s == [] {
      assert Insert(x, s, key) == [x];
    } else if key(x) > key(s[0]) {
      assert Insert(x, s, key) == [x] + s;
      if key(x) == k {
        WithKeyBelow(s, key, k);
      }
    } else {
      InsertWithKey(x, s[1..], key, k);
      assert Insert(x, s, key) == [s[0]] + Insert(x, s[1..], key);
    }
  }

  lemma WithKeySnoc<T>(init: seq<T>, last: T, key: T -> int, k: int)
    ensures WithKey(init + [last], key, k) == WithKey(init, key, k) + (if key(last) == k then [last] else [])
  {
    WithKeyAppend(init, [last], key, k);
    assert WithKey([last], key, k) == (if key(last) == k then [last] else []) + WithKey([], key, k);
  }

  /** Stability: among elements with equal keys, the sort keeps input order. */
  lemma {:induction false} SortDescStable<T>(s: seq<T>, key: T -> int, k: int)
    ensures WithKey(SortDesc(s, key), key, k) == WithKey(s, key, k)
  {
    if s != [] {
      var init, last := s[..|s| - 1], s[|s| - 1];
      var sorted := SortDesc(init, key);
      assert SortDesc(s, key) == Insert(last, sorted, key);
      SortDescStable(init, key, k);
      InsertWithKey(last, sorted, key, k);
      assert s == init + [last];
      WithKeySnoc(init, last, key, k);
    }
  }

  /** The first element of s with key k that satisfies p. */
  function FirstWithKey<T>(s: seq<T>, p: T -> bool, key: T -> int, k: int): (r: Option<T>)
    ensures r.Some? ==> r.value in s && p(r.value) && key(r.value) == k
  {
    if s == [] then None
    else if p(s[0]) && key(s[0]) == k then Some(s[0])
    else FirstWithKey(s[1..], p, key, k)
  }

  lemma {:induction false} FirstWithKeyOfWithKey<T>(s: seq<T>, p: T -> bool, key: T -> int, k: int)
    ensures FirstWithKey(WithKey(s, key, k), p, key, k) == FirstWithKey(s, p, key, k)
  {
    if s != [] {
      FirstWithKeyOfWithKey(s[1..], p, key, k);
      var w := WithKey(s, key, k);
      if key(s[0]) == k {
        assert w == [s[0]] + WithKey(s[1..], key, k);
        assert w[1..] == WithKey(s[1..], key, k);
      } else {
        assert w == WithKey(s[1..], key, k);
      }
    }
  }

  /** Sorting does not change which element is the first, among those with a
      given key, to satisfy p. */
  lemma SortKeepsFirstWithKey<T>(s: seq<T>, p: T -> bool, key: T -> int, k: int)
    ensures FirstWithKey(SortDesc(s, key), p, key, k) == FirstWithKey(s, p, key, k)
  {
    SortDescStable(s, key, k);
    FirstWithKeyOfWithKey(SortDesc(s, key), p, key, k);
    FirstWithKeyOfWithKey(s, p, key, k);
  }

  /** The first position that holds the greatest key. */
  function FirstMaxIndex<T>(s: seq<T>, key: T -> int): (m: nat)
    requires |s| > 0
    ensures m < |s|
    ensures forall k :: 0 <= k < |s| ==> key(s[k]) <= key(s[m])
    ensures forall k :: 0 <= k < m ==> key(s[k]) < key(s[m])
  {
    if |s| == 1 then 0
    else
      var p := FirstMaxIndex(s[..|s| - 1], key);
      if key(s[|s| - 1]) > key(s[p]) then |s| - 1 else p
  }

  /** The head of the sorted sequence is the first element with the greatest
      key: ties keep their original order. */
  lemma {:induction false} SortHeadIsFirstMax<T>(s: seq<T>, key: T -> int)
    requires |s| > 0
    ensures SortDesc(s, key)[0] == s[FirstMaxIndex(s, key)]
  {
    if |s| > 1 {
      var init := s[..|s| - 1];
      SortHeadIsFirstMax(init, key);
      var p := FirstMaxIndex(init, key);
      assert s[p] == init[p];
    }
  }

  /** The head of the sorted sequence is an element of s with the greatest key. */
  lemma SortHeadIsMax<T>(s: seq<T>, key: T -> int)
    requires |s| > 0
    ensures SortDesc(s, key)[0] in s
    ensures forall e :: e in s ==> key(e) <= key(SortDesc(s, key)[0])
  {
    SortHeadIsFirstMax(s, key);
  }

  /** Inserting into a descending sequence puts x at position j when every
      earlier key is at least key(x) and every later one is smaller. */
  lemma {:induction false} InsertAt<T>(x: T, s: seq<T>, j: nat, key: T -> int)
    requires j <= |s|
    requires forall k :: 0 <= k < j ==> key(s[k]) >= key(x)
    requires forall k :: j <= k < |s| ==> key(s[k]) < key(x)
    ensures Insert(x, s, key) == s[..j] + [x] + s[j..]
  {
    if j > 0 {
      var t := s[1..];
      assert key(x) <= key(s[0]);
      assert forall k :: 0 <= k < |t| ==> t[k] == s[k + 1];
      InsertAt(x, t, j - 1, key);
      calc {
        Insert(x, s, key);
        [s[0]] + Insert(x, t, key);
        [s[0]] + (t[..j - 1] + [x] + t[j - 1..]);
        { assert s[..j] == [s[0]] + t[..j - 1]; assert s[j..] == t[j - 1..]; }
        s[..j] + [x] + s[j..];
      }
    } else {
      assert s == [] || key(x) > key(s[0]);
      assert s[..0] + [x] + s[0..] == [x] + s;
    }
  }

  /** Shifts one place to the right every element of a[..i], from the end,
      whose key is below key(a[i]), stopping at the first that is not; j is
      the gap left open. */
  method ShiftRight<T>(a: array<T>, i: nat, key: T -> int) returns (j: nat)
    requires i < a.Length
    modifies a
    ensures j <= i
    ensures forall k :: 0 <= k < j ==> a[k] == old(a[k])
    ensures forall k :: j < k <= i ==> a[k] == old(a[k - 1])
    ensures forall k :: i < k < a.Length ==> a[k] == old(a[k])
    ensures forall k :: j <= k < i ==> key(old(a[k])) < key(old(a[i]))
    ensures j > 0 ==> key(old(a[j - 1])) >= key(old(a[i]))
  {
    var x := a[i];
    ghost var prefix := a[..i];
    j := i;
    while j > 0 && key(a[j - 1]) < key(x)
      invariant 0 <= j <= i
      invariant forall k :: 0 <= k < j ==> a[k] == prefix[k]
      invariant forall k :: j < k <= i ==> a[k] == prefix[k - 1]
      invariant forall k :: j <= k < i ==> key(prefix[k]) < key(x)
      invariant forall k :: i < k < a.Length ==> a[k] == old(a[k])
    {
      a[j] := a[j - 1];
      j := j - 1;
    }
  }

  /** One insertion step: a[i] moves into the descending prefix a[..i]. */
  method InsertLast<T>(a: array<T>, i: nat, key: T -> int)
    requires i < a.Length
    requires SortedDesc(a[..i], key)
    modifies a
    ensures a[..i + 1] == Insert(old(a[i]), old(a[..i]), key)
    ensures forall k :: i < k < a.Length ==> a[k] == old(a[k])
  {
    var x := a[i];
    ghost var sorted := a[..i];
    var j := ShiftRight(a, i, key);
    a[j] := x;
    forall k | 0 <= k < j
      ensures key(sorted[k]) >= key(x)
    {
      assert key(sorted[k]) >= key(sorted[j - 1]);
    }
    InsertAt(x, sorted, j, key);
    ghost var r := sorted[..j] + [x] + sorted[j..];
    assert forall k :: 0 <= k <= i ==> a[k] == r[k];
    assert a[..i + 1] == r;
  }

  /** The sort of a one-longer prefix inserts the new last element. */
  lemma SortDescStep<T>(s: seq<T>, i: nat, key: T -> int)
    requires i < |s|
    ensures SortDesc(s[..i + 1], key) == Insert(s[i], SortDesc(s[..i], key), key)
  {
    assert s[..i + 1][..i] == s[..i];
  }

  /** Sorts a in place into `SortDesc(old(a[..]), key)`, by insertion. */
  method SortInPlace<T>(a: array<T>, key: T -> int)
    modifies a
    ensures a[..] == SortDesc(old(a[..]), key)
  {
    ghost var orig := a[..];
    var i := 0;
    while i < a.Length
      invariant 0 <= i <= a.Length
      invariant a[..i] == SortDesc(orig[..i], key)
      invariant forall k :: i <= k < a.Length ==> a[k] == orig[k]
    {
      InsertLast(a, i, key);
      SortDescStep(orig, i, key);
      i := i + 1;
    }
    assert a[..] == a[..a.Length];
    assert orig == orig[..a.Length];
  }
}
