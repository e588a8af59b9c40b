/** Python's stable `list.sort(key=...)` and `sorted(..., key=...)`, for keys that
    are pairs of integers compared lexicographically (Python tuple order).
    `sorted(xs, key=k, reverse=True)` is the same stable sort on the negated key. */
module Sorting {

  datatype Key = Key(major: int, minor: int)

  /** Lexicographic order on keys, as Python compares tuples. */
  predicate KeyLe(a: Key, b: Key)
  {
    a.major < b.major || (a.major == b.major && a.minor <= b.minor)
  }

  predicate SortedBy<T>(s: seq<T>, key: T -> Key)
  {
    forall i, j :: 0 <= i < j < |s| ==> KeyLe(key(s[i]), key(s[j]))
  }

  /** Inserts `x` into the sorted `s` after every element whose key is at most `x`'s. */
  function Insert<T>(s: seq<T>, x: T, key: T -> Key): seq<T>
  {
    if s == [] || KeyLe(key(s[|s| - 1]), key(x)) then s + [x]
    else Insert(s[..|s| - 1], x, key) + [s[|s| - 1]]
  }

  /** The stable sort of `s` by `key`. */
  function InsertionSort<T>(s: seq<T>, key: T -> Key): seq<T>
  {
    if s == [] then [] else Insert(InsertionSort(s[..|s| - 1], key), s[|s| - 1], key)
  }

  /** The elements of `s` whose key is exactly `k`, in order. */
  function WithKey<T>(s: seq<T>, key: T -> Key, k: Key): seq<T>
  {
    if s == [] then []
    else WithKey(s[..|s| - 1], key, k) + (if key(s[|s| - 1]) == k then [s[|s| - 1]] else [])
  }

  lemma {:induction false} InsertPermutes<T>(s: seq<T>, x: T, key: T -> Key)
    ensures multiset(Insert(s, x, key)) == multiset(s) + multiset{x}
  {
    if s == [] || KeyLe(key(s[|s| - 1]), key(x)) {
    } else {
      var init, last := s[..|s| - 1], s[|s| - 1];
      assert s == init + [last];
      InsertPermutes(init, x, key);
    }
  }

  lemma {:induction false} InsertSorted<T>(s: seq<T>, x: T, key: T -> Key)
    requires SortedBy(s, key)
    ensures SortedBy(Insert(s, x, key), key)
    ensures |Insert(s, x, key)| == |s| + 1
    ensures forall i :: 0 <= i < |Insert(s, x, key)| ==> Insert(s, x, key)[i] in s || Insert(s, x, key)[i] == x
  {
    if s == [] || KeyLe(key(s[|s| - 1]), key(x)) {
    } else {
      var init, last := s[..|s| - 1], s[|s| - 1];
      InsertSorted(init, x, key);
      var r := Insert(init, x, key);
      forall i | 0 <= i < |r|
        ensures KeyLe(key(r[i]), key(last))
      {
        if r[i] in init {
          var k :| 0 <= k < |init| && init[k] == r[i];
          assert s[k] == r[i];
        }
      }
    }
  }

  lemma {:induction false} InsertWithKey<T>(s: seq<T>, x: T, key: T -> Key, k: Key)
    ensures WithKey(Insert(s, x, key), key, k) == WithKey(s, key, k) + (if key(x) == k then [x] else [])
  {
    if s == [] || KeyLe(key(s[|s| - 1]), key(x)) {
      assert (s + [x])[..|s|] == s;
    } else {
      var init, last := s[..|s| - 1], s[|s| - 1];
      var r := Insert(init, x, key);
      InsertWithKey(init, x, key, k);
      assert (r + [last])[..|r|] == r;
      assert key(last) != key(x);
    }
  }

  /** The sort is a permutation of its input. */
  lemma {:induction false} SortPermutes<T>(s: seq<T>, key: T -> Key)
    ensures multiset(InsertionSort(s, key)) == multiset(s)
    ensures |InsertionSort(s, key)| == |s|
  {
    if s != [] {
      var init, last := s[..|s| - 1], s[|s| - 1];
      SortPermutes(init, key);
      InsertPermutes(InsertionSort(init, key), last, key);
      assert s == init + [last];
    }
  }

  /** The sort orders its output by key. */
  lemma {:induction false} SortSorted<T>(s: seq<T>, key: T -> Key)
    ensures SortedBy(InsertionSort(s, key), key)
  {
    if s != [] {
      SortSorted(s[..|s| - 1], key);
      InsertSorted(InsertionSort(s[..|s| - 1], key), s[|s| - 1], key);
    }
  }

  /** The sort is stable: elements with equal keys keep their input order. */
  lemma {:induction false} SortStable<T>(s: seq<T>, key: T -> Key, k: Key)
    ensures WithKey(InsertionSort(s, key), key, k) == WithKey(s, key, k)
  {
    if s != [] {
      SortStable(s[..|s| - 1], key, k);
      InsertWithKey(InsertionSort(s[..|s| - 1], key), s[|s| - 1], key, k);
    }
  }

  /** Two elements: kept in order when the first key is at most the second,
      swapped otherwise. */
  lemma SortTwo<T>(a: T, b: T, key: T -> Key)
    ensures InsertionSort([a, b], key) == if KeyLe(key(a), key(b)) then [a, b] else [b, a]
  {
    assert [a, b][..1] == [a];
    assert [a][..0] == [];
    assert InsertionSort([a], key) == [a];
    if !KeyLe(key(a), key(b)) {
      assert Insert([a], b, key) == Insert([], b, key) + [a];
    }
  }

  /** One step of the shifting inner loop: `Insert` over a prefix and a suffix. */
  lemma InsertShift<T>(sorted: seq<T>, x: T, key: T -> Key, j: int, i: int)
    requires 0 < j <= i == |sorted|
    requires !KeyLe(key(sorted[j - 1]), key(x))
    ensures Insert(sorted[..j], x, key) + sorted[j..i] == Insert(sorted[..j - 1], x, key) + sorted[j - 1..i]
  {
    assert sorted[..j][..j - 1] == sorted[..j - 1];
    assert sorted[j - 1..i] == [sorted[j - 1]] + sorted[j..i];
  }

  /** Moves `a[i]` leftwards into the sorted prefix `a[..i]`. */
  method InsertInPlace<T>(a: array<T>, i: int, key: T -> Key)
    requires 0 <= i < a.Length
    modifies a
    ensures a[..i + 1] == Insert(old(a[..i]), old(a[i]), key)
    ensures a[i + 1..] == old(a[i + 1..])
  {
    var x := a[i];
    ghost var sorted := a[..i];
    ghost var rest := a[i + 1..];
    var j := i;
    assert sorted[..i] == sorted;
    assert a[..] == sorted[..j] + [a[j]] + sorted[j..i] + rest;
    while j > 0 && !KeyLe(key(a[j - 1]), key(x))
      invariant 0 <= j <= i
      invariant a[..] == sorted[..j] + [a[j]] + sorted[j..i] + rest
      invariant Insert(sorted, x, key) == Insert(sorted[..j], x, key) + sorted[j..i]
    {
      ShiftStep(a[..], sorted, rest, j, i);
      InsertShift(sorted, x, key, j, i);
      a[j] := a[j - 1];
      j := j - 1;
    }
    PlaceStep(a[..], sorted, rest, j, i, x);
    a[j] := x;
  }

  /** Copying the element before the gap into it moves the gap one place left. */
  lemma ShiftStep<T>(s: seq<T>, sorted: seq<T>, rest: seq<T>, j: int, i: int)
    requires 0 < j <= i == |sorted| && j < |s| && s == sorted[..j] + [s[j]] + sorted[j..i] + rest
    ensures s[j := s[j - 1]] == sorted[..j - 1] + [s[j - 1]] + sorted[j - 1..i] + rest
  {
    assert sorted[..j] == sorted[..j - 1] + [sorted[j - 1]];
    assert sorted[j - 1..i] == [sorted[j - 1]] + sorted[j..i];
  }

  /** Filling the gap with `x`. */
  lemma PlaceStep<T>(s: seq<T>, sorted: seq<T>, rest: seq<T>, j: int, i: int, x: T)
    requires 0 <= j <= i == |sorted| && j < |s| && s == sorted[..j] + [s[j]] + sorted[j..i] + rest
    ensures |s| > i
    ensures s[j := x][..i + 1] == sorted[..j] + [x] + sorted[j..i]
    ensures s[j := x][i + 1..] == rest
  {
  }

  /** Python's `a.sort(key=key)` on a list held in an array: sorts in place, stably. */
  method SortInPlace<T>(a: array<T>, key: T -> Key)
    modifies a
    ensures a[..] == InsertionSort(old(a[..]), key)
  {
    ghost var orig := a[..];
    var i := 0;
    while i < a.Length
      invariant 0 <= i <= a.Length
      invariant a[..i] == InsertionSort(orig[..i], key)
      invariant a[i..] == orig[i..]
    {
      assert a[i] == orig[i] by { assert a[i..][0] == orig[i..][0]; }
      InsertInPlace(a, i, key);
      assert orig[..i + 1][..i] == orig[..i];
      i := i + 1;
    }
    assert orig[..a.Length] == orig;
  }
}
