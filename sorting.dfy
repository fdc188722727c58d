/** The in-place insertion sort of the load-cell trimmed mean, and the
    functional insertion sort that specifies it. */
module Sorting {
  import opened Common

  predicate Sorted(s: seq<int>)
  {
    forall i, j :: 0 <= i < j < |s| ==> s[i] <= s[j]
  }

  /** `key` inserted into `s` the way the inner loop does it: every element
      greater than `key` moves one place right, from the end backwards. */
  function Insert(s: seq<i32>, key: i32): (r: seq<i32>)
    ensures |r| == |s| + 1
    decreases |s|
  {
    if |s| == 0 then [key]
    else if s[|s| - 1] > key then Insert(s[..|s| - 1], key) + [s[|s| - 1]]
    else s + [key]
  }

  /** The outer loop: insert each element in turn into the sorted prefix. */
  function SortSeq(s: seq<i32>): (r: seq<i32>)
    ensures |r| == |s|
    decreases |s|
  {
    if |s| == 0 then [] else Insert(SortSeq(s[..|s| - 1]), s[|s| - 1])
  }

  lemma {:induction false} InsertPermutes(s: seq<i32>, key: i32)
    ensures multiset(Insert(s, key)) == multiset(s) + multiset{key}
    decreases |s|
  {
    if |s| > 0 && s[|s| - 1] > key {
      var init := s[..|s| - 1];
      InsertPermutes(init, key);
      assert s == init + [s[|s| - 1]];
    }
  }

  /** Inserting into a sorted sequence keeps it sorted, and the result
      starts with the smaller of `key` and the old first element. */
  lemma {:induction false} InsertSorted(s: seq<i32>, key: i32)
    requires Sorted(s)
    ensures Sorted(Insert(s, key))
    ensures |s| > 0 ==> Insert(s, key)[0] == (if key < s[0] then key else s[0])
    decreases |s|
  {
    if |s| > 0 && s[|s| - 1] > key {
      var init := s[..|s| - 1];
      var last := s[|s| - 1];
      InsertSorted(init, key);
      InsertPermutes(init, key);
      var r := Insert(init, key);
      assert Insert(s, key) == r + [last];
      forall x | x in multiset(r)
        ensures x <= last
      {
        assert x in multiset(init) || x == key;
        if x in multiset(init) {
          assert x in init;
        }
      }
      forall i | 0 <= i < |r|
        ensures r[i] <= last
      {
        assert r[i] in multiset(r);
      }
      if |init| == 0 {
        assert r == [key];
      }
    }
  }

  lemma {:induction false} SortSeqSorted(s: seq<i32>)
    ensures Sorted(SortSeq(s))
    decreases |s|
  {
    if |s| > 0 {
      SortSeqSorted(s[..|s| - 1]);
      InsertSorted(SortSeq(s[..|s| - 1]), s[|s| - 1]);
    }
  }

  lemma {:induction false} SortSeqPermutes(s: seq<i32>)
    ensures multiset(SortSeq(s)) == multiset(s)
    decreases |s|
  {
    if |s| > 0 {
      var init := s[..|s| - 1];
      SortSeqPermutes(init);
      InsertPermutes(SortSeq(init), s[|s| - 1]);
      assert s == init + [s[|s| - 1]];
    }
  }

  /** An already sorted sequence is left as it is; in particular sorting
      twice is sorting once. */
  lemma {:induction false} SortSeqOfSorted(s: seq<i32>)
    requires Sorted(s)
    ensures SortSeq(s) == s
    decreases |s|
  {
    if |s| > 0 {
      var init := s[..|s| - 1];
      assert Sorted(init);
      SortSeqOfSorted(init);
      assert s == init + [s[|s| - 1]];
    }
  }

  lemma {:induction false} SortSeqIdempotent(s: seq<i32>)
    ensures SortSeq(SortSeq(s)) == SortSeq(s)
  {
    SortSeqSorted(s);
    SortSeqOfSorted(SortSeq(s));
  }

  /** Where the backwards scan stops: after the last element not above
      `key`, with every later element above it. */
  lemma {:induction false} InsertAtStop(s: seq<i32>, j: int, key: i32)
    requires -1 <= j < |s|
    requires j >= 0 ==> s[j] <= key
    requires forall k :: j < k < |s| ==> s[k] > key
    ensures Insert(s, key) == s[..j + 1] + [key] + s[j + 1..]
    decreases |s|
  {
    if |s| == 0 {
    } else if j == |s| - 1 {
      assert s[..j + 1] == s;
    } else {
      var init := s[..|s| - 1];
      InsertAtStop(init, j, key);
      assert init[..j + 1] == s[..j + 1];
      assert init[j + 1..] + [s[|s| - 1]] == s[j + 1..];
    }
  }

  /** One pass of the inner loop: `a[i]` moved into place in `a[0..i]`. */
  method InsertAt(a: array<i32>, i: int)
    requires 0 <= i < a.Length
    modifies a
    ensures a[..i + 1] == Insert(old(a[..i]), old(a[i]))
    ensures a[i + 1..] == old(a[i + 1..])
  {
    var key := a[i];
    ghost var prefix := a[..i];
    var j := i - 1;
    while j >= 0 && a[j] > key
      invariant -1 <= j < i
      invariant forall k :: 0 <= k <= j ==> a[k] == prefix[k]
      invariant forall k :: j + 2 <= k <= i ==> a[k] == prefix[k - 1]
      invariant forall k :: j < k < i ==> prefix[k] > key
      invariant a[i + 1..] == old(a[i + 1..])
    {
      a[j + 1] := a[j];
      j := j - 1;
    }
    a[j + 1] := key;
    InsertAtStop(prefix, j, key);
    SpliceIn(prefix, j, key, a[..i + 1]);
  }

  /** The array after the inner loop, read as a sequence. */
  lemma {:induction false} SpliceIn(prefix: seq<i32>, j: int, key: i32, after: seq<i32>)
    requires -1 <= j < |prefix| && |after| == |prefix| + 1
    requires forall k :: 0 <= k <= j ==> after[k] == prefix[k]
    requires after[j + 1] == key
    requires forall k :: j + 2 <= k < |after| ==> after[k] == prefix[k - 1]
    ensures after == prefix[..j + 1] + [key] + prefix[j + 1..]
  {
  }

  /** The sort of `windowTrimmedMean`, on `a[0..n)`; the rest of `a` is untouched. */
  method InsertionSort(a: array<i32>, n: int)
    requires 0 <= n <= a.Length
    modifies a
    ensures a[..n] == SortSeq(old(a[..n]))
    ensures a[n..] == old(a[n..])
  {
    if n == 0 {
      return;
    }
    ghost var orig := a[..];
    assert orig[..1] == [orig[0]];
    assert SortSeq(orig[..1]) == Insert([], orig[0]);
    var i := 1;
    while i < n
      invariant 1 <= i <= n
      invariant a[..i] == SortSeq(orig[..i])
      invariant a[i..] == orig[i..]
    {
      assert a[i] == orig[i];
      InsertAt(a, i);
      assert orig[..i + 1][..i] == orig[..i];
      i := i + 1;
    }
    assert orig[..n] == old(a[..n]);
  }
}
