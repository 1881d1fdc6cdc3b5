/** The in-place array algorithms with which a log takes in ids: sort, remove
    adjacent duplicates, merge two sorted halves. */
module IdArrays {
  import opened Sequences

  predicate SortedTo(s: seq<int>, n: nat) {
    n <= |s| && Sorted(s[..n])
  }

  method SwapWithPrevious(a: array<nat>, j: nat)
    requires 0 < j < a.Length
    modifies a
    ensures a[j - 1] == old(a[j]) && a[j] == old(a[j - 1])
    ensures forall k | 0 <= k < a.Length && k != j && k != j - 1 :: a[k] == old(a[k])
    ensures multiset(a[..]) == multiset(old(a[..]))
  {
    a[j - 1], a[j] := a[j], a[j - 1];
    assert a[..] == old(a[..])[j - 1 := old(a[j])][j := old(a[j - 1])];
  }

  /** Moves element `i` down to its place among the sorted elements before it. */
  method InsertDown(a: array<nat>, i: nat)
    requires i < a.Length && SortedTo(a[..], i)
    modifies a
    ensures SortedTo(a[..], i + 1)
    ensures multiset(a[..]) == multiset(old(a[..]))
    ensures forall k | i < k < a.Length :: a[k] == old(a[k])
  {
    var j := i;
    while 0 < j && a[j] < a[j - 1]
      invariant 0 <= j <= i
      invariant forall p, q | 0 <= p < q <= i && q != j :: a[p] <= a[q]
      invariant multiset(a[..]) == multiset(old(a[..]))
      invariant forall k | i < k < a.Length :: a[k] == old(a[k])
    {
      SwapWithPrevious(a, j);
      j := j - 1;
    }
  }

  /** Merges a sorted front of length `mid` with the elements after it; with
      `mid == 0` it sorts the array. */
  method MergeInPlace(a: array<nat>, mid: nat)
    requires SortedTo(a[..], mid)
    modifies a
    ensures Sorted(a[..])
    ensures multiset(a[..]) == multiset(old(a[..]))
  {
    var i := mid;
    while i < a.Length
      invariant mid <= i <= a.Length && SortedTo(a[..], i)
      invariant multiset(a[..]) == multiset(old(a[..]))
    {
      InsertDown(a, i);
      i := i + 1;
    }
    assert a[..a.Length] == a[..];
  }

  /** Keeps the first of each run of equal elements; `n` are kept. */
  method UniqueInPlace(a: array<nat>) returns (n: nat)
    requires Sorted(a[..])
    modifies a
    ensures n <= a.Length && Ascending(a[..n])
    ensures forall x :: x in a[..n] <==> x in old(a[..])
  {
    n := 0;
    var i := 0;
    while i < a.Length
      invariant 0 <= n <= i <= a.Length
      invariant Ascending(a[..n])
      invariant forall x :: x in a[..n] <==> x in old(a[..])[..i]
      invariant forall k | i <= k < a.Length :: a[k] == old(a[k])
      invariant 0 < n ==> 0 < i && a[n - 1] == old(a[i - 1])
    {
      ghost var kept := a[..n];
      var x := a[i];
      assert old(a[..])[..i + 1] == old(a[..])[..i] + [x];
      if n == 0 || a[n - 1] != x {
        assert 0 < n ==> old(a[..])[i - 1] <= old(a[..])[i];
        a[n] := x;
        n := n + 1;
        assert a[..n] == kept + [x];
      } else {
        assert a[..n] == kept;
        assert x == kept[n - 1];
      }
      i := i + 1;
    }
    assert old(a[..])[..a.Length] == old(a[..]);
  }
}
