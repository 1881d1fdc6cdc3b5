/** Order statistics of latencies, selected without sorting. */
module Percentiles {
  import opened Sequences

  // -------------------------------------------------------- reference: sorting

  function Insert(x: int, s: seq<int>): (r: seq<int>)
    ensures |r| == |s| + 1
  {
    if s == [] || x <= s[0] then [x] + s else [s[0]] + Insert(x, s[1..])
  }

  lemma {:induction false} InsertPermutes(x: int, s: seq<int>)
    ensures multiset(Insert(x, s)) == multiset(s) + multiset{x}
  {
    if s != [] && x > s[0] {
      InsertPermutes(x, s[1..]);
      assert s == [s[0]] + s[1..];
    }
  }

  lemma {:induction false} InsertSorts(x: int, s: seq<int>)
    requires Sorted(s)
    ensures Sorted(Insert(x, s))
    ensures Insert(x, s)[0] == if s == [] || x <= s[0] then x else s[0]
  {
    if s != [] && x > s[0] { InsertSorts(x, s[1..]); }
  }

  /** The same elements in ascending order. */
  function Sorting(s: seq<int>): (r: seq<int>)
    ensures |r| == |s|
  {
    if s == [] then [] else Insert(s[0], Sorting(s[1..]))
  }

  lemma {:induction false} SortingSorts(s: seq<int>)
    ensures Sorted(Sorting(s))
  {
    hide Sorted, Insert;
    if s == [] {
      EmptySorted();
    } else {
      SortingSorts(s[1..]);
      InsertSorts(s[0], Sorting(s[1..]));
    }
  }

  lemma EmptySorted()
    ensures Sorted([])
  {
  }

  lemma {:induction false} SortingPermutes(s: seq<int>)
    ensures multiset(Sorting(s)) == multiset(s)
  {
    hide Insert;
    if s != [] {
      SortingPermutes(s[1..]);
      InsertPermutes(s[0], Sorting(s[1..]));
      assert s == [s[0]] + s[1..];
    }
  }

  // ----------------------------------------------------------------- counting

  function CountBelow(s: seq<int>, v: int): (n: nat)
    ensures n <= |s|
  {
    if s == [] then 0 else CountBelow(s[1..], v) + if s[0] < v then 1 else 0
  }

  lemma {:induction false} CountConcat(a: seq<int>, b: seq<int>, v: int)
    ensures CountBelow(a + b, v) == CountBelow(a, v) + CountBelow(b, v)
    decreases |a|
  {
    if a == [] {
      assert a + b == b;
    } else {
      CountConcat(a[1..], b, v);
      assert (a + b)[1..] == a[1..] + b;
    }
  }

  lemma {:induction false} CountPermutes(s: seq<int>, t: seq<int>, v: int)
    requires multiset(s) == multiset(t)
    ensures CountBelow(s, v) == CountBelow(t, v)
    decreases |s|
  {
    SameLength(s, t);
    if s != [] {
      assert s[0] in multiset(s);
      var i :| 0 <= i < |t| && t[i] == s[0];
      var rest := t[..i] + t[i + 1..];
      RemoveOne(s, t, i);
      CountPermutes(s[1..], rest, v);
      CountTakeOut(t, i, v);
    }
  }

  lemma RemoveOne(s: seq<int>, t: seq<int>, i: nat)
    requires multiset(s) == multiset(t) && s != [] && i < |t| && t[i] == s[0]
    ensures multiset(s[1..]) == multiset(t[..i] + t[i + 1..])
  {
    assert s == [s[0]] + s[1..];
    assert t == t[..i] + ([t[i]] + t[i + 1..]);
    assert multiset(s[1..]) == multiset(s) - multiset{s[0]};
    assert multiset(t[..i] + t[i + 1..]) == multiset(t) - multiset{t[i]};
  }

  lemma CountTakeOut(t: seq<int>, i: nat, v: int)
    requires i < |t|
    ensures CountBelow(t, v) == CountBelow(t[..i] + t[i + 1..], v) + if t[i] < v then 1 else 0
  {
    assert t == t[..i] + t[i..];
    assert t[i..][0] == t[i] && t[i..][1..] == t[i + 1..];
    CountConcat(t[..i], t[i..], v);
    CountConcat(t[..i], t[i + 1..], v);
  }

  lemma {:induction false} CountNone(s: seq<int>, v: int)
    requires forall i | 0 <= i < |s| :: s[i] >= v
    ensures CountBelow(s, v) == 0
  {
    if s != [] { CountNone(s[1..], v); }
  }

  lemma {:induction false} CountAll(s: seq<int>, v: int)
    requires forall i | 0 <= i < |s| :: s[i] < v
    ensures CountBelow(s, v) == |s|
  {
    if s != [] { CountAll(s[1..], v); }
  }

  // ---------------------------------------------------------------- selection

  /** What a selection promises: the n-th place separates smaller from greater. */
  predicate Separates(s: seq<int>, n: nat) {
    && n < |s|
    && (forall i | 0 <= i < n :: s[i] <= s[n])
    && (forall i | n < i < |s| :: s[n] <= s[i])
  }

  /** How many elements lie below, and at or below, the separating one. */
  lemma SeparatorRank(s: seq<int>, n: nat)
    requires Separates(s, n)
    ensures CountBelow(s, s[n]) <= n < CountBelow(s, s[n] + 1)
  {
    var v := s[n];
    assert s == s[..n] + s[n..] == s[..n + 1] + s[n + 1..];
    CountConcat(s[..n], s[n..], v);
    CountNone(s[n..], v);
    CountConcat(s[..n + 1], s[n + 1..], v + 1);
    CountAll(s[..n + 1], v + 1);
  }

  lemma {:induction false} CountGrows(s: seq<int>, v: int, w: int)
    requires v <= w
    ensures CountBelow(s, v) <= CountBelow(s, w)
  {
    if s != [] { CountGrows(s[1..], v, w); }
  }

  /** At most one value has a given rank. */
  lemma RankUnique(s: seq<int>, n: nat, v: int, w: int)
    requires CountBelow(s, v) <= n < CountBelow(s, v + 1)
    requires CountBelow(s, w) <= n < CountBelow(s, w + 1)
    ensures v == w
  {
    if v < w { CountGrows(s, v + 1, w); }
    if w < v { CountGrows(s, w + 1, v); }
  }

  lemma SameLength(s: seq<int>, t: seq<int>)
    requires multiset(s) == multiset(t)
    ensures |s| == |t|
  {
    assert |multiset(s)| == |s| && |multiset(t)| == |t|;
  }

  lemma SortingSeparates(s: seq<int>, n: nat)
    requires n < |s|
    ensures Separates(Sorting(s), n)
  {
    SortingSorts(s);
    hide Sorting;
  }

  lemma SeparatorsAgree(s: seq<int>, t: seq<int>, n: nat)
    requires multiset(s) == multiset(t) && Separates(s, n) && Separates(t, n)
    ensures s[n] == t[n]
  {
    var v, w := s[n], t[n];
    SeparatorRank(s, n);
    SeparatorRank(t, n);
    hide Separates, CountBelow;
    CountPermutes(s, t, v);
    CountPermutes(s, t, v + 1);
    RankUnique(t, n, v, w);
  }

  /** Any rearrangement that separates at n has the n-th element of the sorted
      list there. */
  lemma SeparatorIsSorted(s: seq<int>, t: seq<int>, n: nat)
    requires multiset(s) == multiset(t) && Separates(t, n)
    ensures n < |s| && t[n] == Sorting(s)[n]
  {
    SameLength(s, t);
    SortingSeparates(s, n);
    SortingPermutes(s);
    hide Separates, Sorting;
    SeparatorsAgree(t, Sorting(s), n);
  }

  method Exchange(a: array<int>, i: nat, j: nat)
    requires i < a.Length && j < a.Length
    modifies a
    ensures a[..] == old(a[..])[i := old(a[j])][j := old(a[i])]
    ensures multiset(a[..]) == multiset(old(a[..]))
  {
    a[i], a[j] := a[j], a[i];
  }

  method IndexOfLeast(a: array<int>, from: nat) returns (k: nat)
    requires from < a.Length
    ensures from <= k < a.Length && forall i | from <= i < a.Length :: a[k] <= a[i]
  {
    k := from;
    for i := from + 1 to a.Length
      invariant from <= k < a.Length && forall j | from <= j < i :: a[k] <= a[j]
    {
      if a[i] < a[k] { k := i; }
    }
  }

  predicate Placed(s: seq<int>, m: nat) {
    m <= |s| && forall i, j | 0 <= i < m && i < j < |s| :: s[i] <= s[j]
  }

  lemma PlaceNext(s: seq<int>, t: seq<int>, m: nat, k: nat)
    requires Placed(s, m) && m <= k < |s| && forall i | m <= i < |s| :: s[k] <= s[i]
    requires t == s[m := s[k]][k := s[m]]
    ensures Placed(t, m + 1)
  {
  }

  /** Reorder in place so that position n separates smaller from greater. */
  method NthElement(a: array<int>, n: nat)
    requires n < a.Length
    modifies a
    ensures multiset(a[..]) == multiset(old(a[..])) && Separates(a[..], n)
  {
    for m := 0 to n + 1
      invariant multiset(a[..]) == multiset(old(a[..])) && Placed(a[..], m)
    {
      var k := IndexOfLeast(a, m);
      ghost var s := a[..];
      Exchange(a, m, k);
      PlaceNext(s, a[..], m, k);
    }
  }

  // --------------------------------------------------------------- percentiles

  /** The position in the sorted list that stands for the fraction p. */
  function Index(n: nat, p: real): (i: nat)
    requires n > 0 && 0.0 <= p <= 1.0
    ensures i < n
  {
    IndexInRange(n, p);
    (p * (n - 1) as real).Floor
  }

  lemma IndexInRange(n: nat, p: real)
    requires n > 0 && 0.0 <= p <= 1.0
    ensures 0 <= (p * (n - 1) as real).Floor < n
  {
    var m := (n - 1) as real;
    ProductInRange(p, m);
    FloorInRange(p * m, n);
  }

  lemma ProductInRange(p: real, m: real)
    requires 0.0 <= p <= 1.0 && m >= 0.0
    ensures 0.0 <= p * m <= m
  {
    assert p * m >= 0.0;
    assert (1.0 - p) * m >= 0.0;
  }

  lemma FloorInRange(x: real, n: nat)
    requires n > 0 && 0.0 <= x <= (n - 1) as real
    ensures 0 <= x.Floor < n
  {
  }

  function Percentile(latencies: seq<int>, p: real): int
    requires 0.0 <= p <= 1.0
  {
    if latencies == [] then 0 else Sorting(latencies)[Index(|latencies|, p)]
  }

  /** Work on a copy, partially reordered. */
  method CalculatePercentile(latencies: seq<int>, p: real) returns (v: int)
    requires 0.0 <= p <= 1.0
    ensures latencies == [] ==> v == 0
    ensures latencies != [] ==> v == Sorting(latencies)[Index(|latencies|, p)]
    ensures v == Percentile(latencies, p)
  {
    if |latencies| == 0 { return 0; }
    var a := new int[|latencies|](i requires 0 <= i < |latencies| => latencies[i]);
    assert a[..] == latencies;
    IndexInRange(|latencies|, p);
    var index := (p * (|latencies| - 1) as real).Floor;
    NthElement(a, index);
    SeparatorIsSorted(latencies, a[..], index);
    v := a[index];
  }

  /** At most n elements lie below v and more than n at or below it. */
  predicate HasRank(s: seq<int>, v: int, n: nat) {
    CountBelow(s, v) <= n < CountBelow(s, v + 1)
  }

  lemma RankCarries(r: seq<int>, s: seq<int>, n: nat)
    requires multiset(r) == multiset(s) && Separates(r, n)
    ensures HasRank(s, r[n], n)
  {
    var v := r[n];
    SeparatorRank(r, n);
    hide Separates, CountBelow;
    CountPermutes(r, s, v);
    CountPermutes(r, s, v + 1);
  }

  lemma SortingRank(s: seq<int>, n: nat)
    requires n < |s|
    ensures HasRank(s, Sorting(s)[n], n)
  {
    hide HasRank, Sorting, Separates;
    SortingSeparates(s, n);
    SortingPermutes(s);
    RankCarries(Sorting(s), s, n);
  }

  lemma PercentileAt(latencies: seq<int>, p: real)
    requires latencies != [] && 0.0 <= p <= 1.0
    ensures HasRank(latencies, Percentile(latencies, p), Index(|latencies|, p))
  {
    hide HasRank, Sorting, Index;
    SortingRank(latencies, Index(|latencies|, p));
  }

  lemma PercentileIsMember(latencies: seq<int>, p: real)
    requires latencies != [] && 0.0 <= p <= 1.0
    ensures Percentile(latencies, p) in latencies
  {
    hide Sorting, Index;
    SortingPermutes(latencies);
    assert Percentile(latencies, p) in multiset(Sorting(latencies));
  }

  lemma RankByFraction(s: seq<int>, v: int, p: real)
    requires s != [] && 0.0 <= p <= 1.0
    ensures HasRank(s, v, Index(|s|, p)) <==>
            CountBelow(s, v) as real <= p * (|s| - 1) as real < CountBelow(s, v + 1) as real
  {
    hide CountBelow;
    FloorBetween(p * (|s| - 1) as real, CountBelow(s, v), CountBelow(s, v + 1));
  }

  /** What a percentile means: the one value with at most p (n - 1) of the
      latencies below it and more than that at or below it. */
  lemma PercentileRank(latencies: seq<int>, p: real, v: int)
    requires latencies != [] && 0.0 <= p <= 1.0
    ensures v == Percentile(latencies, p) <==>
            CountBelow(latencies, v) as real <= p * (|latencies| - 1) as real < CountBelow(latencies, v + 1) as real
  {
    hide CountBelow, Percentile, Index;
    RankByFraction(latencies, v, p);
    PercentileAt(latencies, p);
    if HasRank(latencies, v, Index(|latencies|, p)) {
      RankUnique(latencies, Index(|latencies|, p), v, Percentile(latencies, p));
    }
  }

  lemma FloorBetween(x: real, a: nat, b: nat)
    ensures a as real <= x < b as real <==> a <= x.Floor < b
  {
  }

  lemma IndexGrows(n: nat, p: real, q: real)
    requires n > 0 && 0.0 <= p <= q <= 1.0
    ensures Index(n, p) <= Index(n, q)
  {
    var m := (n - 1) as real;
    ProductGrows(p, q, m);
    FloorGrows(p * m, q * m);
  }

  lemma ProductGrows(p: real, q: real, m: real)
    requires p <= q && m >= 0.0
    ensures p * m <= q * m
  {
    assert (q - p) * m >= 0.0;
  }

  lemma FloorGrows(x: real, y: real)
    requires x <= y
    ensures x.Floor <= y.Floor
  {
  }

  /** A greater fraction never gives a smaller latency, the whole gives the
      greatest, and each is one of the latencies. */
  lemma PercentilesAscend(latencies: seq<int>, p: real, q: real)
    requires 0.0 <= p <= q <= 1.0
    ensures Percentile(latencies, p) <= Percentile(latencies, q)
    ensures forall x | x in latencies :: x <= Percentile(latencies, 1.0)
    ensures latencies != [] ==> Percentile(latencies, p) in latencies
  {
    assert latencies == [] ==> Percentile(latencies, p) == Percentile(latencies, q);
    hide Percentile;
    if latencies != [] {
      PercentileIsMember(latencies, p);
      PercentileGrows(latencies, p, q);
      PercentileOfWhole(latencies);
    }
  }

  lemma PercentileGrows(latencies: seq<int>, p: real, q: real)
    requires latencies != [] && 0.0 <= p <= q <= 1.0
    ensures Percentile(latencies, p) <= Percentile(latencies, q)
  {
    IndexGrows(|latencies|, p, q);
    SortingSorts(latencies);
    hide Sorting, Index;
  }

  lemma PercentileOfWhole(latencies: seq<int>)
    requires latencies != []
    ensures forall x | x in latencies :: x <= Percentile(latencies, 1.0)
  {
    SortingSorts(latencies);
    SortingPermutes(latencies);
    IndexOfWhole(|latencies|);
    hide Sorting, Index;
    forall x | x in latencies ensures x <= Percentile(latencies, 1.0) {
      assert x in multiset(Sorting(latencies));
    }
  }

  lemma IndexOfWhole(n: nat)
    requires n > 0
    ensures Index(n, 1.0) == n - 1
  {
  }
}
