/** The offset estimate of the calibration: the element at index len/2 of the sorted
    successful reads (app/sensors/adxl.py, lines 122-127). */
module Median {

  ghost predicate SortedAsc(s: seq<int>) {
    forall i, j :: 0 <= i < j < |s| ==> s[i] <= s[j]
  }

  /** Insert x into a sorted sequence. */
  function Insert(x: int, s: seq<int>): (r: seq<int>)
    requires SortedAsc(s)
    ensures SortedAsc(r)
    ensures multiset(r) == multiset(s) + multiset{x}
    ensures |r| == |s| + 1
  {
    if s == [] || x <= s[0] then [x] + s
    else
      var rest := Insert(x, s[1..]);
      assert s == [s[0]] + s[1..];
      InsertHeadBound(x, s, rest);
      [s[0]] + rest
  }

  lemma InsertHeadBound(x: int, s: seq<int>, rest: seq<int>)
    requires SortedAsc(s) && s != [] && s[0] < x
    requires SortedAsc(rest) && multiset(rest) == multiset(s[1..]) + multiset{x}
    ensures SortedAsc([s[0]] + rest)
  {
    forall i | 0 <= i < |rest|
      ensures s[0] <= rest[i]
    {
      assert rest[i] in multiset(rest);
      if rest[i] != x {
        assert rest[i] in s[1..];
      }
    }
    var r := [s[0]] + rest;
    forall i, j | 0 <= i < j < |r|
      ensures r[i] <= r[j]
    {
      assert r[j] == rest[j - 1];
      if i > 0 {
        assert r[i] == rest[i - 1];
      }
    }
  }

  /** Ascending sort (Python's list.sort on integers). */
  function SortAsc(s: seq<int>): (r: seq<int>)
    ensures SortedAsc(r)
    ensures multiset(r) == multiset(s)
    ensures |r| == |s|
  {
    if s == [] then []
    else
      assert s == [s[0]] + s[1..];
      Insert(s[0], SortAsc(s[1..]))
  }

  /** The (err, offset) pair of _calc_offset once the successful reads are collected:
      (1, 0) for no reads, otherwise (0, sorted(vals)[len(vals) // 2]). */
  function OffsetOf(vals: seq<int>): (r: (int, int))
    ensures r.0 == 0 <==> vals != []
    ensures vals == [] ==> r == (1, 0)
    ensures vals != [] ==> r.1 in vals
  {
    if vals == [] then (1, 0)
    else
      var sorted := SortAsc(vals);
      assert sorted[|vals| / 2] in multiset(vals);
      (0, sorted[|vals| / 2])
  }

  // ---------------------------------------------------------------- counting

  function CountLess(s: seq<int>, m: int): (n: nat)
    ensures n <= |s|
  {
    if s == [] then 0 else (if s[0] < m then 1 else 0) + CountLess(s[1..], m)
  }

  function CountGreater(s: seq<int>, m: int): (n: nat)
    ensures n <= |s|
  {
    if s == [] then 0 else (if s[0] > m then 1 else 0) + CountGreater(s[1..], m)
  }

  function Occ(s: seq<int>, c: int): nat {
    if s == [] then 0 else (if s[0] == c then 1 else 0) + Occ(s[1..], c)
  }

  lemma {:induction false} OccIsMultiplicity(s: seq<int>, c: int)
    ensures Occ(s, c) == multiset(s)[c]
  {
    if s != [] {
      OccIsMultiplicity(s[1..], c);
      assert s == [s[0]] + s[1..];
    }
  }

  lemma {:induction false} InsertCounts(x: int, s: seq<int>, m: int)
    requires SortedAsc(s)
    ensures CountLess(Insert(x, s), m) == CountLess(s, m) + (if x < m then 1 else 0)
    ensures CountGreater(Insert(x, s), m) == CountGreater(s, m) + (if x > m then 1 else 0)
  {
    if s == [] || x <= s[0] {
      assert Insert(x, s)[1..] == s;
    } else {
      InsertCounts(x, s[1..], m);
      assert Insert(x, s)[1..] == Insert(x, s[1..]);
    }
  }

  /** Sorting does not change how many values lie below or above a threshold. */
  lemma {:induction false} SortCounts(s: seq<int>, m: int)
    ensures CountLess(SortAsc(s), m) == CountLess(s, m)
    ensures CountGreater(SortAsc(s), m) == CountGreater(s, m)
  {
    if s != [] {
      SortCounts(s[1..], m);
      InsertCounts(s[0], SortAsc(s[1..]), m);
    }
  }

  lemma {:induction false} CountLessBound(t: seq<int>, m: int, k: nat)
    requires forall i :: k <= i < |t| ==> t[i] >= m
    ensures CountLess(t, m) <= k
  {
    if t != [] {
      CountLessBound(t[1..], m, if k == 0 then 0 else k - 1);
    }
  }

  lemma {:induction false} CountGreaterBound(t: seq<int>, m: int, k: nat)
    requires k < |t|
    requires forall i :: 0 <= i <= k ==> t[i] <= m
    ensures CountGreater(t, m) <= |t| - 1 - k
  {
    if k > 0 {
      CountGreaterBound(t[1..], m, k - 1);
    }
  }

  lemma {:induction false} OccBelowGreater(s: seq<int>, m: int, c: int)
    requires m < c
    ensures Occ(s, c) <= CountGreater(s, m)
  {
    if s != [] {
      OccBelowGreater(s[1..], m, c);
    }
  }

  lemma {:induction false} OccBelowLess(s: seq<int>, m: int, c: int)
    requires c < m
    ensures Occ(s, c) <= CountLess(s, m)
  {
    if s != [] {
      OccBelowLess(s[1..], m, c);
    }
  }

  // ---------------------------------------------------------------- properties of the offset

  /** The offset is a median: at most len/2 reads lie strictly below it and at most
      (len-1)/2 strictly above it (the upper median when the count is even). */
  lemma OffsetIsMedian(vals: seq<int>)
    requires vals != []
    ensures CountLess(vals, OffsetOf(vals).1) <= |vals| / 2
    ensures CountGreater(vals, OffsetOf(vals).1) <= (|vals| - 1) / 2
  {
    var t := SortAsc(vals);
    var k := |vals| / 2;
    assert t[k] == OffsetOf(vals).1;
    SortCounts(vals, t[k]);
    MiddleCounts(t, k);
  }

  /** In a sorted sequence, at most k values lie below the k-th and at most |t| - 1 - k above. */
  lemma MiddleCounts(t: seq<int>, k: nat)
    requires SortedAsc(t) && k < |t|
    ensures CountLess(t, t[k]) <= k
    ensures CountGreater(t, t[k]) <= |t| - 1 - k
  {
    var m := t[k];
    forall i | k <= i < |t|
      ensures t[i] >= m
    {
      assert k == i || t[k] <= t[i];
    }
    CountLessBound(t, m, k);
    forall i | 0 <= i <= k
      ensures t[i] <= m
    {
      assert i == k || t[i] <= t[k];
    }
    CountGreaterBound(t, m, k);
  }

  function Min(s: seq<int>): int
    requires s != []
  {
    if |s| == 1 then s[0] else var m := Min(s[1..]); if s[0] < m then s[0] else m
  }

  function Max(s: seq<int>): int
    requires s != []
  {
    if |s| == 1 then s[0] else var m := Max(s[1..]); if s[0] > m then s[0] else m
  }

  lemma {:induction false} MinMaxBound(s: seq<int>, y: int)
    requires y in s
    ensures Min(s) <= y <= Max(s)
  {
    if |s| > 1 && y != s[0] {
      MinMaxBound(s[1..], y);
    }
  }

  /** The offset lies between the smallest and the largest read. */
  lemma OffsetWithinRange(vals: seq<int>)
    requires vals != []
    ensures Min(vals) <= OffsetOf(vals).1 <= Max(vals)
  {
    MinMaxBound(vals, OffsetOf(vals).1);
  }

  /** Spike resistance: a value held by more than half of the reads is the offset,
      whatever the other reads are. */
  lemma MajorityIsOffset(vals: seq<int>, c: int)
    requires multiset(vals)[c] > |vals| / 2
    ensures OffsetOf(vals) == (0, c)
  {
    OccIsMultiplicity(vals, c);
    assert vals != [];
    var m := OffsetOf(vals).1;
    OffsetIsMedian(vals);
    if m < c {
      OccBelowGreater(vals, m, c);
    } else if m > c {
      OccBelowLess(vals, m, c);
    }
  }

  /** The example of four clean reads and one spike. */
  lemma SpikeExample()
    ensures OffsetOf([100, 100, 100, 100, 9000]) == (0, 100)
  {
    var vals := [100, 100, 100, 100, 9000];
    assert multiset(vals)[100] == 4;
    MajorityIsOffset(vals, 100);
  }
}
