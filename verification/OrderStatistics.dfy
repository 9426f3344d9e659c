/** Order statistics: the robust median of Time.cpp and what it guarantees about its input. */
module OrderStatistics {
  import opened Numerics

  // ----- Ranks ---------------------------------------------------------------------------

  /** How many elements lie below `v`; with `inclusive`, also those equal to `v`. */
  function Rank(s: seq<int>, v: int, inclusive: bool): nat {
    if s == [] then 0
    else Rank(s[..|s| - 1], v, inclusive)
         + (if s[|s| - 1] < v || (inclusive && s[|s| - 1] == v) then 1 else 0)
  }

  lemma {:induction false} RankBounds(s: seq<int>, v: int, w: int)
    ensures Rank(s, v, false) <= Rank(s, v, true) <= |s|
    ensures v < w ==> Rank(s, v, true) <= Rank(s, w, false)
  {
    if s != [] {
      RankBounds(s[..|s| - 1], v, w);
    }
  }

  lemma {:induction false} RankMonotone(s: seq<int>, v: int, w: int, inclusive: bool)
    requires v <= w
    ensures Rank(s, v, inclusive) <= Rank(s, w, inclusive)
  {
    if s != [] {
      RankMonotone(s[..|s| - 1], v, w, inclusive);
    }
  }

  lemma {:induction false} RankAppend(s: seq<int>, t: seq<int>, v: int, inclusive: bool)
    ensures Rank(s + t, v, inclusive) == Rank(s, v, inclusive) + Rank(t, v, inclusive)
  {
    if t == [] {
      assert s + t == s;
    } else {
      assert (s + t)[..|s + t| - 1] == s + t[..|t| - 1];
      RankAppend(s, t[..|t| - 1], v, inclusive);
    }
  }

  lemma {:induction false} RankPermutation(s: seq<int>, t: seq<int>, v: int, inclusive: bool)
    requires multiset(s) == multiset(t)
    ensures Rank(s, v, inclusive) == Rank(t, v, inclusive)
    decreases |s|
  {
    assert |multiset(s)| == |s| && |multiset(t)| == |t|;
    if s != [] {
      hide Rank;
      var x, front := s[|s| - 1], s[..|s| - 1];
      assert s == front + [x];
      assert x in multiset(t);
      var j :| 0 <= j < |t| && t[j] == x;
      WithoutOne(t, j);
      assert multiset(front) == multiset(s) - multiset{x};
      RankPermutation(front, t[..j] + t[j + 1..], v, inclusive);
      RankAppend(front, [x], v, inclusive);
      RankWithout(t, j, v, inclusive);
    }
  }

  lemma WithoutOne(t: seq<int>, j: nat)
    requires j < |t|
    ensures multiset(t) == multiset(t[..j] + t[j + 1..]) + multiset{t[j]}
  {
    assert t == t[..j] + ([t[j]] + t[j + 1..]);
  }

  lemma RankWithout(t: seq<int>, j: nat, v: int, inclusive: bool)
    requires j < |t|
    ensures Rank(t, v, inclusive) == Rank(t[..j] + t[j + 1..], v, inclusive) + Rank([t[j]], v, inclusive)
  {
    hide Rank;
    assert t == t[..j] + ([t[j]] + t[j + 1..]);
    RankAppend(t[..j], [t[j]] + t[j + 1..], v, inclusive);
    RankAppend([t[j]], t[j + 1..], v, inclusive);
    RankAppend(t[..j], t[j + 1..], v, inclusive);
  }

  // ----- Order statistics ----------------------------------------------------------------

  ghost predicate IsSorted(s: seq<int>) {
    forall i, j :: 0 <= i < j < |s| ==> s[i] <= s[j]
  }

  function Insert(x: int, s: seq<int>): seq<int> {
    if s == [] || x <= s[0] then [x] + s else [s[0]] + Insert(x, s[1..])
  }

  function Sort(s: seq<int>): (r: seq<int>)
    ensures |r| == |s|
  {
    if s == [] then [] else InsertLength(s[0], Sort(s[1..])); Insert(s[0], Sort(s[1..]))
  }

  lemma {:induction false} InsertLength(x: int, s: seq<int>)
    ensures |Insert(x, s)| == |s| + 1
  {
    if s != [] && x > s[0] {
      InsertLength(x, s[1..]);
    }
  }

  lemma {:induction false} InsertAdds(x: int, s: seq<int>)
    ensures multiset(Insert(x, s)) == multiset(s) + multiset{x}
  {
    if s != [] && x > s[0] {
      InsertAdds(x, s[1..]);
      assert s == [s[0]] + s[1..];
    }
  }

  lemma {:induction false} InsertKeepsOrder(x: int, s: seq<int>)
    requires IsSorted(s)
    ensures IsSorted(Insert(x, s))
  {
    if s != [] && x > s[0] {
      var tail := Insert(x, s[1..]);
      InsertKeepsOrder(x, s[1..]);
      InsertAdds(x, s[1..]);
      forall i | 0 <= i < |tail| ensures s[0] <= tail[i] {
        assert tail[i] in multiset(tail);
      }
      assert Insert(x, s) == [s[0]] + tail;
      hide Insert;
      SortedCons(s[0], tail);
    }
  }

  lemma SortedCons(x: int, tail: seq<int>)
    requires IsSorted(tail) && forall i :: 0 <= i < |tail| ==> x <= tail[i]
    ensures IsSorted([x] + tail)
  {
    var s := [x] + tail;
    forall i, j | 0 <= i < j < |s| ensures s[i] <= s[j] {
      assert s[j] == tail[j - 1];
    }
  }

  lemma NothingSorted()
    ensures IsSorted([])
  {
  }

  /** Sort really sorts: the result is ordered and holds exactly the elements of its input. */
  lemma {:induction false} SortSorts(s: seq<int>)
    ensures IsSorted(Sort(s)) && multiset(Sort(s)) == multiset(s)
  {
    hide Insert, IsSorted;
    if s == [] {
      NothingSorted();
    } else {
      SortSorts(s[1..]);
      InsertKeepsOrder(s[0], Sort(s[1..]));
      InsertAdds(s[0], Sort(s[1..]));
      assert s == [s[0]] + s[1..];
    }
  }

  /** What `std::nth_element` promises about position n. */
  ghost predicate IsNth(a: seq<int>, n: nat)
    requires n < |a|
  {
    && (forall i :: 0 <= i < n ==> a[i] <= a[n])
    && (forall j :: n < j < |a| ==> a[n] <= a[j])
  }

  lemma {:induction false} RankBelowAt(a: seq<int>, n: nat, v: int)
    requires n <= |a| && forall j :: n <= j < |a| ==> v <= a[j]
    ensures Rank(a, v, false) <= n
  {
    if |a| == n {
      RankBounds(a, v, v);
    } else {
      RankBelowAt(a[..|a| - 1], n, v);
    }
  }

  lemma {:induction false} RankAtMost(a: seq<int>, n: nat, v: int)
    requires n <= |a| && forall i :: 0 <= i < n ==> a[i] <= v
    ensures n <= Rank(a, v, true)
  {
    if 0 < n {
      RankAtMost(a[..|a| - 1], if n == |a| then n - 1 else n, v);
    }
  }

  /** Any arrangement that meets nth_element's promise holds the true order statistic there. */
  lemma NthIsOrderStatistic(a: seq<int>, s: seq<int>, n: nat)
    requires multiset(a) == multiset(s) && n < |a| && IsNth(a, n)
    ensures |a| == |s| && a[n] == Sort(s)[n]
  {
    hide Rank, Sort;
    assert |multiset(a)| == |a| && |multiset(s)| == |s|;
    var t := Sort(s);
    SortSorts(s);
    OrderStatisticRank(s, n);
    RankBelowAt(a, n, a[n]);
    RankAtMost(a, n + 1, a[n]);
    RankPermutation(a, s, a[n], false);
    RankPermutation(a, s, a[n], true);
    RankBounds(s, a[n], t[n]);
    RankBounds(s, t[n], a[n]);
  }

  lemma OrderStatisticRank(s: seq<int>, n: nat)
    requires n < |s|
    ensures Rank(s, Sort(s)[n], false) <= n < Rank(s, Sort(s)[n], true)
  {
    var t := Sort(s);
    SortSorts(s);
    RankBelowAt(t, n, t[n]);
    RankAtMost(t, n + 1, t[n]);
    RankPermutation(t, s, t[n], false);
    RankPermutation(t, s, t[n], true);
  }

  // ----- Median --------------------------------------------------------------------------

  /** The median: middle order statistic, or the midpoint of the two middle ones; 0 when empty. */
  function MedianOf(s: seq<int>): int {
    if s == [] then 0
    else if |s| % 2 == 1 then Sort(s)[|s| / 2]
    else Midpoint(Sort(s)[|s| / 2 - 1], Sort(s)[|s| / 2])
  }

  lemma MiddleOrdered(s: seq<int>)
    requires s != [] && |s| % 2 == 0
    ensures Sort(s)[|s| / 2 - 1] <= MedianOf(s) <= Sort(s)[|s| / 2]
  {
    SortSorts(s);
  }

  /** The median does not depend on the order of its input. */
  lemma MedianPermutation(s: seq<int>, t: seq<int>)
    requires multiset(s) == multiset(t)
    ensures MedianOf(s) == MedianOf(t)
  {
    hide Sort, Midpoint;
    assert |multiset(s)| == |s| && |multiset(t)| == |t|;
    SortSorts(t);
    forall n: nat | n < |s| ensures Sort(s)[n] == Sort(t)[n] {
      NthIsOrderStatistic(Sort(t), s, n);
    }
  }

  /** At least half the values, rounded up, are at most the median, and as many at least it. */
  lemma MedianSplitsEvenly(s: seq<int>)
    requires s != []
    ensures 2 * Rank(s, MedianOf(s), true) >= |s|
    ensures 2 * (|s| - Rank(s, MedianOf(s), false)) >= |s|
  {
    hide Rank, Sort;
    var h := |s| / 2;
    OrderStatisticRank(s, h);
    if |s| % 2 == 0 {
      MiddleOrdered(s);
      OrderStatisticRank(s, h - 1);
      RankMonotone(s, Sort(s)[h - 1], MedianOf(s), true);
      RankMonotone(s, MedianOf(s), Sort(s)[h], false);
    }
  }

  /** A strict majority of the input inside an interval pins the median to that interval. */
  lemma MedianInMajorityInterval(s: seq<int>, lo: int, hi: int)
    requires lo <= hi && 2 * (Rank(s, hi, true) - Rank(s, lo, false)) > |s|
    ensures lo <= MedianOf(s) <= hi
  {
    hide Rank, Sort;
    RankBounds(s, lo, lo);
    RankBounds(s, hi, hi);
    var h := |s| / 2;
    OrderStatisticRank(s, h);
    var upper := Sort(s)[h];
    RankBounds(s, upper, lo);
    RankBounds(s, hi, upper);
    if |s| % 2 == 0 {
      var lower := Sort(s)[h - 1];
      OrderStatisticRank(s, h - 1);
      RankBounds(s, lower, lo);
      RankBounds(s, hi, lower);
      MiddleOrdered(s);
    }
  }

  /** In any arrangements of the values that put the right elements at the middle positions: for an odd count the median
      is the middle one, for an even count it lies half-way, rounded down, above the lower of the two. */
  lemma MedianLaw(s: seq<int>, a: seq<int>, b: seq<int>)
    requires s != [] && multiset(a) == multiset(s) && |a| == |s| && IsNth(a, |s| / 2)
    requires |s| % 2 == 0 ==> multiset(b) == multiset(s) && |b| == |s| && IsNth(b, |s| / 2 - 1)
    ensures |s| % 2 == 1 ==> MedianOf(s) == a[|s| / 2]
    ensures |s| % 2 == 0 ==> b[|s| / 2 - 1] <= a[|s| / 2] && MedianOf(s) == b[|s| / 2 - 1] + (a[|s| / 2] - b[|s| / 2 - 1]) / 2
  {
    hide Sort;
    NthIsOrderStatistic(a, s, |s| / 2);
    if |s| % 2 == 0 {
      NthIsOrderStatistic(b, s, |s| / 2 - 1);
      SortSorts(s);
    }
  }

  function Shift(s: seq<int>, c: int): (r: seq<int>)
    ensures |r| == |s|
  {
    seq(|s|, i requires 0 <= i < |s| => s[i] + c)
  }

  lemma {:induction false} InsertShift(x: int, s: seq<int>, c: int)
    ensures Insert(x + c, Shift(s, c)) == Shift(Insert(x, s), c)
  {
    hide Sort;
    if s == [] || x <= s[0] {
      assert Shift([x] + s, c) == [x + c] + Shift(s, c);
    } else {
      InsertShift(x, s[1..], c);
      assert Shift(s, c)[1..] == Shift(s[1..], c);
      assert Shift([s[0]] + Insert(x, s[1..]), c) == [s[0] + c] + Shift(Insert(x, s[1..]), c);
    }
  }

  lemma {:induction false} SortShift(s: seq<int>, c: int)
    ensures Sort(Shift(s, c)) == Shift(Sort(s), c)
  {
    if s != [] {
      SortShift(s[1..], c);
      assert Shift(s, c)[1..] == Shift(s[1..], c);
      InsertShift(s[0], Sort(s[1..]), c);
    }
  }

  /** Shifting every value shifts the median by the same amount. */
  lemma MedianShift(s: seq<int>, c: int)
    requires s != []
    ensures MedianOf(Shift(s, c)) == MedianOf(s) + c
  {
    SortShift(s, c);
  }

  lemma {:induction false} SortOfConstant(s: seq<int>, c: int)
    requires forall i :: 0 <= i < |s| ==> s[i] == c
    ensures forall i :: 0 <= i < |s| ==> Sort(s)[i] == c
  {
    SortSorts(s);
    forall i | 0 <= i < |s| ensures Sort(s)[i] == c {
      assert Sort(s)[i] in multiset(Sort(s));
      assert Sort(s)[i] in s;
    }
  }

  lemma MedianOfConstant(s: seq<int>, c: int)
    requires s != [] && forall i :: 0 <= i < |s| ==> s[i] == c
    ensures MedianOf(s) == c
  {
    SortOfConstant(s, c);
  }

  lemma MedianNonNegative(s: seq<int>)
    requires forall i :: 0 <= i < |s| ==> 0 <= s[i]
    ensures 0 <= MedianOf(s)
  {
    if s != [] {
      SortSorts(s);
      forall i | 0 <= i < |s| ensures 0 <= Sort(s)[i] {
        assert Sort(s)[i] in multiset(Sort(s));
        assert Sort(s)[i] in s;
      }
      if |s| % 2 == 0 {
        MiddleOrdered(s);
      }
    }
  }

  // ----- The in-place computation --------------------------------------------------------

  method Swap(a: array<int>, i: nat, j: nat)
    requires i < a.Length && j < a.Length
    modifies a
    ensures a[..] == old(a[..])[i := old(a[j])][j := old(a[i])]
    ensures multiset(a[..]) == multiset(old(a[..]))
  {
    a[i], a[j] := a[j], a[i];
  }

  /** `std::nth_element`, here by repeated selection of the minimum; callers use only its promise. */
  method NthElement(a: array<int>, n: nat)
    requires n < a.Length
    modifies a
    ensures multiset(a[..]) == multiset(old(a[..]))
    ensures IsNth(a[..], n)
  {
    var i := 0;
    while i <= n
      invariant i <= n + 1
      invariant multiset(a[..]) == multiset(old(a[..]))
      invariant forall p, q :: 0 <= p < i && p <= q < a.Length ==> a[p] <= a[q]
    {
      var least, j := i, i + 1;
      while j < a.Length
        invariant i <= least < j <= a.Length
        invariant forall q :: i <= q < j ==> a[least] <= a[q]
      {
        if a[j] < a[least] {
          least := j;
        }
        j := j + 1;
      }
      Swap(a, i, least);
      i := i + 1;
    }
  }

  /** Time.cpp's `median`: works on its own copy, with one or two in-place selections. */
  method Median(values: seq<int>) returns (m: int)
    ensures m == MedianOf(values)
  {
    if |values| == 0 {
      return 0;
    }
    var a := new int[|values|](i requires 0 <= i < |values| => values[i]);
    assert a[..] == values;
    var middle := |values| / 2;
    NthElement(a, middle);
    var upper := a[middle];
    NthIsOrderStatistic(a[..], values, middle);
    if |values| % 2 == 1 {
      return upper;
    }
    NthElement(a, middle - 1);
    NthIsOrderStatistic(a[..], values, middle - 1);
    m := Midpoint(a[middle - 1], upper);
  }
}
