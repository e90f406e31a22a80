/**
 * The integer partitioner `randomSplitInt` (frontend/src/utils/randomSplit.ts):
 * split `total` into `parts` integers by drawing `parts - 1` breakpoints,
 * adding the boundaries 0 and `total`, sorting, and taking consecutive
 * differences.
 *
 * The draws of `Math.random()` are an input `randoms`, each in [0, 1).
 * `Array.prototype.sort` with the comparator `(a, b) => a - b` is a routine of
 * the JavaScript runtime; it is modelled by the function `Sort` below, an
 * ascending sort whose result is a permutation of its input.
 */
module Partition {

  import opened Basics

  ghost predicate Sorted(s: seq<int>)
  {
    forall i, j :: 0 <= i < j < |s| ==> s[i] <= s[j]
  }

  function Insert(x: int, s: seq<int>): (r: seq<int>)
    ensures |r| == |s| + 1
  {
    if s == [] || x <= s[0] then [x] + s else [s[0]] + Insert(x, s[1..])
  }

  /** The ascending sort by insertion; `SortIsSortedPermutation` states what it computes. */
  function Sort(s: seq<int>): (r: seq<int>)
    ensures |r| == |s|
  {
    if s == [] then [] else Insert(s[0], Sort(s[1..]))
  }

  /** Insertion adds exactly the one element. */
  lemma {:induction false} InsertIsPermutation(x: int, s: seq<int>)
    ensures multiset(Insert(x, s)) == multiset(s) + multiset{x}
  {
    if s != [] && x > s[0] {
      assert s == [s[0]] + s[1..];
      InsertIsPermutation(x, s[1..]);
    }
  }

  /** Inserting into an ascending sequence keeps it ascending. */
  lemma {:induction false} InsertIsSorted(x: int, s: seq<int>)
    requires Sorted(s)
    ensures Sorted(Insert(x, s))
  {
    if s != [] && x > s[0] {
      var rest := Insert(x, s[1..]);
      InsertIsSorted(x, s[1..]);
      InsertIsPermutation(x, s[1..]);
      assert Insert(x, s) == [s[0]] + rest;
      forall j | 0 <= j < |rest|
        ensures s[0] <= rest[j]
      {
        assert rest[j] in multiset(rest);
        assert rest[j] in multiset(s[1..]) + multiset{x};
        if rest[j] != x {
          var k :| 0 <= k < |s[1..]| && s[1..][k] == rest[j];
          assert s[k + 1] == rest[j];
        }
      }
    }
  }

  /** Sort returns its input rearranged in ascending order. */
  lemma {:induction false} SortIsSortedPermutation(s: seq<int>)
    ensures multiset(Sort(s)) == multiset(s)
    ensures Sorted(Sort(s))
  {
    if s != [] {
      assert s == [s[0]] + s[1..];
      SortIsSortedPermutation(s[1..]);
      InsertIsPermutation(s[0], Sort(s[1..]));
      InsertIsSorted(s[0], Sort(s[1..]));
    }
  }

  /** One breakpoint `Math.floor(Math.random() * (total - 1)) + 1` for the draw `r`. */
  function Breakpoint(total: int, r: real): int
  {
    (r * (total - 1) as real).Floor + 1
  }

  function Breakpoints(total: int, randoms: seq<real>): (b: seq<int>)
    ensures |b| == |randoms|
    ensures forall i :: 0 <= i < |b| ==> b[i] == Breakpoint(total, randoms[i])
  {
    seq(|randoms|, i requires 0 <= i < |randoms| => Breakpoint(total, randoms[i]))
  }

  /** Consecutive differences `p[i + 1] - p[i]`. */
  function Differences(p: seq<int>): (d: seq<int>)
    ensures |d| == if |p| == 0 then 0 else |p| - 1
    ensures forall i :: 0 <= i < |d| ==> d[i] == p[i + 1] - p[i]
  {
    if |p| <= 1 then [] else Differences(p[..|p| - 1]) + [p[|p| - 1] - p[|p| - 2]]
  }

  /** The partition `randomSplitInt(total, parts)` makes from the draws `randoms`. */
  function SplitOf(total: int, parts: int, randoms: seq<real>): seq<int>
  {
    if parts <= 1 then [total] else Differences(Sort(Breakpoints(total, randoms) + [0, total]))
  }

  lemma ScaledDraw(r: real, t: real)
    requires 0.0 <= r < 1.0 && t >= 0.0
    ensures 0.0 <= r * t <= t
    ensures t > 0.0 ==> r * t < t
  {
    if t > 0.0 {
      assert (1.0 - r) * t > 0.0;
    }
  }

  lemma BreakpointBounds(total: int, r: real)
    requires 0.0 <= r < 1.0 && total >= 1
    ensures 1 <= Breakpoint(total, r) <= total
    ensures total >= 2 ==> Breakpoint(total, r) <= total - 1
  {
    var t := (total - 1) as real;
    ScaledDraw(r, t);
    var f := (r * t).Floor;
    assert f as real <= r * t < f as real + 1.0;
  }

  lemma {:induction false} TotalOfDifferences(p: seq<int>)
    requires |p| >= 1
    ensures Total(Differences(p)) == p[|p| - 1] - p[0]
  {
    if |p| > 1 {
      TotalOfDifferences(p[..|p| - 1]);
    }
  }

  /** In a sorted sequence, an element no larger than any other sits at the front. */
  lemma SortedFirst(s: seq<int>, x: int)
    requires Sorted(s) && x in s && forall y :: y in s ==> x <= y
    ensures s[0] == x
  {
    var k :| 0 <= k < |s| && s[k] == x;
    assert s[0] in s;
  }

  lemma SortedLast(s: seq<int>, x: int)
    requires Sorted(s) && x in s && forall y :: y in s ==> y <= x
    ensures s[|s| - 1] == x
  {
    var k :| 0 <= k < |s| && s[k] == x;
    assert s[|s| - 1] in s;
  }

  /** Two equal elements at the front of a sequence appear twice in its multiset. */
  lemma CountFront(s: seq<int>, x: int)
    requires |s| >= 2 && s[0] == x && s[1] == x
    ensures multiset(s)[x] >= 2
  {
    assert s == [s[0], s[1]] + s[2..];
  }

  lemma CountBack(s: seq<int>, x: int)
    requires |s| >= 2 && s[|s| - 2] == x && s[|s| - 1] == x
    ensures multiset(s)[x] >= 2
  {
    assert s == s[..|s| - 2] + [s[|s| - 2], s[|s| - 1]];
  }

  /** Facts about the sorted points `Sort(bps + [0, total])` when every breakpoint lies in [1, total]. */
  lemma SortedPoints(bps: seq<int>, total: int)
    requires total >= 1
    requires forall i :: 0 <= i < |bps| ==> 1 <= bps[i] <= total
    ensures var p := Sort(bps + [0, total]);
      p[0] == 0 && p[|p| - 1] == total
    ensures var p := Sort(bps + [0, total]);
      total >= 2 && |bps| >= 1 && (forall i :: 0 <= i < |bps| ==> bps[i] <= total - 1) ==>
        p[1] >= 1 && p[|p| - 2] <= total - 1
  {
    var all := bps + [0, total];
    var p := Sort(all);
    SortIsSortedPermutation(all);
    forall y | y in p
      ensures 0 <= y <= total && (y == 0 || y == total || y in bps)
    {
      assert y in multiset(p);
      assert y in all;
      if y in bps {
        var i :| 0 <= i < |bps| && bps[i] == y;
      }
    }
    assert 0 in multiset(all) && total in multiset(all);
    assert 0 in multiset(p) && total in multiset(p);
    SortedFirst(p, 0);
    SortedLast(p, total);
    if total >= 2 && |bps| >= 1 && (forall i :: 0 <= i < |bps| ==> bps[i] <= total - 1) {
      assert 0 !in bps && total !in bps;
      assert multiset(all)[0] == 1 && multiset(all)[total] == 1;
      if p[1] < 1 {
        assert p[1] in p;
        CountFront(p, 0);
      }
      if p[|p| - 2] > total - 1 {
        assert p[|p| - 2] in p;
        CountBack(p, total);
      }
    }
  }

  /** With no more than one part the result is `[total]`; otherwise it has exactly `parts` entries. */
  lemma SplitLength(total: int, parts: int, randoms: seq<real>)
    requires parts > 1 ==> |randoms| == parts - 1
    ensures parts <= 1 ==> SplitOf(total, parts, randoms) == [total]
    ensures parts > 1 ==> |SplitOf(total, parts, randoms)| == parts
  {
  }

  /** Every part is non-negative because the points are sorted ascending. */
  lemma SplitNonNegative(total: int, parts: int, randoms: seq<real>)
    requires parts > 1 && |randoms| == parts - 1
    ensures forall i :: 0 <= i < |SplitOf(total, parts, randoms)| ==> SplitOf(total, parts, randoms)[i] >= 0
  {
    var p := Sort(Breakpoints(total, randoms) + [0, total]);
    SortIsSortedPermutation(Breakpoints(total, randoms) + [0, total]);
    var d := Differences(p);
    forall i | 0 <= i < |d|
      ensures d[i] >= 0
    {
      assert p[i] <= p[i + 1];
    }
  }

  /**
   * For `total >= 1` the parts sum to `total` (the differences telescope from 0
   * to `total`); for `total >= 2` the first and the last part are at least 1.
   */
  lemma SplitSumAndEnds(total: int, parts: int, randoms: seq<real>)
    requires parts > 1 && |randoms| == parts - 1
    requires forall i :: 0 <= i < |randoms| ==> 0.0 <= randoms[i] < 1.0
    requires total >= 1
    ensures Total(SplitOf(total, parts, randoms)) == total
    ensures total >= 2 ==> SplitOf(total, parts, randoms)[0] >= 1
    ensures total >= 2 ==> SplitOf(total, parts, randoms)[parts - 1] >= 1
  {
    var bps := Breakpoints(total, randoms);
    forall i | 0 <= i < |bps|
      ensures 1 <= bps[i] <= total && (total >= 2 ==> bps[i] <= total - 1)
    {
      BreakpointBounds(total, randoms[i]);
    }
    SortedPoints(bps, total);
    TotalOfDifferences(Sort(bps + [0, total]));
  }

  /** `total` itself when there is at most one part, whatever the draws. */
  lemma SinglePart(total: int, randoms: seq<real>)
    ensures SplitOf(total, 1, randoms) == [total]
  {
  }

  lemma SortExample()
    ensures Sort([5, 5, 0, 10]) == [0, 5, 5, 10]
  {
    var all := [5, 5, 0, 10];
    assert all[1..] == [5, 0, 10] && all[1..][1..] == [0, 10] && all[1..][1..][1..] == [10];
    assert Sort([0, 10]) == [0, 10];
    assert Sort([5, 0, 10]) == [0, 5, 10];
    assert [0, 5, 10][1..] == [5, 10];
    assert Insert(5, [5, 10]) == [5, 5, 10];
    assert Insert(5, [0, 5, 10]) == [0] + Insert(5, [5, 10]);
    assert Sort(all) == Insert(5, Sort([5, 0, 10]));
    assert [0] + [5, 5, 10] == [0, 5, 5, 10];
    assert Sort(all) == [0, 5, 5, 10];
  }

  lemma DifferencesExample()
    ensures Differences([0, 5, 5, 10]) == [5, 0, 5]
  {
    var p := [0, 5, 5, 10];
    assert p[..3] == [0, 5, 5] && p[..3][..2] == [0, 5];
  }

  /** Breakpoints are not made distinct: two equal draws give an interior part of 0. */
  lemma InteriorPartCanBeZero()
    ensures SplitOf(10, 3, [0.5, 0.5]) == [5, 0, 5]
  {
    assert (0.5 * 9.0).Floor == 4;
    assert Breakpoints(10, [0.5, 0.5]) + [0, 10] == [5, 5, 0, 10];
    SortExample();
    DifferencesExample();
  }

  /**
   * randomSplitInt: the model pushes 0 and `total` after the breakpoints, sorts
   * them and collects the consecutive differences, so its result is `SplitOf`,
   * whose length, sum, sign and end parts are stated by the lemmas above.
   */
  method RandomSplitInt(total: int, parts: int, randoms: seq<real>) returns (result: seq<int>)
    requires parts > 1 ==> |randoms| == parts - 1
    requires forall i :: 0 <= i < |randoms| ==> 0.0 <= randoms[i] < 1.0
    ensures result == SplitOf(total, parts, randoms)
    ensures |result| == if parts <= 1 then 1 else parts
    ensures parts > 1 ==> forall i :: 0 <= i < |result| ==> result[i] >= 0
    ensures total >= 1 ==> Total(result) == total
    ensures total >= 2 ==> result[0] >= 1 && result[|result| - 1] >= 1
  {
    if parts <= 1 {
      return [total];
    }
    var points := Breakpoints(total, randoms);
    points := points + [0, total];
    points := Sort(points);
    result := [];
    for i := 0 to parts
      invariant |result| == i
      invariant forall k :: 0 <= k < i ==> result[k] == points[k + 1] - points[k]
    {
      result := result + [points[i + 1] - points[i]];
    }
    assert |points| == parts + 1;
    var d := Differences(points);
    assert |d| == |result|;
    forall k | 0 <= k < |d|
      ensures d[k] == result[k]
    {
      assert d[k] == points[k + 1] - points[k];
      assert result[k] == points[k + 1] - points[k];
    }
    assert result == d;
    assert result == SplitOf(total, parts, randoms);
    SplitLength(total, parts, randoms);
    SplitNonNegative(total, parts, randoms);
    if total >= 1 {
      SplitSumAndEnds(total, parts, randoms);
    }
  }
}
