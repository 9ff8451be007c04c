/**
 Where rounding to binary64 meets rounding to whole numbers: when a real is rounded onto, or past,
 a point k + 1/2.
 */
module Ties {
  import opened Float64

  /** The distance between neighbouring binary64 numbers in the binade of x. */
  function Spacing(x: real): (u: real)
    requires x > 0.0
    ensures u > 0.0
    decreases if x >= TWO_53 then x.Floor else if x < TWO_52 then (TWO_53 / x).Floor else 0
  {
    if x >= TWO_53 then
      DivisionByTwoDrops(x);
      2.0 * Spacing(x / 2.0)
    else if x < TWO_52 then
      QuotientHalves(x);
      DivisionByTwoDrops(TWO_53 / x);
      Spacing(2.0 * x) / 2.0
    else 1.0
  }

  /** The n-th multiple of that spacing: the binary64 numbers of the binade, and beyond. */
  function Grid(x: real, n: int): real
    requires x > 0.0
    decreases if x >= TWO_53 then x.Floor else if x < TWO_52 then (TWO_53 / x).Floor else 0
  {
    if x >= TWO_53 then
      DivisionByTwoDrops(x);
      2.0 * Grid(x / 2.0, n)
    else if x < TWO_52 then
      QuotientHalves(x);
      DivisionByTwoDrops(TWO_53 / x);
      Grid(2.0 * x, n) / 2.0
    else n as real
  }

  lemma {:induction false} GridIsMultiple(x: real, n: int)
    requires x > 0.0
    ensures Grid(x, n) == n as real * Spacing(x)
    decreases Distance(x)
  {
    DistanceDrops(x);
    if x >= TWO_53 { GridIsMultiple(x / 2.0, n); } else if x < TWO_52 { GridIsMultiple(2.0 * x, n); }
  }

  /** x is within half a spacing of z, the n-th multiple; exactly half goes to even multiples. */
  predicate RoundsOnto(x: real, z: real, spacing: real, n: int) {
    2.0 * Abs(z - x) < spacing || (2.0 * Abs(z - x) == spacing && n % 2 == 0)
  }

  /** The binary64 number nearest to x is the multiple of the spacing that x rounds onto. */
  lemma {:induction false} NearestOnto(x: real, n: int)
    requires x > 0.0
    ensures NearestPositive(x) == Grid(x, n) <==> RoundsOnto(x, Grid(x, n), Spacing(x), n)
    decreases Distance(x)
  {
    DistanceDrops(x);
    if x >= TWO_53 { NearestOnto(x / 2.0, n); } else if x < TWO_52 { NearestOnto(2.0 * x, n); }
  }

  lemma {:induction false} NearestIsMultiple(x: real) returns (n: int)
    requires x > 0.0
    ensures NearestPositive(x) == Grid(x, n)
    decreases Distance(x)
  {
    DistanceDrops(x);
    if x >= TWO_53 {
      n := NearestIsMultiple(x / 2.0);
    } else if x < TWO_52 {
      n := NearestIsMultiple(2.0 * x);
    } else {
      n := RoundHalfEven(x);
    }
  }

  /** Below 2^52 every k + 1/2 is a multiple of the spacing, an odd one only where that is 1/2. */
  lemma {:induction false} TieIsMultiple(x: real, k: int) returns (n: int)
    requires 0.0 < x < TWO_52
    ensures k as real + 0.5 == Grid(x, n)
    ensures Spacing(x) <= 0.5 && (n % 2 == 0 <==> Spacing(x) < 0.5)
    decreases Distance(x)
  {
    DistanceDrops(x);
    if 2.0 * x < TWO_52 {
      var m := TieIsMultiple(2.0 * x, k);
      n := 2 * m;
      GridDoubles(2.0 * x, m);
    } else {
      n := 2 * k + 1;
      assert Spacing(2.0 * x) == 1.0 && Grid(2.0 * x, n) == n as real;
    }
  }

  lemma {:induction false} GridDoubles(x: real, n: int)
    requires x > 0.0
    ensures Grid(x, 2 * n) == 2.0 * Grid(x, n)
    decreases Distance(x)
  {
    DistanceDrops(x);
    if x >= TWO_53 { GridDoubles(x / 2.0, n); } else if x < TWO_52 { GridDoubles(2.0 * x, n); }
  }

  lemma TieIsFloat(k: int)
    requires 0 <= k && k as real + 0.5 <= TWO_52
    ensures Nearest(k as real + 0.5) == k as real + 0.5
  {
    var m := 2 * k + 1;
    assert Shift(m as real, 0) == m as real;
    assert Shift(m as real, -1) == m as real / 2.0;
    assert IsFloat(k as real + 0.5, m, -1);
    NearestExact(k as real + 0.5);
  }

  /** x lies below k + 1/2, by at most half the spacing there, and less than that where it is 1/2:
      rounding x to binary64 gives k + 1/2. */
  predicate JustBelowTie(k: int, x: real) {
    && 0.0 < x < k as real + 0.5
    && var gap := 2.0 * (k as real + 0.5 - x);
       gap < Spacing(x) || gap == Spacing(x) < 0.5
  }

  /** A number below 2^52 is rounded to k + 1/2 or more exactly if it is there, or just below. */
  lemma ReachesTie(k: int, x: real)
    requires 0.0 <= x < TWO_52
    ensures Nearest(x) >= k as real + 0.5 <==> x >= k as real + 0.5 || JustBelowTie(k, x)
  {
    var tie := k as real + 0.5;
    if x == 0.0 || k < 0 {
      NearestError(x);
    } else if x >= tie {
      TieIsFloat(k);
      NearestMonotone(tie, x);
    } else {
      var n := TieIsMultiple(x, k);
      NearestOnto(x, n);
      BinadeEnds(x);
      if tie <= TWO_52 {
        TieIsFloat(k);
        NearestMonotone(x, tie);
      }
    }
  }

  lemma RoundsBelow(x: real, k: int)
    ensures RoundHalfUp(x) <= k <==> x < k as real + 0.5
  {
  }
}
