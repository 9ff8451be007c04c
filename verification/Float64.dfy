/**
 The part of IEEE 754 binary64 arithmetic that the price computation uses: every product is
 rounded to the nearest number with a 53-bit significand, ties going to the even significand
 (section 4.3.1 of IEEE 754-2019), and Go's math.Round, which rounds half away from zero.
 Values are the reals the floats denote. The exponent is unbounded, so the model agrees with
 the machine for results that neither overflow nor underflow.
 */
module Float64 {
  const TWO_52: real := 4503599627370496.0
  const TWO_53: real := 9007199254740992.0

  function Abs(x: real): real {
    if x < 0.0 then -x else x
  }

  /** math.Round: half away from zero. */
  function RoundHalfAway(x: real): int {
    if x >= 0.0 then (x + 0.5).Floor else -((-x + 0.5).Floor)
  }

  /** Half-up rounding, as the design document promises it. */
  function RoundHalfUp(x: real): int {
    (x + 0.5).Floor
  }

  function RoundHalfEven(x: real): int {
    var f := x.Floor;
    var d := x - f as real;
    if d < 0.5 then f else if d > 0.5 then f + 1 else if f % 2 == 0 then f else f + 1
  }

  /** math.Round gives the nearest whole number, and at a half the one further from zero. */
  lemma RoundHalfAwayIsNearest(x: real, n: int)
    ensures Abs(RoundHalfAway(x) as real - x) <= Abs(n as real - x)
    ensures Abs(RoundHalfAway(x) as real - x) == 0.5 ==> Abs(RoundHalfAway(x) as real) > Abs(x)
  {
    var r := RoundHalfAway(x);
    assert Abs(r as real - x) <= 0.5;
    if n != r { assert Abs((n - r) as real) >= 1.0; }
  }

  lemma DivisionByTwoDrops(q: real)
    requires q >= 2.0
    ensures (q / 2.0).Floor < q.Floor
  {
  }

  lemma QuotientHalves(x: real)
    requires 0.0 < x < TWO_52
    ensures TWO_53 / x >= 2.0
    ensures TWO_53 / (2.0 * x) == (TWO_53 / x) / 2.0
  {
  }

  /** The positive binary64 number nearest to x: scale into [2^52, 2^53), round, scale back. */
  function NearestPositive(x: real): (y: real)
    requires x > 0.0
    decreases if x >= TWO_53 then x.Floor else if x < TWO_52 then (TWO_53 / x).Floor else 0
  {
    if x >= TWO_53 then
      DivisionByTwoDrops(x);
      2.0 * NearestPositive(x / 2.0)
    else if x < TWO_52 then
      QuotientHalves(x);
      DivisionByTwoDrops(TWO_53 / x);
      NearestPositive(2.0 * x) / 2.0
    else RoundHalfEven(x) as real
  }

  /** The binary64 number nearest to x, ties to even. */
  function Nearest(x: real): (y: real)
  {
    if x == 0.0 then 0.0 else if x > 0.0 then NearestPositive(x) else -NearestPositive(-x)
  }

  /** Multiplication of two binary64 numbers. */
  function FloatMul(x: real, y: real): real {
    Nearest(x * y)
  }

  /** How far x is from the binade [2^52, 2^53): the measure of NearestPositive. */
  ghost function Distance(x: real): int
    requires x > 0.0
  {
    if x >= TWO_53 then x.Floor else if x < TWO_52 then (TWO_53 / x).Floor else 0
  }

  lemma DistanceDrops(x: real)
    requires x > 0.0
    ensures x >= TWO_53 ==> 0 <= Distance(x / 2.0) < Distance(x)
    ensures x < TWO_52 ==> 0 <= Distance(2.0 * x) < Distance(x)
  {
  }

  // -------------------------------------------------------------- relative error

  /** The relative error of one rounding is at most 2^-53. */
  lemma {:induction false} NearestError(x: real)
    requires x >= 0.0
    ensures Nearest(x) >= 0.0
    ensures Abs(Nearest(x) - x) * TWO_53 <= x
    decreases if x > 0.0 then Distance(x) else 0
  {
    if x > 0.0 {
      DistanceDrops(x);
      if x >= TWO_53 { NearestError(x / 2.0); } else if x < TWO_52 { NearestError(2.0 * x); }
    }
  }

  // --------------------------------------------------------------- monotonicity

  /** Rounding does not cross the ends of the binade [2^52, 2^53]. */
  lemma {:induction false} BinadeEnds(x: real)
    requires x > 0.0
    ensures x < TWO_52 ==> NearestPositive(x) <= TWO_52
    ensures x >= TWO_52 ==> NearestPositive(x) >= TWO_52
    ensures x < TWO_53 ==> NearestPositive(x) <= TWO_53
    ensures x >= TWO_53 ==> NearestPositive(x) >= TWO_53
    decreases Distance(x)
  {
    DistanceDrops(x);
    if x >= TWO_53 { BinadeEnds(x / 2.0); } else if x < TWO_52 { BinadeEnds(2.0 * x); }
  }

  lemma EvenRoundingMonotone(x: real, y: real)
    requires x <= y
    ensures RoundHalfEven(x) <= RoundHalfEven(y)
  {
  }

  lemma {:induction false} NearestPositiveMonotone(x: real, y: real)
    requires 0.0 < x <= y
    ensures NearestPositive(x) <= NearestPositive(y)
    decreases Distance(x) + Distance(y)
  {
    BinadeEnds(x);
    BinadeEnds(y);
    if x >= TWO_53 {
      DistanceDrops(x);
      DistanceDrops(y);
      NearestPositiveMonotone(x / 2.0, y / 2.0);
    } else if y >= TWO_53 {
    } else if y < TWO_52 {
      DistanceDrops(x);
      DistanceDrops(y);
      NearestPositiveMonotone(2.0 * x, 2.0 * y);
    } else if x >= TWO_52 {
      EvenRoundingMonotone(x, y);
    }
  }

  lemma NearestMonotone(x: real, y: real)
    requires x <= y
    ensures Nearest(x) <= Nearest(y)
  {
    if x > 0.0 {
      NearestPositiveMonotone(x, y);
    } else if y < 0.0 {
      NearestPositiveMonotone(-y, -x);
    } else {
      if x < 0.0 { NearestError(-x); }
      if y > 0.0 { NearestError(y); }
    }
  }

  // ------------------------------------------------------ nearest representable

  /** x times 2^k. */
  function Shift(x: real, k: int): real
    decreases if k < 0 then -k else k
  {
    if k == 0 then x else if k > 0 then 2.0 * Shift(x, k - 1) else Shift(x, k + 1) / 2.0
  }

  /** x is the binary64 number with significand m and exponent k. */
  ghost predicate IsFloat(x: real, m: int, k: int) {
    Abs(m as real) <= TWO_53 && x == Shift(m as real, k)
  }

  /** x is a number with a 53-bit significand. */
  ghost predicate Representable(x: real) {
    exists m: int, k: int :: IsFloat(x, m, k)
  }

  lemma DoubleIsFloat(x: real, m: int, k: int)
    requires IsFloat(x, m, k)
    ensures IsFloat(2.0 * x, m, k + 1) && IsFloat(x / 2.0, m, k - 1)
  {
  }

  lemma {:induction false} ShiftUpIsWhole(m: int, k: nat) returns (n: int)
    ensures Shift(m as real, k) == n as real
  {
    if k == 0 {
      n := m;
    } else {
      var h := ShiftUpIsWhole(m, k - 1);
      n := 2 * h;
    }
  }

  lemma {:induction false} ShiftDownIsSmall(m: int, k: int)
    requires k < -1 && m as real <= TWO_53
    ensures Shift(m as real, k) < TWO_52
    decreases -k
  {
    if k < -2 {
      ShiftDownIsSmall(m, k + 1);
    } else {
      assert Shift(m as real, -1) == m as real / 2.0;
    }
  }

  /** From 2^52 on, binary64 numbers are whole. */
  lemma LargeFloatIsWhole(z: real, m: int, k: int)
    requires IsFloat(z, m, k) && z >= TWO_52
    ensures z == z.Floor as real
  {
    if k >= 0 {
      var n := ShiftUpIsWhole(m, k);
      assert n as real == z;
    } else if k == -1 {
      assert z == m as real / 2.0;
      assert m as real == TWO_53;
    } else {
      ShiftDownIsSmall(m, k);
    }
  }

  lemma EvenRoundingIsNearest(x: real, n: int)
    ensures Abs(RoundHalfEven(x) as real - x) <= Abs(n as real - x)
  {
    var f := x.Floor;
    if n <= f { assert n as real <= f as real; } else { assert n as real >= f as real + 1.0; }
  }

  /** Nearest(x) is a binary64 number, and none is nearer to x. */
  lemma {:induction false} NearestIsNearest(x: real, z: real)
    requires x > 0.0 && Representable(z)
    ensures Representable(Nearest(x))
    ensures Abs(Nearest(x) - x) <= Abs(z - x)
    decreases Distance(x)
  {
    DistanceDrops(x);
    var m, k :| IsFloat(z, m, k);
    DoubleIsFloat(z, m, k);
    if x >= TWO_53 {
      NearestIsNearest(x / 2.0, z / 2.0);
      var n, j :| IsFloat(Nearest(x / 2.0), n, j);
      DoubleIsFloat(Nearest(x / 2.0), n, j);
    } else if x < TWO_52 {
      NearestIsNearest(2.0 * x, 2.0 * z);
      var n, j :| IsFloat(Nearest(2.0 * x), n, j);
      DoubleIsFloat(Nearest(2.0 * x), n, j);
    } else {
      assert IsFloat(Nearest(x), RoundHalfEven(x), 0);
      EvenRoundingIsNearest(x, 4503599627370496);
      if z >= TWO_52 {
        LargeFloatIsWhole(z, m, k);
        EvenRoundingIsNearest(x, z.Floor);
      }
    }
  }

  /** Rounding is the same on both sides of zero. */
  lemma NearestMirrors(x: real)
    ensures Nearest(-x) == -Nearest(x)
  {
  }

  /** Rounding does nothing to a number that is representable already. */
  lemma NearestExact(x: real)
    requires x >= 0.0 && Representable(x)
    ensures Nearest(x) == x
  {
    if x > 0.0 {
      NearestIsNearest(x, x);
    }
  }
}
