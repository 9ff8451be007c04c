/**
 When the price is the exact product rounded half up, as the design document promises: the exact
 conditions on the base amount and the multipliers.
 */
module HalfUp {
  import opened Float64
  import opened Fine
  import opened Ties

  /** The real product that the second multiplication rounds: only the first one is rounded in it. */
  function OnceRounded(base: int, time: real, repeat: real): real {
    FloatMul(Nearest(base as real), time) * repeat
  }

  lemma OnceRoundedThenNearest(base: int, time: real, repeat: real)
    ensures Nearest(OnceRounded(base, time, repeat)) == Product(base, time, repeat)
  {
  }

  lemma OnceRoundedNonNegative(base: int, time: real, repeat: real)
    requires base >= 0 && time >= 0.0 && repeat >= 0.0
    ensures OnceRounded(base, time, repeat) >= 0.0
  {
    NearestError(base as real);
    StepNonNegative(Nearest(base as real), time);
    StepNonNegative(FloatMul(Nearest(base as real), time), repeat);
  }

  lemma PriceRoundsProduct(base: int, time: real, repeat: real)
    requires base >= 0 && time >= 0.0 && repeat >= 0.0
    ensures FinalAmount(base, time, repeat) == RoundHalfUp(Nearest(OnceRounded(base, time, repeat))) >= 0
  {
    OnceRoundedThenNearest(base, time, repeat);
    ProductNonNegative(base, time, repeat);
  }

  /** The price exceeds k exactly if that product reaches k + 1/2, or lies just below it. */
  lemma PriceExceedsIff(base: int, time: real, repeat: real, k: int)
    requires base >= 0 && time >= 0.0 && repeat >= 0.0 && OnceRounded(base, time, repeat) < TWO_52
    ensures var x := OnceRounded(base, time, repeat);
            FinalAmount(base, time, repeat) > k <==> x >= k as real + 0.5 || JustBelowTie(k, x)
  {
    OnceRoundedNonNegative(base, time, repeat);
    PriceRoundsProduct(base, time, repeat);
    var x := OnceRounded(base, time, repeat);
    ReachesTie(k, x);
    RoundsBelow(Nearest(x), k);
  }

  /** Whether the first rounding moves the product across k + 1/2, or leaves it just below. */
  predicate Crosses(k: int, exact: real, x: real) {
    (exact >= k as real + 0.5) != (x >= k as real + 0.5 || JustBelowTie(k, x))
  }

  /** Below 2^52 the price is the exact half-up one if and only if the first rounding moves the product
      across no k + 1/2 and leaves it just below none. */
  lemma PriceExactIff(base: int, time: real, repeat: real)
    requires base >= 0 && time >= 0.0 && repeat >= 0.0 && OnceRounded(base, time, repeat) < TWO_52
    ensures var exact := ExactProduct(base, time, repeat);
            FinalAmount(base, time, repeat) == RoundHalfUp(exact)
            <==> !exists k :: Crosses(k, exact, OnceRounded(base, time, repeat))
  {
    var exact, x, price := ExactProduct(base, time, repeat), OnceRounded(base, time, repeat), FinalAmount(base, time, repeat);
    forall k ensures Crosses(k, exact, x) <==> (RoundHalfUp(exact) > k) != (price > k) {
      PriceExceedsIff(base, time, repeat, k);
      RoundsBelow(exact, k);
    }
    if price > RoundHalfUp(exact) { assert Crosses(price - 1, exact, x); }
    if price < RoundHalfUp(exact) { assert Crosses(price, exact, x); }
  }

  lemma FirstProductExact(base: int, time: real, repeat: real)
    requires 0 <= base <= 9007199254740992 && time >= 0.0 && Representable(base as real * time)
    ensures OnceRounded(base, time, repeat) == ExactProduct(base, time, repeat)
  {
    WholeIsFloat(base);
    StepExact(base as real, time, base as real * time);
  }

  /** When the first product fits a significand, only a product just below a k + 1/2 is mispriced. */
  lemma OneRoundingExactIff(base: int, time: real, repeat: real)
    requires 0 <= base <= 9007199254740992 && time >= 0.0 && repeat >= 0.0
    requires Representable(base as real * time) && ExactProduct(base, time, repeat) < TWO_52
    ensures var exact := ExactProduct(base, time, repeat);
            FinalAmount(base, time, repeat) == RoundHalfUp(exact) <==> !exists k :: JustBelowTie(k, exact)
  {
    var exact := ExactProduct(base, time, repeat);
    FirstProductExact(base, time, repeat);
    PriceExactIff(base, time, repeat);
    NeverCrosses(exact);
  }

  lemma NeverCrosses(exact: real)
    ensures forall k :: Crosses(k, exact, exact) <==> JustBelowTie(k, exact)
  {
  }

  /** h is a multiple of the spacing at x, and the one x rounds onto. */
  predicate MultipleOnto(h: int, x: real, n: int)
    requires x > 0.0
  {
    h as real == Grid(x, n) && RoundsOnto(x, h as real, Spacing(x), n)
  }

  lemma {:induction false} NearestIsWhole(x: real) returns (n: int)
    requires x >= TWO_52
    ensures NearestPositive(x) == n as real
    decreases Distance(x)
  {
    DistanceDrops(x);
    if x >= TWO_53 {
      var m := NearestIsWhole(x / 2.0);
      n := 2 * m;
    } else {
      n := RoundHalfEven(x);
    }
  }

  lemma NearestMultipleIff(h: int, x: real)
    requires x > 0.0
    ensures NearestPositive(x) == h as real <==> exists n :: MultipleOnto(h, x, n)
  {
    var m := NearestIsMultiple(x);
    if NearestPositive(x) == h as real {
      NearestOnto(x, m);
      assert MultipleOnto(h, x, m);
    }
    forall n | MultipleOnto(h, x, n) ensures NearestPositive(x) == h as real { NearestOnto(x, n); }
  }

  /** From 2^52 on there are no halves: the price is exact if and only if the half-up rounding of the
      exact product is a multiple of the spacing, and the one the second product rounds onto. */
  lemma LargePriceExactIff(base: int, time: real, repeat: real)
    requires base >= 0 && time >= 0.0 && repeat >= 0.0 && OnceRounded(base, time, repeat) >= TWO_52
    ensures var h, x := RoundHalfUp(ExactProduct(base, time, repeat)), OnceRounded(base, time, repeat);
            FinalAmount(base, time, repeat) == h <==> exists n :: MultipleOnto(h, x, n)
  {
    var h, x := RoundHalfUp(ExactProduct(base, time, repeat)), OnceRounded(base, time, repeat);
    PriceRoundsProduct(base, time, repeat);
    var whole := NearestIsWhole(x);
    assert RoundHalfUp(whole as real) == whole;
    NearestMultipleIff(h, x);
  }

  // ---------------------------------------------------- far from every k + 1/2

  /** The computed product is within 2.1 * 2^-53 of the exact one, relative to it. */
  lemma ProductRelativeError(base: int, time: real, repeat: real)
    requires 0 <= base <= 9007199254740992 && time >= 0.0 && repeat >= 0.0
    ensures var exact := ExactProduct(base, time, repeat);
            exact >= 0.0 && Abs(Product(base, time, repeat) - exact) * TWO_53 <= 2.1 * exact
  {
    var b, p := ProductSteps(base, time, repeat);
    WholeIsFloat(base);
    StepNonNegative(b, time);
    StepNonNegative(p, repeat);
    RelativeRoundings(b * time, repeat, p, FloatMul(p, repeat), ExactProduct(base, time, repeat));
  }

  lemma RelativeRoundings(x: real, r: real, p: real, q: real, exact: real)
    requires x >= 0.0 && r >= 0.0 && exact == x * r
    requires p >= 0.0 && Abs(p - x) * TWO_53 <= x
    requires Abs(q - p * r) * TWO_53 <= p * r
    ensures exact >= 0.0 && Abs(q - exact) * TWO_53 <= 2.1 * exact
  {
    MulMono(r, 0.0, x);
    ScaledError(p, x, x, r);
    ScaledError(x, p, x, r);
    ErrorsAdd(p * r, q, exact);
  }

  /** A difference, scaled, that another number bounds stays bounded when all are multiplied. */
  lemma ScaledError(a: real, b: real, bound: real, r: real)
    requires r >= 0.0 && (a - b) * TWO_53 <= bound
    ensures (a * r - b * r) * TWO_53 <= bound * r
  {
    var d := a - b;
    Distributes(d, a, b, r);
    Reorders(d, TWO_53, r);
    MulMono(r, d * TWO_53, bound);
  }

  lemma Distributes(d: real, a: real, b: real, r: real)
    requires d == a - b
    ensures d * r == a * r - b * r
  {
  }

  lemma Reorders(d: real, t: real, r: real)
    ensures (d * t) * r == (d * r) * t
  {
  }

  lemma ErrorsAdd(once: real, q: real, exact: real)
    requires 0.0 <= exact && (once - exact) * TWO_53 <= exact && (exact - once) * TWO_53 <= exact
    requires Abs(q - once) * TWO_53 <= once
    ensures Abs(q - exact) * TWO_53 <= 2.1 * exact
  {
  }

  predicate FarFromTie(k: int, exact: real) {
    Abs(k as real + 0.5 - exact) * TWO_53 > 2.1 * exact
  }

  /** For every base up to 2^53: a product that keeps that distance from every k + 1/2 is priced exactly. */
  lemma FarFromTiesExact(base: int, time: real, repeat: real)
    requires 0 <= base <= 9007199254740992 && time >= 0.0 && repeat >= 0.0
    requires forall k :: FarFromTie(k, ExactProduct(base, time, repeat))
    ensures FinalAmount(base, time, repeat) == RoundHalfUp(ExactProduct(base, time, repeat))
  {
    var exact, computed := ExactProduct(base, time, repeat), Product(base, time, repeat);
    ProductNonNegative(base, time, repeat);
    ProductRelativeError(base, time, repeat);
    var k := RoundHalfUp(exact);
    assert FarFromTie(k, exact) && FarFromTie(k - 1, exact);
    RoundsBelow(exact, k);
    RoundsBelow(computed, k);
    RoundsBelow(exact, k - 1);
    RoundsBelow(computed, k - 1);
  }
}
