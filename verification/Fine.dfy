/**
 The fine calculation: a versioned ruleset, its validation, and the price of one violation as
 base amount x time multiplier x repeat multiplier, computed in binary64 and rounded to rupiah.
 */
module Fine {
  import opened Float64

  const MS_PER_HOUR: int := 3_600_000

  const VIOLATION_TYPES: seq<string> := ["expired_meter", "no_parking_zone", "blocking_hydrant", "disabled_spot"]

  datatype RepeatTier = RepeatTier(minPriorUnpaid: int, multiplier: real)

  datatype TimeMultiplier = TimeMultiplier(
    dayStartHour: int, nightStartHour: int, dayMultiplier: real, nightMultiplier: real)

  datatype Ruleset = Ruleset(baseAmounts: map<string, int>, time: TimeMultiplier, tiers: seq<RepeatTier>)

  /** A Go time: an instant in milliseconds, and the zone offset its wall clock is read in. */
  datatype Stamp = Stamp(instant: int, offset: int)

  datatype Breakdown = Breakdown(
    baseAmount: int, timeMultiplier: real, repeatMultiplier: real, priorUnpaid: int, finalAmount: int)

  datatype Priced = Priced(breakdown: Breakdown) | UnknownType

  datatype Verdict =
    | Accepted
    | MissingBase(violationType: string)
    | NonPositiveBase(violationType: string)
    | NonPositiveTimeMultiplier
    | HourOutOfRange
    | NoTiers
    | NonPositiveRepeatMultiplier
    | NegativeThreshold

  // ----------------------------------------------------------------- calculation

  function Hour(at: Stamp): int {
    ((at.instant + at.offset) / MS_PER_HOUR) % 24
  }

  function TimeFor(t: TimeMultiplier, at: Stamp): real {
    if t.dayStartHour <= Hour(at) < t.nightStartHour then t.dayMultiplier else t.nightMultiplier
  }

  predicate Satisfied(tier: RepeatTier, priorUnpaid: int) {
    priorUnpaid >= tier.minPriorUnpaid
  }

  /** Index of the last satisfied tier in list order, -1 if none is. */
  function LastSatisfied(tiers: seq<RepeatTier>, priorUnpaid: int): (i: int)
    ensures -1 <= i < |tiers|
    ensures i >= 0 ==> Satisfied(tiers[i], priorUnpaid)
    ensures forall j :: i < j < |tiers| ==> !Satisfied(tiers[j], priorUnpaid)
  {
    if tiers == [] then -1
    else if Satisfied(tiers[|tiers| - 1], priorUnpaid) then |tiers| - 1
    else LastSatisfied(tiers[..|tiers| - 1], priorUnpaid)
  }

  function RepeatFor(tiers: seq<RepeatTier>, priorUnpaid: int): real {
    var i := LastSatisfied(tiers, priorUnpaid);
    if i < 0 then 1.0 else tiers[i].multiplier
  }

  /** The loop over the tiers: later satisfied tiers overwrite earlier ones. */
  method SelectRepeat(tiers: seq<RepeatTier>, priorUnpaid: int) returns (mult: real)
    ensures mult == RepeatFor(tiers, priorUnpaid)
  {
    mult := 1.0;
    for i := 0 to |tiers|
      invariant mult == RepeatFor(tiers[..i], priorUnpaid)
    {
      assert tiers[..i + 1][..i] == tiers[..i];
      if Satisfied(tiers[i], priorUnpaid) {
        mult := tiers[i].multiplier;
      }
    }
    assert tiers[..|tiers|] == tiers;
  }

  /** The product as the service computes it: left to right, each product rounded to binary64. */
  function Product(base: int, time: real, repeat: real): real {
    FloatMul(FloatMul(Nearest(base as real), time), repeat)
  }

  function FinalAmount(base: int, time: real, repeat: real): int {
    RoundHalfAway(Product(base, time, repeat))
  }

  function Calculate(r: Ruleset, violationType: string, at: Stamp, priorUnpaid: int): Priced {
    if violationType !in r.baseAmounts then UnknownType else
    var base := r.baseAmounts[violationType];
    var time := TimeFor(r.time, at);
    var repeat := RepeatFor(r.tiers, priorUnpaid);
    Priced(Breakdown(base, time, repeat, priorUnpaid, FinalAmount(base, time, repeat)))
  }

  // ------------------------------------------------------------------ validation

  predicate ValidHour(h: int) {
    0 <= h <= 23
  }

  predicate ValidTier(t: RepeatTier) {
    t.multiplier > 0.0 && t.minPriorUnpaid >= 0
  }

  /** What a publishable ruleset is. */
  predicate Valid(r: Ruleset) {
    && (forall t | t in VIOLATION_TYPES :: t in r.baseAmounts && r.baseAmounts[t] > 0)
    && r.time.dayMultiplier > 0.0 && r.time.nightMultiplier > 0.0
    && ValidHour(r.time.dayStartHour) && ValidHour(r.time.nightStartHour)
    && r.tiers != []
    && forall t | t in r.tiers :: ValidTier(t)
  }

  /** Whether a verdict names a defect the ruleset really has. */
  predicate Justified(r: Ruleset, v: Verdict) {
    match v
    case Accepted => Valid(r)
    case MissingBase(t) => t in VIOLATION_TYPES && t !in r.baseAmounts
    case NonPositiveBase(t) => t in VIOLATION_TYPES && t in r.baseAmounts && r.baseAmounts[t] <= 0
    case NonPositiveTimeMultiplier => r.time.dayMultiplier <= 0.0 || r.time.nightMultiplier <= 0.0
    case HourOutOfRange => !ValidHour(r.time.dayStartHour) || !ValidHour(r.time.nightStartHour)
    case NoTiers => r.tiers == []
    case NonPositiveRepeatMultiplier => exists t | t in r.tiers :: t.multiplier <= 0.0
    case NegativeThreshold => exists t | t in r.tiers :: t.minPriorUnpaid < 0
  }

  method Validate(r: Ruleset) returns (v: Verdict)
    ensures v.Accepted? <==> Valid(r)
    ensures Justified(r, v)
    ensures v.Accepted? <==>
      && (forall t | t in ["expired_meter", "no_parking_zone", "blocking_hydrant", "disabled_spot"] ::
            t in r.baseAmounts && r.baseAmounts[t] > 0)
      && r.time.dayMultiplier > 0.0 && r.time.nightMultiplier > 0.0
      && 0 <= r.time.dayStartHour < 24 && 0 <= r.time.nightStartHour < 24
      && |r.tiers| > 0 && forall t | t in r.tiers :: t.multiplier > 0.0 && t.minPriorUnpaid >= 0
  {
    for i := 0 to |VIOLATION_TYPES|
      invariant forall k :: 0 <= k < i ==>
        VIOLATION_TYPES[k] in r.baseAmounts && r.baseAmounts[VIOLATION_TYPES[k]] > 0
    {
      var t := VIOLATION_TYPES[i];
      assert t in VIOLATION_TYPES;
      if t !in r.baseAmounts { return MissingBase(t); }
      if r.baseAmounts[t] <= 0 { return NonPositiveBase(t); }
    }
    if r.time.dayMultiplier <= 0.0 || r.time.nightMultiplier <= 0.0 { return NonPositiveTimeMultiplier; }
    if !ValidHour(r.time.dayStartHour) || !ValidHour(r.time.nightStartHour) { return HourOutOfRange; }
    if r.tiers == [] { return NoTiers; }
    for i := 0 to |r.tiers|
      invariant forall k :: 0 <= k < i ==> ValidTier(r.tiers[k])
    {
      assert r.tiers[i] in r.tiers;
      if r.tiers[i].multiplier <= 0.0 { return NonPositiveRepeatMultiplier; }
      if r.tiers[i].minPriorUnpaid < 0 { return NegativeThreshold; }
    }
    return Accepted;
  }

  /** The day-one ruleset. */
  function DefaultRuleset(): (r: Ruleset)
    ensures Valid(r)
  {
    Ruleset(
      map["expired_meter" := 50_000, "no_parking_zone" := 150_000,
          "blocking_hydrant" := 250_000, "disabled_spot" := 500_000],
      TimeMultiplier(6, 22, 1.0, 1.5),
      [RepeatTier(0, 1.0), RepeatTier(1, 1.5), RepeatTier(2, 2.0)])
  }

  /** A validated ruleset prices every known type, at any time and count, with positive factors. */
  lemma ValidRulesetPrices(r: Ruleset, violationType: string, at: Stamp, priorUnpaid: int)
    requires Valid(r) && violationType in VIOLATION_TYPES
    ensures Calculate(r, violationType, at, priorUnpaid).Priced?
    ensures var b := Calculate(r, violationType, at, priorUnpaid).breakdown;
            b.baseAmount > 0 && b.timeMultiplier > 0.0 && b.repeatMultiplier > 0.0 && b.finalAmount >= 0
  {
    var base := r.baseAmounts[violationType];
    var time := TimeFor(r.time, at);
    var i := LastSatisfied(r.tiers, priorUnpaid);
    if i >= 0 { assert r.tiers[i] in r.tiers; }
    var repeat := RepeatFor(r.tiers, priorUnpaid);
    ProductNonNegative(base, time, repeat);
  }

  // --------------------------------------------------------------- tier selection

  /** The documented rule: the highest satisfied threshold wins, the later tier among equals. */
  ghost predicate Wins(tiers: seq<RepeatTier>, priorUnpaid: int, i: int) {
    && 0 <= i < |tiers|
    && Satisfied(tiers[i], priorUnpaid)
    && forall j :: 0 <= j < |tiers| && Satisfied(tiers[j], priorUnpaid) ==>
         tiers[j].minPriorUnpaid < tiers[i].minPriorUnpaid
         || (tiers[j].minPriorUnpaid == tiers[i].minPriorUnpaid && j <= i)
  }

  /** The loop answers, for every count, what the documented rule answers. */
  ghost predicate FollowsDocument(tiers: seq<RepeatTier>) {
    forall priorUnpaid: nat, i :: Wins(tiers, priorUnpaid, i) ==> RepeatFor(tiers, priorUnpaid) == tiers[i].multiplier
  }

  /** Tier i is the last one with its threshold. */
  predicate LastOfThreshold(tiers: seq<RepeatTier>, i: int) {
    0 <= i < |tiers| && forall j :: i < j < |tiers| ==> tiers[j].minPriorUnpaid != tiers[i].minPriorUnpaid
  }

  /** Tier j is the last one whose threshold is at most that of tier i. */
  predicate LastUpTo(tiers: seq<RepeatTier>, i: int, j: int)
    requires 0 <= i < |tiers|
  {
    && 0 <= j < |tiers| && tiers[j].minPriorUnpaid <= tiers[i].minPriorUnpaid
    && forall k :: j < k < |tiers| ==> tiers[k].minPriorUnpaid > tiers[i].minPriorUnpaid
  }

  /** A tier is overtaken in the list only by tiers with the same multiplier. */
  predicate NoTierShadowed(tiers: seq<RepeatTier>) {
    forall i, j :: 0 <= i < |tiers| && 0 <= j < |tiers| && LastOfThreshold(tiers, i) && LastUpTo(tiers, i, j) ==>
      tiers[j].multiplier == tiers[i].multiplier
  }

  predicate Sorted(tiers: seq<RepeatTier>) {
    forall i, j :: 0 <= i < j < |tiers| ==> tiers[i].minPriorUnpaid <= tiers[j].minPriorUnpaid
  }

  /** Some tier wins as soon as some tier is satisfied. */
  lemma {:induction false} WinnerExists(tiers: seq<RepeatTier>, priorUnpaid: int) returns (i: int)
    requires exists j :: 0 <= j < |tiers| && Satisfied(tiers[j], priorUnpaid)
    ensures Wins(tiers, priorUnpaid, i)
  {
    var n := |tiers| - 1;
    var init := tiers[..n];
    if exists j :: 0 <= j < n && Satisfied(init[j], priorUnpaid) {
      i := WinnerExists(init, priorUnpaid);
      if Satisfied(tiers[n], priorUnpaid) && tiers[n].minPriorUnpaid >= tiers[i].minPriorUnpaid {
        i := n;
      }
    } else {
      i := n;
      assert forall j :: 0 <= j < n ==> tiers[j] == init[j];
    }
  }

  /** The tier the loop takes, in terms of the documented winner. */
  lemma LoopTakesLastUpTo(tiers: seq<RepeatTier>, priorUnpaid: int, i: int)
    requires Wins(tiers, priorUnpaid, i)
    ensures LastOfThreshold(tiers, i) && LastUpTo(tiers, i, LastSatisfied(tiers, priorUnpaid))
    ensures RepeatFor(tiers, priorUnpaid) == tiers[LastSatisfied(tiers, priorUnpaid)].multiplier
  {
    var m := LastSatisfied(tiers, priorUnpaid);
    assert m >= i;
    forall k | m < k < |tiers| ensures tiers[k].minPriorUnpaid > tiers[i].minPriorUnpaid {
      assert !Satisfied(tiers[k], priorUnpaid);
    }
  }

  /** The last tier with its threshold wins at that count. */
  lemma WinsAtThreshold(tiers: seq<RepeatTier>, i: int)
    requires LastOfThreshold(tiers, i)
    ensures Wins(tiers, tiers[i].minPriorUnpaid, i)
  {
  }

  /** The loop answers what the documented rule answers, for every count, if and only if a tier is
      overtaken in the list only by tiers with the same multiplier. */
  lemma DocumentedTierIff(tiers: seq<RepeatTier>)
    requires forall t | t in tiers :: t.minPriorUnpaid >= 0
    ensures FollowsDocument(tiers) <==> NoTierShadowed(tiers)
  {
    if NoTierShadowed(tiers) {
      forall priorUnpaid: nat, i | Wins(tiers, priorUnpaid, i)
        ensures RepeatFor(tiers, priorUnpaid) == tiers[i].multiplier
      {
        LoopTakesLastUpTo(tiers, priorUnpaid, i);
      }
    }
    if FollowsDocument(tiers) {
      forall i, j | LastOfThreshold(tiers, i) && LastUpTo(tiers, i, j)
        ensures tiers[j].multiplier == tiers[i].multiplier
      {
        assert tiers[i] in tiers;
        var p: nat := tiers[i].minPriorUnpaid;
        WinsAtThreshold(tiers, i);
        LoopTakesLastUpTo(tiers, p, i);
        assert LastSatisfied(tiers, p) == j;
      }
    }
  }

  /** Thresholds listed in non-decreasing order are enough. */
  lemma SortedFollowsDocument(tiers: seq<RepeatTier>)
    requires Sorted(tiers) && forall t | t in tiers :: t.minPriorUnpaid >= 0
    ensures FollowsDocument(tiers)
  {
    DocumentedTierIff(tiers);
  }

  /** Validation accepts rulesets on which the loop departs from the documented rule. */
  lemma ValidRulesetMayDepart(r: Ruleset)
    requires r == DefaultRuleset().(tiers := [RepeatTier(2, 2.0), RepeatTier(0, 1.0)])
    ensures Valid(r) && !FollowsDocument(r.tiers)
    ensures RepeatFor(r.tiers, 5) == 1.0 && Wins(r.tiers, 5, 0)
  {
    var five: nat := 5;
    assert Wins(r.tiers, five, 0);
  }

  // ------------------------------------------------------------ order of the multipliers

  /** The counts at which the multiplier can change. */
  predicate Breakpoint(tiers: seq<RepeatTier>, count: int) {
    count == 0 || exists i :: 0 <= i < |tiers| && tiers[i].minPriorUnpaid == count
  }

  /** Every count is priced like the last breakpoint up to it. */
  lemma LastBreakpoint(tiers: seq<RepeatTier>, count: nat) returns (b: nat)
    requires forall t | t in tiers :: t.minPriorUnpaid >= 0
    ensures Breakpoint(tiers, b) && b <= count && LastSatisfied(tiers, b) == LastSatisfied(tiers, count)
    ensures forall a :: Breakpoint(tiers, a) && a <= count ==> a <= b
  {
    if exists j :: 0 <= j < |tiers| && Satisfied(tiers[j], count) {
      var w := WinnerExists(tiers, count);
      assert tiers[w] in tiers;
      b := tiers[w].minPriorUnpaid;
    } else {
      b := 0;
    }
    forall k | 0 <= k < |tiers| ensures Satisfied(tiers[k], b) <==> Satisfied(tiers[k], count) { }
    SameSatisfied(tiers, b, count);
  }

  lemma {:induction false} SameSatisfied(tiers: seq<RepeatTier>, m: int, n: int)
    requires forall k :: 0 <= k < |tiers| ==> (Satisfied(tiers[k], m) <==> Satisfied(tiers[k], n))
    ensures LastSatisfied(tiers, m) == LastSatisfied(tiers, n)
  {
    if tiers != [] { SameSatisfied(tiers[..|tiers| - 1], m, n); }
  }

  ghost predicate RepeatOrdered(tiers: seq<RepeatTier>) {
    forall m: nat, n: nat :: m <= n ==> RepeatFor(tiers, m) <= RepeatFor(tiers, n)
  }

  ghost predicate OrderedAtBreakpoints(tiers: seq<RepeatTier>) {
    forall m: nat, n: nat :: m <= n && Breakpoint(tiers, m) && Breakpoint(tiers, n) ==>
      RepeatFor(tiers, m) <= RepeatFor(tiers, n)
  }

  /** More prior violations never select a smaller multiplier if and only if they do not at zero and
      at the listed thresholds. */
  lemma RepeatOrderedIff(tiers: seq<RepeatTier>)
    requires forall t | t in tiers :: t.minPriorUnpaid >= 0
    ensures RepeatOrdered(tiers) <==> OrderedAtBreakpoints(tiers)
  {
    if OrderedAtBreakpoints(tiers) {
      forall m: nat, n: nat | m <= n ensures RepeatFor(tiers, m) <= RepeatFor(tiers, n) {
        var a := LastBreakpoint(tiers, m);
        var b := LastBreakpoint(tiers, n);
        assert a <= b;
      }
    }
  }

  predicate MultipliersNonDecreasing(tiers: seq<RepeatTier>) {
    forall i, j :: 0 <= i < j < |tiers| ==> tiers[i].multiplier <= tiers[j].multiplier
  }

  /** A tier every count satisfies. */
  predicate HasBaseTier(tiers: seq<RepeatTier>) {
    exists i :: 0 <= i < |tiers| && tiers[i].minPriorUnpaid == 0
  }

  /** More prior violations never select a smaller multiplier. */
  lemma RepeatMonotone(tiers: seq<RepeatTier>, m: nat, n: nat)
    requires m <= n && MultipliersNonDecreasing(tiers) && HasBaseTier(tiers)
    ensures RepeatFor(tiers, m) <= RepeatFor(tiers, n)
  {
  }

  // -------------------------------------------------- the product and its rounding

  lemma MulMono(x: real, a: real, b: real)
    requires x >= 0.0 && a <= b
    ensures a * x <= b * x
  {
  }

  lemma WholeIsFloat(base: int)
    requires 0 <= base <= 9007199254740992
    ensures Nearest(base as real) == base as real
  {
    assert IsFloat(base as real, base, 0);
    NearestExact(base as real);
  }

  lemma StepNonNegative(x: real, factor: real)
    requires x >= 0.0 && factor >= 0.0
    ensures x * factor >= 0.0 && FloatMul(x, factor) >= 0.0
    ensures Abs(FloatMul(x, factor) - x * factor) * TWO_53 <= x * factor
  {
    NearestError(x * factor);
  }

  lemma StepMonotone(x: real, r: real, s: real)
    requires x >= 0.0 && r <= s
    ensures FloatMul(x, r) <= FloatMul(x, s)
  {
    MulMono(x, r, s);
    NearestMonotone(x * r, x * s);
  }

  lemma StepExact(x: real, factor: real, product: real)
    requires x >= 0.0 && factor >= 0.0 && product == x * factor && Representable(product)
    ensures FloatMul(x, factor) == product >= 0.0
  {
    MulMono(factor, 0.0, x);
    NearestExact(product);
  }

  lemma RoundHalfAwayMonotone(x: real, y: real)
    requires x <= y
    ensures RoundHalfAway(x) <= RoundHalfAway(y)
    ensures x >= 0.0 ==> RoundHalfAway(x) == RoundHalfUp(x) >= 0
  {
  }

  /** The intermediate values of the product. */
  lemma ProductSteps(base: int, time: real, repeat: real) returns (b: real, p: real)
    ensures b == Nearest(base as real) && p == FloatMul(b, time)
    ensures Product(base, time, repeat) == FloatMul(p, repeat)
  {
    b := Nearest(base as real);
    p := FloatMul(b, time);
  }

  lemma ProductNonNegative(base: int, time: real, repeat: real)
    requires base >= 0 && time >= 0.0 && repeat >= 0.0
    ensures Product(base, time, repeat) >= 0.0
    ensures FinalAmount(base, time, repeat) == RoundHalfUp(Product(base, time, repeat)) >= 0
  {
    var b, p := ProductSteps(base, time, repeat);
    NearestError(base as real);
    StepNonNegative(b, time);
    StepNonNegative(p, repeat);
    var q := Product(base, time, repeat);
    RoundHalfAwayMonotone(q, q);
  }

  /** A larger repeat multiplier never lowers the price. */
  lemma PriceMonotone(base: int, time: real, r: real, s: real)
    requires base >= 0 && time >= 0.0 && r <= s
    ensures FinalAmount(base, time, r) <= FinalAmount(base, time, s)
  {
    var b, p := ProductSteps(base, time, r);
    var _, _ := ProductSteps(base, time, s);
    NearestError(base as real);
    StepNonNegative(b, time);
    StepMonotone(p, r, s);
    RoundHalfAwayMonotone(Product(base, time, r), Product(base, time, s));
  }

  /** Two rounded products in a row stay within 2^-52 of the exact one, and a little. */
  lemma TwoRoundings(x: real, r: real, p: real, q: real, exact: real)
    requires x >= 0.0 && r >= 0.0 && exact == x * r
    requires p >= 0.0 && Abs(p - x) * TWO_53 <= x
    requires Abs(q - p * r) * TWO_53 <= p * r
    requires exact <= 1125899906842624.0
    ensures Abs(q - exact) < 0.3
  {
    var d := p - x;
    assert d * r == p * r - exact;
    MulMono(r, d * TWO_53, x);
    MulMono(r, -d * TWO_53, x);
    assert (d * TWO_53) * r == (d * r) * TWO_53;
    assert (-d * TWO_53) * r == -((d * r) * TWO_53);
    assert Abs(d * r) * TWO_53 <= exact;
  }

  /** The exact product. */
  function ExactProduct(base: int, time: real, repeat: real): real {
    base as real * time * repeat
  }

  /** The inputs the error bound is stated for: the base is a float, the price is at most 2^50. */
  predicate Priceable(base: int, time: real, repeat: real) {
    && 0 <= base <= 9007199254740992
    && time >= 0.0 && repeat >= 0.0
    && ExactProduct(base, time, repeat) <= 1125899906842624.0
  }

  /** The computed product is within 0.3 of the exact product for prices up to 2^50. */
  lemma ProductError(base: int, time: real, repeat: real)
    requires Priceable(base, time, repeat)
    ensures Abs(Product(base, time, repeat) - ExactProduct(base, time, repeat)) < 0.3
  {
    var b, p := ProductSteps(base, time, repeat);
    WholeIsFloat(base);
    StepNonNegative(b, time);
    StepNonNegative(p, repeat);
    TwoRoundings(b * time, repeat, p, FloatMul(p, repeat), ExactProduct(base, time, repeat));
  }

  /** The price differs from exact half-up rounding by at most one rupiah. */
  lemma PriceWithinOne(base: int, time: real, repeat: real)
    requires Priceable(base, time, repeat)
    ensures -1 <= FinalAmount(base, time, repeat) - RoundHalfUp(ExactProduct(base, time, repeat)) <= 1
  {
    ProductNonNegative(base, time, repeat);
    ProductError(base, time, repeat);
    RoundsClose(Product(base, time, repeat), ExactProduct(base, time, repeat));
  }

  lemma RoundsClose(x: real, y: real)
    requires Abs(x - y) < 0.3
    ensures -1 <= RoundHalfUp(x) - RoundHalfUp(y) <= 1
  {
  }

  lemma ExactSteps(b: real, time: real, repeat: real, p: real, q: real)
    requires b >= 0.0 && time >= 0.0 && repeat >= 0.0 && p == b * time && q == p * repeat
    requires Representable(p) && Representable(q)
    ensures FloatMul(FloatMul(b, time), repeat) == q >= 0.0
  {
    StepExact(b, time, p);
    StepExact(p, repeat, q);
  }

  /** When both products fit a significand the price is the exact half-up rounding. */
  lemma PriceExactWhenRepresentable(base: int, time: real, repeat: real)
    requires 0 <= base <= 9007199254740992 && time >= 0.0 && repeat >= 0.0
    requires Representable(base as real * time) && Representable(ExactProduct(base, time, repeat))
    ensures FinalAmount(base, time, repeat) == RoundHalfUp(ExactProduct(base, time, repeat))
  {
    var exact := ExactProduct(base, time, repeat);
    WholeIsFloat(base);
    ExactSteps(base as real, time, repeat, base as real * time, exact);
    RoundHalfAwayMonotone(exact, exact);
  }

  /** x is a whole number of halves, at most top. */
  predicate Halves(x: real, n: int, top: int) {
    0 <= n <= top && x == n as real * 0.5
  }

  /** The day-one multipliers are whole numbers of halves. */
  lemma DefaultMultipliers(at: Stamp, priorUnpaid: nat) returns (t: int, r: int)
    ensures Halves(TimeFor(DefaultRuleset().time, at), t, 3)
    ensures Halves(RepeatFor(DefaultRuleset().tiers, priorUnpaid), r, 4)
  {
    t := if TimeFor(DefaultRuleset().time, at) == 1.0 then 2 else 3;
    var tiers := DefaultRuleset().tiers;
    var i := LastSatisfied(tiers, priorUnpaid);
    r := i + 2;
    assert Satisfied(tiers[0], priorUnpaid);
  }

  lemma HalvesProduct(base: int, time: real, repeat: real, t: int, r: int)
    requires 0 <= base <= 562949953421312 && Halves(time, t, 3) && Halves(repeat, r, 4)
    ensures Representable(base as real * time) && Representable(ExactProduct(base, time, repeat))
  {
    var m := base * t;
    assert m <= base * 3;
    var n := m * r;
    assert n <= m * 4;
    assert base as real * time == m as real * 0.5;
    assert Shift(m as real, -1) == m as real * 0.5;
    assert IsFloat(base as real * time, m, -1);
    assert ExactProduct(base, time, repeat) == n as real * 0.25;
    assert Shift(n as real, -1) == n as real * 0.5;
    assert IsFloat(ExactProduct(base, time, repeat), n, -2);
  }

  /** With the day-one multipliers every base up to 2^49 is priced exactly. */
  lemma DefaultPriceExact(base: int, at: Stamp, priorUnpaid: nat)
    requires 0 <= base <= 562949953421312
    ensures var time := TimeFor(DefaultRuleset().time, at);
            var repeat := RepeatFor(DefaultRuleset().tiers, priorUnpaid);
            FinalAmount(base, time, repeat) == RoundHalfUp(ExactProduct(base, time, repeat))
  {
    var time := TimeFor(DefaultRuleset().time, at);
    var repeat := RepeatFor(DefaultRuleset().tiers, priorUnpaid);
    var t, r := DefaultMultipliers(at, priorUnpaid);
    HalvesProduct(base, time, repeat, t, r);
    PriceExactWhenRepresentable(base, time, repeat);
  }

  /** Doubling commutes with rounding. */
  lemma NearestDouble(x: real)
    requires x > 0.0
    ensures Nearest(2.0 * x) == 2.0 * Nearest(x)
  {
  }

  /** n doublings of x. */
  function Doubled(x: real, n: nat): real {
    if n == 0 then x else 2.0 * Doubled(x, n - 1)
  }

  lemma {:induction false} NearestScaled(x: real, n: nat)
    requires x > 0.0
    ensures Doubled(x, n) > 0.0 && Nearest(Doubled(x, n)) == Doubled(Nearest(x), n)
  {
    if n > 0 {
      NearestScaled(x, n - 1);
      NearestDouble(Doubled(x, n - 1));
    }
  }

  lemma {:induction false} DoubledTwice(x: real, m: nat, n: nat)
    ensures Doubled(Doubled(x, m), n) == Doubled(x, m + n)
  {
    if n > 0 { DoubledTwice(x, m, n - 1); }
  }

  lemma Doubled6(x: real)
    ensures Doubled(x, 6) == 64.0 * x
  {
    assert Doubled(x, 1) == 2.0 * x;
    assert Doubled(x, 3) == 8.0 * x;
    assert Doubled(x, 5) == 32.0 * x;
  }

  lemma Doubled54(x: real)
    ensures Doubled(x, 54) == 18014398509481984.0 * x
  {
    var a := 64.0 * x;
    var b := 64.0 * a;
    var c := 64.0 * b;
    Doubled18(x, c);
    Doubled18(c, 262144.0 * c); DoubledTwice(x, 18, 18);
    Doubled18(262144.0 * c, 68719476736.0 * c); DoubledTwice(x, 36, 18);
  }

  lemma Doubled18(x: real, y: real)
    requires y == 262144.0 * x
    ensures Doubled(x, 18) == y
  {
    Doubled6(x);
    Doubled6(64.0 * x); DoubledTwice(x, 6, 6);
    Doubled6(4096.0 * x); DoubledTwice(x, 12, 6);
  }

  /** The multiplier a client writes as 0.16666666666666666. */
  const ONE_SIXTH: real := 6004799503160661.0 / 36028797018963968.0

  /** The documented half-up rounding of the product does not always hold. */
  lemma PriceCanMissHalfUp()
    ensures FinalAmount(3, ONE_SIXTH, 1.0) == 1
    ensures RoundHalfUp(ExactProduct(3, ONE_SIXTH, 1.0)) == 0
  {
    var b, p := ProductSteps(3, ONE_SIXTH, 1.0);
    WholeIsFloat(3);
    var x := 3.0 * ONE_SIXTH;
    NearestScaled(x, 54);
    Doubled54(x);
    Doubled54(Nearest(x));
    assert Nearest(9007199254740991.5) == 9007199254740992.0;
    assert p == 0.5;
    assert Shift(1.0, -1) == 0.5;
    assert IsFloat(0.5, 1, -1);
    NearestExact(0.5);
  }
}
