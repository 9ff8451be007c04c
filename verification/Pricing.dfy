/**
 What Calculate computes, said without it: the base amount of the type, the multiplier of the
 wall-clock window, the multiplier of the last satisfied tier, and the rounding of their product.
 */
module Pricing {
  import opened Float64
  import opened Fine

  /** The local time of day lies in [dayStart, nightStart), in milliseconds. */
  predicate InDayWindow(t: TimeMultiplier, at: Stamp) {
    3_600_000 * t.dayStartHour <= (at.instant + at.offset) % 86_400_000 < 3_600_000 * t.nightStartHour
  }

  lemma HourOfDay(x: int)
    ensures (x / MS_PER_HOUR) % 24 == (x % 86_400_000) / 3_600_000
  {
    var q, ms := x / 86_400_000, x % 86_400_000;
    assert x == 24 * q * 3_600_000 + ms;
    assert x / 3_600_000 == 24 * q + ms / 3_600_000;
  }

  /** For every time rule and time: the day multiplier inside the window, the night one outside. */
  lemma TimeForWindow(t: TimeMultiplier, at: Stamp)
    ensures TimeFor(t, at) == if InDayWindow(t, at) then t.dayMultiplier else t.nightMultiplier
    ensures t.dayMultiplier != t.nightMultiplier ==> (TimeFor(t, at) == t.dayMultiplier <==> InDayWindow(t, at))
  {
    HourOfDay(at.instant + at.offset);
  }

  /** A window that does not open before it closes, as one across midnight, is always night. */
  lemma NoDayWindow(t: TimeMultiplier, at: Stamp)
    requires t.dayStartHour >= t.nightStartHour
    ensures TimeFor(t, at) == t.nightMultiplier
  {
    TimeForWindow(t, at);
  }

  /** The multiplier is that of the last tier whose threshold the count reaches, 1.0 if it reaches none. */
  predicate TierPicked(tiers: seq<RepeatTier>, count: int, multiplier: real) {
    || (exists i :: 0 <= i < |tiers| && TierDecides(tiers, count, i) && multiplier == tiers[i].multiplier)
    || ((forall j :: 0 <= j < |tiers| ==> count < tiers[j].minPriorUnpaid) && multiplier == 1.0)
  }

  predicate TierDecides(tiers: seq<RepeatTier>, count: int, i: int)
    requires 0 <= i < |tiers|
  {
    count >= tiers[i].minPriorUnpaid && forall j :: i < j < |tiers| ==> count < tiers[j].minPriorUnpaid
  }

  lemma RepeatForPicks(tiers: seq<RepeatTier>, count: int, multiplier: real)
    ensures RepeatFor(tiers, count) == multiplier <==> TierPicked(tiers, count, multiplier)
  {
    var i := LastSatisfied(tiers, count);
    assert forall j :: i < j < |tiers| ==> !Satisfied(tiers[j], count);
    if i >= 0 {
      assert TierDecides(tiers, count, i);
      assert forall k :: 0 <= k < |tiers| && TierDecides(tiers, count, k) ==> k == i;
    }
  }

  /** The breakdown of a violation of that type, at that time, with that many prior ones. */
  predicate PricedAs(r: Ruleset, violationType: string, at: Stamp, count: int, b: Breakdown) {
    && violationType in r.baseAmounts && b.baseAmount == r.baseAmounts[violationType]
    && b.timeMultiplier == (if InDayWindow(r.time, at) then r.time.dayMultiplier else r.time.nightMultiplier)
    && TierPicked(r.tiers, count, b.repeatMultiplier)
    && b.priorUnpaid == count
    && b.finalAmount == RoundHalfAway(FloatMul(FloatMul(Nearest(b.baseAmount as real), b.timeMultiplier), b.repeatMultiplier))
  }

  /** For every ruleset, type, time and count: what Calculate answers is exactly that breakdown, and it
      answers one exactly for the types the ruleset has. */
  lemma CalculateIff(r: Ruleset, violationType: string, at: Stamp, count: int, b: Breakdown)
    ensures Calculate(r, violationType, at, count) == Priced(b) <==> PricedAs(r, violationType, at, count, b)
    ensures Calculate(r, violationType, at, count).Priced? <==> violationType in r.baseAmounts
  {
    TimeForWindow(r.time, at);
    RepeatForPicks(r.tiers, count, b.repeatMultiplier);
  }

  // ------------------------------------------------------------------- day one

  function DayOneBase(violationType: string): int {
    if violationType == "expired_meter" then 50_000
    else if violationType == "no_parking_zone" then 150_000
    else if violationType == "blocking_hydrant" then 250_000
    else 500_000
  }

  /** Half multiples: 2 for 1.0, 3 for 1.5, 4 for 2.0. */
  function DayOneTime(at: Stamp): int {
    if 21_600_000 <= (at.instant + at.offset) % 86_400_000 < 79_200_000 then 2 else 3
  }

  function DayOneRepeat(count: nat): int {
    if count == 0 then 2 else if count == 1 then 3 else 4
  }

  lemma DayOneMultipliers(at: Stamp, count: nat)
    ensures TimeFor(DefaultRuleset().time, at) == DayOneTime(at) as real * 0.5
    ensures RepeatFor(DefaultRuleset().tiers, count) == DayOneRepeat(count) as real * 0.5
  {
    TimeForWindow(DefaultRuleset().time, at);
  }

  lemma WholeQuarter(base: int, t: int, r: int, whole: int)
    requires 4 * whole == base * t * r
    ensures base as real * (t as real * 0.5) * (r as real * 0.5) == whole as real
    ensures RoundHalfUp(whole as real) == whole
  {
    var n := base * t;
    assert base as real * t as real == n as real;
    assert n as real * r as real == (n * r) as real;
  }

  /** The day-one fines, for every type, time and count: the base amount, half as much again from 22:00
      to 6:00, and again half as much for one unpaid violation, twice for more. */
  lemma DayOneFines(violationType: string, at: Stamp, count: nat)
    requires violationType in ["expired_meter", "no_parking_zone", "blocking_hydrant", "disabled_spot"]
    ensures Calculate(DefaultRuleset(), violationType, at, count).Priced?
    ensures 4 * Calculate(DefaultRuleset(), violationType, at, count).breakdown.finalAmount
         == DayOneBase(violationType) * DayOneTime(at) * DayOneRepeat(count)
  {
    var base, t, m := DayOneBase(violationType), DayOneTime(at), DayOneRepeat(count);
    DayOneMultipliers(at, count);
    DefaultPriceExact(base, at, count);
    var whole := base / 4 * t * m;
    QuarterOf(base, t, m);
    WholeQuarter(base, t, m, whole);
    var b := Calculate(DefaultRuleset(), violationType, at, count).breakdown;
    assert b.baseAmount == base;
  }

  lemma QuarterOf(base: int, t: int, m: int)
    requires base % 4 == 0
    ensures 4 * (base / 4 * t * m) == base * t * m
  {
    var q := base / 4;
    assert base == 4 * q;
    assert 4 * (q * t * m) == (4 * q) * t * m;
  }
}
