/** The violations table, the prior-unpaid count, and how it drives the price. */
module Violations {
  import opened Fine

  type Time = int

  /** 90 days in milliseconds. */
  const REPEAT_WINDOW: Time := 7_776_000_000

  datatype Violation = Violation(
    plate: string, violationType: string, location: string, occurredAt: Time,
    ownerEmail: string, issuedByEmail: string,
    ruleVersionId: nat, ruleVersion: int,
    baseAmount: int, timeMultiplier: real, repeatMultiplier: real, priorUnpaid: int, finalAmount: int,
    paid: bool, createdAt: Time)

  type Table = map<nat, Violation>

  /** The rows CountPriorUnpaid counts: unpaid, same plate, in [since, before). */
  function PriorUnpaidIds(rows: Table, plate: string, since: Time, before: Time): set<nat> {
    set v | v in rows && Counted(rows[v], plate, since, before)
  }

  predicate Counted(row: Violation, plate: string, since: Time, before: Time) {
    row.plate == plate && !row.paid && since <= row.occurredAt < before
  }

  function CountPriorUnpaid(rows: Table, plate: string, since: Time, before: Time): nat {
    |PriorUnpaidIds(rows, plate, since, before)|
  }

  /** The count Create takes for a violation that occurred at the given time. */
  function PriorCount(rows: Table, plate: string, occurredAt: Time): nat {
    CountPriorUnpaid(rows, plate, occurredAt - REPEAT_WINDOW, occurredAt)
  }

  /** UPDATE violations SET payment_status = 'paid' WHERE id = v. */
  function MarkPaid(rows: Table, v: nat): Table {
    if v in rows then rows[v := rows[v].(paid := true)] else rows
  }

  // ------------------------------------------------------------------- the count

  /** Marking a violation paid takes exactly that violation out of the count. */
  lemma MarkPaidCount(rows: Table, v: nat, plate: string, since: Time, before: Time)
    ensures CountPriorUnpaid(MarkPaid(rows, v), plate, since, before)
         == CountPriorUnpaid(rows, plate, since, before)
            - if v in rows && Counted(rows[v], plate, since, before) then 1 else 0
  {
    var old_, new_ := PriorUnpaidIds(rows, plate, since, before), PriorUnpaidIds(MarkPaid(rows, v), plate, since, before);
    assert new_ == old_ - {v};
  }

  /** Inserting a violation adds exactly that violation, if it lies in the window. */
  lemma InsertCount(rows: Table, v: nat, row: Violation, plate: string, since: Time, before: Time)
    requires v !in rows
    ensures CountPriorUnpaid(rows[v := row], plate, since, before)
         == CountPriorUnpaid(rows, plate, since, before)
            + if Counted(row, plate, since, before) then 1 else 0
  {
    var old_, new_ := PriorUnpaidIds(rows, plate, since, before), PriorUnpaidIds(rows[v := row], plate, since, before);
    if Counted(row, plate, since, before) {
      assert new_ == old_ + {v};
    } else {
      assert new_ == old_;
    }
  }

  // What the count depends on, row by row: starting from the empty table these decide it.

  lemma NoRowsNoCount(plate: string, t: Time)
    ensures PriorCount(map[], plate, t) == 0
  {
    assert PriorUnpaidIds(map[], plate, t - REPEAT_WINDOW, t) == {};
  }

  /** A row of another plate, a paid one, or one outside the 90 days before t, the end excluded, never
      changes the count of a plate: not when it is inserted, nor removed, nor paid. */
  lemma OtherRowsDoNotCount(rows: Table, v: nat, row: Violation, plate: string, t: Time)
    requires row.plate != plate || row.paid || row.occurredAt < t - 7_776_000_000 || row.occurredAt >= t
    ensures v !in rows ==> PriorCount(rows[v := row], plate, t) == PriorCount(rows, plate, t)
    ensures v in rows && rows[v] == row ==>
      PriorCount(rows - {v}, plate, t) == PriorCount(MarkPaid(rows, v), plate, t) == PriorCount(rows, plate, t)
  {
    var since := t - REPEAT_WINDOW;
    if v !in rows {
      InsertCount(rows, v, row, plate, since, t);
    } else if rows[v] == row {
      MarkPaidCount(rows, v, plate, since, t);
      assert PriorUnpaidIds(rows - {v}, plate, since, t) == PriorUnpaidIds(rows, plate, since, t);
    }
  }

  /** An unpaid row of the plate counts one, from 90 days before t to the millisecond up to just before t. */
  lemma OwnRowsCount(rows: Table, v: nat, row: Violation, plate: string, t: Time)
    requires row.plate == plate && !row.paid && t - 7_776_000_000 <= row.occurredAt < t
    ensures v !in rows ==> PriorCount(rows[v := row], plate, t) == PriorCount(rows, plate, t) + 1
    ensures v in rows && rows[v] == row ==>
      PriorCount(rows - {v}, plate, t) == PriorCount(MarkPaid(rows, v), plate, t) == PriorCount(rows, plate, t) - 1
  {
    var since := t - REPEAT_WINDOW;
    if v !in rows {
      InsertCount(rows, v, row, plate, since, t);
    } else if rows[v] == row {
      MarkPaidCount(rows, v, plate, since, t);
      assert PriorUnpaidIds(rows - {v}, plate, since, t) == PriorUnpaidIds(rows, plate, since, t) - {v};
    }
  }

  lemma CountIsOfPlate(rows: Table, plate: string, t: Time)
    ensures PriorCount(rows, plate, t)
         == |set v | v in rows && rows[v].plate == plate && !rows[v].paid && t - 7_776_000_000 <= rows[v].occurredAt < t|
  {
    assert PriorUnpaidIds(rows, plate, t - REPEAT_WINDOW, t)
        == set v | v in rows && rows[v].plate == plate && !rows[v].paid && t - 7_776_000_000 <= rows[v].occurredAt < t;
  }

  /** Tables that agree on the rows of a plate give it the same count. */
  lemma OtherPlatesDoNotCount(rows: Table, others: Table, plate: string, t: Time)
    requires forall v :: v in rows && rows[v].plate == plate ==> v in others && others[v] == rows[v]
    requires forall v :: v in others && others[v].plate == plate ==> v in rows && rows[v] == others[v]
    ensures PriorCount(rows, plate, t) == PriorCount(others, plate, t)
  {
    assert PriorUnpaidIds(rows, plate, t - REPEAT_WINDOW, t) == PriorUnpaidIds(others, plate, t - REPEAT_WINDOW, t);
  }

  // ------------------------------------------------------------------- the price

  /** The fine Create would compute on this table, for a valid ruleset and a known type. */
  function Quote(rows: Table, r: Ruleset, violationType: string, plate: string, at: Stamp): (b: Breakdown)
    requires Valid(r) && violationType in VIOLATION_TYPES
  {
    Calculate(r, violationType, at, PriorCount(rows, plate, at.instant)).breakdown
  }

  function PriceAt(r: Ruleset, violationType: string, at: Stamp, priorUnpaid: nat): int
    requires Valid(r) && violationType in VIOLATION_TYPES
  {
    Calculate(r, violationType, at, priorUnpaid).breakdown.finalAmount
  }

  /** At zero and at the listed thresholds, a higher count is never priced lower. */
  ghost predicate Progressive(r: Ruleset) {
    Valid(r) &&
    forall violationType, at, m: nat, n: nat ::
      violationType in VIOLATION_TYPES && m <= n && Breakpoint(r.tiers, m) && Breakpoint(r.tiers, n) ==>
        PriceAt(r, violationType, at, m) <= PriceAt(r, violationType, at, n)
  }

  /** Multipliers that are ordered at these counts make the prices so, through every rounding. */
  lemma OrderedTiersProgress(r: Ruleset)
    requires Valid(r) && OrderedAtBreakpoints(r.tiers)
    ensures Progressive(r)
  {
    forall violationType, at, m: nat, n: nat
      | violationType in VIOLATION_TYPES && m <= n && Breakpoint(r.tiers, m) && Breakpoint(r.tiers, n)
      ensures PriceAt(r, violationType, at, m) <= PriceAt(r, violationType, at, n)
    {
      PriceMonotone(r.baseAmounts[violationType], TimeFor(r.time, at), RepeatFor(r.tiers, m), RepeatFor(r.tiers, n));
    }
  }

  /** So do multipliers in non-decreasing list order, with a tier at zero. */
  lemma NonDecreasingTiersProgress(r: Ruleset)
    requires Valid(r) && MultipliersNonDecreasing(r.tiers) && HasBaseTier(r.tiers)
    ensures Progressive(r)
  {
    forall m: nat, n: nat | m <= n ensures RepeatFor(r.tiers, m) <= RepeatFor(r.tiers, n) { RepeatMonotone(r.tiers, m, n); }
    OrderedTiersProgress(r);
  }

  lemma PriceOrdered(r: Ruleset, violationType: string, at: Stamp, m: nat, n: nat)
    requires Progressive(r) && violationType in VIOLATION_TYPES && m <= n
    ensures PriceAt(r, violationType, at, m) <= PriceAt(r, violationType, at, n)
  {
    var a := LastBreakpoint(r.tiers, m);
    var b := LastBreakpoint(r.tiers, n);
    assert a <= b;
    assert PriceAt(r, violationType, at, a) == PriceAt(r, violationType, at, m);
    assert PriceAt(r, violationType, at, b) == PriceAt(r, violationType, at, n);
  }

  /** Paying any violation never raises the next fine, in the arithmetic the service uses. */
  lemma PayingNeverRaises(rows: Table, v: nat, r: Ruleset, violationType: string, plate: string, at: Stamp)
    requires Progressive(r) && violationType in VIOLATION_TYPES
    ensures Quote(MarkPaid(rows, v), r, violationType, plate, at).finalAmount
         <= Quote(rows, r, violationType, plate, at).finalAmount
  {
    MarkPaidCount(rows, v, plate, at.instant - REPEAT_WINDOW, at.instant);
    PriceOrdered(r, violationType, at, PriorCount(MarkPaid(rows, v), plate, at.instant), PriorCount(rows, plate, at.instant));
  }

  /** Recording another violation never lowers the next fine. */
  lemma InsertingNeverLowers(rows: Table, v: nat, row: Violation,
                             r: Ruleset, violationType: string, plate: string, at: Stamp)
    requires v !in rows && Progressive(r) && violationType in VIOLATION_TYPES
    ensures Quote(rows, r, violationType, plate, at).finalAmount
         <= Quote(rows[v := row], r, violationType, plate, at).finalAmount
  {
    InsertCount(rows, v, row, plate, at.instant - REPEAT_WINDOW, at.instant);
    PriceOrdered(r, violationType, at, PriorCount(rows, plate, at.instant), PriorCount(rows[v := row], plate, at.instant));
  }

  // --------------------------------------------- exactly when the fines are ordered

  ghost predicate NeverRaises(r: Ruleset)
    requires Valid(r)
  {
    forall rows, v, violationType, plate, at :: violationType in VIOLATION_TYPES ==>
      Quote(MarkPaid(rows, v), r, violationType, plate, at).finalAmount
      <= Quote(rows, r, violationType, plate, at).finalAmount
  }

  /** An unpaid violation of the plate just before the given time. */
  function Earlier(plate: string, at: Stamp): Violation {
    Violation(plate, "expired_meter", "", at.instant - 1, "", "", 0, 1, 1, 1.0, 1.0, 0, 1, false, at.instant)
  }

  /** A record of that many of them. */
  function Backlog(plate: string, at: Stamp, count: nat): (rows: Table)
    ensures forall v: nat :: v in rows <==> v < count
  {
    if count == 0 then map[] else Backlog(plate, at, count - 1)[count - 1 := Earlier(plate, at)]
  }

  lemma {:induction false} BacklogCount(plate: string, at: Stamp, count: nat)
    ensures PriorCount(Backlog(plate, at, count), plate, at.instant) == count
    ensures count > 0 ==> Backlog(plate, at, count)[count - 1] == Earlier(plate, at)
  {
    if count == 0 {
      assert PriorUnpaidIds(map[], plate, at.instant - REPEAT_WINDOW, at.instant) == {};
    } else {
      BacklogCount(plate, at, count - 1);
      InsertCount(Backlog(plate, at, count - 1), count - 1, Earlier(plate, at), plate, at.instant - REPEAT_WINDOW, at.instant);
    }
  }

  /** Paying one of them: the next fine is the one for one violation fewer. */
  lemma PayingOne(r: Ruleset, violationType: string, at: Stamp, count: nat)
    requires Valid(r) && violationType in VIOLATION_TYPES
    ensures var rows := Backlog("B1", at, count + 1);
            && Quote(rows, r, violationType, "B1", at).finalAmount == PriceAt(r, violationType, at, count + 1)
            && Quote(MarkPaid(rows, count), r, violationType, "B1", at).finalAmount == PriceAt(r, violationType, at, count)
  {
    BacklogCount("B1", at, count + 1);
    MarkPaidCount(Backlog("B1", at, count + 1), count, "B1", at.instant - REPEAT_WINDOW, at.instant);
  }

  lemma OneStepUp(r: Ruleset, violationType: string, at: Stamp, count: nat)
    requires Valid(r) && NeverRaises(r) && violationType in VIOLATION_TYPES
    ensures PriceAt(r, violationType, at, count) <= PriceAt(r, violationType, at, count + 1)
  {
    PayingOne(r, violationType, at, count);
    var rows := Backlog("B1", at, count + 1);
    assert Quote(MarkPaid(rows, count), r, violationType, "B1", at).finalAmount
        <= Quote(rows, r, violationType, "B1", at).finalAmount;
  }

  lemma {:induction false} StepsUp(r: Ruleset, violationType: string, at: Stamp, m: nat, n: nat)
    requires Valid(r) && NeverRaises(r) && violationType in VIOLATION_TYPES && m <= n
    ensures PriceAt(r, violationType, at, m) <= PriceAt(r, violationType, at, n)
    decreases n
  {
    if m < n {
      StepsUp(r, violationType, at, m, n - 1);
      OneStepUp(r, violationType, at, n - 1);
    }
  }

  /** On a publishable ruleset paying never raises a fine, for any record, violation, plate and time,
      if and only if no higher count is priced lower at zero and at the listed thresholds. */
  lemma PayingNeverRaisesIff(r: Ruleset)
    requires Valid(r)
    ensures NeverRaises(r) <==> Progressive(r)
  {
    if NeverRaises(r) {
      forall violationType, at, m: nat, n: nat
        | violationType in VIOLATION_TYPES && m <= n && Breakpoint(r.tiers, m) && Breakpoint(r.tiers, n)
        ensures PriceAt(r, violationType, at, m) <= PriceAt(r, violationType, at, n)
      {
        StepsUp(r, violationType, at, m, n);
      }
    }
    if Progressive(r) {
      forall rows, v, violationType, plate, at | violationType in VIOLATION_TYPES
        ensures Quote(MarkPaid(rows, v), r, violationType, plate, at).finalAmount
             <= Quote(rows, r, violationType, plate, at).finalAmount
      {
        PayingNeverRaises(rows, v, r, violationType, plate, at);
      }
    }
  }

  lemma HalfPrices()
    ensures FinalAmount(50_000, 1.0, 1.0) == 50_000 && FinalAmount(50_000, 1.0, 0.5) == 25_000
  {
    HalvesProduct(50_000, 1.0, 1.0, 2, 2);
    PriceExactWhenRepresentable(50_000, 1.0, 1.0);
    HalvesProduct(50_000, 1.0, 0.5, 2, 1);
    PriceExactWhenRepresentable(50_000, 1.0, 0.5);
  }

  /** Without a tier at zero a publishable ruleset, even with multipliers in order, can make paying
      raise the next fine: from 25.000 to 50.000 rupiah. */
  lemma BaseTierNeeded(r: Ruleset, at: Stamp)
    requires r == DefaultRuleset().(tiers := [RepeatTier(1, 0.5)])
    requires TimeFor(r.time, at) == 1.0
    ensures Valid(r) && MultipliersNonDecreasing(r.tiers)
    ensures var rows := Backlog("B1", at, 1);
            && Quote(rows, r, "expired_meter", "B1", at).finalAmount == 25_000
            && Quote(MarkPaid(rows, 0), r, "expired_meter", "B1", at).finalAmount == 50_000
  {
    PayingOne(r, "expired_meter", at, 0);
    HalfPrices();
    assert RepeatFor(r.tiers, 0) == 1.0 && RepeatFor(r.tiers, 1) == 0.5;
  }

  // ---------------------------------------------------------- wall clock and column

  /** The submitted time as it is read back from the timestamptz column, in UTC. */
  function FromColumn(at: Stamp): Stamp {
    Stamp(at.instant, 0)
  }

  /** A time rule that Validate accepts. */
  predicate Publishable(t: TimeMultiplier) {
    ValidHour(t.dayStartHour) && ValidHour(t.nightStartHour) && t.dayMultiplier > 0.0 && t.nightMultiplier > 0.0
  }

  /** The stored instant gives the priced time multiplier back, whatever publishable rule priced it,
      exactly when the submitted offset does not move the hour. */
  lemma ColumnRepricesIff(at: Stamp)
    ensures (forall t | Publishable(t) :: TimeFor(t, FromColumn(at)) == TimeFor(t, at))
       <==> Hour(FromColumn(at)) == Hour(at)
  {
    var h, k := Hour(at), Hour(FromColumn(at));
    if h != k {
      var first := if h < k then h else k;
      var t := TimeMultiplier(first, first + 1, 2.0, 1.0);
      assert Publishable(t) && TimeFor(t, at) != TimeFor(t, FromColumn(at));
    }
  }

  /** 23:30 at UTC+7 is priced as night; the stored instant, 16:30 UTC, is priced as day. */
  lemma OffsetChangesPrice()
    ensures var at := Stamp(59_400_000, 25_200_000);
            TimeFor(DefaultRuleset().time, at) == 1.5 && TimeFor(DefaultRuleset().time, FromColumn(at)) == 1.0
  {
  }
}
