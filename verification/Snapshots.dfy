/**
 Every fine ever issued can be derived again from the append-only rule history: which version
 priced it, what it had been counted against, and that nothing has altered either since.
 */
module Snapshots {
  import opened Options
  import opened Fine
  import opened Violations
  import opened Pricing
  import opened Issuance
  import R = RuleVersions
  import Causality

  /** Where a row came from: the Create that made it, with the numbers of four of its steps. */
  datatype Origin = Origin(
    n: nat, input: Input, ruling: Ruling, begun: nat, counted: nat, looked: nat, inserted: nat, breakdown: Breakdown)

  // -------------------------------------------------------- what a running Create knows

  /** Step k of the behaviour was the given one. */
  predicate Did(acts: seq<Action>, k: nat, a: Action) {
    k < |acts| && acts[k] == a
  }

  /** The ruling is a version as committed, active when it was read, and not older than the cache
      allows; it was answered after the Create began. */
  ghost predicate RulingOk(c: R.Config, rules: R.State, since: Time, ruling: Ruling) {
    && R.ReaderOk(c, rules, R.Answered(ruling.version, ruling.readAt, ruling.at))
    && since <= ruling.at
  }

  /** The count was taken at step k, on the table as it was then. */
  ghost predicate CountOk(tr: seq<State>, acts: seq<Action>, k: nat, n: nat, input: Input, prior: nat) {
    && k < |tr| && Did(acts, k, Count(n))
    && prior == PriorCount(tr[k].settle.violations, input.plate, input.at.instant)
  }

  ghost predicate OwnerOk(tr: seq<State>, acts: seq<Action>, k: nat, n: nat, input: Input, owner: string) {
    && k < |tr| && Did(acts, k, LookupOwner(n))
    && owner == OwnerOf(tr[k].plates, input.plate)
  }

  predicate AssessOk(input: Input, ruling: Ruling, prior: int, b: Breakdown) {
    Calculate(ruling.version.ruleset, input.violationType, input.at, prior) == Priced(b) && b.priorUnpaid == prior
  }

  ghost predicate AssessedOk(tr: seq<State>, acts: seq<Action>, k: nat, n: nat, input: Input, ruling: Ruling, b: Breakdown) {
    AssessOk(input, ruling, b.priorUnpaid, b) && b.priorUnpaid >= 0 && CountOk(tr, acts, k, n, input, b.priorUnpaid)
  }

  ghost predicate CreateOk(c: R.Config, tr: seq<State>, acts: seq<Action>, k: nat, n: nat, create: Create)
    requires k < |tr|
  {
    var input, since := create.input, create.begun;
    && since < k && Did(acts, since, Begin(n, input))
    && (!create.phase.Failed? ==> (create.phase.ErrInvalidInput? <==> !ValidInput(input)))
    && match create.phase
       case Waiting(q) =>
         q in tr[k].rules.readers &&
         (tr[k].rules.readers[q].Answered? ==> tr[since].rules.now <= tr[k].rules.readers[q].at)
       case Ruled(ruling) => RulingOk(c, tr[k].rules, tr[since].rules.now, ruling)
       case Counted(ruling, counted, prior) =>
         && RulingOk(c, tr[k].rules, tr[since].rules.now, ruling)
         && since < counted < k && CountOk(tr, acts, counted, n, input, prior)
       case Assessed(ruling, counted, b) =>
         && RulingOk(c, tr[k].rules, tr[since].rules.now, ruling)
         && since < counted < k && AssessedOk(tr, acts, counted, n, input, ruling, b)
       case Owned(ruling, counted, b, looked, owner) =>
         && RulingOk(c, tr[k].rules, tr[since].rules.now, ruling)
         && since < counted < looked < k && AssessedOk(tr, acts, counted, n, input, ruling, b)
         && OwnerOk(tr, acts, looked, n, input, owner)
       case _ => true
  }

  // ------------------------------------------------------------------ where rows come from

  /** The row is what Create makes of that origin, whether or not it has been paid since. */
  predicate Snapshot(row: Violation, o: Origin, owner: string, now: Time) {
    row == RowOf(o.input, o.ruling.version, o.breakdown, owner, now).(paid := row.paid)
  }

  ghost predicate Explains(c: R.Config, tr: seq<State>, acts: seq<Action>, k: nat, v: nat, o: Origin)
    requires k < |tr| && v in tr[k].settle.violations
  {
    && o.begun < o.counted < o.looked < o.inserted < k
    && Did(acts, o.begun, Begin(o.n, o.input)) && ValidInput(o.input)
    && AssessedOk(tr, acts, o.counted, o.n, o.input, o.ruling, o.breakdown)
    && Did(acts, o.looked, LookupOwner(o.n))
    && Did(acts, o.inserted, Insert(o.n, v)) && v !in tr[o.inserted].settle.violations
    && Snapshot(tr[k].settle.violations[v], o, OwnerOf(tr[o.looked].plates, o.input.plate), tr[o.inserted].settle.now)
    && RulingOk(c, tr[k].rules, tr[o.begun].rules.now, o.ruling)
    && o.ruling.at <= tr[o.inserted].rules.now
  }

  // ------------------------------------------------------------------- step by step

  /** Step numbers count the states, and both sides keep the same time. */
  lemma {:induction false} Clocks(c: R.Config, tr: seq<State>, acts: seq<Action>, k: nat)
    requires Behaviour(c, tr, acts) && k <= |acts|
    ensures tr[k].steps == k && tr[k].rules.now == tr[k].settle.now
    decreases k
  {
    if k > 0 {
      Clocks(c, tr, acts, k - 1);
      assert Step(c, tr[k - 1], acts[k - 1], tr[k]);
    }
  }

  lemma RulingKept(c: R.Config, s: State, a: Action, since: Time, ruling: Ruling)
    requires R.Inv(c, s.rules) && Issuance.Enabled(c, s, a) && RulingOk(c, s.rules, since, ruling)
    ensures RulingOk(c, RulesAfter(c, s, a), since, ruling)
  {
    if RulesPart(a).Some? {
      R.ReaderKept(c, s.rules, RulesPart(a).value, R.Answered(ruling.version, ruling.readAt, ruling.at));
    }
  }

  /** A reader that has no answer yet gets one at the present time. */
  lemma AnswersNow(c: R.Config, s: R.State, a: R.Action, q: nat, since: Time)
    requires R.Enabled(c, s, a) && q in s.readers && since <= s.now
    requires s.readers[q].Answered? ==> since <= s.readers[q].at
    ensures var t := R.Apply(c, s, a);
            q in t.readers && (t.readers[q].Answered? ==> since <= t.readers[q].at)
  {
  }

  /** A Create that does not act in a step keeps what it knows. */
  lemma BystanderOk(c: R.Config, tr: seq<State>, acts: seq<Action>, k: nat, n: nat, create: Create)
    requires Behaviour(c, tr, acts) && k < |acts| && CreateOk(c, tr, acts, k, n, create)
    ensures CreateOk(c, tr, acts, k + 1, n, create)
  {
    var s, a := tr[k], acts[k];
    assert Step(c, s, a, tr[k + 1]);
    BothSides(c, tr, acts, k);
    var since := tr[create.begun].rules.now;
    match create.phase {
      case Waiting(q) =>
        SnapshotsPermanent(c, tr, acts, create.begun, k);
        if RulesPart(a).Some? { AnswersNow(c, s.rules, RulesPart(a).value, q, since); }
      case Ruled(ruling) => RulingKept(c, s, a, since, ruling);
      case Counted(ruling, _, _) => RulingKept(c, s, a, since, ruling);
      case Assessed(ruling, _, _) => RulingKept(c, s, a, since, ruling);
      case Owned(ruling, _, _, _, _) => RulingKept(c, s, a, since, ruling);
      case _ =>
    }
  }

  /** A served version prices every valid input: every version ever stored or cached is valid. */
  lemma ServedVersionPrices(c: R.Config, rules: R.State, since: Time, ruling: Ruling, input: Input, prior: int)
    requires R.Inv(c, rules) && RulingOk(c, rules, since, ruling) && ValidInput(input)
    ensures Calculate(ruling.version.ruleset, input.violationType, input.at, prior).Priced?
    ensures var b := Calculate(ruling.version.ruleset, input.violationType, input.at, prior).breakdown;
            b.baseAmount > 0 && b.timeMultiplier > 0.0 && b.repeatMultiplier > 0.0 && b.finalAmount >= 0
  {
    assert R.RowOk(rules.rows[ruling.version.id], |rules.history|);
    ValidRulesetPrices(ruling.version.ruleset, input.violationType, input.at, prior);
  }

  /** A step changes the acting Create only. */
  lemma StepWritesCreates(c: R.Config, tr: seq<State>, acts: seq<Action>, k: nat)
    requires Behaviour(c, tr, acts) && k < |acts|
    ensures Ready(tr[k], acts[k]) && tr[k + 1].creates == CreatesAfter(tr[k], acts[k])
  {
    assert Step(c, tr[k], acts[k], tr[k + 1]);
  }

  lemma BeginOk(c: R.Config, tr: seq<State>, acts: seq<Action>, k: nat, n: nat)
    requires Behaviour(c, tr, acts) && k < |acts| && Actor(acts[k]) == Some(n)
    requires acts[k].Begin? || acts[k].AskRules?
    requires !acts[k].Begin? ==> n in tr[k].creates && CreateOk(c, tr, acts, k + 1, n, tr[k].creates[n])
    ensures n in tr[k + 1].creates && CreateOk(c, tr, acts, k + 1, n, tr[k + 1].creates[n])
  {
    assert Step(c, tr[k], acts[k], tr[k + 1]);
    Clocks(c, tr, acts, k);
  }

  lemma TakeRulesOk(c: R.Config, tr: seq<State>, acts: seq<Action>, k: nat, n: nat)
    requires Behaviour(c, tr, acts) && k < |acts| && acts[k] == TakeRules(n)
    requires n in tr[k].creates && CreateOk(c, tr, acts, k + 1, n, tr[k].creates[n])
    ensures n in tr[k + 1].creates && CreateOk(c, tr, acts, k + 1, n, tr[k + 1].creates[n])
  {
    assert Step(c, tr[k], acts[k], tr[k + 1]);
    BothSides(c, tr, acts, k + 1);
  }

  /** The acting Create knows what its step found out. */
  lemma ActorOk(c: R.Config, tr: seq<State>, acts: seq<Action>, k: nat, n: nat)
    requires Behaviour(c, tr, acts) && k < |acts| && Actor(acts[k]) == Some(n)
    requires !acts[k].Begin? ==> n in tr[k].creates && CreateOk(c, tr, acts, k + 1, n, tr[k].creates[n])
    ensures n in tr[k + 1].creates && CreateOk(c, tr, acts, k + 1, n, tr[k + 1].creates[n])
  {
    if acts[k].Begin? || acts[k].AskRules? {
      BeginOk(c, tr, acts, k, n);
    } else if acts[k].TakeRules? {
      TakeRulesOk(c, tr, acts, k, n);
    } else {
      StepWritesCreates(c, tr, acts, k);
      Clocks(c, tr, acts, k);
      var create := tr[k].creates[n];
      if acts[k].Assess? {
        BothSides(c, tr, acts, k + 1);
        ServedVersionPrices(c, tr[k + 1].rules, tr[create.begun].rules.now, create.phase.ruling, create.input, create.phase.prior);
      }
    }
  }

  /** n is not a Create yet, or knows what it should. */
  ghost predicate KnowsAt(c: R.Config, tr: seq<State>, acts: seq<Action>, k: nat, n: nat)
    requires k < |tr|
  {
    n in tr[k].creates ==> CreateOk(c, tr, acts, k, n, tr[k].creates[n])
  }

  lemma KnowsStep(c: R.Config, tr: seq<State>, acts: seq<Action>, k: nat, n: nat)
    requires Behaviour(c, tr, acts) && k < |acts| && KnowsAt(c, tr, acts, k, n)
    ensures KnowsAt(c, tr, acts, k + 1, n)
  {
    if n in tr[k].creates { BystanderOk(c, tr, acts, k, n, tr[k].creates[n]); }
    if Actor(acts[k]) == Some(n) {
      ReadyToAct(c, tr, acts, k, n);
      ActorOk(c, tr, acts, k, n);
    } else {
      StepWritesCreates(c, tr, acts, k);
    }
  }

  lemma ReadyToAct(c: R.Config, tr: seq<State>, acts: seq<Action>, k: nat, n: nat)
    requires Behaviour(c, tr, acts) && k < |acts| && Actor(acts[k]) == Some(n)
    ensures !acts[k].Begin? ==> n in tr[k].creates
  {
    assert Step(c, tr[k], acts[k], tr[k + 1]);
  }

  lemma {:induction false} CreatesOk(c: R.Config, tr: seq<State>, acts: seq<Action>, k: nat, n: nat)
    requires Behaviour(c, tr, acts) && k <= |acts|
    ensures KnowsAt(c, tr, acts, k, n)
    decreases k
  {
    if k > 0 {
      CreatesOk(c, tr, acts, k - 1, n);
      KnowsStep(c, tr, acts, k - 1, n);
    }
  }

  /** The step is a Create's insert of that row. */
  predicate InsertsRow(s: State, a: Action, v: nat, row: Violation) {
    && a.Insert? && a.v == v && Ready(s, a)
    && var create := s.creates[a.n];
       row == RowOf(create.input, create.phase.ruling.version, create.phase.breakdown, create.phase.owner, s.settle.now)
  }

  lemma StepWritesRows(c: R.Config, tr: seq<State>, acts: seq<Action>, k: nat, v: nat)
    requires Behaviour(c, tr, acts) && k < |acts| && v in tr[k + 1].settle.violations
    ensures var rows, later := tr[k].settle.violations, tr[k + 1].settle.violations;
            if v in rows then later[v] == rows[v] || later[v] == rows[v].(paid := true)
            else InsertsRow(tr[k], acts[k], v, later[v])
  {
    assert Step(c, tr[k], acts[k], tr[k + 1]);
  }

  /** What explains a row goes on explaining it. */
  lemma ExplainsKept(c: R.Config, tr: seq<State>, acts: seq<Action>, k: nat, v: nat, o: Origin)
    requires Behaviour(c, tr, acts) && k < |acts|
    requires v in tr[k].settle.violations && v in tr[k + 1].settle.violations && Explains(c, tr, acts, k, v, o)
    ensures Explains(c, tr, acts, k + 1, v, o)
  {
    StepWritesRows(c, tr, acts, k, v);
    BothSides(c, tr, acts, k);
    assert Step(c, tr[k], acts[k], tr[k + 1]);
    RulingKept(c, tr[k], acts[k], tr[o.begun].rules.now, o.ruling);
  }

  /** The row a Create inserts is explained by that Create. */
  lemma InsertExplained(c: R.Config, tr: seq<State>, acts: seq<Action>, k: nat, v: nat) returns (o: Origin)
    requires Behaviour(c, tr, acts) && k < |acts|
    requires v !in tr[k].settle.violations && v in tr[k + 1].settle.violations
    ensures Explains(c, tr, acts, k + 1, v, o)
  {
    StepWritesRows(c, tr, acts, k, v);
    var n := acts[k].n;
    var create := tr[k].creates[n];
    CreatesOk(c, tr, acts, k, n);
    BystanderOk(c, tr, acts, k, n, create);
    var ph := create.phase;
    o := Origin(n, create.input, ph.ruling, create.begun, ph.counted, ph.looked, k, ph.breakdown);
  }

  /** For every violation on record, at any later time: one Create with a valid input was served a
      committed version, counted the unpaid rows of the plate in the 90 days before, and stored
      exactly what that version's ruleset gives for that count. The version is still on record as
      it was published, and nothing but the paid mark of the row has changed. */
  lemma {:induction false} FineExplained(c: R.Config, tr: seq<State>, acts: seq<Action>, k: nat, v: nat)
      returns (o: Origin)
    requires Behaviour(c, tr, acts) && k <= |acts| && v in tr[k].settle.violations
    ensures Explains(c, tr, acts, k, v, o)
    decreases k
  {
    if v in tr[k - 1].settle.violations {
      o := FineExplained(c, tr, acts, k - 1, v);
      ExplainsKept(c, tr, acts, k - 1, v, o);
    } else {
      o := InsertExplained(c, tr, acts, k - 1, v);
    }
  }

  // ------------------------------------------------------------------- main theorems

  /** The version the row names, applied to the row's own type, time and count, gives the row's base
      amount, its two multipliers and its final amount. */
  predicate Rederives(rules: R.Rows, row: Violation, offset: int) {
    && row.ruleVersionId in rules && rules[row.ruleVersionId].number == row.ruleVersion
    && PricedAs(rules[row.ruleVersionId].ruleset, row.violationType, Stamp(row.occurredAt, offset), row.priorUnpaid,
                Breakdown(row.baseAmount, row.timeMultiplier, row.repeatMultiplier, row.priorUnpaid, row.finalAmount))
  }

  /** Every fine on record can be derived again from the two tables alone (and the zone offset the
      officer submitted), by a ruleset that was the active one within the staleness bound, and from
      a count taken in a state between the start of its Create and its insert. */
  lemma FinesRederivable(c: R.Config, tr: seq<State>, acts: seq<Action>, k: nat, v: nat) returns (o: Origin)
    requires Behaviour(c, tr, acts) && k <= |acts| && v in tr[k].settle.violations
    ensures var row := tr[k].settle.violations[v];
            && Rederives(tr[k].rules.rows, row, o.input.at.offset)
            && o.begun < o.counted < o.looked < o.inserted < k
            && row.plate == o.input.plate && row.location == o.input.location && row.issuedByEmail == o.input.issuedByEmail
            && row.ownerEmail == OwnerOf(tr[o.looked].plates, row.plate)
            && row.createdAt == tr[o.inserted].settle.now
            && (var rows := tr[o.counted].settle.violations;
                row.priorUnpaid == |set u | u in rows && rows[u].plate == row.plate && !rows[u].paid
                                            && row.occurredAt - 7_776_000_000 <= rows[u].occurredAt < row.occurredAt|)
            && acts[o.begun] == Begin(o.n, o.input) && acts[o.inserted] == Insert(o.n, v)
            && (c.ttl > 0 ==> R.WasActive(tr[k].rules.history, row.ruleVersionId,
                                          tr[o.begun].rules.now - c.ttl - c.lag, tr[o.inserted].rules.now))
  {
    o := FineExplained(c, tr, acts, k, v);
    ExplainsStored(c, tr, acts, k, v, o);
    var row := tr[k].settle.violations[v];
    CountIsOfPlate(tr[o.counted].settle.violations, row.plate, row.occurredAt);
    if c.ttl > 0 {
      R.WasActiveWider(tr[k].rules.history, o.ruling.version.id, o.ruling.readAt,
                       tr[o.begun].rules.now - c.ttl - c.lag, tr[o.inserted].rules.now);
    }
  }

  lemma ExplainsStored(c: R.Config, tr: seq<State>, acts: seq<Action>, k: nat, v: nat, o: Origin)
    requires k < |tr| && v in tr[k].settle.violations && Explains(c, tr, acts, k, v, o)
    ensures Rederives(tr[k].rules.rows, tr[k].settle.violations[v], o.input.at.offset)
  {
    CalculateIff(o.ruling.version.ruleset, o.input.violationType, o.input.at, o.breakdown.priorUnpaid, o.breakdown);
  }

  /** Pricing never fails in a reachable state: a Create with a served ruleset always gets a
      positive base and positive multipliers and an amount that is not negative. */
  lemma PricingNeverFails(c: R.Config, tr: seq<State>, acts: seq<Action>, k: nat, n: nat)
    requires Behaviour(c, tr, acts) && k < |acts| && acts[k] == Assess(n)
    ensures n in tr[k + 1].creates && tr[k + 1].creates[n].phase.Assessed?
    ensures var b := tr[k + 1].creates[n].phase.breakdown;
            b.baseAmount > 0 && b.timeMultiplier > 0.0 && b.repeatMultiplier > 0.0 && b.finalAmount >= 0
  {
    StepWritesCreates(c, tr, acts, k);
    CreatesOk(c, tr, acts, k, n);
    BothSides(c, tr, acts, k);
    var create := tr[k].creates[n];
    ServedVersionPrices(c, tr[k].rules, tr[create.begun].rules.now, create.phase.ruling, create.input, create.phase.prior);
  }

  /** From the rule history to the money: a violation shown as paid was settled by a payment of
      exactly the amount its rule version gives. */
  lemma CollectedIsRederivable(c: R.Config, tr: seq<State>, acts: seq<Action>, k: nat, v: nat)
      returns (offset: int, i: nat, p: nat)
    requires Behaviour(c, tr, acts) && k <= |acts| && v in tr[k].settle.violations && tr[k].settle.violations[v].paid
    ensures Causality.Settled(tr[k].settle, v, i, p)
    ensures var row, rules := tr[k].settle.violations[v], tr[k].rules.rows;
            Rederives(rules, row, offset) && row.finalAmount == tr[k].settle.payments[p].amount
  {
    var o := FinesRederivable(c, tr, acts, k, v);
    offset := o.input.at.offset;
    var ra, sa := Projections(c, tr, acts, 0, k);
    i, p := Causality.PaidMeansSettled(tr[0].settle, sa, tr[k].settle, v);
  }

  lemma FineNotNegative(c: R.Config, tr: seq<State>, acts: seq<Action>, k: nat, v: nat)
    requires Behaviour(c, tr, acts) && k <= |acts| && v in tr[k].settle.violations
    ensures tr[k].settle.violations[v].finalAmount >= 0
  {
    var o := FineExplained(c, tr, acts, k, v);
    BothSides(c, tr, acts, k);
    ServedVersionPrices(c, tr[k].rules, tr[o.begun].rules.now, o.ruling, o.input, o.breakdown.priorUnpaid);
  }

  /** No amount that reaches a notification text is negative. */
  lemma NoNegativeAmounts(c: R.Config, tr: seq<State>, acts: seq<Action>, k: nat)
    requires Behaviour(c, tr, acts) && k <= |acts|
    ensures forall m :: m in tr[k].settle.createdQueue ==> m.finalAmount >= 0
    ensures forall m :: m in tr[k].settle.completedQueue ==> m.amount >= 0
  {
    var s := tr[k].settle;
    var ra, sa := Projections(c, tr, acts, 0, k);
    Causality.MessagesAreTrue(tr[0].settle, sa, s);
    forall m | m in s.createdQueue ensures m.finalAmount >= 0 { FineNotNegative(c, tr, acts, k, m.violationId); }
    forall m | m in s.completedQueue ensures m.amount >= 0 { FineNotNegative(c, tr, acts, k, m.violationId); }
  }
}
