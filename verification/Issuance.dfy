/**
 The whole system: Create calls of the violation service between the rules service and the
 settlement protocol. Every step of either side interleaves with the statements of every Create;
 the property is that each fine on record can be derived again, forever, from the rule history.
 */
module Issuance {
  import opened Options
  import opened Traces
  import opened Fine
  import opened Violations
  import R = RuleVersions
  import S = Settlement
  import Causality

  /** The instant of Go's zero time, in milliseconds. */
  const ZERO_INSTANT: Time := -62_135_596_800_000

  datatype Input = Input(plate: string, violationType: string, location: string, at: Stamp, issuedByEmail: string)

  /** The version a Create was served, when it was read from the store and when it was answered. */
  datatype Ruling = Ruling(version: R.Version, readAt: Time, at: Time)

  /** Where a Create call is; counted and looked are the numbers of the steps that did so. */
  datatype Phase =
    | Asking
    | Waiting(q: nat)
    | Ruled(ruling: Ruling)
    | Counted(ruling: Ruling, counted: nat, prior: nat)
    | Assessed(ruling: Ruling, counted: nat, breakdown: Breakdown)
    | Owned(ruling: Ruling, counted: nat, breakdown: Breakdown, looked: nat, owner: string)
    | Issued(v: nat)
    | ErrInvalidInput
    | Failed

  datatype Create = Create(input: Input, begun: nat, phase: Phase)

  /** steps: how many steps the system has taken. */
  datatype State = State(
    rules: R.State, settle: S.State, plates: map<string, string>, creates: map<nat, Create>, steps: nat)

  datatype Action =
    | Tick(elapsed: Time)
    | Rules(rule: R.Action)
    | Settle(settlement: S.Action)
    | SeedPlate(plate: string, owner: string)
    | Begin(n: nat, input: Input)
    | AskRules(n: nat, q: nat)
    | TakeRules(n: nat)
    | Count(n: nat)
    | Assess(n: nat)
    | LookupOwner(n: nat)
    | Insert(n: nat, v: nat)
    | Fail(n: nat)

  predicate ValidInput(input: Input) {
    && input.plate != "" && input.location != "" && input.at.instant != ZERO_INSTANT
    && input.violationType in VIOLATION_TYPES
  }

  /** "" for an unregistered plate. */
  function OwnerOf(plates: map<string, string>, plate: string): string {
    if plate in plates then plates[plate] else ""
  }

  function RowOf(input: Input, version: R.Version, b: Breakdown, owner: string, now: Time): Violation {
    Violation(input.plate, input.violationType, input.location, input.at.instant, owner, input.issuedByEmail,
              version.id, version.number, b.baseAmount, b.timeMultiplier, b.repeatMultiplier, b.priorUnpaid,
              b.finalAmount, false, now)
  }

  // ---------------------------------------------------------------- the transitions

  predicate Ready(s: State, a: Action) {
    match a
    case Tick(_) => true
    case Rules(ra) => !ra.Tick?
    case Settle(sa) => !sa.Tick? && !sa.InsertViolation?
    case SeedPlate(_, _) => true
    case Begin(n, _) => n !in s.creates
    case AskRules(n, _) => n in s.creates && s.creates[n].phase.Asking?
    case TakeRules(n) =>
      n in s.creates && s.creates[n].phase.Waiting? &&
      s.creates[n].phase.q in s.rules.readers && s.rules.readers[s.creates[n].phase.q].Answered?
    case Count(n) => n in s.creates && s.creates[n].phase.Ruled?
    case Assess(n) => n in s.creates && s.creates[n].phase.Counted?
    case LookupOwner(n) => n in s.creates && s.creates[n].phase.Assessed?
    case Insert(n, _) => n in s.creates && s.creates[n].phase.Owned?
    case Fail(n) => n in s.creates && !(s.creates[n].phase.Issued? || s.creates[n].phase.ErrInvalidInput?)
  }

  /** The rules service's part in a step, if it has one. */
  function RulesPart(a: Action): Option<R.Action> {
    match a
    case Tick(d) => Some(R.Tick(d))
    case Rules(ra) => Some(ra)
    case AskRules(_, q) => Some(R.Ask(q))
    case _ => None
  }

  /** The settlement tables' part in a step, if they have one. */
  function SettlePart(s: State, a: Action): Option<S.Action>
    requires Ready(s, a)
  {
    match a
    case Tick(d) => Some(S.Tick(d))
    case Settle(sa) => Some(sa)
    case Insert(n, v) =>
      var create := s.creates[n];
      var ph := create.phase;
      Some(S.InsertViolation(v, RowOf(create.input, ph.ruling.version, ph.breakdown, ph.owner, s.settle.now)))
    case _ => None
  }

  predicate Enabled(c: R.Config, s: State, a: Action) {
    && Ready(s, a)
    && (RulesPart(a).Some? ==> R.Enabled(c, s.rules, RulesPart(a).value))
    && (SettlePart(s, a).Some? ==> S.Enabled(s.settle, SettlePart(s, a).value))
  }

  ghost function RulesAfter(c: R.Config, s: State, a: Action): R.State
    requires Enabled(c, s, a)
  {
    if RulesPart(a).Some? then R.Apply(c, s.rules, RulesPart(a).value) else s.rules
  }

  function SettleAfter(c: R.Config, s: State, a: Action): S.State
    requires Enabled(c, s, a)
  {
    if SettlePart(s, a).Some? then S.Apply(s.settle, SettlePart(s, a).value) else s.settle
  }

  function Actor(a: Action): Option<nat> {
    match a
    case Begin(n, _) => Some(n)
    case AskRules(n, _) => Some(n)
    case TakeRules(n) => Some(n)
    case Count(n) => Some(n)
    case Assess(n) => Some(n)
    case LookupOwner(n) => Some(n)
    case Insert(n, _) => Some(n)
    case Fail(n) => Some(n)
    case _ => None
  }

  /** The phase of the acting Create after its step. */
  function PhaseAfter(s: State, a: Action): Phase
    requires Ready(s, a) && Actor(a).Some?
  {
    match a
    case Begin(_, input) => if ValidInput(input) then Asking else ErrInvalidInput
    case AskRules(_, q) => Waiting(q)
    case TakeRules(n) =>
      var r := s.rules.readers[s.creates[n].phase.q];
      Ruled(Ruling(r.version, r.readAt, r.at))
    case Count(n) =>
      var input := s.creates[n].input;
      Counted(s.creates[n].phase.ruling, s.steps, PriorCount(s.settle.violations, input.plate, input.at.instant))
    case Assess(n) =>
      var input, ph := s.creates[n].input, s.creates[n].phase;
      (match Calculate(ph.ruling.version.ruleset, input.violationType, input.at, ph.prior)
       case Priced(b) => Assessed(ph.ruling, ph.counted, b)
       case UnknownType => ErrInvalidInput)
    case LookupOwner(n) =>
      var ph := s.creates[n].phase;
      Owned(ph.ruling, ph.counted, ph.breakdown, s.steps, OwnerOf(s.plates, s.creates[n].input.plate))
    case Insert(_, v) => Issued(v)
    case Fail(_) => Failed
  }

  function CreateAfter(s: State, a: Action): Create
    requires Ready(s, a) && Actor(a).Some?
  {
    if a.Begin? then Create(a.input, s.steps, PhaseAfter(s, a))
    else s.creates[Actor(a).value].(phase := PhaseAfter(s, a))
  }

  function CreatesAfter(s: State, a: Action): map<nat, Create>
    requires Ready(s, a)
  {
    if Actor(a).Some? then s.creates[Actor(a).value := CreateAfter(s, a)] else s.creates
  }

  /** INSERT INTO plates ... ON CONFLICT (plate) DO NOTHING. */
  function PlatesAfter(s: State, a: Action): map<string, string> {
    if a.SeedPlate? && a.plate !in s.plates then s.plates[a.plate := a.owner] else s.plates
  }

  ghost predicate Step(c: R.Config, s: State, a: Action, t: State) {
    && Enabled(c, s, a)
    && t == State(RulesAfter(c, s, a), SettleAfter(c, s, a), PlatesAfter(s, a), CreatesAfter(s, a), s.steps + 1)
  }

  predicate Init(s: State) {
    && R.Init(s.rules) && S.Init(s.settle) && s.rules.now == s.settle.now
    && s.plates == map[] && s.creates == map[] && s.steps == 0
  }

  ghost function Stepping(c: R.Config): (State, Action, State) -> bool {
    (s: State, a: Action, t: State) => Step(c, s, a, t)
  }

  /** Part of a run, from any state. */
  ghost predicate Run(c: R.Config, s: State, acts: seq<Action>, t: State) {
    Leads(Stepping(c), s, acts, t)
  }

  /** The states a run goes through, and the step from each to the next. */
  ghost predicate Behaviour(c: R.Config, tr: seq<State>, acts: seq<Action>) {
    && c.ttl >= 0 && c.lag >= 0
    && |tr| == |acts| + 1 && Init(tr[0])
    && forall k :: 0 <= k < |acts| ==> Step(c, tr[k], acts[k], tr[k + 1])
  }

  // ---------------------------------------------------------------- both sides' runs

  /** Seen from either side, a behaviour of the whole system is a run of that side alone. */
  lemma {:induction false} Projections(c: R.Config, tr: seq<State>, acts: seq<Action>, j: nat, k: nat)
      returns (ra: seq<R.Action>, sa: seq<S.Action>)
    requires Behaviour(c, tr, acts) && j <= k <= |acts|
    ensures R.Run(c, tr[j].rules, ra, tr[k].rules)
    ensures S.Run(tr[j].settle, sa, tr[k].settle)
    decreases k
  {
    if j == k {
      ra, sa := [], [];
    } else {
      ra, sa := Projections(c, tr, acts, j, k - 1);
      var s, a, t := tr[k - 1], acts[k - 1], tr[k];
      assert Step(c, s, a, t);
      if RulesPart(a).Some? {
        R.RunThen(c, tr[j].rules, ra, s.rules, RulesPart(a).value);
        ra := ra + [RulesPart(a).value];
      }
      if SettlePart(s, a).Some? {
        LeadsThen(S.Step, tr[j].settle, sa, s.settle, SettlePart(s, a).value, t.settle);
        sa := sa + [SettlePart(s, a).value];
      }
    }
  }

  /** What the theorems about each side say, holds in the whole system. */
  lemma BothSides(c: R.Config, tr: seq<State>, acts: seq<Action>, k: nat)
    requires Behaviour(c, tr, acts) && k <= |acts|
    ensures R.Inv(c, tr[k].rules) && Causality.Inv(tr[k].settle)
  {
    var ra, sa := Projections(c, tr, acts, 0, k);
    R.InvRun(c, tr[0].rules, ra, tr[k].rules);
    Causality.InvRun(tr[0].settle, sa, tr[k].settle);
  }

  /** Snapshots are permanent: a row never changes again but for being marked paid, and a committed
      version never changes at all. */
  lemma SnapshotsPermanent(c: R.Config, tr: seq<State>, acts: seq<Action>, j: nat, k: nat)
    requires Behaviour(c, tr, acts) && j <= k <= |acts|
    ensures Causality.TableGrows(tr[j].settle.violations, tr[k].settle.violations)
    ensures R.Extends(tr[j].rules, tr[k].rules)
  {
    var ra, sa := Projections(c, tr, acts, j, k);
    R.VersionsNeverChange(c, tr[j].rules, ra, tr[k].rules);
    Causality.RunGrows(tr[j].settle, sa, tr[k].settle);
  }

  /** Every run from where a behaviour stands continues it. */
  lemma {:induction false} BehaviourContinues(c: R.Config, tr: seq<State>, acts: seq<Action>, more: seq<Action>, t: State)
      returns (longer: seq<State>)
    requires Behaviour(c, tr, acts) && Run(c, tr[|acts|], more, t)
    ensures Behaviour(c, longer, acts + more) && tr <= longer && longer[|acts + more|] == t
    decreases |more|
  {
    if more == [] {
      longer := tr;
      assert acts + more == acts;
    } else {
      var m :| Step(c, tr[|acts|], more[0], m) && Run(c, m, more[1..], t);
      longer := BehaviourContinues(c, tr + [m], acts + [more[0]], more[1..], t);
      assert acts + [more[0]] + more[1..] == acts + more;
    }
  }

  /** A registered plate keeps its owner. */
  lemma {:induction false} OwnersPermanent(c: R.Config, tr: seq<State>, acts: seq<Action>, j: nat, k: nat, plate: string)
    requires Behaviour(c, tr, acts) && j <= k <= |acts| && plate in tr[j].plates
    ensures plate in tr[k].plates && tr[k].plates[plate] == tr[j].plates[plate]
    decreases k
  {
    if j < k {
      OwnersPermanent(c, tr, acts, j, k - 1, plate);
      assert Step(c, tr[k - 1], acts[k - 1], tr[k]);
    }
  }
}
