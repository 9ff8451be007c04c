/**
 The violation service's Create, with its failures, as a segment of a behaviour of the whole system:
 what the method does is what the system's steps do, so every theorem about behaviours holds of it.
 */
module CreateRuns {
  import opened Options
  import opened Traces
  import opened Fine
  import opened Violations
  import opened Issuance
  import opened Snapshots
  import opened ViolationService
  import R = RuleVersions
  import S = Settlement

  /** w with the Create call n, and the two sides, as given. */
  function Stage(w: State, n: nat, create: Create, rules: R.State, settle: S.State, steps: nat): State {
    State(rules, settle, w.plates, w.creates[n := create], steps)
  }

  /** The call takes its next step, which does not touch the rules service. */
  lemma Next(c: R.Config, w: State, acts: seq<Action>, n: nat, create: Create, rules: R.State, settle: S.State, steps: nat, a: Action)
    requires Run(c, w, acts, Stage(w, n, create, rules, settle, steps))
    requires Actor(a) == Some(n) && RulesPart(a).None? && Enabled(c, Stage(w, n, create, rules, settle, steps), a)
    ensures var s := Stage(w, n, create, rules, settle, steps);
            Run(c, w, acts + [a], Stage(w, n, CreateAfter(s, a), rules, SettleAfter(c, s, a), steps + 1))
  {
    var s := Stage(w, n, create, rules, settle, steps);
    var t := Stage(w, n, CreateAfter(s, a), rules, SettleAfter(c, s, a), steps + 1);
    assert t.creates == CreatesAfter(s, a);
    LeadsThen(Stepping(c), w, acts, s, a, t);
  }

  // ------------------------------------------------------------- asking for the rules

  function Lift(ra: seq<R.Action>): seq<Action> {
    if ra == [] then [] else [Rules(ra[0])] + Lift(ra[1..])
  }

  predicate NoTick(ra: seq<R.Action>) {
    forall a :: a in ra ==> !a.Tick?
  }

  /** What the rules service does meanwhile. */
  lemma {:induction false} RulesMeanwhile(c: R.Config, w: State, n: nat, create: Create, r: R.State, ra: seq<R.Action>,
                                          r': R.State, settle: S.State, steps: nat)
    requires R.Run(c, r, ra, r') && NoTick(ra)
    ensures Run(c, Stage(w, n, create, r, settle, steps), Lift(ra), Stage(w, n, create, r', settle, steps + |ra|))
    decreases |ra|
  {
    if ra != [] {
      var m :| R.Enabled(c, r, ra[0]) && m == R.Apply(c, r, ra[0]) && R.Run(c, m, ra[1..], r');
      RulesMeanwhile(c, w, n, create, m, ra[1..], r', settle, steps + 1);
      var s, mid := Stage(w, n, create, r, settle, steps), Stage(w, n, create, m, settle, steps + 1);
      assert !ra[0].Tick?;
      assert Step(c, s, Rules(ra[0]), mid);
      assert Lift(ra)[0] == Rules(ra[0]) && Lift(ra)[1..] == Lift(ra[1..]);
    }
  }

  /** The call n begins and asks, as reader q; the rules service then takes the steps ra. */
  function AskActions(n: nat, input: Input, q: nat, ra: seq<R.Action>): seq<Action> {
    [] + [Begin(n, input)] + [AskRules(n, q)] + Lift(ra)
  }

  /** The reader's answer, if it got one. */
  function Served(r: R.State, q: nat): Option<R.Version> {
    if q in r.readers && r.readers[q].Answered? then Some(r.readers[q].version) else None
  }

  lemma Begins(c: R.Config, w: State, n: nat, input: Input)
    requires n !in w.creates
    ensures Run(c, w, [] + [Begin(n, input)],
                Stage(w, n, Create(input, w.steps, if ValidInput(input) then Asking else ErrInvalidInput),
                      w.rules, w.settle, w.steps + 1))
  {
    var none: seq<Action> := [];
    LeadsThen(Stepping(c), w, none, w, Begin(n, input),
              Stage(w, n, Create(input, w.steps, if ValidInput(input) then Asking else ErrInvalidInput),
                    w.rules, w.settle, w.steps + 1));
  }

  lemma AskStep(c: R.Config, w: State, n: nat, create: Create, q: nat, steps: nat)
    requires create.phase.Asking? && q !in w.rules.readers
    ensures Step(c, Stage(w, n, create, w.rules, w.settle, steps), AskRules(n, q),
                 Stage(w, n, create.(phase := Waiting(q)), R.WithReader(w.rules, q, R.Asking), w.settle, steps + 1))
  {
    assert w.creates[n := create][n := create.(phase := Waiting(q))] == w.creates[n := create.(phase := Waiting(q))];
  }

  lemma Asks(c: R.Config, w: State, n: nat, input: Input, q: nat, ra: seq<R.Action>, r': R.State)
    requires n !in w.creates && q !in w.rules.readers && ValidInput(input)
    requires R.Run(c, R.WithReader(w.rules, q, R.Asking), ra, r') && NoTick(ra)
    ensures Run(c, w, AskActions(n, input, q, ra),
                Stage(w, n, Create(input, w.steps, Waiting(q)), r', w.settle, w.steps + 2 + |ra|))
  {
    Begins(c, w, n, input);
    var asking, waiting := Create(input, w.steps, Asking), Create(input, w.steps, Waiting(q));
    var asked := R.WithReader(w.rules, q, R.Asking);
    AskStep(c, w, n, asking, q, w.steps + 1);
    LeadsThen(Stepping(c), w, [] + [Begin(n, input)], Stage(w, n, asking, w.rules, w.settle, w.steps + 1),
              AskRules(n, q), Stage(w, n, waiting, asked, w.settle, w.steps + 2));
    RulesMeanwhile(c, w, n, waiting, asked, ra, r', w.settle, w.steps + 2);
    LeadsConcat(Stepping(c), w, [] + [Begin(n, input)] + [AskRules(n, q)],
                Stage(w, n, waiting, asked, w.settle, w.steps + 2), Lift(ra),
                Stage(w, n, waiting, r', w.settle, w.steps + 2 + |ra|));
  }

  // --------------------------------------------------------------- from there to the end

  lemma Serves(c: R.Config, w: State, acts: seq<Action>, n: nat, create: Create, r: R.State, steps: nat)
      returns (ruling: Ruling)
    requires create.phase.Waiting? && Served(r, create.phase.q).Some?
    requires Run(c, w, acts, Stage(w, n, create, r, w.settle, steps))
    ensures Some(ruling.version) == Served(r, create.phase.q)
    ensures Run(c, w, acts + [TakeRules(n)], Stage(w, n, create.(phase := Ruled(ruling)), r, w.settle, steps + 1))
  {
    var answer := r.readers[create.phase.q];
    ruling := Ruling(answer.version, answer.readAt, answer.at);
    Next(c, w, acts, n, create, r, w.settle, steps, TakeRules(n));
  }

  lemma Breaks(c: R.Config, w: State, acts: seq<Action>, n: nat, create: Create, r: R.State, steps: nat)
    requires !create.phase.Issued? && !create.phase.ErrInvalidInput?
    requires Run(c, w, acts, Stage(w, n, create, r, w.settle, steps))
    ensures Run(c, w, acts + [Fail(n)], Stage(w, n, create.(phase := Failed), r, w.settle, steps + 1))
  {
    Next(c, w, acts, n, create, r, w.settle, steps, Fail(n));
  }

  /** Counting and pricing. */
  lemma Prices(c: R.Config, w: State, acts: seq<Action>, n: nat, create: Create, r: R.State, steps: nat)
      returns (phase: Phase)
    requires create.phase.Ruled? && Run(c, w, acts, Stage(w, n, create, r, w.settle, steps))
    ensures Run(c, w, acts + [Count(n)] + [Assess(n)], Stage(w, n, create.(phase := phase), r, w.settle, steps + 2))
    ensures var ruling, input := create.phase.ruling, create.input;
            match Calculate(ruling.version.ruleset, input.violationType, input.at,
                            PriorCount(w.settle.violations, input.plate, input.at.instant))
            case Priced(b) => phase == Assessed(ruling, steps, b)
            case UnknownType => phase == ErrInvalidInput
  {
    var ruling, input := create.phase.ruling, create.input;
    var prior := PriorCount(w.settle.violations, input.plate, input.at.instant);
    var counted := create.(phase := Counted(ruling, steps, prior));
    Next(c, w, acts, n, create, r, w.settle, steps, Count(n));
    Next(c, w, acts + [Count(n)], n, counted, r, w.settle, steps + 1, Assess(n));
    phase := PhaseAfter(Stage(w, n, counted, r, w.settle, steps + 1), Assess(n));
  }

  lemma FindsOwner(c: R.Config, w: State, acts: seq<Action>, n: nat, create: Create, r: R.State, steps: nat)
    requires create.phase.Assessed? && Run(c, w, acts, Stage(w, n, create, r, w.settle, steps))
    ensures var ph := create.phase;
            Run(c, w, acts + [LookupOwner(n)],
                Stage(w, n, create.(phase := Owned(ph.ruling, ph.counted, ph.breakdown, steps, OwnerOf(w.plates, create.input.plate))),
                      r, w.settle, steps + 1))
  {
    Next(c, w, acts, n, create, r, w.settle, steps, LookupOwner(n));
  }

  function Inserted(w: S.State, v: nat, row: Violation): S.State {
    w.(violations := w.violations[v := row], announcing := w.announcing + {v})
  }

  lemma AnnounceStep(c: R.Config, w: State, n: nat, create: Create, r: R.State, steps: nat, v: nat, row: Violation, delivered: bool)
    requires v !in w.settle.announcing
    ensures Step(c, Stage(w, n, create, r, Inserted(w.settle, v, row), steps), Settle(S.PublishCreated(v, delivered)),
                 Stage(w, n, create, r, Issue(w.settle, v, row, delivered), steps + 1))
  {
    assert w.settle.announcing + {v} - {v} == w.settle.announcing;
  }

  /** The insert and the announcement. */
  lemma Announces(c: R.Config, w: State, acts: seq<Action>, n: nat, create: Create, r: R.State, steps: nat, v: nat, delivered: bool)
    requires create.phase.Owned? && Run(c, w, acts, Stage(w, n, create, r, w.settle, steps))
    requires v !in w.settle.violations && w.settle.announcing <= w.settle.violations.Keys
    ensures var ph := create.phase;
            var row := RowOf(create.input, ph.ruling.version, ph.breakdown, ph.owner, w.settle.now);
            Run(c, w, acts + [Insert(n, v)] + [Settle(S.PublishCreated(v, delivered))],
                Stage(w, n, create.(phase := Issued(v)), r, Issue(w.settle, v, row, delivered), steps + 2))
  {
    var ph := create.phase;
    var row := RowOf(create.input, ph.ruling.version, ph.breakdown, ph.owner, w.settle.now);
    var issued := create.(phase := Issued(v));
    Next(c, w, acts, n, create, r, w.settle, steps, Insert(n, v));
    assert SettleAfter(c, Stage(w, n, create, r, w.settle, steps), Insert(n, v)) == Inserted(w.settle, v, row);
    AnnounceStep(c, w, n, issued, r, steps + 1, v, row, delivered);
    LeadsThen(Stepping(c), w, acts + [Insert(n, v)], Stage(w, n, issued, r, Inserted(w.settle, v, row), steps + 1),
              Settle(S.PublishCreated(v, delivered)), Stage(w, n, issued, r, Issue(w.settle, v, row, delivered), steps + 2));
  }

  /** The system's call n and the tables, after the method has answered r. */
  predicate Ends(w: State, u: State, n: nat, r: CreateResult, delivered: bool) {
    && n in u.creates && u.plates == w.plates && u.creates == w.creates[n := u.creates[n]]
    && match r
       case Created(v, row) => u.creates[n].phase == Issued(v) && u.settle == Issue(w.settle, v, row, delivered)
       case InvalidInput => u.creates[n].phase == ErrInvalidInput && u.settle == w.settle
       case Unavailable => u.creates[n].phase == Failed && u.settle == w.settle
  }

  /** Create, served whatever the rules service answers meanwhile, and met by any failures, is a
      segment of a behaviour that ends with the answer and the tables of the method. */
  lemma CreateIsRun(c: R.Config, w: State, n: nat, input: Input, q: nat, ra: seq<R.Action>, r': R.State, v: nat, f: Faults)
      returns (acts: seq<Action>, u: State)
    requires n !in w.creates && q !in w.rules.readers && v !in w.settle.violations
    requires w.settle.announcing <= w.settle.violations.Keys
    requires R.Run(c, R.WithReader(w.rules, q, R.Asking), ra, r') && NoTick(ra)
    ensures Run(c, w, acts, u) && u.rules == if ValidInput(input) then r' else w.rules
    ensures Ends(w, u, n, CreateOutcome(w.settle.violations, w.plates, w.settle.now, input, Served(r', q), v, f), f.delivered)
  {
    if !ValidInput(input) {
      Begins(c, w, n, input);
      acts := [] + [Begin(n, input)];
      u := Stage(w, n, Create(input, w.steps, ErrInvalidInput), w.rules, w.settle, w.steps + 1);
    } else {
      Asks(c, w, n, input, q, ra, r');
      acts, u := AskedToEnd(c, w, AskActions(n, input, q, ra), n, Create(input, w.steps, Waiting(q)), r', w.steps + 2 + |ra|, v, f);
    }
  }

  lemma AskedToEnd(c: R.Config, w: State, asked: seq<Action>, n: nat, create: Create, r: R.State, steps: nat, v: nat, f: Faults)
      returns (acts: seq<Action>, u: State)
    requires create.phase.Waiting? && ValidInput(create.input)
    requires v !in w.settle.violations && w.settle.announcing <= w.settle.violations.Keys
    requires Run(c, w, asked, Stage(w, n, create, r, w.settle, steps))
    ensures Run(c, w, acts, u) && u.rules == r
    ensures Ends(w, u, n, CreateOutcome(w.settle.violations, w.plates, w.settle.now, create.input, Served(r, create.phase.q), v, f),
                 f.delivered)
  {
    if Served(r, create.phase.q).None? {
      Breaks(c, w, asked, n, create, r, steps);
      acts, u := asked + [Fail(n)], Stage(w, n, create.(phase := Failed), r, w.settle, steps + 1);
    } else {
      var ruling := Serves(c, w, asked, n, create, r, steps);
      acts, u := RuledToEnd(c, w, asked + [TakeRules(n)], n, create.(phase := Ruled(ruling)), r, steps + 1, v, f);
    }
  }

  lemma RuledToEnd(c: R.Config, w: State, ruled: seq<Action>, n: nat, create: Create, r: R.State, steps: nat, v: nat, f: Faults)
      returns (acts: seq<Action>, u: State)
    requires create.phase.Ruled? && ValidInput(create.input)
    requires v !in w.settle.violations && w.settle.announcing <= w.settle.violations.Keys
    requires Run(c, w, ruled, Stage(w, n, create, r, w.settle, steps))
    ensures Run(c, w, acts, u) && u.rules == r
    ensures Ends(w, u, n, CreateOutcome(w.settle.violations, w.plates, w.settle.now, create.input,
                                        Some(create.phase.ruling.version), v, f), f.delivered)
  {
    if f.countFails {
      Breaks(c, w, ruled, n, create, r, steps);
      acts, u := ruled + [Fail(n)], Stage(w, n, create.(phase := Failed), r, w.settle, steps + 1);
    } else {
      var phase := Prices(c, w, ruled, n, create, r, steps);
      acts := ruled + [Count(n)] + [Assess(n)];
      u := Stage(w, n, create.(phase := phase), r, w.settle, steps + 2);
      if phase.Assessed? { acts, u := AssessedToEnd(c, w, acts, n, create.(phase := phase), r, steps + 2, v, f); }
    }
  }

  lemma AssessedToEnd(c: R.Config, w: State, assessed: seq<Action>, n: nat, create: Create, r: R.State, steps: nat, v: nat, f: Faults)
      returns (acts: seq<Action>, u: State)
    requires create.phase.Assessed?
    requires v !in w.settle.violations && w.settle.announcing <= w.settle.violations.Keys
    requires Run(c, w, assessed, Stage(w, n, create, r, w.settle, steps))
    ensures Run(c, w, acts, u) && u.rules == r
    ensures var row := RowOf(create.input, create.phase.ruling.version, create.phase.breakdown,
                             OwnerOf(w.plates, create.input.plate), w.settle.now);
            Ends(w, u, n, if f.photoFails || f.ownerFails || f.insertFails then Unavailable else Created(v, row), f.delivered)
  {
    if f.photoFails || f.ownerFails {
      Breaks(c, w, assessed, n, create, r, steps);
      acts, u := assessed + [Fail(n)], Stage(w, n, create.(phase := Failed), r, w.settle, steps + 1);
    } else {
      var ph := create.phase;
      var owned := create.(phase := Owned(ph.ruling, ph.counted, ph.breakdown, steps, OwnerOf(w.plates, create.input.plate)));
      FindsOwner(c, w, assessed, n, create, r, steps);
      acts := assessed + [LookupOwner(n)];
      if f.insertFails {
        Breaks(c, w, acts, n, owned, r, steps + 1);
        acts, u := acts + [Fail(n)], Stage(w, n, owned.(phase := Failed), r, w.settle, steps + 2);
      } else {
        Announces(c, w, acts, n, owned, r, steps + 1, v, f.delivered);
        acts := acts + [Insert(n, v)] + [Settle(S.PublishCreated(v, f.delivered))];
        var row := RowOf(owned.input, ph.ruling.version, ph.breakdown, owned.phase.owner, w.settle.now);
        u := Stage(w, n, owned.(phase := Issued(v)), r, Issue(w.settle, v, row, f.delivered), steps + 3);
      }
    }
  }

  /** So the row the method returns, in any reachable state, can be derived again from the rules table. */
  lemma CreatedRowRederives(c: R.Config, tr: seq<State>, acts: seq<Action>, n: nat, input: Input, q: nat,
                            ra: seq<R.Action>, r': R.State, v: nat, f: Faults)
      returns (offset: int)
    requires Behaviour(c, tr, acts)
    requires var w := tr[|acts|];
             && n !in w.creates && q !in w.rules.readers && v !in w.settle.violations
             && R.Run(c, R.WithReader(w.rules, q, R.Asking), ra, r') && NoTick(ra)
             && CreateOutcome(w.settle.violations, w.plates, w.settle.now, input, Served(r', q), v, f).Created?
    ensures var w := tr[|acts|];
            Rederives(r'.rows, CreateOutcome(w.settle.violations, w.plates, w.settle.now, input, Served(r', q), v, f).row, offset)
  {
    var w := tr[|acts|];
    BothSides(c, tr, acts, |acts|);
    var more, u := CreateIsRun(c, w, n, input, q, ra, r', v, f);
    var longer := BehaviourContinues(c, tr, acts, more, u);
    var o := FinesRederivable(c, longer, acts + more, |acts + more|, v);
    offset := o.input.at.offset;
  }
}
