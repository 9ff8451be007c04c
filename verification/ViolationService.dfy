/**
 The violation service as one process runs it: its violations and plates tables and the queue its
 violations are announced on.
 */
module ViolationService {
  import opened Fine
  import opened Violations
  import opened Issuance
  import opened Pricing
  import opened Options
  import Broker
  import R = RuleVersions
  import S = Settlement
  import PayRuns
  import Causality
  import Confluence
  import Quiescence

  datatype Faults = Faults(countFails: bool, photoFails: bool, ownerFails: bool, insertFails: bool, delivered: bool)

  datatype CreateResult = Created(v: nat, row: Violation) | InvalidInput | Unavailable

  /** What Create answers: served the given version, or none, and met by these failures. */
  function CreateOutcome(rows: Table, plates: map<string, string>, now: Time, input: Input, active: Option<R.Version>,
                         v: nat, f: Faults): CreateResult {
    if !ValidInput(input) then InvalidInput
    else if active.None? || f.countFails then Unavailable
    else
      match Calculate(active.value.ruleset, input.violationType, input.at, PriorCount(rows, input.plate, input.at.instant))
      case UnknownType => InvalidInput
      case Priced(b) =>
        if f.photoFails || f.ownerFails || f.insertFails then Unavailable
        else Created(v, RowOf(input, active.value, b, OwnerOf(plates, input.plate), now))
  }

  /** Field by field, the unpaid row of the input, priced by the version for the count it carries. */
  predicate SnapshotOf(row: Violation, input: Input, version: R.Version, owner: string, now: Time) {
    && row.plate == input.plate && row.violationType == input.violationType && row.location == input.location
    && row.occurredAt == input.at.instant && row.issuedByEmail == input.issuedByEmail
    && row.ownerEmail == owner && row.createdAt == now && !row.paid
    && row.ruleVersionId == version.id && row.ruleVersion == version.number
    && PricedAs(version.ruleset, input.violationType, input.at, row.priorUnpaid,
                Breakdown(row.baseAmount, row.timeMultiplier, row.repeatMultiplier, row.priorUnpaid, row.finalAmount))
  }

  /** Violations of other plates do not affect what Create answers. */
  lemma OtherPlatesDoNotMatter(rows: Table, others: Table, plates: map<string, string>, now: Time, input: Input,
                               active: Option<R.Version>, v: nat, f: Faults)
    requires forall u :: u in rows && rows[u].plate == input.plate ==> u in others && others[u] == rows[u]
    requires forall u :: u in others && others[u].plate == input.plate ==> u in rows && rows[u] == others[u]
    ensures CreateOutcome(rows, plates, now, input, active, v, f) == CreateOutcome(others, plates, now, input, active, v, f)
  {
    OtherPlatesDoNotCount(rows, others, input.plate, input.at.instant);
  }

  /** The two protocol steps of a Create: the insert and the publish after it. */
  function Issue(w: S.State, v: nat, row: Violation, delivered: bool): S.State {
    w.(violations := w.violations[v := row],
       createdQueue := Announced(w.createdQueue, v, row, delivered))
  }

  function Announced(queue: multiset<S.ViolationCreated>, v: nat, row: Violation, delivered: bool)
    : multiset<S.ViolationCreated>
  {
    if delivered then queue + multiset{S.CreatedEvent(v, row)} else queue
  }

  /** Issuing a violation is a run of the settlement protocol, and keeps its invariant. */
  lemma IssueIsRun(w: S.State, v: nat, row: Violation, delivered: bool)
    requires v !in w.violations && !row.paid && w.announcing <= w.violations.Keys
    ensures S.Run(w, [] + [S.InsertViolation(v, row)] + [S.PublishCreated(v, delivered)], Issue(w, v, row, delivered))
  {
    var none: seq<S.Action> := [];
    var mid := w.(violations := w.violations[v := row], announcing := w.announcing + {v});
    PayRuns.RunThen(w, none, w, S.InsertViolation(v, row), mid);
    assert w.announcing + {v} - {v} == w.announcing;
    PayRuns.RunThen(w, none + [S.InsertViolation(v, row)], mid, S.PublishCreated(v, delivered), Issue(w, v, row, delivered));
  }

  lemma IssueKeepsInv(w: S.State, v: nat, row: Violation, delivered: bool)
    requires Causality.Inv(w) && v !in w.violations && !row.paid
    ensures Causality.Inv(Issue(w, v, row, delivered))
  {
    IssueIsRun(w, v, row, delivered);
    Causality.InvRun(w, [] + [S.InsertViolation(v, row)] + [S.PublishCreated(v, delivered)], Issue(w, v, row, delivered));
  }

  // ------------------------------------------------------- the payment.completed handler

  /** Marks the event's violation paid. */
  function HandleCompleted(): (Table, S.PaymentCompleted) -> Table {
    (rows: Table, evt: S.PaymentCompleted) => MarkPaid(rows, evt.violationId)
  }

  lemma CompletedHandlerConfluent()
    ensures Broker.Idempotent(HandleCompleted()) && Broker.Commutes(HandleCompleted())
  {
    var handle := HandleCompleted();
    forall rows: Table, m: S.PaymentCompleted ensures handle(handle(rows, m), m) == handle(rows, m) {
      MarkTwice(rows, m.violationId);
    }
    forall rows: Table, m: S.PaymentCompleted, n: S.PaymentCompleted
      ensures handle(handle(rows, m), n) == handle(handle(rows, n), m)
    {
      MarksCommute(rows, m.violationId, n.violationId);
    }
  }

  /** Two consumers that handled the same payment events, in whatever order and however often, leave
      the same violations. */
  lemma CompletedConsumersAgree(rows: Table, a: seq<S.PaymentCompleted>, b: seq<S.PaymentCompleted>)
    requires forall m :: m in a <==> m in b
    ensures Broker.Fold(HandleCompleted(), rows, a) == Broker.Fold(HandleCompleted(), rows, b)
  {
    CompletedHandlerConfluent();
    Broker.FoldConfluent(HandleCompleted(), rows, a, b);
  }

  lemma MarkTwice(rows: Table, v: nat)
    ensures MarkPaid(MarkPaid(rows, v), v) == MarkPaid(rows, v)
  {
  }

  lemma MarksCommute(rows: Table, u: nat, v: nat)
    ensures MarkPaid(MarkPaid(rows, u), v) == MarkPaid(MarkPaid(rows, v), u)
  {
  }

  // ---------------------------------------------------------------------- the service

  class Service {
    var rows: Table
    var plates: map<string, string>
    var createdQueue: multiset<S.ViolationCreated>
    var now: Time

    constructor (now: Time)
      ensures rows == map[] && plates == map[] && createdQueue == multiset{} && this.now == now
    {
      rows, plates, createdQueue := map[], map[], multiset{};
      this.now := now;
    }

    /** INSERT INTO plates ... ON CONFLICT (plate) DO NOTHING. */
    method SeedPlate(plate: string, owner: string)
      modifies this`plates
      ensures OwnerOf(plates, plate) == if plate in old(plates) then OwnerOf(old(plates), plate) else owner
      ensures forall p :: p != plate ==> OwnerOf(plates, p) == OwnerOf(old(plates), p)
    {
      if plate !in plates { plates := plates[plate := owner]; }
    }

    method PublishCreated(v: nat, row: Violation, delivered: bool)
      modifies this`createdQueue
      ensures createdQueue == Announced(old(createdQueue), v, row, delivered)
    {
      if delivered { createdQueue := createdQueue + multiset{S.CreatedEvent(v, row)}; }
    }

    /** Create. active: the rules service's answer, if it gave one; v: the generated row id.
        A created row is the snapshot of the served version's calculation for the unpaid rows of the
        plate in the 90 days before; any failure leaves tables and queue as they were. */
    method Create(input: Input, active: Option<R.Version>, v: nat, f: Faults) returns (r: CreateResult)
      requires v !in rows
      modifies this`rows, this`createdQueue
      ensures !ValidInput(input) ==> r == InvalidInput
      ensures !r.Created? ==> rows == old(rows) && createdQueue == old(createdQueue)
      ensures r == CreateOutcome(old(rows), plates, now, input, active, v, f)
      ensures (input.plate == "" || input.location == "" || input.at.instant == -62_135_596_800_000
               || input.violationType !in ["expired_meter", "no_parking_zone", "blocking_hydrant", "disabled_spot"])
        ==> r == InvalidInput
      ensures r.Created? ==>
        && active.Some? && r.v == v && SnapshotOf(r.row, input, active.value, OwnerOf(plates, input.plate), now)
        && r.row.priorUnpaid
           == |set u | u in old(rows) && old(rows)[u].plate == input.plate && !old(rows)[u].paid
                       && input.at.instant - 7_776_000_000 <= old(rows)[u].occurredAt < input.at.instant|
      ensures r.Created? ==>
        rows == old(rows)[v := r.row] && createdQueue == Announced(old(createdQueue), v, r.row, f.delivered)
      ensures ValidInput(input) && active.Some? && Valid(active.value.ruleset) ==>
        (r.Created? <==> !f.countFails && !f.photoFails && !f.ownerFails && !f.insertFails)
    {
      if input.plate == "" || input.location == "" || input.at.instant == ZERO_INSTANT { return InvalidInput; }
      if input.violationType !in VIOLATION_TYPES { return InvalidInput; }
      if active.None? { return Unavailable; }
      if f.countFails { return Unavailable; }
      var prior := PriorCount(rows, input.plate, input.at.instant);
      if Valid(active.value.ruleset) { ValidRulesetPrices(active.value.ruleset, input.violationType, input.at, prior); }
      var priced := Calculate(active.value.ruleset, input.violationType, input.at, prior);
      if priced.UnknownType? { return InvalidInput; }
      if f.photoFails { return Unavailable; }
      if f.ownerFails { return Unavailable; }
      var owner := OwnerOf(plates, input.plate);
      if f.insertFails { return Unavailable; }
      var row := RowOf(input, active.value, priced.breakdown, owner, now);
      CalculateIff(active.value.ruleset, input.violationType, input.at, prior, priced.breakdown);
      CountIsOfPlate(rows, input.plate, input.at.instant);
      rows := rows[v := row];
      PublishCreated(v, row, f.delivered);
      return Created(v, row);
    }

    /** Driven by payment.completed; marking twice, or marking an unknown violation, changes nothing more. */
    method MarkViolationPaid(v: nat, dbOk: bool) returns (ok: bool)
      modifies this`rows
      ensures ok == dbOk && rows == if ok then MarkPaid(old(rows), v) else old(rows)
    {
      if dbOk && v in rows { rows := rows[v := rows[v].(paid := true)]; }
      return dbOk;
    }

    /** The service's consumer, over its own queue: whatever the order, the duplicates and the
        failures, exactly the violations of the queued events are marked paid. */
    method ConsumeCompleted(exchange: Broker.Exchange<S.PaymentCompleted>, queue: string, outcomes: seq<S.Outcome>)
      requires queue in exchange.ready
      modifies this`rows, exchange`ready
      ensures exchange.ready == old(exchange.ready)[queue := multiset{}]
      ensures rows == Confluence.PaidTarget(old(rows), old(exchange.ready)[queue])
    {
      var t, handled, acked, deliveries := exchange.Consume(queue, HandleCompleted(), rows, outcomes);
      FoldMarks(rows, handled);
      Confluence.SameEventsToldOf(rows, multiset(handled), old(exchange.ready)[queue]);
      rows := t;
    }
  }

  lemma MarkTarget(rows: Table, queue: multiset<S.PaymentCompleted>, m: S.PaymentCompleted)
    requires m in queue
    ensures MarkPaid(Confluence.PaidTarget(rows, queue - multiset{m}), m.violationId) == Confluence.PaidTarget(rows, queue)
  {
  }

  lemma {:induction false} FoldMarks(rows: Table, log: seq<S.PaymentCompleted>)
    ensures Broker.Fold(HandleCompleted(), rows, log) == Confluence.PaidTarget(rows, multiset(log))
    decreases |log|
  {
    if log != [] {
      var rest, last := log[..|log| - 1], log[|log| - 1];
      FoldMarks(rows, rest);
      assert log == rest + [last];
      assert multiset(log) - multiset{last} == multiset(rest);
      MarkTarget(rows, multiset(log), last);
    }
  }
}
