/**
 The settlement protocol as a transition system: the violations, invoices and payments tables,
 the Redis payment locks, the two queues, a clock, and a program counter for every Pay call.
 One step is one statement, one delivery or one failure; steps of different calls interleave
 freely, messages are delivered in any order and any number of times, publishing is best
 effort, and a call may die between any two steps.
 */
module Settlement {
  import opened Options
  import opened Traces
  import opened Violations

  /** 15 seconds in milliseconds. */
  const LOCK_TTL: Time := 15_000

  const SCENARIO_SUCCESS: string := "success"
  const SCENARIO_FAILED: string := "failed"

  datatype InvoiceStatus = Open | Paid

  datatype Invoice = Invoice(
    violationId: nat, plate: string, violationType: string, ownerEmail: string, issuedByEmail: string,
    amount: int, status: InvoiceStatus, createdAt: Time)

  datatype ChargeStatus = StatusPaid | StatusFailed

  datatype Payment = Payment(
    invoiceId: nat, amount: int, scenario: string, status: ChargeStatus, transactionId: string)

  datatype ViolationCreated = ViolationCreated(
    violationId: nat, plate: string, violationType: string, ownerEmail: string, issuedByEmail: string,
    finalAmount: int, createdAt: Time)

  datatype PaymentCompleted = PaymentCompleted(
    invoiceId: nat, violationId: nat, plate: string, ownerEmail: string, issuedByEmail: string,
    amount: int, transactionId: string, paidAt: Time)

  datatype PayError = ErrInvalidScenario | ErrNotFound | ErrForbidden | ErrBusy | Internal

  datatype Answer =
    | Pending
    | Declined(error: PayError)
    | AlreadyPaid(transactionId: string)
    | Charged(status: ChargeStatus, transactionId: string)

  datatype Hold = NoHold | Held(since: Time)

  /** Where a Pay call is: the next thing it does. */
  datatype Phase = Requested | SawOpen | Locked | Recorded | Marked | Releasing | Finished | Crashed

  /** A Pay call. invoice: the open invoice it read, if it did; recorded: it inserted a paid payment. */
  datatype Call = Call(
    invoiceId: nat, scenario: string, caller: string, phase: Phase,
    invoice: Option<Invoice>, hold: Hold, transactionId: string, recorded: bool, answer: Answer)

  /** The lock key. Its value is the constant "1"; the holder is history. */
  datatype Lock = Lock(holder: nat, expires: Time)

  type Invoices = map<nat, Invoice>

  /** announcing: violations whose Create has inserted the row and not yet published. */
  datatype State = State(
    violations: Table, invoices: Invoices, payments: seq<Payment>, locks: map<nat, Lock>,
    createdQueue: multiset<ViolationCreated>, completedQueue: multiset<PaymentCompleted>,
    announcing: set<nat>, calls: map<nat, Call>, now: Time)

  /** Acked: handled and removed. Unacked: handled, but delivered again. Nacked: the handler failed. */
  datatype Outcome = Acked | Unacked | Nacked

  /** What SET NX comes back with: an answer, or an error that lost the command or only its answer. */
  datatype Reply = Answered | Lost | LostAfter

  datatype Action =
    | Tick(elapsed: Time)
    | InsertViolation(v: nat, row: Violation)
    | PublishCreated(v: nat, delivered: bool)
    | DeliverCreated(created: ViolationCreated, id: nat, outcome: Outcome)
    | DeliverCompleted(completed: PaymentCompleted, outcome: Outcome)
    | StartPay(c: nat, invoiceId: nat, scenario: string, caller: string)
    | PayRead(c: nat)
    | PayLock(c: nat, reply: Reply)
    | PayCharge(c: nat, uuid: string)
    | PayMark(c: nat)
    | PayPublish(c: nat, delivered: bool)
    | PayRelease(c: nat, redisOk: bool)
    | PayFail(c: nat)
    | PayCrash(c: nat)

  // ------------------------------------------------------------------ the statements

  function CreatedEvent(v: nat, row: Violation): ViolationCreated {
    ViolationCreated(v, row.plate, row.violationType, row.ownerEmail, row.issuedByEmail, row.finalAmount, row.createdAt)
  }

  predicate HasInvoice(invoices: Invoices, v: nat) {
    exists i :: i in invoices && invoices[i].violationId == v
  }

  /** INSERT INTO invoices ... ON CONFLICT (violation_id) DO NOTHING. */
  function CreateInvoice(invoices: Invoices, evt: ViolationCreated, id: nat, now: Time): Invoices {
    if HasInvoice(invoices, evt.violationId) then invoices
    else invoices[id := Invoice(evt.violationId, evt.plate, evt.violationType, evt.ownerEmail, evt.issuedByEmail,
                                evt.finalAmount, Open, now)]
  }

  /** The transaction of the latest successful payment, as the invoice query joins it; "" if none. */
  function LatestPaid(payments: seq<Payment>, i: nat): string {
    if payments == [] then ""
    else
      var last := payments[|payments| - 1];
      if last.invoiceId == i && last.status.StatusPaid? then last.transactionId
      else LatestPaid(payments[..|payments| - 1], i)
  }

  /** The mocked provider. */
  function Charge(scenario: string, uuid: string): (ChargeStatus, string) {
    (if scenario == SCENARIO_SUCCESS then StatusPaid else StatusFailed, "txn_" + uuid)
  }

  function CompletedEvent(i: nat, inv: Invoice, transactionId: string, now: Time): PaymentCompleted {
    PaymentCompleted(i, inv.violationId, inv.plate, inv.ownerEmail, inv.issuedByEmail, inv.amount, transactionId, now)
  }

  predicate LockLive(locks: map<nat, Lock>, i: nat, now: Time) {
    i in locks && now < locks[i].expires
  }

  /** What Pay does with the invoice it read: decline, answer at once, or go on to the lock. */
  function ReadInvoice(s: State, call: Call): Call {
    var i := call.invoiceId;
    if i !in s.invoices then call.(phase := Finished, answer := Declined(ErrNotFound))
    else if call.caller == "" || s.invoices[i].ownerEmail != call.caller
      then call.(phase := Finished, answer := Declined(ErrForbidden))
    else if s.invoices[i].status.Paid?
      then call.(phase := Finished, answer := AlreadyPaid(LatestPaid(s.payments, i)))
    else call.(phase := SawOpen, invoice := Some(s.invoices[i]))
  }

  function NewCall(invoiceId: nat, scenario: string, caller: string): Call {
    var call := Call(invoiceId, scenario, caller, Requested, None, NoHold, "", false, Pending);
    if scenario == SCENARIO_SUCCESS || scenario == SCENARIO_FAILED then call
    else call.(phase := Finished, answer := Declined(ErrInvalidScenario))
  }

  // ---------------------------------------------------------------- the transitions

  predicate At(s: State, c: nat, phase: Phase) {
    c in s.calls && s.calls[c].phase == phase
  }

  predicate Ended(call: Call) {
    call.phase == Finished || call.phase == Crashed
  }

  predicate Enabled(s: State, a: Action) {
    match a
    case Tick(d) => d >= 0
    case InsertViolation(v, row) => v !in s.violations && !row.paid
    case PublishCreated(v, _) => v in s.announcing && v in s.violations
    case DeliverCreated(m, id, _) => m in s.createdQueue && id !in s.invoices
    case DeliverCompleted(m, _) => m in s.completedQueue
    case StartPay(c, _, _, _) => c !in s.calls
    case PayRead(c) => At(s, c, Requested)
    case PayLock(c, _) => At(s, c, SawOpen)
    case PayCharge(c, _) => At(s, c, Locked) && s.calls[c].invoice.Some?
    case PayMark(c) => At(s, c, Recorded)
    case PayPublish(c, _) => At(s, c, Marked) && s.calls[c].invoice.Some?
    case PayRelease(c, _) => At(s, c, Releasing)
    case PayFail(c) => At(s, c, Requested) || At(s, c, Locked) || At(s, c, Recorded) || At(s, c, Marked)
    case PayCrash(c) => c in s.calls && !Ended(s.calls[c])
  }

  // What a step writes, table by table. Steps that a table's function does not name leave it alone.

  function ViolationsAfter(s: State, a: Action): Table
    requires Enabled(s, a)
  {
    match a
    case InsertViolation(v, row) => s.violations[v := row]
    case DeliverCompleted(m, outcome) =>
      if outcome.Nacked? then s.violations else MarkPaid(s.violations, m.violationId)
    case _ => s.violations
  }

  function AnnouncingAfter(s: State, a: Action): set<nat>
    requires Enabled(s, a)
  {
    match a
    case InsertViolation(v, _) => s.announcing + {v}
    case PublishCreated(v, _) => s.announcing - {v}
    case _ => s.announcing
  }

  /** Publish adds the event, an ack removes it; a lost publish, a nack or a redelivery does neither. */
  function CreatedAfter(s: State, a: Action): multiset<ViolationCreated>
    requires Enabled(s, a)
  {
    match a
    case PublishCreated(v, true) => s.createdQueue + multiset{CreatedEvent(v, s.violations[v])}
    case DeliverCreated(m, _, Acked) => s.createdQueue - multiset{m}
    case _ => s.createdQueue
  }

  function SetPaid(invoices: Invoices, i: nat): Invoices {
    if i in invoices then invoices[i := invoices[i].(status := Paid)] else invoices
  }

  function InvoicesAfter(s: State, a: Action): Invoices
    requires Enabled(s, a)
  {
    match a
    case DeliverCreated(m, id, outcome) =>
      if outcome.Nacked? then s.invoices else CreateInvoice(s.invoices, m, id, s.now)
    case PayMark(c) => SetPaid(s.invoices, s.calls[c].invoiceId)
    case _ => s.invoices
  }

  /** The row InsertPayment writes for a charge. */
  function PaymentRow(call: Call, uuid: string): Payment
    requires call.invoice.Some?
  {
    var (status, txn) := Charge(call.scenario, uuid);
    Payment(call.invoiceId, call.invoice.value.amount, call.scenario, status, txn)
  }

  function PaymentsAfter(s: State, a: Action): seq<Payment>
    requires Enabled(s, a)
  {
    match a
    case PayCharge(c, uuid) => s.payments + [PaymentRow(s.calls[c], uuid)]
    case _ => s.payments
  }

  function CompletedAfter(s: State, a: Action): multiset<PaymentCompleted>
    requires Enabled(s, a)
  {
    match a
    case PayPublish(c, true) =>
      var call := s.calls[c];
      s.completedQueue + multiset{CompletedEvent(call.invoiceId, call.invoice.value, call.transactionId, s.now)}
    case DeliverCompleted(m, Acked) => s.completedQueue - multiset{m}
    case _ => s.completedQueue
  }

  /** SET NX writes the key when it is absent or expired, and the command arrives. */
  function SetNX(locks: map<nat, Lock>, i: nat, c: nat, now: Time, reply: Reply): map<nat, Lock> {
    if reply.Lost? || LockLive(locks, i, now) then locks else locks[i := Lock(c, now + LOCK_TTL)]
  }

  /** Del removes the key whoever holds it; a call that got no answer to SET NX has none to delete. */
  function LocksAfter(s: State, a: Action): map<nat, Lock>
    requires Enabled(s, a)
  {
    match a
    case PayLock(c, reply) => SetNX(s.locks, s.calls[c].invoiceId, c, s.now, reply)
    case PayRelease(c, true) => if s.calls[c].hold.Held? then s.locks - {s.calls[c].invoiceId} else s.locks
    case _ => s.locks
  }

  /** The call that takes the step, if a Pay call does. */
  function Actor(a: Action): Option<nat> {
    match a
    case StartPay(c, _, _, _) => Some(c)
    case PayRead(c) => Some(c)
    case PayLock(c, _) => Some(c)
    case PayCharge(c, _) => Some(c)
    case PayMark(c) => Some(c)
    case PayPublish(c, _) => Some(c)
    case PayRelease(c, _) => Some(c)
    case PayFail(c) => Some(c)
    case PayCrash(c) => Some(c)
    case _ => None
  }

  /** The acting call after its step. */
  function CallAfter(s: State, a: Action): Call
    requires Enabled(s, a) && Actor(a).Some?
  {
    match a
    case StartPay(_, i, scenario, caller) => NewCall(i, scenario, caller)
    case PayRead(c) => ReadInvoice(s, s.calls[c])
    case PayLock(c, reply) =>
      var call := s.calls[c];
      if !reply.Answered? then call.(phase := Locked, hold := NoHold)
      else if LockLive(s.locks, call.invoiceId, s.now) then call.(phase := Finished, answer := Declined(ErrBusy))
      else call.(phase := Locked, hold := Held(s.now))
    case PayCharge(c, uuid) =>
      var call := s.calls[c];
      var (status, txn) := Charge(call.scenario, uuid);
      if status.StatusPaid? then call.(phase := Recorded, transactionId := txn, recorded := true)
      else call.(phase := Releasing, transactionId := txn, answer := Charged(StatusFailed, txn))
    case PayMark(c) => s.calls[c].(phase := Marked)
    case PayPublish(c, _) =>
      s.calls[c].(phase := Releasing, answer := Charged(StatusPaid, s.calls[c].transactionId))
    case PayRelease(c, _) => s.calls[c].(phase := Finished)
    case PayFail(c) =>
      var call := s.calls[c].(answer := Declined(Internal));
      call.(phase := if call.phase == Requested then Finished else Releasing)
    case PayCrash(c) => s.calls[c].(phase := Crashed)
  }

  function CallsAfter(s: State, a: Action): map<nat, Call>
    requires Enabled(s, a)
  {
    if Actor(a).Some? then s.calls[Actor(a).value := CallAfter(s, a)] else s.calls
  }

  function NowAfter(s: State, a: Action): Time {
    if a.Tick? then s.now + a.elapsed else s.now
  }

  function Apply(s: State, a: Action): State
    requires Enabled(s, a)
  {
    State(ViolationsAfter(s, a), InvoicesAfter(s, a), PaymentsAfter(s, a), LocksAfter(s, a),
          CreatedAfter(s, a), CompletedAfter(s, a), AnnouncingAfter(s, a), CallsAfter(s, a), NowAfter(s, a))
  }

  predicate Init(s: State) {
    && s.violations == map[] && s.invoices == map[] && s.payments == [] && s.locks == map[]
    && s.createdQueue == multiset{} && s.completedQueue == multiset{} && s.announcing == {} && s.calls == map[]
  }

  ghost predicate Step(s: State, a: Action, t: State) {
    Enabled(s, a) && t == Apply(s, a)
  }

  /** A run of the protocol. */
  ghost predicate Run(s: State, acts: seq<Action>, t: State) {
    Leads(Step, s, acts, t)
  }
}
