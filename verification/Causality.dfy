/**
 From money to status: in every reachable state of the settlement protocol a violation shown as
 paid is covered by one paid invoice and a successful payment of exactly its fine.
 */
module Causality {
  import opened Options
  import opened Traces
  import opened Violations
  import opened Settlement

  // ------------------------------------------------------------------- the invariant

  /** The invoice carries the row's data and its fine. */
  predicate Bills(inv: Invoice, row: Violation) {
    && inv.plate == row.plate && inv.violationType == row.violationType
    && inv.ownerEmail == row.ownerEmail && inv.issuedByEmail == row.issuedByEmail
    && inv.amount == row.finalAmount
  }

  ghost predicate CreatedOk(violations: Table, queue: multiset<ViolationCreated>) {
    forall m :: m in queue ==> m.violationId in violations && m == CreatedEvent(m.violationId, violations[m.violationId])
  }

  predicate OnePerViolation(invoices: Invoices) {
    forall i, j :: i in invoices && j in invoices && invoices[i].violationId == invoices[j].violationId ==> i == j
  }

  ghost predicate InvoicesOk(violations: Table, invoices: Invoices) {
    && (forall i :: i in invoices ==>
          invoices[i].violationId in violations && Bills(invoices[i], violations[invoices[i].violationId]))
    && OnePerViolation(invoices)
  }

  /** Some successful payment of invoice i, with that transaction. */
  predicate PaidWith(payments: seq<Payment>, i: nat, transactionId: string) {
    exists k :: 0 <= k < |payments| && IsPaid(payments[k], i, transactionId)
  }

  predicate IsPaid(p: Payment, i: nat, transactionId: string) {
    p.invoiceId == i && p.status.StatusPaid? && p.transactionId == transactionId
  }

  predicate HasPaid(payments: seq<Payment>, i: nat) {
    exists k :: 0 <= k < |payments| && IsPaid(payments[k], i, payments[k].transactionId)
  }

  ghost predicate PaymentsOk(invoices: Invoices, payments: seq<Payment>) {
    && (forall k :: 0 <= k < |payments| ==>
          payments[k].invoiceId in invoices && payments[k].amount == invoices[payments[k].invoiceId].amount
          && payments[k].transactionId != "")
    && forall i :: i in invoices && invoices[i].status.Paid? ==> HasPaid(payments, i)
  }

  ghost predicate CompletedOk(invoices: Invoices, payments: seq<Payment>, m: PaymentCompleted) {
    && m.invoiceId in invoices && invoices[m.invoiceId].status.Paid?
    && m == CompletedEvent(m.invoiceId, invoices[m.invoiceId], m.transactionId, m.paidAt)
    && PaidWith(payments, m.invoiceId, m.transactionId)
  }

  predicate PaidCovered(violations: Table, invoices: Invoices) {
    forall v :: v in violations && violations[v].paid ==> HasPaidInvoice(invoices, v)
  }

  predicate HasPaidInvoice(invoices: Invoices, v: nat) {
    exists i :: i in invoices && invoices[i].violationId == v && invoices[i].status.Paid?
  }

  predicate AnswersPaid(answer: Answer) {
    answer.AlreadyPaid? || (answer.Charged? && answer.status.StatusPaid?)
  }

  /** What a call knows holds of the tables. */
  ghost predicate CallOk(invoices: Invoices, payments: seq<Payment>, call: Call) {
    && (call.invoice.Some? ==>
          && call.invoiceId in invoices && call.invoice.value.status.Open?
          && call.invoice.value == invoices[call.invoiceId].(status := Open))
    && (call.phase in {SawOpen, Locked, Recorded, Marked, Releasing} ==> call.invoice.Some?)
    && (call.phase == Requested ==> call.invoice.None?)
    && (call.phase in {Requested, SawOpen, Locked} ==> !call.recorded)
    && (call.phase in {Requested, SawOpen, Locked, Recorded, Marked} ==> call.answer.Pending?)
    && (call.recorded ==> call.invoice.Some? && PaidWith(payments, call.invoiceId, call.transactionId))
    && (call.phase in {Recorded, Marked} ==> call.recorded)
    && (call.phase == Marked ==> call.invoiceId in invoices && invoices[call.invoiceId].status.Paid?)
    && (AnswersPaid(call.answer) ==>
          && call.invoiceId in invoices && invoices[call.invoiceId].status.Paid?
          && PaidWith(payments, call.invoiceId, call.answer.transactionId))
  }

  ghost predicate Inv(s: State) {
    && s.announcing <= s.violations.Keys
    && CreatedOk(s.violations, s.createdQueue)
    && InvoicesOk(s.violations, s.invoices)
    && PaymentsOk(s.invoices, s.payments)
    && (forall m :: m in s.completedQueue ==> CompletedOk(s.invoices, s.payments, m))
    && PaidCovered(s.violations, s.invoices)
    && forall c :: c in s.calls ==> CallOk(s.invoices, s.payments, s.calls[c])
  }

  // -------------------------------------------------------------- what a step may change

  /** A new invoice is open, and it and a new payment event carry the present time. */
  lemma NewRowsAreStamped(s: State, a: Action, t: State)
    requires Step(s, a, t)
    ensures forall i :: i in t.invoices && i !in s.invoices ==> t.invoices[i].status.Open? && t.invoices[i].createdAt == s.now
    ensures forall m :: m in t.completedQueue && m !in s.completedQueue ==> m.paidAt == s.now
  {
  }

  /** Violations are only added and marked paid. */
  predicate TableGrows(rows: Table, later: Table) {
    forall v :: v in rows ==> v in later && (later[v] == rows[v] || later[v] == rows[v].(paid := true))
  }

  /** Invoices are only added and flipped to paid. */
  predicate InvoicesGrow(invoices: Invoices, later: Invoices) {
    forall i :: i in invoices ==> i in later && (later[i] == invoices[i] || later[i] == invoices[i].(status := Paid))
  }

  lemma ViolationsGrow(s: State, a: Action)
    requires Enabled(s, a)
    ensures TableGrows(s.violations, ViolationsAfter(s, a))
  {
  }

  lemma InvoicesOnlyGrow(s: State, a: Action)
    requires Enabled(s, a)
    ensures InvoicesGrow(s.invoices, InvoicesAfter(s, a)) && s.payments <= PaymentsAfter(s, a)
  {
  }

  lemma PaidWithKept(payments: seq<Payment>, later: seq<Payment>, i: nat, transactionId: string)
    requires payments <= later && PaidWith(payments, i, transactionId)
    ensures PaidWith(later, i, transactionId)
  {
  }

  lemma HasPaidKept(payments: seq<Payment>, later: seq<Payment>, i: nat)
    requires payments <= later && HasPaid(payments, i)
    ensures HasPaid(later, i)
  {
  }

  lemma PaidWithHasPaid(payments: seq<Payment>, i: nat, transactionId: string)
    requires PaidWith(payments, i, transactionId)
    ensures HasPaid(payments, i)
  {
  }

  lemma {:induction false} LatestPaidIsPaid(payments: seq<Payment>, i: nat)
    requires HasPaid(payments, i)
    ensures PaidWith(payments, i, LatestPaid(payments, i))
  {
    var n := |payments| - 1;
    if IsPaid(payments[n], i, payments[n].transactionId) {
      assert LatestPaid(payments, i) == payments[n].transactionId;
    } else {
      var k :| 0 <= k < |payments| && IsPaid(payments[k], i, payments[k].transactionId);
      assert payments[..n][k] == payments[k];
      LatestPaidIsPaid(payments[..n], i);
      PaidWithKept(payments[..n], payments, i, LatestPaid(payments[..n], i));
    }
  }

  predicate PaysFor(p: Payment, i: nat) {
    p.invoiceId == i && p.status.StatusPaid?
  }

  /** The join answers nothing for an invoice without a successful payment... */
  lemma {:induction false} NothingPaid(payments: seq<Payment>, i: nat)
    requires forall k :: 0 <= k < |payments| ==> !PaysFor(payments[k], i)
    ensures LatestPaid(payments, i) == ""
  {
    if payments != [] { NothingPaid(payments[..|payments| - 1], i); }
  }

  /** ... and otherwise the transaction of the last one. */
  lemma {:induction false} LatestPaidIsLast(payments: seq<Payment>, i: nat, k: nat)
    requires k < |payments| && PaysFor(payments[k], i)
    requires forall j :: k < j < |payments| ==> !PaysFor(payments[j], i)
    ensures LatestPaid(payments, i) == payments[k].transactionId
  {
    if k < |payments| - 1 { LatestPaidIsLast(payments[..|payments| - 1], i, k); }
  }

  // ------------------------------------------------------------ the invariant is kept

  lemma CreatedStep(s: State, a: Action)
    requires CreatedOk(s.violations, s.createdQueue) && s.announcing <= s.violations.Keys && Enabled(s, a)
    ensures CreatedOk(ViolationsAfter(s, a), CreatedAfter(s, a))
    ensures AnnouncingAfter(s, a) <= ViolationsAfter(s, a).Keys
  {
    ViolationsGrow(s, a);
    forall m | m in CreatedAfter(s, a)
      ensures m.violationId in ViolationsAfter(s, a)
      ensures m == CreatedEvent(m.violationId, ViolationsAfter(s, a)[m.violationId])
    {
      if m in s.createdQueue { assert m.violationId in s.violations; }
    }
  }

  /** Inserting on conflict do nothing keeps one invoice per violation. */
  lemma CreateInvoiceOk(violations: Table, invoices: Invoices, m: ViolationCreated, id: nat, now: Time)
    requires InvoicesOk(violations, invoices) && id !in invoices
    requires m.violationId in violations && m == CreatedEvent(m.violationId, violations[m.violationId])
    ensures InvoicesOk(violations, CreateInvoice(invoices, m, id, now))
  {
  }

  lemma BillsKept(violations: Table, later: Table, invoices: Invoices, more: Invoices)
    requires InvoicesOk(violations, invoices) && TableGrows(violations, later)
    requires InvoicesGrow(invoices, more) && more.Keys == invoices.Keys
    ensures InvoicesOk(later, more)
  {
  }

  lemma InvoicesStep(s: State, a: Action)
    requires InvoicesOk(s.violations, s.invoices) && CreatedOk(s.violations, s.createdQueue) && Enabled(s, a)
    ensures InvoicesOk(ViolationsAfter(s, a), InvoicesAfter(s, a))
  {
    if a.DeliverCreated? {
      CreateInvoiceOk(s.violations, s.invoices, a.created, a.id, s.now);
    } else {
      ViolationsGrow(s, a);
      InvoicesOnlyGrow(s, a);
      BillsKept(s.violations, ViolationsAfter(s, a), s.invoices, InvoicesAfter(s, a));
    }
  }

  lemma CallKept(invoices: Invoices, more: Invoices, payments: seq<Payment>, later: seq<Payment>, call: Call)
    requires CallOk(invoices, payments, call) && InvoicesGrow(invoices, more) && payments <= later
    ensures CallOk(more, later, call)
  {
  }

  lemma ChargeRecords(s: State, a: Action)
    requires a.PayCharge? && Enabled(s, a) && CallOk(s.invoices, s.payments, s.calls[a.c])
    ensures CallOk(InvoicesAfter(s, a), PaymentsAfter(s, a), CallAfter(s, a))
  {
    var call := CallAfter(s, a);
    var later := PaymentsAfter(s, a);
    if call.phase == Recorded {
      assert IsPaid(later[|s.payments|], call.invoiceId, call.transactionId);
      assert PaidWith(later, call.invoiceId, call.transactionId);
    }
  }

  lemma ReadKnows(s: State, a: Action)
    requires a.PayRead? && Enabled(s, a) && CallOk(s.invoices, s.payments, s.calls[a.c])
    requires PaymentsOk(s.invoices, s.payments)
    ensures CallOk(s.invoices, s.payments, CallAfter(s, a))
  {
    var i := s.calls[a.c].invoiceId;
    if i in s.invoices && s.invoices[i].status.Paid? { LatestPaidIsPaid(s.payments, i); }
  }

  lemma ActorOk(s: State, a: Action)
    requires Enabled(s, a) && Actor(a).Some? && PaymentsOk(s.invoices, s.payments)
    requires !a.StartPay? ==> CallOk(s.invoices, s.payments, s.calls[Actor(a).value])
    ensures CallOk(InvoicesAfter(s, a), PaymentsAfter(s, a), CallAfter(s, a))
  {
    InvoicesOnlyGrow(s, a);
    if a.PayCharge? {
      ChargeRecords(s, a);
    } else if a.PayRead? {
      ReadKnows(s, a);
    } else if !a.StartPay? {
      CallKept(s.invoices, InvoicesAfter(s, a), s.payments, PaymentsAfter(s, a), s.calls[Actor(a).value]);
    }
  }

  lemma CallStep(s: State, a: Action, c: nat)
    requires Inv(s) && Enabled(s, a) && c in CallsAfter(s, a)
    ensures CallOk(InvoicesAfter(s, a), PaymentsAfter(s, a), CallsAfter(s, a)[c])
  {
    if Actor(a) == Some(c) {
      ActorOk(s, a);
    } else {
      InvoicesOnlyGrow(s, a);
      CallKept(s.invoices, InvoicesAfter(s, a), s.payments, PaymentsAfter(s, a), s.calls[c]);
    }
  }

  lemma PaymentsKept(invoices: Invoices, more: Invoices, payments: seq<Payment>)
    requires PaymentsOk(invoices, payments) && InvoicesGrow(invoices, more)
    requires forall i :: i in more && more[i].status.Paid? ==> HasPaid(payments, i)
    ensures PaymentsOk(more, payments)
  {
  }

  lemma ChargePaymentsOk(s: State, a: Action)
    requires a.PayCharge? && Enabled(s, a)
    requires PaymentsOk(s.invoices, s.payments) && CallOk(s.invoices, s.payments, s.calls[a.c])
    ensures PaymentsOk(s.invoices, PaymentsAfter(s, a))
  {
    var later := PaymentsAfter(s, a);
    forall i | i in s.invoices && s.invoices[i].status.Paid? ensures HasPaid(later, i) {
      HasPaidKept(s.payments, later, i);
    }
  }

  lemma PaymentsStep(s: State, a: Action)
    requires PaymentsOk(s.invoices, s.payments) && Enabled(s, a)
    requires a.PayCharge? || a.PayMark? ==> CallOk(s.invoices, s.payments, s.calls[a.c])
    ensures PaymentsOk(InvoicesAfter(s, a), PaymentsAfter(s, a))
  {
    if a.PayCharge? {
      ChargePaymentsOk(s, a);
    } else {
      InvoicesOnlyGrow(s, a);
      if a.PayMark? {
        PaidWithHasPaid(s.payments, s.calls[a.c].invoiceId, s.calls[a.c].transactionId);
      }
      PaymentsKept(s.invoices, InvoicesAfter(s, a), s.payments);
    }
  }

  lemma CompletedKept(invoices: Invoices, more: Invoices, payments: seq<Payment>, later: seq<Payment>, m: PaymentCompleted)
    requires CompletedOk(invoices, payments, m) && InvoicesGrow(invoices, more) && payments <= later
    ensures CompletedOk(more, later, m)
  {
  }

  /** The event a call publishes speaks of the paid invoice and of the payment it recorded. */
  lemma PublishedOk(invoices: Invoices, payments: seq<Payment>, call: Call, now: Time)
    requires CallOk(invoices, payments, call) && call.phase == Marked
    ensures CompletedOk(invoices, payments,
                        CompletedEvent(call.invoiceId, call.invoice.value, call.transactionId, now))
  {
  }

  lemma CompletedStep(s: State, a: Action, m: PaymentCompleted)
    requires Inv(s) && Enabled(s, a) && m in CompletedAfter(s, a)
    ensures CompletedOk(InvoicesAfter(s, a), PaymentsAfter(s, a), m)
  {
    if m in s.completedQueue {
      InvoicesOnlyGrow(s, a);
      CompletedKept(s.invoices, InvoicesAfter(s, a), s.payments, PaymentsAfter(s, a), m);
    } else {
      PublishedOk(s.invoices, s.payments, s.calls[a.c], s.now);
    }
  }

  lemma HasPaidInvoiceKept(invoices: Invoices, more: Invoices, v: nat)
    requires HasPaidInvoice(invoices, v) && InvoicesGrow(invoices, more)
    ensures HasPaidInvoice(more, v)
  {
  }

  lemma CoverStep(s: State, a: Action)
    requires Inv(s) && Enabled(s, a)
    ensures PaidCovered(ViolationsAfter(s, a), InvoicesAfter(s, a))
  {
    InvoicesOnlyGrow(s, a);
    forall v | v in ViolationsAfter(s, a) && ViolationsAfter(s, a)[v].paid ensures HasPaidInvoice(InvoicesAfter(s, a), v) {
      if !(v in s.violations && s.violations[v].paid) {
        assert CompletedOk(s.invoices, s.payments, a.completed);
        assert s.invoices[a.completed.invoiceId].violationId == v;
      }
      HasPaidInvoiceKept(s.invoices, InvoicesAfter(s, a), v);
    }
  }

  lemma InvStep(s: State, a: Action)
    requires Inv(s) && Enabled(s, a)
    ensures Inv(Apply(s, a))
  {
    CreatedStep(s, a);
    InvoicesStep(s, a);
    PaymentsStep(s, a);
    CoverStep(s, a);
    forall m | m in CompletedAfter(s, a) ensures CompletedOk(InvoicesAfter(s, a), PaymentsAfter(s, a), m) {
      CompletedStep(s, a, m);
    }
    forall c | c in CallsAfter(s, a) ensures CallOk(InvoicesAfter(s, a), PaymentsAfter(s, a), CallsAfter(s, a)[c]) {
      CallStep(s, a, c);
    }
  }

  lemma InvRun(s: State, acts: seq<Action>, t: State)
    requires Inv(s) && Run(s, acts, t)
    ensures Inv(t)
  {
    forall x, a, y | Inv(x) && Step(x, a, y) ensures Inv(y) { InvStep(x, a); }
    RunKeeps(Step, Inv, s, acts, t);
  }

  // --------------------------------------------------------------------- main theorem

  /** Invoice i is the only invoice of violation v, is paid, and payment k paid it in full. */
  ghost predicate Settled(s: State, v: nat, i: nat, k: nat)
    requires v in s.violations
  {
    && i in s.invoices && s.invoices[i].violationId == v && s.invoices[i].status.Paid?
    && (forall j :: j in s.invoices && s.invoices[j].violationId == v ==> j == i)
    && k < |s.payments| && IsPaid(s.payments[k], i, s.payments[k].transactionId)
    && s.payments[k].amount == s.invoices[i].amount == s.violations[v].finalAmount
  }

  /** In every reachable state, whatever was duplicated, reordered, lost or cut short, a violation
      marked paid has exactly one invoice, it is paid, and some payment paid exactly the fine. */
  lemma PaidMeansSettled(s: State, acts: seq<Action>, t: State, v: nat) returns (i: nat, k: nat)
    requires Init(s) && Run(s, acts, t) && v in t.violations && t.violations[v].paid
    ensures Settled(t, v, i, k)
  {
    InvRun(s, acts, t);
    assert HasPaidInvoice(t.invoices, v);
    i :| i in t.invoices && t.invoices[i].violationId == v && t.invoices[i].status.Paid?;
    assert HasPaid(t.payments, i);
    k :| 0 <= k < |t.payments| && IsPaid(t.payments[k], i, t.payments[k].transactionId);
  }

  /** In every reachable state every invoice carries the data and the fine of its violation, no
      violation has two, and every queued message says what the tables say: who owes or paid what to
      whom, and in which transaction. */
  lemma MessagesAreTrue(s: State, acts: seq<Action>, t: State)
    requires Init(s) && Run(s, acts, t)
    ensures OnePerViolation(t.invoices)
    ensures forall i :: i in t.invoices ==>
      t.invoices[i].violationId in t.violations && Bills(t.invoices[i], t.violations[t.invoices[i].violationId])
    ensures forall m :: m in t.createdQueue ==> m.violationId in t.violations && Announces(m, t.violations[m.violationId])
    ensures forall m :: m in t.completedQueue ==>
      && m.violationId in t.violations && Reports(m, t.violations[m.violationId])
      && m.invoiceId in t.invoices && t.invoices[m.invoiceId].violationId == m.violationId
      && t.invoices[m.invoiceId].status.Paid? && PaidWith(t.payments, m.invoiceId, m.transactionId)
  {
    InvRun(s, acts, t);
    forall m | m in t.completedQueue
      ensures m.violationId in t.violations && Reports(m, t.violations[m.violationId])
    {
      assert CompletedOk(t.invoices, t.payments, m);
      assert t.invoices[m.invoiceId].violationId in t.violations;
    }
  }

  predicate Announces(m: ViolationCreated, row: Violation) {
    && m.plate == row.plate && m.violationType == row.violationType && m.finalAmount == row.finalAmount
    && m.ownerEmail == row.ownerEmail && m.issuedByEmail == row.issuedByEmail && m.createdAt == row.createdAt
  }

  predicate Reports(m: PaymentCompleted, row: Violation) {
    && m.plate == row.plate && m.amount == row.finalAmount
    && m.ownerEmail == row.ownerEmail && m.issuedByEmail == row.issuedByEmail
  }

  // ------------------------------------------------------- a paid answer is permanent

  /** The tables of s, grown into those of t. */
  ghost predicate Grows(s: State, t: State) {
    && TableGrows(s.violations, t.violations)
    && InvoicesGrow(s.invoices, t.invoices)
    && s.payments <= t.payments
    && s.now <= t.now
  }

  lemma StepGrows(s: State, a: Action)
    requires Enabled(s, a)
    ensures Grows(s, Apply(s, a))
  {
    ViolationsGrow(s, a);
    InvoicesOnlyGrow(s, a);
  }

  lemma GrowthComposes(s: State, t: State, u: State)
    requires Grows(s, t) && Grows(t, u)
    ensures Grows(s, u)
  {
  }

  lemma RunGrows(s: State, acts: seq<Action>, t: State)
    requires Run(s, acts, t)
    ensures Grows(s, t)
  {
    forall x, y, z | Grows(x, y) && Grows(y, z) ensures Grows(x, z) { GrowthComposes(x, y, z); }
    forall x, a, y | Step(x, a, y) ensures Grows(x, y) { StepGrows(x, a); }
    RunRelates(Step, Grows, s, acts, t);
  }

  /** A call that has not read the invoice, or that read it without finding it open. */
  predicate NoCharge(call: Call) {
    call.phase in {Requested, Finished, Crashed} && call.invoice.None? && !call.recorded
  }

  /** Invoice i is paid, and no call of the given ones on it is beyond reading. */
  ghost predicate PaidBefore(s: State, i: nat, late: iset<nat>) {
    && i in s.invoices && s.invoices[i].status.Paid?
    && forall d :: d in late && d in s.calls && s.calls[d].invoiceId == i ==> NoCharge(s.calls[d])
  }

  /** Once invoice i is paid, a call on it that has not read it yet never gets to charge. */
  lemma LateStep(s: State, a: Action, i: nat, late: iset<nat>)
    requires Enabled(s, a) && PaidBefore(s, i, late)
    ensures PaidBefore(Apply(s, a), i, late)
  {
    InvoicesOnlyGrow(s, a);
    forall d | d in late && d in CallsAfter(s, a) && CallsAfter(s, a)[d].invoiceId == i
      ensures NoCharge(CallsAfter(s, a)[d])
    {
    }
  }

  lemma LateRun(s: State, acts: seq<Action>, t: State, i: nat, late: iset<nat>)
    requires Run(s, acts, t) && PaidBefore(s, i, late)
    ensures PaidBefore(t, i, late)
  {
    var inv := x => PaidBefore(x, i, late);
    forall x, a, y | inv(x) && Step(x, a, y) ensures inv(y) { LateStep(x, a, i, late); }
    RunKeeps(Step, inv, s, acts, t);
  }

  /** Once Pay has answered paid, every later read of the invoice finds it paid, with the non-empty
      transaction of one of its successful payments, and every Pay started later on it neither
      charges nor publishes. */
  lemma PaidAnswerIsPermanent(s: State, acts: seq<Action>, t: State, c: nat, more: seq<Action>, u: State)
    requires Init(s) && Run(s, acts, t) && Run(t, more, u)
    requires c in t.calls && AnswersPaid(t.calls[c].answer)
    ensures var i := t.calls[c].invoiceId;
            && i in u.invoices && u.invoices[i].status.Paid?
            && LatestPaid(u.payments, i) != "" && PaidWith(u.payments, i, LatestPaid(u.payments, i))
            && forall d :: d in u.calls && d !in t.calls && u.calls[d].invoiceId == i ==> NoCharge(u.calls[d])
  {
    var i := t.calls[c].invoiceId;
    InvRun(s, acts, t);
    assert CallOk(t.invoices, t.payments, t.calls[c]);
    InvRun(t, more, u);
    LateRun(t, more, u, i, iset d | d !in t.calls);
    assert HasPaid(u.payments, i);
    LatestPaidIsPaid(u.payments, i);
  }
}
