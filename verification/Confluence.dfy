/**
 Confluence of the deliveries: whatever the order, the duplicates and the failures, draining the
 same published events over the same tables ends with the same rows.
 */
module Confluence {
  import opened Violations
  import opened Settlement
  import opened Causality
  import opened Quiescence

  /** What the violations table will be once every queued payment event has been handled. */
  function PaidTarget(violations: Table, queue: multiset<PaymentCompleted>): Table {
    map v | v in violations :: if ToldOf(queue, v) then violations[v].(paid := true) else violations[v]
  }

  /** The violations that will have an invoice once every queued creation event has been handled. */
  predicate InvoicedTarget(invoices: Invoices, queue: multiset<ViolationCreated>, v: nat) {
    HasInvoice(invoices, v) || CreationQueued(queue, v)
  }

  predicate CreationQueued(queue: multiset<ViolationCreated>, v: nat) {
    exists m :: m in queue && m.violationId == v
  }

  /** The invoice is the one the event asks for, up to its creation time. */
  predicate MadeFrom(inv: Invoice, m: ViolationCreated) {
    inv == Invoice(m.violationId, m.plate, m.violationType, m.ownerEmail, m.issuedByEmail, m.finalAmount, Open, inv.createdAt)
  }

  predicate MadeFromSome(inv: Invoice, queue: multiset<ViolationCreated>) {
    exists m :: m in queue && MadeFrom(inv, m)
  }

  /** The later invoices are the earlier ones, unchanged, and new ones for queued events of
      violations that had none. */
  predicate GrownFrom(invoices: Invoices, queue: multiset<ViolationCreated>, later: Invoices) {
    && (forall i :: i in invoices ==> i in later && later[i] == invoices[i])
    && forall i :: i in later && i !in invoices ==>
         MadeFromSome(later[i], queue) && !HasInvoice(invoices, later[i].violationId)
  }

  // ------------------------------------------------------------- one delivery

  /** Marking the row of a queued event paid, and dropping one copy of the event or not, leaves the target. */
  lemma PaidTargetKept(violations: Table, queue: multiset<PaymentCompleted>, m: PaymentCompleted)
    requires m in queue
    ensures PaidTarget(MarkPaid(violations, m.violationId), queue) == PaidTarget(violations, queue)
    ensures PaidTarget(MarkPaid(violations, m.violationId), queue - multiset{m}) == PaidTarget(violations, queue)
  {
  }

  lemma DeliveryKeepsPaidTarget(s: State, a: Action)
    requires Enabled(s, a) && Delivers(a)
    ensures PaidTarget(ViolationsAfter(s, a), CompletedAfter(s, a)) == PaidTarget(s.violations, s.completedQueue)
  {
    if a.DeliverCompleted? { PaidTargetKept(s.violations, s.completedQueue, a.completed); }
  }

  lemma DeliveryKeepsInvoicedTarget(s: State, a: Action, v: nat)
    requires Enabled(s, a) && Delivers(a)
    ensures InvoicedTarget(InvoicesAfter(s, a), CreatedAfter(s, a), v) <==> InvoicedTarget(s.invoices, s.createdQueue, v)
  {
    if HasInvoice(s.invoices, v) {
      InvoicesOnlyGrow(s, a);
      HasInvoiceKept(s.invoices, InvoicesAfter(s, a), v);
    } else if CreationQueued(s.createdQueue, v) {
      var m :| m in s.createdQueue && m.violationId == v;
      CreatedKept(s, a, m);
    } else if InvoicedTarget(InvoicesAfter(s, a), CreatedAfter(s, a), v) {
      NothingNew(s, a, v);
    }
  }

  /** A delivery invoices only violations whose event was queued. */
  lemma NothingNew(s: State, a: Action, v: nat)
    requires Enabled(s, a) && Delivers(a)
    requires InvoicedTarget(InvoicesAfter(s, a), CreatedAfter(s, a), v)
    ensures InvoicedTarget(s.invoices, s.createdQueue, v)
  {
  }

  lemma DeliveryGrows(s: State, a: Action)
    requires Enabled(s, a) && Delivers(a)
    ensures GrownFrom(s.invoices, s.createdQueue, InvoicesAfter(s, a))
    ensures CreatedAfter(s, a) <= s.createdQueue
  {
    if a.DeliverCreated? && !a.outcome.Nacked? && !HasInvoice(s.invoices, a.created.violationId) {
      assert MadeFrom(InvoicesAfter(s, a)[a.id], a.created);
    }
  }

  lemma GrownFromTrans(a: Invoices, q: multiset<ViolationCreated>, b: Invoices, r: multiset<ViolationCreated>, c: Invoices)
    requires GrownFrom(a, q, b) && GrownFrom(b, r, c) && r <= q
    ensures GrownFrom(a, q, c)
  {
  }

  // ------------------------------------------------------------------- a drain

  lemma DeliveryKeepsOne(s: State, a: Action)
    requires Enabled(s, a) && Delivers(a) && OnePerViolation(s.invoices)
    ensures OnePerViolation(InvoicesAfter(s, a))
  {
  }

  lemma {:induction false} DrainKeeps(s: State, acts: seq<Action>, t: State)
    requires Drain(s, acts, t)
    ensures PaidTarget(t.violations, t.completedQueue) == PaidTarget(s.violations, s.completedQueue)
    ensures forall v :: InvoicedTarget(t.invoices, t.createdQueue, v) <==> InvoicedTarget(s.invoices, s.createdQueue, v)
    ensures GrownFrom(s.invoices, s.createdQueue, t.invoices)
    ensures OnePerViolation(s.invoices) ==> OnePerViolation(t.invoices)
    decreases |acts|
  {
    if acts != [] {
      var a := acts[0];
      var m :| DrainStep(s, a, m) && Drain(m, acts[1..], t);
      DrainKeeps(m, acts[1..], t);
      DeliveryKeepsPaidTarget(s, a);
      DeliveryGrows(s, a);
      if OnePerViolation(s.invoices) { DeliveryKeepsOne(s, a); }
      GrownFromTrans(s.invoices, s.createdQueue, m.invoices, m.createdQueue, t.invoices);
      forall v ensures InvoicedTarget(m.invoices, m.createdQueue, v) <==> InvoicedTarget(s.invoices, s.createdQueue, v) {
        DeliveryKeepsInvoicedTarget(s, a, v);
      }
    }
  }

  // ------------------------------------------------------------------ two drains

  /** The same events, each any number of times. */
  predicate SameEvents<M(==)>(q: multiset<M>, r: multiset<M>) {
    (forall m :: m in q ==> m in r) && (forall m :: m in r ==> m in q)
  }

  predicate SameBill(p: Invoice, q: Invoice) {
    p == q.(createdAt := p.createdAt)
  }

  /** Every invoice of the one has its like, up to id and creation time, in the other. */
  predicate Covered(a: Invoices, b: Invoices) {
    forall i :: i in a ==> HasLike(a[i], b)
  }

  predicate HasLike(inv: Invoice, b: Invoices) {
    exists j :: j in b && SameBill(inv, b[j])
  }

  lemma SameEventsToldOf(violations: Table, q: multiset<PaymentCompleted>, r: multiset<PaymentCompleted>)
    requires SameEvents(q, r)
    ensures PaidTarget(violations, q) == PaidTarget(violations, r)
  {
  }

  lemma DrainedTarget(violations: Table)
    ensures PaidTarget(violations, multiset{}) == violations
  {
  }

  /** An invoice one drain made has its like among the invoices of the other. */
  lemma MadeHasLike(violations: Table, base: Invoices, q: multiset<ViolationCreated>, r: multiset<ViolationCreated>,
                    a: Invoices, b: Invoices, i: nat)
    requires CreatedOk(violations, q) && SameEvents(q, r) && i in a
    requires GrownFrom(base, q, a) && GrownFrom(base, r, b)
    requires forall m :: m in r ==> HasInvoice(b, m.violationId)
    ensures HasLike(a[i], b)
  {
  }

  lemma DrainedInvoices(s: State, acts: seq<Action>, t: State)
    requires Drain(s, acts, t) && t.createdQueue == multiset{}
    ensures forall m :: m in s.createdQueue ==> HasInvoice(t.invoices, m.violationId)
  {
    DrainKeeps(s, acts, t);
    forall m | m in s.createdQueue ensures HasInvoice(t.invoices, m.violationId) {
      assert InvoicedTarget(s.invoices, s.createdQueue, m.violationId);
      assert InvoicedTarget(t.invoices, t.createdQueue, m.violationId);
    }
  }

  /** From equal tables and the same published events, any two delivery schedules (any order, any
      duplicates, any failures in between) that empty the queues end with the same violations and
      the same invoices up to generated id and time. */
  lemma DeliveriesConfluent(s: State, acts: seq<Action>, t: State, s': State, acts': seq<Action>, t': State)
    requires Inv(s) && s'.violations == s.violations && s'.invoices == s.invoices
    requires SameEvents(s.createdQueue, s'.createdQueue) && SameEvents(s.completedQueue, s'.completedQueue)
    requires Drain(s, acts, t) && Stuck(t)
    requires Drain(s', acts', t') && Stuck(t')
    ensures t.violations == t'.violations == PaidTarget(s.violations, s.completedQueue)
    ensures Covered(t.invoices, t'.invoices) && Covered(t'.invoices, t.invoices)
    ensures OnePerViolation(t.invoices) && OnePerViolation(t'.invoices)
  {
    StuckIffEmpty(t);
    StuckIffEmpty(t');
    DrainKeeps(s, acts, t);
    DrainKeeps(s', acts', t');
    DrainedTarget(t.violations);
    DrainedTarget(t'.violations);
    SameEventsToldOf(s.violations, s.completedQueue, s'.completedQueue);
    DrainedInvoices(s, acts, t);
    DrainedInvoices(s', acts', t');
    forall i | i in t.invoices ensures HasLike(t.invoices[i], t'.invoices) {
      MadeHasLike(s.violations, s.invoices, s.createdQueue, s'.createdQueue, t.invoices, t'.invoices, i);
    }
    forall i | i in t'.invoices ensures HasLike(t'.invoices[i], t.invoices) {
      MadeHasLike(s.violations, s.invoices, s'.createdQueue, s.createdQueue, t'.invoices, t.invoices, i);
    }
  }
}
