/**
 Draining the queues, and what the services agree on once they are empty: the violations and the
 invoices correspond one to one, with equal amounts, equal statuses and equal totals.
 */
module Quiescence {
  import opened Options
  import opened Sums
  import opened Traces
  import opened Violations
  import opened Settlement
  import opened Causality

  /** No publish is lost and no call stops between its committed write and its publish. */
  predicate Lossless(s: State, a: Action)
    requires Enabled(s, a)
  {
    match a
    case PublishCreated(_, delivered) => delivered
    case PayPublish(_, delivered) => delivered
    case PayFail(c) => s.calls[c].phase != Marked
    case PayCrash(c) => s.calls[c].phase != Marked
    case _ => true
  }

  ghost predicate LosslessStep(s: State, a: Action, t: State) {
    Step(s, a, t) && Lossless(s, a)
  }

  ghost predicate LosslessRun(s: State, acts: seq<Action>, t: State) {
    Leads(LosslessStep, s, acts, t)
  }

  /** The invoice of a violation exists or is on its way. */
  predicate InvoiceDue(invoices: Invoices, announcing: set<nat>, queue: multiset<ViolationCreated>, v: nat, row: Violation) {
    HasInvoice(invoices, v) || v in announcing || CreatedEvent(v, row) in queue
  }

  predicate ToldOf(queue: multiset<PaymentCompleted>, v: nat) {
    exists m :: m in queue && m.violationId == v
  }

  predicate MarkedOn(calls: map<nat, Call>, i: nat) {
    exists c :: c in calls && calls[c].invoiceId == i && calls[c].phase == Marked
  }

  predicate ShownPaid(violations: Table, v: nat) {
    v in violations && violations[v].paid
  }

  /** The payment of invoice i for violation v has reached the row or is on its way. */
  predicate PaymentDue(violations: Table, queue: multiset<PaymentCompleted>, calls: map<nat, Call>, i: nat, v: nat) {
    ShownPaid(violations, v) || ToldOf(queue, v) || MarkedOn(calls, i)
  }

  ghost predicate DueInv(s: State) {
    && Inv(s)
    && (forall v :: v in s.violations ==> InvoiceDue(s.invoices, s.announcing, s.createdQueue, v, s.violations[v]))
    && forall i :: i in s.invoices && s.invoices[i].status.Paid? ==>
         PaymentDue(s.violations, s.completedQueue, s.calls, i, s.invoices[i].violationId)
  }

  lemma HasInvoiceKept(invoices: Invoices, more: Invoices, v: nat)
    requires HasInvoice(invoices, v) && InvoicesGrow(invoices, more)
    ensures HasInvoice(more, v)
  {
  }

  /** Handling the event leaves an invoice for its violation. */
  lemma CreateInvoiceHas(invoices: Invoices, m: ViolationCreated, id: nat, now: Time)
    ensures HasInvoice(CreateInvoice(invoices, m, id, now), m.violationId)
  {
    if !HasInvoice(invoices, m.violationId) {
      assert CreateInvoice(invoices, m, id, now)[id].violationId == m.violationId;
    }
  }

  /** A queued event stays queued, or has been handled. */
  lemma CreatedKept(s: State, a: Action, m: ViolationCreated)
    requires Enabled(s, a) && m in s.createdQueue
    ensures m in CreatedAfter(s, a) || HasInvoice(InvoicesAfter(s, a), m.violationId)
  {
    if a.DeliverCreated? && a.created == m { CreateInvoiceHas(s.invoices, m, a.id, s.now); }
  }

  lemma AnnouncingKept(s: State, a: Action, v: nat)
    requires Enabled(s, a) && Lossless(s, a) && v in s.announcing && v in s.violations
    ensures v in AnnouncingAfter(s, a) || CreatedEvent(v, s.violations[v]) in CreatedAfter(s, a)
  {
  }

  lemma InvoiceDueStep(s: State, a: Action, v: nat)
    requires Enabled(s, a) && Lossless(s, a) && v in ViolationsAfter(s, a)
    requires v in s.violations ==> InvoiceDue(s.invoices, s.announcing, s.createdQueue, v, s.violations[v])
    ensures InvoiceDue(InvoicesAfter(s, a), AnnouncingAfter(s, a), CreatedAfter(s, a), v, ViolationsAfter(s, a)[v])
  {
    if v in s.violations {
      ViolationsGrow(s, a);
      var evt := CreatedEvent(v, s.violations[v]);
      assert evt == CreatedEvent(v, ViolationsAfter(s, a)[v]);
      if HasInvoice(s.invoices, v) {
        InvoicesOnlyGrow(s, a);
        HasInvoiceKept(s.invoices, InvoicesAfter(s, a), v);
      } else if v in s.announcing {
        AnnouncingKept(s, a, v);
      } else {
        CreatedKept(s, a, evt);
      }
    }
  }

  lemma ToldOfKept(s: State, a: Action, v: nat)
    requires ToldOf(s.completedQueue, v) && Enabled(s, a) && v in s.violations
    ensures ToldOf(CompletedAfter(s, a), v) || ShownPaid(ViolationsAfter(s, a), v)
  {
  }

  /** The publish of a marked call tells of its violation. */
  lemma PublishTells(s: State, a: Action)
    requires Enabled(s, a) && a.PayPublish? && a.delivered
    ensures ToldOf(CompletedAfter(s, a), s.calls[a.c].invoice.value.violationId)
  {
  }

  lemma MarkedOnKept(s: State, a: Action, i: nat, v: nat)
    requires MarkedOn(s.calls, i) && Enabled(s, a) && Lossless(s, a)
    requires a.PayPublish? && s.calls[a.c].invoiceId == i ==> s.calls[a.c].invoice.value.violationId == v
    ensures MarkedOn(CallsAfter(s, a), i) || ToldOf(CompletedAfter(s, a), v)
  {
    var c :| c in s.calls && s.calls[c].invoiceId == i && s.calls[c].phase == Marked;
    if Actor(a) != Some(c) { assert CallsAfter(s, a)[c] == s.calls[c]; }
    if a.PayPublish? && a.c == c { PublishTells(s, a); }
  }

  lemma PaymentDueKept(s: State, a: Action, i: nat, v: nat)
    requires PaymentDue(s.violations, s.completedQueue, s.calls, i, v) && v in s.violations
    requires Enabled(s, a) && Lossless(s, a)
    requires a.PayPublish? && s.calls[a.c].invoiceId == i ==> s.calls[a.c].invoice.value.violationId == v
    ensures PaymentDue(ViolationsAfter(s, a), CompletedAfter(s, a), CallsAfter(s, a), i, v)
  {
    if ShownPaid(s.violations, v) {
      ViolationsGrow(s, a);
    } else if ToldOf(s.completedQueue, v) {
      ToldOfKept(s, a, v);
    } else {
      MarkedOnKept(s, a, i, v);
    }
  }

  /** An invoice becomes paid only in the step of a call that goes on to publish. */
  lemma NewlyPaid(s: State, a: Action, i: nat)
    requires Enabled(s, a) && i in InvoicesAfter(s, a) && InvoicesAfter(s, a)[i].status.Paid?
    requires i in s.invoices ==> s.invoices[i].status.Open?
    ensures MarkedOn(CallsAfter(s, a), i)
  {
    assert a.PayMark? && s.calls[a.c].invoiceId == i;
    assert CallsAfter(s, a)[a.c].phase == Marked && CallsAfter(s, a)[a.c].invoiceId == i;
  }

  lemma PaymentDueStep(s: State, a: Action, i: nat)
    requires Enabled(s, a) && Lossless(s, a)
    requires i in InvoicesAfter(s, a) && InvoicesAfter(s, a)[i].status.Paid?
    requires a.PayPublish? ==> CallOk(s.invoices, s.payments, s.calls[a.c])
    requires i in s.invoices && s.invoices[i].status.Paid? ==>
      && s.invoices[i].violationId in s.violations
      && PaymentDue(s.violations, s.completedQueue, s.calls, i, s.invoices[i].violationId)
    ensures PaymentDue(ViolationsAfter(s, a), CompletedAfter(s, a), CallsAfter(s, a), i, InvoicesAfter(s, a)[i].violationId)
  {
    if i in s.invoices && s.invoices[i].status.Paid? {
      PaymentDueKept(s, a, i, s.invoices[i].violationId);
      InvoicesOnlyGrow(s, a);
    } else {
      NewlyPaid(s, a, i);
    }
  }

  lemma DueStep(s: State, a: Action)
    requires DueInv(s) && Enabled(s, a) && Lossless(s, a)
    ensures DueInv(Apply(s, a))
  {
    InvStep(s, a);
    forall v | v in ViolationsAfter(s, a)
      ensures InvoiceDue(InvoicesAfter(s, a), AnnouncingAfter(s, a), CreatedAfter(s, a), v, ViolationsAfter(s, a)[v])
    {
      InvoiceDueStep(s, a, v);
    }
    forall i | i in InvoicesAfter(s, a) && InvoicesAfter(s, a)[i].status.Paid?
      ensures PaymentDue(ViolationsAfter(s, a), CompletedAfter(s, a), CallsAfter(s, a), i, InvoicesAfter(s, a)[i].violationId)
    {
      PaymentDueStep(s, a, i);
    }
  }

  lemma DueRun(s: State, acts: seq<Action>, t: State)
    requires DueInv(s) && LosslessRun(s, acts, t)
    ensures DueInv(t)
  {
    forall x, a, y | DueInv(x) && LosslessStep(x, a, y) ensures DueInv(y) { DueStep(x, a); }
    RunKeeps(LosslessStep, DueInv, s, acts, t);
  }

  // ------------------------------------------------------------------------ agreement

  /** Nothing is queued and no call has anything left to do. */
  predicate Quiescent(s: State) {
    && s.createdQueue == multiset{} && s.completedQueue == multiset{} && s.announcing == {}
    && forall c :: c in s.calls ==> Ended(s.calls[c])
  }

  /** Violations and invoices in one-to-one correspondence, with equal amounts and statuses. */
  ghost predicate Agree(violations: Table, invoices: Invoices) {
    && (forall v :: v in violations ==> HasInvoice(invoices, v))
    && OnePerViolation(invoices)
    && forall i :: i in invoices ==>
         var v := invoices[i].violationId;
         && v in violations && invoices[i].amount == violations[v].finalAmount
         && (invoices[i].status.Paid? <==> violations[v].paid)
  }

  function Fines(violations: Table): map<nat, int> {
    map v | v in violations :: violations[v].finalAmount
  }

  function PaidFines(violations: Table): map<nat, int> {
    map v | v in violations && violations[v].paid :: violations[v].finalAmount
  }

  function Billed(invoices: Invoices): map<nat, int> {
    map i | i in invoices :: invoices[i].amount
  }

  function PaidBilled(invoices: Invoices): map<nat, int> {
    map i | i in invoices && invoices[i].status.Paid? :: invoices[i].amount
  }

  function ViolationOf(invoices: Invoices, paidOnly: bool): map<nat, nat> {
    map i | i in invoices && (paidOnly ==> invoices[i].status.Paid?) :: invoices[i].violationId
  }

  /** The invoices, or the paid ones, point at all the violations, or at all the paid ones. */
  lemma PointsAtAll(violations: Table, invoices: Invoices, paidOnly: bool)
    requires Agree(violations, invoices)
    ensures ViolationOf(invoices, paidOnly).Values == set v | v in violations && (paidOnly ==> violations[v].paid)
  {
    var f := ViolationOf(invoices, paidOnly);
    forall v | v in violations && (paidOnly ==> violations[v].paid) ensures v in f.Values {
      assert HasInvoice(invoices, v);
      var i :| i in invoices && invoices[i].violationId == v;
      assert i in f && f[i] == v;
    }
  }

  lemma IssuedAgree(violations: Table, invoices: Invoices)
    requires Agree(violations, invoices)
    ensures Sum(Billed(invoices)) == Sum(Fines(violations)) && |invoices| == |violations|
  {
    PointsAtAll(violations, invoices, false);
    assert Billed(invoices).Keys == invoices.Keys && Fines(violations).Keys == violations.Keys;
    SumBijection(Billed(invoices), Fines(violations), ViolationOf(invoices, false));
  }

  lemma SettledAgree(violations: Table, invoices: Invoices)
    requires Agree(violations, invoices)
    ensures Sum(PaidBilled(invoices)) == Sum(PaidFines(violations))
  {
    PointsAtAll(violations, invoices, true);
    SumBijection(PaidBilled(invoices), PaidFines(violations), ViolationOf(invoices, true));
  }

  lemma QuiescentAgree(s: State)
    requires DueInv(s) && Quiescent(s)
    ensures Agree(s.violations, s.invoices)
  {
  }

  /** After any run without lost publishes, once the queues are empty and no call is running, the
      two services agree row by row, and on how much was issued and how much was settled. */
  lemma Conservation(s: State, acts: seq<Action>, t: State)
    requires Init(s) && LosslessRun(s, acts, t) && Quiescent(t)
    ensures Agree(t.violations, t.invoices)
    ensures |t.invoices| == |t.violations|
    ensures Sum(Billed(t.invoices)) == Sum(Fines(t.violations))
    ensures Sum(PaidBilled(t.invoices)) == Sum(PaidFines(t.violations))
  {
    DueRun(s, acts, t);
    QuiescentAgree(t);
    IssuedAgree(t.violations, t.invoices);
    SettledAgree(t.violations, t.invoices);
  }

  // -------------------------------------------------------------------------- draining

  /** A delivery of a queued message, whatever becomes of it. */
  predicate Delivers(a: Action) {
    a.DeliverCreated? || a.DeliverCompleted?
  }

  ghost predicate DrainStep(s: State, a: Action, t: State) {
    Step(s, a, t) && Delivers(a)
  }

  /** A run of deliveries only. */
  ghost predicate Drain(s: State, acts: seq<Action>, t: State) {
    Leads(DrainStep, s, acts, t)
  }

  function Outstanding(s: State): nat {
    |s.createdQueue| + |s.completedQueue|
  }

  function Failure(a: Action): nat {
    if Delivers(a) && !a.outcome.Acked? then 1 else 0
  }

  /** Deliveries that did not end in an ack. */
  function Failures(acts: seq<Action>): nat {
    if acts == [] then 0 else Failure(acts[0]) + Failures(acts[1..])
  }

  lemma DeliveryCounts(s: State, a: Action, t: State)
    requires DrainStep(s, a, t)
    ensures 1 + Outstanding(t) == Outstanding(s) + Failure(a)
  {
  }

  /** A drain is exactly as long as the messages it removed and the deliveries that failed. */
  lemma {:induction false} DrainLength(s: State, acts: seq<Action>, t: State)
    requires Drain(s, acts, t)
    ensures |acts| + Outstanding(t) == Outstanding(s) + Failures(acts)
    decreases |acts|
  {
    if acts != [] {
      var m :| DrainStep(s, acts[0], m) && Drain(m, acts[1..], t);
      DeliveryCounts(s, acts[0], m);
      DrainLength(m, acts[1..], t);
    }
  }

  /** A failed delivery changes nothing, one without an ack keeps its message, an acked one takes one copy. */
  lemma DeliveryKeeps(s: State, a: Action, t: State)
    requires DrainStep(s, a, t)
    ensures a.outcome.Nacked? ==> t == s
    ensures !a.outcome.Acked? ==> t.createdQueue == s.createdQueue && t.completedQueue == s.completedQueue
    ensures a.outcome.Acked? && a.DeliverCreated? ==> t.createdQueue == s.createdQueue - multiset{a.created}
    ensures a.outcome.Acked? && a.DeliverCompleted? ==> t.completedQueue == s.completedQueue - multiset{a.completed}
  {
  }

  /** A fresh invoice id. */
  lemma FreshId(invoices: Invoices) returns (id: nat)
    ensures id !in invoices
  {
    id := Above(invoices.Keys);
  }

  lemma {:induction false} Above(keys: set<nat>) returns (id: nat)
    ensures forall k :: k in keys ==> k < id
    decreases |keys|
  {
    if keys == {} {
      id := 0;
    } else {
      var k :| k in keys;
      var j := Above(keys - {k});
      id := if j > k then j else k + 1;
      assert forall i :: i in keys ==> i == k || i in keys - {k};
    }
  }

  /** As long as a message is queued, a delivery that ends in an ack is possible. */
  lemma DrainProgress(s: State) returns (a: Action, t: State)
    requires Outstanding(s) > 0
    ensures DrainStep(s, a, t) && a.outcome.Acked? && Outstanding(t) == Outstanding(s) - 1
  {
    if |s.createdQueue| > 0 {
      var m :| m in s.createdQueue;
      var id := FreshId(s.invoices);
      a := DeliverCreated(m, id, Acked);
    } else {
      var m :| m in s.completedQueue;
      a := DeliverCompleted(m, Acked);
    }
    t := Apply(s, a);
  }

  ghost predicate Stuck(s: State) {
    forall a, t :: !DrainStep(s, a, t)
  }

  /** A drain can go on exactly as long as a message is queued. */
  lemma StuckIffEmpty(s: State)
    ensures Stuck(s) <==> Outstanding(s) == 0
    ensures Outstanding(s) == 0 <==> s.createdQueue == multiset{} && s.completedQueue == multiset{}
  {
    if Outstanding(s) > 0 {
      var a, t := DrainProgress(s);
    } else {
      forall a, t ensures !DrainStep(s, a, t) { DrainNeedsMessage(s, a, t); }
    }
  }

  lemma DrainNeedsMessage(s: State, a: Action, t: State)
    requires s.createdQueue == multiset{} && s.completedQueue == multiset{}
    ensures !DrainStep(s, a, t)
  {
  }

  /** Draining terminates: a drain with finitely many failed deliveries is bounded in length, and it
      cannot be continued exactly when both queues are empty, after one ack for every message. */
  lemma DrainTerminates(s: State, acts: seq<Action>, t: State)
    requires Drain(s, acts, t)
    ensures |acts| <= Outstanding(s) + Failures(acts)
    ensures Stuck(t) <==> |acts| == Outstanding(s) + Failures(acts)
    ensures Stuck(t) <==> t.createdQueue == multiset{} && t.completedQueue == multiset{}
  {
    DrainLength(s, acts, t);
    StuckIffEmpty(t);
  }
}
