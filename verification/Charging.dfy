/**
 Charge accounting: how many successful payments an invoice can collect, in every interleaving,
 and what sequential calls guarantee.
 */
module Charging {
  import opened Options
  import opened Sums
  import opened Traces
  import opened Settlement
  import opened Causality

  /** Number of successful payments of invoice i. */
  function PaidCount(payments: seq<Payment>, i: nat): nat {
    if payments == [] then 0
    else
      var last := payments[|payments| - 1];
      PaidCount(payments[..|payments| - 1], i) + if last.invoiceId == i && last.status.StatusPaid? then 1 else 0
  }

  /** Money collected on invoice i. */
  function PaidSum(payments: seq<Payment>, i: nat): int {
    if payments == [] then 0
    else
      var last := payments[|payments| - 1];
      PaidSum(payments[..|payments| - 1], i) + if last.invoiceId == i && last.status.StatusPaid? then last.amount else 0
  }

  /** The calls that inserted a successful payment of invoice i. */
  function Recorders(calls: map<nat, Call>, i: nat): set<nat> {
    set c | c in calls && calls[c].invoiceId == i && calls[c].recorded
  }

  /** The calls that read invoice i and found it open. */
  function Openers(calls: map<nat, Call>, i: nat): set<nat> {
    set c | c in calls && calls[c].invoiceId == i && calls[c].invoice.Some?
  }

  ghost predicate CountInv(s: State) {
    Inv(s) && forall i :: PaidCount(s.payments, i) == |Recorders(s.calls, i)|
  }

  lemma PaidCountAppend(payments: seq<Payment>, p: Payment, i: nat)
    ensures PaidCount(payments + [p], i)
         == PaidCount(payments, i) + if p.invoiceId == i && p.status.StatusPaid? then 1 else 0
  {
  }

  lemma {:induction false} SumIsCountTimesAmount(payments: seq<Payment>, i: nat, amount: int)
    requires forall k :: 0 <= k < |payments| && payments[k].invoiceId == i ==> payments[k].amount == amount
    ensures PaidSum(payments, i) == PaidCount(payments, i) * amount
  {
    if payments != [] { SumIsCountTimesAmount(payments[..|payments| - 1], i, amount); }
  }

  lemma {:induction false} NoPaymentNoCount(payments: seq<Payment>, i: nat)
    requires forall k :: 0 <= k < |payments| ==> payments[k].invoiceId != i
    ensures PaidCount(payments, i) == 0
  {
    if payments != [] { NoPaymentNoCount(payments[..|payments| - 1], i); }
  }

  /** Whether the step is a successful charge. */
  predicate ChargesPaid(s: State, a: Action)
    requires Enabled(s, a)
  {
    a.PayCharge? && PaymentRow(s.calls[a.c], a.uuid).status.StatusPaid?
  }

  /** What the acting call's step does to the fields the accounts look at. */
  lemma ActorFacts(s: State, a: Action)
    requires Enabled(s, a) && Actor(a).Some?
    ensures var c, call := Actor(a).value, CallAfter(s, a);
            && (a.StartPay? <==> c !in s.calls)
            && (a.StartPay? ==> call.invoiceId == a.invoiceId && !call.recorded && call.phase in {Requested, Finished})
            && (!a.StartPay? ==>
                  && call.invoiceId == s.calls[c].invoiceId && !Ended(s.calls[c])
                  && (call.recorded <==> s.calls[c].recorded || ChargesPaid(s, a)))
            && (call.phase == Recorded <==> ChargesPaid(s, a))
            && (call.phase == SawOpen ==> a.PayRead?)
            && (call.phase == Locked ==> a.PayLock?)
  {
  }

  /** Updating one call, which stays on its invoice and does not forget a recorded payment. */
  lemma RecordersUpdate(calls: map<nat, Call>, c: nat, call: Call, i: nat)
    requires c in calls ==> calls[c].invoiceId == call.invoiceId && (calls[c].recorded ==> call.recorded)
    ensures Recorders(calls[c := call], i) ==
      if call.recorded && call.invoiceId == i then Recorders(calls, i) + {c} else Recorders(calls, i)
  {
  }

  /** Only a successful charge makes a new recorder. */
  lemma RecordersStep(s: State, a: Action, i: nat)
    requires Enabled(s, a) && (a.PayCharge? ==> !s.calls[a.c].recorded)
    ensures ChargesPaid(s, a) ==> a.c !in Recorders(s.calls, i)
    ensures Recorders(CallsAfter(s, a), i) ==
      if ChargesPaid(s, a) && s.calls[a.c].invoiceId == i then Recorders(s.calls, i) + {a.c} else Recorders(s.calls, i)
  {
    if Actor(a).Some? {
      var c := Actor(a).value;
      ActorFacts(s, a);
      RecordersUpdate(s.calls, c, CallAfter(s, a), i);
      if c in s.calls && s.calls[c].recorded && s.calls[c].invoiceId == i { assert c in Recorders(s.calls, i); }
    }
  }

  lemma PaidCountStep(s: State, a: Action, i: nat)
    requires Enabled(s, a)
    ensures PaidCount(PaymentsAfter(s, a), i)
         == PaidCount(s.payments, i) + if ChargesPaid(s, a) && s.calls[a.c].invoiceId == i then 1 else 0
  {
  }

  lemma CountAt(s: State, a: Action, i: nat)
    requires Enabled(s, a) && (a.PayCharge? ==> !s.calls[a.c].recorded)
    requires PaidCount(s.payments, i) == |Recorders(s.calls, i)|
    ensures PaidCount(PaymentsAfter(s, a), i) == |Recorders(CallsAfter(s, a), i)|
  {
    RecordersStep(s, a, i);
    PaidCountStep(s, a, i);
  }

  lemma CountStep(s: State, a: Action)
    requires CountInv(s) && Enabled(s, a)
    ensures CountInv(Apply(s, a))
  {
    InvStep(s, a);
    if a.PayCharge? { assert CallOk(s.invoices, s.payments, s.calls[a.c]); }
    forall i ensures PaidCount(PaymentsAfter(s, a), i) == |Recorders(CallsAfter(s, a), i)| { CountAt(s, a, i); }
  }

  lemma CountRun(s: State, acts: seq<Action>, t: State)
    requires CountInv(s) && Run(s, acts, t)
    ensures CountInv(t)
  {
    forall x, a, y | CountInv(x) && Step(x, a, y) ensures CountInv(y) { CountStep(x, a); }
    RunKeeps(Step, CountInv, s, acts, t);
  }

  lemma InitCounts(s: State)
    requires Init(s)
    ensures CountInv(s)
  {
  }

  /** In every run the successful payments of an invoice are as many as the calls that recorded one,
      hence never more than the calls that read it as open. */
  lemma ChargesMatchCalls(s: State, acts: seq<Action>, t: State, i: nat)
    requires Init(s) && Run(s, acts, t)
    ensures PaidCount(t.payments, i) == |Recorders(t.calls, i)| <= |Openers(t.calls, i)|
  {
    InitCounts(s);
    CountRun(s, acts, t);
    RecordersOpened(t, i);
  }

  /** From the moment the invoice is paid on, no further call reads it as open, and the successful
      payments are never more than the calls that had read it as open by then. */
  lemma ChargesBounded(s: State, acts: seq<Action>, t: State, more: seq<Action>, u: State, i: nat)
    requires Init(s) && Run(s, acts, t) && Run(t, more, u)
    requires i in t.invoices && t.invoices[i].status.Paid?
    ensures Openers(u.calls, i) <= Openers(t.calls, i)
    ensures 1 <= PaidCount(t.payments, i) && PaidCount(u.payments, i) <= |Openers(t.calls, i)|
  {
    InvRun(s, acts, t);
    LeadsConcat(Step, s, acts, t, more, u);
    ChargesMatchCalls(s, acts + more, u, i);
    NoLateOpeners(t, more, u, i);
    SubsetSize(Openers(u.calls, i), Openers(t.calls, i));
    PaidHasCount(t.payments, i);
  }

  lemma NoLateOpeners(t: State, more: seq<Action>, u: State, i: nat)
    requires Inv(t) && Run(t, more, u) && i in t.invoices && t.invoices[i].status.Paid?
    ensures Openers(u.calls, i) <= Openers(t.calls, i)
  {
    var late := iset d | d !in Openers(t.calls, i);
    forall d | d in late && d in t.calls && t.calls[d].invoiceId == i ensures NoCharge(t.calls[d]) {
      assert CallOk(t.invoices, t.payments, t.calls[d]);
    }
    LateRun(t, more, u, i, late);
    forall d | d in Openers(u.calls, i) ensures d in Openers(t.calls, i) {
      assert d in late ==> NoCharge(u.calls[d]);
    }
  }

  lemma RecordersOpened(s: State, i: nat)
    requires Inv(s)
    ensures |Recorders(s.calls, i)| <= |Openers(s.calls, i)|
  {
    forall c | c in Recorders(s.calls, i) ensures c in Openers(s.calls, i) {
      assert CallOk(s.invoices, s.payments, s.calls[c]);
    }
    SubsetSize(Recorders(s.calls, i), Openers(s.calls, i));
  }

  lemma {:induction false} PaidHasCount(payments: seq<Payment>, i: nat)
    requires HasPaid(payments, i)
    ensures PaidCount(payments, i) >= 1
  {
    var n := |payments| - 1;
    if !IsPaid(payments[n], i, payments[n].transactionId) {
      var k :| 0 <= k < |payments| && IsPaid(payments[k], i, payments[k].transactionId);
      assert payments[..n][k] == payments[k];
      PaidHasCount(payments[..n], i);
    }
  }

  // ------------------------------------------------------------------- the scenarios

  /** An unknown scenario is turned away at once; only "success" records a successful payment. */
  predicate FollowsScenario(call: Call) {
    && (call.scenario !in {"success", "failed"} ==>
          call.phase in {Finished, Crashed} && call.answer == Declined(ErrInvalidScenario) && !call.recorded)
    && (call.recorded ==> call.scenario == "success")
  }

  predicate PaidByScenario(p: Payment) {
    p.scenario in {"success", "failed"} && (p.status.StatusPaid? <==> p.scenario == "success")
  }

  ghost predicate ScenarioInv(s: State) {
    && (forall c :: c in s.calls ==> FollowsScenario(s.calls[c]))
    && forall k :: 0 <= k < |s.payments| ==> PaidByScenario(s.payments[k])
  }

  lemma ActorFollows(s: State, a: Action)
    requires Enabled(s, a) && Actor(a).Some?
    requires !a.StartPay? ==> FollowsScenario(s.calls[Actor(a).value])
    ensures FollowsScenario(CallAfter(s, a))
  {
  }

  lemma RowFollows(s: State, a: Action)
    requires Enabled(s, a) && a.PayCharge? && FollowsScenario(s.calls[a.c])
    ensures PaidByScenario(PaymentRow(s.calls[a.c], a.uuid))
  {
  }

  lemma ScenarioStep(s: State, a: Action)
    requires ScenarioInv(s) && Enabled(s, a)
    ensures ScenarioInv(Apply(s, a))
  {
    if Actor(a).Some? { ActorFollows(s, a); }
    if a.PayCharge? { RowFollows(s, a); }
  }

  /** In every run: a recorded payment succeeded exactly if its call asked for "success" and failed
      exactly if it asked for "failed"; a call that asked for anything else was turned away. */
  lemma ScenarioDecides(s: State, acts: seq<Action>, t: State)
    requires Init(s) && Run(s, acts, t)
    ensures ScenarioInv(t)
  {
    forall x, a, y | ScenarioInv(x) && Step(x, a, y) ensures ScenarioInv(y) { ScenarioStep(x, a); }
    RunKeeps(Step, ScenarioInv, s, acts, t);
  }

  // --------------------------------------------------------------- sequential calls

  /** Calls on one invoice do not overlap, and none dies between InsertPayment and MarkPaid. */
  ghost predicate Sequential(s: State, a: Action)
    requires Enabled(s, a)
  {
    && (a.StartPay? ==> forall d :: d in s.calls && s.calls[d].invoiceId == a.invoiceId ==> Ended(s.calls[d]))
    && (a.PayFail? || a.PayCrash? ==> s.calls[a.c].phase != Recorded)
  }

  ghost predicate SerialStep(s: State, a: Action, t: State) {
    Step(s, a, t) && Sequential(s, a)
  }

  ghost predicate SequentialRun(s: State, acts: seq<Action>, t: State) {
    Leads(SerialStep, s, acts, t)
  }

  predicate Overlap(p: Call, q: Call) {
    p.invoiceId == q.invoiceId && !Ended(p) && !Ended(q)
  }

  /** At most one call on an invoice is running. */
  ghost predicate Alone(calls: map<nat, Call>) {
    forall c, d :: c in calls && d in calls && Overlap(calls[c], calls[d]) ==> c == d
  }

  /** Some call on invoice i is between InsertPayment and MarkPaid. */
  ghost predicate Recording(calls: map<nat, Call>, i: nat) {
    exists c :: c in calls && calls[c].invoiceId == i && calls[c].phase == Recorded
  }

  /** One successful payment if the invoice is paid or about to be, none otherwise. */
  ghost predicate OnePayment(invoices: Invoices, payments: seq<Payment>, calls: map<nat, Call>, i: nat)
    requires i in invoices
  {
    PaidCount(payments, i) == if invoices[i].status.Paid? || Recording(calls, i) then 1 else 0
  }

  /** A call about to charge or to mark finds its invoice still open. */
  ghost predicate FindsOpen(invoices: Invoices, call: Call) {
    call.phase in {SawOpen, Locked, Recorded} ==> call.invoiceId in invoices && invoices[call.invoiceId].status.Open?
  }

  ghost predicate SerialInv(s: State) {
    && Inv(s)
    && Alone(s.calls)
    && (forall i :: i in s.invoices ==> OnePayment(s.invoices, s.payments, s.calls, i))
    && forall c :: c in s.calls ==> FindsOpen(s.invoices, s.calls[c])
  }

  lemma AloneUpdate(calls: map<nat, Call>, c: nat, call: Call)
    requires Alone(calls)
    requires forall d :: d in calls && Overlap(calls[d], call) ==> d == c
    ensures Alone(calls[c := call])
  {
  }

  /** The acting call is the only running one on its invoice. */
  lemma ActorIsAlone(s: State, a: Action)
    requires Alone(s.calls) && Enabled(s, a) && Sequential(s, a) && Actor(a).Some?
    ensures forall d :: d in s.calls && s.calls[d].invoiceId == CallAfter(s, a).invoiceId && !Ended(s.calls[d]) ==> d == Actor(a).value
  {
  }

  lemma RecordingUpdate(calls: map<nat, Call>, c: nat, call: Call, i: nat)
    requires c in calls ==> calls[c].invoiceId == call.invoiceId
    requires forall d :: d in calls && calls[d].invoiceId == call.invoiceId && !Ended(calls[d]) ==> d == c
    ensures call.invoiceId != i ==> (Recording(calls[c := call], i) <==> Recording(calls, i))
    ensures call.invoiceId == i ==> (Recording(calls[c := call], i) <==> call.phase == Recorded)
    ensures call.invoiceId == i ==> (Recording(calls, i) <==> c in calls && calls[c].phase == Recorded)
  {
    var after := calls[c := call];
    if Recording(calls, i) {
      var d :| d in calls && calls[d].invoiceId == i && calls[d].phase == Recorded;
      assert d != c ==> after[d] == calls[d];
    }
    if Recording(after, i) {
      var d :| d in after && after[d].invoiceId == i && after[d].phase == Recorded;
      assert d != c ==> after[d] == calls[d];
    }
    if call.phase == Recorded { assert after[c].phase == Recorded; }
  }

  /** A new invoice has no payment yet, and no call that recorded one. */
  lemma NewInvoiceUnpaid(s: State, i: nat)
    requires Inv(s) && i !in s.invoices
    ensures PaidCount(s.payments, i) == 0 && !Recording(s.calls, i)
  {
    NoPaymentNoCount(s.payments, i);
    forall c | c in s.calls && s.calls[c].phase == Recorded ensures s.calls[c].invoiceId != i {
      assert CallOk(s.invoices, s.payments, s.calls[c]);
    }
  }

  /** The step of an acting call keeps the account of the invoice it works on... */
  lemma OwnInvoice(s: State, a: Action, i: nat)
    requires Alone(s.calls) && Enabled(s, a) && Sequential(s, a) && Actor(a).Some?
    requires i == CallAfter(s, a).invoiceId && i in s.invoices && OnePayment(s.invoices, s.payments, s.calls, i)
    requires !a.StartPay? ==> FindsOpen(s.invoices, s.calls[Actor(a).value])
    ensures OnePayment(InvoicesAfter(s, a), PaymentsAfter(s, a), CallsAfter(s, a), i)
  {
    ActorFacts(s, a);
    ActorIsAlone(s, a);
    RecordingUpdate(s.calls, Actor(a).value, CallAfter(s, a), i);
    PaidCountStep(s, a, i);
  }

  /** ... and of every other invoice. */
  lemma OtherInvoice(s: State, a: Action, i: nat)
    requires Alone(s.calls) && Enabled(s, a) && Sequential(s, a) && Actor(a).Some?
    requires i != CallAfter(s, a).invoiceId && i in s.invoices && OnePayment(s.invoices, s.payments, s.calls, i)
    ensures OnePayment(InvoicesAfter(s, a), PaymentsAfter(s, a), CallsAfter(s, a), i)
  {
    ActorFacts(s, a);
    ActorIsAlone(s, a);
    RecordingUpdate(s.calls, Actor(a).value, CallAfter(s, a), i);
    PaidCountStep(s, a, i);
  }

  /** Whoever acts, it keeps the account of every invoice... */
  lemma ActorKeepsAccounts(s: State, a: Action, i: nat)
    requires SerialInv(s) && Enabled(s, a) && Sequential(s, a) && Actor(a).Some? && i in s.invoices
    ensures OnePayment(InvoicesAfter(s, a), PaymentsAfter(s, a), CallsAfter(s, a), i)
  {
    assert OnePayment(s.invoices, s.payments, s.calls, i);
    if !a.StartPay? { assert FindsOpen(s.invoices, s.calls[Actor(a).value]); }
    if i == CallAfter(s, a).invoiceId { OwnInvoice(s, a, i); } else { OtherInvoice(s, a, i); }
  }

  /** ... and so do the deliveries and the clock. */
  lemma OthersKeepAccounts(s: State, a: Action, i: nat)
    requires SerialInv(s) && Enabled(s, a) && Actor(a).None? && i in InvoicesAfter(s, a)
    ensures OnePayment(InvoicesAfter(s, a), PaymentsAfter(s, a), CallsAfter(s, a), i)
  {
    if i in s.invoices {
      assert OnePayment(s.invoices, s.payments, s.calls, i);
    } else {
      NewInvoiceUnpaid(s, i);
    }
  }

  lemma ActorFindsOpen(s: State, a: Action)
    requires Enabled(s, a) && Actor(a).Some?
    requires !a.StartPay? ==> FindsOpen(s.invoices, s.calls[Actor(a).value])
    ensures FindsOpen(InvoicesAfter(s, a), CallAfter(s, a))
  {
  }

  lemma BystanderFindsOpen(s: State, a: Action, d: nat)
    requires Alone(s.calls) && Enabled(s, a) && d in s.calls && Actor(a) != Some(d)
    requires FindsOpen(s.invoices, s.calls[d])
    ensures FindsOpen(InvoicesAfter(s, a), s.calls[d])
  {
  }

  lemma SerialInvStep(s: State, a: Action)
    requires SerialInv(s) && Enabled(s, a) && Sequential(s, a)
    ensures SerialInv(Apply(s, a))
  {
    InvStep(s, a);
    if Actor(a).Some? {
      ActorIsAlone(s, a);
      AloneUpdate(s.calls, Actor(a).value, CallAfter(s, a));
    }
    forall i | i in InvoicesAfter(s, a)
      ensures OnePayment(InvoicesAfter(s, a), PaymentsAfter(s, a), CallsAfter(s, a), i)
    {
      if Actor(a).Some? { ActorKeepsAccounts(s, a, i); } else { OthersKeepAccounts(s, a, i); }
    }
    forall c | c in CallsAfter(s, a) ensures FindsOpen(InvoicesAfter(s, a), CallsAfter(s, a)[c]) {
      if c in s.calls { assert FindsOpen(s.invoices, s.calls[c]); }
      if Actor(a) == Some(c) { ActorFindsOpen(s, a); } else { BystanderFindsOpen(s, a, c); }
    }
  }

  lemma SerialRun(s: State, acts: seq<Action>, t: State)
    requires SerialInv(s) && SequentialRun(s, acts, t)
    ensures SerialInv(t)
  {
    forall x, a, y | SerialInv(x) && SerialStep(x, a, y) ensures SerialInv(y) { SerialInvStep(x, a); }
    RunKeeps(SerialStep, SerialInv, s, acts, t);
  }

  /** Calls one after the other, with any scenarios and any other failures: the invoice collects
      its amount once if it is paid and nothing otherwise. */
  lemma SequentialChargesOnce(s: State, acts: seq<Action>, t: State, i: nat)
    requires Init(s) && SequentialRun(s, acts, t) && i in t.invoices && !Recording(t.calls, i)
    ensures PaidCount(t.payments, i) == if t.invoices[i].status.Paid? then 1 else 0
    ensures PaidSum(t.payments, i) == if t.invoices[i].status.Paid? then t.invoices[i].amount else 0
  {
    SerialRun(s, acts, t);
    assert OnePayment(t.invoices, t.payments, t.calls, i);
    SumIsCountTimesAmount(t.payments, i, t.invoices[i].amount);
  }
}
