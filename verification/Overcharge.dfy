/** Exactly when an invoice can collect a payment, or another one, and two ways it collects twice. */
module Overcharge {
  import opened Traces
  import opened Violations
  import opened Settlement
  import opened Causality
  import opened Charging
  import opened PayRuns
  import opened PayLocks
  import opened Quiescence

  /** A call that has read the invoice as open, will succeed, and has not charged yet. */
  predicate WillCharge(call: Call, i: nat) {
    call.invoiceId == i && call.scenario == SCENARIO_SUCCESS && call.phase in {SawOpen, Locked}
  }

  ghost predicate SomeWillCharge(calls: map<nat, Call>, i: nat) {
    exists c :: c in calls && WillCharge(calls[c], i)
  }

  /** Some run from here records another successful payment. */
  ghost predicate CanCollectMore(s: State, i: nat) {
    exists acts, t :: Run(s, acts, t) && PaidCount(t.payments, i) > PaidCount(s.payments, i)
  }

  ghost predicate Harmless(s: State, i: nat, count: nat) {
    && i in s.invoices && !Payable(s, i) && PaidCount(s.payments, i) == count
    && forall c :: c in s.calls ==> !WillCharge(s.calls[c], i)
  }

  lemma ActorHarmless(s: State, a: Action, i: nat)
    requires Enabled(s, a) && Actor(a).Some? && i in s.invoices && !Payable(s, i)
    requires Actor(a).value in s.calls ==> !WillCharge(s.calls[Actor(a).value], i)
    ensures !WillCharge(CallAfter(s, a), i)
  {
  }

  lemma HarmlessStep(s: State, a: Action, i: nat, count: nat)
    requires Harmless(s, i, count) && Enabled(s, a)
    ensures Harmless(Apply(s, a), i, count)
  {
    InvoicesOnlyGrow(s, a);
    PaidCountStep(s, a, i);
    if Actor(a).Some? { ActorHarmless(s, a, i); }
  }

  lemma HarmlessRun(s: State, acts: seq<Action>, t: State, i: nat, count: nat)
    requires Harmless(s, i, count) && Run(s, acts, t)
    ensures Harmless(t, i, count)
  {
    var inv := x => Harmless(x, i, count);
    forall x, a, y | inv(x) && Step(x, a, y) ensures inv(y) { HarmlessStep(x, a, i, count); }
    RunKeeps(Step, inv, s, acts, t);
  }

  /** A call in the section that will succeed charges in its next step. */
  lemma ChargesNext(w: State, acts: seq<Action>, s: State, c: nat, uuid: string) returns (t: State)
    requires Run(w, acts, s) && At(s, c, Locked) && s.calls[c].invoice.Some? && s.calls[c].scenario == SCENARIO_SUCCESS
    ensures Run(w, acts + [PayCharge(c, uuid)], t)
    ensures var i := s.calls[c].invoiceId; PaidCount(t.payments, i) == PaidCount(s.payments, i) + 1
  {
    t := Apply(s, PayCharge(c, uuid));
    RunThen(w, acts, s, PayCharge(c, uuid), t);
    PaidCountStep(s, PayCharge(c, uuid), s.calls[c].invoiceId);
  }

  /** A call before the lock gets in at the latest when the present key has expired, Redis answering. */
  lemma LocksLater(s: State, c: nat) returns (t: State)
    requires KeysExpire(s) && At(s, c, SawOpen)
    ensures Run(s, [] + [Tick(LOCK_TTL)] + [PayLock(c, Answered)], t)
    ensures At(t, c, Locked) && t.payments == s.payments
    ensures t.calls[c] == s.calls[c].(phase := Locked, hold := Held(s.now + LOCK_TTL))
  {
    var none: seq<Action> := [];
    var later := Apply(s, Tick(LOCK_TTL));
    RunThen(s, none, s, Tick(LOCK_TTL), later);
    assert !LockLive(later.locks, s.calls[c].invoiceId, later.now);
    t := Apply(later, PayLock(c, Answered));
    RunThen(s, none + [Tick(LOCK_TTL)], later, PayLock(c, Answered), t);
  }

  lemma CollectsNow(s: State, c: nat, i: nat)
    requires At(s, c, Locked) && s.calls[c].invoice.Some? && WillCharge(s.calls[c], i)
    ensures CanCollectMore(s, i)
  {
    var none: seq<Action> := [];
    var t := ChargesNext(s, none, s, c, "");
    assert Run(s, none + [PayCharge(c, "")], t);
  }

  lemma CollectsLater(s: State, c: nat, i: nat)
    requires KeysExpire(s) && At(s, c, SawOpen) && s.calls[c].invoice.Some? && WillCharge(s.calls[c], i)
    ensures CanCollectMore(s, i)
  {
    var acts := [] + [Tick(LOCK_TTL)] + [PayLock(c, Answered)];
    var locked := LocksLater(s, c);
    var t := ChargesNext(s, acts, locked, c, "");
    assert Run(s, acts + [PayCharge(c, "")], t);
  }

  lemma WillCollect(s: State, c: nat, i: nat)
    requires Inv(s) && KeysExpire(s) && c in s.calls && WillCharge(s.calls[c], i)
    ensures CanCollectMore(s, i)
  {
    assert s.calls[c].invoice.Some? by { assert CallOk(s.invoices, s.payments, s.calls[c]); }
    if s.calls[c].phase == Locked { CollectsNow(s, c, i); } else { CollectsLater(s, c, i); }
  }

  lemma CollectsAfter(s: State, acts: seq<Action>, t: State, i: nat)
    requires Run(s, acts, t) && t.payments == s.payments && CanCollectMore(t, i)
    ensures CanCollectMore(s, i)
  {
    var more, u :| Run(t, more, u) && PaidCount(u.payments, i) > PaidCount(t.payments, i);
    RunConcat(s, acts, t, more, u);
  }

  /** An open invoice collects when its owner starts to pay it now. */
  lemma PayableCollects(s: State, i: nat)
    requires Inv(s) && KeysExpire(s) && Payable(s, i)
    ensures CanCollectMore(s, i)
  {
    var c := Above(s.calls.Keys);
    assert c !in s.calls;
    StartAndRead(s, c, i);
    var t := WithCall(s, c, OpenedCall(s, i, SCENARIO_SUCCESS));
    CollectsLater(t, c, i);
    CollectsAfter(s, [] + [StartPay(c, i, SCENARIO_SUCCESS, s.invoices[i].ownerEmail)] + [PayRead(c)], t, i);
  }

  /** In every reachable state an invoice can collect a successful payment, whatever it has collected
      already, if and only if it is open and somebody owns it, or some successful call that read it as
      open has still to charge. So a second payment has just these two causes: a call that read the
      status before the first was marked, and a first payment that was never marked. */
  lemma OverchargeIff(s: State, acts: seq<Action>, t: State, i: nat)
    requires Init(s) && Run(s, acts, t) && i in t.invoices
    ensures CanCollectMore(t, i) <==> Payable(t, i) || SomeWillCharge(t.calls, i)
  {
    InvRun(s, acts, t);
    KeysExpireRun(s, acts, t);
    if SomeWillCharge(t.calls, i) {
      var c :| c in t.calls && WillCharge(t.calls[c], i);
      WillCollect(t, c, i);
    } else if Payable(t, i) {
      PayableCollects(t, i);
    } else {
      forall more, u | Run(t, more, u) ensures PaidCount(u.payments, i) == PaidCount(t.payments, i) {
        HarmlessRun(t, more, u, i, PaidCount(t.payments, i));
      }
    }
  }

  // ------------------------------------------------- charged twice, one call after the other

  /** A call whose MarkPaid fails after its charge, and that then releases its key. */
  function UnmarkedActions(owner: string, i: nat, c: nat, uuid: string): seq<Action> {
    ([] + [StartPay(c, i, SCENARIO_SUCCESS, owner)] + [PayRead(c)])
    + ([] + [PayLock(c, Answered)] + [PayCharge(c, uuid)]) + ([] + [PayFail(c)] + [PayRelease(c, true)])
  }

  lemma FailsUnmarked(s: State, c: nat) returns (t: State)
    requires At(s, c, Recorded) && s.calls[c].hold.Held?
    ensures Run(s, [] + [PayFail(c)] + [PayRelease(c, true)], t)
    ensures t.payments == s.payments && t.invoices == s.invoices && t.now == s.now
    ensures t.locks == s.locks - {s.calls[c].invoiceId} && t.calls.Keys == s.calls.Keys && At(t, c, Finished)
  {
    var none: seq<Action> := [];
    var s1 := Apply(s, PayFail(c));
    RunThen(s, none, s, PayFail(c), s1);
    t := Apply(s1, PayRelease(c, true));
    RunThen(s, none + [PayFail(c)], s1, PayRelease(c, true), t);
  }

  lemma ChargedOpen(s: State, i: nat, c: nat, uuid: string) returns (t: State)
    requires ReadyToPay(s, c) && s.calls[c].invoiceId == i
    ensures Run(s, [] + [PayLock(c, Answered)] + [PayCharge(c, uuid)], t)
    ensures At(t, c, Recorded) && t.calls[c].hold.Held? && t.calls[c].invoiceId == i
    ensures t.invoices == s.invoices && t.now == s.now && t.calls.Keys == s.calls.Keys
    ensures PaidCount(t.payments, i) == PaidCount(s.payments, i) + 1
  {
    t := LockAndCharge(s, c, uuid);
    PaidCountAppend(s.payments, Payment(i, s.calls[c].invoice.value.amount, SCENARIO_SUCCESS, StatusPaid, "txn_" + uuid), i);
  }

  lemma ChargedOnce(s: State, i: nat, c: nat, uuid: string) returns (t: State)
    requires Payable(s, i) && !LockLive(s.locks, i, s.now) && c !in s.calls
    ensures Run(s, ([] + [StartPay(c, i, SCENARIO_SUCCESS, s.invoices[i].ownerEmail)] + [PayRead(c)])
                   + ([] + [PayLock(c, Answered)] + [PayCharge(c, uuid)]), t)
    ensures At(t, c, Recorded) && t.calls[c].hold.Held? && t.calls[c].invoiceId == i
    ensures t.invoices == s.invoices && t.now == s.now && t.calls.Keys == s.calls.Keys + {c}
    ensures PaidCount(t.payments, i) == PaidCount(s.payments, i) + 1
  {
    StartAndRead(s, c, i);
    var s1 := WithCall(s, c, OpenedCall(s, i, SCENARIO_SUCCESS));
    t := ChargedOpen(s1, i, c, uuid);
    RunConcat(s, [] + [StartPay(c, i, SCENARIO_SUCCESS, s.invoices[i].ownerEmail)] + [PayRead(c)], s1,
              [] + [PayLock(c, Answered)] + [PayCharge(c, uuid)], t);
  }

  /** The payment is on record, the invoice is open and its key is free. */
  lemma ChargedUnmarked(s: State, i: nat, c: nat, uuid: string) returns (t: State)
    requires Payable(s, i) && !LockLive(s.locks, i, s.now) && c !in s.calls
    ensures Run(s, UnmarkedActions(s.invoices[i].ownerEmail, i, c, uuid), t)
    ensures t.invoices == s.invoices && t.now == s.now && !LockLive(t.locks, i, t.now)
    ensures t.calls.Keys == s.calls.Keys + {c} && At(t, c, Finished)
    ensures PaidCount(t.payments, i) == PaidCount(s.payments, i) + 1
  {
    var s2 := ChargedOnce(s, i, c, uuid);
    t := FailsUnmarked(s2, c);
    RunConcat(s, ([] + [StartPay(c, i, SCENARIO_SUCCESS, s.invoices[i].ownerEmail)] + [PayRead(c)])
                 + ([] + [PayLock(c, Answered)] + [PayCharge(c, uuid)]), s2,
              [] + [PayFail(c)] + [PayRelease(c, true)], t);
  }

  /** From every state with an open invoice and a free lock: a call that records its payment and fails
      to mark the invoice, and after its end a second call that finds nothing wrong, both charge. */
  lemma MarkFailsChargedTwice(s: State, i: nat, c: nat, d: nat, x: string, y: string) returns (t: State)
    requires Payable(s, i) && !LockLive(s.locks, i, s.now) && c !in s.calls && d !in s.calls && c != d
    ensures var owner := s.invoices[i].ownerEmail;
            Run(s, UnmarkedActions(owner, i, c, x)
                   + (([] + [StartPay(d, i, SCENARIO_SUCCESS, owner)] + [PayRead(d)]) + PayThroughActions(d, y)), t)
    ensures PaidCount(t.payments, i) == PaidCount(s.payments, i) + 2
  {
    var s1 := ChargedUnmarked(s, i, c, x);
    StartAndRead(s1, d, i);
    var s2 := WithCall(s1, d, OpenedCall(s1, i, SCENARIO_SUCCESS));
    PayThrough(s2, d, y);
    t := PaidThrough(s2, d, y);
    var owner := s.invoices[i].ownerEmail;
    var b := [] + [StartPay(d, i, SCENARIO_SUCCESS, owner)] + [PayRead(d)];
    RunConcat(s1, b, s2, PayThroughActions(d, y), t);
    RunConcat(s, UnmarkedActions(owner, i, c, x), s1, b + PayThroughActions(d, y), t);
    PaidCountAppend(s1.payments, Payment(i, s.invoices[i].amount, SCENARIO_SUCCESS, StatusPaid, "txn_" + y), i);
  }

  /** The states those runs start from are reachable. */
  lemma OpenInvoiceReachable() returns (s: State, acts: seq<Action>, t: State)
    ensures Init(s) && Run(s, acts, t)
    ensures Payable(t, 0) && !LockLive(t.locks, 0, t.now) && t.calls == map[] && t.payments == []
  {
    var row := Violation("B1", "expired_meter", "", 0, "member", "officer", 0, 1, 1, 1.0, 1.0, 0, 1, false, 0);
    s, acts, t := InvoiceOpens(LOCK_TTL, false, row);
    LeadsWeakens(PunctualStep(LOCK_TTL, false), Step, s, acts, t);
  }
}
