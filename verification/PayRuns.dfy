/**
 Pay calls that nothing interrupts, as runs of the settlement protocol; and the run in which two
 of them, one after the other, both charge the same invoice.
 */
module PayRuns {
  import opened Options
  import opened Traces
  import opened Settlement
  import opened Charging

  lemma RunThen(s: State, acts: seq<Action>, t: State, a: Action, u: State)
    requires Run(s, acts, t) && Step(t, a, u)
    ensures Run(s, acts + [a], u)
  {
    LeadsThen(Step, s, acts, t, a, u);
  }

  lemma RunConcat(s: State, a: seq<Action>, t: State, b: seq<Action>, u: State)
    requires Run(s, a, t) && Run(t, b, u)
    ensures Run(s, a + b, u)
  {
    LeadsConcat(Step, s, a, t, b, u);
  }

  function WithCall(s: State, c: nat, call: Call): State {
    s.(calls := s.calls[c := call])
  }

  lemma Overwrite(calls: map<nat, Call>, c: nat, call: Call, next: Call)
    ensures calls[c := call][c := next] == calls[c := next]
  {
  }

  // -------------------------------------------- a successful call from the lock to the release

  function PayThroughActions(c: nat, uuid: string): seq<Action> {
    [] + [PayLock(c, Answered)] + [PayCharge(c, uuid)] + [PayMark(c)] + [PayPublish(c, true)] + [PayRelease(c, true)]
  }

  /** The state after the call c, which found its invoice open, has run to its end. */
  function PaidThrough(s: State, c: nat, uuid: string): State
    requires c in s.calls && s.calls[c].invoice.Some?
  {
    var call := s.calls[c];
    var i, txn := call.invoiceId, "txn_" + uuid;
    WithCall(s, c, call.(phase := Finished, hold := Held(s.now), transactionId := txn, recorded := true,
                         answer := Charged(StatusPaid, txn)))
      .(invoices := SetPaid(s.invoices, i),
        payments := s.payments + [Payment(i, call.invoice.value.amount, call.scenario, StatusPaid, txn)],
        locks := s.locks - {i},
        completedQueue := s.completedQueue + multiset{CompletedEvent(i, call.invoice.value, txn, s.now)})
  }

  /** The call is about to take the lock, which is free, and will be charged successfully. */
  predicate ReadyToPay(s: State, c: nat) {
    && At(s, c, SawOpen) && s.calls[c].invoice.Some? && s.calls[c].scenario == SCENARIO_SUCCESS
    && !LockLive(s.locks, s.calls[c].invoiceId, s.now)
  }

  lemma LockAndCharge(s: State, c: nat, uuid: string) returns (t: State)
    requires ReadyToPay(s, c)
    ensures Run(s, [] + [PayLock(c, Answered)] + [PayCharge(c, uuid)], t)
    ensures var call := s.calls[c];
            var i, txn := call.invoiceId, "txn_" + uuid;
            t == WithCall(s, c, call.(phase := Recorded, hold := Held(s.now), transactionId := txn, recorded := true))
                   .(payments := s.payments + [Payment(i, call.invoice.value.amount, call.scenario, StatusPaid, txn)],
                     locks := s.locks[i := Lock(c, s.now + LOCK_TTL)])
  {
    var call := s.calls[c];
    var i, txn := call.invoiceId, "txn_" + uuid;
    var locked := call.(phase := Locked, hold := Held(s.now));
    var recorded := locked.(phase := Recorded, transactionId := txn, recorded := true);
    var s1 := WithCall(s, c, locked).(locks := s.locks[i := Lock(c, s.now + LOCK_TTL)]);
    t := WithCall(s, c, recorded).(
           payments := s.payments + [Payment(i, call.invoice.value.amount, call.scenario, StatusPaid, txn)],
           locks := s1.locks);
    assert Step(s, PayLock(c, Answered), s1);
    Overwrite(s.calls, c, locked, recorded);
    assert Step(s1, PayCharge(c, uuid), t);
    var none: seq<Action> := [];
    RunThen(s, none, s, PayLock(c, Answered), s1);
    RunThen(s, none + [PayLock(c, Answered)], s1, PayCharge(c, uuid), t);
  }

  lemma MarkAndPublish(s: State, c: nat) returns (t: State)
    requires At(s, c, Recorded) && s.calls[c].invoice.Some?
    ensures Run(s, [] + [PayMark(c)] + [PayPublish(c, true)], t)
    ensures var call := s.calls[c];
            t == WithCall(s, c, call.(phase := Releasing, answer := Charged(StatusPaid, call.transactionId)))
                   .(invoices := SetPaid(s.invoices, call.invoiceId),
                     completedQueue := s.completedQueue + multiset{
                       CompletedEvent(call.invoiceId, call.invoice.value, call.transactionId, s.now)})
  {
    var call := s.calls[c];
    var marked := call.(phase := Marked);
    var told := call.(phase := Releasing, answer := Charged(StatusPaid, call.transactionId));
    var s1 := WithCall(s, c, marked).(invoices := SetPaid(s.invoices, call.invoiceId));
    t := WithCall(s, c, told).(
           invoices := s1.invoices,
           completedQueue := s.completedQueue + multiset{
             CompletedEvent(call.invoiceId, call.invoice.value, call.transactionId, s.now)});
    assert Step(s, PayMark(c), s1);
    Overwrite(s.calls, c, marked, told);
    assert Step(s1, PayPublish(c, true), t);
    var none: seq<Action> := [];
    RunThen(s, none, s, PayMark(c), s1);
    RunThen(s, none + [PayMark(c)], s1, PayPublish(c, true), t);
  }

  lemma ReleaseStep(s: State, c: nat, u: State)
    requires At(s, c, Releasing) && s.calls[c].hold.Held?
    requires u == WithCall(s, c, s.calls[c].(phase := Finished)).(locks := s.locks - {s.calls[c].invoiceId})
    ensures Step(s, PayRelease(c, true), u)
  {
  }

  /** The three parts of the call add up. */
  lemma PartsAddUp(s: State, c: nat, uuid: string, s2: State, s4: State)
    requires ReadyToPay(s, c)
    requires var call := s.calls[c];
             var i, txn := call.invoiceId, "txn_" + uuid;
             s2 == WithCall(s, c, call.(phase := Recorded, hold := Held(s.now), transactionId := txn, recorded := true))
                     .(payments := s.payments + [Payment(i, call.invoice.value.amount, call.scenario, StatusPaid, txn)],
                       locks := s.locks[i := Lock(c, s.now + LOCK_TTL)])
    requires var call := s2.calls[c];
             s4 == WithCall(s2, c, call.(phase := Releasing, answer := Charged(StatusPaid, call.transactionId)))
                     .(invoices := SetPaid(s2.invoices, call.invoiceId),
                       completedQueue := s2.completedQueue + multiset{
                         CompletedEvent(call.invoiceId, call.invoice.value, call.transactionId, s2.now)})
    ensures PaidThrough(s, c, uuid)
         == WithCall(s4, c, s4.calls[c].(phase := Finished)).(locks := s4.locks - {s4.calls[c].invoiceId})
  {
    var u := PaidThrough(s, c, uuid);
    Overwrite(s.calls, c, s2.calls[c], s4.calls[c]);
    Overwrite(s.calls, c, s4.calls[c], u.calls[c]);
    assert s4.locks - {s.calls[c].invoiceId} == s.locks - {s.calls[c].invoiceId};
  }

  lemma PayThrough(s: State, c: nat, uuid: string)
    requires ReadyToPay(s, c)
    ensures Run(s, PayThroughActions(c, uuid), PaidThrough(s, c, uuid))
  {
    var s2 := LockAndCharge(s, c, uuid);
    var s4 := MarkAndPublish(s2, c);
    PartsAddUp(s, c, uuid, s2, s4);
    ReleaseStep(s4, c, PaidThrough(s, c, uuid));
    var a, b := [] + [PayLock(c, Answered)] + [PayCharge(c, uuid)], [] + [PayMark(c)] + [PayPublish(c, true)];
    RunConcat(s, a, s2, b, s4);
    RunThen(s, a + b, s4, PayRelease(c, true), PaidThrough(s, c, uuid));
    assert a + b + [PayRelease(c, true)] == PayThroughActions(c, uuid);
  }

  // --------------------------------------------------------------- reading an open invoice

  /** A call that has read invoice i and found it open. */
  function OpenedCall(s: State, i: nat, scenario: string): Call
    requires i in s.invoices
  {
    NewCall(i, scenario, s.invoices[i].ownerEmail).(phase := SawOpen, invoice := Some(s.invoices[i]))
  }

  predicate Payable(s: State, i: nat) {
    i in s.invoices && s.invoices[i].status.Open? && s.invoices[i].ownerEmail != ""
  }

  lemma StartAndRead(s: State, c: nat, i: nat)
    requires Payable(s, i) && c !in s.calls
    ensures Run(s, [] + [StartPay(c, i, SCENARIO_SUCCESS, s.invoices[i].ownerEmail)] + [PayRead(c)],
                WithCall(s, c, OpenedCall(s, i, SCENARIO_SUCCESS)))
  {
    var start := StartPay(c, i, SCENARIO_SUCCESS, s.invoices[i].ownerEmail);
    var fresh_ := NewCall(i, SCENARIO_SUCCESS, s.invoices[i].ownerEmail);
    var s1 := WithCall(s, c, fresh_);
    var t := WithCall(s, c, OpenedCall(s, i, SCENARIO_SUCCESS));
    assert Step(s, start, s1);
    Overwrite(s.calls, c, fresh_, t.calls[c]);
    assert Step(s1, PayRead(c), t);
    var none: seq<Action> := [];
    RunThen(s, none, s, start, s1);
    RunThen(s, none + [start], s1, PayRead(c), t);
  }

  // ------------------------------------------------------------------------ charged twice

  /** Nothing fails: Redis answers, publishes arrive, no call errs or dies, no time passes. */
  predicate Flawless(a: Action) {
    match a
    case Tick(_) => false
    case PayLock(_, reply) => reply.Answered?
    case PayPublish(_, delivered) => delivered
    case PayRelease(_, redisOk) => redisOk
    case PayFail(_) => false
    case PayCrash(_) => false
    case _ => true
  }

  /** Both calls read the open invoice before either locks it; then each pays in turn. */
  function DoublePayActions(owner: string, i: nat, c: nat, d: nat, x: string, y: string): seq<Action> {
    ([] + [StartPay(c, i, SCENARIO_SUCCESS, owner)] + [PayRead(c)])
    + ([] + [StartPay(d, i, SCENARIO_SUCCESS, owner)] + [PayRead(d)])
    + PayThroughActions(c, x) + PayThroughActions(d, y)
  }

  lemma DoublePayFlawless(owner: string, i: nat, c: nat, d: nat, x: string, y: string)
    ensures forall a :: a in DoublePayActions(owner, i, c, d, x, y) ==> Flawless(a)
  {
  }

  /** From every state with an open invoice and a free lock, two calls can both charge it although
      the lock works perfectly: the status is read before the lock and not again after it. */
  lemma ChargedTwice(s: State, i: nat, c: nat, d: nat, x: string, y: string) returns (t: State)
    requires Payable(s, i) && !LockLive(s.locks, i, s.now) && c !in s.calls && d !in s.calls && c != d
    ensures Run(s, DoublePayActions(s.invoices[i].ownerEmail, i, c, d, x, y), t)
    ensures PaidCount(t.payments, i) == PaidCount(s.payments, i) + 2
    ensures t.payments == s.payments
              + [Payment(i, s.invoices[i].amount, SCENARIO_SUCCESS, StatusPaid, "txn_" + x)]
              + [Payment(i, s.invoices[i].amount, SCENARIO_SUCCESS, StatusPaid, "txn_" + y)]
  {
    var owner := s.invoices[i].ownerEmail;
    var open := OpenedCall(s, i, SCENARIO_SUCCESS);
    var a := [] + [StartPay(c, i, SCENARIO_SUCCESS, owner)] + [PayRead(c)];
    var b := [] + [StartPay(d, i, SCENARIO_SUCCESS, owner)] + [PayRead(d)];
    StartAndRead(s, c, i);
    var s1 := WithCall(s, c, open);
    StartAndRead(s1, d, i);
    var s2 := WithCall(s1, d, open);
    RunConcat(s, a, s1, b, s2);
    PayThrough(s2, c, x);
    var s3 := PaidThrough(s2, c, x);
    RunConcat(s, a + b, s2, PayThroughActions(c, x), s3);
    assert s3.calls[d] == open;
    PayThrough(s3, d, y);
    t := PaidThrough(s3, d, y);
    RunConcat(s, a + b + PayThroughActions(c, x), s3, PayThroughActions(d, y), t);
    PaidCountAppend(s.payments, Payment(i, s.invoices[i].amount, SCENARIO_SUCCESS, StatusPaid, "txn_" + x), i);
    PaidCountAppend(s3.payments, Payment(i, s.invoices[i].amount, SCENARIO_SUCCESS, StatusPaid, "txn_" + y), i);
  }
}
