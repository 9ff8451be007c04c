/**
 The payment service as one process runs it: its invoices and payments tables, the Redis lock
 keys, and the queue its payments are announced on. Each call's effect is that of PayCalls, a run
 of the settlement protocol.
 */
module PaymentService {
  import opened Violations
  import opened Settlement
  import opened PayCalls
  import opened Confluence
  import Broker
  import Causality
  import Quiescence

  /** An answer of paid speaks of a paid invoice, and of a payment on record. */
  predicate AnswerTrue(u: State, i: nat, answer: Answer) {
    Causality.AnswersPaid(answer) ==>
      i in u.invoices && u.invoices[i].status.Paid? && Causality.PaidWith(u.payments, i, answer.transactionId)
  }

  lemma FinishedAnswerTrue(u: State, c: nat)
    requires Causality.Inv(u) && c in u.calls
    ensures AnswerTrue(u, u.calls[c].invoiceId, u.calls[c].answer)
  {
  }

  /** Pay keeps the protocol's invariant, and when it answers paid, a payment on record says so. */
  lemma PayKeepsInv(w: State, c: nat, i: nat, scenario: string, caller: string, uuid: string, f: Faults)
    requires Causality.Inv(w) && c !in w.calls
    ensures var u := PayOutcome(w, c, i, scenario, caller, uuid, f);
            Causality.Inv(u) && AnswerTrue(u, i, u.calls[c].answer)
  {
    var u := PayOutcome(w, c, i, scenario, caller, uuid, f);
    PayIsRun(w, c, i, scenario, caller, uuid, f);
    Causality.InvRun(w, PayActions(w, c, i, scenario, caller, uuid, f), u);
    FinishedAnswerTrue(u, c);
  }

  // ------------------------------------------------------ the violation.created handler

  /** The invoices, and the next id the database will generate. */
  datatype Ledger = Ledger(invoices: Invoices, next: nat)

  /** Creates the event's invoice, if it has none yet. */
  function HandleCreated(now: Time): (Ledger, ViolationCreated) -> Ledger {
    (l: Ledger, evt: ViolationCreated) => Ledger(CreateInvoice(l.invoices, evt, l.next, now), l.next + 1)
  }

  predicate Fresh(l: Ledger) {
    forall i :: i in l.invoices ==> i < l.next
  }

  lemma HandleGrows(now: Time, l: Ledger, m: ViolationCreated)
    requires Fresh(l)
    ensures var t := HandleCreated(now)(l, m);
            && Fresh(t) && GrownFrom(l.invoices, multiset{m}, t.invoices) && HasInvoice(t.invoices, m.violationId)
            && (Causality.OnePerViolation(l.invoices) ==> Causality.OnePerViolation(t.invoices))
  {
    var t := HandleCreated(now)(l, m);
    Quiescence.CreateInvoiceHas(l.invoices, m, l.next, now);
    if !HasInvoice(l.invoices, m.violationId) { assert MadeFrom(t.invoices[l.next], m); }
  }

  lemma {:induction false} FoldCreates(now: Time, l: Ledger, log: seq<ViolationCreated>)
    requires Fresh(l)
    ensures var t := Broker.Fold(HandleCreated(now), l, log);
            && Fresh(t) && GrownFrom(l.invoices, multiset(log), t.invoices)
            && (forall m :: m in log ==> HasInvoice(t.invoices, m.violationId))
            && (Causality.OnePerViolation(l.invoices) ==> Causality.OnePerViolation(t.invoices))
    decreases |log|
  {
    if log != [] {
      var rest, last := log[..|log| - 1], log[|log| - 1];
      FoldCreates(now, l, rest);
      var mid := Broker.Fold(HandleCreated(now), l, rest);
      HandleGrows(now, mid, last);
      var t := HandleCreated(now)(mid, last);
      assert log == rest + [last];
      GrownFromWider(l.invoices, multiset(rest), multiset(log), mid.invoices);
      GrownFromWider(mid.invoices, multiset{last}, multiset(log), t.invoices);
      GrownFromTrans(l.invoices, multiset(log), mid.invoices, multiset(log), t.invoices);
      forall m | m in log ensures HasInvoice(t.invoices, m.violationId) {
        if m in rest { StillInvoiced(mid.invoices, multiset{last}, t.invoices, m.violationId); }
      }
    }
  }

  lemma StillInvoiced(a: Invoices, q: multiset<ViolationCreated>, b: Invoices, v: nat)
    requires GrownFrom(a, q, b) && HasInvoice(a, v)
    ensures HasInvoice(b, v)
  {
  }

  lemma GrownFromWider(a: Invoices, q: multiset<ViolationCreated>, r: multiset<ViolationCreated>, b: Invoices)
    requires GrownFrom(a, q, b) && forall m :: m in q ==> m in r
    ensures GrownFrom(a, r, b)
  {
  }

  class Service {
    var invoices: Invoices
    var payments: seq<Payment>
    var locks: map<nat, Lock>
    var completedQueue: multiset<PaymentCompleted>
    var now: Time

    /** The fields are the payment service's part of the protocol state w. */
    predicate Shows(w: State)
      reads this
    {
      && w.invoices == invoices && w.payments == payments && w.locks == locks
      && w.completedQueue == completedQueue && w.now == now
    }

    constructor (now: Time)
      ensures this.now == now && invoices == map[] && payments == [] && locks == map[] && completedQueue == multiset{}
    {
      invoices, payments, locks, completedQueue := map[], [], map[], multiset{};
      this.now := now;
    }

    // ------------------------------------------------------------------- the store

    /** INSERT INTO invoices ... ON CONFLICT (violation_id) DO NOTHING. */
    method StoreInvoice(inv: Invoice, id: nat)
      requires id !in invoices
      modifies this`invoices
      ensures invoices == if HasInvoice(old(invoices), inv.violationId) then old(invoices) else old(invoices)[id := inv]
    {
      if !HasInvoice(invoices, inv.violationId) {
        invoices := invoices[id := inv];
      }
    }

    method InsertPayment(p: Payment, dbOk: bool) returns (ok: bool)
      modifies this`payments
      ensures ok == dbOk && payments == old(payments) + if ok then [p] else []
    {
      if dbOk { payments := payments + [p]; }
      return dbOk;
    }

    method MarkPaid(i: nat, dbOk: bool) returns (ok: bool)
      modifies this`invoices
      ensures ok == dbOk && invoices == if ok then SetPaid(old(invoices), i) else old(invoices)
    {
      if dbOk && i in invoices { invoices := invoices[i := invoices[i].(status := Paid)]; }
      return dbOk;
    }

    // ------------------------------------------------------------------ the service

    /** One invoice per violation, however often its event is handled. */
    method CreateInvoiceFromEvent(evt: ViolationCreated, id: nat, dbOk: bool) returns (ok: bool)
      requires id !in invoices
      modifies this`invoices
      ensures ok == dbOk
      ensures !ok ==> invoices == old(invoices)
      ensures ok ==> HasInvoice(invoices, evt.violationId) && invoices == CreateInvoice(old(invoices), evt, id, now)
      ensures Causality.OnePerViolation(old(invoices)) ==> Causality.OnePerViolation(invoices)
    {
      if !dbOk { return false; }
      StoreInvoice(Invoice(evt.violationId, evt.plate, evt.violationType, evt.ownerEmail, evt.issuedByEmail,
                           evt.finalAmount, Open, now), id);
      assert !HasInvoice(old(invoices), evt.violationId) ==> invoices[id].violationId == evt.violationId;
      return true;
    }

    /** The service's consumer, over its own queue, with ids drawn from next on: whatever the order,
        the duplicates and the failures, every announced violation has its invoice, existing invoices
        are untouched, and each new one is open and made from a queued event of a violation without. */
    method ConsumeCreated(exchange: Broker.Exchange<ViolationCreated>, queue: string, outcomes: seq<Outcome>, next: nat)
      requires queue in exchange.ready && forall i :: i in invoices ==> i < next
      modifies this`invoices, exchange`ready
      ensures exchange.ready == old(exchange.ready)[queue := multiset{}]
      ensures forall m :: m in old(exchange.ready)[queue] ==> HasInvoice(invoices, m.violationId)
      ensures GrownFrom(old(invoices), old(exchange.ready)[queue], invoices)
      ensures Causality.OnePerViolation(old(invoices)) ==> Causality.OnePerViolation(invoices)
    {
      var t, handled, acked, deliveries := exchange.Consume(queue, HandleCreated(now), Ledger(invoices, next), outcomes);
      FoldCreates(now, Ledger(invoices, next), handled);
      GrownFromWider(invoices, multiset(handled), old(exchange.ready)[queue], t.invoices);
      invoices := t.invoices;
    }

    /** SET NX with the TTL. held: there is a key to delete afterwards. c only names the holder. An
        error lets the call in without one, even if the command was carried out. */
    method AcquireLock(c: nat, i: nat, reply: Reply) returns (ok: bool, held: bool)
      modifies this`locks
      ensures ok <==> !reply.Answered? || !LockLive(old(locks), i, now)
      ensures held <==> reply.Answered? && !LockLive(old(locks), i, now)
      ensures locks == if reply.Lost? || LockLive(old(locks), i, now) then old(locks)
                       else old(locks)[i := Lock(c, now + LOCK_TTL)]
    {
      if reply.Lost? { return true, false; }
      var free := !LockLive(locks, i, now);
      if free { locks := locks[i := Lock(c, now + LOCK_TTL)]; }
      if reply.LostAfter? { return true, false; }
      return free, free;
    }

    /** DEL, whoever holds the key by now. */
    method Release(i: nat, held: bool, redisOk: bool)
      modifies this`locks
      ensures locks == if held && redisOk then old(locks) - {i} else old(locks)
    {
      if held && redisOk { locks := locks - {i}; }
    }

    method PublishCompleted(i: nat, inv: Invoice, txn: string, delivered: bool)
      modifies this`completedQueue
      ensures completedQueue == Announced(old(completedQueue), i, inv, txn, now, delivered)
    {
      if delivered { completedQueue := completedQueue + multiset{CompletedEvent(i, inv, txn, now)}; }
    }

    /** The charge inside the section: record it and, if it succeeded, mark the invoice and announce it. */
    method RecordCharge(i: nat, inv: Invoice, scenario: string, uuid: string, f: Faults) returns (answer: Answer)
      modifies this`invoices, this`payments, this`completedQueue
      ensures answer == SectionAnswer(scenario, uuid, f)
      ensures payments == PaymentsLeft(old(payments), i, inv.amount, scenario, uuid, f)
      ensures invoices == InvoicesLeft(old(invoices), i, scenario, f)
      ensures completedQueue
           == Announced(old(completedQueue), i, inv, Charge(scenario, uuid).1, now, Marks(scenario, f) && f.delivered)
    {
      var (status, txn) := Charge(scenario, uuid);
      var recorded := InsertPayment(Payment(i, inv.amount, scenario, status, txn), !f.recordFails);
      if !recorded { return Declined(Internal); }
      if status.StatusPaid? {
        var marked := MarkPaid(i, !f.markFails);
        if !marked { return Declined(Internal); }
        PublishCompleted(i, inv, txn, f.delivered);
      }
      return Charged(status, txn);
    }

    /** From the lock to its release. */
    method ChargeInvoice(c: nat, i: nat, inv: Invoice, scenario: string, uuid: string, f: Faults) returns (answer: Answer)
      modifies this`invoices, this`payments, this`locks, this`completedQueue
      ensures f.lock.Answered? && LockLive(old(locks), i, now) ==>
        && answer == Declined(ErrBusy) && invoices == old(invoices) && payments == old(payments)
        && locks == old(locks) && completedQueue == old(completedQueue)
      ensures !(f.lock.Answered? && LockLive(old(locks), i, now)) ==>
        && answer == SectionAnswer(scenario, uuid, f)
        && payments == PaymentsLeft(old(payments), i, inv.amount, scenario, uuid, f)
        && invoices == InvoicesLeft(old(invoices), i, scenario, f)
        && locks == LocksLeft(old(locks), now, c, i, f)
        && completedQueue
           == Announced(old(completedQueue), i, inv, Charge(scenario, uuid).1, now, Marks(scenario, f) && f.delivered)
    {
      var ok, held := AcquireLock(c, i, f.lock);
      if !ok { return Declined(ErrBusy); }
      answer := RecordCharge(i, inv, scenario, uuid, f);
      Release(i, held, f.releaseOk);
    }

    /** Who may pay what: everything Pay decides before it takes the lock. */
    method Admit(i: nat, scenario: string, caller: string, readFails: bool) returns (answer: Answer)
      ensures answer == Gate(invoices, payments, i, scenario, caller, readFails)
      ensures answer == Pending <==>
        && scenario in {SCENARIO_SUCCESS, SCENARIO_FAILED} && !readFails && i in invoices
        && caller != "" && invoices[i].ownerEmail == caller && invoices[i].status.Open?
      ensures answer == Declined(ErrForbidden) <==>
        && scenario in {SCENARIO_SUCCESS, SCENARIO_FAILED} && !readFails && i in invoices
        && (caller == "" || invoices[i].ownerEmail != caller)
      ensures answer.AlreadyPaid? ==> i in invoices && invoices[i].status.Paid? && invoices[i].ownerEmail == caller != ""
      ensures answer.AlreadyPaid? && Causality.HasPaid(payments, i) ==> Causality.PaidWith(payments, i, answer.transactionId)
    {
      if Causality.HasPaid(payments, i) { Causality.LatestPaidIsPaid(payments, i); }
      if scenario != SCENARIO_SUCCESS && scenario != SCENARIO_FAILED { return Declined(ErrInvalidScenario); }
      if readFails { return Declined(Internal); }
      if i !in invoices { return Declined(ErrNotFound); }
      var inv := invoices[i];
      if caller == "" || inv.ownerEmail != caller { return Declined(ErrForbidden); }
      if inv.status.Paid? { return AlreadyPaid(LatestPaid(payments, i)); }
      return Pending;
    }

    /** Pay. c and w name the call and the protocol state it starts in; its effect is PayOutcome. */
    method Pay(ghost w: State, c: nat, i: nat, scenario: string, caller: string, uuid: string, f: Faults)
        returns (answer: Answer)
      requires Shows(w) && c !in w.calls
      modifies this`invoices, this`payments, this`locks, this`completedQueue
      ensures Shows(PayOutcome(w, c, i, scenario, caller, uuid, f))
      ensures answer == PayOutcome(w, c, i, scenario, caller, uuid, f).calls[c].answer
    {
      answer := Admit(i, scenario, caller, f.readFails);
      if answer != Pending { return; }
      answer := ChargeInvoice(c, i, invoices[i], scenario, uuid, f);
    }
  }

  /** A Pay of a paid invoice changes no table and publishes nothing; its owner is answered with the
      transaction of a payment on record. */
  lemma PayingAgain(w: State, c: nat, i: nat, scenario: string, caller: string, uuid: string, f: Faults)
    requires Causality.Inv(w) && i in w.invoices && w.invoices[i].status.Paid?
    ensures var u := PayOutcome(w, c, i, scenario, caller, uuid, f);
            && u == w.(calls := u.calls)
            && (u.calls[c].answer.Declined? <==>
                  scenario !in {SCENARIO_SUCCESS, SCENARIO_FAILED} || f.readFails || caller == "" || w.invoices[i].ownerEmail != caller)
            && (!u.calls[c].answer.Declined? ==>
                  u.calls[c].answer.AlreadyPaid? && Causality.PaidWith(w.payments, i, u.calls[c].answer.transactionId))
  {
    Causality.LatestPaidIsPaid(w.payments, i);
  }
}
