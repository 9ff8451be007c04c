/**
 What one Pay call amounts to when no other call runs meanwhile, with any of the failures the code
 handles, and the run of the settlement protocol that it is.
 */
module PayCalls {
  import opened Options
  import opened Violations
  import opened Settlement
  import opened PayRuns

  /** What goes wrong during a Pay call, and what time the answers come from Redis. */
  datatype Faults = Faults(
    readFails: bool, lock: Reply, recordFails: bool, markFails: bool, delivered: bool, releaseOk: bool)

  /** How Pay turns a caller away, or answers at once, before it takes the lock. */
  function Gate(invoices: Invoices, payments: seq<Payment>, i: nat, scenario: string, caller: string, readFails: bool): Answer {
    if scenario != SCENARIO_SUCCESS && scenario != SCENARIO_FAILED then Declined(ErrInvalidScenario)
    else if readFails then Declined(Internal)
    else if i !in invoices then Declined(ErrNotFound)
    else if caller == "" || invoices[i].ownerEmail != caller then Declined(ErrForbidden)
    else if invoices[i].status.Paid? then AlreadyPaid(LatestPaid(payments, i))
    else Pending
  }

  // ---------------------------------------------------------- what a Pay call amounts to

  /** w with the call c, and the tables and keys the payment service owns, as given. */
  function Stage(w: State, c: nat, call: Call, locks: map<nat, Lock>, payments: seq<Payment>, invoices: Invoices,
                 completed: multiset<PaymentCompleted>): State {
    State(w.violations, invoices, payments, locks, w.createdQueue, completed, w.announcing, w.calls[c := call], w.now)
  }

  // What the section from the lock to the release leaves behind.

  function LocksLeft(locks: map<nat, Lock>, now: Time, c: nat, i: nat, f: Faults): map<nat, Lock> {
    if f.lock.Answered? && f.releaseOk then locks - {i} else SetNX(locks, i, c, now, f.lock)
  }

  function PaymentsLeft(payments: seq<Payment>, i: nat, amount: int, scenario: string, uuid: string, f: Faults): seq<Payment> {
    var (status, txn) := Charge(scenario, uuid);
    if f.recordFails then payments else payments + [Payment(i, amount, scenario, status, txn)]
  }

  /** A payment that is recorded and successful, and whose invoice update does not fail. */
  predicate Marks(scenario: string, f: Faults) {
    scenario == SCENARIO_SUCCESS && !f.recordFails && !f.markFails
  }

  function InvoicesLeft(invoices: Invoices, i: nat, scenario: string, f: Faults): Invoices {
    if Marks(scenario, f) then SetPaid(invoices, i) else invoices
  }

  function Announced(queue: multiset<PaymentCompleted>, i: nat, inv: Invoice, txn: string, now: Time, delivered: bool)
    : multiset<PaymentCompleted>
  {
    if delivered then queue + multiset{CompletedEvent(i, inv, txn, now)} else queue
  }

  function SectionAnswer(scenario: string, uuid: string, f: Faults): Answer {
    var (status, txn) := Charge(scenario, uuid);
    if f.recordFails || (status.StatusPaid? && f.markFails) then Declined(Internal) else Charged(status, txn)
  }

  function SectionOutcome(w: State, c: nat, i: nat, scenario: string, caller: string, uuid: string, f: Faults): (u: State)
    requires i in w.invoices
    ensures c in u.calls && u.calls[c].invoiceId == i
  {
    var inv := w.invoices[i];
    var (status, txn) := Charge(scenario, uuid);
    var call := Call(i, scenario, caller, Finished, Some(inv), if f.lock.Answered? then Held(w.now) else NoHold,
                     if f.recordFails then "" else txn, !f.recordFails && status.StatusPaid?,
                     SectionAnswer(scenario, uuid, f));
    Stage(w, c, call, LocksLeft(w.locks, w.now, c, i, f), PaymentsLeft(w.payments, i, inv.amount, scenario, uuid, f),
          InvoicesLeft(w.invoices, i, scenario, f),
          Announced(w.completedQueue, i, inv, txn, w.now, Marks(scenario, f) && f.delivered))
  }

  /** The state a Pay call leaves behind when nothing else runs meanwhile. */
  function PayOutcome(w: State, c: nat, i: nat, scenario: string, caller: string, uuid: string, f: Faults): (u: State)
    ensures c in u.calls && u.calls[c].invoiceId == i
  {
    var gate := Gate(w.invoices, w.payments, i, scenario, caller, f.readFails);
    var call := Call(i, scenario, caller, Finished, None, NoHold, "", false, gate);
    if gate != Pending then Stage(w, c, call, w.locks, w.payments, w.invoices, w.completedQueue)
    else if f.lock.Answered? && LockLive(w.locks, i, w.now) then
      Stage(w, c, call.(invoice := Some(w.invoices[i]), answer := Declined(ErrBusy)), w.locks, w.payments, w.invoices,
            w.completedQueue)
    else SectionOutcome(w, c, i, scenario, caller, uuid, f)
  }

  /** The steps of the call, in the order the code takes them. */
  function PayActions(w: State, c: nat, i: nat, scenario: string, caller: string, uuid: string, f: Faults): seq<Action> {
    var gate := Gate(w.invoices, w.payments, i, scenario, caller, f.readFails);
    var start := [] + [StartPay(c, i, scenario, caller)];
    if gate == Declined(ErrInvalidScenario) then start
    else if gate == Declined(Internal) then start + [PayFail(c)]
    else if gate != Pending then start + [PayRead(c)]
    else if f.lock.Answered? && LockLive(w.locks, i, w.now) then start + [PayRead(c)] + [PayLock(c, Answered)]
    else
      var locked := start + [PayRead(c)] + [PayLock(c, f.lock)];
      var charged := locked + [PayCharge(c, uuid)];
      if f.recordFails then locked + [PayFail(c)] + [PayRelease(c, f.releaseOk)]
      else if scenario != SCENARIO_SUCCESS then charged + [PayRelease(c, f.releaseOk)]
      else if f.markFails then charged + [PayFail(c)] + [PayRelease(c, f.releaseOk)]
      else charged + [PayMark(c)] + [PayPublish(c, f.delivered)] + [PayRelease(c, f.releaseOk)]
  }

  /** The call takes its next step on the tables as it left them. */
  lemma Next(w: State, c: nat, acts: seq<Action>, call: Call, l: map<nat, Lock>, p: seq<Payment>, i: Invoices,
             q: multiset<PaymentCompleted>, a: Action, u: State)
    requires Run(w, acts, Stage(w, c, call, l, p, i, q)) && Actor(a) == Some(c)
    requires var s := Stage(w, c, call, l, p, i, q);
             Enabled(s, a) && u == Stage(w, c, CallAfter(s, a), LocksAfter(s, a), PaymentsAfter(s, a), InvoicesAfter(s, a), CompletedAfter(s, a))
    ensures Run(w, acts + [a], u)
  {
    var s := Stage(w, c, call, l, p, i, q);
    Overwrite(w.calls, c, call, CallAfter(s, a));
    RunThen(w, acts, s, a, u);
  }

  lemma Started(w: State, c: nat, i: nat, scenario: string, caller: string)
    requires c !in w.calls
    ensures Run(w, [] + [StartPay(c, i, scenario, caller)],
                Stage(w, c, NewCall(i, scenario, caller), w.locks, w.payments, w.invoices, w.completedQueue))
  {
    var none: seq<Action> := [];
    RunThen(w, none, w, StartPay(c, i, scenario, caller),
            Stage(w, c, NewCall(i, scenario, caller), w.locks, w.payments, w.invoices, w.completedQueue));
  }

  lemma TurnedAway(w: State, c: nat, i: nat, scenario: string, caller: string, uuid: string, f: Faults)
    requires c !in w.calls && Gate(w.invoices, w.payments, i, scenario, caller, f.readFails) != Pending
    ensures Run(w, PayActions(w, c, i, scenario, caller, uuid, f), PayOutcome(w, c, i, scenario, caller, uuid, f))
  {
    Started(w, c, i, scenario, caller);
    var gate := Gate(w.invoices, w.payments, i, scenario, caller, f.readFails);
    if gate != Declined(ErrInvalidScenario) {
      var a := if gate == Declined(Internal) then PayFail(c) else PayRead(c);
      Next(w, c, [] + [StartPay(c, i, scenario, caller)], NewCall(i, scenario, caller), w.locks, w.payments,
           w.invoices, w.completedQueue, a, PayOutcome(w, c, i, scenario, caller, uuid, f));
    }
  }

  /** Through the gate, up to the lock. */
  function Opened(w: State, i: nat, scenario: string, caller: string): Call
    requires i in w.invoices
  {
    NewCall(i, scenario, caller).(phase := SawOpen, invoice := Some(w.invoices[i]))
  }

  lemma LetIn(w: State, c: nat, i: nat, scenario: string, caller: string)
    requires c !in w.calls && Gate(w.invoices, w.payments, i, scenario, caller, false) == Pending
    ensures Run(w, [] + [StartPay(c, i, scenario, caller)] + [PayRead(c)],
                Stage(w, c, Opened(w, i, scenario, caller), w.locks, w.payments, w.invoices, w.completedQueue))
  {
    Started(w, c, i, scenario, caller);
    Next(w, c, [] + [StartPay(c, i, scenario, caller)], NewCall(i, scenario, caller), w.locks, w.payments,
         w.invoices, w.completedQueue, PayRead(c),
         Stage(w, c, Opened(w, i, scenario, caller), w.locks, w.payments, w.invoices, w.completedQueue));
  }

  lemma FindsBusy(w: State, c: nat, i: nat, scenario: string, caller: string, uuid: string, f: Faults)
    requires c !in w.calls && Gate(w.invoices, w.payments, i, scenario, caller, f.readFails) == Pending
    requires f.lock.Answered? && LockLive(w.locks, i, w.now)
    ensures Run(w, PayActions(w, c, i, scenario, caller, uuid, f), PayOutcome(w, c, i, scenario, caller, uuid, f))
  {
    LetIn(w, c, i, scenario, caller);
    Next(w, c, [] + [StartPay(c, i, scenario, caller)] + [PayRead(c)], Opened(w, i, scenario, caller), w.locks, w.payments,
         w.invoices, w.completedQueue, PayLock(c, Answered), PayOutcome(w, c, i, scenario, caller, uuid, f));
  }

  function LocksHeld(w: State, c: nat, i: nat, f: Faults): map<nat, Lock> {
    SetNX(w.locks, i, c, w.now, f.lock)
  }

  /** In the charging section. */
  function Entered(w: State, i: nat, scenario: string, caller: string, f: Faults): Call
    requires i in w.invoices
  {
    Opened(w, i, scenario, caller).(phase := Locked, hold := if f.lock.Answered? then Held(w.now) else NoHold)
  }

  function ToLock(c: nat, i: nat, scenario: string, caller: string, f: Faults): seq<Action> {
    [] + [StartPay(c, i, scenario, caller)] + [PayRead(c)] + [PayLock(c, f.lock)]
  }

  predicate Enters(w: State, c: nat, i: nat, scenario: string, caller: string, f: Faults) {
    && c !in w.calls && Gate(w.invoices, w.payments, i, scenario, caller, f.readFails) == Pending
    && !(f.lock.Answered? && LockLive(w.locks, i, w.now))
  }

  lemma GetsLock(w: State, c: nat, i: nat, scenario: string, caller: string, f: Faults)
    requires Enters(w, c, i, scenario, caller, f)
    ensures Run(w, ToLock(c, i, scenario, caller, f),
                Stage(w, c, Entered(w, i, scenario, caller, f), LocksHeld(w, c, i, f), w.payments, w.invoices, w.completedQueue))
  {
    LetIn(w, c, i, scenario, caller);
    Next(w, c, [] + [StartPay(c, i, scenario, caller)] + [PayRead(c)], Opened(w, i, scenario, caller), w.locks, w.payments,
         w.invoices, w.completedQueue, PayLock(c, f.lock),
         Stage(w, c, Entered(w, i, scenario, caller, f), LocksHeld(w, c, i, f), w.payments, w.invoices, w.completedQueue));
  }

  lemma Charges(w: State, c: nat, i: nat, scenario: string, caller: string, uuid: string, f: Faults) returns (call: Call)
    requires Enters(w, c, i, scenario, caller, f)
    ensures var (status, txn) := Charge(scenario, uuid);
            && call == (if status.StatusPaid?
                        then Entered(w, i, scenario, caller, f).(phase := Recorded, transactionId := txn, recorded := true)
                        else Entered(w, i, scenario, caller, f).(phase := Releasing, transactionId := txn,
                                                                 answer := Charged(StatusFailed, txn)))
            && Run(w, ToLock(c, i, scenario, caller, f) + [PayCharge(c, uuid)],
                   Stage(w, c, call, LocksHeld(w, c, i, f),
                         w.payments + [Payment(i, w.invoices[i].amount, scenario, status, txn)], w.invoices, w.completedQueue))
  {
    GetsLock(w, c, i, scenario, caller, f);
    var entered := Entered(w, i, scenario, caller, f);
    var s := Stage(w, c, entered, LocksHeld(w, c, i, f), w.payments, w.invoices, w.completedQueue);
    call := CallAfter(s, PayCharge(c, uuid));
    Next(w, c, ToLock(c, i, scenario, caller, f), entered, LocksHeld(w, c, i, f), w.payments, w.invoices,
         w.completedQueue, PayCharge(c, uuid),
         Stage(w, c, call, LocksHeld(w, c, i, f), w.payments + [PaymentRow(entered, uuid)], w.invoices, w.completedQueue));
  }

  lemma ReleaseNext(w: State, c: nat, acts: seq<Action>, call: Call, l: map<nat, Lock>, p: seq<Payment>,
                    invoices: Invoices, q: multiset<PaymentCompleted>, redisOk: bool)
    requires call.phase == Releasing && Run(w, acts, Stage(w, c, call, l, p, invoices, q))
    ensures Run(w, acts + [PayRelease(c, redisOk)],
                Stage(w, c, call.(phase := Finished), if redisOk && call.hold.Held? then l - {call.invoiceId} else l,
                      p, invoices, q))
  {
    Next(w, c, acts, call, l, p, invoices, q, PayRelease(c, redisOk),
         Stage(w, c, call.(phase := Finished), if redisOk && call.hold.Held? then l - {call.invoiceId} else l,
               p, invoices, q));
  }

  lemma KeysLeft(w: State, c: nat, i: nat, f: Faults)
    ensures LocksLeft(w.locks, w.now, c, i, f)
         == if f.releaseOk && f.lock.Answered? then LocksHeld(w, c, i, f) - {i} else LocksHeld(w, c, i, f)
  {
  }

  /** The deferred release, after everything else. */
  lemma Releases(w: State, c: nat, acts: seq<Action>, call: Call, p: seq<Payment>, invoices: Invoices,
                 q: multiset<PaymentCompleted>, f: Faults)
    requires call.phase == Releasing && call.hold == if f.lock.Answered? then Held(w.now) else NoHold
    requires Run(w, acts, Stage(w, c, call, LocksHeld(w, c, call.invoiceId, f), p, invoices, q))
    ensures Run(w, acts + [PayRelease(c, f.releaseOk)],
                Stage(w, c, call.(phase := Finished), LocksLeft(w.locks, w.now, c, call.invoiceId, f), p, invoices, q))
  {
    KeysLeft(w, c, call.invoiceId, f);
    ReleaseNext(w, c, acts, call, LocksHeld(w, c, call.invoiceId, f), p, invoices, q, f.releaseOk);
  }

  /** Failing inside the section: the call answers with the error and releases. */
  lemma FailsInside(w: State, c: nat, acts: seq<Action>, call: Call, p: seq<Payment>, f: Faults)
    requires call.phase == Locked || call.phase == Recorded
    requires call.hold == if f.lock.Answered? then Held(w.now) else NoHold
    requires Run(w, acts, Stage(w, c, call, LocksHeld(w, c, call.invoiceId, f), p, w.invoices, w.completedQueue))
    ensures Run(w, acts + [PayFail(c)] + [PayRelease(c, f.releaseOk)],
                Stage(w, c, call.(phase := Finished, answer := Declined(Internal)), LocksLeft(w.locks, w.now, c, call.invoiceId, f), p,
                      w.invoices, w.completedQueue))
  {
    var failed := call.(phase := Releasing, answer := Declined(Internal));
    var l := LocksHeld(w, c, call.invoiceId, f);
    Next(w, c, acts, call, l, p, w.invoices, w.completedQueue, PayFail(c),
         Stage(w, c, failed, l, p, w.invoices, w.completedQueue));
    Releases(w, c, acts + [PayFail(c)], failed, p, w.invoices, w.completedQueue, f);
  }

  /** Marking, publishing and releasing. */
  lemma Completes(w: State, c: nat, acts: seq<Action>, call: Call, p: seq<Payment>, f: Faults)
    requires call.phase == Recorded && call.invoice.Some? && call.hold == if f.lock.Answered? then Held(w.now) else NoHold
    requires Run(w, acts, Stage(w, c, call, LocksHeld(w, c, call.invoiceId, f), p, w.invoices, w.completedQueue))
    ensures var i := call.invoiceId;
            Run(w, acts + [PayMark(c)] + [PayPublish(c, f.delivered)] + [PayRelease(c, f.releaseOk)],
                Stage(w, c, call.(phase := Finished, answer := Charged(StatusPaid, call.transactionId)), LocksLeft(w.locks, w.now, c, i, f),
                      p, SetPaid(w.invoices, i), Announced(w.completedQueue, i, call.invoice.value, call.transactionId, w.now, f.delivered)))
  {
    var i := call.invoiceId;
    var l, invoices := LocksHeld(w, c, i, f), SetPaid(w.invoices, i);
    var marked := call.(phase := Marked);
    var told := call.(phase := Releasing, answer := Charged(StatusPaid, call.transactionId));
    var queue := Announced(w.completedQueue, i, call.invoice.value, call.transactionId, w.now, f.delivered);
    Next(w, c, acts, call, l, p, w.invoices, w.completedQueue, PayMark(c),
         Stage(w, c, marked, l, p, invoices, w.completedQueue));
    Next(w, c, acts + [PayMark(c)], marked, l, p, invoices, w.completedQueue, PayPublish(c, f.delivered),
         Stage(w, c, told, l, p, invoices, queue));
    Releases(w, c, acts + [PayMark(c)] + [PayPublish(c, f.delivered)], told, p, invoices, queue, f);
  }

  /** What Pay does, with whatever failures, is a run of the settlement protocol: every theorem about
      runs holds of the code. */
  lemma PayIsRun(w: State, c: nat, i: nat, scenario: string, caller: string, uuid: string, f: Faults)
    requires c !in w.calls
    ensures Run(w, PayActions(w, c, i, scenario, caller, uuid, f), PayOutcome(w, c, i, scenario, caller, uuid, f))
  {
    if Gate(w.invoices, w.payments, i, scenario, caller, f.readFails) != Pending {
      TurnedAway(w, c, i, scenario, caller, uuid, f);
    } else if f.lock.Answered? && LockLive(w.locks, i, w.now) {
      FindsBusy(w, c, i, scenario, caller, uuid, f);
    } else if f.recordFails {
      GetsLock(w, c, i, scenario, caller, f);
      FailsInside(w, c, ToLock(c, i, scenario, caller, f), Entered(w, i, scenario, caller, f), w.payments, f);
    } else {
      EndsCharged(w, c, i, scenario, caller, uuid, f);
    }
  }

  lemma EndsDeclined(w: State, c: nat, i: nat, scenario: string, caller: string, uuid: string, f: Faults)
    requires Enters(w, c, i, scenario, caller, f) && !f.recordFails && scenario != SCENARIO_SUCCESS
    ensures Run(w, PayActions(w, c, i, scenario, caller, uuid, f), PayOutcome(w, c, i, scenario, caller, uuid, f))
  {
    var call := Charges(w, c, i, scenario, caller, uuid, f);
    Releases(w, c, ToLock(c, i, scenario, caller, f) + [PayCharge(c, uuid)], call,
             PaymentsLeft(w.payments, i, w.invoices[i].amount, scenario, uuid, f), w.invoices, w.completedQueue, f);
  }

  lemma EndsUnmarked(w: State, c: nat, i: nat, scenario: string, caller: string, uuid: string, f: Faults)
    requires Enters(w, c, i, scenario, caller, f) && !f.recordFails && scenario == SCENARIO_SUCCESS && f.markFails
    ensures Run(w, PayActions(w, c, i, scenario, caller, uuid, f), PayOutcome(w, c, i, scenario, caller, uuid, f))
  {
    var call := Charges(w, c, i, scenario, caller, uuid, f);
    FailsInside(w, c, ToLock(c, i, scenario, caller, f) + [PayCharge(c, uuid)], call,
                PaymentsLeft(w.payments, i, w.invoices[i].amount, scenario, uuid, f), f);
  }

  lemma EndsPaid(w: State, c: nat, i: nat, scenario: string, caller: string, uuid: string, f: Faults)
    requires Enters(w, c, i, scenario, caller, f) && Marks(scenario, f)
    ensures Run(w, PayActions(w, c, i, scenario, caller, uuid, f), PayOutcome(w, c, i, scenario, caller, uuid, f))
  {
    var call := Charges(w, c, i, scenario, caller, uuid, f);
    Completes(w, c, ToLock(c, i, scenario, caller, f) + [PayCharge(c, uuid)], call,
              PaymentsLeft(w.payments, i, w.invoices[i].amount, scenario, uuid, f), f);
  }

  lemma EndsCharged(w: State, c: nat, i: nat, scenario: string, caller: string, uuid: string, f: Faults)
    requires Enters(w, c, i, scenario, caller, f) && !f.recordFails
    ensures Run(w, PayActions(w, c, i, scenario, caller, uuid, f), PayOutcome(w, c, i, scenario, caller, uuid, f))
  {
    if scenario != SCENARIO_SUCCESS {
      EndsDeclined(w, c, i, scenario, caller, uuid, f);
    } else if f.markFails {
      EndsUnmarked(w, c, i, scenario, caller, uuid, f);
    } else {
      EndsPaid(w, c, i, scenario, caller, uuid, f);
    }
  }
}
