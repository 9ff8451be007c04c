/** The payment lock: when it excludes, and when it does not. */
module PayLocks {
  import opened Options
  import opened Traces
  import opened Violations
  import opened Settlement
  import opened PayRuns

  /** Between acquireLock and release. */
  predicate InSection(call: Call) {
    call.phase in {Locked, Recorded, Marked, Releasing}
  }

  /** The holder has not been in the section for longer than the bound. */
  predicate Within(call: Call, now: Time, bound: Time) {
    InSection(call) && call.hold.Held? ==> now < call.hold.since + bound
  }

  /** Every holder is out of the section within the bound; Redis answers SET NX, unless it may fail. */
  ghost predicate Punctual(s: State, a: Action, bound: Time, mayFail: bool)
    requires Enabled(s, a)
  {
    && (a.PayLock? && !a.reply.Answered? ==> mayFail)
    && forall c :: c in CallsAfter(s, a) ==> Within(CallsAfter(s, a)[c], NowAfter(s, a), bound)
  }

  ghost function PunctualStep(bound: Time, mayFail: bool): (State, Action, State) -> bool {
    (s: State, a: Action, t: State) => Step(s, a, t) && Punctual(s, a, bound, mayFail)
  }

  ghost predicate PunctualRun(bound: Time, mayFail: bool, s: State, acts: seq<Action>, t: State) {
    Leads(PunctualStep(bound, mayFail), s, acts, t)
  }

  /** A call that holds a key finds it in place, and its own. */
  predicate OwnsKey(locks: map<nat, Lock>, c: nat, call: Call) {
    InSection(call) && call.hold.Held? ==>
      call.invoiceId in locks && locks[call.invoiceId] == Lock(c, call.hold.since + LOCK_TTL)
  }

  ghost predicate KeyInv(s: State, bound: Time) {
    && bound <= LOCK_TTL
    && (forall c :: c in s.calls ==> OwnsKey(s.locks, c, s.calls[c]))
    && forall c :: c in s.calls ==> Within(s.calls[c], s.now, bound)
  }

  lemma ActorOwnsKey(s: State, a: Action, bound: Time)
    requires KeyInv(s, bound) && Enabled(s, a) && Actor(a).Some?
    ensures OwnsKey(LocksAfter(s, a), Actor(a).value, CallAfter(s, a))
  {
  }

  /** A key that is live is not overwritten, and nobody releases somebody else's. */
  lemma BystanderOwnsKey(s: State, a: Action, d: nat, bound: Time)
    requires KeyInv(s, bound) && Enabled(s, a) && d in s.calls && Actor(a) != Some(d)
    ensures OwnsKey(LocksAfter(s, a), d, s.calls[d])
  {
  }

  lemma KeyStep(s: State, a: Action, bound: Time, mayFail: bool)
    requires KeyInv(s, bound) && Enabled(s, a) && Punctual(s, a, bound, mayFail)
    ensures KeyInv(Apply(s, a), bound)
  {
    forall c | c in CallsAfter(s, a) ensures OwnsKey(LocksAfter(s, a), c, CallsAfter(s, a)[c]) {
      if Actor(a) == Some(c) { ActorOwnsKey(s, a, bound); } else { BystanderOwnsKey(s, a, c, bound); }
    }
  }

  lemma KeyRun(bound: Time, mayFail: bool, s: State, acts: seq<Action>, t: State)
    requires KeyInv(s, bound) && PunctualRun(bound, mayFail, s, acts, t)
    ensures KeyInv(t, bound)
  {
    var step, inv := PunctualStep(bound, mayFail), x => KeyInv(x, bound);
    forall x, a, y | inv(x) && step(x, a, y) ensures inv(y) { KeyStep(x, a, bound, mayFail); }
    RunKeeps(step, inv, s, acts, t);
  }

  /** With Redis answering, every call in the section holds a key. */
  ghost predicate AllHold(s: State) {
    forall c :: c in s.calls && InSection(s.calls[c]) ==> s.calls[c].hold.Held?
  }

  lemma ActorHolds(s: State, a: Action)
    requires Enabled(s, a) && Actor(a).Some? && (a.PayLock? ==> a.reply.Answered?)
    requires Actor(a).value in s.calls && InSection(s.calls[Actor(a).value]) ==> s.calls[Actor(a).value].hold.Held?
    ensures InSection(CallAfter(s, a)) ==> CallAfter(s, a).hold.Held?
  {
  }

  lemma AllHoldRun(bound: Time, s: State, acts: seq<Action>, t: State)
    requires AllHold(s) && PunctualRun(bound, false, s, acts, t)
    ensures AllHold(t)
  {
    var step := PunctualStep(bound, false);
    forall x, a, y | AllHold(x) && step(x, a, y) ensures AllHold(y) {
      if Actor(a).Some? { ActorHolds(x, a); }
    }
    RunKeeps(step, AllHold, s, acts, t);
  }

  /** With Redis answering and holders finishing within the TTL, at most one call per invoice is in
      the charging section, and the key there is its own. */
  lemma MutualExclusion(bound: Time, s: State, acts: seq<Action>, t: State, c: nat, d: nat)
    requires bound <= 15_000 && Init(s) && PunctualRun(bound, false, s, acts, t)
    requires c in t.calls && d in t.calls && InSection(t.calls[c]) && InSection(t.calls[d])
    ensures t.calls[c].invoiceId == t.calls[d].invoiceId ==> c == d
    ensures t.calls[c].invoiceId in t.locks && t.locks[t.calls[c].invoiceId].holder == c
    ensures LockLive(t.locks, t.calls[c].invoiceId, t.now)
  {
    KeyRun(bound, false, s, acts, t);
    AllHoldRun(bound, s, acts, t);
    assert OwnsKey(t.locks, c, t.calls[c]) && Within(t.calls[c], t.now, bound);
    assert OwnsKey(t.locks, d, t.calls[d]);
  }

  // ------------------------------------------------------------------ after a crash

  /** No key outlives its acquisition by more than the TTL. */
  predicate KeysExpire(s: State) {
    forall i :: i in s.locks ==> s.locks[i].expires <= s.now + LOCK_TTL
  }

  lemma KeysExpireStep(s: State, a: Action)
    requires KeysExpire(s) && Enabled(s, a)
    ensures KeysExpire(Apply(s, a))
  {
  }

  lemma KeysExpireRun(s: State, acts: seq<Action>, t: State)
    requires Init(s) && Run(s, acts, t)
    ensures KeysExpire(t)
  {
    forall x, a, y | KeysExpire(x) && Step(x, a, y) ensures KeysExpire(y) { KeysExpireStep(x, a); }
    RunKeeps(Step, KeysExpire, s, acts, t);
  }

  /** Call c is dead and its keys, if any, expire by the deadline. */
  ghost predicate DeadBy(s: State, c: nat, deadline: Time) {
    At(s, c, Crashed) && forall i :: i in s.locks && s.locks[i].holder == c ==> s.locks[i].expires <= deadline
  }

  lemma DeadStep(s: State, a: Action, c: nat, deadline: Time)
    requires DeadBy(s, c, deadline) && Enabled(s, a)
    ensures DeadBy(Apply(s, a), c, deadline)
  {
  }

  /** In every run: once a call has died, its key is free again within the TTL. */
  lemma FreeAfterCrash(s: State, acts: seq<Action>, t: State, more: seq<Action>, u: State, c: nat, i: nat)
    requires Init(s) && Run(s, acts, t) && Run(t, more, u)
    requires At(t, c, Crashed) && u.now >= t.now + 15_000
    ensures LockLive(u.locks, i, u.now) ==> u.locks[i].holder != c
  {
    KeysExpireRun(s, acts, t);
    var inv := x => DeadBy(x, c, t.now + LOCK_TTL);
    forall x, a, y | inv(x) && Step(x, a, y) ensures inv(y) { DeadStep(x, a, c, t.now + LOCK_TTL); }
    RunKeeps(Step, inv, t, more, u);
  }

  // ------------------------------------------------------- exactly when it excludes

  predicate Holding(s: State, c: nat) {
    At(s, c, Locked) && s.calls[c].hold.Held?
  }

  /** Two calls on one invoice are between acquireLock and release. */
  predicate Overlapping(s: State, c: nat, d: nat) {
    && c != d && c in s.calls && d in s.calls && s.calls[c].invoiceId == s.calls[d].invoiceId
    && InSection(s.calls[c]) && InSection(s.calls[d])
  }

  /** Some run with holders that punctual gets two calls into the section. */
  ghost predicate CanOverlap(bound: Time, mayFail: bool) {
    exists s, acts, t, c, d :: Init(s) && PunctualRun(bound, mayFail, s, acts, t) && Overlapping(t, c, d)
  }

  /** The step deletes a live key that another call holds. */
  predicate DeletesForeign(s: State, a: Action)
    requires Enabled(s, a)
  {
    && a.PayRelease? && a.redisOk && s.calls[a.c].hold.Held?
    && LockLive(s.locks, s.calls[a.c].invoiceId, s.now) && s.locks[s.calls[a.c].invoiceId].holder != a.c
  }

  ghost predicate CanDeleteForeign(bound: Time, mayFail: bool) {
    exists s, acts, t, a ::
      Init(s) && PunctualRun(bound, mayFail, s, acts, t) && Enabled(t, a) && DeletesForeign(t, a)
  }

  lemma PunctualThen(bound: Time, mayFail: bool, s: State, acts: seq<Action>, t: State, a: Action)
    requires PunctualRun(bound, mayFail, s, acts, t) && Enabled(t, a) && Punctual(t, a, bound, mayFail)
    ensures PunctualRun(bound, mayFail, s, acts + [a], Apply(t, a))
  {
    LeadsThen(PunctualStep(bound, mayFail), s, acts, t, a, Apply(t, a));
  }

  /** From the empty system to an open invoice 0, before any Pay call. */
  lemma InvoiceOpens(bound: Time, mayFail: bool, row: Violation) returns (s: State, acts: seq<Action>, t: State)
    requires !row.paid && row.ownerEmail != ""
    ensures Init(s) && PunctualRun(bound, mayFail, s, acts, t)
    ensures Payable(t, 0) && t.calls == map[] && t.locks == map[] && t.payments == []
  {
    s := State(map[], map[], [], map[], multiset{}, multiset{}, {}, map[], 0);
    var none: seq<Action> := [];
    PunctualThen(bound, mayFail, s, none, s, InsertViolation(0, row));
    var s1 := Apply(s, InsertViolation(0, row));
    PunctualThen(bound, mayFail, s, none + [InsertViolation(0, row)], s1, PublishCreated(0, true));
    var s2 := Apply(s1, PublishCreated(0, true));
    var evt := CreatedEvent(0, row);
    assert evt in s2.createdQueue;
    acts := none + [InsertViolation(0, row)] + [PublishCreated(0, true)];
    PunctualThen(bound, mayFail, s, acts, s2, DeliverCreated(evt, 0, Acked));
    t := Apply(s2, DeliverCreated(evt, 0, Acked));
    acts := acts + [DeliverCreated(evt, 0, Acked)];
  }

  /** A call starts on the open invoice 0 and reads it. */
  lemma ReaderEnters(bound: Time, mayFail: bool, s: State, acts: seq<Action>, t: State, c: nat)
      returns (more: seq<Action>, u: State)
    requires PunctualRun(bound, mayFail, s, acts, t) && Payable(t, 0) && c !in t.calls
    requires forall d :: d in t.calls ==> t.calls[d].phase == SawOpen
    ensures PunctualRun(bound, mayFail, s, more, u)
    ensures u == WithCall(t, c, OpenedCall(t, 0, SCENARIO_SUCCESS))
  {
    var start := StartPay(c, 0, SCENARIO_SUCCESS, t.invoices[0].ownerEmail);
    var t1 := WithCall(t, c, NewCall(0, SCENARIO_SUCCESS, t.invoices[0].ownerEmail));
    PunctualThen(bound, mayFail, s, acts, t, start);
    u := WithCall(t, c, OpenedCall(t, 0, SCENARIO_SUCCESS));
    Overwrite(t.calls, c, t1.calls[c], u.calls[c]);
    PunctualThen(bound, mayFail, s, acts + [start], t1, PayRead(c));
    more := acts + [start] + [PayRead(c)];
  }

  /** Two calls, 0 and 1, have read invoice 0 as open, and its key is free. */
  predicate TwoReaders(s: State) {
    && s.calls.Keys == {0, 1} && s.locks == map[]
    && (forall c :: c in s.calls ==>
          s.calls[c].phase == SawOpen && s.calls[c].invoiceId == 0 && s.calls[c].hold == NoHold)
  }

  lemma TwoReadersReached(bound: Time, mayFail: bool) returns (s: State, acts: seq<Action>, t: State)
    ensures Init(s) && PunctualRun(bound, mayFail, s, acts, t) && TwoReaders(t)
  {
    var row := Violation("B1", "expired_meter", "", 0, "member", "officer", 0, 1, 1, 1.0, 1.0, 0, 1, false, 0);
    s, acts, t := InvoiceOpens(bound, mayFail, row);
    acts, t := ReaderEnters(bound, mayFail, s, acts, t, 0);
    acts, t := ReaderEnters(bound, mayFail, s, acts, t, 1);
  }

  /** A failing Redis lets both in at once. */
  lemma FailingRedisOverlaps(bound: Time)
    ensures CanOverlap(bound, true)
  {
    var s, acts, t := TwoReadersReached(bound, true);
    PunctualThen(bound, true, s, acts, t, PayLock(0, Lost));
    var t1 := Apply(t, PayLock(0, Lost));
    PunctualThen(bound, true, s, acts + [PayLock(0, Lost)], t1, PayLock(1, Lost));
    var t2 := Apply(t1, PayLock(1, Lost));
    assert Overlapping(t2, 0, 1);
  }

  /** Call 0 has taken the lock, and its key has just run out. */
  predicate KeyRanOut(s: State) {
    && s.calls.Keys == {0, 1} && Holding(s, 0) && s.calls[0].invoiceId == s.calls[1].invoiceId == 0
    && s.calls[0].hold.since + LOCK_TTL == s.now
    && s.calls[1].phase == SawOpen && s.calls[1].hold == NoHold && !LockLive(s.locks, 0, s.now)
  }

  /** Call 0 takes the lock. */
  lemma FirstLocks(bound: Time, mayFail: bool) returns (s: State, acts: seq<Action>, t: State)
    requires bound > LOCK_TTL
    ensures Init(s) && PunctualRun(bound, mayFail, s, acts, t)
    ensures t.calls.Keys == {0, 1} && t.calls[0].invoiceId == t.calls[1].invoiceId == 0
    ensures Holding(t, 0) && t.calls[0].hold == Held(t.now)
    ensures t.calls[1].phase == SawOpen && t.calls[1].hold == NoHold
    ensures 0 in t.locks && t.locks[0].expires == t.now + LOCK_TTL
  {
    s, acts, t := TwoReadersReached(bound, mayFail);
    PunctualThen(bound, mayFail, s, acts, t, PayLock(0, Answered));
    t, acts := Apply(t, PayLock(0, Answered)), acts + [PayLock(0, Answered)];
  }

  lemma FirstHolds(bound: Time, mayFail: bool) returns (s: State, acts: seq<Action>, t: State)
    requires bound > LOCK_TTL
    ensures Init(s) && PunctualRun(bound, mayFail, s, acts, t) && KeyRanOut(t)
  {
    s, acts, t := FirstLocks(bound, mayFail);
    PunctualThen(bound, mayFail, s, acts, t, Tick(LOCK_TTL));
    t, acts := Apply(t, Tick(LOCK_TTL)), acts + [Tick(LOCK_TTL)];
  }

  /** With Redis answering, a holder that may stay longer than the TTL is joined by the next call. */
  lemma BothHold(bound: Time, mayFail: bool) returns (s: State, acts: seq<Action>, t: State)
    requires bound > LOCK_TTL
    ensures Init(s) && PunctualRun(bound, mayFail, s, acts, t)
    ensures t.calls.Keys == {0, 1} && Holding(t, 0) && Holding(t, 1) && Overlapping(t, 0, 1)
    ensures t.calls[0].invoiceId == 0 && t.calls[0].hold.since + LOCK_TTL == t.now == t.calls[1].hold.since
    ensures 0 in t.locks && t.locks[0] == Lock(1, t.now + LOCK_TTL)
  {
    s, acts, t := FirstHolds(bound, mayFail);
    PunctualThen(bound, mayFail, s, acts, t, PayLock(1, Answered));
    t, acts := Apply(t, PayLock(1, Answered)), acts + [PayLock(1, Answered)];
  }

  /** The one that leaves first then deletes the key of the one still inside. */
  lemma OutlivingDeletesForeign(bound: Time, mayFail: bool)
    requires bound > LOCK_TTL
    ensures CanDeleteForeign(bound, mayFail)
  {
    var s, acts, t := BothHold(bound, mayFail);
    PunctualThen(bound, mayFail, s, acts, t, PayFail(0));
    var u := Apply(t, PayFail(0));
    assert Enabled(u, PayRelease(0, true)) && DeletesForeign(u, PayRelease(0, true));
  }

  /** The lock excludes, in every run, if and only if no holder outlives the TTL and Redis never fails. */
  lemma ExclusiveIff(bound: Time, mayFail: bool)
    ensures !CanOverlap(bound, mayFail) <==> bound <= 15_000 && !mayFail
  {
    if mayFail {
      FailingRedisOverlaps(bound);
    } else if bound > LOCK_TTL {
      var s, acts, t := BothHold(bound, false);
    } else {
      forall s, acts, t, c, d | Init(s) && PunctualRun(bound, false, s, acts, t) ensures !Overlapping(t, c, d) {
        if Overlapping(t, c, d) { MutualExclusion(bound, s, acts, t, c, d); }
      }
    }
  }

  /** A release deletes no key but its own, in every run, if and only if no holder outlives the TTL;
      a failing Redis does no harm here. */
  lemma OwnKeyIff(bound: Time, mayFail: bool)
    ensures !CanDeleteForeign(bound, mayFail) <==> bound <= 15_000
  {
    if bound > LOCK_TTL {
      OutlivingDeletesForeign(bound, mayFail);
    } else {
      forall s, acts, t, a | Init(s) && PunctualRun(bound, mayFail, s, acts, t) && Enabled(t, a)
        ensures !DeletesForeign(t, a)
      {
        KeyRun(bound, mayFail, s, acts, t);
        if a.PayRelease? { assert OwnsKey(t.locks, a.c, t.calls[a.c]); }
      }
    }
  }
}
