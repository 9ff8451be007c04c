/**
 Redelivery of payment.completed to the notification service: deliveries of one message overlap,
 fail between the two inserts, and are repeated until one is acked.
 */
module Redelivery {
  import opened Traces
  import opened Sums
  import opened Notification
  import S = Settlement

  /** Where a delivery is. Dropped: an insert failed, the process died, or the ack was lost. */
  datatype Progress = Begun | OwnerDone | BothDone | AckSent | Dropped

  /** ownerTold, officerTold: history of what the delivery got done. */
  datatype Delivery = Delivery(message: nat, progress: Progress, ownerTold: bool, officerTold: bool)

  datatype State = State(events: map<nat, S.PaymentCompleted>, acked: set<nat>, deliveries: map<nat, Delivery>, sent: seq<Row>)

  datatype Action =
    | Publish(m: nat, evt: S.PaymentCompleted)
    | Deliver(d: nat, message: nat)
    | TellOwner(d: nat)
    | TellOfficer(d: nat)
    | Ack(d: nat)
    | Drop(d: nat)

  predicate At(s: State, d: nat, p: Progress) {
    d in s.deliveries && s.deliveries[d].progress == p && s.deliveries[d].message in s.events
  }

  predicate Enabled(s: State, a: Action) {
    match a
    case Publish(m, _) => m !in s.events
    case Deliver(d, m) => d !in s.deliveries && m in s.events && m !in s.acked
    case TellOwner(d) => At(s, d, Begun)
    case TellOfficer(d) => At(s, d, OwnerDone)
    case Ack(d) => At(s, d, BothDone)
    case Drop(d) => At(s, d, Begun) || At(s, d, OwnerDone) || At(s, d, BothDone)
  }

  /** The rows the step writes. */
  function Written(s: State, a: Action): seq<Row>
    requires Enabled(s, a)
  {
    match a
    case TellOwner(d) => OwnerRows(s.events[s.deliveries[d].message], s.deliveries[d].message)
    case TellOfficer(d) => OfficerRows(s.events[s.deliveries[d].message], s.deliveries[d].message)
    case _ => []
  }

  function DeliveriesAfter(s: State, a: Action): map<nat, Delivery>
    requires Enabled(s, a)
  {
    match a
    case Publish(_, _) => s.deliveries
    case Deliver(d, m) => s.deliveries[d := Delivery(m, Begun, false, false)]
    case TellOwner(d) => s.deliveries[d := s.deliveries[d].(progress := OwnerDone, ownerTold := true)]
    case TellOfficer(d) => s.deliveries[d := s.deliveries[d].(progress := BothDone, officerTold := true)]
    case Ack(d) => s.deliveries[d := s.deliveries[d].(progress := AckSent)]
    case Drop(d) => s.deliveries[d := s.deliveries[d].(progress := Dropped)]
  }

  function AckedAfter(s: State, a: Action): set<nat>
    requires Enabled(s, a)
  {
    if a.Ack? then s.acked + {s.deliveries[a.d].message} else s.acked
  }

  function EventsAfter(s: State, a: Action): map<nat, S.PaymentCompleted> {
    if a.Publish? then s.events[a.m := a.evt] else s.events
  }

  ghost predicate Step(s: State, a: Action, t: State) {
    Enabled(s, a) && t == State(EventsAfter(s, a), AckedAfter(s, a), DeliveriesAfter(s, a), s.sent + Written(s, a))
  }

  ghost predicate Run(s: State, acts: seq<Action>, t: State) {
    Leads(Step, s, acts, t)
  }

  predicate Init(s: State) {
    s == State(map[], {}, map[], [])
  }

  // ------------------------------------------------------------------------ counting

  /** How many rows a recipient got for a message. */
  function Received(sent: seq<Row>, m: nat, recipient: string): nat {
    if sent == [] then 0
    else
      var last := sent[|sent| - 1];
      Received(sent[..|sent| - 1], m, recipient) + if last.source == m && last.recipient == recipient then 1 else 0
  }

  function AllOf(deliveries: map<nat, Delivery>, m: nat): set<nat> {
    set d | d in deliveries && deliveries[d].message == m
  }

  function OwnerTold(deliveries: map<nat, Delivery>, m: nat): set<nat> {
    set d | d in deliveries && deliveries[d].message == m && deliveries[d].ownerTold
  }

  function OfficerTold(deliveries: map<nat, Delivery>, m: nat): set<nat> {
    set d | d in deliveries && deliveries[d].message == m && deliveries[d].officerTold
  }

  predicate DistinctRecipients(evt: S.PaymentCompleted) {
    evt.ownerEmail != "" && evt.issuedByEmail != "" && evt.ownerEmail != evt.issuedByEmail
  }

  /** Each delivery that told a recipient wrote exactly one row for it. */
  ghost predicate Counts(s: State, m: nat)
    requires m in s.events
  {
    DistinctRecipients(s.events[m]) ==>
      && Received(s.sent, m, s.events[m].ownerEmail) == |OwnerTold(s.deliveries, m)|
      && Received(s.sent, m, s.events[m].issuedByEmail) == |OfficerTold(s.deliveries, m)|
  }

  predicate InOrder(d: Delivery) {
    && (d.progress == Begun ==> !d.ownerTold && !d.officerTold)
    && (d.progress == OwnerDone ==> d.ownerTold && !d.officerTold)
    && (d.progress == BothDone || d.progress == AckSent ==> d.officerTold)
    && (d.officerTold ==> d.ownerTold)
  }

  ghost predicate Inv(s: State) {
    && (forall d :: d in s.deliveries ==> InOrder(s.deliveries[d]) && s.deliveries[d].message in s.events)
    && (forall k :: 0 <= k < |s.sent| ==> s.sent[k].source in s.events)
    && (forall m :: m in s.acked ==> OfficerTold(s.deliveries, m) != {})
    && forall m :: m in s.events ==> Counts(s, m)
  }

  lemma ReceivedOne(sent: seq<Row>, row: Row, m: nat, recipient: string)
    ensures Received(sent + [row], m, recipient)
         == Received(sent, m, recipient) + if row.source == m && row.recipient == recipient then 1 else 0
  {
  }

  lemma {:induction false} NoneReceived(sent: seq<Row>, m: nat, recipient: string)
    requires forall k :: 0 <= k < |sent| ==> sent[k].source != m
    ensures Received(sent, m, recipient) == 0
  {
    if sent != [] { NoneReceived(sent[..|sent| - 1], m, recipient); }
  }

  /** What a step writes to a recipient of message m with distinct recipients. */
  lemma WrittenCounts(s: State, a: Action, m: nat)
    requires Enabled(s, a) && m in s.events && DistinctRecipients(s.events[m])
    ensures Received(s.sent + Written(s, a), m, s.events[m].ownerEmail)
         == Received(s.sent, m, s.events[m].ownerEmail)
            + if a.TellOwner? && s.deliveries[a.d].message == m then 1 else 0
    ensures Received(s.sent + Written(s, a), m, s.events[m].issuedByEmail)
         == Received(s.sent, m, s.events[m].issuedByEmail)
            + if a.TellOfficer? && s.deliveries[a.d].message == m then 1 else 0
  {
    var rows := Written(s, a);
    if rows == [] {
      assert s.sent + rows == s.sent;
    } else {
      ReceivedOne(s.sent, rows[0], m, s.events[m].ownerEmail);
      ReceivedOne(s.sent, rows[0], m, s.events[m].issuedByEmail);
    }
  }

  lemma ToldStep(s: State, a: Action, m: nat)
    requires Enabled(s, a) && forall d :: d in s.deliveries ==> InOrder(s.deliveries[d])
    ensures OwnerTold(DeliveriesAfter(s, a), m) ==
      OwnerTold(s.deliveries, m) + if a.TellOwner? && s.deliveries[a.d].message == m then {a.d} else {}
    ensures OfficerTold(DeliveriesAfter(s, a), m) ==
      OfficerTold(s.deliveries, m) + if a.TellOfficer? && s.deliveries[a.d].message == m then {a.d} else {}
    ensures a.TellOwner? ==> a.d !in OwnerTold(s.deliveries, m)
    ensures a.TellOfficer? ==> a.d !in OfficerTold(s.deliveries, m)
  {
  }

  lemma NewEventUncounted(s: State, m: nat, recipient: string)
    requires Inv(s) && m !in s.events
    ensures Received(s.sent, m, recipient) == 0 && OwnerTold(s.deliveries, m) == {} && OfficerTold(s.deliveries, m) == {}
  {
    NoneReceived(s.sent, m, recipient);
  }

  lemma CountsStep(s: State, a: Action, t: State, m: nat)
    requires Inv(s) && Step(s, a, t) && m in t.events
    ensures Counts(t, m)
  {
    if m in s.events {
      assert Counts(s, m);
      OldEventCounts(s, a, t, m);
    } else {
      NewEventCounts(s, a, t, m);
    }
  }

  lemma OldEventCounts(s: State, a: Action, t: State, m: nat)
    requires Step(s, a, t) && m in s.events && Counts(s, m)
    requires forall d :: d in s.deliveries ==> InOrder(s.deliveries[d])
    ensures Counts(t, m)
  {
    ToldStep(s, a, m);
    if DistinctRecipients(s.events[m]) { WrittenCounts(s, a, m); }
  }

  lemma NewEventCounts(s: State, a: Action, t: State, m: nat)
    requires Inv(s) && Step(s, a, t) && m in t.events && m !in s.events
    ensures Counts(t, m)
  {
    NewEventUncounted(s, m, a.evt.ownerEmail);
    NewEventUncounted(s, m, a.evt.issuedByEmail);
    assert s.sent + Written(s, a) == s.sent;
  }

  lemma AckedStep(s: State, a: Action, m: nat)
    requires Inv(s) && Enabled(s, a) && m in AckedAfter(s, a)
    ensures OfficerTold(DeliveriesAfter(s, a), m) != {}
  {
    ToldStep(s, a, m);
    if m !in s.acked { assert a.d in OfficerTold(s.deliveries, m); }
  }

  lemma OrderStep(s: State, a: Action, t: State)
    requires Inv(s) && Step(s, a, t)
    ensures forall d :: d in t.deliveries ==> InOrder(t.deliveries[d]) && t.deliveries[d].message in t.events
    ensures forall k :: 0 <= k < |t.sent| ==> t.sent[k].source in t.events
  {
    forall d | d in t.deliveries ensures InOrder(t.deliveries[d]) && t.deliveries[d].message in t.events {
      DeliveryInOrder(s, a, d);
    }
    SourcesKnown(s, a);
  }

  lemma DeliveryInOrder(s: State, a: Action, d: nat)
    requires Enabled(s, a) && d in DeliveriesAfter(s, a)
    requires d in s.deliveries ==> InOrder(s.deliveries[d]) && s.deliveries[d].message in s.events
    ensures InOrder(DeliveriesAfter(s, a)[d]) && DeliveriesAfter(s, a)[d].message in EventsAfter(s, a)
  {
  }

  lemma SourcesKnown(s: State, a: Action)
    requires Enabled(s, a) && forall k :: 0 <= k < |s.sent| ==> s.sent[k].source in s.events
    ensures forall k :: 0 <= k < |s.sent + Written(s, a)| ==> (s.sent + Written(s, a))[k].source in EventsAfter(s, a)
  {
  }

  lemma InvStep(s: State, a: Action, t: State)
    requires Inv(s) && Step(s, a, t)
    ensures Inv(t)
  {
    OrderStep(s, a, t);
    forall m | m in t.events ensures Counts(t, m) { CountsStep(s, a, t, m); }
    forall m | m in t.acked ensures OfficerTold(t.deliveries, m) != {} { AckedStep(s, a, m); }
  }

  /** In every run, for a message with two distinct recipients: the owner is told at least as often
      as the officer, nobody more often than it was delivered, and both at least once when it is acked. */
  lemma BothAreTold(s: State, acts: seq<Action>, t: State, m: nat)
    requires Init(s) && Run(s, acts, t) && m in t.events && DistinctRecipients(t.events[m])
    ensures Received(t.sent, m, t.events[m].issuedByEmail) <= Received(t.sent, m, t.events[m].ownerEmail)
         <= |AllOf(t.deliveries, m)|
    ensures m in t.acked ==> Received(t.sent, m, t.events[m].issuedByEmail) >= 1
  {
    forall x, a, y | Inv(x) && Step(x, a, y) ensures Inv(y) { InvStep(x, a, y); }
    RunKeeps(Step, Inv, s, acts, t);
    assert Counts(t, m);
    SubsetSize(OfficerTold(t.deliveries, m), OwnerTold(t.deliveries, m));
    SubsetSize(OwnerTold(t.deliveries, m), AllOf(t.deliveries, m));
    if m in t.acked { assert OfficerTold(t.deliveries, m) != {}; }
  }

  lemma Then(s: State, acts: seq<Action>, t: State, a: Action) returns (more: seq<Action>, u: State)
    requires Run(s, acts, t) && Enabled(t, a)
    ensures Run(s, more, u) && Step(t, a, u)
  {
    more := acts + [a];
    u := State(EventsAfter(t, a), AckedAfter(t, a), DeliveriesAfter(t, a), t.sent + Written(t, a));
    LeadsThen(Step, s, acts, t, a, u);
  }

  lemma OwnerHalf(s: State, d: nat, m: nat) returns (acts: seq<Action>, t: State)
    requires m in s.events && m !in s.acked && d !in s.deliveries
    ensures Run(s, acts, t) && At(t, d, OwnerDone) && t.deliveries[d].message == m
    ensures t.events == s.events && t.acked == s.acked && t.sent == s.sent + OwnerRows(s.events[m], m)
  {
    acts, t := Then(s, [], s, Deliver(d, m));
    acts, t := Then(s, acts, t, TellOwner(d));
  }

  lemma OfficerHalf(s: State, acts: seq<Action>, t: State, d: nat) returns (more: seq<Action>, u: State)
    requires Run(s, acts, t) && At(t, d, OwnerDone)
    ensures Run(s, more, u)
    ensures var m := t.deliveries[d].message; u.sent == t.sent + OfficerRows(t.events[m], m) && u.acked == t.acked + {m}
  {
    more, u := Then(s, acts, t, TellOfficer(d));
    more, u := Then(s, more, u, Ack(d));
  }

  lemma Stops(s: State, acts: seq<Action>, t: State, d: nat) returns (more: seq<Action>, u: State)
    requires Run(s, acts, t) && (At(t, d, Begun) || At(t, d, OwnerDone))
    ensures Run(s, more, u) && u.sent == t.sent && u.acked == t.acked
  {
    more, u := Then(s, acts, t, Drop(d));
  }

  /** A delivery that nothing interrupts writes what the service's handler writes, and is acked
      exactly if the handler succeeds. */
  lemma HandlerIsRun(s: State, d: nat, m: nat, ownerOk: bool, officerOk: bool) returns (acts: seq<Action>, t: State)
    requires m in s.events && m !in s.acked && d !in s.deliveries
    ensures Run(s, acts, t)
    ensures t.sent == s.sent + HandledRows(s.events[m], m, ownerOk, officerOk)
    ensures m in t.acked <==> Handled(s.events[m], ownerOk, officerOk)
  {
    if s.events[m].ownerEmail != "" && !ownerOk {
      acts, t := Then(s, [], s, Deliver(d, m));
      acts, t := Stops(s, acts, t, d);
    } else {
      acts, t := OwnerHalf(s, d, m);
      if s.events[m].issuedByEmail != "" && !officerOk {
        acts, t := Stops(s, acts, t, d);
      } else {
        acts, t := OfficerHalf(s, acts, t, d);
      }
    }
  }
}
