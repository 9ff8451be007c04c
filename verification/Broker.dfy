/**
 The broker: a topic exchange that copies each published event to the bound queues, and a consumer
 loop that acks a message when its handler succeeds and requeues it when it fails. Delivery is in
 any order and at least once.
 */
module Broker {
  import opened Settlement

  /** Handling the messages of a log, in order. */
  function Fold<S, M>(handle: (S, M) -> S, s: S, log: seq<M>): S {
    if log == [] then s else handle(Fold(handle, s, log[..|log| - 1]), log[|log| - 1])
  }

  /** How many of the first k outcomes end in an ack, when those not listed do. */
  function Failures(outcomes: seq<Outcome>): nat {
    if outcomes == [] then 0
    else Failures(outcomes[..|outcomes| - 1]) + if outcomes[|outcomes| - 1].Acked? then 0 else 1
  }

  lemma FoldNext<S, M>(handle: (S, M) -> S, s: S, log: seq<M>, m: M)
    ensures Fold(handle, s, log + [m]) == handle(Fold(handle, s, log), m)
  {
  }

  lemma FailuresNext(outcomes: seq<Outcome>, k: nat)
    requires k < |outcomes|
    ensures Failures(outcomes[..k + 1]) == Failures(outcomes[..k]) + if outcomes[k].Acked? then 0 else 1
  {
    assert outcomes[..k + 1][..k] == outcomes[..k];
  }

  lemma {:induction false} FailuresPrefix(outcomes: seq<Outcome>, k: nat)
    requires k <= |outcomes|
    ensures Failures(outcomes[..k]) <= Failures(outcomes)
    decreases |outcomes|
  {
    if k == |outcomes| {
      assert outcomes[..k] == outcomes;
    } else {
      var rest := outcomes[..|outcomes| - 1];
      assert rest[..k] == outcomes[..k];
      FailuresPrefix(rest, k);
    }
  }

  class Exchange<M(==)> {
    var bindings: set<(string, string)>
    var ready: map<string, multiset<M>>

    constructor ()
      ensures bindings == {} && ready == map[]
    {
      bindings, ready := {}, map[];
    }

    /** QueueDeclare and QueueBind: an existing queue keeps its messages. */
    method Bind(queue: string, routingKey: string)
      modifies this
      ensures bindings == old(bindings) + {(queue, routingKey)}
      ensures ready == if queue in old(ready) then old(ready) else old(ready)[queue := multiset{}]
    {
      bindings := bindings + {(queue, routingKey)};
      if queue !in ready { ready := ready[queue := multiset{}]; }
    }

    /** Every queue bound to the key gets its copy; with none bound the event is gone, and Publish
        still succeeds. */
    method Publish(routingKey: string, m: M, brokerOk: bool) returns (ok: bool)
      modifies this`ready
      ensures ok == brokerOk
      ensures !ok ==> ready == old(ready)
      ensures ok ==> ready.Keys == old(ready).Keys
      ensures ok ==> forall q :: q in ready ==>
             ready[q] == old(ready)[q] + if (q, routingKey) in bindings then multiset{m} else multiset{}
    {
      if brokerOk {
        ready := map q | q in ready :: if (q, routingKey) in bindings then ready[q] + multiset{m} else ready[q];
      }
      return brokerOk;
    }

    /** The consumer's loop over its deliveries, until the queue is empty. outcomes says how the
        deliveries end, as far as they do not end in an ack at once: Nacked deliveries have no effect
        and are requeued, Unacked ones have theirs and are delivered again all the same.
        Every message is acked exactly once and handled at least once, nothing else is handled, and
        there are no more deliveries than messages and failures. */
    method Consume<S>(queue: string, handle: (S, M) -> S, s: S, outcomes: seq<Outcome>)
        returns (t: S, ghost handled: seq<M>, ghost acked: seq<M>, ghost deliveries: nat)
      requires queue in ready
      modifies this`ready
      ensures ready == old(ready)[queue := multiset{}]
      ensures multiset(acked) == old(ready)[queue]
      ensures t == Fold(handle, s, handled)
      ensures forall m :: m in handled <==> m in old(ready)[queue]
      ensures old(ready)[queue] <= multiset(handled)
      ensures |old(ready)[queue]| <= deliveries <= |old(ready)[queue]| + Failures(outcomes)
    {
      t, handled, acked, deliveries := s, [], [], 0;
      var pending, k := ready[queue], 0;
      while pending != multiset{}
        invariant ready == old(ready)[queue := pending]
        invariant pending + multiset(acked) == old(ready)[queue]
        invariant multiset(acked) <= multiset(handled)
        invariant forall m :: m in handled ==> m in old(ready)[queue]
        invariant t == Fold(handle, s, handled)
        invariant k <= |outcomes| && deliveries == |acked| + Failures(outcomes[..k])
        decreases |outcomes| - k, |pending|
      {
        var m :| m in pending;
        var outcome := if k < |outcomes| then outcomes[k] else Acked;
        if k < |outcomes| {
          FailuresNext(outcomes, k);
          k := k + 1;
        }
        deliveries := deliveries + 1;
        if !outcome.Nacked? {
          t := handle(t, m);
          FoldNext(handle, s, handled, m);
          handled := handled + [m];
        }
        if outcome.Acked? {
          pending := pending - multiset{m};
          ready := ready[queue := pending];
          acked := acked + [m];
        }
      }
      FailuresPrefix(outcomes, k);
    }
  }

  // ------------------------------------------------------ handlers that do not mind

  ghost predicate Idempotent<S(!new), M(!new)>(handle: (S, M) -> S) {
    forall s, m :: handle(handle(s, m), m) == handle(s, m)
  }

  ghost predicate Commutes<S(!new), M(!new)>(handle: (S, M) -> S) {
    forall s, m, n :: handle(handle(s, m), n) == handle(handle(s, n), m)
  }

  lemma {:induction false} FoldAbsorbs<S(!new), M(!new)>(handle: (S, M) -> S, s: S, log: seq<M>, m: M)
    requires Idempotent(handle) && Commutes(handle) && m in log
    ensures handle(Fold(handle, s, log), m) == Fold(handle, s, log)
    decreases |log|
  {
    var rest, last := log[..|log| - 1], log[|log| - 1];
    if last != m {
      FoldAbsorbs(handle, s, rest, m);
      assert handle(handle(Fold(handle, s, rest), last), m) == handle(handle(Fold(handle, s, rest), m), last);
    }
  }

  lemma {:induction false} FoldAppend<S(!new), M(!new)>(handle: (S, M) -> S, s: S, a: seq<M>, b: seq<M>)
    requires Idempotent(handle) && Commutes(handle) && forall m :: m in b ==> m in a
    ensures Fold(handle, s, a + b) == Fold(handle, s, a)
    decreases |b|
  {
    if b == [] {
      assert a + b == a;
    } else {
      var rest, last := b[..|b| - 1], b[|b| - 1];
      FoldAppend(handle, s, a, rest);
      FoldNext(handle, s, a + rest, last);
      assert a + b == a + rest + [last];
      FoldAbsorbs(handle, s, a, last);
    }
  }

  lemma {:induction false} FoldPassesBy<S(!new), M(!new)>(handle: (S, M) -> S, s: S, log: seq<M>, m: M)
    requires Commutes(handle)
    ensures Fold(handle, handle(s, m), log) == handle(Fold(handle, s, log), m)
    decreases |log|
  {
    if log != [] { FoldPassesBy(handle, s, log[..|log| - 1], m); }
  }

  lemma {:induction false} FoldSplits<S(!new), M(!new)>(handle: (S, M) -> S, s: S, a: seq<M>, b: seq<M>)
    ensures Fold(handle, s, a + b) == Fold(handle, Fold(handle, s, a), b)
    decreases |b|
  {
    if b == [] {
      assert a + b == a;
    } else {
      var rest, last := b[..|b| - 1], b[|b| - 1];
      FoldSplits(handle, s, a, rest);
      FoldNext(handle, s, a + rest, last);
      assert a + b == a + rest + [last];
    }
  }

  lemma {:induction false} FoldSwaps<S(!new), M(!new)>(handle: (S, M) -> S, s: S, a: seq<M>, b: seq<M>)
    requires Commutes(handle)
    ensures Fold(handle, s, a + b) == Fold(handle, s, b + a)
    decreases |b|
  {
    if b == [] {
      assert a + b == a && b + a == a;
    } else {
      var rest, last := b[..|b| - 1], b[|b| - 1];
      FoldSwaps(handle, s, a, rest);
      FoldNext(handle, s, a + rest, last);
      assert a + b == a + rest + [last];
      assert rest + [last] == b;
      FoldSplits(handle, s, b, a);
      FoldSplits(handle, s, rest, a);
      FoldPassesBy(handle, Fold(handle, s, rest), a, last);
    }
  }

  /** Two consumers that handled the same messages, in whatever order and however often, agree,
      when handling is idempotent and commutes. */
  lemma FoldConfluent<S(!new), M(!new)>(handle: (S, M) -> S, s: S, a: seq<M>, b: seq<M>)
    requires Idempotent(handle) && Commutes(handle)
    requires forall m :: m in a <==> m in b
    ensures Fold(handle, s, a) == Fold(handle, s, b)
  {
    FoldAppend(handle, s, a, b);
    FoldAppend(handle, s, b, a);
    FoldSwaps(handle, s, a, b);
  }
}
