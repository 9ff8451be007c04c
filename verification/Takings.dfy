/** The money: what all successful payments add up to, and what it has to do with the two tables. */
module Takings {
  import opened Sums
  import opened Traces
  import opened Settlement
  import opened Causality
  import opened Charging
  import opened Quiescence

  /** The sum of all successful payments. */
  function Collected(payments: seq<Payment>): int {
    if payments == [] then 0
    else
      var last := payments[|payments| - 1];
      Collected(payments[..|payments| - 1]) + if last.status.StatusPaid? then last.amount else 0
  }

  /** What each invoice has collected. */
  function Accounts(invoices: Invoices, payments: seq<Payment>): map<nat, int> {
    map i | i in invoices :: PaidSum(payments, i)
  }

  lemma SumChange(m: map<nat, int>, k: nat, x: int)
    requires k in m
    ensures Sum(m[k := m[k] + x]) == Sum(m) + x
  {
    var n := m[k := m[k] + x];
    assert n - {k} == m - {k};
    SumWithout(m, k);
    SumWithout(n, k);
  }

  /** Leaving out keys with value zero does not change a sum. */
  lemma {:induction false} SumDropZeros(a: map<nat, int>, b: map<nat, int>)
    requires b.Keys <= a.Keys && forall k :: k in a ==> a[k] == if k in b then b[k] else 0
    ensures Sum(a) == Sum(b)
    decreases |a|
  {
    if a == map[] {
      assert b == map[];
    } else {
      var k :| k in a;
      SumWithout(a, k);
      SumDropZeros(a - {k}, b - {k});
      if k in b { SumWithout(b, k); } else { assert b - {k} == b; }
    }
  }

  lemma AccountsNext(invoices: Invoices, payments: seq<Payment>, p: Payment)
    requires p.invoiceId in invoices
    ensures var before := Accounts(invoices, payments);
            Accounts(invoices, payments + [p])
            == before[p.invoiceId := before[p.invoiceId] + if p.status.StatusPaid? then p.amount else 0]
  {
    assert (payments + [p])[..|payments|] == payments;
  }

  /** Every successful payment is on the account of one invoice. */
  lemma {:induction false} CollectedOnAccounts(invoices: Invoices, payments: seq<Payment>)
    requires forall k :: 0 <= k < |payments| ==> payments[k].invoiceId in invoices
    ensures Collected(payments) == Sum(Accounts(invoices, payments))
    decreases |payments|
  {
    if payments == [] {
      SumDropZeros(Accounts(invoices, []), map[]);
    } else {
      var init, last := payments[..|payments| - 1], payments[|payments| - 1];
      CollectedOnAccounts(invoices, init);
      assert last.invoiceId in invoices;
      assert payments == init + [last];
      AccountsNext(invoices, init, last);
      SumChange(Accounts(invoices, init), last.invoiceId, if last.status.StatusPaid? then last.amount else 0);
    }
  }

  /** How often each invoice was paid, times its amount. */
  function Charges(invoices: Invoices, payments: seq<Payment>): map<nat, int> {
    map i | i in invoices :: PaidCount(payments, i) * invoices[i].amount
  }

  lemma AccountsAreCharges(invoices: Invoices, payments: seq<Payment>)
    requires PaymentsOk(invoices, payments)
    ensures Accounts(invoices, payments) == Charges(invoices, payments)
  {
    forall i | i in invoices ensures PaidSum(payments, i) == PaidCount(payments, i) * invoices[i].amount {
      SumIsCountTimesAmount(payments, i, invoices[i].amount);
    }
  }

  /** In every run, whatever interleaves and fails, the money collected is the sum over the invoices of
      how often each was paid times its amount. */
  lemma CollectedIsCharges(s: State, acts: seq<Action>, t: State)
    requires Init(s) && Run(s, acts, t)
    ensures Collected(t.payments) == Sum(Charges(t.invoices, t.payments))
  {
    InvRun(s, acts, t);
    CollectedOnAccounts(t.invoices, t.payments);
    AccountsAreCharges(t.invoices, t.payments);
  }

  // ------------------------------------------------------- one call after the other

  /** Calls on one invoice do not overlap, none dies before it marks, and no publish is lost. */
  ghost predicate OrderlyStep(s: State, a: Action, t: State) {
    Step(s, a, t) && Sequential(s, a) && Lossless(s, a)
  }

  ghost predicate OrderlyRun(s: State, acts: seq<Action>, t: State) {
    Leads(OrderlyStep, s, acts, t)
  }

  lemma OrderlyIsBoth(s: State, acts: seq<Action>, t: State)
    requires OrderlyRun(s, acts, t)
    ensures SequentialRun(s, acts, t) && LosslessRun(s, acts, t) && Run(s, acts, t)
  {
    LeadsWeakens(OrderlyStep, SerialStep, s, acts, t);
    LeadsWeakens(OrderlyStep, LosslessStep, s, acts, t);
    LeadsWeakens(OrderlyStep, Step, s, acts, t);
  }

  lemma AccountsAreBilled(invoices: Invoices, payments: seq<Payment>)
    requires forall i :: i in invoices ==> PaidSum(payments, i) == if invoices[i].status.Paid? then invoices[i].amount else 0
    ensures Sum(Accounts(invoices, payments)) == Sum(PaidBilled(invoices))
  {
    SumDropZeros(Accounts(invoices, payments), PaidBilled(invoices));
  }

  lemma NobodyRecording(t: State, i: nat)
    requires Quiescent(t)
    ensures !Recording(t.calls, i)
  {
  }

  /** After such a run, with empty queues and no call running, the money collected, the paid invoices
      and the paid violations have equal totals. */
  lemma MoneyAgrees(s: State, acts: seq<Action>, t: State)
    requires Init(s) && OrderlyRun(s, acts, t) && Quiescent(t)
    ensures Collected(t.payments) == Sum(PaidBilled(t.invoices)) == Sum(PaidFines(t.violations))
  {
    OrderlyIsBoth(s, acts, t);
    InvRun(s, acts, t);
    CollectedOnAccounts(t.invoices, t.payments);
    forall i | i in t.invoices
      ensures PaidSum(t.payments, i) == if t.invoices[i].status.Paid? then t.invoices[i].amount else 0
    {
      NobodyRecording(t, i);
      SequentialChargesOnce(s, acts, t, i);
    }
    AccountsAreBilled(t.invoices, t.payments);
    Conservation(s, acts, t);
  }
}
