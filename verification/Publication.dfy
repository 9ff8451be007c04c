/** What a lost publish costs: there is no second announcement, so the invoice never comes. */
module Publication {
  import opened Traces
  import opened Settlement
  import opened Causality
  import opened Quiescence
  import opened Confluence

  lemma MarkingKeepsInvoiced(invoices: Invoices, i: nat, v: nat)
    ensures HasInvoice(SetPaid(invoices, i), v) <==> HasInvoice(invoices, v)
  {
    var later := SetPaid(invoices, i);
    assert InvoicesGrow(invoices, later);
    if HasInvoice(invoices, v) { HasInvoiceKept(invoices, later, v); }
    if HasInvoice(later, v) {
      var j :| j in later && later[j].violationId == v;
      assert j in invoices && invoices[j].violationId == v;
    }
  }

  lemma PublishQueues(queue: multiset<ViolationCreated>, m: ViolationCreated, v: nat)
    ensures CreationQueued(queue + multiset{m}, v) <==> CreationQueued(queue, v) || m.violationId == v
  {
  }

  /** Only a delivered announcement adds to the violations that are, or will be, invoiced. */
  lemma InvoicedStep(s: State, a: Action, v: nat)
    requires Enabled(s, a)
    ensures InvoicedTarget(InvoicesAfter(s, a), CreatedAfter(s, a), v)
       <==> InvoicedTarget(s.invoices, s.createdQueue, v) || a == PublishCreated(v, true)
  {
    if Delivers(a) {
      DeliveryKeepsInvoicedTarget(s, a, v);
    } else if a.PayMark? {
      MarkingKeepsInvoiced(s.invoices, s.calls[a.c].invoiceId, v);
    } else if a.PublishCreated? && a.delivered {
      PublishQueues(s.createdQueue, CreatedEvent(a.v, s.violations[a.v]), v);
    }
  }

  ghost predicate Invoiced(s: State, v: nat) {
    InvoicedTarget(s.invoices, s.createdQueue, v)
  }

  /** In every run, once the queue is empty: a violation has an invoice exactly when its one
      announcement was not lost. Otherwise it has none, and no delivery will ever create one. */
  lemma InvoicedIffPublished(s: State, acts: seq<Action>, t: State, v: nat)
    requires Init(s) && Run(s, acts, t) && t.createdQueue == multiset{}
    ensures HasInvoice(t.invoices, v) <==> PublishCreated(v, true) in acts
  {
    var p := (x: State) => Invoiced(x, v);
    forall x, a, y | Step(x, a, y) ensures p(y) <==> p(x) || a == PublishCreated(v, true) { InvoicedStep(x, a, v); }
    RunBringsAbout(Step, p, PublishCreated(v, true), s, acts, t);
  }
}
