/** The notification service: what it writes for an event, and to whom. */
module Notification {
  import opened Settlement
  import Rupiah

  datatype Kind = ViolationIssued | PaymentDone

  /** source: the number of the message the row was written for (history). */
  datatype Row = Row(recipient: string, kind: Kind, text: string, violationId: nat, source: nat)

  /** "no_parking_zone" as "no parking zone". */
  function Humanize(s: string): (h: string)
    ensures '_' !in h && |h| == |s|
    ensures forall i :: 0 <= i < |s| ==> (h[i] == ' ' <==> s[i] == '_' || s[i] == ' ')
    ensures forall i :: 0 <= i < |s| && s[i] != '_' ==> h[i] == s[i]
  {
    if s == "" then "" else (if s[0] == '_' then " " else [s[0]]) + Humanize(s[1..])
  }

  function IssuedText(evt: ViolationCreated): string {
    "A " + Humanize(evt.violationType) + " violation was issued for plate " + evt.plate + ". Fine: "
    + Rupiah.IdrText(evt.finalAmount) + "."
  }

  function OwnerText(evt: PaymentCompleted): string {
    "Your payment of " + Rupiah.IdrText(evt.amount) + " was successful. Transaction " + evt.transactionId + "."
  }

  function OfficerText(evt: PaymentCompleted): string {
    "A fine you issued for plate " + evt.plate + " was paid (" + Rupiah.IdrText(evt.amount) + ")."
  }

  /** Nobody is told who has no address. */
  function RowFor(recipient: string, kind: Kind, text: string, violationId: nat, source: nat): seq<Row> {
    if recipient == "" then [] else [Row(recipient, kind, text, violationId, source)]
  }

  function OwnerRows(evt: PaymentCompleted, source: nat): seq<Row> {
    RowFor(evt.ownerEmail, PaymentDone, OwnerText(evt), evt.violationId, source)
  }

  function OfficerRows(evt: PaymentCompleted, source: nat): seq<Row> {
    RowFor(evt.issuedByEmail, PaymentDone, OfficerText(evt), evt.violationId, source)
  }

  /** Whether the handler succeeds, when the inserts go as given. */
  predicate Handled(evt: PaymentCompleted, ownerOk: bool, officerOk: bool) {
    (evt.ownerEmail == "" || ownerOk) && (evt.issuedByEmail == "" || officerOk)
  }

  /** What the handler leaves behind: the owner first, then the officer; a failed insert stops it. */
  function HandledRows(evt: PaymentCompleted, source: nat, ownerOk: bool, officerOk: bool): seq<Row> {
    (if evt.ownerEmail == "" || ownerOk then OwnerRows(evt, source) else [])
    + (if Handled(evt, ownerOk, officerOk) then OfficerRows(evt, source) else [])
  }

  // ------------------------------------------------------------ what the rows say

  /** The text quotes the amount, readable, between the two parts. */
  ghost predicate Quotes(text: string, before: string, amount: int, after: string) {
    exists shown: string :: ShowsAmount(shown, amount) && text == before + shown + after
  }

  predicate ShowsAmount(shown: string, amount: int) {
    "Rp " <= shown && Rupiah.ReadIdr(shown) == amount
  }

  lemma IdrShowsAmount(amount: int)
    ensures ShowsAmount(Rupiah.IdrText(amount), amount)
  {
    Rupiah.IdrRoundTrip(amount);
    Rupiah.IdrDots(amount);
    assert Rupiah.IdrText(amount) == "Rp " + Rupiah.IdrText(amount)[3..];
  }

  /** The owner reads what was paid, and in which transaction. */
  ghost predicate TellsOwner(row: Row, evt: PaymentCompleted) {
    && row.recipient == evt.ownerEmail && row.kind.PaymentDone? && row.violationId == evt.violationId
    && Quotes(row.text, "Your payment of ", evt.amount, " was successful. Transaction " + evt.transactionId + ".")
  }

  /** The officer reads for which plate, and how much. */
  ghost predicate TellsOfficer(row: Row, evt: PaymentCompleted) {
    && row.recipient == evt.issuedByEmail && row.kind.PaymentDone? && row.violationId == evt.violationId
    && Quotes(row.text, "A fine you issued for plate " + evt.plate + " was paid (", evt.amount, ").")
  }

  /** The owner reads which violation, for which plate, and how much. */
  ghost predicate TellsIssued(row: Row, evt: ViolationCreated) {
    && row.recipient == evt.ownerEmail && row.kind.ViolationIssued? && row.violationId == evt.violationId
    && Quotes(row.text, "A " + Humanize(evt.violationType) + " violation was issued for plate " + evt.plate + ". Fine: ",
              evt.finalAmount, ".")
  }

  lemma OwnerIsTold(evt: PaymentCompleted, source: nat)
    ensures evt.ownerEmail == "" ==> OwnerRows(evt, source) == []
    ensures evt.ownerEmail != "" ==>
      |OwnerRows(evt, source)| == 1 && TellsOwner(OwnerRows(evt, source)[0], evt) && OwnerRows(evt, source)[0].source == source
  {
    var shown := Rupiah.IdrText(evt.amount);
    IdrShowsAmount(evt.amount);
    assert OwnerText(evt) == "Your payment of " + shown + (" was successful. Transaction " + evt.transactionId + ".");
  }

  lemma OfficerIsTold(evt: PaymentCompleted, source: nat)
    ensures evt.issuedByEmail == "" ==> OfficerRows(evt, source) == []
    ensures evt.issuedByEmail != "" ==>
      |OfficerRows(evt, source)| == 1 && TellsOfficer(OfficerRows(evt, source)[0], evt) && OfficerRows(evt, source)[0].source == source
  {
    var shown := Rupiah.IdrText(evt.amount);
    IdrShowsAmount(evt.amount);
    assert OfficerText(evt) == "A fine you issued for plate " + evt.plate + " was paid (" + shown + ").";
  }

  lemma IssuedIsTold(evt: ViolationCreated, source: nat)
    ensures TellsIssued(Row(evt.ownerEmail, ViolationIssued, IssuedText(evt), evt.violationId, source), evt)
  {
    IdrShowsAmount(evt.finalAmount);
  }

  /** No text to an owner is one to an officer. */
  lemma TextsDiffer(owners: Row, a: PaymentCompleted, officers: Row, b: PaymentCompleted)
    requires TellsOwner(owners, a) && TellsOfficer(officers, b)
    ensures owners.text[..12] == "Your payment" && officers.text[..17] == "A fine you issued" && owners.text != officers.text
  {
    var shown: string :| ShowsAmount(shown, a.amount)
      && owners.text == "Your payment of " + shown + (" was successful. Transaction " + a.transactionId + ".");
    var paid: string :| ShowsAmount(paid, b.amount)
      && officers.text == "A fine you issued for plate " + b.plate + " was paid (" + paid + ").";
    assert owners.text[0] == 'Y' && officers.text[0] == 'A';
  }

  class Service {
    var sent: seq<Row>

    constructor ()
      ensures sent == []
    {
      sent := [];
    }

    method Insert(row: Row, dbOk: bool) returns (ok: bool)
      modifies this
      ensures ok == dbOk && sent == old(sent) + if ok then [row] else []
    {
      if dbOk { sent := sent + [row]; }
      return dbOk;
    }

    method HandleViolationCreated(evt: ViolationCreated, source: nat, dbOk: bool) returns (ok: bool)
      modifies this
      ensures ok <==> evt.ownerEmail == "" || dbOk
      ensures sent == old(sent) +
        if ok then RowFor(evt.ownerEmail, ViolationIssued, IssuedText(evt), evt.violationId, source) else []
      ensures ok && evt.ownerEmail != "" ==> |sent| == |old(sent)| + 1 && TellsIssued(sent[|old(sent)|], evt)
    {
      IssuedIsTold(evt, source);
      if evt.ownerEmail == "" { return true; }
      var amount := Rupiah.Idr(evt.finalAmount);
      var text := "A " + Humanize(evt.violationType) + " violation was issued for plate " + evt.plate + ". Fine: " + amount + ".";
      ok := Insert(Row(evt.ownerEmail, ViolationIssued, text, evt.violationId, source), dbOk);
    }

    method HandlePaymentCompleted(evt: PaymentCompleted, source: nat, ownerOk: bool, officerOk: bool) returns (ok: bool)
      modifies this
      ensures ok == Handled(evt, ownerOk, officerOk)
      ensures sent == old(sent) + HandledRows(evt, source, ownerOk, officerOk)
      ensures evt.ownerEmail != "" && ownerOk ==> |sent| > |old(sent)| && TellsOwner(sent[|old(sent)|], evt)
      ensures evt.issuedByEmail != "" && ok ==> |sent| > |old(sent)| && TellsOfficer(sent[|sent| - 1], evt)
    {
      OwnerIsTold(evt, source);
      OfficerIsTold(evt, source);
      if evt.ownerEmail != "" {
        var amount := Rupiah.Idr(evt.amount);
        var text := "Your payment of " + amount + " was successful. Transaction " + evt.transactionId + ".";
        ok := Insert(Row(evt.ownerEmail, PaymentDone, text, evt.violationId, source), ownerOk);
        if !ok { return; }
      }
      if evt.issuedByEmail != "" {
        var amount := Rupiah.Idr(evt.amount);
        var text := "A fine you issued for plate " + evt.plate + " was paid (" + amount + ").";
        ok := Insert(Row(evt.issuedByEmail, PaymentDone, text, evt.violationId, source), officerOk);
        return;
      }
      return true;
    }
  }
}
