/** The guard run before a Sales Invoice or POS Invoice is cancelled: an
    invoice that already carries an ETR (electronic tax register) invoice
    number may not be cancelled while the setting is on. */
module Validations {
  import opened Wrappers
  import opened Text

  /** The part of the PowerPack Settings record the guard reads: the check
      box, absent when the record has no such field. */
  datatype SettingsRecord = SettingsRecord(prevent_etr_invoice_cancellation: Option<int>)

  /** The invoice being cancelled. */
  datatype InvoiceDoc = InvoiceDoc(doctype: string, etr_invoice_number: Option<string>)

  datatype CancelDecision = Allow | Block(title: string, message: string)

  /** `settings.get(...)` is true in Python: present and not 0. */
  predicate GuardOn(settings: SettingsRecord) {
    settings.prevent_etr_invoice_cancellation.Some? && settings.prevent_etr_invoice_cancellation.value != 0
  }

  /** `doc.get('etr_invoice_number')` is true in Python: present and not
      empty. */
  predicate HasEtrNumber(doc: InvoiceDoc) {
    doc.etr_invoice_number.Some? && doc.etr_invoice_number.value != ""
  }

  const BlockTitle := "ETR Invoice Cannot Be Cancelled"

  const Refusal := "cannot be cancelled"

  const Reason := " as it contains an ETR Invoice Number: "

  function BlockMessage(doctype: string, number: string): string {
    "This " + doctype + " " + Refusal + Reason + number
  }

  /** `prevent_etr_invoice_cancellation`. `settings` is `None` when the
      settings record cannot be read, in which case the guard steps aside. */
  function PreventEtrInvoiceCancellation(settings: Option<SettingsRecord>, doc: InvoiceDoc): (d: CancelDecision)
    ensures settings.None? ==> d == Allow
    ensures settings.Some? && !GuardOn(settings.value) ==> d == Allow
    ensures !HasEtrNumber(doc) ==> d == Allow
    ensures d.Block? <==> settings.Some? && GuardOn(settings.value) && HasEtrNumber(doc)
    ensures d.Block? ==> d.title == BlockTitle
  {
    if settings.None? then Allow
    else if !GuardOn(settings.value) then Allow
    else if HasEtrNumber(doc) then Block(BlockTitle, BlockMessage(doc.doctype, doc.etr_invoice_number.value))
    else Allow
  }

  /** Text of the form `a + x + b + y` mentions both `x` and `y`, and ends
      with `y`. */
  lemma Mentions(a: string, x: string, b: string, y: string)
    ensures Contains(a + x + b + y, x)
    ensures Contains(a + x + b + y, y)
    ensures |y| <= |a + x + b + y| && (a + x + b + y)[|a + x + b + y| - |y|..] == y
  {
    var m := a + x + b + y;
    assert m[|a|..|a| + |x|] == x;
    ContainsAt(m, x, |a|);
    assert m[|m| - |y|..|m| - |y| + |y|] == y;
    ContainsAt(m, y, |m| - |y|);
  }

  /** A refusal names the kind of document and its ETR number, and the
      number closes the message. */
  lemma BlockNamesDocument(settings: Option<SettingsRecord>, doc: InvoiceDoc)
    requires PreventEtrInvoiceCancellation(settings, doc).Block?
    ensures var d := PreventEtrInvoiceCancellation(settings, doc);
      Contains(d.message, doc.doctype) && Contains(d.message, doc.etr_invoice_number.value)
      && Contains(d.message, Refusal)
  {
    var n := doc.etr_invoice_number.value;
    Mentions("This ", doc.doctype, " " + Refusal + Reason, n);
    assert "This " + doc.doctype + " " + Refusal + Reason + n == "This " + doc.doctype + (" " + Refusal + Reason) + n;
    assert (" " + Refusal + Reason)[1..1 + |Refusal|] == Refusal;
    ContainsAt(" " + Refusal + Reason, Refusal, 1);
    ContainsExtend("This " + doc.doctype, " " + Refusal + Reason, n, Refusal);
  }
}
