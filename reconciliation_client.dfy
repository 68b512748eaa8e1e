/** The Payment Reconciliation form in the browser: the "Zero Allocate"
    and "Zero Reconcile" buttons, the checks made before zero allocation
    rows are requested, and what the form does with the rows that come
    back. The server call that creates the rows is a parameter: the rows
    it answers are given to `ExecuteZeroAllocate`. */
module ReconciliationClient {
  import opened Wrappers
  import opened StableSort
  import opened ReconciliationDoc

  /** The figures the "Zero Reconcile" button shows when clicked. */
  datatype ReconcileButton = ReconcileButton(non_zero_count: nat, zero_count: nat)

  /** The two confirmation texts of "Zero Reconcile". */
  datatype ReconcilePrompt =
    | WithFilteredZeros(non_zero: nat, zero: nat)
    | AllNonZero(non_zero: nat)

  function ReconcilePromptFor(b: ReconcileButton): (p: ReconcilePrompt)
    ensures p.WithFilteredZeros? <==> b.zero_count > 0
    ensures p.non_zero == b.non_zero_count
    ensures p.WithFilteredZeros? ==> p.zero == b.zero_count
  {
    if b.zero_count > 0 then WithFilteredZeros(b.non_zero_count, b.zero_count)
    else AllNonZero(b.non_zero_count)
  }

  /** The figures for an allocation table: the rows with an amount above 0,
      and the rest. */
  function ButtonFor(allocation: seq<Allocation>): (b: ReconcileButton)
    ensures b.non_zero_count == Count(allocation, IsNonZero)
    ensures b.zero_count == Count(allocation, IsZero)
    ensures b.non_zero_count + b.zero_count == |allocation|
  {
    ZeroCount(allocation);
    var non_zero_count := |Keep(allocation, IsNonZero)|;
    ReconcileButton(non_zero_count, |allocation| - non_zero_count)
  }

  // ---------------------------------------------------------------------
  // zero_allocate: the checks before rows are requested

  /** Where the dialogs lead: a choice between replacing and appending when
      the table already has rows, a plain confirmation otherwise. */
  datatype NextStep =
    | ReplaceOrAppend(existing: nat, total_rows: nat)
    | ConfirmCreate(total_rows: nat)

  datatype ZeroAllocateOutcome =
    | FormNotReady
    | NoPaymentSelected
    | NoInvoiceSelected
    | LargeConfirm(total_rows: nat, next: NextStep)
    | Proceed(next: NextStep)

  const RowLimit := 500

  predicate PaymentSelected(p: PaymentRow) { p.checked }

  predicate InvoiceSelected(i: InvoiceRow) { i.checked }

  function NextFor(existing: nat, total_rows: nat): (n: NextStep)
    ensures n.total_rows == total_rows
    ensures n.ReplaceOrAppend? <==> existing > 0
    ensures n.ReplaceOrAppend? ==> n.existing == existing
  {
    if existing > 0 then ReplaceOrAppend(existing, total_rows) else ConfirmCreate(total_rows)
  }

  /** `zero_allocate`: `ready` says the form has its payments and invoices
      tables; `existing` is the number of allocation rows already there.
      Without a selected payment it stops, then without a selected invoice;
      one row is to be made per selected pair, and more than 500 rows
      need one more confirmation before the same next step. */
  function ZeroAllocate(ready: bool, payments: seq<PaymentRow>, invoices: seq<InvoiceRow>, existing: nat): (o: ZeroAllocateOutcome)
    ensures !ready <==> o == FormNotReady
    ensures ready ==> (o == NoPaymentSelected <==> forall k :: 0 <= k < |payments| ==> !PaymentSelected(payments[k]))
    ensures o == NoInvoiceSelected ==> exists k :: 0 <= k < |payments| && PaymentSelected(payments[k])
    ensures o == NoInvoiceSelected ==> forall k :: 0 <= k < |invoices| ==> !InvoiceSelected(invoices[k])
    ensures o.LargeConfirm? || o.Proceed? ==>
      (var total := |Keep(payments, PaymentSelected)| * |Keep(invoices, InvoiceSelected)|;
       total > 0 && o.next == NextFor(existing, total))
    ensures o.LargeConfirm? <==>
      ready && |Keep(payments, PaymentSelected)| * |Keep(invoices, InvoiceSelected)| > RowLimit
    ensures o.LargeConfirm? ==> o.total_rows == o.next.total_rows
  {
    if !ready then FormNotReady
    else
      var selected_payments := Keep(payments, PaymentSelected);
      var selected_invoices := Keep(invoices, InvoiceSelected);
      SelectionEmpty(payments, PaymentSelected);
      SelectionEmpty(invoices, InvoiceSelected);
      if |selected_payments| == 0 then NoPaymentSelected
      else if |selected_invoices| == 0 then NoInvoiceSelected
      else
        var total_rows := |selected_payments| * |selected_invoices|;
        Positive(|selected_payments|, |selected_invoices|);
        var next := NextFor(existing, total_rows);
        if total_rows > RowLimit then LargeConfirm(total_rows, next) else Proceed(next)
  }

  lemma Positive(a: nat, b: nat)
    requires a > 0 && b > 0
    ensures a * b > 0
  {
  }

  /** Nothing is selected exactly when no row is checked. */
  lemma {:induction false} SelectionEmpty<T>(s: seq<T>, p: T -> bool)
    ensures Keep(s, p) == [] <==> forall k :: 0 <= k < |s| ==> !p(s[k])
  {
    if s != [] {
      assert forall k :: 0 <= k < |s[1..]| ==> s[1..][k] == s[k + 1];
      SelectionEmpty(s[1..], p);
    }
  }

  /** The labels of the replace/append choice; append is the default. */
  const ReplaceLabel := "Replace existing allocations"

  const AppendLabel := "Append to existing allocations"

  /** Whether the table is cleared before the new rows go in. The plain
      confirmation never clears it; the choice clears it only when the
      replace label is chosen, and leaving the default appends. */
  function ReplaceFor(next: NextStep, action: Option<string>): (replace: bool)
    ensures next.ConfirmCreate? ==> !replace
    ensures action.None? ==> !replace
    ensures replace <==> next.ReplaceOrAppend? && action == Some(ReplaceLabel)
  {
    match next
    case ConfirmCreate(_) => false
    case ReplaceOrAppend(_, _) => action.GetOr(AppendLabel) == ReplaceLabel
  }

  function UncheckedPayments(s: seq<PaymentRow>): (r: seq<PaymentRow>)
    ensures |r| == |s|
    ensures forall k :: 0 <= k < |s| ==> r[k] == s[k].(checked := false)
  {
    seq(|s|, k requires 0 <= k < |s| => s[k].(checked := false))
  }

  function UncheckedInvoices(s: seq<InvoiceRow>): (r: seq<InvoiceRow>)
    ensures |r| == |s|
    ensures forall k :: 0 <= k < |s| ==> r[k] == s[k].(checked := false)
  {
    seq(|s|, k requires 0 <= k < |s| => s[k].(checked := false))
  }

  /** Once rows have been made the selections are cleared, so asking for
      zero allocation again stops at the payment check. */
  lemma AllocatingAgainNeedsNewSelection(payments: seq<PaymentRow>, invoices: seq<InvoiceRow>, existing: nat)
    ensures ZeroAllocate(true, UncheckedPayments(payments), UncheckedInvoices(invoices), existing) == NoPaymentSelected
  {
    var ps := UncheckedPayments(payments);
    assert forall k :: 0 <= k < |ps| ==> !PaymentSelected(ps[k]);
    SelectionEmpty(ps, PaymentSelected);
  }

  /** The form, with the two buttons the feature adds. */
  class ReconciliationForm {
    var allocation: seq<Allocation>
    var payments: seq<PaymentRow>
    var invoices: seq<InvoiceRow>
    var zeroAllocateButton: bool
    var zeroReconcileButton: Option<ReconcileButton>

    constructor(payments: seq<PaymentRow>, invoices: seq<InvoiceRow>, allocation: seq<Allocation>)
      ensures this.payments == payments && this.invoices == invoices && this.allocation == allocation
      ensures !zeroAllocateButton && zeroReconcileButton.None?
    {
      this.payments := payments;
      this.invoices := invoices;
      this.allocation := allocation;
      zeroAllocateButton := false;
      zeroReconcileButton := None;
    }

    /** `add_zero_allocate_button`: the old button goes, and a new one is
        offered only when both tables have rows. */
    method AddZeroAllocateButton()
      modifies this
      ensures zeroAllocateButton <==> |payments| > 0 && |invoices| > 0
      ensures allocation == old(allocation) && payments == old(payments) && invoices == old(invoices)
      ensures zeroReconcileButton == old(zeroReconcileButton)
    {
      zeroAllocateButton := false;
      if |payments| > 0 && |invoices| > 0 {
        zeroAllocateButton := true;
      }
    }

    /** `check_and_setup`: `enabled` is the server's answer on whether the
        feature is on; with it off nothing changes. */
    method CheckAndSetup(enabled: bool)
      modifies this
      ensures enabled ==> (zeroAllocateButton <==> |payments| > 0 && |invoices| > 0)
      ensures !enabled ==> zeroAllocateButton == old(zeroAllocateButton)
      ensures allocation == old(allocation) && payments == old(payments) && invoices == old(invoices)
      ensures zeroReconcileButton == old(zeroReconcileButton)
    {
      if enabled {
        AddZeroAllocateButton();
      }
    }

    /** `add_zero_reconcile_button`: nothing happens on an empty table;
        otherwise the button is put up again with the table's figures. */
    method AddZeroReconcileButton()
      modifies this
      ensures old(allocation) == [] ==> zeroReconcileButton == old(zeroReconcileButton)
      ensures old(allocation) != [] ==> zeroReconcileButton == Some(ButtonFor(allocation))
      ensures allocation == old(allocation) && payments == old(payments) && invoices == old(invoices)
      ensures zeroAllocateButton == old(zeroAllocateButton)
    {
      if allocation == [] {
        return;
      }
      var non_zero_count := |Keep(allocation, IsNonZero)|;
      var total_count := |allocation|;
      var zero_count := total_count - non_zero_count;
      assert ReconcileButton(non_zero_count, zero_count) == ButtonFor(allocation);
      zeroReconcileButton := Some(ReconcileButton(non_zero_count, zero_count));
    }

    /** The part of a successful zero reconciliation the form sees: all
        three tables are emptied and the button is taken away. A failed
        call changes nothing. */
    method ZeroReconcileDone(succeeded: bool)
      modifies this
      ensures succeeded ==> allocation == [] && payments == [] && invoices == [] && zeroReconcileButton.None?
      ensures !succeeded ==>
        (allocation == old(allocation) && payments == old(payments)
         && invoices == old(invoices) && zeroReconcileButton == old(zeroReconcileButton))
      ensures zeroAllocateButton == old(zeroAllocateButton)
    {
      if succeeded {
        allocation := [];
        payments := [];
        invoices := [];
        zeroReconcileButton := None;
      }
    }

    /** `frm.add_child` for each returned row, in order. */
    method AppendRows(rows: seq<Allocation>)
      modifies this
      ensures allocation == old(allocation) + rows
      ensures payments == old(payments) && invoices == old(invoices)
      ensures zeroAllocateButton == old(zeroAllocateButton) && zeroReconcileButton == old(zeroReconcileButton)
    {
      var j := 0;
      while j < |rows|
        invariant 0 <= j <= |rows|
        invariant allocation == old(allocation) + rows[..j]
        invariant payments == old(payments) && invoices == old(invoices)
        invariant zeroAllocateButton == old(zeroAllocateButton) && zeroReconcileButton == old(zeroReconcileButton)
      {
        assert rows[..j + 1] == rows[..j] + [rows[j]];
        allocation := allocation + [rows[j]];
        j := j + 1;
      }
      assert rows[..j] == rows;
    }

    /** Clears `__checked` on every payment and every invoice row. */
    method ClearSelections()
      modifies this
      ensures payments == UncheckedPayments(old(payments))
      ensures invoices == UncheckedInvoices(old(invoices))
      ensures allocation == old(allocation)
      ensures zeroAllocateButton == old(zeroAllocateButton) && zeroReconcileButton == old(zeroReconcileButton)
    {
      var i := 0;
      while i < |payments|
        invariant 0 <= i <= |payments| == |old(payments)|
        invariant forall k :: 0 <= k < i ==> payments[k] == old(payments)[k].(checked := false)
        invariant forall k :: i <= k < |payments| ==> payments[k] == old(payments)[k]
        invariant invoices == old(invoices) && allocation == old(allocation)
        invariant zeroAllocateButton == old(zeroAllocateButton) && zeroReconcileButton == old(zeroReconcileButton)
      {
        payments := payments[i := payments[i].(checked := false)];
        i := i + 1;
      }
      i := 0;
      while i < |invoices|
        invariant 0 <= i <= |invoices| == |old(invoices)|
        invariant forall k :: 0 <= k < i ==> invoices[k] == old(invoices)[k].(checked := false)
        invariant forall k :: i <= k < |invoices| ==> invoices[k] == old(invoices)[k]
        invariant payments == UncheckedPayments(old(payments)) && allocation == old(allocation)
        invariant zeroAllocateButton == old(zeroAllocateButton) && zeroReconcileButton == old(zeroReconcileButton)
      {
        invoices := invoices[i := invoices[i].(checked := false)];
        i := i + 1;
      }
    }

    /** `execute_zero_allocate`, from the moment the server answers with
        `response`: a non-empty answer replaces or extends the table, clears
        the selections and puts up the "Zero Reconcile" button; an empty one
        only brings a message. */
    method ExecuteZeroAllocate(replace: bool, response: seq<Allocation>)
      modifies this
      ensures response == [] ==>
        (allocation == old(allocation) && payments == old(payments)
         && invoices == old(invoices) && zeroReconcileButton == old(zeroReconcileButton))
      ensures response != [] ==> allocation == (if replace then [] else old(allocation)) + response
      ensures response != [] ==> payments == UncheckedPayments(old(payments))
      ensures response != [] ==> invoices == UncheckedInvoices(old(invoices))
      ensures response != [] ==> zeroReconcileButton == Some(ButtonFor(allocation))
      ensures zeroAllocateButton == old(zeroAllocateButton)
    {
      if |response| > 0 {
        if replace {
          allocation := [];
        }
        AppendRows(response);
        AddZeroReconcileButton();
        ClearSelections();
      }
    }
  }

  /** The whole "Zero Allocate" round on a form whose payments and invoices
      are all selected: with no existing rows, the table ends up holding
      exactly the returned rows, and a second round must start with a new
      selection. */
  method AllocateOnEmptyTable(form: ReconciliationForm, response: seq<Allocation>)
    requires form.allocation == [] && response != []
    requires |form.payments| > 0 && |form.invoices| > 0
    requires forall k :: 0 <= k < |form.payments| ==> form.payments[k].checked
    requires forall k :: 0 <= k < |form.invoices| ==> form.invoices[k].checked
    modifies form
    ensures form.allocation == response
    ensures ZeroAllocate(true, form.payments, form.invoices, |form.allocation|) == NoPaymentSelected
  {
    var o := ZeroAllocate(true, form.payments, form.invoices, |form.allocation|);
    assert form.payments[0] in Keep(form.payments, PaymentSelected);
    assert form.invoices[0] in Keep(form.invoices, InvoiceSelected);
    assert o.next.ConfirmCreate?;
    var replace := ReplaceFor(o.next, None);
    form.ExecuteZeroAllocate(replace, response);
    AllocatingAgainNeedsNewSelection(old(form.payments), old(form.invoices), |form.allocation|);
  }
}
