/** The hooks the app installs on Payment Reconciliation: the validator
    that warns when every allocation is zero, the two first-match lookups
    of a payment's amount and an invoice's outstanding amount, and the
    wrapper that drops zero allocations before the standard
    reconciliation runs. */
module Overrides {
  import opened Wrappers
  import opened StableSort
  import opened ReconciliationDoc

  /** No non-zero allocation means every allocation is zero. */
  lemma NoNonZeroMeansAllZero(s: seq<Allocation>)
    ensures Count(s, IsNonZero) == 0 <==> forall k :: 0 <= k < |s| ==> IsZero(s[k])
  {
    NothingKept(s);
  }

  lemma CountOne(x: Allocation, p: Allocation -> bool)
    ensures Count([x], p) == if p(x) then 1 else 0
  {
    assert [x][1..] == [];
  }

  /** `validate_allocation_with_zero_support`: nothing to say when the
      feature is off or there are no allocations; otherwise it counts the
      non-zero and zero rows in one pass and warns exactly when every row
      is zero. */
  method ValidateAllocation(enabled: bool, allocation: seq<Allocation>) returns (warn: bool)
    ensures !enabled || allocation == [] ==> !warn
    ensures warn <==> enabled && allocation != [] && forall k :: 0 <= k < |allocation| ==> IsZero(allocation[k])
  {
    if !enabled {
      return false;
    }
    if allocation == [] {
      return false;
    }
    var non_zero_count, zero_count := 0, 0;
    var i := 0;
    while i < |allocation|
      invariant 0 <= i <= |allocation|
      invariant non_zero_count == Count(allocation[..i], IsNonZero)
      invariant zero_count == Count(allocation[..i], IsZero)
    {
      assert allocation[..i + 1] == allocation[..i] + [allocation[i]];
      CountAppend(allocation[..i], [allocation[i]], IsNonZero);
      CountAppend(allocation[..i], [allocation[i]], IsZero);
      CountOne(allocation[i], IsNonZero);
      CountOne(allocation[i], IsZero);
      var allocated_amount := OrNum(allocation[i].allocated_amount, 0.0);
      if allocated_amount > 0.0 {
        non_zero_count := non_zero_count + 1;
      } else {
        zero_count := zero_count + 1;
      }
      i := i + 1;
    }
    assert allocation[..i] == allocation;
    ZeroCount(allocation);
    NoNonZeroMeansAllZero(allocation);
    warn := zero_count > 0 && non_zero_count == 0;
  }

  // ---------------------------------------------------------------------
  // First-match lookups

  /** The index of the first row whose key is `key`. */
  function FirstWith<T>(rows: seq<T>, keyOf: T -> Option<string>, key: string): (j: Option<nat>)
    ensures j.Some? ==> j.value < |rows| && keyOf(rows[j.value]) == Some(key)
    ensures j.Some? ==> forall k :: 0 <= k < j.value ==> keyOf(rows[k]) != Some(key)
    ensures j.None? <==> forall k :: 0 <= k < |rows| ==> keyOf(rows[k]) != Some(key)
  {
    if rows == [] then None
    else if keyOf(rows[0]) == Some(key) then Some(0)
    else
      match FirstWith(rows[1..], keyOf, key)
      case None => None
      case Some(j) => Some(j + 1)
  }

  /** Rows after the first match do not change what is found. */
  lemma {:induction false} FirstWithAppend<T>(a: seq<T>, b: seq<T>, keyOf: T -> Option<string>, key: string)
    requires FirstWith(a, keyOf, key).Some?
    ensures FirstWith(a + b, keyOf, key) == FirstWith(a, keyOf, key)
  {
    assert (a + b)[0] == a[0];
    if keyOf(a[0]) != Some(key) {
      assert (a + b)[1..] == a[1..] + b;
      FirstWithAppend(a[1..], b, keyOf, key);
    }
  }

  function PaymentKey(p: PaymentRow): Option<string> { p.reference_name }

  function InvoiceKey(i: InvoiceRow): Option<string> { i.voucher_no }

  /** `get_payment_amount`: 0 without a reference name or without
      payments; otherwise the amount of the first payment with that
      reference name (0 when it has none), and 0 when no payment has it. */
  function GetPaymentAmount(payments: seq<PaymentRow>, allocation: Allocation): (amount: real)
    ensures !Truthy(allocation.reference_name) || payments == [] ==> amount == 0.0
    ensures Truthy(allocation.reference_name) ==>
      (var j := FirstWith(payments, PaymentKey, allocation.reference_name.value);
       amount == if j.Some? then OrNum(payments[j.value].amount, 0.0) else 0.0)
  {
    var reference_name := allocation.reference_name;
    if !Truthy(reference_name) || payments == [] then 0.0
    else
      match FirstWith(payments, PaymentKey, reference_name.value)
      case Some(j) => OrNum(payments[j].amount, 0.0)
      case None => 0.0
  }

  /** `get_invoice_outstanding`: the same search on `voucher_no`, answering
      the outstanding amount. */
  function GetInvoiceOutstanding(invoices: seq<InvoiceRow>, allocation: Allocation): (amount: real)
    ensures !Truthy(allocation.voucher_no) || invoices == [] ==> amount == 0.0
    ensures Truthy(allocation.voucher_no) ==>
      (var j := FirstWith(invoices, InvoiceKey, allocation.voucher_no.value);
       amount == if j.Some? then OrNum(invoices[j.value].outstanding_amount, 0.0) else 0.0)
  {
    var voucher_no := allocation.voucher_no;
    if !Truthy(voucher_no) || invoices == [] then 0.0
    else
      match FirstWith(invoices, InvoiceKey, voucher_no.value)
      case Some(j) => OrNum(invoices[j].outstanding_amount, 0.0)
      case None => 0.0
  }

  /** A payment listed twice is read from its first row: rows added after
      a matching one do not change the amount. */
  lemma PaymentAmountIgnoresLaterRows(payments: seq<PaymentRow>, more: seq<PaymentRow>, allocation: Allocation)
    requires Truthy(allocation.reference_name)
    requires FirstWith(payments, PaymentKey, allocation.reference_name.value).Some?
    ensures GetPaymentAmount(payments + more, allocation) == GetPaymentAmount(payments, allocation)
  {
    FirstWithAppend(payments, more, PaymentKey, allocation.reference_name.value);
    var j := FirstWith(payments, PaymentKey, allocation.reference_name.value).value;
    assert (payments + more)[j] == payments[j];
  }

  lemma InvoiceOutstandingIgnoresLaterRows(invoices: seq<InvoiceRow>, more: seq<InvoiceRow>, allocation: Allocation)
    requires Truthy(allocation.voucher_no)
    requires FirstWith(invoices, InvoiceKey, allocation.voucher_no.value).Some?
    ensures GetInvoiceOutstanding(invoices + more, allocation) == GetInvoiceOutstanding(invoices, allocation)
  {
    FirstWithAppend(invoices, more, InvoiceKey, allocation.voucher_no.value);
    var j := FirstWith(invoices, InvoiceKey, allocation.voucher_no.value).value;
    assert (invoices + more)[j] == invoices[j];
  }

  /** A found amount is some payment row's amount. */
  lemma PaymentAmountFromARow(payments: seq<PaymentRow>, allocation: Allocation)
    requires GetPaymentAmount(payments, allocation) != 0.0
    ensures exists j :: (0 <= j < |payments| && payments[j].reference_name == allocation.reference_name
                         && payments[j].amount == Some(GetPaymentAmount(payments, allocation)))
  {
    var j := FirstWith(payments, PaymentKey, allocation.reference_name.value).value;
    assert payments[j].reference_name == allocation.reference_name;
  }

  // ---------------------------------------------------------------------
  // reconcile_wrapper

  /** `reconcile_wrapper` up to the standard reconciliation: with the
      feature on it drops the zero allocations (keeping the order) and
      says how many it skipped; with it off the allocations pass through
      unchanged. */
  method ReconcileWrapper(enabled: bool, allocation: seq<Allocation>)
    returns (passed: seq<Allocation>, skipped: Option<(nat, nat)>)
    ensures passed == if enabled then NonZeroAllocations(allocation) else allocation
    ensures skipped == if enabled && Count(allocation, IsZero) > 0
      then Some((Count(allocation, IsZero), |passed|)) else None
  {
    passed, skipped := allocation, None;
    ZeroCount(allocation);
    if enabled {
      if passed != [] {
        var original_count := |passed|;
        var non_zero_allocations := NonZeroAllocations(passed);
        var zero_count := original_count - |non_zero_allocations|;
        if zero_count > 0 {
          passed := non_zero_allocations;
          skipped := Some((zero_count, |non_zero_allocations|));
        } else {
          FilterWithoutZeros(allocation);
        }
      }
    }
  }
}
