/** The rows of a Payment Reconciliation document that the zero-allocation
    feature reads, shared by the browser script and the server code, and
    the reading of "zero" they have in common: an allocation counts as
    non-zero only when its allocated amount, with a missing amount read as
    0, is above 0. */
module ReconciliationDoc {
  import opened Wrappers
  import opened StableSort

  /** Python's `x or d` on a number that may be `None`: `d` when `x` is
      missing or zero. */
  function OrNum(x: Option<real>, d: real): (r: real)
    ensures x.Some? && x.value != 0.0 ==> r == x.value
    ensures x.None? || x.value == 0.0 ==> r == d
  {
    if x.Some? && x.value != 0.0 then x.value else d
  }

  /** A string Python (and JavaScript) treat as true: present and not
      empty. */
  predicate Truthy(s: Option<string>) {
    s.Some? && s.value != ""
  }

  /** A row of the payments table. */
  datatype PaymentRow = PaymentRow(
    reference_type: string,
    reference_name: Option<string>,
    amount: Option<real>,
    checked: bool)

  /** A row of the invoices table. */
  datatype InvoiceRow = InvoiceRow(
    invoice_type: string,
    invoice_number: string,
    voucher_no: Option<string>,
    outstanding_amount: Option<real>,
    checked: bool)

  /** A row of the allocation table; `dimensions` holds the accounting
      dimension fields the row carries. */
  datatype Allocation = Allocation(
    reference_type: string,
    reference_name: Option<string>,
    invoice_type: string,
    invoice_number: string,
    voucher_no: Option<string>,
    is_advance: string,
    amount: Option<real>,
    allocated_amount: Option<real>,
    exchange_rate: Option<real>,
    difference_amount: Option<real>,
    difference_account: Option<string>,
    dimensions: map<string, string>)

  /** `(alloc.allocated_amount or 0) > 0`; JavaScript's `|| 0` reads the
      same. */
  predicate IsNonZero(a: Allocation) {
    OrNum(a.allocated_amount, 0.0) > 0.0
  }

  /** Everything else counts as zero, negative amounts included. */
  predicate IsZero(a: Allocation) {
    !IsNonZero(a)
  }

  /** The list comprehension both server paths use: the non-zero
      allocations, in their original order. */
  function NonZeroAllocations(s: seq<Allocation>): (r: seq<Allocation>)
    ensures forall k :: 0 <= k < |r| ==> IsNonZero(r[k])
    ensures forall k :: 0 <= k < |s| && IsNonZero(s[k]) ==> s[k] in r
    ensures |r| == Count(s, IsNonZero)
  {
    KeepLength(s, IsNonZero);
    Keep(s, IsNonZero)
  }

  /** Every allocation is either non-zero or zero, so the zero count is
      the total less the non-zero count. */
  lemma ZeroCount(s: seq<Allocation>)
    ensures Count(s, IsZero) == |s| - Count(s, IsNonZero)
    ensures Count(s, IsZero) == |s| - |NonZeroAllocations(s)|
  {
    CountSplit(s, IsNonZero, IsZero);
  }

  lemma {:induction false} NoneCounted(s: seq<Allocation>)
    requires Count(s, IsZero) == 0
    ensures forall k :: 0 <= k < |s| ==> IsNonZero(s[k])
  {
    if s != [] {
      NoneCounted(s[1..]);
      assert forall k :: 1 <= k < |s| ==> s[k] == s[1..][k - 1];
    }
  }

  /** Without zero allocations the filter changes nothing, so assigning
      its result only when something was dropped gives the filtered table
      either way. */
  lemma FilterWithoutZeros(s: seq<Allocation>)
    requires Count(s, IsZero) == 0
    ensures NonZeroAllocations(s) == s
  {
    NoneCounted(s);
    KeepAll(s, IsNonZero);
  }

  /** The filter keeps nothing exactly when every allocation is zero. */
  lemma {:induction false} NothingKept(s: seq<Allocation>)
    ensures NonZeroAllocations(s) == [] <==> forall k :: 0 <= k < |s| ==> IsZero(s[k])
  {
    if s != [] {
      NothingKept(s[1..]);
      assert forall k :: 1 <= k < |s| ==> s[k] == s[1..][k - 1];
      assert Keep(s, IsNonZero) == (if IsNonZero(s[0]) then [s[0]] else []) + Keep(s[1..], IsNonZero);
    }
  }
}
