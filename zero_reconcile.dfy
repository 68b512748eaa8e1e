/** The custom Payment Reconciliation controller: `zero_reconcile` drops
    the zero allocations, refuses when none remain, and turns every
    remaining allocation into one reconciliation entry, sorted into the
    list for invoices and journal entries or the list for payments. The
    call into the ERP's `reconcile_against_document` is represented by the
    batches it would be given. */
module ZeroReconcile {
  import opened Wrappers
  import opened StableSort
  import opened ReconciliationDoc

  const NotEnabled := "Zero Allocate feature is not enabled in PowerPack Settings"
  const NothingToReconcile := "No non-zero allocations to reconcile"

  /** The field that carries the amount: credit for a Customer, debit for
      any other party type. */
  datatype DrOrCr = CreditInAccountCurrency | DebitInAccountCurrency

  function DrOrCrFor(party_type: string): (d: DrOrCr)
    ensures d == CreditInAccountCurrency <==> party_type == "Customer"
  {
    if party_type == "Customer" then CreditInAccountCurrency else DebitInAccountCurrency
  }

  /** An accounting dimension: a dictionary with a `fieldname`, or a bare
      field name. */
  datatype Dimension = DictDimension(fieldname: Option<string>) | NamedDimension(name: string)

  function DimensionField(d: Dimension): Option<string> {
    match d
    case DictDimension(f) => f
    case NamedDimension(n) => Some(n)
  }

  /** `row.get(field)`. */
  function RowGet(row: Allocation, field: string): Option<string> {
    if field in row.dimensions then Some(row.dimensions[field]) else None
  }

  /** The dimension values copied onto an entry: every dimension whose
      field name is truthy, with the row's value for it. */
  function DimensionValues(dims: seq<Dimension>, row: Allocation): (m: map<string, Option<string>>)
    ensures forall f :: f in m <==> exists k :: 0 <= k < |dims| && Truthy(DimensionField(dims[k])) && DimensionField(dims[k]).value == f
    ensures forall f :: f in m ==> m[f] == RowGet(row, f)
  {
    if dims == [] then map[]
    else
      var n := |dims| - 1;
      var m0 := DimensionValues(dims[..n], row);
      assert forall k :: 0 <= k < n ==> dims[..n][k] == dims[k];
      var f := DimensionField(dims[n]);
      if Truthy(f) then m0[f.value := RowGet(row, f.value)] else m0
  }

  /** The document-level values every entry carries. */
  datatype Context = Context(
    party_type: string,
    party: string,
    receivable_payable_account: string,
    dimensions: seq<Dimension>)

  /** One reconciliation entry. */
  datatype Entry = Entry(
    voucher_type: string,
    voucher_no: Option<string>,
    against_voucher_type: string,
    against_voucher: string,
    account: string,
    party_type: string,
    party: string,
    is_advance: string,
    dr_or_cr: DrOrCr,
    unadjusted_amount: Option<real>,
    allocated_amount: Option<real>,
    exchange_rate: real,
    difference_amount: real,
    difference_account: Option<string>,
    exchange_gain_loss: real,
    dimensions: map<string, Option<string>>)

  /** The entry built from one allocation: its references and amounts,
      the document's party and account, exchange rate 1 and difference 0
      when the row leaves them missing (or zero), and the gain or loss
      equal to the difference. */
  function ToEntry(row: Allocation, ctx: Context): (e: Entry)
    ensures row.exchange_rate.None? || row.exchange_rate == Some(0.0) ==> e.exchange_rate == 1.0
    ensures row.difference_amount.None? ==> e.difference_amount == 0.0
    ensures e.exchange_gain_loss == e.difference_amount
  {
    Entry(
      row.reference_type, row.reference_name, row.invoice_type, row.invoice_number,
      ctx.receivable_payable_account, ctx.party_type, ctx.party, row.is_advance,
      DrOrCrFor(ctx.party_type), row.amount, row.allocated_amount,
      OrNum(row.exchange_rate, 1.0), OrNum(row.difference_amount, 0.0), row.difference_account,
      OrNum(row.difference_amount, 0.0), DimensionValues(ctx.dimensions, row))
  }

  /** Allocations against a Sales Invoice, Purchase Invoice or Journal
      Entry go to the notes list. */
  predicate IsNoteRow(row: Allocation) {
    row.reference_type in {"Sales Invoice", "Purchase Invoice", "Journal Entry"}
  }

  predicate IsEntryRow(row: Allocation) {
    !IsNoteRow(row)
  }

  function Entries(rows: seq<Allocation>, ctx: Context): (r: seq<Entry>)
    ensures |r| == |rows|
  {
    if rows == [] then []
    else Entries(rows[..|rows| - 1], ctx) + [ToEntry(rows[|rows| - 1], ctx)]
  }

  lemma {:induction false} EntriesAt(rows: seq<Allocation>, ctx: Context)
    ensures forall k :: 0 <= k < |rows| ==> Entries(rows, ctx)[k] == ToEntry(rows[k], ctx)
  {
    if rows != [] {
      var n := |rows| - 1;
      EntriesAt(rows[..n], ctx);
      assert forall k :: 0 <= k < n ==> rows[..n][k] == rows[k];
    }
  }

  lemma EntriesSnoc(rows: seq<Allocation>, x: Allocation, ctx: Context)
    ensures Entries(rows + [x], ctx) == Entries(rows, ctx) + [ToEntry(x, ctx)]
  {
    assert (rows + [x])[..|rows|] == rows;
  }

  /** The two lists the loop of `_reconcile_without_validation` holds
      after the rows `rows`: each row's entry appended to the list of its
      kind. */
  function Build(rows: seq<Allocation>, ctx: Context): (seq<Entry>, seq<Entry>) {
    if rows == [] then ([], [])
    else
      var prev := Build(rows[..|rows| - 1], ctx);
      var x := rows[|rows| - 1];
      if IsNoteRow(x) then (prev.0, prev.1 + [ToEntry(x, ctx)])
      else (prev.0 + [ToEntry(x, ctx)], prev.1)
  }

  /** The loop builds the entries of the entry rows and of the note rows. */
  lemma {:induction false} BuildPartition(rows: seq<Allocation>, ctx: Context)
    ensures Build(rows, ctx) == (Entries(Keep(rows, IsEntryRow), ctx), Entries(Keep(rows, IsNoteRow), ctx))
  {
    if rows != [] {
      var n := |rows| - 1;
      var init := rows[..n];
      BuildPartition(init, ctx);
      KeepSnoc(rows, n, IsEntryRow);
      KeepSnoc(rows, n, IsNoteRow);
      assert rows[..n + 1] == rows;
      if IsNoteRow(rows[n]) {
        EntriesSnoc(Keep(init, IsNoteRow), rows[n], ctx);
        assert Keep(init, IsEntryRow) + [] == Keep(init, IsEntryRow);
      } else {
        EntriesSnoc(Keep(init, IsEntryRow), rows[n], ctx);
        assert Keep(init, IsNoteRow) + [] == Keep(init, IsNoteRow);
      }
    }
  }

  /** Each allocation yields exactly one entry, in one of the two lists,
      and each list keeps the order of the allocations. */
  lemma {:induction false} PartitionSizes(rows: seq<Allocation>)
    ensures |Keep(rows, IsEntryRow)| + |Keep(rows, IsNoteRow)| == |rows|
  {
    KeepLength(rows, IsEntryRow);
    KeepLength(rows, IsNoteRow);
    CountSplit(rows, IsNoteRow, IsEntryRow);
  }

  /** A list's entries come from the rows of its kind. */
  lemma PartitionKinds(rows: seq<Allocation>, ctx: Context)
    ensures forall e :: e in Entries(Keep(rows, IsNoteRow), ctx) ==> e.voucher_type in {"Sales Invoice", "Purchase Invoice", "Journal Entry"}
    ensures forall e :: e in Entries(Keep(rows, IsEntryRow), ctx) ==> e.voucher_type !in {"Sales Invoice", "Purchase Invoice", "Journal Entry"}
  {
    EntriesAt(Keep(rows, IsNoteRow), ctx);
    EntriesAt(Keep(rows, IsEntryRow), ctx);
  }

  /** What `zero_reconcile` reports when it goes through: the filter
      notice (how many zero rows were dropped, how many remain) when it
      dropped any, and the batches handed to `reconcile_against_document`. */
  datatype Reconciled = Reconciled(filtered: Option<(nat, nat)>, batches: seq<seq<Entry>>)

  /** The controller: the document fields the feature reads and the
      allocation table it reassigns. */
  class CustomPaymentReconciliation {
    const party_type: string
    const party: string
    const receivable_payable_account: string
    const dimensions: seq<Dimension>
    var allocation: seq<Allocation>

    constructor (pt: string, p: string, account: string, dims: seq<Dimension>, rows: seq<Allocation>)
      ensures party_type == pt && party == p && receivable_payable_account == account
      ensures dimensions == dims && allocation == rows
    {
      party_type := pt;
      party := p;
      receivable_payable_account := account;
      dimensions := dims;
      allocation := rows;
    }

    function Ctx(): Context
      reads this
    {
      Context(party_type, party, receivable_payable_account, dimensions)
    }

    /** The loop of `_reconcile_without_validation`: one entry per
        allocation, appended to the notes list or the entry list. */
    method BuildEntries() returns (entry_list: seq<Entry>, notes: seq<Entry>)
      ensures entry_list == Entries(Keep(allocation, IsEntryRow), Ctx())
      ensures notes == Entries(Keep(allocation, IsNoteRow), Ctx())
    {
      var rows := allocation;
      var ctx := Ctx();
      entry_list, notes := [], [];
      var i := 0;
      while i < |rows|
        invariant 0 <= i <= |rows|
        invariant (entry_list, notes) == Build(rows[..i], ctx)
      {
        assert rows[..i + 1][..i] == rows[..i];
        var e := ToEntry(rows[i], ctx);
        if IsNoteRow(rows[i]) {
          notes := notes + [e];
        } else {
          entry_list := entry_list + [e];
        }
        i := i + 1;
      }
      assert rows[..i] == rows;
      BuildPartition(rows, ctx);
    }

    /** The filter step of `zero_reconcile`: keeps the non-zero
        allocations, reassigning the table only when that drops some, and
        reports how many were dropped and how many remain. */
    method FilterZeroAllocations() returns (filtered: Option<(nat, nat)>)
      modifies this
      ensures allocation == NonZeroAllocations(old(allocation))
      ensures filtered == if Count(old(allocation), IsZero) > 0
        then Some((Count(old(allocation), IsZero), |allocation|)) else None
    {
      filtered := None;
      ZeroCount(allocation);
      if allocation != [] {
        var original_count := |allocation|;
        var non_zero_allocations := NonZeroAllocations(allocation);
        var zero_count := original_count - |non_zero_allocations|;
        if zero_count > 0 {
          allocation := non_zero_allocations;
          filtered := Some((zero_count, |non_zero_allocations|));
        } else {
          FilterWithoutZeros(allocation);
        }
      }
    }

    /** `zero_reconcile`: fails when the feature is off; otherwise keeps
        the non-zero allocations, fails when none remain, and hands the
        entry list and then the notes list, each when not empty, to the
        reconciliation. */
    method ZeroReconcile(enabled: bool) returns (r: Result<Reconciled, string>)
      modifies this
      ensures !enabled ==> r == Failure(NotEnabled) && allocation == old(allocation)
      ensures enabled ==> allocation == NonZeroAllocations(old(allocation))
      ensures enabled && allocation == [] ==> r == Failure(NothingToReconcile)
      ensures enabled && allocation != [] ==> r.Success?
      ensures r.Success? ==>
        r.value.filtered == (if Count(old(allocation), IsZero) > 0 then Some((Count(old(allocation), IsZero), |allocation|)) else None)
      ensures r.Success? ==>
        r.value.batches == Batches(Entries(Keep(allocation, IsEntryRow), Ctx()), Entries(Keep(allocation, IsNoteRow), Ctx()))
    {
      if !enabled {
        return Failure(NotEnabled);
      }
      var filtered := FilterZeroAllocations();
      if allocation == [] {
        return Failure(NothingToReconcile);
      }
      var entry_list, notes := BuildEntries();
      return Success(Reconciled(filtered, Batches(entry_list, notes)));
    }
  }

  /** The calls to `reconcile_against_document`: the entry list, then the
      notes list, each only when it is not empty. */
  function Batches(entries: seq<Entry>, notes: seq<Entry>): (b: seq<seq<Entry>>)
    ensures forall k :: 0 <= k < |b| ==> b[k] != []
  {
    (if entries != [] then [entries] else []) + (if notes != [] then [notes] else [])
  }

  /** No entry is lost or duplicated across the calls. */
  lemma BatchesCover(entries: seq<Entry>, notes: seq<Entry>)
    ensures var b := Batches(entries, notes);
      && |b| <= 2
      && (|b| == 0 <==> entries == [] && notes == [])
      && (forall e :: e in entries || e in notes <==> exists k :: 0 <= k < |b| && e in b[k])
  {
    var b := Batches(entries, notes);
    forall e | e in entries || e in notes
      ensures exists k :: 0 <= k < |b| && e in b[k]
    {
      if e in entries {
        assert b[0] == entries;
      } else if entries == [] {
        assert b[0] == notes;
      } else {
        assert b[1] == notes;
      }
    }
  }

  /** Every entry carries a positive allocated amount. */
  predicate AllPositive(es: seq<Entry>) {
    forall k :: 0 <= k < |es| ==> OrNum(es[k].allocated_amount, 0.0) > 0.0
  }

  /** Nothing reaches the reconciliation with a zero amount, and every
      non-zero allocation yields exactly one entry. */
  lemma ReconciledRowsAreNonZero(rows: seq<Allocation>, ctx: Context)
    ensures |Entries(Keep(NonZeroAllocations(rows), IsEntryRow), ctx)|
          + |Entries(Keep(NonZeroAllocations(rows), IsNoteRow), ctx)| == Count(rows, IsNonZero)
    ensures AllPositive(Entries(Keep(NonZeroAllocations(rows), IsEntryRow), ctx))
    ensures AllPositive(Entries(Keep(NonZeroAllocations(rows), IsNoteRow), ctx))
  {
    var kept := NonZeroAllocations(rows);
    PartitionSizes(kept);
    KeepPreserves(kept, IsEntryRow, IsNonZero);
    KeepPreserves(kept, IsNoteRow, IsNonZero);
    EntriesAt(Keep(kept, IsEntryRow), ctx);
    EntriesAt(Keep(kept, IsNoteRow), ctx);
  }
}
