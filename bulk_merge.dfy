/** `add_items_to_doc`: the merge of the items picked in the bulk dialog
    into the form's items table. Rows without an item code are removed
    first; then each picked item either sets the qty of the first existing
    row of its code, or is appended as a new row. */
module BulkMerge {
  import opened Wrappers
  import opened StableSort
  import opened BulkSearch
  import opened BulkForm
  import opened BulkDialog

  predicate HasCode(r: DocRow) { r.item_code != "" }

  /** The form a merge writes into: the doctype, the warehouse the dialog
      was opened with, and the header fields. */
  datatype Target = Target(dt: Doctype, warehouse: Option<string>, doc: FormDoc)

  /** `existing_items[code][0]`: the index of the first row with `code`. */
  function FirstIndex(rows: seq<DocRow>, code: string): (r: Option<nat>)
    ensures r.Some? ==> r.value < |rows| && rows[r.value].item_code == code
    ensures r.Some? ==> forall j :: 0 <= j < r.value ==> rows[j].item_code != code
    ensures r.None? <==> forall k :: 0 <= k < |rows| ==> rows[k].item_code != code
  {
    if rows == [] then None
    else if rows[0].item_code == code then Some(0)
    else
      assert forall k :: 1 <= k < |rows| ==> rows[k] == rows[1..][k - 1];
      var r := FirstIndex(rows[1..], code);
      if r.None? then None else Some(r.value + 1)
  }

  /** The row `frm.add_child` creates and the fields then set on it: the
      item code and qty always; the warehouse on a Stock Reconciliation;
      the source and target warehouses of a Stock Entry when set; the
      warehouse on a sales doctype that requires one, when known. Rates
      are left for the form to fill in. */
  function NewRow(t: Target, s: Selected): (r: DocRow)
    ensures r.item_code == s.item.item_code && r.qty == s.qty
    ensures t.dt == StockReconciliation ==> r.warehouse == t.warehouse.GetOr("")
    ensures t.dt == StockEntry ==>
      r.warehouse == "" && r.s_warehouse == t.doc.from_warehouse && r.t_warehouse == t.doc.to_warehouse
    ensures !ConfigOf(t.dt).isStock ==>
      r.warehouse == (if ConfigOf(t.dt).requiresWarehouse && t.warehouse.Some? then t.warehouse.value else "")
      && r.s_warehouse == "" && r.t_warehouse == ""
  {
    var base := DocRow(s.item.item_code, s.qty, 0.0, 0.0, "", "", "");
    if t.dt == StockReconciliation then base.(warehouse := t.warehouse.GetOr(""))
    else if t.dt == StockEntry then base.(s_warehouse := t.doc.from_warehouse, t_warehouse := t.doc.to_warehouse)
    else if ConfigOf(t.dt).requiresWarehouse && t.warehouse.Some? then base.(warehouse := t.warehouse.value)
    else base
  }

  /** One picked item, against the rows found before the first one
      (`base`), applied to the current rows. */
  function Apply(cur: seq<DocRow>, base: seq<DocRow>, s: Selected, t: Target): (r: seq<DocRow>)
    requires |base| <= |cur|
    ensures |r| >= |cur|
  {
    var i := FirstIndex(base, s.item.item_code);
    if i.Some? then cur[i.value := cur[i.value].(qty := s.qty)] else cur + [NewRow(t, s)]
  }

  /** The rows once every picked item is applied, in order. */
  function Merged(base: seq<DocRow>, sel: seq<Selected>, t: Target): (r: seq<DocRow>)
    ensures |r| >= |base|
  {
    if sel == [] then base
    else Apply(Merged(base, sel[..|sel| - 1], t), base, sel[|sel| - 1], t)
  }

  /** The picked items that update a row, and those that add one. */
  function UpdateCount(base: seq<DocRow>, sel: seq<Selected>): nat {
    if sel == [] then 0
    else UpdateCount(base, sel[..|sel| - 1]) + (if FirstIndex(base, sel[|sel| - 1].item.item_code).Some? then 1 else 0)
  }

  /** The rows appended, in the order of the picked items. */
  function NewRows(base: seq<DocRow>, sel: seq<Selected>, t: Target): seq<DocRow> {
    if sel == [] then []
    else
      var s := sel[|sel| - 1];
      NewRows(base, sel[..|sel| - 1], t) + (if FirstIndex(base, s.item.item_code).None? then [NewRow(t, s)] else [])
  }

  predicate DistinctCodes(sel: seq<Selected>) {
    forall i, j :: 0 <= i < j < |sel| ==> sel[i].item.item_code != sel[j].item.item_code
  }

  /** The merged table is the rows found, with some qtys changed, followed
      by the new rows; every picked item either updates or adds. */
  lemma {:induction false} MergedShape(base: seq<DocRow>, sel: seq<Selected>, t: Target)
    ensures var m := Merged(base, sel, t);
      && |m| == |base| + |NewRows(base, sel, t)|
      && m[|base|..] == NewRows(base, sel, t)
      && UpdateCount(base, sel) + |NewRows(base, sel, t)| == |sel|
      && forall i :: 0 <= i < |base| ==>
           m[i].item_code == base[i].item_code && m[i] == base[i].(qty := m[i].qty)
    decreases |sel|
  {
    if sel != [] {
      var init := sel[..|sel| - 1];
      MergedShape(base, init, t);
      var prev := Merged(base, init, t);
      var s := sel[|sel| - 1];
      var idx := FirstIndex(base, s.item.item_code);
      if idx.None? {
        assert Merged(base, sel, t) == prev + [NewRow(t, s)];
        assert (prev + [NewRow(t, s)])[|base|..] == prev[|base|..] + [NewRow(t, s)];
      } else {
        assert Merged(base, sel, t)[|base|..] == prev[|base|..];
      }
    }
  }

  /** With distinct codes, the first row of each picked code that was
      already on the form gets the picked qty. */
  lemma {:induction false} MergedQtys(base: seq<DocRow>, sel: seq<Selected>, t: Target)
    requires DistinctCodes(sel)
    ensures forall k :: 0 <= k < |sel| && FirstIndex(base, sel[k].item.item_code).Some? ==>
      Merged(base, sel, t)[FirstIndex(base, sel[k].item.item_code).value].qty == sel[k].qty
    decreases |sel|
  {
    if sel != [] {
      var init := sel[..|sel| - 1];
      assert forall k :: 0 <= k < |init| ==> init[k] == sel[k];
      MergedQtys(base, init, t);
      var s := sel[|sel| - 1];
      var idx := FirstIndex(base, s.item.item_code);
      forall k | 0 <= k < |init| && FirstIndex(base, sel[k].item.item_code).Some?
        ensures Merged(base, sel, t)[FirstIndex(base, sel[k].item.item_code).value].qty == sel[k].qty
      {
        var j := FirstIndex(base, sel[k].item.item_code).value;
        assert base[j].item_code == sel[k].item.item_code;
        if idx.Some? {
          assert base[idx.value].item_code == s.item.item_code;
          assert j != idx.value;
        }
      }
    }
  }

  /** A row that is no picked code's first row is left exactly as it was. */
  lemma {:induction false} MergedUntouched(base: seq<DocRow>, sel: seq<Selected>, t: Target, i: nat)
    requires i < |base|
    requires forall k :: 0 <= k < |sel| ==> FirstIndex(base, sel[k].item.item_code) != Some(i)
    ensures Merged(base, sel, t)[i] == base[i]
    decreases |sel|
  {
    if sel != [] {
      var init := sel[..|sel| - 1];
      assert forall k :: 0 <= k < |init| ==> init[k] == sel[k];
      MergedUntouched(base, init, t, i);
    }
  }

  /** What the counters report. */
  /** One more picked item: the recurrences take one step. */
  lemma MergeStep(base: seq<DocRow>, sel: seq<Selected>, i: nat, t: Target)
    requires i < |sel|
    ensures Merged(base, sel[..i + 1], t) == Apply(Merged(base, sel[..i], t), base, sel[i], t)
    ensures UpdateCount(base, sel[..i + 1])
      == UpdateCount(base, sel[..i]) + (if FirstIndex(base, sel[i].item.item_code).Some? then 1 else 0)
    ensures NewRows(base, sel[..i + 1], t)
      == NewRows(base, sel[..i], t) + (if FirstIndex(base, sel[i].item.item_code).None? then [NewRow(t, sel[i])] else [])
  {
    assert sel[..i + 1][..i] == sel[..i];
  }

  lemma MergeDone(base: seq<DocRow>, sel: seq<Selected>, t: Target)
    ensures Merged(base, sel[..|sel|], t) == Merged(base, sel, t)
    ensures UpdateCount(base, sel[..|sel|]) == UpdateCount(base, sel)
    ensures NewRows(base, sel[..|sel|], t) == NewRows(base, sel, t)
  {
    assert sel[..|sel|] == sel;
  }

  lemma CountsAddUp(base: seq<DocRow>, sel: seq<Selected>, t: Target)
    ensures UpdateCount(base, sel) + |NewRows(base, sel, t)| == |sel|
  {
    MergedShape(base, sel, t);
  }

  // ---------------------------------------------------------------------
  // The items table of a form

  class ItemTable {
    var rows: seq<DocRow>

    constructor (r: seq<DocRow>)
      ensures rows == r
    {
      rows := r;
    }

    /** Step 1: remove the rows without an item code. */
    method RemoveEmptyRows()
      modifies this
      ensures rows == Keep(old(rows), HasCode)
    {
      var src := rows;
      var kept := [];
      var i := 0;
      while i < |src|
        invariant 0 <= i <= |src|
        invariant kept == Keep(src[..i], HasCode)
      {
        KeepSnoc(src, i, HasCode);
        if src[i].item_code != "" {
          kept := kept + [src[i]];
        }
        i := i + 1;
      }
      assert src[..i] == src;
      rows := kept;
    }

    /** `add_items_to_doc`: the rows afterwards and the `added` and
        `updated` counters. */
    method AddItemsToDoc(selected: seq<Selected>, t: Target) returns (added: nat, updated: nat)
      modifies this
      ensures rows == Merged(Keep(old(rows), HasCode), selected, t)
      ensures updated == UpdateCount(Keep(old(rows), HasCode), selected)
      ensures added == |NewRows(Keep(old(rows), HasCode), selected, t)|
      ensures added + updated == |selected|
    {
      RemoveEmptyRows();
      var merged;
      merged, added, updated := MergeRows(rows, selected, t);
      rows := merged;
    }
  }

  /** The loop of `add_items_to_doc` over the rows left after the empty
      ones are dropped: a picked item whose code is on a row sets that
      row's qty, any other is appended as a new row. */
  method MergeRows(base: seq<DocRow>, selected: seq<Selected>, t: Target)
    returns (cur: seq<DocRow>, added: nat, updated: nat)
    ensures cur == Merged(base, selected, t)
    ensures updated == UpdateCount(base, selected)
    ensures added == |NewRows(base, selected, t)|
    ensures added + updated == |selected|
  {
    cur := base;
    added, updated := 0, 0;
    var i := 0;
    while i < |selected|
      invariant 0 <= i <= |selected|
      invariant |cur| >= |base|
      invariant cur == Merged(base, selected[..i], t)
      invariant updated == UpdateCount(base, selected[..i])
      invariant added == |NewRows(base, selected[..i], t)|
    {
      var s := selected[i];
      MergeStep(base, selected, i, t);
      var idx := FirstIndex(base, s.item.item_code);
      if idx.Some? {
        updated := updated + 1;
        cur := cur[idx.value := cur[idx.value].(qty := s.qty)];
      } else {
        added := added + 1;
        cur := cur + [NewRow(t, s)];
      }
      i := i + 1;
    }
    MergeDone(base, selected, t);
    CountsAddUp(base, selected, t);
  }

  // ---------------------------------------------------------------------
  // Duplicate rows of one code

  /** The total qty of the rows with `code`. */
  function QtyOf(rows: seq<DocRow>, code: string): real {
    if rows == [] then 0.0
    else (if rows[0].item_code == code then rows[0].qty else 0.0) + QtyOf(rows[1..], code)
  }

  /** Two rows of the same item: the dialog starts at their sum, and adding
      that unchanged sets the first row to the sum while the second keeps
      its qty, so the form ends with more of the item than the dialog
      showed. */
  lemma DuplicateRowsInflate(t: Target, it: BulkItem)
    requires it.item_code == "A"
    ensures var base := [DocRow("A", 2.0, 0.0, 0.0, "", "", ""), DocRow("A", 2.0, 0.0, 0.0, "", "", "")];
      && SeedTotal(base, "A") == 4.0
      && QtyOf(Merged(base, [Selected(it, 4.0)], t), "A") == 6.0
  {
    var base := [DocRow("A", 2.0, 0.0, 0.0, "", "", ""), DocRow("A", 2.0, 0.0, 0.0, "", "", "")];
    assert base[..1] == [base[0]] && base[..1][..0] == [];
    var sel := [Selected(it, 4.0)];
    assert sel[..0] == [];
    assert FirstIndex(base, "A") == Some(0);
    assert Merged(base, sel[..0], t) == base;
    var m := Merged(base, sel, t);
    assert m == Apply(base, base, sel[0], t);
    assert m == [base[0].(qty := 4.0), base[1]];
    assert m[1..] == [base[1]] && m[1..][1..] == [];
    assert QtyOf(m[1..], "A") == 2.0;
    assert QtyOf(m, "A") == 6.0;
    assert base[1..] == [base[1]] && base[1..][1..] == [];
    assert SeedTotal(base, "A") == 4.0;
  }

  /** The corrected merge: the first row of a picked code takes the picked
      qty and the code's later rows are dropped, so the form holds exactly
      the qty the dialog showed. */
  function DropCode(rows: seq<DocRow>, code: string): seq<DocRow> {
    if rows == [] then []
    else (if rows[0].item_code == code then [] else [rows[0]]) + DropCode(rows[1..], code)
  }

  function KeepFirstOnly(rows: seq<DocRow>, code: string, qty: real): seq<DocRow> {
    if rows == [] then []
    else if rows[0].item_code == code then [rows[0].(qty := qty)] + DropCode(rows[1..], code)
    else [rows[0]] + KeepFirstOnly(rows[1..], code, qty)
  }

  function ApplyFixed(cur: seq<DocRow>, s: Selected, t: Target): seq<DocRow> {
    if FirstIndex(cur, s.item.item_code).Some? then KeepFirstOnly(cur, s.item.item_code, s.qty)
    else cur + [NewRow(t, s)]
  }

  function MergedFixed(base: seq<DocRow>, sel: seq<Selected>, t: Target): seq<DocRow> {
    if sel == [] then base
    else ApplyFixed(MergedFixed(base, sel[..|sel| - 1], t), sel[|sel| - 1], t)
  }

  lemma {:induction false} QtyOfAppend(a: seq<DocRow>, b: seq<DocRow>, code: string)
    ensures QtyOf(a + b, code) == QtyOf(a, code) + QtyOf(b, code)
  {
    if a == [] {
      assert a + b == b;
    } else {
      assert (a + b)[0] == a[0] && (a + b)[1..] == a[1..] + b;
      QtyOfAppend(a[1..], b, code);
    }
  }

  lemma {:induction false} QtyOfDropCode(rows: seq<DocRow>, code: string, other: string)
    ensures QtyOf(DropCode(rows, code), code) == 0.0
    ensures other != code ==> QtyOf(DropCode(rows, code), other) == QtyOf(rows, other)
  {
    if rows != [] {
      QtyOfDropCode(rows[1..], code, other);
      var h := if rows[0].item_code == code then [] else [rows[0]];
      QtyOfAppend(h, DropCode(rows[1..], code), code);
      QtyOfAppend(h, DropCode(rows[1..], code), other);
    }
  }

  lemma {:induction false} QtyOfKeepFirstOnly(rows: seq<DocRow>, code: string, qty: real, other: string)
    requires FirstIndex(rows, code).Some?
    ensures QtyOf(KeepFirstOnly(rows, code, qty), code) == qty
    ensures other != code ==> QtyOf(KeepFirstOnly(rows, code, qty), other) == QtyOf(rows, other)
  {
    var h := rows[0];
    if h.item_code == code {
      QtyOfDropCode(rows[1..], code, other);
      QtyOfAppend([h.(qty := qty)], DropCode(rows[1..], code), code);
      QtyOfAppend([h.(qty := qty)], DropCode(rows[1..], code), other);
    } else {
      QtyOfKeepFirstOnly(rows[1..], code, qty, other);
      QtyOfAppend([h], KeepFirstOnly(rows[1..], code, qty), code);
      QtyOfAppend([h], KeepFirstOnly(rows[1..], code, qty), other);
    }
  }

  /** One corrected step sets its code's total and leaves every other
      code's total alone. */
  lemma ApplyFixedQty(cur: seq<DocRow>, s: Selected, t: Target, other: string)
    ensures QtyOf(ApplyFixed(cur, s, t), s.item.item_code) == s.qty
    ensures other != s.item.item_code ==> QtyOf(ApplyFixed(cur, s, t), other) == QtyOf(cur, other)
  {
    var code := s.item.item_code;
    if FirstIndex(cur, code).Some? {
      QtyOfKeepFirstOnly(cur, code, s.qty, other);
    } else {
      var r := NewRow(t, s);
      QtyOfAppend(cur, [r], code);
      QtyOfAppend(cur, [r], other);
      assert [r][1..] == [];
      QtyOfZero(cur, code);
    }
  }

  lemma {:induction false} QtyOfZero(rows: seq<DocRow>, code: string)
    requires forall k :: 0 <= k < |rows| ==> rows[k].item_code != code
    ensures QtyOf(rows, code) == 0.0
  {
    if rows != [] {
      QtyOfZero(rows[1..], code);
    }
  }

  /** After the corrected merge, the form holds exactly the picked qty of
      every picked code. */
  lemma {:induction false} MergedFixedQtys(base: seq<DocRow>, sel: seq<Selected>, t: Target)
    requires DistinctCodes(sel)
    ensures forall k :: 0 <= k < |sel| ==> QtyOf(MergedFixed(base, sel, t), sel[k].item.item_code) == sel[k].qty
    decreases |sel|
  {
    if sel != [] {
      var init := sel[..|sel| - 1];
      assert forall k :: 0 <= k < |init| ==> init[k] == sel[k];
      MergedFixedQtys(base, init, t);
      var s := sel[|sel| - 1];
      var prev := MergedFixed(base, init, t);
      forall k | 0 <= k < |sel|
        ensures QtyOf(MergedFixed(base, sel, t), sel[k].item.item_code) == sel[k].qty
      {
        ApplyFixedQty(prev, s, t, sel[k].item.item_code);
      }
    }
  }

  /** On the two duplicate rows the corrected merge leaves the qty the
      dialog showed. */
  lemma DuplicateRowsFixed(t: Target, it: BulkItem)
    requires it.item_code == "A"
    ensures var base := [DocRow("A", 2.0, 0.0, 0.0, "", "", ""), DocRow("A", 2.0, 0.0, 0.0, "", "", "")];
      QtyOf(MergedFixed(base, [Selected(it, SeedTotal(base, "A"))], t), "A") == SeedTotal(base, "A")
  {
    var base := [DocRow("A", 2.0, 0.0, 0.0, "", "", ""), DocRow("A", 2.0, 0.0, 0.0, "", "", "")];
    var sel := [Selected(it, SeedTotal(base, "A"))];
    MergedFixedQtys(base, sel, t);
  }
}
