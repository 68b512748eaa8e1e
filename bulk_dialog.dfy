/** The state of one bulk item selection dialog: the page shown, the sort
    column and direction, the filtered rows, and the `quantities` the user
    has entered, keyed by item code. Event handlers of the dialog are the
    methods of `ItemDialog`. */
module BulkDialog {
  import opened Wrappers
  import opened StableSort
  import opened BulkSearch
  import opened BulkForm
  import opened ProfitCalculator

  /** A row of the form's items table, as far as the dialog and the merge
      read and write it; an unset text field is the empty string and an
      unset number 0. */
  datatype DocRow = DocRow(
    item_code: string, qty: real, rate: real, net_rate: real,
    warehouse: string, s_warehouse: string, t_warehouse: string)

  // ---------------------------------------------------------------------
  // The quantities map, with its keys in insertion order (the order a
  // `for..in` loop visits them)

  /** No quantity is negative, and `order` lists every key exactly once. */
  predicate QtyValid(q: map<string, real>, order: seq<string>) {
    && (forall c :: c in q ==> q[c] >= 0.0)
    && (forall i :: 0 <= i < |order| ==> order[i] in q)
    && (forall c :: c in q ==> c in order)
    && Distinct(order)
  }

  /** `state.quantities[code] = v`: a new key goes to the end of the order. */
  function PutOrder(q: map<string, real>, order: seq<string>, code: string): seq<string> {
    if code in q then order else order + [code]
  }

  lemma PutValid(q: map<string, real>, order: seq<string>, code: string, v: real)
    requires QtyValid(q, order) && v >= 0.0
    ensures QtyValid(q[code := v], PutOrder(q, order, code))
  {
    var o := PutOrder(q, order, code);
    if code !in q {
      assert o[|order|] == code;
      assert forall i :: 0 <= i < |order| ==> o[i] == order[i];
      forall c | c in q[code := v]
        ensures c in o
      {
        if c != code {
          var i :| 0 <= i < |order| && order[i] == c;
          assert o[i] == c;
        }
      }
    }
  }

  /** The quantity the dialog starts with for `code`: the sum of the qtys
      of the form's rows with that code and a positive qty. */
  function SeedTotal(rows: seq<DocRow>, code: string): real
  {
    if rows == [] then 0.0
    else
      var last := rows[|rows| - 1];
      SeedTotal(rows[..|rows| - 1], code) + (if last.item_code == code && last.qty > 0.0 then last.qty else 0.0)
  }

  predicate Seeds(r: DocRow) {
    r.item_code != "" && r.qty > 0.0
  }

  predicate SeededCode(rows: seq<DocRow>, code: string) {
    exists k :: 0 <= k < |rows| && Seeds(rows[k]) && rows[k].item_code == code
  }

  /** A code with a seeding row has a positive total. */
  lemma {:induction false} SeedTotalPositive(rows: seq<DocRow>, code: string)
    requires SeededCode(rows, code)
    ensures SeedTotal(rows, code) > 0.0
    decreases |rows|
  {
    var k :| 0 <= k < |rows| && Seeds(rows[k]) && rows[k].item_code == code;
    var init := rows[..|rows| - 1];
    SeedTotalNonNegative(init, code);
    if k < |rows| - 1 {
      assert init[k] == rows[k];
      SeedTotalPositive(init, code);
    }
  }

  lemma {:induction false} SeedTotalNonNegative(rows: seq<DocRow>, code: string)
    ensures SeedTotal(rows, code) >= 0.0
    decreases |rows|
  {
    if rows != [] {
      SeedTotalNonNegative(rows[..|rows| - 1], code);
    }
  }

  /** `q` and `order` are what seeding has made of the rows `p`. */
  ghost predicate SeededFrom(p: seq<DocRow>, q: map<string, real>, order: seq<string>) {
    && QtyValid(q, order)
    && (forall c :: c in q <==> SeededCode(p, c))
    && (forall c :: c in q ==> q[c] == SeedTotal(p, c))
  }

  lemma SeedTotalSnoc(p: seq<DocRow>, row: DocRow, c: string)
    ensures SeedTotal(p + [row], c) == SeedTotal(p, c) + (if row.item_code == c && row.qty > 0.0 then row.qty else 0.0)
  {
    assert (p + [row])[..|p|] == p;
  }

  lemma SeededCodeSnoc(p: seq<DocRow>, row: DocRow, c: string)
    ensures SeededCode(p + [row], c) <==> SeededCode(p, c) || (Seeds(row) && row.item_code == c)
  {
    var r := p + [row];
    if SeededCode(r, c) {
      var k :| 0 <= k < |r| && Seeds(r[k]) && r[k].item_code == c;
      if k < |p| {
        assert r[k] == p[k];
      }
    }
    if SeededCode(p, c) {
      var k :| 0 <= k < |p| && Seeds(p[k]) && p[k].item_code == c;
      assert r[k] == p[k];
    }
    assert r[|p|] == row;
  }

  /** One step of the seeding loop: a seeding row adds its qty to its
      code, any other row changes nothing. */
  lemma SeedStep(p: seq<DocRow>, row: DocRow, q: map<string, real>, order: seq<string>)
    requires SeededFrom(p, q, order)
    ensures Seeds(row) ==>
      var before := if row.item_code in q then q[row.item_code] else 0.0;
      SeededFrom(p + [row], q[row.item_code := before + row.qty], PutOrder(q, order, row.item_code))
    ensures !Seeds(row) ==> SeededFrom(p + [row], q, order)
  {
    if Seeds(row) {
      SeedAdd(p, row, q, order);
    } else {
      SeedSkip(p, row, q, order);
    }
  }

  lemma SeedSkip(p: seq<DocRow>, row: DocRow, q: map<string, real>, order: seq<string>)
    requires SeededFrom(p, q, order) && !Seeds(row)
    ensures SeededFrom(p + [row], q, order)
  {
    forall c
      ensures (c in q <==> SeededCode(p + [row], c)) && (c in q ==> q[c] == SeedTotal(p + [row], c))
    {
      SeededCodeSnoc(p, row, c);
      SeedTotalSnoc(p, row, c);
    }
  }

  lemma SeedAdd(p: seq<DocRow>, row: DocRow, q: map<string, real>, order: seq<string>)
    requires SeededFrom(p, q, order) && Seeds(row)
    ensures var before := if row.item_code in q then q[row.item_code] else 0.0;
      SeededFrom(p + [row], q[row.item_code := before + row.qty], PutOrder(q, order, row.item_code))
  {
    var code := row.item_code;
    var before := if code in q then q[code] else 0.0;
    var q1 := q[code := before + row.qty];
    if code !in q {
      assert !SeededCode(p, code);
      SeedTotalZero(p, code);
    }
    SeedTotalNonNegative(p, code);
    PutValid(q, order, code, before + row.qty);
    forall c
      ensures (c in q1 <==> SeededCode(p + [row], c)) && (c in q1 ==> q1[c] == SeedTotal(p + [row], c))
    {
      SeededCodeSnoc(p, row, c);
      SeedTotalSnoc(p, row, c);
    }
  }

  /** The seeding `forEach` over the form's rows. */
  method SeedQuantities(rows: seq<DocRow>) returns (q: map<string, real>, order: seq<string>)
    ensures QtyValid(q, order)
    ensures forall c :: c in q <==> SeededCode(rows, c)
    ensures forall c :: c in q ==> q[c] == SeedTotal(rows, c) && q[c] > 0.0
  {
    q, order := map[], [];
    var i := 0;
    while i < |rows|
      invariant 0 <= i <= |rows|
      invariant SeededFrom(rows[..i], q, order)
    {
      var row := rows[i];
      assert rows[..i + 1] == rows[..i] + [row];
      SeedStep(rows[..i], row, q, order);
      if row.item_code != "" && row.qty > 0.0 {
        var before := if row.item_code in q then q[row.item_code] else 0.0;
        order := PutOrder(q, order, row.item_code);
        q := q[row.item_code := before + row.qty];
      }
      i := i + 1;
    }
    assert rows[..i] == rows;
    forall c | c in q
      ensures q[c] > 0.0
    {
      SeedTotalPositive(rows, c);
    }
  }

  /** Rows that do not seed `code` add nothing to its total. */
  lemma {:induction false} SeedTotalZero(rows: seq<DocRow>, code: string)
    requires forall k :: 0 <= k < |rows| && Seeds(rows[k]) ==> rows[k].item_code != code
    requires code != ""
    ensures SeedTotal(rows, code) == 0.0
    decreases |rows|
  {
    if rows != [] {
      var init := rows[..|rows| - 1];
      assert forall k :: 0 <= k < |init| ==> init[k] == rows[k];
      SeedTotalZero(init, code);
    }
  }

  // ---------------------------------------------------------------------
  // Pages

  /** `Math.max(1, Math.min(page, total_pages))`. */
  function ClampPage(page: int, total: int): (p: int)
    requires total >= 1
    ensures 1 <= p <= total
    ensures 1 <= page <= total ==> p == page
    ensures page < 1 ==> p == 1
    ensures page > total ==> p == total
  {
    if page > total then total else if page < 1 then 1 else page
  }

  /** The page typed into the page box: `parseInt(v) || 1`, so both a
      non-number and 0 go to page 1. */
  function TypedPage(v: Option<int>): (p: int)
    ensures v.None? || v == Some(0) ==> p == 1
    ensures v.Some? && v.value != 0 ==> p == v.value
  {
    if v.None? || v.value == 0 then 1 else v.value
  }

  /** The "previous" and "next" buttons never leave the valid pages, and
      "previous" on the first page (or "next" on the last) stays put. */
  lemma PrevNextClamp(current: int, total: int)
    requires 1 <= current <= total
    ensures ClampPage(current - 1, total) == if current == 1 then 1 else current - 1
    ensures ClampPage(current + 1, total) == if current == total then total else current + 1
  {
  }

  /** A selected item as "Add Selected" passes it on: the item's fields
      and the quantity entered. */
  datatype Selected = Selected(item: BulkItem, qty: real)

  function CodeOfItem(it: BulkItem): string { it.item_code }

  function CodeOfRow(r: DocRow): string { r.item_code }

  /** The item codes of the rows a page draws, in their order. */
  function CodesOf(rows: seq<BulkItem>): (r: seq<string>)
    ensures |r| == |rows| && forall i :: 0 <= i < |rows| ==> r[i] == rows[i].item_code
  {
    seq(|rows|, i requires 0 <= i < |rows| => rows[i].item_code)
  }

  /** `list.find(i => i.item_code === code)`, over the dialog's items
      (`codeOf` is CodeOfItem) or the form's rows (CodeOfRow). */
  function FindBy<T>(xs: seq<T>, codeOf: T -> string, code: string): (r: Option<T>)
    ensures r.Some? ==> r.value in xs && codeOf(r.value) == code
    ensures r.None? <==> forall k :: 0 <= k < |xs| ==> codeOf(xs[k]) != code
  {
    if xs == [] then None
    else if codeOf(xs[0]) == code then Some(xs[0])
    else
      assert forall k :: 1 <= k < |xs| ==> xs[k] == xs[1..][k - 1];
      FindBy(xs[1..], codeOf, code)
  }

  /** The first match: no earlier element has the code. */
  lemma {:induction false} FindByIsFirst<T>(xs: seq<T>, codeOf: T -> string, code: string)
    requires FindBy(xs, codeOf, code).Some?
    ensures exists k :: 0 <= k < |xs| && xs[k] == FindBy(xs, codeOf, code).value
                        && forall j :: 0 <= j < k ==> codeOf(xs[j]) != code
  {
    if codeOf(xs[0]) != code {
      FindByIsFirst(xs[1..], codeOf, code);
      var k :| 0 <= k < |xs[1..]| && xs[1..][k] == FindBy(xs[1..], codeOf, code).value
               && forall j :: 0 <= j < k ==> codeOf(xs[1..][j]) != code;
      assert xs[k + 1] == xs[1..][k];
      forall j | 0 <= j < k + 1
        ensures codeOf(xs[j]) != code
      {
        if j > 0 {
          assert xs[j] == xs[1..][j - 1];
        }
      }
    } else {
      assert xs[0] == FindBy(xs, codeOf, code).value;
    }
  }

  /** What "Add Selected" collects: in key order, the codes with a positive
      quantity that are among the dialog's items. */
  function SelectedSpec(order: seq<string>, q: map<string, real>, items: seq<BulkItem>): seq<Selected>
    requires forall i :: 0 <= i < |order| ==> order[i] in q
  {
    if order == [] then []
    else
      var c := order[|order| - 1];
      SelectedSpec(order[..|order| - 1], q, items)
      + (if q[c] > 0.0 && FindBy(items, CodeOfItem, c).Some? then [Selected(FindBy(items, CodeOfItem, c).value, q[c])] else [])
  }

  /** Every collected item has a positive quantity, is one of the dialog's
      items and carries the quantity of its code; and every code with a
      positive quantity that names one of the items is collected. */
  lemma {:induction false} SelectedSpecMeaning(order: seq<string>, q: map<string, real>, items: seq<BulkItem>)
    requires forall i :: 0 <= i < |order| ==> order[i] in q
    ensures var sel := SelectedSpec(order, q, items);
      && (forall k :: 0 <= k < |sel| ==>
            sel[k].qty > 0.0 && sel[k].item in items && sel[k].item.item_code in q
            && sel[k].qty == q[sel[k].item.item_code] && sel[k].item.item_code in order)
      && (forall i :: 0 <= i < |order| && q[order[i]] > 0.0 && FindBy(items, CodeOfItem, order[i]).Some? ==>
            exists k :: 0 <= k < |sel| && sel[k].item.item_code == order[i])
    decreases |order|
  {
    if order != [] {
      var init := order[..|order| - 1];
      assert forall i :: 0 <= i < |init| ==> init[i] == order[i];
      SelectedSpecMeaning(init, q, items);
      var pre := SelectedSpec(init, q, items);
      var sel := SelectedSpec(order, q, items);
      assert forall k :: 0 <= k < |pre| ==> sel[k] == pre[k];
      forall i | 0 <= i < |order| && q[order[i]] > 0.0 && FindBy(items, CodeOfItem, order[i]).Some?
        ensures exists k :: 0 <= k < |sel| && sel[k].item.item_code == order[i]
      {
        if i < |init| {
          var k :| 0 <= k < |pre| && pre[k].item.item_code == init[i];
          assert sel[k] == pre[k];
        } else {
          assert sel[|pre|].item.item_code == order[i];
        }
      }
    }
  }

  const MsgNoItems := "No items available to display"
  const MsgNoQuantity := "Please enter quantity for at least one item"

  // ---------------------------------------------------------------------
  // Totals shown in the dialog's summary

  /** Strategy 1 of the effective tax rate: the rows with a positive rate
      and a smaller positive net rate, and the sum of their tax rates. */
  predicate Strategy1Row(r: DocRow) {
    r.rate > 0.0 && r.net_rate > 0.0 && r.net_rate < r.rate
  }

  function Strategy1Sum(rows: seq<DocRow>): real {
    if rows == [] then 0.0
    else (if Strategy1Row(rows[0]) then (rows[0].rate - rows[0].net_rate) / rows[0].net_rate else 0.0)
         + Strategy1Sum(rows[1..])
  }

  function Strategy1Count(rows: seq<DocRow>): nat {
    if rows == [] then 0 else (if Strategy1Row(rows[0]) then 1 else 0) + Strategy1Count(rows[1..])
  }

  /** Every counted row adds a positive tax rate. */
  lemma {:induction false} Strategy1Positive(rows: seq<DocRow>)
    ensures Strategy1Sum(rows) >= 0.0
    ensures Strategy1Count(rows) > 0 ==> Strategy1Sum(rows) > 0.0
  {
    if rows != [] {
      Strategy1Positive(rows[1..]);
      if Strategy1Row(rows[0]) {
        var r := rows[0];
        assert r.rate - r.net_rate > 0.0;
        SignOfProduct((r.rate - r.net_rate) / r.net_rate, r.net_rate);
      }
    }
  }

  /** Strategy 2: the percentage rates of the included tax rows. */
  function Strategy2Sum(taxes: seq<TaxRow>): real {
    if taxes == [] then 0.0
    else (if taxes[0].included_in_print_rate == 1 && taxes[0].rate != 0.0 then taxes[0].rate else 0.0)
         + Strategy2Sum(taxes[1..])
  }

  /** The tax rate `calculate_totals` uses to derive net rates: the
      document's rate, or, on a tax-inclusive form whose document rate is
      0, the average of the rows' own rates, else the included rows of the
      taxes table. */
  function EffectiveTaxRate(doc: ProfitDoc, rows: seq<DocRow>): (e: real)
    ensures !(IsTaxInclusive(Some(doc)) && DocTaxRate(Some(doc)) == 0.0) ==> e == DocTaxRate(Some(doc))
    ensures IsTaxInclusive(Some(doc)) && DocTaxRate(Some(doc)) == 0.0 && Strategy1Count(rows) > 0 ==>
      e > 0.0 && e * (Strategy1Count(rows) as real) == Strategy1Sum(rows)
    ensures IsTaxInclusive(Some(doc)) && DocTaxRate(Some(doc)) == 0.0 && Strategy1Count(rows) == 0 ==>
      e == (if doc.taxes.Some? && Strategy2Sum(doc.taxes.value) > 0.0 then Strategy2Sum(doc.taxes.value) / 100.0 else 0.0)
  {
    var docRate := DocTaxRate(Some(doc));
    if IsTaxInclusive(Some(doc)) && docRate == 0.0 then
      var e1 := if |rows| > 0 && Strategy1Count(rows) > 0 then Strategy1Sum(rows) / (Strategy1Count(rows) as real) else docRate;
      Strategy1Positive(rows);
      if e1 == 0.0 && doc.taxes.Some? && |doc.taxes.value| > 0 && Strategy2Sum(doc.taxes.value) > 0.0 then
        Strategy2Sum(doc.taxes.value) / 100.0
      else e1
    else docRate
  }

  /** The tax-exclusive rate of a selected item: its own net rate when set
      and different from its price; else the net rate of the form's first
      row of that code when smaller than the price; else the price taken
      out of the effective tax rate on a tax-inclusive form; else the
      price. */
  function NetRateFor(it: BulkItem, rows: seq<DocRow>, inclusive: bool, eff: real): (n: real)
    ensures it.net_rate != 0.0 && it.net_rate != it.price_list_rate ==> n == it.net_rate
    ensures var rate, row := it.price_list_rate, FindBy(rows, CodeOfRow, it.item_code);
      var own := it.net_rate != 0.0 && it.net_rate != rate;
      var fromRow := row.Some? && row.value.net_rate != 0.0 && row.value.net_rate < rate;
      && (!own && fromRow ==> n == row.value.net_rate)
      && (!own && !fromRow && inclusive && eff > 0.0 && rate > 0.0 ==> n * (1.0 + eff) == rate && 0.0 < n < rate)
      && (!own && !fromRow && !(inclusive && eff > 0.0 && rate > 0.0) ==> n == rate)
      && (!own ==> n <= rate)
  {
    var rate := it.price_list_rate;
    if it.net_rate != 0.0 && it.net_rate != rate then it.net_rate
    else
      var row := FindBy(rows, CodeOfRow, it.item_code);
      if row.Some? && row.value.net_rate != 0.0 && row.value.net_rate < rate then row.value.net_rate
      else if inclusive && eff > 0.0 && rate > 0.0 then rate / (1.0 + eff)
      else rate
  }

  /** Round trip: a net rate derived from the effective tax rate gives the
      price back once that tax is added to it. */
  lemma NetRateRoundTrip(it: BulkItem, rows: seq<DocRow>, eff: real)
    requires it.net_rate == 0.0 || it.net_rate == it.price_list_rate
    requires FindBy(rows, CodeOfRow, it.item_code).None?
    requires eff > 0.0 && it.price_list_rate > 0.0
    ensures AddTaxToValue(NetRateFor(it, rows, true, eff), eff) == it.price_list_rate
    ensures NetRateFor(it, rows, true, eff) < it.price_list_rate
  {
    var rate := it.price_list_rate;
    var n := rate / (1.0 + eff);
    assert n * (1.0 + eff) == rate;
    assert rate * (1.0 + eff) > rate * 1.0;
  }

  /** Sums over the keys, in key order, with a positive quantity. */
  function SumCount(order: seq<string>, q: map<string, real>): (n: nat)
    requires forall i :: 0 <= i < |order| ==> order[i] in q
    ensures n <= |order|
  {
    if order == [] then 0
    else SumCount(order[..|order| - 1], q) + (if q[order[|order| - 1]] > 0.0 then 1 else 0)
  }

  function SumQty(order: seq<string>, q: map<string, real>): real
    requires forall i :: 0 <= i < |order| ==> order[i] in q
  {
    if order == [] then 0.0
    else
      var c := order[|order| - 1];
      SumQty(order[..|order| - 1], q) + (if q[c] > 0.0 then q[c] else 0.0)
  }

  /** The net amount and the cost of a key with a positive quantity whose
      item is among the dialog's items. */
  function LineNet(c: string, q: map<string, real>, items: seq<BulkItem>, rows: seq<DocRow>, inclusive: bool, eff: real): real
    requires c in q
  {
    var it := FindBy(items, CodeOfItem, c);
    if q[c] > 0.0 && it.Some? then q[c] * NetRateFor(it.value, rows, inclusive, eff) else 0.0
  }

  function LineCost(c: string, q: map<string, real>, items: seq<BulkItem>): real
    requires c in q
  {
    var it := FindBy(items, CodeOfItem, c);
    if q[c] > 0.0 && it.Some? then q[c] * it.value.valuation_rate else 0.0
  }

  function SumNet(order: seq<string>, q: map<string, real>, items: seq<BulkItem>, rows: seq<DocRow>, inclusive: bool, eff: real): real
    requires forall i :: 0 <= i < |order| ==> order[i] in q
  {
    if order == [] then 0.0
    else SumNet(order[..|order| - 1], q, items, rows, inclusive, eff) + LineNet(order[|order| - 1], q, items, rows, inclusive, eff)
  }

  function SumCost(order: seq<string>, q: map<string, real>, items: seq<BulkItem>): real
    requires forall i :: 0 <= i < |order| ==> order[i] in q
  {
    if order == [] then 0.0
    else SumCost(order[..|order| - 1], q, items) + LineCost(order[|order| - 1], q, items)
  }

  /** With non-negative quantities and valuations the selection's cost is
      never negative. */
  lemma {:induction false} SumCostNonNegative(order: seq<string>, q: map<string, real>, items: seq<BulkItem>)
    requires forall i :: 0 <= i < |order| ==> order[i] in q
    requires forall k :: 0 <= k < |items| ==> items[k].valuation_rate >= 0.0
    ensures SumCost(order, q, items) >= 0.0
    decreases |order|
  {
    if order != [] {
      var init := order[..|order| - 1];
      assert forall i :: 0 <= i < |init| ==> init[i] == order[i];
      SumCostNonNegative(init, q, items);
      var c := order[|order| - 1];
      var it := FindBy(items, CodeOfItem, c);
      if q[c] > 0.0 && it.Some? {
        assert it.value.valuation_rate >= 0.0;
        assert q[c] * it.value.valuation_rate >= 0.0 * it.value.valuation_rate;
      }
    }
  }

  /** The `for..in` loop of `calculate_totals` over the quantities. */
  method SumSelection(order: seq<string>, q: map<string, real>, items: seq<BulkItem>,
                      rows: seq<DocRow>, inclusive: bool, eff: real)
    returns (count: nat, qty: real, netTotal: real, totalCost: real)
    requires forall i :: 0 <= i < |order| ==> order[i] in q
    ensures count == SumCount(order, q) && qty == SumQty(order, q)
    ensures netTotal == SumNet(order, q, items, rows, inclusive, eff)
    ensures totalCost == SumCost(order, q, items)
  {
    count, qty, netTotal, totalCost := 0, 0.0, 0.0, 0.0;
    var i := 0;
    while i < |order|
      invariant 0 <= i <= |order|
      invariant count == SumCount(order[..i], q) && qty == SumQty(order[..i], q)
      invariant netTotal == SumNet(order[..i], q, items, rows, inclusive, eff)
      invariant totalCost == SumCost(order[..i], q, items)
    {
      var code := order[i];
      assert order[..i + 1][..i] == order[..i];
      var v := q[code];
      if v > 0.0 {
        count := count + 1;
        qty := qty + v;
        var item := FindBy(items, CodeOfItem, code);
        if item.Some? {
          netTotal := netTotal + v * NetRateFor(item.value, rows, inclusive, eff);
          totalCost := totalCost + v * item.value.valuation_rate;
        }
      }
      i := i + 1;
    }
    assert order[..i] == order;
  }

  /** The sales figures of the summary. */
  datatype SalesTotals = SalesTotals(
    total: real, total_cost: real, display_cost: real, profit: real, margin_pct: real,
    tax_inclusive: bool, total_taxes: real, net_total: real, grand_total: real)

  /** `calculate_totals`: count and qty always, the sales figures only on
      a sales doctype. */
  datatype Totals = Totals(count: nat, qty: real, sales: Option<SalesTotals>)

  /** The quantity the checkbox rule leaves for `code`. */
  function CheckedQty(q: map<string, real>, code: string, checked: bool): (v: real)
    ensures v >= 0.0 || (code in q && v == q[code])
    ensures checked <==> v > 0.0
  {
    if !checked then 0.0
    else if code in q && q[code] > 0.0 then q[code]
    else 1.0
  }

  /** Applying the rule again to a key it already set changes nothing. */
  lemma CheckedQtyAgain(q0: map<string, real>, q: map<string, real>, code: string, checked: bool, seen: bool)
    requires seen ==> code in q && q[code] == CheckedQty(q0, code, checked)
    requires !seen ==> (code in q <==> code in q0) && (code in q ==> q[code] == q0[code])
    ensures CheckedQty(q, code, checked) == CheckedQty(q0, code, checked)
  {
  }

  /** The checkbox rule has been applied, from `q0`, to exactly the keys
      of `codes`. */
  ghost predicate AppliedTo(q0: map<string, real>, q: map<string, real>, codes: seq<string>, checked: bool) {
    && (forall j :: 0 <= j < |codes| ==> codes[j] in q && q[codes[j]] == CheckedQty(q0, codes[j], checked))
    && (forall c :: c !in codes ==> (c in q <==> c in q0) && (c in q ==> q[c] == q0[c]))
  }

  /** One more row of the page. */
  lemma SelectStep(q0: map<string, real>, q: map<string, real>, codes: seq<string>, i: nat, checked: bool)
    requires i < |codes| && AppliedTo(q0, q, codes[..i], checked)
    ensures AppliedTo(q0, q[codes[i] := CheckedQty(q, codes[i], checked)], codes[..i + 1], checked)
  {
    var code := codes[i];
    CheckedQtyAgain(q0, q, code, checked, code in codes[..i]);
    assert codes[..i + 1] == codes[..i] + [code];
  }

  // ---------------------------------------------------------------------
  // The dialog

  class ItemDialog {
    const doctype: Doctype
    const items: seq<BulkItem>
    var current_page: int
    var total_pages: int
    var sort_column: Column
    var sort_direction: Direction
    var filtered_data: seq<BulkItem>
    var quantities: map<string, real>
    var order: seq<string>

    ghost predicate Valid()
      reads this
    {
      1 <= current_page <= total_pages && QtyValid(quantities, order)
    }

    /** The state `show_item_dialog` sets up on a non-empty item list. */
    constructor (dt: Doctype, itemData: seq<BulkItem>, rows: seq<DocRow>)
      requires itemData != []
      ensures Valid()
      ensures doctype == dt && items == itemData && filtered_data == itemData
      ensures current_page == 1 && total_pages == TotalPages(|itemData|)
      ensures sort_column == ItemCode && sort_direction == Asc
      ensures forall c :: c in quantities <==> SeededCode(rows, c)
      ensures forall c :: c in quantities ==> quantities[c] == SeedTotal(rows, c)
    {
      var q, o := SeedQuantities(rows);
      doctype := dt;
      items := itemData;
      current_page := 1;
      total_pages := TotalPages(|itemData|);
      sort_column := ItemCode;
      sort_direction := Asc;
      filtered_data := itemData;
      quantities := q;
      order := o;
    }

    /** The first half of `get_page_data`: search, filter and sort the
        rows again. */
    method Refilter(raw: string, showAvailable: bool)
      requires Valid()
      modifies this`filtered_data
      ensures Valid()
      ensures filtered_data == SortedFilteredData(items, raw, showAvailable, sort_column, sort_direction)
    {
      filtered_data := SortedFilteredData(items, raw, showAvailable, sort_column, sort_direction);
    }

    /** The second half: count the pages, clamp the page, and slice it. */
    method Repaginate() returns (page: seq<BulkItem>)
      requires Valid()
      modifies this`total_pages, this`current_page
      ensures Valid()
      ensures total_pages == TotalPages(|filtered_data|)
      ensures current_page == if old(current_page) > total_pages then total_pages else old(current_page)
      ensures page == PageSlice(filtered_data, current_page)
      ensures |page| <= 20 && (filtered_data != [] ==> page != [])
    {
      total_pages := TotalPages(|filtered_data|);
      if current_page > total_pages {
        current_page := total_pages;
      }
      page := PageSlice(filtered_data, current_page);
      PageShown(filtered_data, current_page);
    }

    /** `get_page_data`: recompute the rows (search, filter, sort), the
        page count, clamp the page, and return the page's slice. */
    method GetPageData(raw: string, showAvailable: bool) returns (page: seq<BulkItem>)
      requires Valid()
      modifies this`filtered_data, this`total_pages, this`current_page
      ensures Valid()
      ensures filtered_data == SortedFilteredData(items, raw, showAvailable, sort_column, sort_direction)
      ensures total_pages == TotalPages(|filtered_data|)
      ensures current_page == if old(current_page) > total_pages then total_pages else old(current_page)
      ensures page == PageSlice(filtered_data, current_page)
      ensures |page| <= 20 && (filtered_data != [] ==> page != [])
    {
      var p0 := current_page;
      Refilter(raw, showAvailable);
      assert current_page == p0;
      page := Repaginate();
    }

    /** `go_to_page`: clamp to the valid pages; `moved` when the page
        changed (and the table is drawn again). */
    method GoToPage(p: int) returns (moved: bool)
      requires Valid()
      modifies this`current_page
      ensures Valid()
      ensures current_page == ClampPage(p, total_pages)
      ensures moved <==> current_page != old(current_page)
    {
      var target := ClampPage(p, total_pages);
      moved := target != current_page;
      if moved {
        current_page := target;
      }
    }

    /** A click on a column header: the same column flips the direction, a
        new column sorts ascending; either way back to page 1. */
    method SortClick(col: Column)
      requires Valid()
      modifies this`sort_column, this`sort_direction, this`current_page
      ensures Valid()
      ensures sort_column == col && current_page == 1
      ensures old(sort_column) == col ==> sort_direction == (if old(sort_direction) == Asc then Desc else Asc)
      ensures old(sort_column) != col ==> sort_direction == Asc
    {
      if sort_column == col {
        sort_direction := if sort_direction == Asc then Desc else Asc;
      } else {
        sort_column := col;
        sort_direction := Asc;
      }
      current_page := 1;
    }

    /** A change of the search box or the "Available only" box resets the
        page to 1. */
    method FilterChanged()
      requires Valid()
      modifies this`current_page
      ensures Valid() && current_page == 1
    {
      current_page := 1;
    }

    /** Set one quantity, keeping the key order. */
    method Put(code: string, v: real)
      requires Valid() && v >= 0.0
      modifies this`quantities, this`order
      ensures Valid()
      ensures quantities == old(quantities)[code := v]
      ensures order == PutOrder(old(quantities), old(order), code)
    {
      PutValid(quantities, order, code, v);
      order := PutOrder(quantities, order, code);
      quantities := quantities[code := v];
    }

    /** The qty input of a row: `Math.max(0, parseFloat(v) || 0)`, with a
        non-number as `None`; the row's checkbox then shows `qty > 0`. */
    method QtyInput(code: string, v: Option<real>) returns (checked: bool)
      requires Valid()
      modifies this`quantities, this`order
      ensures Valid()
      ensures var x := v.GetOr(0.0);
        quantities == old(quantities)[code := if x > 0.0 then x else 0.0]
      ensures order == PutOrder(old(quantities), old(order), code)
      ensures checked <==> quantities[code] > 0.0
    {
      var x := v.GetOr(0.0);
      var qty := if 0.0 >= x then 0.0 else x;
      Put(code, qty);
      checked := qty > 0.0;
    }

    /** The checkbox of a row: checking sets 1 unless the quantity is
        already positive; unchecking sets 0. */
    method CheckboxChange(code: string, checked: bool)
      requires Valid()
      modifies this`quantities, this`order
      ensures Valid()
      ensures quantities == old(quantities)[code := CheckedQty(old(quantities), code, checked)]
      ensures order == PutOrder(old(quantities), old(order), code)
      ensures checked <==> quantities[code] > 0.0
    {
      if checked {
        if code !in quantities || quantities[code] <= 0.0 {
          Put(code, 1.0);
        } else {
          assert quantities == quantities[code := quantities[code]];
        }
      } else {
        Put(code, 0.0);
      }
    }

    /** The "select all" box of a page: the checkbox rule for every row the
        current page draws (`codes`); nothing else changes, and keys keep
        their order. */
    method SelectAllPage(checked: bool) returns (codes: seq<string>)
      requires Valid()
      modifies this`quantities, this`order
      ensures Valid()
      ensures codes == CodesOf(PageSlice(filtered_data, current_page))
      ensures forall i :: 0 <= i < |codes| ==>
        codes[i] in quantities && quantities[codes[i]] == CheckedQty(old(quantities), codes[i], checked)
      ensures forall c :: c !in codes ==>
        (c in quantities <==> c in old(quantities)) && (c in quantities ==> quantities[c] == old(quantities)[c])
      ensures old(order) <= order
    {
      codes := CodesOf(PageSlice(filtered_data, current_page));
      ghost var q0 := quantities;
      var i := 0;
      while i < |codes|
        invariant 0 <= i <= |codes|
        invariant Valid()
        invariant AppliedTo(q0, quantities, codes[..i], checked)
        invariant old(order) <= order
      {
        var code := codes[i];
        SelectStep(q0, quantities, codes, i, checked);
        CheckboxChange(code, checked);
        i := i + 1;
      }
      assert codes[..i] == codes;
    }

    /** "Add Selected": the items to add, or the message shown when there
        are none. */
    method AddSelected() returns (selected: seq<Selected>, message: string)
      requires Valid()
      ensures selected == SelectedSpec(order, quantities, items)
      ensures message == (if selected == [] then MsgNoQuantity else "")
    {
      selected := [];
      var i := 0;
      while i < |order|
        invariant 0 <= i <= |order|
        invariant selected == SelectedSpec(order[..i], quantities, items)
      {
        var code := order[i];
        assert order[..i + 1][..i] == order[..i];
        var qty := quantities[code];
        if qty > 0.0 {
          var item := FindBy(items, CodeOfItem, code);
          if item.Some? {
            selected := selected + [Selected(item.value, qty)];
          }
        }
        i := i + 1;
      }
      assert order[..i] == order;
      message := if selected == [] then MsgNoQuantity else "";
    }

    /** `calculate_totals` against the form's taxes and rows. */
    method CalculateTotals(doc: ProfitDoc, rows: seq<DocRow>) returns (t: Totals)
      requires Valid()
      ensures t.count == SumCount(order, quantities) && t.qty == SumQty(order, quantities)
      ensures ConfigOf(doctype).isStock <==> t.sales.None?
      ensures t.sales.Some? ==>
        SalesOf(t.sales.value, SumNet(order, quantities, items, rows, IsTaxInclusive(Some(doc)), EffectiveTaxRate(doc, rows)),
                SumCost(order, quantities, items), IsTaxInclusive(Some(doc)), DocTaxRate(Some(doc)), EffectiveTaxRate(doc, rows))
    {
      t := Summary(ConfigOf(doctype).isStock, order, quantities, items, doc, rows);
    }
  }

  /** `calculate_totals` over the selection: the count and qty of the
      picked items and, off stock doctypes, the sales figures. */
  method Summary(isStock: bool, order: seq<string>, q: map<string, real>, items: seq<BulkItem>,
                 doc: ProfitDoc, rows: seq<DocRow>) returns (t: Totals)
    requires forall i :: 0 <= i < |order| ==> order[i] in q
    ensures t.count == SumCount(order, q) && t.qty == SumQty(order, q)
    ensures isStock <==> t.sales.None?
    ensures t.sales.Some? ==>
      SalesOf(t.sales.value, SumNet(order, q, items, rows, IsTaxInclusive(Some(doc)), EffectiveTaxRate(doc, rows)),
              SumCost(order, q, items), IsTaxInclusive(Some(doc)), DocTaxRate(Some(doc)), EffectiveTaxRate(doc, rows))
  {
    var inclusive := IsTaxInclusive(Some(doc));
    var docRate := DocTaxRate(Some(doc));
    var eff := EffectiveTaxRate(doc, rows);
    var count, qty, netTotal, totalCost := SumSelection(order, q, items, rows, inclusive, eff);
    if isStock {
      return Totals(count, qty, None);
    }
    var sales := SalesFigures(netTotal, totalCost, inclusive, docRate, eff);
    t := Totals(count, qty, Some(sales));
  }

  /** The sales figures of a selection with net total `net` and cost
      `cost`: taxes at the document's rate (the effective rate when it has
      none) on a positive net total, the grand total, the profit, the
      total the margin is taken on (the grand total when prices include
      tax), the margin as a percentage of it (0 when it is not positive),
      and the cost as shown (grossed up by the document's rate when prices
      include tax). */
  predicate SalesOf(s: SalesTotals, net: real, cost: real, inclusive: bool, docRate: real, eff: real) {
    && s.tax_inclusive == inclusive && s.net_total == net && s.total_cost == cost
    && s.total_taxes == (if net > 0.0 then net * (if docRate > 0.0 then docRate else eff) else 0.0)
    && s.grand_total == s.net_total + s.total_taxes
    && s.profit == s.net_total - s.total_cost
    && s.total == (if inclusive then s.grand_total else s.net_total)
    && (s.total > 0.0 ==> s.margin_pct * s.total == s.profit * 100.0)
    && (s.total <= 0.0 ==> s.margin_pct == 0.0)
    && s.display_cost == (if inclusive && docRate > 0.0 then cost * (1.0 + docRate) else cost)
  }

  /** The figures computed in the order the summary computes them. */
  method SalesFigures(netTotal: real, totalCost: real, inclusive: bool, docRate: real, eff: real)
    returns (s: SalesTotals)
    ensures SalesOf(s, netTotal, totalCost, inclusive, docRate, eff)
  {
    var rateForTotal := if docRate > 0.0 then docRate else eff;
    var totalTaxes := if netTotal > 0.0 then netTotal * rateForTotal else 0.0;
    var grand := netTotal + totalTaxes;
    var profit := netTotal - totalCost;
    var base := if inclusive then grand else netTotal;
    var margin := if base > 0.0 then profit / base * 100.0 else 0.0;
    var displayCost := if inclusive && docRate > 0.0 then totalCost * (1.0 + docRate) else totalCost;
    s := SalesTotals(base, totalCost, displayCost, profit, margin, inclusive, totalTaxes, netTotal, grand);
  }

  /** The rate the summary taxes a selection at. */
  function RateForTotal(docRate: real, eff: real): real {
    if docRate > 0.0 then docRate else eff
  }

  /** Tax is not business profit: the profit depends only on the net total
      and the cost, whatever the tax rates and whether prices include tax. */
  lemma SalesProfitIgnoresTax(s: SalesTotals, s': SalesTotals, net: real, cost: real,
                              inclusive: bool, inclusive': bool, docRate: real, docRate': real, eff: real, eff': real)
    requires SalesOf(s, net, cost, inclusive, docRate, eff)
    requires SalesOf(s', net, cost, inclusive', docRate', eff')
    ensures s.profit == s'.profit == net - cost
    ensures !inclusive && !inclusive' ==> s.margin_pct == s'.margin_pct
  {
    if !inclusive && !inclusive' && net > 0.0 {
      assert (s.margin_pct - s'.margin_pct) * net == 0.0;
    }
  }

  /** With a non-negative tax rate, taxes only add: the grand total is at
      least the net total, and above it on a positive net total taxed at a
      positive rate. */
  lemma SalesGrandAtLeastNet(s: SalesTotals, net: real, cost: real, inclusive: bool, docRate: real, eff: real)
    requires SalesOf(s, net, cost, inclusive, docRate, eff)
    requires RateForTotal(docRate, eff) >= 0.0
    ensures s.total_taxes >= 0.0 && s.grand_total >= s.net_total
    ensures net > 0.0 && RateForTotal(docRate, eff) > 0.0 ==> s.grand_total > s.net_total
  {
    if net > 0.0 {
      assert s.total_taxes == net * RateForTotal(docRate, eff);
    }
  }

  /** On a positive base the margin has the sign of the profit, and with a
      non-negative cost and tax rate it never exceeds 100 percent. */
  lemma SalesMarginBounds(s: SalesTotals, net: real, cost: real, inclusive: bool, docRate: real, eff: real)
    requires SalesOf(s, net, cost, inclusive, docRate, eff)
    ensures s.total > 0.0 ==> (s.margin_pct > 0.0 <==> s.profit > 0.0) && (s.margin_pct < 0.0 <==> s.profit < 0.0)
    ensures cost >= 0.0 && RateForTotal(docRate, eff) >= 0.0 ==> s.margin_pct <= 100.0
  {
    if s.total > 0.0 {
      if s.margin_pct > 0.0 { assert s.margin_pct * s.total > 0.0; }
      if s.margin_pct < 0.0 { assert s.margin_pct * s.total < 0.0; }
      if s.margin_pct <= 0.0 { assert s.margin_pct * s.total <= 0.0; }
      if s.margin_pct >= 0.0 { assert s.margin_pct * s.total >= 0.0; }
      if cost >= 0.0 && RateForTotal(docRate, eff) >= 0.0 {
        SalesGrandAtLeastNet(s, net, cost, inclusive, docRate, eff);
        assert s.profit <= s.total;
      }
    }
  }

  /** A selection whose net total is the form's own net total is taxed at
      the form's rate into exactly the form's taxes. */
  lemma SalesTaxesMatchDocument(s: SalesTotals, d: ProfitDoc, cost: real, inclusive: bool, eff: real)
    requires RateNetTotal(d) > 0.0 && d.total_taxes_and_charges > 0.0
    requires SalesOf(s, RateNetTotal(d), cost, inclusive, DocTaxRate(Some(d)), eff)
    ensures s.total_taxes == d.total_taxes_and_charges
    ensures s.grand_total == RateNetTotal(d) + d.total_taxes_and_charges
  {
    var t := DocTaxRate(Some(d));
    assert RateNetTotal(d) * t == d.total_taxes_and_charges;
  }

  /** The summary and the shared calculator agree: on a form whose base net
      total and grand total are those of the selection, `calculate_doc_profit`
      gives the same net total, cost, profit and margin. */
  lemma SalesAgreeWithDocProfit(s: SalesTotals, d: ProfitDoc, items: seq<ProfitItem>, docRate: real, eff: real)
    requires d.base_net_total != 0.0 && d.grand_total != 0.0
    requires SalesOf(s, d.base_net_total, TotalCost(items), IsTaxInclusive(Some(d)), docRate, eff)
    requires s.grand_total == d.grand_total
    ensures var r := DocProfit(Some(d), Some(items));
      r.net_total == s.net_total && r.total_cost == s.total_cost
      && r.profit == s.profit && r.margin == s.margin_pct && r.tax_inclusive == s.tax_inclusive
  {
    var r := DocProfit(Some(d), Some(items));
    var base := if r.tax_inclusive then r.grand_total else r.net_total;
    assert base == s.total;
    if base > 0.0 {
      assert (r.margin - s.margin_pct) * base == 0.0;
    }
  }

  /** `show_item_dialog` refuses an empty item list with a message, and
      otherwise opens a dialog. */
  method ShowItemDialog(dt: Doctype, itemData: seq<BulkItem>, rows: seq<DocRow>)
    returns (dialog: ItemDialog?, message: string)
    ensures itemData == [] <==> dialog == null
    ensures itemData == [] ==> message == MsgNoItems
    ensures dialog != null ==> fresh(dialog) && dialog.Valid() && dialog.items == itemData && message == ""
  {
    if itemData == [] {
      return null, MsgNoItems;
    }
    dialog := new ItemDialog(dt, itemData, rows);
    message := "";
  }
}
