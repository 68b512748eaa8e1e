/** The shared profit calculator: tax-rate derivation, item and document
    profit and margin. Amounts are real numbers; a missing or falsy number
    is 0, and a missing form, document or table is `None`. */
module ProfitCalculator {
  import opened Wrappers

  /** A row of the form's taxes table. */
  datatype TaxRow = TaxRow(included_in_print_rate: int, rate: real)

  /** The document totals the calculator reads. */
  datatype ProfitDoc = ProfitDoc(
    taxes: Option<seq<TaxRow>>,
    net_total: real,
    base_net_total: real,
    total_taxes_and_charges: real,
    grand_total: real)

  /** Some tax row has `included_in_print_rate === 1`. */
  predicate AnyIncluded(taxes: seq<TaxRow>)
  {
    exists k :: 0 <= k < |taxes| && taxes[k].included_in_print_rate == 1
  }

  /** `is_tax_inclusive`: false without a document or a taxes table. */
  function IsTaxInclusive(doc: Option<ProfitDoc>): (r: bool)
    ensures r <==> doc.Some? && doc.value.taxes.Some? && AnyIncluded(doc.value.taxes.value)
  {
    if doc.None? || doc.value.taxes.None? then false
    else AnyIncludedLoop(doc.value.taxes.value)
  }

  /** `taxes.some(tax => tax.included_in_print_rate === 1)`. */
  function AnyIncludedLoop(taxes: seq<TaxRow>): (r: bool)
    ensures r <==> AnyIncluded(taxes)
  {
    if taxes == [] then false
    else
      assert forall k :: 1 <= k < |taxes| ==> taxes[k] == taxes[1..][k - 1];
      taxes[0].included_in_print_rate == 1 || AnyIncludedLoop(taxes[1..])
  }

  /** `calculate_item_tax_rate(rate, net_rate)`. */
  function ItemTaxRate(rate: real, net_rate: real): (t: real)
    ensures net_rate > 0.0 && rate != 0.0 ==> net_rate * (1.0 + t) == rate
    ensures net_rate <= 0.0 || rate == 0.0 ==> t == 0.0
  {
    if rate == 0.0 || net_rate == 0.0 || net_rate <= 0.0 then 0.0
    else (rate - net_rate) / net_rate
  }

  /** `add_tax_to_value(value, tax_rate)`. */
  function AddTaxToValue(value: real, tax_rate: real): (r: real)
    ensures value == 0.0 || tax_rate == 0.0 ==> r == value
    ensures r == value * (1.0 + tax_rate)
  {
    if value == 0.0 || tax_rate == 0.0 then value else value * (1.0 + tax_rate)
  }

  /** Round trip: adding the item's own tax rate back to its net rate gives
      its rate. */
  lemma ItemTaxRoundTrip(rate: real, net_rate: real)
    requires net_rate > 0.0 && rate != 0.0
    ensures AddTaxToValue(net_rate, ItemTaxRate(rate, net_rate)) == rate
  {
  }

  /** `format_with_tax(value, add_tax, tax_rate)`: tax is added only when
      asked for and the rate is positive. */
  function FormatWithTax(value: real, add_tax: bool, tax_rate: real): (r: real)
    ensures !(add_tax && tax_rate > 0.0) ==> r == value
    ensures add_tax && tax_rate > 0.0 ==> r == AddTaxToValue(value, tax_rate) && r == value * (1.0 + tax_rate)
    ensures add_tax && tax_rate > 0.0 && value > 0.0 ==> r > value
  {
    if add_tax && tax_rate > 0.0 then AddTaxToValue(value, tax_rate) else value
  }

  /** `net_total || base_net_total || 0`: the net total the tax rate uses. */
  function RateNetTotal(d: ProfitDoc): real {
    if d.net_total != 0.0 then d.net_total else d.base_net_total
  }

  /** `calculate_doc_tax_rate`: total taxes over the net total, 0 without a
      document or with a net total <= 0. */
  function DocTaxRate(doc: Option<ProfitDoc>): (t: real)
    ensures doc.None? || RateNetTotal(doc.value) <= 0.0 ==> t == 0.0
    ensures doc.Some? && RateNetTotal(doc.value) > 0.0 ==>
      RateNetTotal(doc.value) * t == doc.value.total_taxes_and_charges
  {
    if doc.None? then 0.0
    else
      var net := RateNetTotal(doc.value);
      if net <= 0.0 then 0.0 else doc.value.total_taxes_and_charges / net
  }

  /** Applying the document tax rate to its net total gives back the net
      total plus the taxes. */
  lemma DocTaxRoundTrip(d: ProfitDoc)
    requires RateNetTotal(d) > 0.0 && d.total_taxes_and_charges != 0.0
    ensures AddTaxToValue(RateNetTotal(d), DocTaxRate(Some(d))) == RateNetTotal(d) + d.total_taxes_and_charges
  {
  }

  /** A row of the item table, as `get_net_rate` sees it. */
  datatype ItemDoc = ItemDoc(rate: real, net_rate: Option<real>)

  /** `get_net_rate(item_doc, tax_inclusive)`. */
  function GetNetRate(item: Option<ItemDoc>, tax_inclusive: bool): (r: real)
    ensures item.None? ==> r == 0.0
    ensures item.Some? && !tax_inclusive ==> r == item.value.rate
    ensures item.Some? && tax_inclusive ==>
      r == if item.value.net_rate.Some? then item.value.net_rate.value else item.value.rate
  {
    if item.None? then 0.0
    else if tax_inclusive && item.value.net_rate.Some? then item.value.net_rate.value
    else item.value.rate
  }

  /** The parameters of `calculate_item_profit`; a missing `qty` defaults
      to 1 (the other defaults are the zeros and `false` a caller passes). */
  datatype ItemProfitParams = ItemProfitParams(
    rate: real, net_rate: real, valuation_rate: real, qty: Option<real>, tax_inclusive: bool)

  datatype ItemProfitResult = ItemProfitResult(
    profit: real, profit_per_unit: real, margin: real, net_rate_used: real, display_rate: real)

  /** `calculate_item_profit`. */
  function ItemProfit(p: ItemProfitParams): (r: ItemProfitResult)
    ensures r.display_rate == p.rate
    ensures r.net_rate_used == (if p.tax_inclusive && p.net_rate > 0.0 then p.net_rate else p.rate)
    ensures p.qty.Some? ==> r.profit == r.profit_per_unit * p.qty.value
    ensures p.qty.None? ==> r.profit == r.profit_per_unit
    ensures r.profit_per_unit == r.net_rate_used - p.valuation_rate
    ensures p.rate > 0.0 ==> r.margin * p.rate == r.profit_per_unit * 100.0
    ensures p.rate <= 0.0 ==> r.margin == 0.0
  {
    var used := if p.tax_inclusive && p.net_rate > 0.0 then p.net_rate else p.rate;
    var perUnit := used - p.valuation_rate;
    var margin := if p.rate > 0.0 then perUnit / p.rate * 100.0 else 0.0;
    ItemProfitResult(perUnit * p.qty.GetOr(1.0), perUnit, margin, used, p.rate)
  }

  /** Tax is never profit: a tax-inclusive item with a known net rate makes
      the profit of a tax-exclusive item priced at that net rate. */
  lemma TaxIsNotProfit(rate: real, net_rate: real, valuation_rate: real, qty: Option<real>)
    requires net_rate > 0.0
    ensures ItemProfit(ItemProfitParams(rate, net_rate, valuation_rate, qty, true)).profit
         == ItemProfit(ItemProfitParams(net_rate, 0.0, valuation_rate, qty, false)).profit
  {
  }

  /** On a positive rate the margin has the sign of the per-unit profit,
      and a non-negative cost keeps it at most 100 when the profit rate does
      not exceed the displayed rate. */
  lemma ItemMarginBounds(p: ItemProfitParams)
    requires p.rate > 0.0
    ensures var r := ItemProfit(p);
      && (r.margin > 0.0 <==> r.profit_per_unit > 0.0)
      && (r.margin < 0.0 <==> r.profit_per_unit < 0.0)
      && (p.valuation_rate >= 0.0 && r.net_rate_used <= p.rate ==> r.margin <= 100.0)
  {
    var r := ItemProfit(p);
    SignOfProduct(r.margin, p.rate);
    if p.valuation_rate >= 0.0 && r.net_rate_used <= p.rate {
      assert (r.margin - 100.0) * p.rate == r.margin * p.rate - 100.0 * p.rate;
      SignOfProduct(r.margin - 100.0, p.rate);
    }
  }

  lemma SignOfProduct(m: real, d: real)
    requires d > 0.0
    ensures m * d > 0.0 <==> m > 0.0
    ensures m * d < 0.0 <==> m < 0.0
  {
    if m > 0.0 { assert m * d > 0.0 * d; }
    if m < 0.0 { assert m * d < 0.0 * d; }
  }

  // ---------------------------------------------------------------------
  // Document profit

  /** An item row as `calculate_doc_profit` reads it. */
  datatype ProfitItem = ProfitItem(qty: real, amount: real, valuation_rate: real)

  /** The cost of the rows with a positive valuation rate. */
  function TotalCost(items: seq<ProfitItem>): real {
    if items == [] then 0.0
    else (if items[0].valuation_rate > 0.0 then items[0].valuation_rate * items[0].qty else 0.0)
         + TotalCost(items[1..])
  }

  function TotalAmount(items: seq<ProfitItem>): real {
    if items == [] then 0.0 else items[0].amount + TotalAmount(items[1..])
  }

  lemma {:induction false} TotalCostAppend(a: seq<ProfitItem>, b: seq<ProfitItem>)
    ensures TotalCost(a + b) == TotalCost(a) + TotalCost(b)
  {
    if a == [] {
      assert a + b == b;
    } else {
      assert (a + b)[0] == a[0] && (a + b)[1..] == a[1..] + b;
      TotalCostAppend(a[1..], b);
    }
  }

  /** Rows without a positive valuation rate add nothing to the cost, and
      with non-negative quantities the cost is never negative. */
  lemma {:induction false} TotalCostNonNegative(items: seq<ProfitItem>)
    requires forall k :: 0 <= k < |items| ==> items[k].qty >= 0.0
    ensures TotalCost(items) >= 0.0
  {
    if items != [] {
      TotalCostNonNegative(items[1..]);
    }
  }

  datatype DocProfitResult = DocProfitResult(
    total_cost: real, net_total: real, grand_total: real, total_taxes: real,
    profit: real, margin: real, tax_inclusive: bool)

  /** `calculate_doc_profit(frm, items)`. */
  function DocProfit(doc: Option<ProfitDoc>, items: Option<seq<ProfitItem>>): (r: DocProfitResult)
    ensures doc.None? || items.None? ==>
      r == DocProfitResult(0.0, 0.0, 0.0, 0.0, 0.0, 0.0, false)
    ensures doc.Some? && items.Some? ==>
      && r.total_cost == TotalCost(items.value)
      && r.tax_inclusive == IsTaxInclusive(doc)
      && (doc.value.base_net_total != 0.0 ==> r.net_total == doc.value.base_net_total)
      && (doc.value.base_net_total == 0.0 && doc.value.net_total != 0.0 ==> r.net_total == doc.value.net_total)
      && (doc.value.base_net_total == 0.0 && doc.value.net_total == 0.0 ==> r.net_total == TotalAmount(items.value))
      && r.total_taxes == doc.value.total_taxes_and_charges
      && (doc.value.grand_total != 0.0 ==> r.grand_total == doc.value.grand_total)
      && (doc.value.grand_total == 0.0 ==>
            r.grand_total == (if doc.value.net_total != 0.0 then doc.value.net_total else TotalAmount(items.value))
                             + doc.value.total_taxes_and_charges)
      && r.profit == r.net_total - r.total_cost
      && var base := if r.tax_inclusive then r.grand_total else r.net_total;
         (base > 0.0 ==> r.margin * base == r.profit * 100.0) && (base <= 0.0 ==> r.margin == 0.0)
  {
    if doc.None? || items.None? then DocProfitResult(0.0, 0.0, 0.0, 0.0, 0.0, 0.0, false)
    else
      var d := doc.value;
      var cost := TotalCost(items.value);
      var amount := TotalAmount(items.value);
      var net0 := if d.net_total != 0.0 then d.net_total else amount;
      var taxes := d.total_taxes_and_charges;
      var grand := if d.grand_total != 0.0 then d.grand_total else net0 + taxes;
      var net := if d.base_net_total != 0.0 then d.base_net_total else net0;
      var inclusive := IsTaxInclusive(doc);
      var profit := net - cost;
      var base := if inclusive then grand else net;
      var margin := if base > 0.0 then profit / base * 100.0 else 0.0;
      DocProfitResult(cost, net, grand, taxes, profit, margin, inclusive)
  }
}
