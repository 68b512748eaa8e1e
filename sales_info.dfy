/** The per-item information strip and the profit summary that the sales
    scripts (the PowerUp script of the sales doctypes, and the Quotation
    tweaks) draw on the items grid: when each is enabled, what the strip
    shows, the per-item margin and its five bands, and the document profit
    totals. Both scripts carry their own copy of the same logic; the model
    has one copy, and a `Variant` where the two differ. */
module SalesInfo {
  import opened Wrappers
  import opened ProfitCalculator

  datatype Variant = SalesPowerup | QuotationTweaks

  /** The PowerPack Settings fields the scripts read; a field the response
      does not carry is `None`. */
  datatype Settings = Settings(
    enable_quotation_powerup: Option<int>,
    enable_sales_order_powerup: Option<int>,
    enable_sales_invoice_powerup: Option<int>,
    enable_pos_invoice_powerup: Option<int>,
    enable_quotation_tweaks: Option<int>,
    show_stock_info: Option<int>,
    show_valuation_rate: Option<int>,
    show_profit_indicator: Option<int>,
    show_last_purchase: Option<int>,
    show_last_sale: Option<int>,
    show_last_sale_to_customer: Option<int>)

  /** The settings object before any response arrived (`{}`). */
  const NoSettings := Settings(None, None, None, None, None, None, None, None, None, None, None)

  // ---------------------------------------------------------------------
  // Enabling

  datatype EnableField = QuotationField | SalesOrderField | SalesInvoiceField | PosInvoiceField

  /** The doctype map of `is_enabled_for_doctype`. */
  function FieldFor(doctype: string): Option<EnableField> {
    if doctype == "Quotation" then Some(QuotationField)
    else if doctype == "Sales Order" then Some(SalesOrderField)
    else if doctype == "Sales Invoice" then Some(SalesInvoiceField)
    else if doctype == "POS Invoice" then Some(PosInvoiceField)
    else None
  }

  function FieldValue(s: Settings, f: EnableField): Option<int> {
    match f
    case QuotationField => s.enable_quotation_powerup
    case SalesOrderField => s.enable_sales_order_powerup
    case SalesInvoiceField => s.enable_sales_invoice_powerup
    case PosInvoiceField => s.enable_pos_invoice_powerup
  }

  /** `is_enabled_for_doctype`: the doctype must be mapped and its field
      must be exactly 1. */
  function IsEnabledForDoctype(doctype: string, s: Settings): (r: bool)
    ensures r <==>
      || (doctype == "Quotation" && s.enable_quotation_powerup == Some(1))
      || (doctype == "Sales Order" && s.enable_sales_order_powerup == Some(1))
      || (doctype == "Sales Invoice" && s.enable_sales_invoice_powerup == Some(1))
      || (doctype == "POS Invoice" && s.enable_pos_invoice_powerup == Some(1))
  {
    var f := FieldFor(doctype);
    f.Some? && FieldValue(s, f.value) == Some(1)
  }

  /** A doctype outside the map is never enabled, whatever the settings. */
  lemma UnmappedDoctypeDisabled(doctype: string, s: Settings)
    requires doctype !in ["Quotation", "Sales Order", "Sales Invoice", "POS Invoice"]
    ensures !IsEnabledForDoctype(doctype, s)
  {
  }

  /** The flag `check_and_setup` stores: the doctype's flag in the PowerUp
      script, the truthiness of `enable_quotation_tweaks` in the Quotation
      tweaks. */
  function EnabledBy(v: Variant, doctype: string, s: Settings): (r: bool)
    ensures v == QuotationTweaks ==>
      (r <==> s.enable_quotation_tweaks.Some? && s.enable_quotation_tweaks.value != 0)
    ensures v == SalesPowerup ==> r == IsEnabledForDoctype(doctype, s)
  {
    match v
    case SalesPowerup => IsEnabledForDoctype(doctype, s)
    case QuotationTweaks => s.enable_quotation_tweaks.GetOr(0) != 0
  }

  /** A `show_*` flag is on unless the setting is exactly 0. */
  function Shown(flag: Option<int>): (r: bool)
    ensures r <==> flag.None? || flag.value != 0
  {
    flag != Some(0)
  }

  /** With nothing fetched yet every part of the strip is allowed. */
  lemma DefaultsShowAll()
    ensures && Shown(NoSettings.show_stock_info) && Shown(NoSettings.show_valuation_rate)
            && Shown(NoSettings.show_profit_indicator) && Shown(NoSettings.show_last_purchase)
            && Shown(NoSettings.show_last_sale) && Shown(NoSettings.show_last_sale_to_customer)
  {
  }

  // ---------------------------------------------------------------------
  // Per-item margin and its bands

  /** A per-item margin in percent. With a cost but a zero rate the script
      divides a negative number by zero, which JavaScript evaluates to
      minus infinity. */
  datatype Margin = Finite(pct: real) | NegInfinity

  /** `valuation > 0 ? (rate - valuation) / rate * 100 : 0`. */
  function ItemMargin(rate: real, valuation: real): (m: Margin)
    ensures valuation <= 0.0 ==> m == Finite(0.0)
    ensures valuation > 0.0 && rate != 0.0 ==> m.Finite? && m.pct * rate == (rate - valuation) * 100.0
    ensures valuation > 0.0 && rate == 0.0 ==> m == NegInfinity
  {
    if valuation > 0.0 then
      if rate == 0.0 then NegInfinity else Finite((rate - valuation) / rate * 100.0)
    else Finite(0.0)
  }

  datatype Band = Loss | Low | Medium | Good | Excellent

  /** `get_profit_indicator`, and the same chain in
      `update_profit_indicator`: below 0 Loss, below 10 Low, below 20
      Medium, below 30 Good, otherwise Excellent. */
  function BandOf(m: Margin): (b: Band)
    ensures m.NegInfinity? ==> b == Loss
    ensures m.Finite? ==>
      && (b == Loss <==> m.pct < 0.0)
      && (b == Low <==> 0.0 <= m.pct < 10.0)
      && (b == Medium <==> 10.0 <= m.pct < 20.0)
      && (b == Good <==> 20.0 <= m.pct < 30.0)
      && (b == Excellent <==> 30.0 <= m.pct)
  {
    if m.NegInfinity? || m.pct < 0.0 then Loss
    else if m.pct < 10.0 then Low
    else if m.pct < 20.0 then Medium
    else if m.pct < 30.0 then Good
    else Excellent
  }

  function Rank(b: Band): nat {
    match b
    case Loss => 0
    case Low => 1
    case Medium => 2
    case Good => 3
    case Excellent => 4
  }

  /** The order of margins, minus infinity lowest. */
  predicate MarginLe(a: Margin, b: Margin) {
    a.NegInfinity? || (b.Finite? && a.pct <= b.pct)
  }

  /** A higher margin never falls into a lower band. */
  lemma BandMonotone(a: Margin, b: Margin)
    requires MarginLe(a, b)
    ensures Rank(BandOf(a)) <= Rank(BandOf(b))
  {
  }

  /** On a positive rate with a cost, the item is a Loss exactly when it is
      sold below its valuation, and Excellent exactly when the valuation is
      at most 70% of the rate. */
  lemma ItemBands(rate: real, valuation: real)
    requires rate > 0.0 && valuation > 0.0
    ensures BandOf(ItemMargin(rate, valuation)) == Loss <==> rate < valuation
    ensures BandOf(ItemMargin(rate, valuation)) == Excellent <==> valuation <= 0.7 * rate
  {
    var m := ItemMargin(rate, valuation);
    SignOfProduct(m.pct, rate);
    assert (m.pct - 30.0) * rate == m.pct * rate - 30.0 * rate;
    SignOfProduct(m.pct - 30.0, rate);
  }

  /** A row with a cost and a zero rate shows as a Loss. */
  lemma ZeroRateIsLoss(valuation: real)
    requires valuation > 0.0
    ensures BandOf(ItemMargin(0.0, valuation)) == Loss
  {
  }

  /** A negative rate with a positive cost gives a margin above 100%, which
      the strip shows as Excellent. */
  lemma NegativeRateShowsExcellent(rate: real, valuation: real)
    requires rate < 0.0 && valuation > 0.0
    ensures ItemMargin(rate, valuation).Finite? && ItemMargin(rate, valuation).pct > 100.0
    ensures BandOf(ItemMargin(rate, valuation)) == Excellent
  {
    var m := ItemMargin(rate, valuation);
    assert (m.pct - 100.0) * rate == -valuation * 100.0;
    assert (m.pct - 100.0) * (-rate) == valuation * 100.0;
    SignOfProduct(m.pct - 100.0, -rate);
  }

  /** The strip's margin is the shared calculator's margin of a
      tax-exclusive item at that rate. */
  lemma ItemMarginMatchesCalculator(rate: real, valuation: real, qty: Option<real>)
    requires rate > 0.0 && valuation > 0.0
    ensures ItemMargin(rate, valuation)
         == Finite(ItemProfit(ItemProfitParams(rate, 0.0, valuation, qty, false)).margin)
  {
  }

  // ---------------------------------------------------------------------
  // The information strip

  /** The fields of the item information response the strip reads; dates
      are left out. */
  datatype ItemInfo = ItemInfo(
    actual_qty: Option<real>,
    reserved_qty: Option<real>,
    available_qty: Option<real>,
    valuation_rate: Option<real>,
    last_purchase_rate: Option<real>,
    last_sale_rate: Option<real>,
    last_sale_to_customer_rate: Option<real>)

  datatype StockFigure = Physical(qty: real) | Reserved(qty: real) | Available(qty: real)

  datatype RateKind = Valuation | LastPurchase | LastSale | LastSoldToCustomer

  datatype Part = StockPart(figures: seq<StockFigure>) | RatePart(kind: RateKind, amount: real)

  /** The position of a part in the strip. */
  function Slot(p: Part): nat {
    match p
    case StockPart(_) => 0
    case RatePart(Valuation, _) => 1
    case RatePart(LastPurchase, _) => 2
    case RatePart(LastSale, _) => 3
    case RatePart(LastSoldToCustomer, _) => 4
  }

  predicate HasSlot(parts: seq<Part>, slot: nat) {
    exists i :: 0 <= i < |parts| && Slot(parts[i]) == slot
  }

  predicate InStripOrder(parts: seq<Part>) {
    forall i, j :: 0 <= i < j < |parts| ==> Slot(parts[i]) < Slot(parts[j])
  }

  function RateOf(d: ItemInfo, k: RateKind): Option<real> {
    match k
    case Valuation => d.valuation_rate
    case LastPurchase => d.last_purchase_rate
    case LastSale => d.last_sale_rate
    case LastSoldToCustomer => d.last_sale_to_customer_rate
  }

  /** The stock breakdown: physical always, reserved when positive,
      available when known. */
  function StockFigures(actual: real, d: ItemInfo): (f: seq<StockFigure>)
    ensures |f| >= 1 && f[0] == Physical(actual)
    ensures (exists i :: 0 <= i < |f| && f[i].Reserved?) <==> d.reserved_qty.Some? && d.reserved_qty.value > 0.0
    ensures (exists i :: 0 <= i < |f| && f[i].Available?) <==> d.available_qty.Some?
    ensures forall i :: 0 <= i < |f| && f[i].Reserved? ==> f[i].qty == d.reserved_qty.value
    ensures forall i :: 0 <= i < |f| && f[i].Available? ==> f[i].qty == d.available_qty.value
  {
    var res := if d.reserved_qty.Some? && d.reserved_qty.value > 0.0 then [Reserved(d.reserved_qty.value)] else [];
    var avl := if d.available_qty.Some? then [Available(d.available_qty.value)] else [];
    var f := [Physical(actual)] + res + avl;
    assert res != [] ==> f[1] == res[0];
    assert avl != [] ==> f[|f| - 1] == avl[0];
    assert forall i :: 0 <= i < |f| ==> f[i] == if i == 0 then Physical(actual) else if i <= |res| then res[i - 1] else avl[i - 1 - |res|];
    f
  }

  /** The margin indicator `render_item_info` appends, if any: it needs the
      permission, the profit flag and a known valuation rate. */
  function RenderIndicator(s: Settings, permitted: bool, valuation: Option<real>, rate: real): (m: Option<Margin>)
    ensures m.Some? <==> permitted && Shown(s.show_profit_indicator) && valuation.Some?
    ensures m.Some? ==> m.value == ItemMargin(rate, valuation.value)
  {
    if permitted && Shown(s.show_profit_indicator) && valuation.Some? then
      Some(ItemMargin(rate, valuation.value))
    else None
  }

  /** Every part of the strip comes before the slot `k`. */
  predicate Below(parts: seq<Part>, k: nat) {
    forall i :: 0 <= i < |parts| ==> Slot(parts[i]) < k
  }

  /** Every part carries the figures of the response. */
  predicate FromInfo(parts: seq<Part>, d: ItemInfo) {
    forall i :: 0 <= i < |parts| ==> PartFromInfo(parts[i], d)
  }

  predicate PartFromInfo(p: Part, d: ItemInfo) {
    match p
    case RatePart(kind, amount) => RateOf(d, kind) == Some(amount)
    case StockPart(figures) => d.actual_qty.Some? && figures == StockFigures(d.actual_qty.value, d)
  }

  /** One guarded `html_parts.push` of a part for slot `k`. */
  method PushIf(parts: seq<Part>, c: bool, x: Part, k: nat, ghost d: ItemInfo) returns (q: seq<Part>)
    requires InStripOrder(parts) && Below(parts, k) && FromInfo(parts, d)
    requires Slot(x) == k && (c ==> PartFromInfo(x, d))
    ensures InStripOrder(q) && Below(q, k + 1) && FromInfo(q, d)
    ensures HasSlot(q, k) <==> c
    ensures forall j: nat :: j < k ==> (HasSlot(q, j) <==> HasSlot(parts, j))
  {
    q := parts;
    if c {
      q := parts + [x];
      assert q[|parts|] == x;
      assert forall i :: 0 <= i < |parts| ==> q[i] == parts[i];
    }
  }

  /** The guarded pushes of `render_item_info`: each part is on the strip
      exactly when its setting is on and the response has its figure. */
  method RenderParts(s: Settings, permitted: bool, d: ItemInfo) returns (parts: seq<Part>)
    ensures InStripOrder(parts) && FromInfo(parts, d) && Below(parts, 5)
    ensures HasSlot(parts, 0) <==> Shown(s.show_stock_info) && d.actual_qty.Some?
    ensures HasSlot(parts, 1) <==> permitted && Shown(s.show_valuation_rate) && d.valuation_rate.Some?
    ensures HasSlot(parts, 2) <==> permitted && Shown(s.show_last_purchase) && d.last_purchase_rate.Some?
    ensures HasSlot(parts, 3) <==> Shown(s.show_last_sale) && d.last_sale_rate.Some?
    ensures HasSlot(parts, 4) <==> Shown(s.show_last_sale_to_customer) && d.last_sale_to_customer_rate.Some?
  {
    var c0 := Shown(s.show_stock_info) && d.actual_qty.Some?;
    var c1 := permitted && Shown(s.show_valuation_rate) && d.valuation_rate.Some?;
    var c2 := permitted && Shown(s.show_last_purchase) && d.last_purchase_rate.Some?;
    var c3 := Shown(s.show_last_sale) && d.last_sale_rate.Some?;
    var c4 := Shown(s.show_last_sale_to_customer) && d.last_sale_to_customer_rate.Some?;
    var x0 := StockPart(StockFigures(d.actual_qty.GetOr(0.0), d));
    var x1 := RatePart(Valuation, d.valuation_rate.GetOr(0.0));
    var x2 := RatePart(LastPurchase, d.last_purchase_rate.GetOr(0.0));
    var x3 := RatePart(LastSale, d.last_sale_rate.GetOr(0.0));
    var x4 := RatePart(LastSoldToCustomer, d.last_sale_to_customer_rate.GetOr(0.0));
    parts := [];
    parts := PushIf(parts, c0, x0, 0, d);
    parts := PushIf(parts, c1, x1, 1, d);
    parts := PushIf(parts, c2, x2, 2, d);
    parts := PushIf(parts, c3, x3, 3, d);
    parts := PushIf(parts, c4, x4, 4, d);
  }

  /** `render_item_info`: the parts of the strip, in order, and the margin
      indicator; `cleared` when the container is emptied because there is
      neither. */
  method RenderItemInfo(s: Settings, permitted: bool, d: ItemInfo, rate: real)
    returns (parts: seq<Part>, indicator: Option<Margin>, cleared: bool)
    ensures InStripOrder(parts) && FromInfo(parts, d)
    ensures HasSlot(parts, 0) <==> Shown(s.show_stock_info) && d.actual_qty.Some?
    ensures HasSlot(parts, 1) <==> permitted && Shown(s.show_valuation_rate) && d.valuation_rate.Some?
    ensures HasSlot(parts, 2) <==> permitted && Shown(s.show_last_purchase) && d.last_purchase_rate.Some?
    ensures HasSlot(parts, 3) <==> Shown(s.show_last_sale) && d.last_sale_rate.Some?
    ensures HasSlot(parts, 4) <==> Shown(s.show_last_sale_to_customer) && d.last_sale_to_customer_rate.Some?
    ensures indicator == RenderIndicator(s, permitted, d.valuation_rate, rate)
    ensures cleared <==>
      && !(Shown(s.show_stock_info) && d.actual_qty.Some?)
      && !(permitted && Shown(s.show_valuation_rate) && d.valuation_rate.Some?)
      && !(permitted && Shown(s.show_last_purchase) && d.last_purchase_rate.Some?)
      && !(Shown(s.show_last_sale) && d.last_sale_rate.Some?)
      && !(Shown(s.show_last_sale_to_customer) && d.last_sale_to_customer_rate.Some?)
      && !(permitted && Shown(s.show_profit_indicator) && d.valuation_rate.Some?)
  {
    parts := RenderParts(s, permitted, d);
    indicator := RenderIndicator(s, permitted, d.valuation_rate, rate);
    if parts != [] {
      assert Slot(parts[0]) < 5 && HasSlot(parts, Slot(parts[0]));
    }
    cleared := parts == [] && indicator.None?;
  }

  /** Without the permission no margin indicator is drawn. */
  lemma UnpermittedIndicator(s: Settings, valuation: Option<real>, rate: real)
    ensures RenderIndicator(s, false, valuation, rate).None?
  {
  }

  /** `update_profit_indicator`: the new indicator, or `None` when the
      function returns early (no permission, profit flag off, a falsy
      valuation rate, or no strip to update). */
  function UpdateProfitIndicator(s: Settings, permitted: bool, valuation: real, rate: real, stripFound: bool)
    : (m: Option<Margin>)
    ensures m.Some? <==> permitted && Shown(s.show_profit_indicator) && valuation != 0.0 && stripFound
    ensures m.Some? ==> m.value == ItemMargin(rate, valuation)
  {
    if !permitted || !Shown(s.show_profit_indicator) || valuation == 0.0 then None
    else if !stripFound then None
    else Some(ItemMargin(rate, valuation))
  }

  /** The render and the update paths agree: with a non-zero valuation and
      a strip to update, both show the same margin, hence the same band. A
      zero valuation is drawn as a 0% (Low) indicator by the render path but
      leaves the indicator alone in the update path. */
  lemma RenderAndUpdateAgree(s: Settings, permitted: bool, valuation: real, rate: real)
    ensures valuation != 0.0 ==>
      UpdateProfitIndicator(s, permitted, valuation, rate, true)
      == RenderIndicator(s, permitted, Some(valuation), rate)
    ensures valuation == 0.0 ==> UpdateProfitIndicator(s, permitted, valuation, rate, true).None?
    ensures valuation == 0.0 && permitted && Shown(s.show_profit_indicator) ==>
      RenderIndicator(s, permitted, Some(valuation), rate) == Some(Finite(0.0))
      && BandOf(Finite(0.0)) == Low
  {
  }

  /** The guard at the top of `add_item_info`: the PowerUp script needs a
      customer (`party_name || customer`) and a warehouse (the row's, else
      the form's `set_warehouse`); the Quotation tweaks need neither. */
  function AddItemInfoProceeds(v: Variant, party_name: string, customer: string,
                               row_warehouse: string, set_warehouse: string): (r: bool)
    ensures v == QuotationTweaks ==> r
    ensures v == SalesPowerup ==>
      (r <==> (party_name != "" || customer != "") && (row_warehouse != "" || set_warehouse != ""))
  {
    var c := if party_name != "" then party_name else customer;
    var w := if row_warehouse != "" then row_warehouse else set_warehouse;
    v == QuotationTweaks || (c != "" && w != "")
  }

  // ---------------------------------------------------------------------
  // The profit summary (`add_profit_metrics`)

  /** The rows that carry a cost. */
  function CountWithCost(items: seq<ProfitItem>): (n: nat)
    ensures n <= |items|
  {
    if items == [] then 0
    else (if items[0].valuation_rate > 0.0 then 1 else 0) + CountWithCost(items[1..])
  }

  /** Some row has a cost exactly when the count is positive; without one
      the total cost is 0. */
  lemma {:induction false} CountWithCostMeaning(items: seq<ProfitItem>)
    ensures CountWithCost(items) > 0 <==> exists k :: 0 <= k < |items| && items[k].valuation_rate > 0.0
    ensures CountWithCost(items) == 0 ==> TotalCost(items) == 0.0
  {
    if items != [] {
      CountWithCostMeaning(items[1..]);
      assert forall k :: 1 <= k < |items| ==> items[k] == items[1..][k - 1];
      if CountWithCost(items[1..]) > 0 {
        var j :| 0 <= j < |items[1..]| && items[1..][j].valuation_rate > 0.0;
        assert items[j + 1].valuation_rate > 0.0;
      }
    }
  }

  lemma {:induction false} TotalAmountAppend(a: seq<ProfitItem>, b: seq<ProfitItem>)
    ensures TotalAmount(a + b) == TotalAmount(a) + TotalAmount(b)
  {
    if a == [] {
      assert a + b == b;
    } else {
      assert (a + b)[0] == a[0] && (a + b)[1..] == a[1..] + b;
      TotalAmountAppend(a[1..], b);
    }
  }

  lemma {:induction false} CountWithCostAppend(a: seq<ProfitItem>, b: seq<ProfitItem>)
    ensures CountWithCost(a + b) == CountWithCost(a) + CountWithCost(b)
  {
    if a == [] {
      assert a + b == b;
    } else {
      assert (a + b)[0] == a[0] && (a + b)[1..] == a[1..] + b;
      CountWithCostAppend(a[1..], b);
    }
  }

  /** The `forEach` of `add_profit_metrics`: total cost, total amount and
      the number of rows with a cost. */
  method SumRows(items: seq<ProfitItem>) returns (cost: real, amount: real, withCost: nat)
    ensures cost == TotalCost(items)
    ensures amount == TotalAmount(items)
    ensures withCost == CountWithCost(items)
  {
    cost, amount, withCost := 0.0, 0.0, 0;
    var i := 0;
    while i < |items|
      invariant 0 <= i <= |items|
      invariant cost == TotalCost(items[..i])
      invariant amount == TotalAmount(items[..i])
      invariant withCost == CountWithCost(items[..i])
    {
      var item := items[i];
      assert items[..i + 1] == items[..i] + [item];
      TotalCostAppend(items[..i], [item]);
      TotalAmountAppend(items[..i], [item]);
      CountWithCostAppend(items[..i], [item]);
      amount := amount + item.amount;
      if item.valuation_rate > 0.0 {
        cost := cost + item.valuation_rate * item.qty;
        withCost := withCost + 1;
      }
      i := i + 1;
    }
    assert items[..i] == items;
  }

  /** What the profit summary shows. `profitPositive` is the background
      class: `None` when no row has a cost. `inclusiveLayout` selects the
      "incl. tax" layout. */
  datatype Metrics = Metrics(
    total_cost: real, net_total: real, grand_total: real, total_taxes: real,
    profit: real, margin: real, tax_inclusive: bool,
    profitPositive: Option<bool>, inclusiveLayout: bool)

  /** `add_profit_metrics`: nothing on an empty items table; otherwise the
      totals, which are those of the shared profit calculator. */
  method AddProfitMetrics(doc: ProfitDoc, items: seq<ProfitItem>) returns (m: Option<Metrics>)
    ensures items == [] <==> m.None?
    ensures m.Some? ==>
      var r := DocProfit(Some(doc), Some(items));
      && m.value.total_cost == r.total_cost && m.value.net_total == r.net_total
      && m.value.grand_total == r.grand_total && m.value.total_taxes == r.total_taxes
      && m.value.profit == r.profit && m.value.margin == r.margin
      && m.value.tax_inclusive == r.tax_inclusive
    ensures m.Some? ==>
      && (m.value.profitPositive.Some? <==> CountWithCost(items) > 0)
      && (m.value.profitPositive == Some(true) <==> CountWithCost(items) > 0 && m.value.profit >= 0.0)
      && (m.value.inclusiveLayout <==> m.value.tax_inclusive && m.value.total_taxes > 0.0)
  {
    if items == [] {
      return None;
    }
    var cost, amount, withCost := SumRows(items);
    var net := if doc.net_total != 0.0 then doc.net_total else amount;
    var taxes := doc.total_taxes_and_charges;
    var grand := if doc.grand_total != 0.0 then doc.grand_total else net + taxes;
    if doc.base_net_total != 0.0 {
      net := doc.base_net_total;
    }
    var inclusive := false;
    if doc.taxes.Some? {
      inclusive := AnyIncludedLoop(doc.taxes.value);
    }
    var profit := net - cost;
    var base := if inclusive then grand else net;
    var margin := if base > 0.0 then profit / base * 100.0 else 0.0;
    var positive := if withCost > 0 then Some(profit >= 0.0) else None;
    m := Some(Metrics(cost, net, grand, taxes, profit, margin, inclusive,
                      positive, inclusive && taxes > 0.0));
  }

  /** The summary's profit excludes taxes: it is the net sales minus the
      cost, whatever the tax setting, and a tax-inclusive table measures
      the margin against the grand total. */
  lemma MetricsMarginBase(doc: ProfitDoc, items: seq<ProfitItem>)
    requires items != []
    ensures var r := DocProfit(Some(doc), Some(items));
      && r.profit == r.net_total - TotalCost(items)
      && (r.tax_inclusive <==> doc.taxes.Some? && AnyIncluded(doc.taxes.value))
      && (r.tax_inclusive && r.grand_total > 0.0 ==> r.margin * r.grand_total == r.profit * 100.0)
      && (!r.tax_inclusive && r.net_total > 0.0 ==> r.margin * r.net_total == r.profit * 100.0)
    // the inclusive base is the document's grand total, or net plus taxes
    ensures var r := DocProfit(Some(doc), Some(items));
      && (r.tax_inclusive && doc.grand_total > 0.0 ==> r.margin * doc.grand_total == r.profit * 100.0)
      && var g := (if doc.net_total != 0.0 then doc.net_total else TotalAmount(items)) + doc.total_taxes_and_charges;
         (r.tax_inclusive && doc.grand_total == 0.0 && g > 0.0 ==> r.margin * g == r.profit * 100.0)
  {
  }

  // ---------------------------------------------------------------------
  // Script state

  /** One of the two scripts: the settings it fetched and whether it is on. */
  class SalesScript {
    const variant: Variant
    var settings: Settings
    var enabled: bool

    constructor (v: Variant)
      ensures variant == v && settings == NoSettings && !enabled
    {
      variant := v;
      settings := NoSettings;
      enabled := false;
    }

    /** `check_and_setup` once the settings call answered (`None` for an
        empty answer): stores the settings and the flag, and reports
        whether the items are set up. */
    method CheckAndSetup(doctype: string, response: Option<Settings>) returns (setUp: bool)
      modifies this
      ensures response.None? ==> settings == old(settings) && enabled == old(enabled) && !setUp
      ensures response.Some? ==>
        settings == response.value && enabled == EnabledBy(variant, doctype, response.value) && setUp == enabled
    {
      setUp := false;
      if response.Some? {
        settings := response.value;
        enabled := EnabledBy(variant, doctype, settings);
        setUp := enabled;
      }
    }
  }
}
