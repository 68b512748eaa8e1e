/** The point-of-sale compact view: the per-row display rules, the column
    settings, the keyboard navigation over the rendered rows, and the bulk
    add mode with its selection map. The module-level variables of the view
    are the fields of `PosView`; its event handlers are the methods. */
module PosView {
  import opened Wrappers
  import opened StableSort
  import opened Escaping
  import opened PosSearch

  // ---------------------------------------------------------------------
  // Row display

  datatype Indicator = NoIndicator | Green | Red | Orange

  /** The stock pill colour of a row. */
  function IndicatorOf(it: PosItem): (r: Indicator)
    ensures !it.is_stock_item <==> r == NoIndicator
    ensures it.is_stock_item ==>
      && (r == Green <==> it.actual_qty > 10.0)
      && (r == Red <==> it.actual_qty <= 0.0)
      && (r == Orange <==> 0.0 < it.actual_qty <= 10.0)
  {
    if !it.is_stock_item then NoIndicator
    else if it.actual_qty > 10.0 then Green
    else if it.actual_qty <= 0.0 then Red
    else Orange
  }

  function ColourRank(c: Indicator): int {
    match c
    case Red => 0
    case Orange => 1
    case Green => 2
    case NoIndicator => 3
  }

  /** More stock never gives a worse colour. */
  lemma IndicatorMonotone(a: PosItem, b: PosItem)
    requires a.is_stock_item && b.is_stock_item && a.actual_qty <= b.actual_qty
    ensures ColourRank(IndicatorOf(a)) <= ColourRank(IndicatorOf(b))
  {
  }

  /** `Math.round`: the nearest integer, halves rounded up. */
  function Round(x: real): (r: int)
    ensures (r as real) - 0.5 <= x < (r as real) + 0.5
  {
    (x + 0.5).Floor
  }

  datatype QtyDisplay = Plain(q: real) | Thousands(k: real)

  /** The stock figure of a row: thousands with a "K" for a stock item whose
      rounded qty is above 999, the qty itself otherwise. */
  function QtyDisplayOf(it: PosItem): QtyDisplay {
    if it.is_stock_item && Round(it.actual_qty) > 999 then Thousands(Round(it.actual_qty) as real / 1000.0)
    else Plain(it.actual_qty)
  }

  /** The pill is rendered only when the figure is truthy: a text, or a
      number other than 0. */
  predicate PillShown(it: PosItem) {
    QtyDisplayOf(it) != Plain(0.0)
  }

  /** The "K" form is used exactly for stock items from 999.5 up, and shows
      at least 1.0. */
  lemma ThousandsDisplay(it: PosItem)
    ensures QtyDisplayOf(it).Thousands? <==> it.is_stock_item && it.actual_qty >= 999.5
    ensures QtyDisplayOf(it).Thousands? ==>
      QtyDisplayOf(it).k >= 1.0 && QtyDisplayOf(it).k * 1000.0 == Round(it.actual_qty) as real
  {
  }

  /** A stock item with exactly no stock gets the red colour but no pill,
      since its figure is the number 0; negative stock does show a red pill. */
  lemma NoPillAtZeroStock(it: PosItem)
    requires it.is_stock_item
    ensures it.actual_qty == 0.0 ==> IndicatorOf(it) == Red && !PillShown(it)
    ensures it.actual_qty < 0.0 ==> IndicatorOf(it) == Red && PillShown(it)
  {
  }

  // ---------------------------------------------------------------------
  // Column settings

  /** Which columns are shown; a setting missing from the stored value is
      falsy and hides its column. */
  datatype ColumnConfig = ColumnConfig(image: bool, code: bool, stock: bool, price: bool)

  const AllColumns := ColumnConfig(true, true, true, true)

  const HideClasses: set<string> := {"hide-column-image", "hide-column-code", "hide-column-stock", "hide-column-price"}

  /** `applyColumnConfig`: the container loses every hide class, then gets
      back the hide class of each column that is switched off. */
  function ApplyColumnConfig(classes: set<string>, cfg: ColumnConfig): (r: set<string>)
    ensures ("hide-column-image" in r <==> !cfg.image) && ("hide-column-code" in r <==> !cfg.code)
    ensures ("hide-column-stock" in r <==> !cfg.stock) && ("hide-column-price" in r <==> !cfg.price)
    ensures forall c :: c !in HideClasses ==> (c in r <==> c in classes)
  {
    (classes - HideClasses)
    + (if !cfg.image then {"hide-column-image"} else {})
    + (if !cfg.code then {"hide-column-code"} else {})
    + (if !cfg.stock then {"hide-column-stock"} else {})
    + (if !cfg.price then {"hide-column-price"} else {})
  }

  /** Applying a configuration forgets any earlier one, so applying it
      twice is applying it once. */
  lemma ApplyColumnConfigLastWins(classes: set<string>, a: ColumnConfig, b: ColumnConfig)
    ensures ApplyColumnConfig(ApplyColumnConfig(classes, a), b) == ApplyColumnConfig(classes, b)
  {
  }

  // ---------------------------------------------------------------------
  // Keyboard navigation

  datatype ViewMode = Thumbnail | Compact

  predicate Handled(key: string) {
    key == "ArrowUp" || key == "ArrowDown" || key == "Enter" || key == "Escape"
  }

  /** The selected index after a handled key over `len` rendered rows. */
  function NextIndex(key: string, index: int, len: nat): (r: int)
    requires len > 0
    ensures key == "ArrowDown" ==> r == (if index + 1 >= len then len - 1 else index + 1)
    ensures key == "ArrowUp" ==> r == (if index - 1 < 0 then 0 else index - 1)
    ensures key == "Escape" ==> r == -1
    ensures key != "ArrowDown" && key != "ArrowUp" && key != "Escape" ==> r == index
  {
    if key == "ArrowDown" then (if index + 1 >= len then len - 1 else index + 1)
    else if key == "ArrowUp" then (if index - 1 < 0 then 0 else index - 1)
    else if key == "Escape" then -1
    else index
  }

  /** The arrow keys always land on a row, from any index below the row
      count; they step by one where there is room. */
  lemma ArrowsStayInRange(key: string, index: int, len: nat)
    requires len > 0 && -1 <= index < len
    ensures key == "ArrowDown" || key == "ArrowUp" ==> 0 <= NextIndex(key, index, len) < len
    ensures key == "ArrowDown" && index < len - 1 ==> NextIndex(key, index, len) == index + 1
    ensures key == "ArrowUp" && index > 0 ==> NextIndex(key, index, len) == index - 1
    ensures -1 <= NextIndex(key, index, len) < len
  {
  }

  // ---------------------------------------------------------------------
  // Bulk selections

  /** The value passed to the cart: one more, or a quantity. */
  datatype CartValue = PlusOne | Qty(n: int)

  /** One `item_selected` call on the point-of-sale cart. */
  datatype CartAdd = CartAdd(item_code: string, value: CartValue)

  /** Every selected qty is positive, and `order` lists every key once, in
      insertion order. */
  predicate SelValid(m: map<string, int>, order: seq<string>) {
    && (forall c :: c in m ==> m[c] > 0)
    && (forall i :: 0 <= i < |order| ==> order[i] in m)
    && (forall c :: c in m ==> c in order)
    && Distinct(order)
  }

  /** The key order once `code` is deleted. */
  function Without(order: seq<string>, code: string): (r: seq<string>)
    ensures forall i :: 0 <= i < |r| ==> r[i] != code && r[i] in order
    ensures forall i :: 0 <= i < |order| && order[i] != code ==> order[i] in r
    ensures Distinct(order) ==> Distinct(r)
  {
    if order == [] then []
    else
      assert forall i :: 1 <= i < |order| ==> order[i] == order[1..][i - 1];
      (if order[0] == code then [] else [order[0]]) + Without(order[1..], code)
  }

  /** A row is rendered whose data attribute (the escaped code) equals
      `attr`: the lookup `[data-item-code="…"]`. */
  function AttrFound(shown: seq<PosItem>, attr: string): (b: bool)
    ensures b <==> exists i :: 0 <= i < |shown| && Escape(shown[i].item_code) == attr
  {
    if shown == [] then false
    else
      assert forall i :: 1 <= i < |shown| ==> shown[i] == shown[1..][i - 1];
      Escape(shown[0].item_code) == attr || AttrFound(shown[1..], attr)
  }

  /** A row with item code `code` is rendered. */
  function CodeShown(shown: seq<PosItem>, code: string): (b: bool)
    ensures b <==> exists i :: 0 <= i < |shown| && shown[i].item_code == code
  {
    if shown == [] then false
    else
      assert forall i :: 1 <= i < |shown| ==> shown[i] == shown[1..][i - 1];
      shown[0].item_code == code || CodeShown(shown[1..], code)
  }

  /** The row lookup of `bulkAddToCart` as written: by escaped attribute. */
  function AttrLookup(shown: seq<PosItem>): string -> bool {
    c => AttrFound(shown, c)
  }

  /** The corrected row lookup: by item code. */
  function CodeLookup(shown: seq<PosItem>): string -> bool {
    c => CodeShown(shown, c)
  }

  /** The cart calls of a bulk add: one per selected code the lookup finds,
      in the order the codes were selected, with its quantity. */
  function Adds(order: seq<string>, m: map<string, int>, found: string -> bool): seq<CartAdd>
    requires forall i :: 0 <= i < |order| ==> order[i] in m
  {
    if order == [] then []
    else
      var c := order[|order| - 1];
      Adds(order[..|order| - 1], m, found) + (if found(c) then [CartAdd(c, Qty(m[c]))] else [])
  }

  /** A bulk add over one more key of the order. */
  lemma AddsPrefixStep(order: seq<string>, i: nat, m: map<string, int>, found: string -> bool)
    requires i < |order| && forall j :: 0 <= j < |order| ==> order[j] in m
    ensures Adds(order[..i + 1], m, found)
         == Adds(order[..i], m, found) + (if found(order[i]) then [CartAdd(order[i], Qty(m[order[i]]))] else [])
  {
    assert order[..i + 1][..i] == order[..i];
  }

  /** The loop of `bulkAddToCart` over the selected codes, in selection
      order: each code the lookup finds is added with its quantity, and
      the added ones are counted. */
  method CollectAdds(order: seq<string>, m: map<string, int>, found: string -> bool)
    returns (added: seq<CartAdd>, addedCount: nat)
    requires forall j :: 0 <= j < |order| ==> order[j] in m
    ensures added == Adds(order, m, found)
    ensures addedCount == |added|
  {
    added, addedCount := [], 0;
    var i := 0;
    while i < |order|
      invariant 0 <= i <= |order|
      invariant added == Adds(order[..i], m, found)
      invariant addedCount == |added|
    {
      var c := order[i];
      AddsPrefixStep(order, i, m, found);
      if found(c) {
        added := added + [CartAdd(c, Qty(m[c]))];
        addedCount := addedCount + 1;
      }
      i := i + 1;
    }
    assert order[..i] == order;
  }

  function CodesOf(adds: seq<CartAdd>): (r: seq<string>)
    ensures |r| == |adds| && forall k :: 0 <= k < |r| ==> r[k] == adds[k].item_code
  {
    if adds == [] then [] else [adds[0].item_code] + CodesOf(adds[1..])
  }

  lemma CodesOfAppend(a: seq<CartAdd>, b: seq<CartAdd>)
    ensures CodesOf(a + b) == CodesOf(a) + CodesOf(b)
  {
  }

  /** The codes of a bulk add over one more key: the codes so far, then
      that key when the lookup finds it. */
  lemma AddsCodesSnoc(order: seq<string>, m: map<string, int>, found: string -> bool)
    requires order != [] && forall i :: 0 <= i < |order| ==> order[i] in m
    ensures CodesOf(Adds(order, m, found))
         == CodesOf(Adds(order[..|order| - 1], m, found)) + (if found(order[|order| - 1]) then [order[|order| - 1]] else [])
  {
    var n := |order| - 1;
    var c := order[n];
    var tail: seq<CartAdd> := if found(c) then [CartAdd(c, Qty(m[c]))] else [];
    assert Adds(order, m, found) == Adds(order[..n], m, found) + tail;
    CodesOfAppend(Adds(order[..n], m, found), tail);
    assert CodesOf(tail) == if found(c) then [c] else [];
  }

  lemma {:induction false} AddsCodes(order: seq<string>, m: map<string, int>, found: string -> bool)
    requires forall i :: 0 <= i < |order| ==> order[i] in m
    ensures CodesOf(Adds(order, m, found)) == Keep(order, found)
  {
    if order != [] {
      var n := |order| - 1;
      var init := order[..n];
      AddsCodes(init, m, found);
      AddsCodesSnoc(order, m, found);
      KeepSnoc(order, n, found);
      assert order[..n + 1] == order;
    }
  }

  /** Every cart call carries the quantity selected for its code. */
  predicate SelectedQtys(adds: seq<CartAdd>, m: map<string, int>) {
    forall k :: 0 <= k < |adds| ==> adds[k].item_code in m && adds[k].value == Qty(m[adds[k].item_code])
  }

  lemma {:induction false} AddsValues(order: seq<string>, m: map<string, int>, found: string -> bool)
    requires forall i :: 0 <= i < |order| ==> order[i] in m
    ensures SelectedQtys(Adds(order, m, found), m)
  {
    if order != [] {
      var n := |order| - 1;
      var init := order[..n];
      AddsValues(init, m, found);
      var c := order[n];
      var tail: seq<CartAdd> := if found(c) then [CartAdd(c, Qty(m[c]))] else [];
      var r := Adds(init, m, found);
      assert Adds(order, m, found) == r + tail;
      forall k | 0 <= k < |r + tail|
        ensures (r + tail)[k].item_code in m && (r + tail)[k].value == Qty(m[(r + tail)[k].item_code])
      {
        if k < |r| {
          assert (r + tail)[k] == r[k];
        } else {
          assert (r + tail)[k] == tail[0];
        }
      }
    }
  }

  /** A bulk add calls the cart for exactly the selected codes the lookup
      finds, in selection order, each with its selected qty; so the count it
      reports is the number of those codes. */
  lemma AddsMeaning(order: seq<string>, m: map<string, int>, found: string -> bool)
    requires forall i :: 0 <= i < |order| ==> order[i] in m
    ensures CodesOf(Adds(order, m, found)) == Keep(order, found)
    ensures |Adds(order, m, found)| == Count(order, found)
    ensures SelectedQtys(Adds(order, m, found), m)
  {
    AddsCodes(order, m, found);
    AddsValues(order, m, found);
    KeepLength(order, found);
  }

  /** When every selected code is one `escape` leaves alone, looking rows up
      by the escaped code finds exactly the rows of that code. */
  lemma AttrFoundSafeCode(shown: seq<PosItem>, code: string)
    requires forall k :: 0 <= k < |code| ==> Safe(code[k] as int)
    ensures AttrFound(shown, code) <==> CodeShown(shown, code)
  {
    EscapeOfSafe(code);
    if AttrFound(shown, code) {
      var i :| 0 <= i < |shown| && Escape(shown[i].item_code) == code;
      EscapeInjective(shown[i].item_code, code);
    }
  }

  /** A code with a space is never found by the escaped-attribute lookup:
      the row's attribute holds `A%20B`. */
  lemma SpacedCodeNotFound(it: PosItem)
    requires it.item_code == "A B"
    ensures CodeShown([it], "A B") && !AttrFound([it], "A B")
    ensures Adds(["A B"], map["A B" := 2], AttrLookup([it])) == []
  {
    EscapeOfSpace();
    assert ["A B"][..0] == [];
  }

  /** With the corrected lookup the same selection reaches the cart. */
  lemma SpacedCodeFoundFixed(it: PosItem)
    requires it.item_code == "A B"
    ensures Adds(["A B"], map["A B" := 2], CodeLookup([it])) == [CartAdd("A B", Qty(2))]
  {
    assert ["A B"][..0] == [];
  }

  // ---------------------------------------------------------------------
  // The view state

  /** `keyboardNavEnabled` and `selectedItemIndex` (-1 is no selection). */
  datatype Nav = Nav(enabled: bool, index: int)

  /** `bulkModeActive`, whether the bulk bar is on the page, the counter it
      shows and whether its add button is disabled, and `bulkSelections`
      with its keys in insertion order. */
  datatype Bulk = Bulk(
    active: bool, bar: bool, counter: int, addDisabled: bool,
    selections: map<string, int>, order: seq<string>)

  /** The index is -1 or on a row, and -1 while navigation is off (an
      empty list keeps a stale index, which no key can use). */
  predicate NavValid(n: Nav, rows: nat) {
    && -1 <= n.index
    && (rows > 0 ==> n.index < rows)
    && (!n.enabled ==> n.index == -1)
  }

  /** The selections are valid; a bar exists only in bulk mode, and
      without the bar nothing is selected. */
  predicate BulkSettled(b: Bulk) {
    && SelValid(b.selections, b.order)
    && (!b.active ==> !b.bar)
    && (!b.bar ==> b.selections == map[] && b.order == [])
  }

  /** ... and the bar counts the selections. */
  predicate BulkValid(b: Bulk) {
    BulkSettled(b) && (b.bar ==> b.counter == |b.selections|)
  }

  const NoBulk := Bulk(false, false, 0, false, map[], [])

  lemma SelPut(m: map<string, int>, order: seq<string>, code: string, q: int)
    requires SelValid(m, order) && q > 0
    ensures SelValid(m[code := q], if code in m then order else order + [code])
  {
    if code !in m {
      var o := order + [code];
      forall c | c in m[code := q] ensures c in o {
        if c != code {
          var i :| 0 <= i < |order| && order[i] == c;
          assert o[i] == c;
        }
      }
    }
  }

  lemma SelDelete(m: map<string, int>, order: seq<string>, code: string)
    requires SelValid(m, order)
    ensures SelValid(m - {code}, Without(order, code))
  {
    var o := Without(order, code);
    forall c | c in m - {code} ensures c in o {
      var i :| 0 <= i < |order| && order[i] == c;
    }
  }

  class PosViewState {
    var mode: ViewMode
    var nav: Nav
    /** The rows of the compact list, in display order. */
    var shown: seq<PosItem>
    var columns: ColumnConfig
    var classes: set<string>
    var bulk: Bulk
    /** The calls made on the cart, oldest first. */
    var cart: seq<CartAdd>

    ghost predicate Valid()
      reads this
    {
      NavValid(nav, |shown|) && BulkValid(bulk)
    }

    /** The view as loaded: navigation off and nothing selected, in the
        view mode kept from the last session. */
    constructor (initialMode: ViewMode)
      ensures Valid()
      ensures mode == initialMode && nav == Nav(false, -1) && shown == []
      ensures columns == AllColumns && bulk == NoBulk && cart == []
    {
      mode := initialMode;
      nav := Nav(false, -1);
      shown := [];
      columns := AllColumns;
      classes := {};
      bulk := NoBulk;
      cart := [];
    }

    /** `renderItemsInCurrentView`: the compact list renders the items and
        resets the selection, except that an empty list only shows a
        message; the thumbnail list replaces the compact rows. */
    method Render(items: seq<PosItem>)
      modifies this
      requires Valid()
      ensures Valid()
      ensures shown == (if mode == Compact then items else [])
      ensures nav == (if mode == Compact && items != [] then old(nav).(index := -1) else old(nav))
      ensures mode == old(mode) && bulk == old(bulk) && cart == old(cart)
      ensures columns == old(columns) && classes == old(classes)
    {
      if mode == Compact {
        shown := items;
        if items != [] {
          nav := nav.(index := -1);
        }
      } else {
        shown := [];
      }
    }

    /** `enableKeyboardNavigation`: idempotent, and keeps the index. */
    method EnableNav()
      modifies this
      requires Valid()
      ensures Valid()
      ensures nav == old(nav).(enabled := true)
      ensures mode == old(mode) && shown == old(shown) && bulk == old(bulk) && cart == old(cart)
      ensures columns == old(columns) && classes == old(classes)
    {
      if !nav.enabled {
        nav := nav.(enabled := true);
      }
    }

    /** `disableKeyboardNavigation`: idempotent, and clears the selection. */
    method DisableNav()
      modifies this
      requires NavValid(nav, |shown|)
      ensures NavValid(nav, |shown|)
      ensures nav == Nav(false, -1)
      ensures mode == old(mode) && shown == old(shown) && bulk == old(bulk) && cart == old(cart)
      ensures columns == old(columns) && classes == old(classes)
    {
      if nav.enabled {
        nav := Nav(false, -1);
      }
    }

    /** `handleKeyboardNavigation`: only the four keys, only with navigation
        on, in the compact view, over at least one row. Enter adds the
        selected row to the cart when the index is on a row. */
    method HandleKey(key: string)
      modifies this
      requires Valid()
      ensures Valid()
      ensures var live := old(nav).enabled && mode == Compact && |shown| > 0 && Handled(key);
        && nav == (if live then old(nav).(index := NextIndex(key, old(nav).index, |shown|)) else old(nav))
        && cart == old(cart) + (if live && key == "Enter" && 0 <= old(nav).index
                                then [CartAdd(shown[old(nav).index].item_code, PlusOne)] else [])
      ensures mode == old(mode) && shown == old(shown) && bulk == old(bulk)
      ensures columns == old(columns) && classes == old(classes)
    {
      if !nav.enabled || mode != Compact || |shown| == 0 {
        return;
      }
      if !Handled(key) {
        return;
      }
      var i := nav.index;
      if key == "ArrowDown" {
        i := i + 1;
        if i >= |shown| {
          i := |shown| - 1;
        }
      } else if key == "ArrowUp" {
        i := i - 1;
        if i < 0 {
          i := 0;
        }
      } else if key == "Enter" {
        if 0 <= i < |shown| {
          cart := cart + [CartAdd(shown[i].item_code, PlusOne)];
        }
      } else {
        i := -1;
      }
      nav := nav.(index := i);
    }

    /** `switchView`: the compact view applies the column settings and turns
        navigation on; the thumbnail view turns it off; both re-render. */
    method SwitchView(m: ViewMode, items: seq<PosItem>)
      modifies this
      requires Valid()
      ensures Valid()
      ensures mode == m && nav.enabled == (m == Compact)
      ensures shown == (if m == Compact then items else [])
      ensures m == Compact ==> classes == ApplyColumnConfig(old(classes), columns)
      ensures m == Thumbnail ==> classes == old(classes) && nav.index == -1
      ensures m == Compact && items == [] ==> nav.index == old(nav).index
      ensures m == Compact && items != [] ==> nav.index == -1
      ensures bulk == old(bulk) && cart == old(cart) && columns == old(columns)
    {
      mode := m;
      if m == Compact {
        classes := ApplyColumnConfig(classes, columns);
        EnableNav();
      } else {
        DisableNav();
      }
      Render(items);
    }

    /** The column settings read from the profile: a value that is missing
        or does not parse keeps the current settings. */
    method LoadColumnConfig(parsed: Option<ColumnConfig>)
      modifies this
      requires Valid()
      ensures Valid()
      ensures columns == (if parsed.Some? then parsed.value else old(columns))
      ensures classes == (if mode == Compact then ApplyColumnConfig(old(classes), columns) else old(classes))
      ensures mode == old(mode) && nav == old(nav) && shown == old(shown) && bulk == old(bulk) && cart == old(cart)
    {
      if parsed.Some? {
        columns := parsed.value;
      }
      if mode == Compact {
        classes := ApplyColumnConfig(classes, columns);
      }
    }

    // -------------------------------------------------------------------
    // Bulk mode

    /** `updateBulkCounter`. */
    method UpdateBulkCounter()
      modifies this
      requires NavValid(nav, |shown|) && BulkSettled(bulk)
      ensures Valid()
      ensures bulk == old(bulk).(counter := |bulk.selections|, addDisabled := |bulk.selections| == 0)
      ensures mode == old(mode) && nav == old(nav) && shown == old(shown) && cart == old(cart)
      ensures columns == old(columns) && classes == old(classes)
    {
      var n := |bulk.selections|;
      bulk := bulk.(counter := n, addDisabled := n == 0);
    }

    /** `enableBulkMode`: the new bar shows 0 with its add button enabled,
        and navigation is turned off. */
    method EnableBulkMode()
      modifies this
      requires Valid() && bulk.active && !bulk.bar
      ensures Valid()
      ensures bulk == old(bulk).(bar := true, counter := 0, addDisabled := false)
      ensures nav == Nav(false, -1)
      ensures mode == old(mode) && shown == old(shown) && cart == old(cart)
      ensures columns == old(columns) && classes == old(classes)
    {
      bulk := bulk.(bar := true, counter := 0, addDisabled := false);
      DisableNav();
    }

    /** `disableBulkMode`: the bar goes, the selections are cleared, and the
        compact view gets navigation back. */
    method DisableBulkMode()
      modifies this
      requires Valid()
      ensures Valid()
      ensures bulk == old(bulk).(bar := false, selections := map[], order := [])
      ensures nav == (if mode == Compact then old(nav).(enabled := true) else old(nav))
      ensures mode == old(mode) && shown == old(shown) && cart == old(cart)
      ensures columns == old(columns) && classes == old(classes)
    {
      bulk := bulk.(bar := false, selections := map[], order := []);
      if mode == Compact {
        EnableNav();
      }
    }

    /** `toggleBulkMode`. */
    method ToggleBulkMode()
      modifies this
      requires Valid()
      ensures Valid()
      ensures bulk.active == !old(bulk).active && bulk.bar == bulk.active
      ensures bulk.active ==> nav == Nav(false, -1) && bulk.counter == 0 && !bulk.addDisabled
      ensures !bulk.active ==>
        bulk.selections == map[] && nav == (if mode == Compact then old(nav).(enabled := true) else old(nav))
      ensures mode == old(mode) && shown == old(shown) && cart == old(cart)
      ensures columns == old(columns) && classes == old(classes)
    {
      if !bulk.active {
        bulk := bulk.(active := true);
        EnableBulkMode();
      } else {
        DisableBulkMode();
        bulk := bulk.(active := false);
      }
    }

    /** Checking a row with a positive quantity from the prompt. */
    method Select(code: string, qty: int)
      modifies this
      requires Valid() && bulk.bar && qty > 0
      ensures Valid()
      ensures bulk.selections == old(bulk).selections[code := qty]
      ensures bulk.order == (if code in old(bulk).selections then old(bulk).order else old(bulk).order + [code])
      ensures bulk.active == old(bulk).active && bulk.bar
      ensures bulk.counter == |bulk.selections| && !bulk.addDisabled
      ensures mode == old(mode) && nav == old(nav) && shown == old(shown) && cart == old(cart)
      ensures columns == old(columns) && classes == old(classes)
    {
      SelPut(bulk.selections, bulk.order, code, qty);
      var o := if code in bulk.selections then bulk.order else bulk.order + [code];
      bulk := bulk.(selections := bulk.selections[code := qty], order := o);
      UpdateBulkCounter();
    }

    /** Unchecking a row. */
    method Unselect(code: string)
      modifies this
      requires Valid() && bulk.bar
      ensures Valid()
      ensures bulk.selections == old(bulk).selections - {code}
      ensures bulk.order == Without(old(bulk).order, code)
      ensures bulk.active == old(bulk).active && bulk.bar
      ensures bulk.counter == |bulk.selections| && (bulk.addDisabled <==> |bulk.selections| == 0)
      ensures mode == old(mode) && nav == old(nav) && shown == old(shown) && cart == old(cart)
      ensures columns == old(columns) && classes == old(classes)
    {
      SelDelete(bulk.selections, bulk.order, code);
      bulk := bulk.(selections := bulk.selections - {code}, order := Without(bulk.order, code));
      UpdateBulkCounter();
    }

    /** `handleBulkCheckboxChange`: checking asks for a quantity (`None` is
        a dismissed prompt) and stores a positive one; anything else leaves
        the selections alone. Unchecking deletes the key. The checkboxes
        exist only while the bulk bar does. */
    method CheckboxChange(code: string, checked: bool, prompt: Option<int>)
      modifies this
      requires Valid() && bulk.bar
      ensures Valid()
      ensures checked && prompt.Some? && prompt.value > 0 ==>
        && bulk.selections == old(bulk).selections[code := prompt.value]
        && bulk.order == (if code in old(bulk).selections then old(bulk).order else old(bulk).order + [code])
        && !bulk.addDisabled
      ensures checked && !(prompt.Some? && prompt.value > 0) ==> bulk == old(bulk)
      ensures !checked ==>
        && bulk.selections == old(bulk).selections - {code}
        && bulk.order == Without(old(bulk).order, code)
        && (bulk.addDisabled <==> bulk.selections == map[])
      ensures bulk.active == old(bulk).active && bulk.bar && bulk.counter == |bulk.selections|
      ensures mode == old(mode) && nav == old(nav) && shown == old(shown) && cart == old(cart)
      ensures columns == old(columns) && classes == old(classes)
    {
      if checked {
        if prompt.Some? && prompt.value > 0 {
          Select(code, prompt.value);
        }
      } else {
        Unselect(code);
      }
    }

    /** `clearBulkSelections`. */
    method ClearBulkSelections()
      modifies this
      requires Valid()
      ensures Valid()
      ensures bulk == old(bulk).(selections := map[], order := [], counter := 0, addDisabled := true)
      ensures mode == old(mode) && nav == old(nav) && shown == old(shown) && cart == old(cart)
      ensures columns == old(columns) && classes == old(classes)
    {
      bulk := bulk.(selections := map[], order := []);
      UpdateBulkCounter();
    }

    /** The loop of `bulkAddToCart` over the selections in the order they were made, with
        the row lookup `found`. */
    method AddSelections(found: string -> bool) returns (addedCount: nat)
      modifies this
      requires Valid()
      ensures Valid()
      ensures cart == old(cart) + Adds(bulk.order, bulk.selections, found)
      ensures addedCount == |Adds(bulk.order, bulk.selections, found)|
      ensures mode == old(mode) && nav == old(nav) && shown == old(shown) && bulk == old(bulk)
      ensures columns == old(columns) && classes == old(classes)
    {
      var added;
      added, addedCount := CollectAdds(bulk.order, bulk.selections, found);
      cart := cart + added;
    }

    /** The end of a bulk add: selections cleared and bulk mode torn down,
        without touching `bulkModeActive`. */
    method TearDown()
      modifies this
      requires Valid()
      ensures Valid()
      ensures bulk == old(bulk).(bar := false, selections := map[], order := [], counter := 0, addDisabled := true)
      ensures nav == (if mode == Compact then old(nav).(enabled := true) else old(nav))
      ensures mode == old(mode) && shown == old(shown) && cart == old(cart)
      ensures columns == old(columns) && classes == old(classes)
    {
      ClearBulkSelections();
      DisableBulkMode();
    }

    /** Bulk mode switched off once its bar is gone. */
    method LeaveBulk()
      modifies this
      requires Valid() && !bulk.bar
      ensures Valid()
      ensures bulk == old(bulk).(active := false)
      ensures nav == old(nav) && mode == old(mode) && shown == old(shown) && cart == old(cart)
      ensures columns == old(columns) && classes == old(classes)
    {
      bulk := bulk.(active := false);
    }

    /** `bulkAddToCart` as written: without selections it only alerts;
        otherwise each selected code is looked up by the rows' escaped
        data attribute, the rows found go to the cart, and bulk mode is
        torn down, leaving `bulkModeActive` set. */
    method BulkAddToCart() returns (addedCount: nat)
      modifies this
      requires Valid()
      ensures Valid()
      ensures old(bulk).selections == map[] ==> addedCount == 0 && cart == old(cart) && bulk == old(bulk) && nav == old(nav)
      ensures old(bulk).selections != map[] ==>
        && cart == old(cart) + Adds(old(bulk).order, old(bulk).selections, AttrLookup(shown))
        && addedCount == Count(old(bulk).order, AttrLookup(shown))
        && bulk == old(bulk).(bar := false, selections := map[], order := [], counter := 0, addDisabled := true)
        && nav == (if mode == Compact then old(nav).(enabled := true) else old(nav))
      ensures mode == old(mode) && shown == old(shown)
      ensures columns == old(columns) && classes == old(classes)
    {
      if bulk.selections == map[] {
        return 0;
      }
      addedCount := AddSelections(AttrLookup(shown));
      AddsMeaning(bulk.order, bulk.selections, AttrLookup(shown));
      TearDown();
    }

    /** `bulkAddToCart` corrected: rows are looked up by their item code,
        and bulk mode is left completely. */
    method BulkAddToCartFixed() returns (addedCount: nat)
      modifies this
      requires Valid()
      ensures Valid()
      ensures old(bulk).selections == map[] ==> addedCount == 0 && cart == old(cart) && bulk == old(bulk) && nav == old(nav)
      ensures old(bulk).selections != map[] ==>
        && cart == old(cart) + Adds(old(bulk).order, old(bulk).selections, CodeLookup(shown))
        && addedCount == Count(old(bulk).order, CodeLookup(shown))
        && bulk == NoBulk.(addDisabled := true)
        && nav == (if mode == Compact then old(nav).(enabled := true) else old(nav))
      ensures mode == old(mode) && shown == old(shown)
      ensures columns == old(columns) && classes == old(classes)
    {
      if bulk.selections == map[] {
        return 0;
      }
      AddsMeaning(bulk.order, bulk.selections, CodeLookup(shown));
      addedCount := AddSelections(CodeLookup(shown));
      TearDown();
      LeaveBulk();
    }
  }

  /** As written, the Bulk button pressed after a bulk add only flips the
      stale flag back: the bar stays hidden, and a second press is needed. */
  method AddThenToggleStaysHidden(v: PosViewState)
    modifies v
    requires v.Valid() && v.bulk.selections != map[]
    ensures v.Valid() && !v.bulk.bar && !v.bulk.active
  {
    var _ := v.BulkAddToCart();
    v.ToggleBulkMode();
  }

  /** Corrected, the same press opens bulk mode again. */
  method FixedAddThenToggleShowsBar(v: PosViewState)
    modifies v
    requires v.Valid() && v.bulk.selections != map[]
    ensures v.Valid() && v.bulk.bar && v.bulk.active
  {
    var _ := v.BulkAddToCartFixed();
    v.ToggleBulkMode();
  }
}
