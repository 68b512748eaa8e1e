/** The form side of the bulk item selector: the per-doctype configuration,
    the customer and warehouse a form supplies, the rule that disables the
    "Bulk Selection" button, and the item list cached on the form. */
module BulkForm {
  import opened Wrappers
  import opened BulkSearch

  datatype Doctype = Quotation | SalesOrder | SalesInvoice | StockReconciliation | StockEntry

  /** The fields of `BULK_SELECTION_CONFIG` the logic reads. */
  datatype Config = Config(requiresWarehouse: bool, isStock: bool, hasPrice: bool)

  function ConfigOf(dt: Doctype): Config {
    match dt
    case Quotation => Config(false, false, true)
    case SalesOrder => Config(true, false, true)
    case SalesInvoice => Config(true, false, true)
    case StockReconciliation => Config(true, true, false)
    case StockEntry => Config(false, true, false)
  }

  /** The header fields of a form; an unset field is the empty string. */
  datatype FormDoc = FormDoc(
    party_name: string,
    customer: string,
    set_warehouse: string,
    from_warehouse: string,
    to_warehouse: string,
    selling_price_list: string,
    taxes_and_charges: string)

  /** `get_customer`: `party_name` on a Quotation, `customer` on the other
      sales doctypes, none on stock doctypes. */
  function GetCustomer(dt: Doctype, doc: FormDoc): (c: Option<string>)
    ensures c.None? <==> ConfigOf(dt).isStock
    ensures dt == Quotation ==> c == Some(doc.party_name)
    ensures dt == SalesOrder || dt == SalesInvoice ==> c == Some(doc.customer)
  {
    match dt
    case Quotation => Some(doc.party_name)
    case SalesOrder => Some(doc.customer)
    case SalesInvoice => Some(doc.customer)
    case _ => None
  }

  /** A customer in the JavaScript sense: set and not empty. */
  predicate HasCustomer(dt: Doctype, doc: FormDoc) {
    GetCustomer(dt, doc).Some? && GetCustomer(dt, doc).value != ""
  }

  /** `get_warehouse`: the configured warehouse field, `null` when empty
      (`from_warehouse` on a Stock Entry, `set_warehouse` elsewhere). */
  function GetWarehouse(dt: Doctype, doc: FormDoc): (w: Option<string>)
    ensures w.Some? ==> w.value != ""
    ensures dt == StockEntry ==> (w.Some? <==> doc.from_warehouse != "")
    ensures dt != StockEntry ==> (w.Some? <==> doc.set_warehouse != "")
  {
    var v := if dt == StockEntry then doc.from_warehouse else doc.set_warehouse;
    if v == "" then None else Some(v)
  }

  const MsgSourceOrTarget := "Please select a Source or Target Warehouse first"
  const MsgWarehouse := "Please select a Warehouse first"
  const MsgCustomerAndWarehouse := "Please select Customer and Warehouse first"
  const MsgCustomer := "Please select a Customer first"

  datatype ButtonState = ButtonState(disabled: bool, title: string)

  /** `toggle_bulk_button`: whether the button is disabled and its tooltip. */
  function ToggleBulkButton(dt: Doctype, doc: FormDoc): (b: ButtonState)
    ensures b.disabled <==> b.title != ""
    ensures dt == StockEntry ==>
      (b.disabled <==> doc.from_warehouse == "" && doc.to_warehouse == "")
    ensures dt == StockReconciliation ==> (b.disabled <==> doc.set_warehouse == "")
    ensures dt == SalesOrder || dt == SalesInvoice ==>
      (b.disabled <==> doc.customer == "" || doc.set_warehouse == "")
    ensures dt == SalesOrder || dt == SalesInvoice ==>
      b.title == (if doc.customer == "" && doc.set_warehouse == "" then MsgCustomerAndWarehouse
                  else if doc.customer == "" then MsgCustomer
                  else if doc.set_warehouse == "" then MsgWarehouse
                  else "")
    ensures dt == Quotation ==> (b.disabled <==> doc.party_name == "")
  {
    var config := ConfigOf(dt);
    if config.isStock then
      if dt == StockEntry then
        if doc.from_warehouse == "" && doc.to_warehouse == "" then ButtonState(true, MsgSourceOrTarget)
        else ButtonState(false, "")
      else if GetWarehouse(dt, doc).None? then ButtonState(true, MsgWarehouse)
      else ButtonState(false, "")
    else
      var hasCustomer := HasCustomer(dt, doc);
      var hasWarehouse := GetWarehouse(dt, doc).Some?;
      if config.requiresWarehouse then
        if !hasCustomer && !hasWarehouse then ButtonState(true, MsgCustomerAndWarehouse)
        else if !hasCustomer then ButtonState(true, MsgCustomer)
        else if !hasWarehouse then ButtonState(true, MsgWarehouse)
        else ButtonState(false, "")
      else if !hasCustomer then ButtonState(true, MsgCustomer)
      else ButtonState(false, "")
  }

  /** The checks `show_bulk_item_selector` makes before loading items: the
      message it shows when it refuses to open. */
  function SelectorRefusal(dt: Doctype, doc: FormDoc): (m: Option<string>)
    ensures m.Some? <==> ToggleBulkButton(dt, doc).disabled
    ensures m.Some? && !ConfigOf(dt).isStock && !HasCustomer(dt, doc) ==> m == Some(MsgCustomer)
  {
    if ConfigOf(dt).isStock then
      if dt == StockEntry then
        if doc.from_warehouse == "" && doc.to_warehouse == "" then Some(MsgSourceOrTarget) else None
      else if GetWarehouse(dt, doc).None? then Some(MsgWarehouse)
      else None
    else if !HasCustomer(dt, doc) then Some(MsgCustomer)
    else if ConfigOf(dt).requiresWarehouse && GetWarehouse(dt, doc).None? then Some(MsgWarehouse)
    else None
  }

  // ---------------------------------------------------------------------
  // The item cache kept on the form (`frm._bulk_item_cache`)

  /** What `set_cached_items` records. The sales fields are recorded only
      on sales doctypes. */
  datatype CacheEntry = CacheEntry(
    items: seq<BulkItem>,
    warehouse: Option<string>,
    sales: Option<SalesKey>)

  datatype SalesKey = SalesKey(price_list: string, customer: Option<string>, taxes_and_charges: string)

  function SalesKeyOf(dt: Doctype, doc: FormDoc): SalesKey {
    SalesKey(doc.selling_price_list, GetCustomer(dt, doc), doc.taxes_and_charges)
  }

  function MakeEntry(dt: Doctype, doc: FormDoc, items: seq<BulkItem>, warehouse: Option<string>): CacheEntry {
    CacheEntry(items, warehouse, if ConfigOf(dt).isStock then None else Some(SalesKeyOf(dt, doc)))
  }

  /** `get_cached_items` on a given cache: the items when the warehouse
      recorded matches the form's, and on sales doctypes the price list,
      customer and tax template match too. */
  function Lookup(dt: Doctype, doc: FormDoc, cache: Option<CacheEntry>): Option<seq<BulkItem>> {
    if cache.None? || cache.value.warehouse != GetWarehouse(dt, doc) then None
    else if ConfigOf(dt).isStock then Some(cache.value.items)
    else if cache.value.sales == Some(SalesKeyOf(dt, doc)) then Some(cache.value.items)
    else None
  }

  /** Cache round trip for `get_cached_items` on its own: filled with the
      form's own warehouse, the entry serves its items on another form state
      exactly when the warehouse is the same and, on a sales doctype, so are
      the price list, the customer and the tax template. On the form itself
      a change to any of those fields drops the entry first (`AfterEdit`). */
  lemma CacheRoundTrip(dt: Doctype, doc: FormDoc, later: FormDoc, items: seq<BulkItem>)
    ensures var hit := Lookup(dt, later, Some(MakeEntry(dt, doc, items, GetWarehouse(dt, doc))));
      && (hit.Some? ==> hit.value == items)
      && (hit.Some? <==>
            GetWarehouse(dt, later) == GetWarehouse(dt, doc)
            && (ConfigOf(dt).isStock || SalesKeyOf(dt, later) == SalesKeyOf(dt, doc)))
  {
  }

  lemma EmptyCacheMisses(dt: Doctype, doc: FormDoc)
    ensures Lookup(dt, doc, None) == None
  {
  }

  // ---------------------------------------------------------------------
  // The field handlers registered for each doctype

  /** The header fields of `FormDoc`, by name. */
  datatype Field = PartyName | Customer | SetWarehouse | FromWarehouse | ToWarehouse
                 | SellingPriceList | TaxesAndCharges

  function FieldValue(doc: FormDoc, f: Field): string {
    match f
    case PartyName => doc.party_name
    case Customer => doc.customer
    case SetWarehouse => doc.set_warehouse
    case FromWarehouse => doc.from_warehouse
    case ToWarehouse => doc.to_warehouse
    case SellingPriceList => doc.selling_price_list
    case TaxesAndCharges => doc.taxes_and_charges
  }

  /** The fields with a handler that drops the cache: the price list and the
      tax template on sales doctypes, the configured customer field, the
      configured warehouse field, and `to_warehouse` on a Stock Entry. */
  predicate Watched(dt: Doctype, f: Field) {
    match f
    case SellingPriceList => !ConfigOf(dt).isStock
    case TaxesAndCharges => !ConfigOf(dt).isStock
    case PartyName => dt == Quotation
    case Customer => dt == SalesOrder || dt == SalesInvoice
    case SetWarehouse => dt != StockEntry
    case FromWarehouse => dt == StockEntry
    case ToWarehouse => dt == StockEntry
  }

  /** Some watched field has a different value in `b` than in `a`, so its
      handler runs. */
  predicate WatchedChanged(dt: Doctype, a: FormDoc, b: FormDoc) {
    exists f: Field :: Watched(dt, f) && FieldValue(a, f) != FieldValue(b, f)
  }

  /** The cache after the user changes the header from `a` to `b`: every
      handler that runs while bulk selection is enabled sets it to `null`. */
  function AfterEdit(dt: Doctype, enabled: bool, a: FormDoc, b: FormDoc, cache: Option<CacheEntry>): (c: Option<CacheEntry>)
    ensures c == None || c == cache
    ensures enabled && WatchedChanged(dt, a, b) ==> Lookup(dt, b, c) == None
    ensures !enabled || !WatchedChanged(dt, a, b) ==> c == cache
  {
    if enabled && WatchedChanged(dt, a, b) then None else cache
  }

  /** Every field the cache lookup and the button read is watched: an edit
      that runs no handler changes neither what the cache serves nor the
      button. */
  lemma UnwatchedEditKeepsLookup(dt: Doctype, a: FormDoc, b: FormDoc, cache: Option<CacheEntry>)
    requires !WatchedChanged(dt, a, b)
    ensures Lookup(dt, a, cache) == Lookup(dt, b, cache)
    ensures ToggleBulkButton(dt, a) == ToggleBulkButton(dt, b)
  {
    assert Watched(dt, SellingPriceList) ==> a.selling_price_list == b.selling_price_list;
    assert Watched(dt, TaxesAndCharges) ==> a.taxes_and_charges == b.taxes_and_charges;
    assert Watched(dt, PartyName) ==> a.party_name == b.party_name;
    assert Watched(dt, Customer) ==> a.customer == b.customer;
    assert Watched(dt, SetWarehouse) ==> a.set_warehouse == b.set_warehouse;
    assert Watched(dt, FromWarehouse) ==> a.from_warehouse == b.from_warehouse;
    assert Watched(dt, ToWarehouse) ==> a.to_warehouse == b.to_warehouse;
  }

  /** A form object as far as the bulk selector touches it: the doctype,
      the header fields the user edits, whether bulk selection is enabled
      (`_bulk_selection_enabled`, unset until `onload` has its answer), and
      the cached item list. */
  class BulkForm {
    const doctype: Doctype
    var doc: FormDoc
    var enabled: bool
    var cache: Option<CacheEntry>

    constructor (dt: Doctype, d: FormDoc)
      ensures doctype == dt && doc == d && !enabled && cache == None
    {
      doctype := dt;
      doc := d;
      enabled := false;
      cache := None;
    }

    /** `onload`: the doctype's setting arrives and is stored. */
    method Onload(setting: bool)
      modifies this`enabled
      ensures enabled == setting
    {
      enabled := setting;
    }

    function GetCachedItems(): (r: Option<seq<BulkItem>>)
      reads this
      ensures r.Some? ==> cache.Some? && r.value == cache.value.items
    {
      Lookup(doctype, doc, cache)
    }

    /** `set_cached_items(frm, items, warehouse)`: overwrites the cache. */
    method SetCachedItems(items: seq<BulkItem>, warehouse: Option<string>)
      modifies this`cache
      ensures cache == Some(MakeEntry(doctype, doc, items, warehouse))
      ensures warehouse == GetWarehouse(doctype, doc) ==> GetCachedItems() == Some(items)
    {
      cache := Some(MakeEntry(doctype, doc, items, warehouse));
    }

    /** The user changes header fields to `d`. Each changed watched field
        runs its handler, which, while bulk selection is enabled, drops the
        cache; after such an edit the selector fetches afresh. */
    method EditDoc(d: FormDoc)
      modifies this`doc, this`cache
      ensures doc == d
      ensures cache == AfterEdit(doctype, enabled, old(doc), d, old(cache))
      ensures enabled && WatchedChanged(doctype, old(doc), d) ==> GetCachedItems() == None
    {
      if enabled && WatchedChanged(doctype, doc, d) {
        cache := None;
      }
      doc := d;
    }

    /** The warehouse `show_bulk_item_selector` fetches stock for: `from ||
        to` on a Stock Entry, the configured warehouse elsewhere. */
    function StockWarehouse(): (w: Option<string>)
      reads this
      ensures doctype == StockEntry && doc.from_warehouse == "" && doc.to_warehouse != "" ==>
        w == Some(doc.to_warehouse)
    {
      if doctype == StockEntry then
        if doc.from_warehouse != "" then Some(doc.from_warehouse)
        else if doc.to_warehouse != "" then Some(doc.to_warehouse)
        else None
      else GetWarehouse(doctype, doc)
    }

    /** `show_bulk_item_selector`: refuse with a message, or open the dialog
        with the cached list, or with the fetched list (`response`, `None`
        when the call failed), which is then cached. */
    method OpenSelector(response: Option<seq<BulkItem>>) returns (shown: Option<seq<BulkItem>>, message: string)
      modifies this`cache
      ensures SelectorRefusal(doctype, doc).Some? ==>
        shown == None && message == SelectorRefusal(doctype, doc).value && cache == old(cache)
      ensures SelectorRefusal(doctype, doc).None? && old(GetCachedItems()).Some? ==>
        shown == old(GetCachedItems()) && cache == old(cache)
      ensures SelectorRefusal(doctype, doc).None? && old(GetCachedItems()).None? ==>
        shown == response
        && cache == (if response.Some? then Some(MakeEntry(doctype, doc, response.value, StockWarehouse()))
                     else old(cache))
    {
      var refusal := SelectorRefusal(doctype, doc);
      if refusal.Some? {
        return None, refusal.value;
      }
      var cached := GetCachedItems();
      if cached.Some? {
        return cached, "";
      }
      if response.None? {
        return None, "Error loading item details";
      }
      SetCachedItems(response.value, StockWarehouse());
      return response, "";
    }
  }

  /** A Stock Entry with only a target warehouse stores its list under the
      target warehouse, but `get_cached_items` compares with
      `from_warehouse || null`: as a lookup, the entry matches only a source
      warehouse equal to that target. */
  lemma StockEntryTargetOnlyMisses(doc: FormDoc, later: FormDoc, items: seq<BulkItem>)
    requires doc.from_warehouse == "" && doc.to_warehouse != ""
    ensures Lookup(StockEntry, later, Some(MakeEntry(StockEntry, doc, items, Some(doc.to_warehouse)))).Some?
        <==> later.from_warehouse == doc.to_warehouse
  {
  }

  /** On the form that match never happens while bulk selection is enabled:
      setting `from_warehouse` runs the warehouse handler, which drops the
      entry, so a list fetched for a target-only Stock Entry is never served
      from the cache. */
  lemma StockEntryTargetOnlyNeverServed(doc: FormDoc, later: FormDoc, items: seq<BulkItem>)
    requires doc.from_warehouse == "" && doc.to_warehouse != ""
    ensures Lookup(StockEntry, doc, Some(MakeEntry(StockEntry, doc, items, Some(doc.to_warehouse)))) == None
    ensures Lookup(StockEntry, later,
                   AfterEdit(StockEntry, true, doc, later,
                             Some(MakeEntry(StockEntry, doc, items, Some(doc.to_warehouse))))) == None
  {
    if later.from_warehouse != "" {
      assert Watched(StockEntry, FromWarehouse) && FieldValue(doc, FromWarehouse) != FieldValue(later, FromWarehouse);
    }
  }
}
