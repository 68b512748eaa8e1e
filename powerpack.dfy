/** The global PowerPack client script: the settings cache every feature
    reads its switch from, the save gate that warns about a Tax ID already
    used by another Customer or Supplier, and the overdue-invoice dialog
    with the plain-text payment reminder it copies. */
module PowerPack {
  import opened Wrappers
  import opened Text
  import opened StableSort
  import opened Escaping

  // ---------------------------------------------------------------------
  // Settings

  /** A field of the PowerPack Settings document as the client receives
      it: a number or a string. */
  datatype Field = Num(x: real) | Str(s: string)

  /** The settings document, field name to value; a field it does not carry
      is absent (`undefined`). */
  type SettingsDoc = map<string, Field>

  /** `settings[feature] === 1`: strict equality, so only the number 1
      switches a feature on. */
  predicate FeatureOn(s: SettingsDoc, feature: string) {
    feature in s && s[feature] == Num(1.0)
  }

  /** `feature === 1` admits nothing but the number: neither the string
      "1" nor a missing field. */
  lemma FeatureOnOnlyForNumberOne(s: SettingsDoc, feature: string)
    ensures FeatureOn(s, feature) <==> feature in s && s[feature].Num? && s[feature].x == 1.0
    ensures FeatureOn(s[feature := Str("1")], feature) == false
    ensures FeatureOn(s - {feature}, feature) == false
  {
  }

  /** `CecypoPowerPack.Settings` and its `_cache`. */
  class SettingsCache {
    /** `_cache.settings`: `None` until a non-empty answer arrived. */
    var cached: Option<SettingsDoc>

    constructor ()
      ensures cached == None
    {
      cached := None;
    }

    /** `get`: with settings in the cache it answers from them without
        asking the server; otherwise the server's answer (`response`,
        `None` for an empty one) fills the cache, and an empty answer
        yields `{}` and leaves the cache empty. `fetched` says whether the
        server was asked. */
    method Get(response: Option<SettingsDoc>) returns (settings: SettingsDoc, fetched: bool)
      modifies this
      ensures fetched <==> old(cached).None?
      ensures old(cached).Some? ==> settings == old(cached).value && cached == old(cached)
      ensures old(cached).None? ==> cached == response
      ensures old(cached).None? ==> settings == (if response.Some? then response.value else map[])
    {
      if cached.Some? {
        settings := cached.value;
        fetched := false;
        return;
      }
      fetched := true;
      if response.Some? {
        cached := response;
        settings := response.value;
      } else {
        settings := map[];
      }
    }

    /** `isEnabled`: whether the settings `get` delivers switch `feature`
        on. */
    method IsEnabled(feature: string, response: Option<SettingsDoc>) returns (enabled: bool, fetched: bool)
      modifies this
      ensures fetched <==> old(cached).None?
      ensures old(cached).Some? ==> cached == old(cached) && (enabled <==> FeatureOn(old(cached).value, feature))
      ensures old(cached).None? ==> cached == response
      ensures old(cached).None? ==> (enabled <==> response.Some? && FeatureOn(response.value, feature))
    {
      var settings;
      settings, fetched := Get(response);
      enabled := FeatureOn(settings, feature);
    }

    /** `clearCache`, run when the PowerPack Settings form is saved. */
    method ClearCache()
      modifies this
      ensures cached == None
    {
      cached := None;
    }
  }

  /** Once filled, the cache answers the next `get` without asking the
      server, whatever the server would now say. */
  method SecondGetServedFromCache(c: SettingsCache, first: SettingsDoc, later: Option<SettingsDoc>)
    returns (s1: SettingsDoc, s2: SettingsDoc, fetched2: bool)
    modifies c
    requires c.cached == None
    ensures !fetched2 && s1 == first && s2 == first && c.cached == Some(first)
  {
    var fetched1;
    s1, fetched1 := c.Get(Some(first));
    s2, fetched2 := c.Get(later);
  }

  /** After `clearCache` the next `get` asks the server again and delivers
      the new settings. */
  method ClearedCacheRefetches(c: SettingsCache, newer: SettingsDoc) returns (s: SettingsDoc, fetched: bool)
    modifies c
    ensures fetched && s == newer && c.cached == Some(newer)
  {
    c.ClearCache();
    s, fetched := c.Get(Some(newer));
  }

  // ---------------------------------------------------------------------
  // Duplicate Tax ID gate

  datatype PartyType = Customer | Supplier

  /** One record the server reports as using the same Tax ID. */
  datatype Duplicate = Duplicate(name: string, display_name: Option<string>, creation: string)

  /** The server's answer to the duplicate query. */
  datatype DuplicateReport = DuplicateReport(has_duplicates: bool, duplicates: seq<Duplicate>)

  /** The "Save Anyway / Cancel" dialog: its title and the records it
      lists. */
  datatype ConfirmDialog = ConfirmDialog(title: string, tax_id: string, duplicates: seq<Duplicate>)

  const TaxIdFeature := "enable_duplicate_tax_id_check"

  /** What `checkAndShowDialog` sees of the feature switch: it reads the
      settings synchronously, so only settings already in the cache count;
      an empty cache leaves the switch off for this call. */
  predicate SwitchedOnInCache(cached: Option<SettingsDoc>) {
    cached.Some? && FeatureOn(cached.value, TaxIdFeature)
  }

  /** The allow/block decision of `checkAndShowDialog`: the duplicates to
      list when the save is blocked, `None` when it is allowed. */
  function Decide(tax_id: string, confirmed: bool, switchedOn: bool, report: Option<DuplicateReport>)
    : (blocked: Option<seq<Duplicate>>)
    ensures (tax_id == "" || confirmed) ==> blocked == None
    ensures !switchedOn ==> blocked == None
    ensures tax_id != "" && !confirmed && switchedOn ==>
      (blocked.Some? <==> report.Some? && report.value.has_duplicates)
    ensures blocked.Some? ==> blocked.value == report.value.duplicates
  {
    if tax_id == "" || confirmed then None
    else if !switchedOn then None
    else if report.Some? && report.value.has_duplicates then Some(report.value.duplicates)
    else None
  }

  function DialogTitle(doctype: PartyType): string {
    match doctype
    case Customer => "Duplicate Customer Tax IDs"
    case Supplier => "Duplicate Supplier Tax IDs"
  }

  /** A Customer or Supplier form: its Tax ID, the `_tax_id_confirmed`
      flag, and the confirmation dialog when one is open. */
  class PartyForm {
    const doctype: PartyType
    var tax_id: string
    var confirmed: bool
    var dialog: Option<ConfirmDialog>

    constructor (dt: PartyType, id: string)
      ensures doctype == dt && tax_id == id && !confirmed && dialog == None
    {
      doctype := dt;
      tax_id := id;
      confirmed := false;
      dialog := None;
    }

    /** `checkAndShowDialog`, run from the form's `validate`: `allow` is
        false exactly when the save is blocked, and then the dialog lists
        the server's duplicates. Asking for the settings on an empty cache
        starts a fetch (`settingsResponse`) whose answer arrives after the
        decision. */
    method CheckAndShowDialog(cache: SettingsCache, settingsResponse: Option<SettingsDoc>, report: Option<DuplicateReport>)
      returns (allow: bool)
      modifies this, cache
      ensures var d := Decide(old(tax_id), old(confirmed), SwitchedOnInCache(old(cache.cached)), report);
        && (allow <==> d.None?)
        && dialog == (if d.Some? then Some(ConfirmDialog(DialogTitle(doctype), tax_id, d.value)) else old(dialog))
      ensures tax_id == old(tax_id) && confirmed == old(confirmed)
      ensures cache.cached ==
        if old(tax_id) == "" || old(confirmed) || old(cache.cached).Some? then old(cache.cached) else settingsResponse
    {
      if tax_id == "" || confirmed {
        return true;
      }
      var settings, fetched := cache.Get(settingsResponse);
      var switchedOn := !fetched && FeatureOn(settings, TaxIdFeature);
      if !switchedOn {
        return true;
      }
      if report.Some? && report.value.has_duplicates {
        dialog := Some(ConfirmDialog(DialogTitle(doctype), tax_id, report.value.duplicates));
        return false;
      }
      return true;
    }

    /** "Save Anyway": sets the flag, closes the dialog and saves again. */
    method SaveAnyway()
      modifies this
      ensures confirmed && dialog == None && tax_id == old(tax_id)
    {
      confirmed := true;
      dialog := None;
    }

    /** "Cancel": clears the flag and closes the dialog. */
    method Cancel()
      modifies this
      ensures !confirmed && dialog == None && tax_id == old(tax_id)
    {
      confirmed := false;
      dialog := None;
    }

    /** The form's `after_save`: clears the flag. */
    method AfterSave()
      modifies this
      ensures !confirmed && dialog == old(dialog) && tax_id == old(tax_id)
    {
      confirmed := false;
    }
  }

  /** A blocked save, confirmed with "Save Anyway", goes through on the
      second pass; after that save the next one is checked again. */
  method SaveAnywayRoundTrip(f: PartyForm, cache: SettingsCache, s: SettingsDoc, report: DuplicateReport)
    returns (first: bool, second: bool, third: bool)
    modifies f, cache
    requires f.tax_id != "" && !f.confirmed
    requires cache.cached == Some(s) && FeatureOn(s, TaxIdFeature) && report.has_duplicates
    ensures !first && second && !third
  {
    first := f.CheckAndShowDialog(cache, None, Some(report));
    f.SaveAnyway();
    second := f.CheckAndShowDialog(cache, None, Some(report));
    f.AfterSave();
    third := f.CheckAndShowDialog(cache, None, Some(report));
  }

  /** Because the switch is read from the cache synchronously, the first
      save after the cache was cleared is let through even though the
      feature is on and the Tax ID is taken; the fetch it starts warms the
      cache, and the next save is blocked. */
  method ColdCacheSkipsCheck(f: PartyForm, cache: SettingsCache, s: SettingsDoc, report: DuplicateReport)
    returns (first: bool, second: bool)
    modifies f, cache
    requires f.tax_id != "" && !f.confirmed
    requires FeatureOn(s, TaxIdFeature) && report.has_duplicates
    ensures first && !second
  {
    cache.ClearCache();
    first := f.CheckAndShowDialog(cache, Some(s), Some(report));
    second := f.CheckAndShowDialog(cache, Some(s), Some(report));
  }

  // ---------------------------------------------------------------------
  // Overdue invoices

  /** One overdue invoice as the server lists it; `outstanding_amount` and
      `currency` may be missing. */
  datatype OverdueInvoice = OverdueInvoice(
    name: string,
    due_date: string,
    grand_total: real,
    outstanding_amount: Option<real>,
    currency: Option<string>)

  /** `flt(inv.outstanding_amount)`: a missing amount counts as 0. */
  function Outstanding(inv: OverdueInvoice): real {
    inv.outstanding_amount.GetOr(0.0)
  }

  /** The sum of the outstanding amounts. */
  function TotalOutstanding(invoices: seq<OverdueInvoice>): real {
    if invoices == [] then 0.0
    else TotalOutstanding(invoices[..|invoices| - 1]) + Outstanding(invoices[|invoices| - 1])
  }

  lemma {:induction false} TotalOutstandingAppend(a: seq<OverdueInvoice>, b: seq<OverdueInvoice>)
    ensures TotalOutstanding(a + b) == TotalOutstanding(a) + TotalOutstanding(b)
    decreases |b|
  {
    if b == [] {
      assert a + b == a;
    } else {
      var n := |b| - 1;
      assert (a + b)[..|a + b| - 1] == a + b[..n];
      assert (a + b)[|a + b| - 1] == b[n];
      TotalOutstandingAppend(a, b[..n]);
    }
  }

  /** The reported total owes nothing only when no invoice does, as long as
      no amount is negative. */
  lemma {:induction false} TotalOutstandingNonNegative(invoices: seq<OverdueInvoice>)
    requires forall k :: 0 <= k < |invoices| ==> Outstanding(invoices[k]) >= 0.0
    ensures TotalOutstanding(invoices) >= 0.0
    ensures TotalOutstanding(invoices) == 0.0 <==> forall k :: 0 <= k < |invoices| ==> Outstanding(invoices[k]) == 0.0
  {
    if invoices != [] {
      var n := |invoices| - 1;
      TotalOutstandingNonNegative(invoices[..n]);
      assert forall k :: 0 <= k < n ==> invoices[..n][k] == invoices[k];
    }
  }

  /** The order of the invoices does not change the total. */
  lemma {:induction false} TotalOutstandingOrderFree(a: seq<OverdueInvoice>, b: seq<OverdueInvoice>)
    requires multiset(a) == multiset(b)
    ensures TotalOutstanding(a) == TotalOutstanding(b)
    decreases |a|
  {
    if a != [] {
      var n := |a| - 1;
      var x := a[n];
      assert a == a[..n] + [x];
      assert x in multiset(b);
      var j :| 0 <= j < |b| && b[j] == x;
      var rest := b[..j] + b[j + 1..];
      RemoveOne(a, b, j);
      TotalOutstandingOrderFree(a[..n], rest);
      TotalWithout(b, j);
      TotalOutstandingAppend(a[..n], [x]);
      TotalOfOne(x);
    }
  }

  /** Taking the last element from one side and an equal one from the
      other leaves equal multisets. */
  lemma RemoveOne<T>(a: seq<T>, b: seq<T>, j: nat)
    requires multiset(a) == multiset(b) && a != []
    requires j < |b| && b[j] == a[|a| - 1]
    ensures multiset(a[..|a| - 1]) == multiset(b[..j] + b[j + 1..])
  {
    var n, x := |a| - 1, a[|a| - 1];
    assert a == a[..n] + [x];
    assert b == b[..j] + [x] + b[j + 1..];
    assert multiset(a[..n]) == multiset(a) - multiset{x};
    assert multiset(b[..j] + b[j + 1..]) == multiset(b) - multiset{x};
  }

  lemma TotalOfOne(x: OverdueInvoice)
    ensures TotalOutstanding([x]) == Outstanding(x)
  {
    assert [x][..0] == [];
  }

  /** The total is the invoice at `j` plus the total of the others. */
  lemma TotalWithout(b: seq<OverdueInvoice>, j: nat)
    requires j < |b|
    ensures TotalOutstanding(b) == TotalOutstanding(b[..j] + b[j + 1..]) + Outstanding(b[j])
  {
    SplitAt(b, j);
    TotalAround(b[..j], b[j], b[j + 1..]);
  }

  lemma SplitAt<T>(b: seq<T>, j: nat)
    requires j < |b|
    ensures b == b[..j] + [b[j]] + b[j + 1..]
  {
  }

  lemma TotalAround(p: seq<OverdueInvoice>, x: OverdueInvoice, q: seq<OverdueInvoice>)
    ensures TotalOutstanding(p + [x] + q) == TotalOutstanding(p + q) + Outstanding(x)
  {
    TotalOutstandingAppend(p, [x]);
    TotalOutstandingAppend(p + [x], q);
    TotalOutstandingAppend(p, q);
    TotalOfOne(x);
  }

  /** `'s'` after "invoice" unless there is exactly one. */
  function Plural(n: nat): (r: string)
    ensures r == "s" || r == ""
  {
    if n != 1 then "s" else ""
  }

  lemma PluralIffNotOne(n: nat)
    ensures Plural(n) == "s" <==> n != 1
    ensures Plural(n) == "" <==> n == 1
  {
  }

  /** The figures the overdue dialog shows: the customer, the invoices, how
      many, the plural suffix, the total and its currency. */
  datatype OverdueDialog = OverdueDialog(
    customer_name: string,
    invoices: seq<OverdueInvoice>,
    count: nat,
    plural: string,
    total: real,
    currency: string)

  /** The currency of the total: the first invoice's, or '' without
      invoices or when the first has none. */
  function TotalCurrency(invoices: seq<OverdueInvoice>): (c: string)
    ensures invoices == [] ==> c == ""
    ensures invoices != [] && invoices[0].currency.Some? ==> c == invoices[0].currency.value
    ensures invoices != [] && invoices[0].currency.None? ==> c == ""
  {
    if invoices == [] then "" else invoices[0].currency.GetOr("")
  }

  /** The data of `showOverdueDialog`, with missing `invoices` and
      `customer_name` read as empty; it sums the outstanding amounts in a
      loop. */
  method ShowOverdueDialog(invoices: Option<seq<OverdueInvoice>>, customer_name: Option<string>)
    returns (d: OverdueDialog)
    ensures d.invoices == invoices.GetOr([]) && d.customer_name == customer_name.GetOr("")
    ensures d.count == |d.invoices| && (d.plural == "s" <==> d.count != 1)
    ensures d.total == TotalOutstanding(d.invoices)
    ensures d.currency == TotalCurrency(d.invoices)
  {
    var invs := invoices.GetOr([]);
    var currency := if |invs| > 0 then invs[0].currency.GetOr("") else "";
    var total := 0.0;
    var i := 0;
    while i < |invs|
      invariant 0 <= i <= |invs|
      invariant total == TotalOutstanding(invs[..i])
    {
      assert invs[..i + 1][..i] == invs[..i];
      total := total + Outstanding(invs[i]);
      i := i + 1;
    }
    assert invs[..i] == invs;
    d := OverdueDialog(customer_name.GetOr(""), invs, |invs|, Plural(|invs|), total, currency);
  }

  // ---------------------------------------------------------------------
  // Payment reminder text

  /** `pad(str, len)`: `str` followed by `max(0, len - str.length)` spaces,
      where `length` counts UTF-16 code units. */
  function Pad(s: string, len: int): (r: string)
    ensures s <= r
    ensures forall k :: |s| <= k < |r| ==> r[k] == ' '
    ensures |Utf16(r)| == if len > |Utf16(s)| then len else |Utf16(s)|
  {
    var n := if len > |Utf16(s)| then len - |Utf16(s)| else 0;
    var spaces := seq(n, _ => ' ');
    Utf16Append(s, spaces);
    Utf16OfBmp(spaces);
    s + spaces
  }

  /** The formatting the reminder leaves to the framework: dates for the
      user, and `format_currency(value, currency)`, which is handed the
      fields as they are, missing ones included. */
  datatype Formats = Formats(date: string -> string, money: (Option<real>, Option<string>) -> string)

  /** `'-'.repeat(72)`. */
  function Separator(): (r: string)
    ensures |r| == 72 && forall k :: 0 <= k < 72 ==> r[k] == '-'
  {
    seq(72, _ => '-')
  }

  /** A line of the reminder's table: three fields padded to 22, 16 and 20
      code units, then the fourth. */
  function Row(a: string, b: string, c: string, d: string): string {
    Pad(a, 22) + Pad(b, 16) + Pad(c, 20) + d
  }

  /** The first three fields fit their widths. */
  predicate Fits(a: string, b: string, c: string) {
    |Utf16(a)| <= 22 && |Utf16(b)| <= 16 && |Utf16(c)| <= 20
  }

  function HeaderLine(): string {
    Row("Invoice", "Due Date", "Amount", "Outstanding")
  }

  /** One invoice's line: number, due date, amount and outstanding amount. */
  function InvoiceLine(inv: OverdueInvoice, f: Formats): string {
    Row(inv.name, f.date(inv.due_date), f.money(Some(inv.grand_total), inv.currency),
        f.money(inv.outstanding_amount, inv.currency))
  }

  function InvoiceLines(invoices: seq<OverdueInvoice>, f: Formats): (r: seq<string>)
    ensures |r| == |invoices|
  {
    if invoices == [] then []
    else InvoiceLines(invoices[..|invoices| - 1], f) + [InvoiceLine(invoices[|invoices| - 1], f)]
  }

  const Intro := "Please note that the following invoices are overdue:"
  const TotalLabel := "Total Outstanding: "
  const Request := "Kindly arrange for payment at your earliest convenience."
  const Thanks := "Thank you."

  function ReminderHead(customer_name: string): seq<string> {
    ["Dear " + customer_name + ",",
     Intro,
     HeaderLine(),
     Separator()]
  }

  function ReminderTail(total_fmt: string): seq<string> {
    [Separator(),
     TotalLabel + total_fmt,
     "",
     Request,
     Thanks]
  }

  /** The lines of the reminder. */
  function ReminderLines(customer_name: string, invoices: seq<OverdueInvoice>, total_fmt: string, f: Formats)
    : seq<string>
  {
    ReminderHead(customer_name) + InvoiceLines(invoices, f) + ReminderTail(total_fmt)
  }

  /** `lines.join('\n')`. */
  function Join(lines: seq<string>): string {
    if lines == [] then ""
    else if |lines| == 1 then lines[0]
    else lines[0] + "\n" + Join(lines[1..])
  }

  /** The `forEach` of `copyReminderText`: pushes one line per invoice, in
      order, onto `lines0`. */
  method PushInvoiceLines(lines0: seq<string>, invoices: seq<OverdueInvoice>, f: Formats) returns (lines: seq<string>)
    ensures lines == lines0 + InvoiceLines(invoices, f)
  {
    lines := lines0;
    var i := 0;
    while i < |invoices|
      invariant 0 <= i <= |invoices|
      invariant lines == lines0 + InvoiceLines(invoices[..i], f)
    {
      InvoiceLinesStep(invoices, i, f);
      lines := lines + [InvoiceLine(invoices[i], f)];
      i := i + 1;
    }
    TakeAll(invoices);
  }

  lemma InvoiceLinesStep(invoices: seq<OverdueInvoice>, i: nat, f: Formats)
    requires i < |invoices|
    ensures InvoiceLines(invoices[..i + 1], f) == InvoiceLines(invoices[..i], f) + [InvoiceLine(invoices[i], f)]
  {
    PrefixOfPrefix(invoices, i);
  }

  lemma PrefixOfPrefix<T>(s: seq<T>, i: nat)
    requires i < |s|
    ensures s[..i + 1][..i] == s[..i] && s[..i + 1][i] == s[i]
  {
  }

  lemma TakeAll<T>(s: seq<T>)
    ensures s[..|s|] == s
  {
  }

  /** `copyReminderText` up to the clipboard: the text it builds line by
      line and joins. */
  method ReminderText(customer_name: string, invoices: seq<OverdueInvoice>, total: real, currency: string, f: Formats)
    returns (text: string, lines: seq<string>)
    ensures lines == ReminderLines(customer_name, invoices, f.money(Some(total), Some(currency)), f)
    ensures text == Join(lines)
  {
    lines := PushInvoiceLines(ReminderHead(customer_name), invoices, f);
    lines := lines + ReminderTail(f.money(Some(total), Some(currency)));
    text := Join(lines);
  }

  lemma {:induction false} InvoiceLinesAt(invoices: seq<OverdueInvoice>, f: Formats, i: nat)
    requires i < |invoices|
    ensures InvoiceLines(invoices, f)[i] == InvoiceLine(invoices[i], f)
    decreases |invoices|
  {
    var n := |invoices| - 1;
    var front := InvoiceLines(invoices[..n], f);
    assert InvoiceLines(invoices, f) == front + [InvoiceLine(invoices[n], f)];
    SnocAt(front, InvoiceLine(invoices[n], f), i);
    if i < n {
      assert invoices[..n][i] == invoices[i];
      InvoiceLinesAt(invoices[..n], f, i);
    }
  }

  lemma SnocAt<T>(p: seq<T>, x: T, i: nat)
    requires i <= |p|
    ensures (p + [x])[i] == if i < |p| then p[i] else x
  {
  }

  /** The frame of the reminder: the greeting, the header and a separator
      (`ReminderHead`) first, and the separator again, the total and the
      closing lines (`ReminderTail`) last, around one line per invoice. */
  lemma ReminderFrame(customer_name: string, invoices: seq<OverdueInvoice>, total_fmt: string, f: Formats)
    ensures var r := ReminderLines(customer_name, invoices, total_fmt, f);
      && |r| == |invoices| + 9
      && r[..4] == ReminderHead(customer_name)
      && r[|invoices| + 4..] == ReminderTail(total_fmt)
  {
    HeadAndTailSizes(customer_name, total_fmt);
    ThreeParts(ReminderHead(customer_name), InvoiceLines(invoices, f), ReminderTail(total_fmt));
  }

  /** Between head and tail, the invoice lines come in the order of the
      invoices. */
  lemma ReminderInvoiceOrder(customer_name: string, invoices: seq<OverdueInvoice>, total_fmt: string, f: Formats)
    ensures var r := ReminderLines(customer_name, invoices, total_fmt, f);
      && |r| == |invoices| + 9
      && forall i :: 0 <= i < |invoices| ==> r[i + 4] == InvoiceLine(invoices[i], f)
  {
    HeadAndTailSizes(customer_name, total_fmt);
    LinesBetween(ReminderHead(customer_name), ReminderTail(total_fmt), invoices, f);
  }

  lemma LinesBetween(h: seq<string>, t: seq<string>, invoices: seq<OverdueInvoice>, f: Formats)
    requires |h| == 4 && |t| == 5
    ensures var r := h + InvoiceLines(invoices, f) + t;
      && |r| == |invoices| + 9
      && forall i :: 0 <= i < |invoices| ==> r[i + 4] == InvoiceLine(invoices[i], f)
  {
    ThreeParts(h, InvoiceLines(invoices, f), t);
    InvoiceLinesEach(invoices, f);
  }

  lemma HeadAndTailSizes(customer_name: string, total_fmt: string)
    ensures |ReminderHead(customer_name)| == 4 && |ReminderTail(total_fmt)| == 5
  {
  }

  lemma InvoiceLinesEach(invoices: seq<OverdueInvoice>, f: Formats)
    ensures forall i :: 0 <= i < |invoices| ==> InvoiceLines(invoices, f)[i] == InvoiceLine(invoices[i], f)
  {
    forall i | 0 <= i < |invoices|
      ensures InvoiceLines(invoices, f)[i] == InvoiceLine(invoices[i], f)
    {
      InvoiceLinesAt(invoices, f, i);
    }
  }

  lemma ThreeParts<T>(h: seq<T>, m: seq<T>, t: seq<T>)
    ensures (h + m + t)[..|h|] == h && (h + m + t)[|h| + |m|..] == t
    ensures forall i :: 0 <= i < |m| ==> (h + m + t)[|h| + i] == m[i]
  {
  }

  predicate IsNewline(c: char) { c == '\n' }

  lemma {:induction false} JoinNewlines(lines: seq<string>)
    requires lines != []
    requires forall i :: 0 <= i < |lines| ==> Count(lines[i], IsNewline) == 0
    ensures Count(Join(lines), IsNewline) == |lines| - 1
  {
    if |lines| > 1 {
      JoinNewlines(lines[1..]);
      CountAppend(lines[0], "\n", IsNewline);
      CountAppend(lines[0] + "\n", Join(lines[1..]), IsNewline);
      assert Count("\n", IsNewline) == 1 by {
        assert "\n"[1..] == "";
      }
    }
  }

  /** When no field holds a line break, the copied reminder has exactly
      `n + 8` of them: it reads back as the `n + 9` lines of the layout. */
  lemma ReminderLineBreaks(customer_name: string, invoices: seq<OverdueInvoice>, total_fmt: string, f: Formats)
    requires forall i :: 0 <= i < |ReminderLines(customer_name, invoices, total_fmt, f)| ==>
      Count(ReminderLines(customer_name, invoices, total_fmt, f)[i], IsNewline) == 0
    ensures Count(Join(ReminderLines(customer_name, invoices, total_fmt, f)), IsNewline) == |invoices| + 8
  {
    ReminderFrame(customer_name, invoices, total_fmt, f);
    JoinNewlines(ReminderLines(customer_name, invoices, total_fmt, f));
  }

  /** The code units of `pad(s, n)` begin with those of `s`. */
  lemma PadUnits(s: string, len: int)
    ensures Utf16(Pad(s, len))[..|Utf16(s)|] == Utf16(s)
  {
    var r := Pad(s, len);
    assert r == s + r[|s|..];
    Utf16Append(s, r[|s|..]);
  }

  lemma SliceOfParts<T>(p: seq<T>, y: seq<T>, q: seq<T>, n: nat)
    requires n <= |y|
    ensures (p + y + q)[|p|..|p| + n] == y[..n]
  {
  }

  /** When the first three fields fit their widths, a row puts its fields
      at code units 0, 22, 38 and 58. */
  lemma RowColumns(a: string, b: string, c: string, d: string)
    requires Fits(a, b, c)
    ensures var u := Utf16(Row(a, b, c, d));
      && |u| == 58 + |Utf16(d)|
      && u[..|Utf16(a)|] == Utf16(a)
      && u[22..22 + |Utf16(b)|] == Utf16(b)
      && u[38..38 + |Utf16(c)|] == Utf16(c)
      && u[58..] == Utf16(d)
  {
    PadUnits(a, 22);
    PadUnits(b, 16);
    PadUnits(c, 20);
    RowUnits(a, b, c, d);
    Columns(Utf16(Pad(a, 22)), Utf16(Pad(b, 16)), Utf16(Pad(c, 20)), Utf16(d), Utf16(a), Utf16(b), Utf16(c));
  }

  lemma RowUnits(a: string, b: string, c: string, d: string)
    ensures Utf16(Row(a, b, c, d)) == Utf16(Pad(a, 22)) + Utf16(Pad(b, 16)) + Utf16(Pad(c, 20)) + Utf16(d)
  {
    var pa, pb, pc := Pad(a, 22), Pad(b, 16), Pad(c, 20);
    Utf16Append(pa, pb);
    Utf16Append(pa + pb, pc);
    Utf16Append(pa + pb + pc, d);
  }

  /** Columns of widths 22, 16 and 20, each starting with its field. */
  lemma Columns(ua: seq<int>, ub: seq<int>, uc: seq<int>, ud: seq<int>, xa: seq<int>, xb: seq<int>, xc: seq<int>)
    requires |ua| == 22 && |ub| == 16 && |uc| == 20
    requires |xa| <= 22 && |xb| <= 16 && |xc| <= 20
    requires ua[..|xa|] == xa && ub[..|xb|] == xb && uc[..|xc|] == xc
    ensures var u := ua + ub + uc + ud;
      && |u| == 58 + |ud|
      && u[..|xa|] == xa
      && u[22..22 + |xb|] == xb
      && u[38..38 + |xc|] == xc
      && u[58..] == ud
  {
    SliceOfParts([], ua, ub + uc + ud, |xa|);
    SliceOfParts(ua, ub, uc + ud, |xb|);
    SliceOfParts(ua + ub, uc, ud, |xc|);
  }

  /** The header's titles fit their columns, so the header and every
      invoice line whose fields fit are rows of one layout: the titles
      stand above the fields. */
  lemma HeaderFits()
    ensures Fits("Invoice", "Due Date", "Amount")
  {
    TitlesPlain();
    TitleUnits("Invoice");
    TitleUnits("Due Date");
    TitleUnits("Amount");
  }

  /** ASCII letters and spaces only. */
  predicate Plain(s: string) {
    forall k :: 0 <= k < |s| ==> s[k] == ' ' || 'A' <= s[k] <= 'z'
  }

  lemma TitlesPlain()
    ensures Plain("Invoice") && Plain("Due Date") && Plain("Amount")
  {
  }

  /** A plain title takes one code unit a letter. */
  lemma TitleUnits(s: string)
    requires Plain(s)
    ensures |Utf16(s)| == |s|
  {
    Utf16OfBmp(s);
  }
}
