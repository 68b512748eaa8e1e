# ERPNext PowerPack: a verified model of its in-memory logic

PowerPack is a Frappe/ERPNext app. It adds form scripts and server hooks to
the sales, stock, point-of-sale and payment-reconciliation screens of
ERPNext. Most of it is user-interface glue. Inside that glue are small
deterministic pieces of logic that run on in-memory data. This Dafny
project models those pieces and proves what they promise:

- **Bulk item selector** (`bulk_form`, `bulk_search`, `wildcard`,
  `bulk_dialog`, `bulk_merge`):
  - when the "Bulk Selection" button is disabled for each document type;
  - the per-form item cache;
  - token search and `%`-wildcard search, with their relevance orders;
  - the "Available only" filter, column sort and 20-row pagination;
  - the dialog state class (`current_page`, `sort_column`,
    `sort_direction`, `quantities`) and its event handlers;
  - the running totals;
  - the merge of the selected items into the document's item table.
- **POS compact view** (`pos_search`, `pos_view`, `escaping`):
  - the second search scorer;
  - keyboard navigation as a state machine over the selected index;
  - the bulk-add selection map and its counter;
  - bulk add to cart;
  - the stock indicator and the column-hiding classes;
  - the attribute escaping that bulk add relies on to find an item's
    element again.
- **Profit and margin arithmetic** (`profit_calculator`, `sales_info`):
  - tax-rate derivation;
  - item and document profit;
  - margin with its zero guards;
  - the five margin bands;
  - the item information strip and profit summary. These are shared by
    the sales PowerUp script and the Quotation tweaks script, and a
    `Variant` records where the two differ.
- **Settings cache and save gating** (`powerpack`):
  - the fill-once settings cache and its clearing;
  - the Tax ID duplicate allow/block decision and its confirmation flag;
  - the overdue-invoice dialog total;
  - the fixed-width text of the payment reminder.
- **Payment reconciliation with zero allocations** (`reconciliation_doc`,
  `reconciliation_client`, `overrides`, `zero_reconcile`):
  - the browser buttons and their counts;
  - the zero-allocation row builder with its replace/append choice;
  - the server validator;
  - the first-match lookups;
  - the wrapper that drops zero rows;
  - the custom reconciliation controller, which filters, builds one entry
    per allocation and partitions the entries into the two lists passed to
    ERPNext.
- **ETR cancellation guard** (`validations`): the allow/block decision
  made before an invoice is cancelled.

Shared modules:

- `wrappers`: `Option` and `Result`.
- `text`: ASCII lower-casing, trimming, whitespace tokens, substring
  containment.
- `escaping` also holds the order JavaScript's `<` and `>` put on strings:
  UTF-16 code unit by code unit.
- `stable_sort`: the stable sort behind JavaScript's `Array.prototype.sort`.
  This is an insertion sort, with a proof that it is the only stable sort
  of its input.

Amounts are Dafny `real`, so floating-point rounding is not modelled.
Server calls, settings fetches and user answers in dialogs become
parameters of the methods that receive them.

Where the two sales scripts and their description disagree, the model
follows the code:
- the Quotation tweaks script is switched on by any non-zero
  `enable_quotation_tweaks`;
- its `add_item_info` has no customer/warehouse guard.

## Model

| member | source | states |
|---|---|---|
| BulkForm.GetCustomer | cecypo_powerpack/public/js/bulk_selection.js:69-73 | no customer on stock doctypes; `party_name` on a Quotation, `customer` on Sales Order and Sales Invoice |
| BulkForm.GetWarehouse | cecypo_powerpack/public/js/bulk_selection.js:275-279 | the configured warehouse field (`from_warehouse` on Stock Entry, `set_warehouse` elsewhere), absent exactly when that field is empty |
| BulkForm.ToggleBulkButton | cecypo_powerpack/public/js/bulk_selection.js:175-234 | the button is disabled exactly when a tooltip is set; Stock Entry needs a source or target warehouse, Stock Reconciliation a warehouse, Sales Order/Invoice customer and warehouse (with the three distinct messages), Quotation a customer |
| BulkForm.SelectorRefusal | cecypo_powerpack/public/js/bulk_selection.js:281-351 | the selector refuses to open exactly when the button would be disabled, and a sales form without a customer gets the customer message first |
| BulkForm.MakeEntry | cecypo_powerpack/public/js/bulk_selection.js:259-273 | the entry `set_cached_items` stores: the items, the warehouse and, on sales doctypes only, the customer and price-list key |
| BulkForm.Lookup | cecypo_powerpack/public/js/bulk_selection.js:236-257 | `get_cached_items`: the stored items when the warehouse matches and, on sales doctypes, the sales key too; otherwise none; CacheRoundTrip and EmptyCacheMisses state it |
| BulkForm.CacheRoundTrip | cecypo_powerpack/public/js/bulk_selection.js:236-273 | as a lookup on its own, an entry filled for the form's warehouse serves exactly the stored items, and only on a form state with the same warehouse and (on sales doctypes) the same price list, customer and tax template |
| BulkForm.EmptyCacheMisses | cecypo_powerpack/public/js/bulk_selection.js:240-242 | an empty cache never serves items |
| BulkForm.AfterEdit | cecypo_powerpack/public/js/bulk_selection.js:98-136 | the cache after an edit is either dropped or kept; it is dropped exactly when bulk selection is enabled and a watched field changed (price list and tax template on sales doctypes, the customer field, the warehouse field, `to_warehouse` on Stock Entry) |
| BulkForm.UnwatchedEditKeepsLookup | cecypo_powerpack/public/js/bulk_selection.js:98-136 | every field the cache lookup and the button read is watched: an edit that runs no handler changes neither what the cache serves nor the button state (also lines 175-257) |
| BulkForm.BulkForm.Onload | cecypo_powerpack/public/js/bulk_selection.js:79-87 | the doctype's enable setting is stored on the form |
| BulkForm.BulkForm.constructor | cecypo_powerpack/public/js/bulk_selection.js:236-242 | a new form has no cache, and bulk selection is not yet enabled |
| BulkForm.BulkForm.GetCachedItems | cecypo_powerpack/public/js/bulk_selection.js:236-257 | what it serves is the stored item list |
| BulkForm.BulkForm.SetCachedItems | cecypo_powerpack/public/js/bulk_selection.js:259-273 | the cache is overwritten with the items, the warehouse and the sales key; a lookup with the same warehouse then hits |
| BulkForm.BulkForm.EditDoc | cecypo_powerpack/public/js/bulk_selection.js:98-136 | the header becomes the new one; while bulk selection is enabled, a change to any watched field drops the cache, so the next lookup misses; otherwise the cache is kept |
| BulkForm.BulkForm.StockWarehouse | cecypo_powerpack/public/js/bulk_selection.js:288-295 | on a Stock Entry with only a target warehouse the stock warehouse is the target |
| BulkForm.BulkForm.OpenSelector | cecypo_powerpack/public/js/bulk_selection.js:281-387 | a refusal shows its message and changes nothing; a cache hit shows the cached items; otherwise the fetched items are shown and cached under the stock warehouse, and a failed fetch changes nothing |
| BulkForm.StockEntryTargetOnlyMisses | cecypo_powerpack/public/js/bulk_selection.js:236-295 | as a lookup, an entry stored for a target-only Stock Entry matches exactly the form states whose `from_warehouse` equals that target |
| BulkForm.StockEntryTargetOnlyNeverServed | cecypo_powerpack/public/js/bulk_selection.js:122-136 | with bulk selection enabled, a list fetched for a target-only Stock Entry is never served from the cache: setting `from_warehouse` runs the warehouse handler, which drops it (also lines 236-295) |
| Wildcard.MatchFrom | cecypo_powerpack/public/js/bulk_selection.js:446-453 | the regex of `wildcard_to_regex` anchored at the start of the text: a literal character matches itself and `%` any run of characters without a line terminator; its meaning is given by MatchFromLiteral, TrailingPercentFrom, LeadingPercentFrom and PercentSpansGap |
| Wildcard.Matches | cecypo_powerpack/public/js/bulk_selection.js:446-453 | `regex.test(s)`: the pattern matches from some position of the text (also lines 507-510); LiteralMatchesIsContains shows it is substring search for a term without `%`, MatchesSuffix that it is unanchored |
| Wildcard.MatchFromLiteral | cecypo_powerpack/public/js/bulk_selection.js:446-453 | a pattern without `%` matches a prefix exactly when it is a prefix |
| Wildcard.LiteralMatchesIsContains | cecypo_powerpack/public/js/bulk_selection.js:446-511 | a term without `%` matches exactly the texts that contain it |
| Wildcard.MatchesSuffix | cecypo_powerpack/public/js/bulk_selection.js:446-453 | an unanchored match survives text added in front |
| Wildcard.TrailingPercentFrom | cecypo_powerpack/public/js/bulk_selection.js:446-453 | a trailing `%` (`.*`) changes no prefix match |
| Wildcard.TrailingPercent | cecypo_powerpack/public/js/bulk_selection.js:446-453 | a trailing `%` changes no search result |
| Wildcard.LeadingPercentFrom | cecypo_powerpack/public/js/bulk_selection.js:446-453 | a match of `%p` at the start gives a match of `p` somewhere |
| Wildcard.LeadingPercent | cecypo_powerpack/public/js/bulk_selection.js:446-453 | a leading `%` changes no search result |
| Wildcard.PercentMatchesAll | cecypo_powerpack/public/js/bulk_selection.js:446-453 | `%` alone matches every text |
| Wildcard.PercentSpansGap | cecypo_powerpack/public/js/bulk_selection.js:446-453 | `a%b` matches text that starts with `a` and has `b` later on the same line |
| BulkSearch.TokenSearch | cecypo_powerpack/public/js/bulk_selection.js:530-572 | the item list filtered to the items matching every token, then stably sorted by descending score; TokenSearchSpec proves it is the unique such sort of an independent filter |
| BulkSearch.TokenScore | cecypo_powerpack/public/js/bulk_selection.js:541-564 | the per-token code and name points plus `max(0, 20 - code length)`, the length in UTF-16 units; bounded by TokenPointsBounds, ranked by ExactCodeOutranks |
| BulkSearch.ByScore | cecypo_powerpack/public/js/bulk_selection.js:571 | the comparator `b.score - a.score` as "a goes first or ties"; ByScoreTotal proves it a total preorder |
| BulkSearch.WildcardSearch | cecypo_powerpack/public/js/bulk_selection.js:501-528 | the items whose lower-cased code or name the pattern matches, sorted by the code-match comparator; WildcardSearchSpec states the result |
| BulkSearch.ByCodeMatch | cecypo_powerpack/public/js/bulk_selection.js:514-527 | a code match goes before a name-only match, then by lower-cased code in UTF-16 code-unit order; ByCodeMatchTotal proves it a total preorder |
| BulkSearch.ByColumn | cecypo_powerpack/public/js/bulk_selection.js:583-595 | the column comparator by `<` and `>` on the lower-cased text (or the number), reversed for "desc"; ByColumnTotal, StringOrderTransitive and DescIsReverseOfAsc state its order |
| BulkSearch.CodePoints | cecypo_powerpack/public/js/bulk_selection.js:547-552 | 100, 50, 30 or 0 code points, positive exactly when the code contains the token |
| BulkSearch.NamePoints | cecypo_powerpack/public/js/bulk_selection.js:554-560 | 25, 15, 10 or 0 name points |
| BulkSearch.AllTokensMatchMeaning | cecypo_powerpack/public/js/bulk_selection.js:538-543 | a white-space-free token occurs in `code + ' ' + name` exactly when it occurs in the code or in the name |
| BulkSearch.TokenPointsBounds | cecypo_powerpack/public/js/bulk_selection.js:541-561 | every token of a matching item scores between 10 and 125 points |
| BulkSearch.ExactCodeOutranks | cecypo_powerpack/public/js/bulk_selection.js:546-564 | an item whose code is the search word outranks any item whose code does not contain it |
| BulkSearch.ByScoreTotal | cecypo_powerpack/public/js/bulk_selection.js:571 | the score comparator is a total preorder, as the sort needs |
| BulkSearch.TokenSearchSpec | cecypo_powerpack/public/js/bulk_selection.js:530-572 | the token search keeps exactly the items matching every token, highest score first, equal scores in list order |
| BulkSearch.ByCodeMatchTotal | cecypo_powerpack/public/js/bulk_selection.js:514-527 | the wildcard comparator is a total preorder |
| BulkSearch.WildcardSearchSpec | cecypo_powerpack/public/js/bulk_selection.js:501-528 | the wildcard search keeps exactly the items whose code or name matches, code matches ahead of name-only matches, each group by code |
| BulkSearch.StringLeReflexive | cecypo_powerpack/public/js/bulk_selection.js:583-595 | the string order is reflexive |
| BulkSearch.ByColumnTotal | cecypo_powerpack/public/js/bulk_selection.js:583-595 | the column comparator is a total preorder in both directions |
| BulkSearch.StringOrderTransitive | cecypo_powerpack/public/js/bulk_selection.js:587-593 | "not greater" on text is transitive in both directions |
| BulkSearch.DescIsReverseOfAsc | cecypo_powerpack/public/js/bulk_selection.js:592-593 | on distinct column values "desc" is the reverse of "asc" |
| BulkSearch.Searched | cecypo_powerpack/public/js/bulk_selection.js:498-574 | the search result is a sub-multiset of the item list |
| BulkSearch.SortedFilteredData | cecypo_powerpack/public/js/bulk_selection.js:492-598 | the rows are a sub-multiset of the items, and all in stock when "Available only" is ticked |
| BulkSearch.NoSearchIsColumnSort | cecypo_powerpack/public/js/bulk_selection.js:576-595 | with an empty search box the rows are the (available) items sorted by the chosen column, ties in list order |
| BulkSearch.SearchIgnoresColumn | cecypo_powerpack/public/js/bulk_selection.js:582 | while searching, the column and direction do not affect the rows |
| BulkSearch.TotalPages | cecypo_powerpack/public/js/bulk_selection.js:603 | at least one page, and exactly enough 20-row pages for the rows |
| BulkSearch.PageSlice | cecypo_powerpack/public/js/bulk_selection.js:609-611 | at most 20 rows, each the row at its offset from the page start; a page within range of a non-empty list is not empty |
| BulkSearch.RowOnItsPage | cecypo_powerpack/public/js/bulk_selection.js:600-611 | row `i` appears on page `i / 20 + 1`, which is within range |
| BulkDialog.PutValid | cecypo_powerpack/public/js/bulk_selection.js:1702-1725 | assigning a non-negative quantity keeps the quantities non-negative and each key listed once, in insertion order |
| BulkDialog.SeedTotal | cecypo_powerpack/public/js/bulk_selection.js:476-480 | the quantity the dialog starts with for a code: the sum of the positive qtys of its rows; SeedTotalPositive, SeedTotalNonNegative, SeedTotalZero and SeedQuantities state it |
| BulkDialog.SeedTotalPositive | cecypo_powerpack/public/js/bulk_selection.js:476-480 | a code with a row that has a code and a positive qty starts with a positive quantity |
| BulkDialog.SeedTotalNonNegative | cecypo_powerpack/public/js/bulk_selection.js:476-480 | a seeded total is never negative |
| BulkDialog.SeedQuantities | cecypo_powerpack/public/js/bulk_selection.js:476-480 | the seeded keys are exactly the codes of rows with a code and a positive qty, each with the sum of those qtys |
| BulkDialog.SeedTotalZero | cecypo_powerpack/public/js/bulk_selection.js:476-480 | a code that no seeding row carries adds nothing |
| BulkDialog.ClampPage | cecypo_powerpack/public/js/bulk_selection.js:1471 | the page is kept within 1..total, unchanged when already inside it |
| BulkDialog.TypedPage | cecypo_powerpack/public/js/bulk_selection.js:1849-1855 | a typed page that is not a number, or is 0, goes to page 1 |
| BulkDialog.PrevNextClamp | cecypo_powerpack/public/js/bulk_selection.js:1844-1847 | "previous" on page 1 and "next" on the last page stay put; otherwise they move by one |
| BulkDialog.FindBy | cecypo_powerpack/public/js/bulk_selection.js:1771 | a found element is one of the list's elements and has the code; none is found exactly when no element has it (the same lookup finds the form's row at line 1339) |
| BulkDialog.FindByIsFirst | cecypo_powerpack/public/js/bulk_selection.js:1771 | the element found is the first with that code |
| BulkDialog.SelectedSpecMeaning | cecypo_powerpack/public/js/bulk_selection.js:1766-1777 | every item collected by "Add Selected" has a positive quantity and carries its code's quantity; every positive code naming a dialog item is collected |
| BulkDialog.Strategy1Positive | cecypo_powerpack/public/js/bulk_selection.js:1294-1307 | each row counted by the first strategy adds a positive tax rate |
| BulkDialog.EffectiveTaxRate | cecypo_powerpack/public/js/bulk_selection.js:1288-1322 | the document rate unless the form is tax-inclusive with a document rate of 0; then the average rate of the qualifying rows; failing those, the included taxes' rate over 100 |
| BulkDialog.NetRateFor | cecypo_powerpack/public/js/bulk_selection.js:1331-1353 | each branch of the net-rate fallback: the item's own net rate when set and different from its price; else the form row's net rate when set and below the price; else, on a tax-inclusive form with a positive effective rate and price, the rate n with n·(1 + rate) = price, strictly between 0 and the price; else the price. Without an own net rate the result never exceeds the price |
| BulkDialog.NetRateRoundTrip | cecypo_powerpack/public/js/bulk_selection.js:1343-1345 | a net rate taken out of the effective tax rate gives the price back once that tax is added, and is below the price |
| BulkDialog.SumCount | cecypo_powerpack/public/js/bulk_selection.js:1324-1328 | no more keys are counted than there are |
| BulkDialog.SumCostNonNegative | cecypo_powerpack/public/js/bulk_selection.js:1359 | with non-negative valuations the cost of a selection is never negative |
| BulkDialog.SumSelection | cecypo_powerpack/public/js/bulk_selection.js:1324-1362 | the loop's count, qty, net total and cost are the sums over keys, in key order, with a positive quantity |
| BulkDialog.CheckedQty | cecypo_powerpack/public/js/bulk_selection.js:1719-1727 | checking makes the quantity positive and unchecking makes it 0 |
| BulkDialog.CheckedQtyAgain | cecypo_powerpack/public/js/bulk_selection.js:1738-1761 | applying the checkbox rule again to a key it already set changes nothing |
| BulkDialog.ItemDialog.constructor | cecypo_powerpack/public/js/bulk_selection.js:465-480 | page 1 of `ceil(n / 20)`, sorted by item code ascending, all items, quantities seeded from the form's rows |
| BulkDialog.ItemDialog.GetPageData | cecypo_powerpack/public/js/bulk_selection.js:600-611 | the rows are recomputed, the page count updated and the page clamped; the slice is the current page of at most 20 rows, not empty when there are rows |
| BulkDialog.ItemDialog.GoToPage | cecypo_powerpack/public/js/bulk_selection.js:1470-1476 | the page becomes the clamped request, and the table is redrawn exactly when it changed |
| BulkDialog.ItemDialog.SortClick | cecypo_powerpack/public/js/bulk_selection.js:1679-1689 | the same column flips the direction, a new column sorts ascending; back to page 1 |
| BulkDialog.ItemDialog.FilterChanged | cecypo_powerpack/public/js/bulk_selection.js:1831-1842 | a change of the search or stock box goes back to page 1 |
| BulkDialog.ItemDialog.Put | cecypo_powerpack/public/js/bulk_selection.js:1702 | one quantity is set; a new key goes to the end of the key order |
| BulkDialog.ItemDialog.QtyInput | cecypo_powerpack/public/js/bulk_selection.js:1697-1712 | the quantity becomes `max(0, parsed or 0)` and the checkbox shows whether it is positive |
| BulkDialog.ItemDialog.CheckboxChange | cecypo_powerpack/public/js/bulk_selection.js:1714-1736 | the checkbox rule is applied and the box then shows whether the quantity is positive |
| BulkDialog.ItemDialog.SelectAllPage | cecypo_powerpack/public/js/bulk_selection.js:1738-1764 | the codes are exactly those of the rows the current page draws; the checkbox rule for each of them, no other key changes, and the key order only grows |
| BulkDialog.ItemDialog.AddSelected | cecypo_powerpack/public/js/bulk_selection.js:1766-1785 | the collected items, with the message when there are none |
| BulkDialog.ItemDialog.CalculateTotals | cecypo_powerpack/public/js/bulk_selection.js:1265-1396 | count and qty are the sums over the selection; the sales figures are absent exactly on stock doctypes, and otherwise satisfy SalesOf for the selection's net total and cost at the document's tax rates |
| BulkDialog.Summary | cecypo_powerpack/public/js/bulk_selection.js:1265-1396 | the same totals for any selection whose keys all have a quantity, with the doctype's stock flag given |
| BulkDialog.SalesOf | cecypo_powerpack/public/js/bulk_selection.js:1364-1395 | the relation of the summary figures to net total, cost and the tax rates; its properties are SalesProfitIgnoresTax, SalesGrandAtLeastNet, SalesMarginBounds, SalesTaxesMatchDocument and SalesAgreeWithDocProfit |
| BulkDialog.SalesFigures | cecypo_powerpack/public/js/bulk_selection.js:1364-1395 | the figures satisfy `SalesOf`: taxes at the document rate (else the effective rate) on a positive net total, grand total = net + taxes, profit = net - cost, the margin taken over the grand total when prices include tax and over the net total otherwise, the display cost grossed up by the document rate when inclusive; the lemmas below prove what these figures promise |
| BulkDialog.SalesProfitIgnoresTax | cecypo_powerpack/public/js/bulk_selection.js:1365-1371 | tax is not business profit: the profit is net less cost whatever the tax rates and inclusiveness, and tax-exclusive margins do not depend on the rates |
| BulkDialog.SalesGrandAtLeastNet | cecypo_powerpack/public/js/bulk_selection.js:1365-1368 | with a non-negative rate the taxes are non-negative and the grand total is at least the net total, and above it on a positive net at a positive rate |
| BulkDialog.SalesMarginBounds | cecypo_powerpack/public/js/bulk_selection.js:1365-1376 | on a positive base the margin has the profit's sign; with a non-negative cost and rate it is at most 100 percent |
| BulkDialog.SalesTaxesMatchDocument | cecypo_powerpack/public/js/bulk_selection.js:1365-1368 | a selection with the form's net total is taxed at the form's rate into exactly the form's taxes, and its grand total is net plus those taxes |
| BulkDialog.SalesAgreeWithDocProfit | cecypo_powerpack/public/js/bulk_selection.js:1282-1376 | on a form with the same base net and grand totals, `calculate_doc_profit` gives the same net total, cost, profit, margin and inclusiveness |
| BulkDialog.ShowItemDialog | cecypo_powerpack/public/js/bulk_selection.js:455-475 | an empty item list is refused with its message; otherwise a fresh dialog on those items |
| BulkMerge.FirstIndex | cecypo_powerpack/public/js/bulk_selection.js:1896-1918 | the index of the first row with the code: no earlier row has it; none exactly when no row has it |
| BulkMerge.NewRow | cecypo_powerpack/public/js/bulk_selection.js:1926-2054 | a new row carries the item code and qty; the dialog's warehouse on Stock Reconciliation, the form's source and target warehouses on Stock Entry, the warehouse on a sales doctype that requires one when it is known |
| BulkMerge.Apply | cecypo_powerpack/public/js/bulk_selection.js:1917-1953 | one picked item never removes a row |
| BulkMerge.Merged | cecypo_powerpack/public/js/bulk_selection.js:1910-2057 | applying the picked items in order never removes a row |
| BulkMerge.MergedShape | cecypo_powerpack/public/js/bulk_selection.js:1896-2057 | the merged table is the rows found, with only qtys changed, followed by the new rows in pick order; every picked item either updates or adds |
| BulkMerge.MergedQtys | cecypo_powerpack/public/js/bulk_selection.js:1917-1925 | with distinct codes, the first existing row of each picked code ends with the picked qty |
| BulkMerge.MergedUntouched | cecypo_powerpack/public/js/bulk_selection.js:1917-1925 | a row that is no picked code's first row is left exactly as it was |
| BulkMerge.CountsAddUp | cecypo_powerpack/public/js/bulk_selection.js:1907-1927 | the updated and added counters add up to the number of picked items |
| BulkMerge.ItemTable.constructor | cecypo_powerpack/public/js/bulk_selection.js:1881 | the table holds the form's rows |
| BulkMerge.ItemTable.RemoveEmptyRows | cecypo_powerpack/public/js/bulk_selection.js:1884-1894 | exactly the rows with an item code remain, in order |
| BulkMerge.ItemTable.AddItemsToDoc | cecypo_powerpack/public/js/bulk_selection.js:1881-2057 | the rows become the merge of the picked items into the rows with a code; the counters are the updates and the additions and add up to the picks |
| BulkMerge.MergeRows | cecypo_powerpack/public/js/bulk_selection.js:1895-1956 | the merged table, the update count and the addition count are the three recurrences over the picks, and the two counts add up to the number of picks |
| BulkMerge.DuplicateRowsInflate | cecypo_powerpack/public/js/bulk_selection.js:1917-1925 | two rows of one item with qty 2 start the dialog at 4, and adding 4 leaves 6 on the form (also lines 476-480) |
| BulkMerge.QtyOf | cecypo_powerpack/public/js/bulk_selection.js:1917-1925 | the quantity of an item on the form: the sum of the qtys of its rows; DuplicateRowsInflate and MergedFixedQtys are stated with it |
| BulkMerge.ApplyFixed | cecypo_powerpack/public/js/bulk_selection.js:1917-1953 | corrected step: the first row of a picked code takes the picked qty and its later rows are dropped; a new code gets a new row; ApplyFixedQty states it |
| BulkMerge.MergedFixed | cecypo_powerpack/public/js/bulk_selection.js:1910-2057 | corrected merge: the picked items applied in order with ApplyFixed; MergedFixedQtys and DuplicateRowsFixed state it |
| BulkMerge.QtyOfKeepFirstOnly | cecypo_powerpack/public/js/bulk_selection.js:1917-1925 | the corrected update gives the code exactly the picked total and leaves other codes alone |
| BulkMerge.ApplyFixedQty | cecypo_powerpack/public/js/bulk_selection.js:1917-1953 | one corrected step sets its code's total and leaves every other code's total alone |
| BulkMerge.MergedFixedQtys | cecypo_powerpack/public/js/bulk_selection.js:1917-1953 | after the corrected merge every picked code holds exactly its picked qty (also lines 476-480) |
| BulkMerge.DuplicateRowsFixed | cecypo_powerpack/public/js/bulk_selection.js:1917-1925 | on the two duplicate rows the corrected merge keeps the qty the dialog showed (also lines 476-480) |
| Escaping.Utf16Char | cecypo_powerpack/public/js/point_of_sale_powerpack.js:205-210 | one code unit below U+10000 (never a surrogate), a high and a low surrogate above |
| Escaping.Utf16 | cecypo_powerpack/public/js/point_of_sale_powerpack.js:205-210 | a string has at least as many code units as characters |
| Escaping.HexRoundTrip | cecypo_powerpack/public/js/point_of_sale_powerpack.js:205-262 | every hexadecimal digit `escape` writes is read back as its value by `unescape` |
| Escaping.EscapeUnits | cecypo_powerpack/public/js/point_of_sale_powerpack.js:205-210 | `escape` on UTF-16 code units, one escaped unit after the other; UnescapeEscapeUnits proves `unescape` undoes it |
| Escaping.Escape | cecypo_powerpack/public/js/point_of_sale_powerpack.js:205-210 | `escape(s)`: the escaped UTF-16 units of `s`; UnescapeEscape proves the round trip, EscapeInjective that distinct codes stay distinct |
| Escaping.EscapeUnit | cecypo_powerpack/public/js/point_of_sale_powerpack.js:205-210 | a code unit is written as itself exactly when it is one of the characters `escape` leaves alone |
| Escaping.Unescape | cecypo_powerpack/public/js/point_of_sale_powerpack.js:257-262 | `unescape` yields code units |
| Escaping.UnescapeUnit | cecypo_powerpack/public/js/point_of_sale_powerpack.js:205-262 | reading back one escaped code unit gives that unit and then the rest |
| Escaping.UnescapeEscapeUnits | cecypo_powerpack/public/js/point_of_sale_powerpack.js:205-262 | `unescape` undoes `escape` on any sequence of code units |
| Escaping.UnescapeEscape | cecypo_powerpack/public/js/point_of_sale_powerpack.js:205-262 | an attribute written with `escape` is read back by `unescape` as the original string |
| Escaping.Utf16Append | cecypo_powerpack/public/js/point_of_sale_powerpack.js:205-210 | the code units of a concatenation are the concatenated code units |
| Escaping.Utf16OfBmp | cecypo_powerpack/public/js/cecypo_powerpack.js:458-461 | below U+10000 `length` counts characters and each code unit is its character |
| Escaping.Utf16Injective | cecypo_powerpack/public/js/point_of_sale_powerpack.js:205-210 | different strings have different code units |
| Escaping.EscapeInjective | cecypo_powerpack/public/js/point_of_sale_powerpack.js:205-210 | different item codes give different data attributes |
| Escaping.EscapeOfSafe | cecypo_powerpack/public/js/point_of_sale_powerpack.js:205-210 | a code made only of letters, digits and `@*_+-./` is stored unchanged (also lines 968-975) |
| Escaping.EscapeOfSpace | cecypo_powerpack/public/js/point_of_sale_powerpack.js:205 | `escape("A B")` is `"A%20B"` |
| PosSearch.SortedFilteredData | cecypo_powerpack/public/js/point_of_sale_powerpack.js:1034-1137 | an empty term returns the items as they are; otherwise the items scoring above zero, sorted by descending score; SearchSpec proves it against an independent filter and the unique stable sort |
| PosSearch.Score | cecypo_powerpack/public/js/point_of_sale_powerpack.js:1041-1134 | the wildcard score when the term holds `%`, else the token score; kept items are characterised by TokenScorePositive and WildcardScorePositive |
| PosSearch.TokenScore | cecypo_powerpack/public/js/point_of_sale_powerpack.js:1080-1129 | the whole-term points, the points of each word and the 150-point bonus when every word is in both the code and the name; ScoreItem proves the loop computes it |
| PosSearch.WildcardScore | cecypo_powerpack/public/js/point_of_sale_powerpack.js:1047-1078 | 10 when `code + " " + name` matches, plus 30 for a code match, 100 when the code is the term without its `%`s and 50 when it starts with it; WildcardCodeMatchesFirst and WildcardScorePositive state its meaning |
| PosSearch.TokenPoints | cecypo_powerpack/public/js/point_of_sale_powerpack.js:1112-1121 | between 0 and 80 points per token |
| PosSearch.TokensMatched | cecypo_powerpack/public/js/point_of_sale_powerpack.js:1111-1121 | at most two matches per token |
| PosSearch.PhrasePoints | cecypo_powerpack/public/js/point_of_sale_powerpack.js:1091-1108 | the whole-term points are between 0 and 1700 |
| PosSearch.ScoreItem | cecypo_powerpack/public/js/point_of_sale_powerpack.js:1084-1129 | the score loop over the tokens computes the item's score |
| PosSearch.ByScoreTotal | cecypo_powerpack/public/js/point_of_sale_powerpack.js:1135 | the score comparator is a total preorder |
| PosSearch.SearchSpec | cecypo_powerpack/public/js/point_of_sale_powerpack.js:1034-1137 | an empty term leaves the list alone; otherwise exactly the items scoring above zero, highest first, equal scores in list order |
| PosSearch.TokensMatchedAll | cecypo_powerpack/public/js/point_of_sale_powerpack.js:1123-1126 | the all-tokens bonus is earned exactly when every token occurs in both the code and the name |
| PosSearch.NoTokenHits | cecypo_powerpack/public/js/point_of_sale_powerpack.js:1112-1121 | no token in code or name gives no token points and no matches |
| PosSearch.SomeTokenHit | cecypo_powerpack/public/js/point_of_sale_powerpack.js:1112-1121 | a token in the code or the name earns at least 30 points |
| PosSearch.TokensOccur | cecypo_powerpack/public/js/point_of_sale_powerpack.js:1038 | every word of the term occurs in the term |
| PosSearch.TokenScorePositive | cecypo_powerpack/public/js/point_of_sale_powerpack.js:1084-1134 | in token mode an item is kept exactly when some word of the term occurs in its code or its name |
| PosSearch.ExactCodeOutranks | cecypo_powerpack/public/js/point_of_sale_powerpack.js:1091-1129 | an item whose code is a one-word term outranks any item whose code does not contain it |
| PosSearch.LowerRemovePercent | cecypo_powerpack/public/js/point_of_sale_powerpack.js:1069 | dropping the `%`s commutes with lower-casing |
| PosSearch.PercentsMatchEmpty | cecypo_powerpack/public/js/point_of_sale_powerpack.js:1047-1069 | a text that starts with the term minus its `%`s matches the pattern |
| PosSearch.WildcardCodeMatchesFirst | cecypo_powerpack/public/js/point_of_sale_powerpack.js:1060-1078 | in wildcard mode a code match scores at least 40 and a name-only match exactly 10 |
| PosSearch.WildcardScorePositive | cecypo_powerpack/public/js/point_of_sale_powerpack.js:1053-1134 | in wildcard mode an item is kept exactly when the pattern matches `code + ' ' + name` |
| PosView.IndicatorOf | cecypo_powerpack/public/js/point_of_sale_powerpack.js:193-195 | no colour for a non-stock item; green above 10, red at 0 and below, orange in between |
| PosView.IndicatorMonotone | cecypo_powerpack/public/js/point_of_sale_powerpack.js:193-195 | more stock never gives a worse colour |
| PosView.Round | cecypo_powerpack/public/js/point_of_sale_powerpack.js:199 | `Math.round` gives the integer within half of x, halves rounded up |
| PosView.ThousandsDisplay | cecypo_powerpack/public/js/point_of_sale_powerpack.js:198-201 | the "K" figure is used exactly for stock items from 999.5 up, and shows at least 1.0 thousand |
| PosView.NoPillAtZeroStock | cecypo_powerpack/public/js/point_of_sale_powerpack.js:193-226 | a stock item with exactly 0 in stock is red but shows no pill; negative stock shows a red pill |
| PosView.ApplyColumnConfig | cecypo_powerpack/public/js/point_of_sale_powerpack.js:419-428 | each hide class is present exactly when its column is off; other classes are untouched |
| PosView.ApplyColumnConfigLastWins | cecypo_powerpack/public/js/point_of_sale_powerpack.js:419-428 | applying a configuration forgets any earlier one |
| PosView.NextIndex | cecypo_powerpack/public/js/point_of_sale_powerpack.js:339-413 | down and up clamp to the last and first row; Escape clears to -1; Enter keeps the index |
| PosView.ArrowsStayInRange | cecypo_powerpack/public/js/point_of_sale_powerpack.js:354-367 | from any index below the row count the arrows land on a row, stepping by one where there is room |
| PosView.Without | cecypo_powerpack/public/js/point_of_sale_powerpack.js:914 | deleting a key keeps the order of the other keys, without duplicates |
| PosView.AttrFound | cecypo_powerpack/public/js/point_of_sale_powerpack.js:972 | the attribute lookup finds exactly the rows whose escaped code equals the text (also line 205) |
| PosView.CodeShown | cecypo_powerpack/public/js/point_of_sale_powerpack.js:181-186 | a row with that item code is rendered |
| PosView.Adds | cecypo_powerpack/public/js/point_of_sale_powerpack.js:970-990 | one cart call per selected code the lookup finds, in insertion order of the selections, with its qty; AddsMeaning states its contents |
| PosView.AddsMeaning | cecypo_powerpack/public/js/point_of_sale_powerpack.js:970-990 | a bulk add calls the cart for exactly the selected codes the lookup finds, in insertion order of the selections, each with its qty; the count is their number |
| PosView.AttrFoundSafeCode | cecypo_powerpack/public/js/point_of_sale_powerpack.js:972 | for a code `escape` leaves alone the attribute lookup finds exactly the rows of that code (also line 205) |
| PosView.SpacedCodeNotFound | cecypo_powerpack/public/js/point_of_sale_powerpack.js:972-974 | a selected code "A B" is shown but never reaches the cart (also line 205) |
| PosView.SpacedCodeFoundFixed | cecypo_powerpack/public/js/point_of_sale_powerpack.js:970-990 | looked up by item code, "A B" is added with its qty |
| PosView.SelPut | cecypo_powerpack/public/js/point_of_sale_powerpack.js:906 | storing a positive qty keeps the selections valid |
| PosView.SelDelete | cecypo_powerpack/public/js/point_of_sale_powerpack.js:914 | deleting a key keeps the selections valid |
| PosView.PosViewState.constructor | cecypo_powerpack/public/js/point_of_sale_powerpack.js:4-23 | navigation off with no index, all columns shown, nothing selected, an empty cart |
| PosView.PosViewState.Render | cecypo_powerpack/public/js/point_of_sale_powerpack.js:157-186 | compact mode shows the items; a non-empty list resets the index; the thumbnail view shows no compact rows |
| PosView.PosViewState.EnableNav | cecypo_powerpack/public/js/point_of_sale_powerpack.js:313-317 | turns navigation on and keeps the index; nothing else changes |
| PosView.PosViewState.DisableNav | cecypo_powerpack/public/js/point_of_sale_powerpack.js:319-325 | navigation off with no selection; nothing else changes |
| PosView.PosViewState.HandleKey | cecypo_powerpack/public/js/point_of_sale_powerpack.js:327-408 | only the four keys, with navigation on, in compact mode, over some rows; Enter on a row adds one of it to the cart |
| PosView.PosViewState.SwitchView | cecypo_powerpack/public/js/point_of_sale_powerpack.js:121-142 | compact mode applies the columns and enables navigation; the thumbnail mode disables it; both re-render |
| PosView.PosViewState.LoadColumnConfig | cecypo_powerpack/public/js/point_of_sale_powerpack.js:430-459 | a parsed value replaces the columns, a missing or unparsable one keeps them; compact mode re-applies them |
| PosView.PosViewState.UpdateBulkCounter | cecypo_powerpack/public/js/point_of_sale_powerpack.js:943-952 | the counter shows the number of selections and the add button is disabled exactly when there are none |
| PosView.PosViewState.EnableBulkMode | cecypo_powerpack/public/js/point_of_sale_powerpack.js:827-941 | the new bar shows 0 with the add button enabled and navigation goes off |
| PosView.PosViewState.DisableBulkMode | cecypo_powerpack/public/js/point_of_sale_powerpack.js:850-869 | the bar and the selections go and compact mode gets navigation back |
| PosView.PosViewState.ToggleBulkMode | cecypo_powerpack/public/js/point_of_sale_powerpack.js:817-825 | flips `bulkModeActive`; the bar is shown exactly when the flag is set |
| PosView.PosViewState.Select | cecypo_powerpack/public/js/point_of_sale_powerpack.js:903-907 | the prompt's positive qty is stored under the code, a new key going last, and the counter follows |
| PosView.PosViewState.Unselect | cecypo_powerpack/public/js/point_of_sale_powerpack.js:912-915 | the key is deleted and the counter follows |
| PosView.PosViewState.CheckboxChange | cecypo_powerpack/public/js/point_of_sale_powerpack.js:894-917 | checking stores a positive prompted qty, appends a new code to the selections' order and enables the add button, and otherwise changes nothing; unchecking deletes the key and its place in the order, the add button disabled exactly when no selection is left; the counter follows |
| PosView.PosViewState.ClearBulkSelections | cecypo_powerpack/public/js/point_of_sale_powerpack.js:954-958 | no selections, counter 0, add button disabled |
| PosView.CollectAdds | cecypo_powerpack/public/js/point_of_sale_powerpack.js:971-990 | the calls made are the adds of the selected codes the lookup finds, in insertion order of the selections, each with its selected qty, and the count is their number |
| PosView.PosViewState.AddSelections | cecypo_powerpack/public/js/point_of_sale_powerpack.js:969-990 | the cart gets exactly the adds of the selections the lookup finds, in insertion order of the selections |
| PosView.PosViewState.TearDown | cecypo_powerpack/public/js/point_of_sale_powerpack.js:999-1001 | selections cleared and the bar gone, `bulkModeActive` left as it was |
| PosView.PosViewState.BulkAddToCart | cecypo_powerpack/public/js/point_of_sale_powerpack.js:960-1002 | as written: nothing without selections; otherwise the escaped-attribute lookup's adds, in the selections' insertion order, and bulk mode torn down with its flag still set |
| PosView.PosViewState.LeaveBulk | cecypo_powerpack/public/js/point_of_sale_powerpack.js:817-818 | corrected teardown step: with the bar gone, `bulkModeActive` is set to false and nothing else changes, so the next toggle shows the bar again |
| PosView.PosViewState.BulkAddToCartFixed | cecypo_powerpack/public/js/point_of_sale_powerpack.js:960-1002 | corrected: rows found by item code, added in the selections' insertion order, and bulk mode left completely |
| PosView.AddThenToggleStaysHidden | cecypo_powerpack/public/js/point_of_sale_powerpack.js:817-825 | as written, pressing Bulk after a bulk add leaves the bar hidden (also lines 999-1001) |
| PosView.FixedAddThenToggleShowsBar | cecypo_powerpack/public/js/point_of_sale_powerpack.js:817-825 | corrected, the same press opens bulk mode again (also lines 999-1001) |
| ProfitCalculator.IsTaxInclusive | cecypo_powerpack/public/js/profit_calculator.js:16-21 | true exactly when there is a document with a taxes table and some row is included in the print rate |
| ProfitCalculator.AnyIncludedLoop | cecypo_powerpack/public/js/profit_calculator.js:20 | the `some` scan is true exactly when some row has `included_in_print_rate === 1` |
| ProfitCalculator.ItemTaxRate | cecypo_powerpack/public/js/profit_calculator.js:29-34 | 0 without a rate or a positive net rate; otherwise the rate such that net rate times one plus it is the rate |
| ProfitCalculator.AddTaxToValue | cecypo_powerpack/public/js/profit_calculator.js:186-191 | the value times one plus the rate, the value itself when either is 0 |
| ProfitCalculator.ItemTaxRoundTrip | cecypo_powerpack/public/js/profit_calculator.js:29-34 | adding the item's derived tax rate back to its net rate gives its rate (also lines 186-191) |
| ProfitCalculator.FormatWithTax | cecypo_powerpack/public/js/profit_calculator.js:200-205 | the value unchanged unless tax is asked for with a positive rate; then `add_tax_to_value(value, rate)`, that is value·(1 + rate), which raises a positive value |
| ProfitCalculator.DocTaxRate | cecypo_powerpack/public/js/profit_calculator.js:41-54 | 0 without a document or with a net total at most 0; otherwise taxes over the net total |
| ProfitCalculator.DocTaxRoundTrip | cecypo_powerpack/public/js/profit_calculator.js:41-54 | the document rate applied to the net total gives the net total plus the taxes (also lines 186-191) |
| ProfitCalculator.GetNetRate | cecypo_powerpack/public/js/profit_calculator.js:62-72 | 0 without an item; the net rate when tax-inclusive and known; the rate otherwise |
| ProfitCalculator.ItemProfit | cecypo_powerpack/public/js/profit_calculator.js:84-113 | profit per unit is the tax-exclusive rate less the valuation; profit is that times qty, a missing qty counting as 1; margin is per-unit profit over the displayed rate in percent, 0 at a rate at most 0 |
| ProfitCalculator.TaxIsNotProfit | cecypo_powerpack/public/js/profit_calculator.js:93-101 | a tax-inclusive item with a known net rate earns what a tax-exclusive item at that net rate earns |
| ProfitCalculator.ItemMarginBounds | cecypo_powerpack/public/js/profit_calculator.js:100-104 | on a positive rate the margin has the sign of the per-unit profit, and is at most 100 for a non-negative cost |
| ProfitCalculator.TotalCost | cecypo_powerpack/public/js/profit_calculator.js:137-145 | the sum of `valuation_rate * qty` over the rows with a positive valuation rate; TotalCostAppend and TotalCostNonNegative state it |
| ProfitCalculator.TotalAmount | cecypo_powerpack/public/js/profit_calculator.js:137-145 | the sum of the rows' amounts, the fallback net total of DocProfit |
| ProfitCalculator.TotalCostAppend | cecypo_powerpack/public/js/profit_calculator.js:137-145 | the cost of two lists of rows is the sum of their costs |
| ProfitCalculator.TotalCostNonNegative | cecypo_powerpack/public/js/profit_calculator.js:137-145 | with non-negative quantities the total cost is never negative |
| ProfitCalculator.DocProfit | cecypo_powerpack/public/js/profit_calculator.js:121-178 | zeros without form or items; otherwise the cost of the costed rows; the net total is `base_net_total`, else `net_total`, else the items' amount; the grand total is `grand_total`, else that pre-base net total plus the taxes; the profit is net total less cost; the margin is taken over the grand total when tax-inclusive and over the net total otherwise |
| SalesInfo.IsEnabledForDoctype | cecypo_powerpack/public/js/sales_powerup.js:11-21 | true exactly when the doctype is one of the four mapped ones and its field is exactly 1 |
| SalesInfo.UnmappedDoctypeDisabled | cecypo_powerpack/public/js/sales_powerup.js:13-20 | any other doctype is never enabled |
| SalesInfo.EnabledBy | cecypo_powerpack/public/js/sales_powerup.js:34 | the PowerUp script uses the doctype's flag, the Quotation tweaks the truthiness of `enable_quotation_tweaks` |
| SalesInfo.Shown | cecypo_powerpack/public/js/sales_powerup.js:225-230 | a `show_*` flag is on unless it is exactly 0 |
| SalesInfo.DefaultsShowAll | cecypo_powerpack/public/js/sales_powerup.js:225-230 | before any settings arrive, every part of the strip is allowed (also line 8) |
| SalesInfo.ItemMargin | cecypo_powerpack/public/js/sales_powerup.js:325-328 | 0 without a positive cost; otherwise the margin over the rate in percent, minus infinity at a zero rate |
| SalesInfo.BandOf | cecypo_powerpack/public/js/sales_powerup.js:244-262 | below 0 Loss, below 10 Low, below 20 Medium, below 30 Good, otherwise Excellent (also lines 365-381) |
| SalesInfo.BandMonotone | cecypo_powerpack/public/js/sales_powerup.js:244-262 | a higher margin never lands in a lower band |
| SalesInfo.ItemBands | cecypo_powerpack/public/js/sales_powerup.js:244-328 | with a positive rate and cost: Loss exactly when sold below cost, Excellent exactly when the cost is at most 70% of the rate |
| SalesInfo.ZeroRateIsLoss | cecypo_powerpack/public/js/sales_powerup.js:325-329 | a costed row with a zero rate shows as a Loss |
| SalesInfo.NegativeRateShowsExcellent | cecypo_powerpack/public/js/sales_powerup.js:325-329 | a negative rate with a positive cost shows a margin above 100%, Excellent |
| SalesInfo.ItemMarginMatchesCalculator | cecypo_powerpack/public/js/sales_powerup.js:328 | the strip's margin is the shared calculator's margin of a tax-exclusive item |
| SalesInfo.StockFigures | cecypo_powerpack/public/js/sales_powerup.js:271-288 | physical stock always first; reserved exactly when positive; available exactly when known; with the response's figures |
| SalesInfo.RenderIndicator | cecypo_powerpack/public/js/sales_powerup.js:322-330 | an indicator exactly with permission, the profit flag on and a known valuation, showing the item margin |
| SalesInfo.PushIf | cecypo_powerpack/public/js/sales_powerup.js:287-320 | a guarded push keeps the strip in order and adds its slot exactly when the guard holds |
| SalesInfo.RenderParts | cecypo_powerpack/public/js/sales_powerup.js:217-320 | each of the five parts is on the strip exactly when its setting is on (and, for the two cost figures, the user may see costs) and the response has the figure; the parts keep the strip order and carry the response's figures |
| SalesInfo.RenderItemInfo | cecypo_powerpack/public/js/sales_powerup.js:216-339 | each of the five parts is present exactly under its guard, in strip order, with the response's figures; the container is cleared exactly when there is no part and no indicator |
| SalesInfo.UnpermittedIndicator | cecypo_powerpack/public/js/sales_powerup.js:324 | without the permission no margin indicator is drawn |
| SalesInfo.UpdateProfitIndicator | cecypo_powerpack/public/js/sales_powerup.js:341-392 | a new indicator exactly with permission, the flag on, a non-zero valuation and a strip to update, showing the item margin |
| SalesInfo.RenderAndUpdateAgree | cecypo_powerpack/public/js/sales_powerup.js:322-362 | with a non-zero valuation both paths show the same margin; a zero valuation renders a 0% indicator but is skipped on update |
| SalesInfo.AddItemInfoProceeds | cecypo_powerpack/public/js/sales_powerup.js:70-80 | the PowerUp script needs a customer and a warehouse; the Quotation tweaks need neither |
| SalesInfo.CountWithCost | cecypo_powerpack/public/js/sales_powerup.js:406-418 | the number of costed rows is at most the number of rows |
| SalesInfo.CountWithCostMeaning | cecypo_powerpack/public/js/sales_powerup.js:406-452 | some row has a cost exactly when the count is positive, and without one the cost is 0 |
| SalesInfo.TotalAmountAppend | cecypo_powerpack/public/js/sales_powerup.js:408-411 | the amount of two lists of rows is the sum of their amounts |
| SalesInfo.CountWithCostAppend | cecypo_powerpack/public/js/sales_powerup.js:414-417 | the costed-row count of two lists is the sum |
| SalesInfo.SumRows | cecypo_powerpack/public/js/sales_powerup.js:404-418 | the loop computes the total cost, the total amount and the costed-row count |
| SalesInfo.AddProfitMetrics | cecypo_powerpack/public/js/sales_powerup.js:394-478 | nothing on an empty table; otherwise the shared calculator's totals, a background class exactly when some row has a cost, and the tax-inclusive layout exactly when inclusive with taxes |
| SalesInfo.MetricsMarginBase | cecypo_powerpack/public/js/sales_powerup.js:436-443 | the profit is net sales less cost; on tax-inclusive prices the margin is measured on the document's grand total, or on net total plus taxes when that is unset, and on the net total otherwise |
| SalesInfo.SalesScript.constructor | cecypo_powerpack/public/js/sales_powerup.js:6-8 | disabled, with no settings |
| SalesInfo.SalesScript.CheckAndSetup | cecypo_powerpack/public/js/sales_powerup.js:23-42 | an empty answer changes nothing; an answer is stored with the script's flag, and setup is attempted exactly when it is on |
| PowerPack.FeatureOnOnlyForNumberOne | cecypo_powerpack/public/js/cecypo_powerpack.js:75-80 | a feature is on exactly when its field is the number 1; the text "1" or a missing field is off |
| PowerPack.SettingsCache.constructor | cecypo_powerpack/public/js/cecypo_powerpack.js:38-39 | the cache starts empty |
| PowerPack.SettingsCache.Get | cecypo_powerpack/public/js/cecypo_powerpack.js:45-68 | a filled cache answers without a fetch and stays; an empty one fetches, stores a non-empty answer, and delivers it or an empty record |
| PowerPack.SettingsCache.IsEnabled | cecypo_powerpack/public/js/cecypo_powerpack.js:75-80 | the delivered settings switch the feature on exactly when its field is the number 1, with the caching of `get` |
| PowerPack.SettingsCache.ClearCache | cecypo_powerpack/public/js/cecypo_powerpack.js:85-87 | the cache is empty again |
| PowerPack.SecondGetServedFromCache | cecypo_powerpack/public/js/cecypo_powerpack.js:45-68 | after one answered fetch, the next `get` is served from the cache |
| PowerPack.ClearedCacheRefetches | cecypo_powerpack/public/js/cecypo_powerpack.js:85-87 | after `clearCache` the next `get` fetches and delivers the newer settings |
| PowerPack.Decide | cecypo_powerpack/public/js/cecypo_powerpack.js:151-202 | allowed without a Tax ID, once confirmed, or with the switch off; otherwise blocked exactly when the server reports duplicates, showing them |
| PowerPack.PartyForm.constructor | cecypo_powerpack/public/js/cecypo_powerpack.js:151-156 | a form with its Tax ID, unconfirmed, with no dialog |
| PowerPack.PartyForm.CheckAndShowDialog | cecypo_powerpack/public/js/cecypo_powerpack.js:151-202 | `allow` is the decision; a block opens the dialog with the reported duplicates; the Tax ID and the flag are unchanged |
| PowerPack.PartyForm.SaveAnyway | cecypo_powerpack/public/js/cecypo_powerpack.js:271-276 | sets the confirmation flag and closes the dialog |
| PowerPack.PartyForm.Cancel | cecypo_powerpack/public/js/cecypo_powerpack.js:278-283 | clears the flag and closes the dialog |
| PowerPack.PartyForm.AfterSave | cecypo_powerpack/public/js/cecypo_powerpack.js:304-307 | clears the flag |
| PowerPack.SaveAnywayRoundTrip | cecypo_powerpack/public/js/cecypo_powerpack.js:151-202 | a blocked save confirmed with "Save Anyway" goes through, and after the save the check is back on |
| PowerPack.ColdCacheSkipsCheck | cecypo_powerpack/public/js/cecypo_powerpack.js:159-168 | with nothing cached the first save is allowed unchecked, and the next one is checked |
| PowerPack.TotalOutstanding | cecypo_powerpack/public/js/cecypo_powerpack.js:384-386 | the sum of `flt(outstanding_amount)` over the invoices, a missing amount counting 0; TotalOutstandingAppend, TotalOutstandingNonNegative and TotalOutstandingOrderFree state it |
| PowerPack.TotalOutstandingAppend | cecypo_powerpack/public/js/cecypo_powerpack.js:384-386 | the total of two lists is the sum of their totals |
| PowerPack.TotalOutstandingNonNegative | cecypo_powerpack/public/js/cecypo_powerpack.js:384-386 | with no negative amount the total is non-negative, and 0 exactly when every invoice owes 0 |
| PowerPack.TotalOutstandingOrderFree | cecypo_powerpack/public/js/cecypo_powerpack.js:384-386 | reordering the invoices does not change the total |
| PowerPack.Plural | cecypo_powerpack/public/js/cecypo_powerpack.js:377-433 | the suffix is "s" or nothing |
| PowerPack.PluralIffNotOne | cecypo_powerpack/public/js/cecypo_powerpack.js:377-433 | "s" exactly when the count is not 1 |
| PowerPack.TotalCurrency | cecypo_powerpack/public/js/cecypo_powerpack.js:383 | the first invoice's currency, or "" without invoices or without a currency |
| PowerPack.ShowOverdueDialog | cecypo_powerpack/public/js/cecypo_powerpack.js:377-386 | missing invoices or name read as empty; the count, the plural, the total of the outstanding amounts and the first invoice's currency |
| PowerPack.Pad | cecypo_powerpack/public/js/cecypo_powerpack.js:458-461 | the text followed by spaces up to `len` UTF-16 code units, never shortened |
| PowerPack.Separator | cecypo_powerpack/public/js/cecypo_powerpack.js:463 | 72 dashes |
| PowerPack.Row | cecypo_powerpack/public/js/cecypo_powerpack.js:467-475 | a table line: three fields padded to 22, 16 and 20 code units, then the fourth; RowColumns places the columns |
| PowerPack.InvoiceLine | cecypo_powerpack/public/js/cecypo_powerpack.js:471-476 | an invoice line: the number, the formatted due date, grand total and outstanding amount in the invoice currency |
| PowerPack.InvoiceLines | cecypo_powerpack/public/js/cecypo_powerpack.js:471-476 | one line per invoice |
| PowerPack.PushInvoiceLines | cecypo_powerpack/public/js/cecypo_powerpack.js:471-476 | the loop appends the lines of the invoices in order |
| PowerPack.ReminderLines | cecypo_powerpack/public/js/cecypo_powerpack.js:464-483 | the head, one line per invoice and the tail; ReminderFrame and ReminderInvoiceOrder state its shape |
| PowerPack.Join | cecypo_powerpack/public/js/cecypo_powerpack.js:485 | `lines.join("\n")`; ReminderLineBreaks counts its line breaks |
| PowerPack.ReminderText | cecypo_powerpack/public/js/cecypo_powerpack.js:457-485 | the text is the reminder's lines, joined by line breaks |
| PowerPack.InvoiceLinesAt | cecypo_powerpack/public/js/cecypo_powerpack.js:471-476 | line i is the line of invoice i |
| PowerPack.ReminderFrame | cecypo_powerpack/public/js/cecypo_powerpack.js:464-483 | greeting, intro, header and separator first; separator, total, blank, request and thanks last |
| PowerPack.ReminderInvoiceOrder | cecypo_powerpack/public/js/cecypo_powerpack.js:464-483 | n + 9 lines, the invoice lines in invoice order after the first four |
| PowerPack.ReminderLineBreaks | cecypo_powerpack/public/js/cecypo_powerpack.js:485 | with no line break in any field the text has exactly n + 8 line breaks |
| PowerPack.PadUnits | cecypo_powerpack/public/js/cecypo_powerpack.js:458-461 | a padded text begins with the text |
| PowerPack.RowColumns | cecypo_powerpack/public/js/cecypo_powerpack.js:467-475 | when the first three fields fit, they start at code units 0, 22, 38 and 58 |
| PowerPack.HeaderFits | cecypo_powerpack/public/js/cecypo_powerpack.js:467 | the header titles fit their columns |
| ReconciliationDoc.OrNum | cecypo_powerpack/overrides.py:41 | Python's `x or d`: the number when present and non-zero, the default otherwise |
| ReconciliationDoc.NonZeroAllocations | cecypo_powerpack/custom_payment_reconciliation.py:44-47 | exactly the allocations with an amount above 0, in order, counted |
| ReconciliationDoc.ZeroCount | cecypo_powerpack/custom_payment_reconciliation.py:49 | the zero count is the total less the non-zero count |
| ReconciliationDoc.NoneCounted | cecypo_powerpack/custom_payment_reconciliation.py:49-51 | without zero allocations every allocation is non-zero |
| ReconciliationDoc.FilterWithoutZeros | cecypo_powerpack/custom_payment_reconciliation.py:51-52 | without zero allocations the filter changes nothing |
| ReconciliationDoc.NothingKept | cecypo_powerpack/custom_payment_reconciliation.py:44-63 | the filter keeps nothing exactly when every allocation is zero |
| ZeroReconcile.DrOrCrFor | cecypo_powerpack/custom_payment_reconciliation.py:90 | credit for a Customer, debit for any other party type |
| ZeroReconcile.DimensionValues | cecypo_powerpack/custom_payment_reconciliation.py:115-123 | exactly the dimensions with a truthy field name, each with the row's value for it |
| ZeroReconcile.ToEntry | cecypo_powerpack/custom_payment_reconciliation.py:96-112 | a missing or zero exchange rate becomes 1, a missing difference 0, and the gain or loss is the difference |
| ZeroReconcile.Entries | cecypo_powerpack/custom_payment_reconciliation.py:95-129 | one entry per row |
| ZeroReconcile.EntriesAt | cecypo_powerpack/custom_payment_reconciliation.py:95-112 | entry k is the entry of row k |
| ZeroReconcile.EntriesSnoc | cecypo_powerpack/custom_payment_reconciliation.py:95-129 | one more row adds its entry at the end |
| ZeroReconcile.Build | cecypo_powerpack/custom_payment_reconciliation.py:92-129 | the two lists after the loop: each row's entry appended to the notes list for invoice and journal rows, to the entry list otherwise; BuildPartition ties it to the two filters |
| ZeroReconcile.BuildPartition | cecypo_powerpack/custom_payment_reconciliation.py:92-129 | the loop's two lists are the entries of the payment rows and the entries of the invoice and journal rows, each in row order |
| ZeroReconcile.PartitionSizes | cecypo_powerpack/custom_payment_reconciliation.py:126-129 | every row goes to exactly one of the two lists |
| ZeroReconcile.PartitionKinds | cecypo_powerpack/custom_payment_reconciliation.py:126-129 | the notes list holds the invoice and journal rows, the entry list the rest |
| ZeroReconcile.CustomPaymentReconciliation.constructor | cecypo_powerpack/custom_payment_reconciliation.py:15-19 | the document fields as given |
| ZeroReconcile.CustomPaymentReconciliation.BuildEntries | cecypo_powerpack/custom_payment_reconciliation.py:92-129 | the loop builds the entries of the payment rows and of the note rows, in order |
| ZeroReconcile.CustomPaymentReconciliation.FilterZeroAllocations | cecypo_powerpack/custom_payment_reconciliation.py:39-60 | the table becomes its non-zero allocations, with a notice of the dropped and remaining counts when any were dropped |
| ZeroReconcile.CustomPaymentReconciliation.ZeroReconcile | cecypo_powerpack/custom_payment_reconciliation.py:22-68 | a failure when the feature is off or no non-zero row remains; otherwise the filtered table's entries go to the reconciliation |
| ZeroReconcile.Batches | cecypo_powerpack/custom_payment_reconciliation.py:134-138 | each call gets a non-empty list |
| ZeroReconcile.BatchesCover | cecypo_powerpack/custom_payment_reconciliation.py:134-138 | at most two calls, none exactly when both lists are empty, and every entry reaches one |
| ZeroReconcile.ReconciledRowsAreNonZero | cecypo_powerpack/custom_payment_reconciliation.py:39-129 | every non-zero allocation yields exactly one entry and no entry has a zero amount |
| Overrides.NoNonZeroMeansAllZero | cecypo_powerpack/overrides.py:37-49 | no non-zero allocation means every allocation is zero |
| Overrides.ValidateAllocation | cecypo_powerpack/overrides.py:15-54 | no warning with the feature off or without allocations; otherwise a warning exactly when every allocation is zero |
| Overrides.FirstWith | cecypo_powerpack/overrides.py:73-75 | the first row with the key, or none exactly when no row has it |
| Overrides.FirstWithAppend | cecypo_powerpack/overrides.py:73-75 | rows after the first match do not change what is found |
| Overrides.GetPaymentAmount | cecypo_powerpack/overrides.py:57-77 | 0 without a reference name or payments; otherwise the first matching payment's amount, 0 when missing or unmatched |
| Overrides.GetInvoiceOutstanding | cecypo_powerpack/overrides.py:80-100 | the same first-match lookup on the voucher number, giving the outstanding amount |
| Overrides.PaymentAmountIgnoresLaterRows | cecypo_powerpack/overrides.py:73-75 | a payment listed twice is read from its first row |
| Overrides.InvoiceOutstandingIgnoresLaterRows | cecypo_powerpack/overrides.py:96-98 | an invoice listed twice is read from its first row |
| Overrides.PaymentAmountFromARow | cecypo_powerpack/overrides.py:68-77 | a non-zero amount is the amount of some payment with the allocation's reference name |
| Overrides.ReconcileWrapper | cecypo_powerpack/overrides.py:104-150 | with the feature on the zero allocations are dropped in order, with a notice of the counts when any were; with it off they pass through |
| ReconciliationClient.ReconcilePromptFor | cecypo_powerpack/public/js/payment_reconciliation_powerup.js:90-92 | the text naming the filtered zeros exactly when there are some, with the counts |
| ReconciliationClient.ButtonFor | cecypo_powerpack/public/js/payment_reconciliation_powerup.js:73-76 | the non-zero and zero counts of the table, adding up to its size |
| ReconciliationClient.NextFor | cecypo_powerpack/public/js/payment_reconciliation_powerup.js:183-210 | the replace-or-append choice exactly when rows exist, otherwise a plain confirmation, for the same number of rows |
| ReconciliationClient.ZeroAllocate | cecypo_powerpack/public/js/payment_reconciliation_powerup.js:133-211 | stops without a form, then without a checked payment, then without a checked invoice; one row per selected pair, and more than 500 need one more confirmation |
| ReconciliationClient.SelectionEmpty | cecypo_powerpack/public/js/payment_reconciliation_powerup.js:161-170 | nothing is selected exactly when no row is checked |
| ReconciliationClient.ReplaceFor | cecypo_powerpack/public/js/payment_reconciliation_powerup.js:213-256 | the table is cleared only when the replace label is chosen in the choice dialog |
| ReconciliationClient.UncheckedPayments | cecypo_powerpack/public/js/payment_reconciliation_powerup.js:303-305 | every payment row unchecked, nothing else changed |
| ReconciliationClient.UncheckedInvoices | cecypo_powerpack/public/js/payment_reconciliation_powerup.js:306-308 | every invoice row unchecked, nothing else changed |
| ReconciliationClient.AllocatingAgainNeedsNewSelection | cecypo_powerpack/public/js/payment_reconciliation_powerup.js:161-168 | after rows are made, zero allocation again stops at the payment check (also lines 302-308) |
| ReconciliationClient.ReconciliationForm.constructor | cecypo_powerpack/public/js/payment_reconciliation_powerup.js:8-12 | the tables as loaded, no buttons |
| ReconciliationClient.ReconciliationForm.AddZeroAllocateButton | cecypo_powerpack/public/js/payment_reconciliation_powerup.js:47-64 | the button is offered exactly when both tables have rows |
| ReconciliationClient.ReconciliationForm.CheckAndSetup | cecypo_powerpack/public/js/payment_reconciliation_powerup.js:32-45 | with the feature on the allocate button follows the tables; off, nothing changes |
| ReconciliationClient.ReconciliationForm.AddZeroReconcileButton | cecypo_powerpack/public/js/payment_reconciliation_powerup.js:66-131 | nothing on an empty table; otherwise the button with the table's counts |
| ReconciliationClient.ReconciliationForm.ZeroReconcileDone | cecypo_powerpack/public/js/payment_reconciliation_powerup.js:103-122 | a success empties all three tables and takes the button away; a failure changes nothing |
| ReconciliationClient.ReconciliationForm.AppendRows | cecypo_powerpack/public/js/payment_reconciliation_powerup.js:283-286 | the returned rows are added at the end, in order |
| ReconciliationClient.ReconciliationForm.ClearSelections | cecypo_powerpack/public/js/payment_reconciliation_powerup.js:302-310 | every payment and invoice row is unchecked |
| ReconciliationClient.ReconciliationForm.ExecuteZeroAllocate | cecypo_powerpack/public/js/payment_reconciliation_powerup.js:258-327 | a non-empty answer replaces or extends the table, clears the selections and shows the reconcile button with the new counts; an empty one changes nothing |
| ReconciliationClient.AllocateOnEmptyTable | cecypo_powerpack/public/js/payment_reconciliation_powerup.js:133-327 | on an empty table the rows end up exactly the returned rows, and the next round needs a new selection |
| Validations.BlockMessage | cecypo_powerpack/validations.py:33-37 | the refusal text; BlockNamesDocument shows it names the doctype and the ETR number |
| Validations.PreventEtrInvoiceCancellation | cecypo_powerpack/validations.py:12-40 | allowed without settings, with the guard off or without an ETR number; blocked exactly when all three hold, with the fixed title |
| Validations.Mentions | cecypo_powerpack/validations.py:33-37 | a message built around two texts mentions both and ends with the second |
| Validations.BlockNamesDocument | cecypo_powerpack/validations.py:33-37 | a refusal names the doctype and the ETR number and says it cannot be cancelled |
| StableSort.SortBy | cecypo_powerpack/public/js/point_of_sale_powerpack.js:1135 | `sort` with a comparator returns a permutation of its input |
| StableSort.SortBySorted | cecypo_powerpack/public/js/point_of_sale_powerpack.js:1135 | with a total preorder the result is in comparator order |
| StableSort.SortByKeepsTies | cecypo_powerpack/public/js/point_of_sale_powerpack.js:1135 | the sort is stable: elements the comparator ties keep their order |
| StableSort.SortByIsTheStableSort | cecypo_powerpack/public/js/bulk_selection.js:571 | any ordered, tie-keeping permutation of the input is the sort's result |
| StableSort.SortByFlip | cecypo_powerpack/public/js/bulk_selection.js:592-593 | sorting with the negated comparator reverses the ascending order when only equal values tie |
| StableSort.Keep | cecypo_powerpack/public/js/bulk_selection.js:578 | `filter`: the passing elements, in order |
| StableSort.CountSplit | cecypo_powerpack/public/js/bulk_selection.js:578 | every element passes or fails the filter |
| Text.Lower | cecypo_powerpack/public/js/point_of_sale_powerpack.js:1037 | `toLowerCase` keeps the length |
| Text.LowerIdempotent | cecypo_powerpack/public/js/bulk_selection.js:495 | lower-casing twice is lower-casing once |
| Text.Trim | cecypo_powerpack/public/js/bulk_selection.js:495 | `trim` gives a slice of the text with no white space at either end, and everything dropped before and after it is white space |
| Text.Tokens | cecypo_powerpack/public/js/point_of_sale_powerpack.js:1038 | `split(/\s+/)` with empty pieces dropped gives non-empty words without white space, and none exactly when the text is all white space |
| Text.TokensOfWord | cecypo_powerpack/public/js/point_of_sale_powerpack.js:1038 | a text without white space is its only word |
| Text.WordOfRun | cecypo_powerpack/public/js/point_of_sale_powerpack.js:1038 | the longest non-space prefix is the run of non-space characters that starts the text |
| Text.RunIsToken | cecypo_powerpack/public/js/point_of_sale_powerpack.js:1038 | every maximal run of non-space characters is one of the words |
| Text.TokenIsRun | cecypo_powerpack/public/js/point_of_sale_powerpack.js:1038 | every word is a maximal run of non-space characters of the text |
| Text.JoinedContains | cecypo_powerpack/public/js/point_of_sale_powerpack.js:1060-1061 | a word without white space occurs in `a + ' ' + b` exactly when it occurs in `a` or in `b` |
| Text.RemovePercent | cecypo_powerpack/public/js/point_of_sale_powerpack.js:1069 | `replace(/%/g, '')` is the text with its `%` characters filtered out, the others kept in order |
| Text.Repeat | cecypo_powerpack/public/js/cecypo_powerpack.js:460 | `repeat(n)` of one character gives n copies of it |
| Escaping.UnitsLeTotal | cecypo_powerpack/public/js/bulk_selection.js:592 | any two code-unit sequences compare one way or the other |
| Escaping.UnitsLeTransitive | cecypo_powerpack/public/js/bulk_selection.js:592 | the code-unit order is transitive |
| Escaping.UnitsLeAntisymmetric | cecypo_powerpack/public/js/bulk_selection.js:592 | sequences ordered both ways are equal |
| Escaping.StringLeTotal | cecypo_powerpack/public/js/bulk_selection.js:592 | any two strings compare one way or the other under `<` |
| Escaping.StringLeTransitive | cecypo_powerpack/public/js/bulk_selection.js:592 | the string order is transitive |
| Escaping.StringLeAntisymmetric | cecypo_powerpack/public/js/bulk_selection.js:592 | strings ordered both ways are equal, as their code units determine them |
| Escaping.SurrogatesSortLow | cecypo_powerpack/public/js/bulk_selection.js:592 | a character above U+FFFF sorts before U+FFFF, as its lead surrogate is the smaller code unit |

## Left out

- DOM, HTML and CSS generation are not modelled: tables, summaries, styles, tooltips, lightboxes and panels. Each method stands for the state change behind the markup. Where markup carries meaning, the method models it as data:
  - the indicator colour;
  - the hide-column classes;
  - the parts of the information strip;
  - the `data-item-code` attribute.
- Server calls and their promise chains are not modelled: `frappe.call`, `frappe.xcall`, the bulk fetches, the sales/purchase history fetches with their concurrent `processed` counter, and `loadStockByWarehouse`. Their responses are parameters, and each asynchronous chain is modelled as completing in one step.
- `setTimeout` debouncing and delays are not modelled. A deferred action is modelled as running at once.
- Also not modelled: `localStorage` (including the PowerUp on/off toggle), `navigator.clipboard` and its `execCommand` fallback, the Web Audio beep, and mouse-position arithmetic. These are browser services.
- Number, currency and date formatting are not modelled: `format_currency`, `format_number`, `toLocaleString`, `toFixed`, rounding to cents, and moment. Where text embeds a formatted value, the formatter is a parameter (`PowerPack.Formats`).
- Amounts are real numbers, so IEEE-754 rounding, NaN and signed zero are not modelled.
- Text.Lower: folds ASCII letters only. JavaScript's `toLowerCase` and Python's `lower` fold every cased Unicode letter, and matching that would need the Unicode case tables.
- BulkSearch.ByCodeMatch: the wildcard sort breaks ties with `localeCompare`, which follows the locale's collation rules. The model uses the UTF-16 code-unit order of `<` (`Escaping.StringLe`) instead, so strings that collation orders differently from their code units sort differently.
- `for..in` over the dialog's `quantities` object enumerates integer-like keys first, in ascending order. The model keeps plain insertion order.
- PosView.AddsMeaning: `Object.entries(bulkSelections)` lists integer-like item codes first, in ascending order, then the others in insertion order. The model lists all codes in insertion order, so the order of cart calls differs when some codes are integer-like.
- PosView.CollectAdds: the same key order as PosView.AddsMeaning; the set of calls and each one's qty are unaffected.
- PosView.PosViewState.AddSelections: the same key order as PosView.AddsMeaning.
- PosView.PosViewState.BulkAddToCart: the same key order as PosView.AddsMeaning.
- PosView.PosViewState.BulkAddToCartFixed: the same key order as PosView.AddsMeaning.
- SalesInfo.ItemMargin: when valuation is positive and the rate is 0, JavaScript computes the margin `-Infinity`. The model returns the explicit value `NegInfinity` (band Loss) instead of requiring a positive rate. The printed value is not modelled.
- ProfitCalculator.DocProfit: a missing currency or total is read as 0 or the empty string, as the `|| 0` guards do. JavaScript's distinction between `null` and `undefined` is not modelled.
- The server code that reads the database is not modelled: the API's SQL queries, `is_feature_enabled`/`get_powerpack_settings` (each becomes a `bool` or an `Option` parameter) and ERPNext's `reconcile_against_document`.
- ZeroReconcile.CustomPaymentReconciliation.ZeroReconcile: the temporary replacement of ERPNext's `check_if_advance_entry_modified`, and its restoration in a `finally` block, are not modelled. That is runtime patching of foreign code, and the model stops at the two entry lists.
- Overrides.ReconcileWrapper: models the wrapper up to its hand-off to the standard `reconcile`. The standard reconciliation itself is ERPNext code.
- User-facing message texts (`msgprint`, `frappe.throw`, `show_alert`) are modelled as tags carrying their counts. The exceptions are the ETR refusal and the reminder text, which are modelled character by character.
- An exception thrown by the grid's `get_selected_children` is not modelled.
- Accounting dimension fields are modelled as a map of field name to value on each allocation, rather than as row attributes.
- Static configuration, migrations and settings-form scripts are not modelled: `hooks.py`, the desk configuration, the rename patch, `powerpack_settings.py`/`.js` (they show alerts and clear caches) and the framework integration tests.
- The Sales Invoice and Sales Order tweak scripts are not modelled. They copy the Quotation tweaks behaviour behind role and `localStorage` gates.

## Findings

| source | as written | input that shows it | evidently intended | confidence | as-written member | corrected member |
|---|---|---|---|---|---|---|
| cecypo_powerpack/public/js/bulk_selection.js:1917-1925 | seeding sums qty over every row with the code (lines 476-480), but adding updates only the first such row with the dialog's quantity | item rows [A qty 2, A qty 2]; the dialog opens at 4; confirming 4 makes the table hold 4 + 2 = 6 | the table holds the quantity shown in the dialog | medium, not executed | BulkMerge.DuplicateRowsInflate | BulkMerge.DuplicateRowsFixed |
| cecypo_powerpack/public/js/point_of_sale_powerpack.js:972 | bulk add looks the element up with the raw item code, but the attribute was written with the code passed through JavaScript's `escape` (line 205) | code "A B": the attribute holds `A%20B`, the selector asks for `A B`, so the selected item is never added | the lookup finds the element of every selected code shown | medium, not executed | PosView.SpacedCodeNotFound | PosView.SpacedCodeFoundFixed |
| cecypo_powerpack/public/js/point_of_sale_powerpack.js:960-1002 | after adding, bulk mode is torn down but `bulkModeActive` stays true, so the next toggle (lines 817-825) turns bulk mode off instead of on | select one item, bulk add, press the toggle: the bar stays hidden | the flag is reset when bulk mode is torn down | medium, not executed | PosView.AddThenToggleStaysHidden | PosView.FixedAddThenToggleShowsBar |
