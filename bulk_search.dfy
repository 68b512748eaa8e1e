/** The item search, filter, sort and pagination of the bulk item selector
    dialog: every render computes the visible rows from the full item list,
    the search box, the "Available only" box and the chosen column sort. */
module BulkSearch {
  import opened Text
  import opened StableSort
  import opened Wildcard
  import opened Escaping

  /** One row of the item list the dialog is opened with (a missing text
      field is the empty string, a missing number 0). */
  datatype BulkItem = BulkItem(
    item_code: string,
    item_name: string,
    actual_qty: real,
    price_list_rate: real,
    valuation_rate: real,
    net_rate: real)

  /** `(value || '').toLowerCase().trim()` of the search box. */
  function SearchTerm(raw: string): string {
    Trim(Lower(raw))
  }

  function LowCode(it: BulkItem): string { Lower(it.item_code) }
  function LowName(it: BulkItem): string { Lower(it.item_name) }

  // ---------------------------------------------------------------------
  // Natural multi-word search

  /** Every token occurs in `code + ' ' + name` (both lower-cased). */
  predicate AllTokensMatch(it: BulkItem, tokens: seq<string>) {
    forall k :: 0 <= k < |tokens| ==> Contains(LowCode(it) + " " + LowName(it), tokens[k])
  }

  function CodePoints(code: string, token: string): (n: int)
    ensures n == 0 || n == 30 || n == 50 || n == 100
    ensures n > 0 <==> Contains(code, token)
  {
    if code == token then
      assert IsPrefix(token, code);
      100
    else if IsPrefix(token, code) then 50
    else if Contains(code, token) then 30
    else 0
  }

  /** The name points of a token. `split(/\s+/).includes(token)` is
      membership in the name's words, since the token is never empty. */
  function NamePoints(name: string, token: string): (n: int)
    ensures n == 0 || n == 10 || n == 15 || n == 25
  {
    if token in Tokens(name) then 25
    else if IsPrefix(token, name) then 15
    else if Contains(name, token) then 10
    else 0
  }

  function TokenPoints(code: string, name: string, tokens: seq<string>): int
  {
    if tokens == [] then 0
    else CodePoints(code, tokens[0]) + NamePoints(name, tokens[0]) + TokenPoints(code, name, tokens[1..])
  }

  function Max(a: int, b: int): int { if a >= b then a else b }

  /** The relevance score: points per token plus a bonus for short codes. */
  function TokenScore(it: BulkItem, tokens: seq<string>): int
  {
    TokenPoints(LowCode(it), LowName(it), tokens) + Max(0, 20 - |Utf16(LowCode(it))|)
  }

  /** The comparator `b.score - a.score`. */
  function ByScore(tokens: seq<string>): (BulkItem, BulkItem) -> bool {
    (a: BulkItem, b: BulkItem) => TokenScore(a, tokens) >= TokenScore(b, tokens)
  }

  function TokenSearch(items: seq<BulkItem>, tokens: seq<string>): seq<BulkItem> {
    SortBy(Keep(items, (it: BulkItem) => AllTokensMatch(it, tokens)), ByScore(tokens))
  }

  /** A white-space free token occurs in `code + ' ' + name` exactly when it
      occurs in the code or in the name. */
  lemma AllTokensMatchMeaning(it: BulkItem, tokens: seq<string>)
    requires forall k :: 0 <= k < |tokens| ==> SpaceFree(tokens[k])
    ensures AllTokensMatch(it, tokens) <==>
      forall k :: 0 <= k < |tokens| ==> Contains(LowCode(it), tokens[k]) || Contains(LowName(it), tokens[k])
  {
    forall k | 0 <= k < |tokens| {
      JoinedContains(LowCode(it), LowName(it), tokens[k]);
    }
  }

  /** Each matching token scores between 10 and 125 points. */
  lemma {:induction false} TokenPointsBounds(code: string, name: string, tokens: seq<string>)
    requires forall k :: 0 <= k < |tokens| ==> SpaceFree(tokens[k])
    requires forall k :: 0 <= k < |tokens| ==> Contains(code + " " + name, tokens[k])
    ensures 10 * |tokens| <= TokenPoints(code, name, tokens) <= 125 * |tokens|
  {
    if tokens != [] {
      JoinedContains(code, name, tokens[0]);
      if !Contains(code, tokens[0]) {
        assert Contains(name, tokens[0]);
        assert NamePoints(name, tokens[0]) >= 10;
      }
      TokenPointsBounds(code, name, tokens[1..]);
    }
  }

  /** An item whose code is the one search word outranks every item whose
      code does not contain it. */
  lemma ExactCodeOutranks(exact: BulkItem, other: BulkItem, token: string)
    requires token != [] && LowCode(exact) == token && !Contains(LowCode(other), token)
    ensures TokenScore(exact, [token]) > TokenScore(other, [token])
  {
    assert [token][1..] == [];
    var c, n := LowCode(exact), LowName(exact);
    assert TokenPoints(c, n, [token]) == 100 + NamePoints(n, token);
    var c', n' := LowCode(other), LowName(other);
    assert TokenPoints(c', n', [token]) == NamePoints(n', token) <= 25;
  }

  lemma ByScoreTotal(tokens: seq<string>)
    ensures TotalPreorder(ByScore(tokens))
  {
  }

  /** The token search keeps exactly the items matching every token, orders
      them by score (highest first) and keeps equal scores in list order. */
  lemma TokenSearchSpec(items: seq<BulkItem>, tokens: seq<string>)
    ensures var r := TokenSearch(items, tokens);
      && multiset(r) == multiset(Keep(items, (it: BulkItem) => AllTokensMatch(it, tokens)))
      && (forall i, j :: 0 <= i < j < |r| ==> TokenScore(r[i], tokens) >= TokenScore(r[j], tokens))
      && KeepsTies(Keep(items, (it: BulkItem) => AllTokensMatch(it, tokens)), r, ByScore(tokens))
  {
    ByScoreTotal(tokens);
    var kept := Keep(items, (it: BulkItem) => AllTokensMatch(it, tokens));
    SortBySorted(kept, ByScore(tokens));
    SortByKeepsTies(kept, ByScore(tokens));
  }

  // ---------------------------------------------------------------------
  // Wildcard search

  predicate CodeMatches(term: string, it: BulkItem) {
    Matches(term, LowCode(it))
  }

  predicate WildcardHit(term: string, it: BulkItem) {
    Matches(term, LowCode(it)) || Matches(term, LowName(it))
  }

  /** Code matches sort before name-only matches; then by lower-cased code
      (the code-unit order `StringLe` stands in for `localeCompare`). */
  function ByCodeMatch(term: string): (BulkItem, BulkItem) -> bool {
    (a: BulkItem, b: BulkItem) =>
      (CodeMatches(term, a) && !CodeMatches(term, b))
      || (CodeMatches(term, a) == CodeMatches(term, b) && StringLe(LowCode(a), LowCode(b)))
  }

  function WildcardSearch(items: seq<BulkItem>, term: string): seq<BulkItem> {
    SortBy(Keep(items, (it: BulkItem) => WildcardHit(term, it)), ByCodeMatch(term))
  }

  lemma ByCodeMatchTotal(term: string)
    ensures TotalPreorder(ByCodeMatch(term))
  {
    var le := ByCodeMatch(term);
    forall a, b ensures le(a, b) || le(b, a) {
      StringLeTotal(LowCode(a), LowCode(b));
    }
    forall a, b, c | le(a, b) && le(b, c) ensures le(a, c) {
      if CodeMatches(term, a) == CodeMatches(term, b) == CodeMatches(term, c) {
        StringLeTransitive(LowCode(a), LowCode(b), LowCode(c));
      }
    }
  }

  /** The wildcard search keeps exactly the items whose code or name
      matches, puts every code match ahead of every name-only match, and
      orders each of the two groups by code. */
  lemma WildcardSearchSpec(items: seq<BulkItem>, term: string)
    ensures var r := WildcardSearch(items, term);
      && multiset(r) == multiset(Keep(items, (it: BulkItem) => WildcardHit(term, it)))
      && (forall k :: 0 <= k < |r| ==> WildcardHit(term, r[k]))
      && (forall i, j :: 0 <= i < j < |r| && CodeMatches(term, r[j]) ==> CodeMatches(term, r[i]))
      && (forall i, j :: 0 <= i < j < |r| && CodeMatches(term, r[i]) == CodeMatches(term, r[j]) ==>
            StringLe(LowCode(r[i]), LowCode(r[j])))
  {
    ByCodeMatchTotal(term);
    var kept := Keep(items, (it: BulkItem) => WildcardHit(term, it));
    SortBySorted(kept, ByCodeMatch(term));
    var r := WildcardSearch(items, term);
    forall k | 0 <= k < |r| ensures WildcardHit(term, r[k]) {
      assert r[k] in multiset(kept);
    }
  }

  // ---------------------------------------------------------------------
  // Column sort (only when the search box is empty)

  datatype Column = ItemCode | ItemName | ActualQty | ValuationRate | PriceListRate
  datatype Direction = Asc | Desc

  datatype Key = Text(s: string) | Number(x: real)

  /** The cell value the sort compares; text is lower-cased first. */
  function KeyOf(col: Column, it: BulkItem): Key {
    match col
    case ItemCode => Text(LowCode(it))
    case ItemName => Text(LowName(it))
    case ActualQty => Number(it.actual_qty)
    case ValuationRate => Number(it.valuation_rate)
    case PriceListRate => Number(it.price_list_rate)
  }

  /** `a < b` on two values of one column. */
  predicate KeyLess(a: Key, b: Key) {
    match (a, b)
    case (Text(x), Text(y)) => StringLe(x, y) && x != y
    case (Number(x), Number(y)) => x < y
    case _ => false
  }

  /** The comparator `val_a > val_b ? 1 : val_a < val_b ? -1 : 0`, negated
      for "desc"; "a may come before b" when it returns a value <= 0. */
  function ByColumn(col: Column, dir: Direction): (BulkItem, BulkItem) -> bool {
    (a: BulkItem, b: BulkItem) =>
      if dir == Asc then !KeyLess(KeyOf(col, b), KeyOf(col, a))
      else !KeyLess(KeyOf(col, a), KeyOf(col, b))
  }

  lemma StringLeReflexive(a: string)
    ensures StringLe(a, a)
  {
    StringLeTotal(a, a);
  }

  lemma ByColumnTotal(col: Column, dir: Direction)
    ensures TotalPreorder(ByColumn(col, dir))
  {
    var le := ByColumn(col, dir);
    forall a, b ensures le(a, b) || le(b, a) {
      var x, y := KeyOf(col, a), KeyOf(col, b);
      if x.Text? {
        StringLeTotal(x.s, y.s);
        if x.s != y.s && StringLe(x.s, y.s) && StringLe(y.s, x.s) {
          StringLeAntisymmetric(x.s, y.s);
        }
      }
    }
    forall a, b, c | le(a, b) && le(b, c) ensures le(a, c) {
      var x, y, z := KeyOf(col, a), KeyOf(col, b), KeyOf(col, c);
      if x.Text? {
        StringOrderTransitive(x.s, y.s, z.s, dir);
      }
    }
  }

  /** On text, "not greater" is lexicographic order, so it is transitive. */
  lemma StringOrderTransitive(x: string, y: string, z: string, dir: Direction)
    ensures dir == Asc && !(StringLe(y, x) && y != x) && !(StringLe(z, y) && z != y) ==> !(StringLe(z, x) && z != x)
    ensures dir == Desc && !(StringLe(x, y) && x != y) && !(StringLe(y, z) && y != z) ==> !(StringLe(x, z) && x != z)
  {
    StringLeTotal(x, y);
    StringLeTotal(y, z);
    StringLeTotal(x, z);
    if StringLe(x, y) && StringLe(y, z) { StringLeTransitive(x, y, z); }
    if StringLe(z, y) && StringLe(y, x) { StringLeTransitive(z, y, x); }
    if StringLe(z, x) && StringLe(x, z) { StringLeAntisymmetric(x, z); }
    if StringLe(x, y) && StringLe(y, x) { StringLeAntisymmetric(x, y); }
    if StringLe(y, z) && StringLe(z, y) { StringLeAntisymmetric(y, z); }
  }

  /** Two values of one column, neither less than the other, are equal. */
  lemma KeysTie(x: Key, y: Key)
    requires x.Text? <==> y.Text?
    requires !KeyLess(x, y) && !KeyLess(y, x)
    ensures x == y
  {
    if x.Text? {
      StringLeTotal(x.s, y.s);
      if StringLe(x.s, y.s) && StringLe(y.s, x.s) { StringLeAntisymmetric(x.s, y.s); }
    }
  }

  /** Sorting a column "desc" gives the reverse of "asc" when no two
      different items have the same value in that column. */
  lemma DescIsReverseOfAsc(items: seq<BulkItem>, col: Column)
    requires forall i, j :: 0 <= i < |items| && 0 <= j < |items| && KeyOf(col, items[i]) == KeyOf(col, items[j]) ==> items[i] == items[j]
    ensures SortBy(items, ByColumn(col, Desc)) == Reverse(SortBy(items, ByColumn(col, Asc)))
  {
    var le, ge := ByColumn(col, Asc), ByColumn(col, Desc);
    ByColumnTotal(col, Asc);
    assert forall a, b :: ge(a, b) == le(b, a);
    forall i, j | 0 <= i < |items| && 0 <= j < |items| && le(items[i], items[j]) && le(items[j], items[i])
      ensures items[i] == items[j]
    {
      KeysTie(KeyOf(col, items[i]), KeyOf(col, items[j]));
    }
    SortByFlip(items, le, ge);
  }

  // ---------------------------------------------------------------------
  // The whole pipeline

  predicate Available(it: BulkItem) { it.actual_qty > 0.0 }

  /** The search result before the "Available only" filter: no search, the
      wildcard search when the term holds a `%`, the token search
      otherwise. */
  function Searched(items: seq<BulkItem>, term: string): (r: seq<BulkItem>)
    ensures multiset(r) <= multiset(items)
  {
    if term == [] then items
    else if '%' in term then WildcardSearch(items, term)
    else TokenSearch(items, Tokens(term))
  }

  /** `get_sorted_filtered_data`. */
  function SortedFilteredData(items: seq<BulkItem>, raw: string, showAvailable: bool,
                              col: Column, dir: Direction): (r: seq<BulkItem>)
    ensures multiset(r) <= multiset(items)
    ensures showAvailable ==> forall k :: 0 <= k < |r| ==> Available(r[k])
  {
    var term := SearchTerm(raw);
    var found := Searched(items, term);
    var shown := if showAvailable then Keep(found, Available) else found;
    assert multiset(shown) <= multiset(items);
    if term == [] then
      var r := SortBy(shown, ByColumn(col, dir));
      assert showAvailable ==> forall k :: 0 <= k < |r| ==> Available(r[k]) by {
        if showAvailable {
          forall k | 0 <= k < |r| ensures Available(r[k]) {
            assert r[k] in multiset(shown);
          }
        }
      }
      r
    else shown
  }

  /** With an empty search box the rows are the (available) items sorted by
      the chosen column, equal values in list order. */
  lemma NoSearchIsColumnSort(items: seq<BulkItem>, raw: string, showAvailable: bool,
                             col: Column, dir: Direction)
    requires SearchTerm(raw) == []
    ensures var r := SortedFilteredData(items, raw, showAvailable, col, dir);
      var shown := if showAvailable then Keep(items, Available) else items;
      multiset(r) == multiset(shown) && SortedBy(r, ByColumn(col, dir)) && KeepsTies(shown, r, ByColumn(col, dir))
  {
    var shown := if showAvailable then Keep(items, Available) else items;
    ByColumnTotal(col, dir);
    SortBySorted(shown, ByColumn(col, dir));
    SortByKeepsTies(shown, ByColumn(col, dir));
  }

  /** A search disables the column sort: the rows keep the search order. */
  lemma SearchIgnoresColumn(items: seq<BulkItem>, raw: string, showAvailable: bool,
                            col1: Column, dir1: Direction, col2: Column, dir2: Direction)
    requires SearchTerm(raw) != []
    ensures SortedFilteredData(items, raw, showAvailable, col1, dir1)
         == SortedFilteredData(items, raw, showAvailable, col2, dir2)
  {
  }

  // ---------------------------------------------------------------------
  // Pagination: 20 rows to a page

  /** `Math.ceil(n / 20) || 1`. */
  function TotalPages(n: nat): (p: nat)
    ensures p >= 1
    ensures (p - 1) * 20 < n || (n == 0 && p == 1)
    ensures n <= p * 20
  {
    if n == 0 then 1 else (n + 20 - 1) / 20
  }

  /** `data.slice(start, start + 20)` with `start = (page - 1) * 20`. */
  function PageSlice<T>(data: seq<T>, page: nat): (r: seq<T>)
    requires page >= 1
    ensures |r| <= 20
    ensures forall k :: 0 <= k < |r| ==> (page - 1) * 20 + k < |data| && r[k] == data[(page - 1) * 20 + k]
    ensures page <= TotalPages(|data|) && |data| > 0 ==> |r| > 0
  {
    var start := (page - 1) * 20;
    if start >= |data| then []
    else if start + 20 >= |data| then data[start..]
    else data[start..start + 20]
  }

  /** A page within the page count holds at most 20 rows, and at least one
      when there are rows at all. */
  lemma PageShown<T>(data: seq<T>, page: nat)
    requires 1 <= page <= TotalPages(|data|)
    ensures |PageSlice(data, page)| <= 20
    ensures data != [] ==> PageSlice(data, page) != []
  {
  }

  /** The pages partition the rows: row `i` is on page `i / 20 + 1`. */
  lemma RowOnItsPage<T>(data: seq<T>, i: nat)
    requires i < |data|
    ensures var page := i / 20 + 1;
      page <= TotalPages(|data|) && PageSlice(data, page)[i % 20] == data[i]
  {
    var page := i / 20 + 1;
    assert (page - 1) * 20 + i % 20 == i;
  }
}
