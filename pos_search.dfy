/** The item search of the point-of-sale compact view: every item gets a
    relevance score for the search term, the items scoring above zero are
    kept, and they are ordered highest score first, equal scores in list
    order. A term with a `%` is a wildcard pattern; any other term is
    scored token by token. */
module PosSearch {
  import opened Text
  import opened StableSort
  import opened Wildcard

  /** An item of the point-of-sale list (a missing text field is the empty
      string, a missing number 0). */
  datatype PosItem = PosItem(
    item_code: string,
    item_name: string,
    actual_qty: real,
    is_stock_item: bool,
    price_list_rate: real)

  function LowCode(it: PosItem): string { Lower(it.item_code) }
  function LowName(it: PosItem): string { Lower(it.item_name) }

  // ---------------------------------------------------------------------
  // Token mode

  /** The points the tokens earn: 50 for each token in the code and 30 for
      each token in the name. */
  function TokenPoints(code: string, name: string, tokens: seq<string>): (n: int)
    ensures 0 <= n <= 80 * |tokens|
  {
    if tokens == [] then 0
    else
      var t := tokens[|tokens| - 1];
      TokenPoints(code, name, tokens[..|tokens| - 1])
      + (if Contains(code, t) then 50 else 0) + (if Contains(name, t) then 30 else 0)
  }

  /** `tokensMatched`: one per token in the code, one per token in the name. */
  function TokensMatched(code: string, name: string, tokens: seq<string>): (n: nat)
    ensures n <= 2 * |tokens|
  {
    if tokens == [] then 0
    else
      var t := tokens[|tokens| - 1];
      TokensMatched(code, name, tokens[..|tokens| - 1])
      + (if Contains(code, t) then 1 else 0) + (if Contains(name, t) then 1 else 0)
  }

  /** The part of the token score that does not depend on the tokens. */
  function PhrasePoints(code: string, name: string, s: string): (n: int)
    ensures 0 <= n <= 1700
  {
    (if code == s || name == s then 1000 else 0)
    + (if IsPrefix(s, code) then 500 else if IsPrefix(s, name) then 400 else 0)
    + (if Contains(code, s) then 200 else if Contains(name, s) then 100 else 0)
  }

  /** The token-mode score of an item. */
  function TokenScore(it: PosItem, term: string): int
  {
    var s := Lower(term);
    var tokens := Tokens(s);
    var c, n := LowCode(it), LowName(it);
    PhrasePoints(c, n, s) + TokenPoints(c, n, tokens)
    + (if TokensMatched(c, n, tokens) == 2 * |tokens| then 150 else 0)
  }

  // ---------------------------------------------------------------------
  // Wildcard mode

  /** The wildcard-mode score: 10 when `code + ' ' + name` matches, and on
      top of that 30 when the code matches, 100 when the code is the term
      without its `%`s and 50 when the code starts with it. */
  function WildcardScore(it: PosItem, term: string): int
  {
    var p := Lower(term);
    var c := LowCode(it);
    var clean := Lower(RemovePercent(term));
    if !Matches(p, c + " " + LowName(it)) then 0
    else 10 + (if Matches(p, c) then 30 else 0) + (if c == clean then 100 else 0)
         + (if IsPrefix(clean, c) then 50 else 0)
  }

  function Score(it: PosItem, term: string): int {
    if '%' in term then WildcardScore(it, term) else TokenScore(it, term)
  }

  predicate Scores(term: string, it: PosItem) { Score(it, term) > 0 }

  /** The comparator `b.score - a.score`. */
  function ByScore(term: string): (PosItem, PosItem) -> bool {
    (a: PosItem, b: PosItem) => Score(a, term) >= Score(b, term)
  }

  /** `getSortedFilteredData(items, search_term)`. */
  function SortedFilteredData(items: seq<PosItem>, term: string): seq<PosItem> {
    if term == "" then items
    else SortBy(Keep(items, (it: PosItem) => Scores(term, it)), ByScore(term))
  }

  /** The score loop of one item, as the source runs it over the tokens. */
  method ScoreItem(it: PosItem, term: string) returns (score: int)
    ensures score == Score(it, term)
  {
    if '%' in term {
      return WildcardScore(it, term);
    }
    var s := Lower(term);
    var tokens := Tokens(s);
    var c, n := LowCode(it), LowName(it);
    score := PhrasePoints(c, n, s);
    var matched := 0;
    var i := 0;
    while i < |tokens|
      invariant 0 <= i <= |tokens|
      invariant score == PhrasePoints(c, n, s) + TokenPoints(c, n, tokens[..i])
      invariant matched == TokensMatched(c, n, tokens[..i])
    {
      assert tokens[..i + 1][..i] == tokens[..i];
      if Contains(c, tokens[i]) {
        score := score + 50;
        matched := matched + 1;
      }
      if Contains(n, tokens[i]) {
        score := score + 30;
        matched := matched + 1;
      }
      i := i + 1;
    }
    assert tokens[..i] == tokens;
    if matched == 2 * |tokens| {
      score := score + 150;
    }
  }

  // ---------------------------------------------------------------------
  // Properties

  lemma ByScoreTotal(term: string)
    ensures TotalPreorder(ByScore(term))
  {
  }

  /** An empty term leaves the list alone; any other term keeps exactly the
      items scoring above zero, highest score first, equal scores in list
      order. */
  lemma SearchSpec(items: seq<PosItem>, term: string)
    ensures term == "" ==> SortedFilteredData(items, term) == items
    ensures term != "" ==>
      var r := SortedFilteredData(items, term);
      var kept := Keep(items, (it: PosItem) => Scores(term, it));
      && multiset(r) == multiset(kept)
      && (forall k :: 0 <= k < |r| ==> Score(r[k], term) > 0)
      && (forall k :: 0 <= k < |items| && Score(items[k], term) > 0 ==> items[k] in r)
      && (forall i, j :: 0 <= i < j < |r| ==> Score(r[i], term) >= Score(r[j], term))
      && KeepsTies(kept, r, ByScore(term))
  {
    if term != "" {
      ByScoreTotal(term);
      var kept := Keep(items, (it: PosItem) => Scores(term, it));
      SortBySorted(kept, ByScore(term));
      SortByKeepsTies(kept, ByScore(term));
      var r := SortedFilteredData(items, term);
      forall k | 0 <= k < |r| ensures Score(r[k], term) > 0 {
        assert r[k] in multiset(kept);
      }
      forall k | 0 <= k < |items| && Score(items[k], term) > 0 ensures items[k] in r {
        assert items[k] in multiset(kept);
      }
    }
  }

  /** The all-tokens bonus is earned exactly when every token occurs in
      both the code and the name. */
  lemma {:induction false} TokensMatchedAll(code: string, name: string, tokens: seq<string>)
    ensures TokensMatched(code, name, tokens) == 2 * |tokens| <==>
      forall k :: 0 <= k < |tokens| ==> Contains(code, tokens[k]) && Contains(name, tokens[k])
  {
    if tokens != [] {
      var init := tokens[..|tokens| - 1];
      TokensMatchedAll(code, name, init);
      assert forall k :: 0 <= k < |init| ==> init[k] == tokens[k];
    }
  }

  /** Without any token in the code or the name there are no token points
      and nothing is matched. */
  lemma {:induction false} NoTokenHits(code: string, name: string, tokens: seq<string>)
    requires forall k :: 0 <= k < |tokens| ==> !Contains(code, tokens[k]) && !Contains(name, tokens[k])
    ensures TokenPoints(code, name, tokens) == 0 && TokensMatched(code, name, tokens) == 0
  {
    if tokens != [] {
      var init := tokens[..|tokens| - 1];
      assert forall k :: 0 <= k < |init| ==> init[k] == tokens[k];
      NoTokenHits(code, name, init);
    }
  }

  /** Some token in the code or the name earns token points. */
  lemma {:induction false} SomeTokenHit(code: string, name: string, tokens: seq<string>, k: nat)
    requires k < |tokens| && (Contains(code, tokens[k]) || Contains(name, tokens[k]))
    ensures TokenPoints(code, name, tokens) >= 30
  {
    var init := tokens[..|tokens| - 1];
    if k < |init| {
      assert init[k] == tokens[k];
      SomeTokenHit(code, name, init, k);
    }
  }

  /** Every word of a text occurs in it. */
  lemma {:induction false} TokensOccur(s: string)
    ensures forall k :: 0 <= k < |Tokens(s)| ==> Contains(s, Tokens(s)[k])
    decreases |s|
  {
    if s != [] {
      if IsSpace(s[0]) {
        TokensOccur(s[1..]);
        forall k | 0 <= k < |Tokens(s)| ensures Contains(s, Tokens(s)[k]) {
          ContainsExtend([s[0]], s[1..], [], Tokens(s)[k]);
          assert [s[0]] + s[1..] + [] == s;
        }
      } else {
        var w := Word(s);
        TokensOccur(s[|w|..]);
        var r := Tokens(s);
        assert r == [w] + Tokens(s[|w|..]);
        forall k | 0 <= k < |r| ensures Contains(s, r[k]) {
          if k == 0 {
            assert IsPrefix(w, s);
          } else {
            assert r[k] == Tokens(s[|w|..])[k - 1];
            ContainsExtend(s[..|w|], s[|w|..], [], r[k]);
            assert s[..|w|] + s[|w|..] + [] == s;
          }
        }
      }
    }
  }

  /** `includes` is transitive. */
  lemma ContainsTrans(a: string, b: string, t: string)
    requires Contains(a, b) && Contains(b, t)
    ensures Contains(a, t)
  {
    var i := ContainsWitness(a, b);
    var j := ContainsWitness(b, t);
    assert forall m :: 0 <= m < |b| ==> a[i + m] == b[m];
    assert forall m :: 0 <= m < |t| ==> a[i + j + m] == t[m];
    assert a[i + j..i + j + |t|] == t;
    ContainsAt(a, t, i + j);
  }

  lemma PrefixContains(p: string, s: string)
    requires IsPrefix(p, s)
    ensures Contains(s, p)
  {
  }

  /** In token mode, an item scores above zero exactly when some word of
      the term occurs in its code or its name. */
  lemma TokenScorePositive(it: PosItem, term: string)
    requires Tokens(Lower(term)) != []
    ensures TokenScore(it, term) > 0 <==>
      exists k :: 0 <= k < |Tokens(Lower(term))| &&
        (Contains(LowCode(it), Tokens(Lower(term))[k]) || Contains(LowName(it), Tokens(Lower(term))[k]))
  {
    var s := Lower(term);
    var tokens := Tokens(s);
    var c, n := LowCode(it), LowName(it);
    if exists k :: 0 <= k < |tokens| && (Contains(c, tokens[k]) || Contains(n, tokens[k])) {
      var k :| 0 <= k < |tokens| && (Contains(c, tokens[k]) || Contains(n, tokens[k]));
      SomeTokenHit(c, n, tokens, k);
    } else {
      NoTokenHits(c, n, tokens);
      TokensOccur(s);
      assert Contains(s, tokens[0]);
      if Contains(c, s) {
        ContainsTrans(c, s, tokens[0]);
      }
      if Contains(n, s) {
        ContainsTrans(n, s, tokens[0]);
      }
      assert !Contains(c, s) && !Contains(n, s);
      assert PhrasePoints(c, n, s) == 0;
    }
  }

  /** An item whose code is a one-word term outranks every item in whose
      code the term does not occur. */
  lemma ExactCodeOutranks(exact: PosItem, other: PosItem, term: string)
    requires '%' !in term && Tokens(Lower(term)) == [Lower(term)]
    requires LowCode(exact) == Lower(term) && !Contains(LowCode(other), Lower(term))
    ensures Score(exact, term) > Score(other, term)
  {
    var s := Lower(term);
    assert IsPrefix(s, LowCode(exact));
    assert TokenScore(exact, term) >= 1750 by {
      assert [s][..0] == [];
      assert TokenPoints(LowCode(exact), LowName(exact), [s]) >= 50;
    }
    if IsPrefix(s, LowCode(other)) {
      PrefixContains(s, LowCode(other));
    }
    assert [s][..0] == [];
    assert TokenScore(other, term) <= 1530;
  }

  // Wildcard mode

  /** `%` lower-cased is still `%`, so dropping the `%`s commutes with
      lower-casing. */
  lemma {:induction false} LowerRemovePercent(s: string)
    ensures Lower(RemovePercent(s)) == RemovePercent(Lower(s))
  {
    if s != [] {
      LowerRemovePercent(s[1..]);
      var h := if s[0] == '%' then [] else [s[0]];
      LowerAppend(h, RemovePercent(s[1..]));
      assert Lower(s)[0] == LowerChar(s[0]) && Lower(s)[1..] == Lower(s[1..]);
    }
  }

  lemma {:induction false} LowerAppend(a: string, b: string)
    ensures Lower(a + b) == Lower(a) + Lower(b)
  {
    if a != [] {
      assert (a + b)[0] == a[0] && (a + b)[1..] == a[1..] + b;
      LowerAppend(a[1..], b);
    } else {
      assert a + b == b;
    }
  }

  /** Every `%` may match nothing: a text starting with the pattern minus
      its `%`s matches the pattern. */
  lemma {:induction false} PercentsMatchEmpty(p: string, s: string)
    requires IsPrefix(RemovePercent(p), s)
    ensures MatchFrom(p, s)
    decreases |p|
  {
    if p != [] {
      if p[0] == '%' {
        PercentsMatchEmpty(p[1..], s);
      } else {
        assert RemovePercent(p) == [p[0]] + RemovePercent(p[1..]);
        assert s[1..][..|RemovePercent(p[1..])|] == s[..|RemovePercent(p)|][1..];
        PercentsMatchEmpty(p[1..], s[1..]);
      }
    }
  }

  /** In wildcard mode an item whose code matches scores at least 40, and
      one matched through its name alone scores exactly 10: the bonuses for
      the code require a code match. */
  lemma WildcardCodeMatchesFirst(it: PosItem, term: string)
    requires Matches(Lower(term), LowCode(it) + " " + LowName(it))
    ensures Matches(Lower(term), LowCode(it)) ==> WildcardScore(it, term) >= 40
    ensures !Matches(Lower(term), LowCode(it)) ==> WildcardScore(it, term) == 10
  {
    var c := LowCode(it);
    var clean := Lower(RemovePercent(term));
    LowerRemovePercent(term);
    if IsPrefix(clean, c) {
      PercentsMatchEmpty(Lower(term), c);
    }
  }

  /** In wildcard mode an item scores above zero exactly when the pattern
      matches `code + ' ' + name`. */
  lemma WildcardScorePositive(it: PosItem, term: string)
    ensures WildcardScore(it, term) > 0 <==> Matches(Lower(term), LowCode(it) + " " + LowName(it))
  {
  }
}
