/** String operations the JavaScript code relies on: `toLowerCase`, `trim`,
    `split(/\s+/)`, `startsWith`, `includes`, `repeat`, and the relational
    operators on strings. Strings are sequences of characters. */
module Text {
  import StableSort

  /** The characters JavaScript's `\s` and `String.prototype.trim` treat as
      white space (white space plus line terminators). */
  predicate IsSpace(c: char) {
    || c == ' ' || c == '\t' || c == '\n' || c == '\r'
    || c == '\U{000B}' || c == '\U{000C}' || c == '\U{00A0}' || c == '\U{1680}'
    || ('\U{2000}' <= c <= '\U{200A}')
    || c == '\U{2028}' || c == '\U{2029}' || c == '\U{202F}' || c == '\U{205F}'
    || c == '\U{3000}' || c == '\U{FEFF}'
  }

  /** The characters a regular-expression `.` does not match. */
  predicate IsLineTerminator(c: char) {
    c == '\n' || c == '\r' || c == '\U{2028}' || c == '\U{2029}'
  }

  predicate SpaceFree(s: string) {
    forall i :: 0 <= i < |s| ==> !IsSpace(s[i])
  }

  // ---------------------------------------------------------------------
  // Lower-casing (the model folds the ASCII letters only)

  function LowerChar(c: char): char {
    if 'A' <= c <= 'Z' then (c as int + 32) as char else c
  }

  function Lower(s: string): (r: string)
    ensures |r| == |s|
  {
    if s == [] then [] else [LowerChar(s[0])] + Lower(s[1..])
  }

  lemma {:induction false} LowerIdempotent(s: string)
    ensures Lower(Lower(s)) == Lower(s)
  {
    if s != [] {
      LowerIdempotent(s[1..]);
    }
  }

  lemma {:induction false} LowerAt(s: string, i: nat)
    requires i < |s|
    ensures Lower(s)[i] == LowerChar(s[i])
  {
    if i > 0 {
      LowerAt(s[1..], i - 1);
    }
  }

  /** Lower-casing never creates or removes a `%` or a space. */
  lemma LowerKeepsPercentAndSpace(s: string, i: nat)
    requires i < |s|
    ensures (Lower(s)[i] == '%') == (s[i] == '%')
    ensures IsSpace(Lower(s)[i]) == IsSpace(s[i])
  {
    LowerAt(s, i);
  }

  // ---------------------------------------------------------------------
  // trim()

  function TrimStart(s: string): (r: string)
    ensures |r| <= |s| && r == s[|s| - |r|..]
    ensures r != [] ==> !IsSpace(r[0])
    ensures forall i :: 0 <= i < |s| - |r| ==> IsSpace(s[i])
  {
    if s != [] && IsSpace(s[0]) then TrimStart(s[1..]) else s
  }

  function TrimEnd(s: string): (r: string)
    ensures |r| <= |s| && r == s[..|r|]
    ensures r != [] ==> !IsSpace(r[|r| - 1])
    ensures forall i :: |r| <= i < |s| ==> IsSpace(s[i])
  {
    if s != [] && IsSpace(s[|s| - 1]) then TrimEnd(s[..|s| - 1]) else s
  }

  /** `s.trim()`: `s` without its leading and trailing white space. */
  function Trim(s: string): (r: string)
    ensures r != [] ==> !IsSpace(r[0]) && !IsSpace(r[|r| - 1])
    ensures exists a, b ::
      && 0 <= a <= b <= |s| && r == s[a..b]
      && (forall i :: 0 <= i < a ==> IsSpace(s[i]))
      && (forall i :: b <= i < |s| ==> IsSpace(s[i]))
  {
    var t := TrimStart(s);
    var r := TrimEnd(t);
    TrimParts(s, t, r);
    var a, b := |s| - |t|, |s| - |t| + |r|;
    assert r == s[a..b];
    r
  }

  /** The trimmed text is the slice of `s` between its leading and trailing white space. */
  lemma {:induction false} TrimParts(s: string, t: string, r: string)
    requires |t| <= |s| && t == s[|s| - |t|..]
    requires |r| <= |t| && r == t[..|r|]
    requires forall i :: |r| <= i < |t| ==> IsSpace(t[i])
    ensures var a, b := |s| - |t|, |s| - |t| + |r|;
      && b <= |s| && r == s[a..b]
      && (forall i :: b <= i < |s| ==> IsSpace(s[i]))
  {
    var a, b := |s| - |t|, |s| - |t| + |r|;
    assert t == s[a..] && r == t[..|r|];
    assert t[..|r|] == s[a..b];
    forall i | b <= i < |s|
      ensures IsSpace(s[i])
    {
      assert s[i] == t[i - a];
    }
  }

  // ---------------------------------------------------------------------
  // split(/\s+/).filter(t => t.length > 0)

  /** The longest prefix of `s` without white space. */
  function Word(s: string): (w: string)
    ensures |w| <= |s| && w == s[..|w|]
    ensures SpaceFree(w)
    ensures |w| < |s| ==> IsSpace(s[|w|])
  {
    if s == [] || IsSpace(s[0]) then [] else [s[0]] + Word(s[1..])
  }

  /** The white-space separated words of `s`, in order; there are none
      exactly when `s` is all white space. */
  function Tokens(s: string): (r: seq<string>)
    ensures forall k :: 0 <= k < |r| ==> r[k] != [] && SpaceFree(r[k])
    ensures r == [] <==> forall i :: 0 <= i < |s| ==> IsSpace(s[i])
    decreases |s|
  {
    if s == [] then []
    else if IsSpace(s[0]) then
      var r := Tokens(s[1..]);
      assert forall i :: 1 <= i < |s| ==> s[i] == s[1..][i - 1];
      r
    else
      var w := Word(s);
      [w] + Tokens(s[|w|..])
  }

  /** `s[i..j]` is a maximal run of non-white-space characters of `s`. */
  predicate IsRun(s: string, i: nat, j: nat) {
    i < j <= |s| && SpaceFree(s[i..j])
    && (i == 0 || IsSpace(s[i - 1])) && (j == |s| || IsSpace(s[j]))
  }

  /** The longest non-space prefix is the run that starts the text. */
  lemma {:induction false} WordOfRun(s: string, j: nat)
    requires 0 < j <= |s| && SpaceFree(s[..j]) && (j == |s| || IsSpace(s[j]))
    ensures Word(s) == s[..j]
    decreases j
  {
    assert s[..j][0] == s[0];
    if j > 1 {
      assert s[1..][..j - 1] == s[..j][1..];
      WordOfRun(s[1..], j - 1);
    }
  }

  /** Every maximal run of non-white-space characters is one of the
      words. */
  lemma {:induction false} RunIsToken(s: string, i: nat, j: nat)
    requires IsRun(s, i, j)
    ensures s[i..j] in Tokens(s)
    decreases |s|
  {
    if i == 0 {
      assert s[..j] == s[i..j] && s[0] == s[i..j][0];
      WordOfRun(s, j);
    } else if IsSpace(s[0]) {
      assert s[1..][i - 1..j - 1] == s[i..j];
      assert i - 1 == 0 || s[1..][i - 2] == s[i - 1];
      assert j - 1 == |s[1..]| || s[1..][j - 1] == s[j];
      RunIsToken(s[1..], i - 1, j - 1);
    } else {
      var w := Word(s);
      assert |w| < i;
      var rest := s[|w|..];
      assert rest[i - |w|..j - |w|] == s[i..j];
      assert rest[i - |w| - 1] == s[i - 1];
      assert j - |w| == |rest| || rest[j - |w|] == s[j];
      RunIsToken(rest, i - |w|, j - |w|);
      assert Tokens(s) == [w] + Tokens(rest);
    }
  }

  /** A run of a suffix `s[n..]` is a run of `s`, shifted by `n`, when it
      does not start the suffix or the suffix follows white space. */
  lemma RunShift(s: string, n: nat, i: nat, j: nat)
    requires n <= |s| && IsRun(s[n..], i, j)
    requires i > 0 || n == 0 || IsSpace(s[n - 1])
    ensures IsRun(s, i + n, j + n) && s[i + n..j + n] == s[n..][i..j]
  {
    assert s[i + n..j + n] == s[n..][i..j];
    assert i > 0 ==> s[i + n - 1] == s[n..][i - 1];
    assert j + n < |s| ==> s[j + n] == s[n..][j];
  }

  /** One step of `Tokens`: skip a white-space character, or take a word. */
  lemma TokensStep(s: string)
    requires s != []
    ensures IsSpace(s[0]) ==> Tokens(s) == Tokens(s[1..])
    ensures !IsSpace(s[0]) ==> Tokens(s) == [Word(s)] + Tokens(s[|Word(s)|..])
  {
  }

  /** The word at the start of a text that starts with no white space is a
      run. */
  lemma FirstWordIsRun(s: string)
    requires s != [] && !IsSpace(s[0])
    ensures IsRun(s, 0, |Word(s)|) && s[0..|Word(s)|] == Word(s)
  {
    assert Word(s) == [s[0]] + Word(s[1..]);
    assert s[0..|Word(s)|] == s[..|Word(s)|];
  }

  /** Conversely every word is a maximal run of the text. */
  lemma {:induction false} TokenIsRun(s: string, k: nat) returns (i: nat, j: nat)
    requires k < |Tokens(s)|
    ensures IsRun(s, i, j) && Tokens(s)[k] == s[i..j]
    decreases |s|
  {
    TokensStep(s);
    if IsSpace(s[0]) {
      i, j := TokenIsRunAfterSpace(s, k);
    } else if k == 0 {
      FirstWordIsRun(s);
      i, j := 0, |Word(s)|;
    } else {
      i, j := TokenIsRunAfterWord(s, k);
    }
  }

  lemma {:induction false} TokenIsRunAfterSpace(s: string, k: nat) returns (i: nat, j: nat)
    requires s != [] && IsSpace(s[0]) && k < |Tokens(s[1..])|
    ensures IsRun(s, i, j) && Tokens(s[1..])[k] == s[i..j]
    decreases |s|, 0
  {
    var i', j' := TokenIsRun(s[1..], k);
    RunShift(s, 1, i', j');
    i, j := i' + 1, j' + 1;
  }

  lemma {:induction false} TokenIsRunAfterWord(s: string, k: nat) returns (i: nat, j: nat)
    requires s != [] && !IsSpace(s[0]) && 0 < k < 1 + |Tokens(s[|Word(s)|..])|
    ensures IsRun(s, i, j) && Tokens(s[|Word(s)|..])[k - 1] == s[i..j]
    decreases |s|, 0
  {
    var w := Word(s);
    assert w == [s[0]] + Word(s[1..]);
    var rest := s[|w|..];
    var i', j' := TokenIsRun(rest, k - 1);
    assert IsSpace(rest[0]);
    assert rest[i'..j'][0] == rest[i'];
    assert !IsSpace(rest[i']) && i' > 0;
    RunShift(s, |w|, i', j');
    i, j := i' + |w|, j' + |w|;
  }

  /** A string without white space splits into itself alone. */
  lemma {:induction false} TokensOfWord(s: string)
    requires s != [] && SpaceFree(s)
    ensures Tokens(s) == [s]
  {
    WordOfSpaceFree(s);
  }

  lemma {:induction false} WordOfSpaceFree(s: string)
    requires SpaceFree(s)
    ensures Word(s) == s
  {
    if s != [] {
      WordOfSpaceFree(s[1..]);
    }
  }

  // ---------------------------------------------------------------------
  // startsWith / includes / ===

  predicate IsPrefix(p: string, s: string) {
    |p| <= |s| && s[..|p|] == p
  }

  /** `s.includes(t)`. */
  predicate Contains(s: string, t: string)
    decreases |s|
  {
    IsPrefix(t, s) || (s != [] && Contains(s[1..], t))
  }

  lemma {:induction false} ContainsAt(s: string, t: string, i: nat)
    requires i + |t| <= |s| && s[i..i + |t|] == t
    ensures Contains(s, t)
  {
    if i > 0 {
      assert s[1..][i - 1..i - 1 + |t|] == s[i..i + |t|];
      ContainsAt(s[1..], t, i - 1);
    }
  }

  lemma {:induction false} ContainsWitness(s: string, t: string) returns (i: nat)
    requires Contains(s, t)
    ensures i + |t| <= |s| && s[i..i + |t|] == t
    decreases |s|
  {
    if IsPrefix(t, s) {
      i := 0;
    } else {
      var j := ContainsWitness(s[1..], t);
      assert s[1..][j..j + |t|] == s[j + 1..j + 1 + |t|];
      i := j + 1;
    }
  }

  /** A string that contains `t` still contains it when text is added on
      either side. */
  lemma ContainsExtend(a: string, s: string, b: string, t: string)
    requires Contains(s, t)
    ensures Contains(a + s + b, t)
  {
    var i := ContainsWitness(s, t);
    assert (a + s + b)[|a| + i..|a| + i + |t|] == s[i..i + |t|];
    ContainsAt(a + s + b, t, |a| + i);
  }

  /** A word without white space occurs in `a + " " + b` exactly when it
      occurs in `a` or in `b`: it cannot straddle the separating space. */
  lemma JoinedContains(a: string, b: string, t: string)
    requires SpaceFree(t)
    ensures Contains(a + " " + b, t) <==> Contains(a, t) || Contains(b, t)
  {
    var j := a + " " + b;
    if Contains(j, t) {
      var i := ContainsWitness(j, t);
      if i + |t| <= |a| {
        assert a[i..i + |t|] == j[i..i + |t|];
        ContainsAt(a, t, i);
      } else {
        // the separating space cannot lie inside t, so t lies inside b
        assert j[|a|] == ' ' && IsSpace(j[|a|]);
        forall q | i <= q < i + |t|
          ensures !IsSpace(j[q])
        {
          assert j[q] == j[i..i + |t|][q - i] == t[q - i];
        }
        assert i > |a|;
        assert b[i - |a| - 1..i - |a| - 1 + |t|] == j[i..i + |t|];
        ContainsAt(b, t, i - |a| - 1);
      }
    }
    if Contains(a, t) {
      ContainsExtend([], a, " " + b, t);
      assert [] + a + (" " + b) == j;
    }
    if Contains(b, t) {
      ContainsExtend(a + " ", b, [], t);
      assert a + " " + b + [] == j;
    }
  }

  // ---------------------------------------------------------------------
  // `%` removal and padding

  /** `s.replace(/%/g, '')`. */
  function RemovePercent(s: string): (r: string)
    ensures '%' !in r
    ensures |r| <= |s|
    ensures r == StableSort.Keep(s, (c: char) => c != '%')
  {
    if s == [] then [] else (if s[0] == '%' then [] else [s[0]]) + RemovePercent(s[1..])
  }

  /** `c.repeat(n)` for a one-character string `c`. */
  function Repeat(c: char, n: nat): (r: string)
    ensures |r| == n
    ensures forall i :: 0 <= i < n ==> r[i] == c
  {
    if n == 0 then [] else [c] + Repeat(c, n - 1)
  }
}
