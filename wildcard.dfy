/** The `%` wildcard of the item searches. The search term is turned into a
    regular expression in which every character except `%` is escaped (so
    it stands for itself) and every `%` becomes `.*`; the expression is
    unanchored and case-insensitive. `.` matches any character except a
    line terminator. */
module Wildcard {
  import opened Text

  /** The pattern `p` matches a prefix of `s`. */
  predicate MatchFrom(p: string, s: string)
    decreases |p| + |s|
  {
    if p == [] then true
    else if p[0] == '%' then
      MatchFrom(p[1..], s) || (s != [] && !IsLineTerminator(s[0]) && MatchFrom(p, s[1..]))
    else
      s != [] && s[0] == p[0] && MatchFrom(p[1..], s[1..])
  }

  /** `regex.test(s)`: the pattern matches somewhere in `s`. */
  predicate Matches(p: string, s: string)
    decreases |s|
  {
    MatchFrom(p, s) || (s != [] && Matches(p, s[1..]))
  }

  /** Without a `%`, matching a prefix is being a prefix. */
  lemma {:induction false} MatchFromLiteral(p: string, s: string)
    requires '%' !in p
    ensures MatchFrom(p, s) <==> IsPrefix(p, s)
    decreases |p|
  {
    if p != [] && s != [] {
      MatchFromLiteral(p[1..], s[1..]);
      if IsPrefix(p, s) {
        assert s[1..][..|p| - 1] == s[..|p|][1..];
      }
    }
  }

  /** A term without `%` matches exactly the texts that contain it. */
  lemma {:induction false} LiteralMatchesIsContains(p: string, s: string)
    requires '%' !in p
    ensures Matches(p, s) <==> Contains(s, p)
    decreases |s|
  {
    MatchFromLiteral(p, s);
    if s != [] {
      LiteralMatchesIsContains(p, s[1..]);
    }
  }

  /** A match of `p` somewhere in `s` is also a match of `p` in any text
      that has `s` as a suffix. */
  lemma {:induction false} MatchesSuffix(p: string, a: string, s: string)
    requires Matches(p, s)
    ensures Matches(p, a + s)
    decreases |a|
  {
    if a != [] {
      assert (a + s)[1..] == a[1..] + s;
      MatchesSuffix(p, a[1..], s);
    } else {
      assert a + s == s;
    }
  }

  /** A trailing `%` can always match the empty string, so it changes
      nothing about a prefix match. */
  lemma {:induction false} TrailingPercentFrom(p: string, s: string)
    ensures MatchFrom(p + "%", s) <==> MatchFrom(p, s)
    decreases |p| + |s|
  {
    if p == [] {
      assert p + "%" == "%";
      assert MatchFrom("%"[1..], s);
    } else {
      assert (p + "%")[0] == p[0] && (p + "%")[1..] == p[1..] + "%";
      if p[0] == '%' {
        TrailingPercentFrom(p[1..], s);
        if s != [] {
          TrailingPercentFrom(p, s[1..]);
        }
      } else if s != [] {
        TrailingPercentFrom(p[1..], s[1..]);
      }
    }
  }

  lemma {:induction false} TrailingPercent(p: string, s: string)
    ensures Matches(p + "%", s) <==> Matches(p, s)
    decreases |s|
  {
    TrailingPercentFrom(p, s);
    if s != [] {
      TrailingPercent(p, s[1..]);
    }
  }

  /** A leading `%` skips a run of characters without line terminators. */
  lemma {:induction false} LeadingPercentFrom(p: string, s: string)
    requires MatchFrom("%" + p, s)
    ensures Matches(p, s)
    decreases |s|
  {
    assert ("%" + p)[0] == '%' && ("%" + p)[1..] == p;
    if !MatchFrom(p, s) {
      LeadingPercentFrom(p, s[1..]);
    }
  }

  /** In an unanchored search a leading `%` is redundant. */
  lemma {:induction false} LeadingPercent(p: string, s: string)
    ensures Matches("%" + p, s) <==> Matches(p, s)
    decreases |s|
  {
    assert ("%" + p)[0] == '%' && ("%" + p)[1..] == p;
    if s != [] {
      LeadingPercent(p, s[1..]);
    }
    if MatchFrom("%" + p, s) {
      LeadingPercentFrom(p, s);
    }
  }

  /** `%` alone matches every text. */
  lemma PercentMatchesAll(s: string)
    ensures Matches("%", s)
  {
    assert MatchFrom("%"[1..], s);
  }

  /** `a%b` matches a prefix of `s` when `s` starts with `a` and `b`
      follows later on the same line. */
  lemma {:induction false} PercentSpansGap(a: string, b: string, gap: string, s: string)
    requires '%' !in a && '%' !in b
    requires forall k :: 0 <= k < |gap| ==> !IsLineTerminator(gap[k])
    ensures MatchFrom(a + "%" + b, a + gap + b + s)
    decreases |a| + |gap|
  {
    if a != [] {
      assert (a + "%" + b)[0] == a[0] && (a + "%" + b)[1..] == a[1..] + "%" + b;
      assert (a + gap + b + s)[0] == a[0] && (a + gap + b + s)[1..] == a[1..] + gap + b + s;
      PercentSpansGap(a[1..], b, gap, s);
    } else {
      assert a + "%" + b == "%" + b;
      assert ("%" + b)[1..] == b;
      if gap == [] {
        MatchFromLiteral(b, b + s);
        assert (a + gap + b + s)[..|b|] == b;
      } else {
        assert (a + gap + b + s)[0] == gap[0] && (a + gap + b + s)[1..] == a + gap[1..] + b + s;
        PercentSpansGap(a, b, gap[1..], s);
      }
    }
  }
}
