/** JavaScript's global `escape` and `unescape`, through which the compact
    point-of-sale view stores item fields in HTML data attributes and reads
    them back. A JavaScript string is a sequence of UTF-16 code units;
    `Utf16` gives the code units of a string. */
module Escaping {

  predicate IsUnit(x: int) { 0 <= x < 0x1_0000 }

  predicate Units(u: seq<int>) {
    forall k :: 0 <= k < |u| ==> IsUnit(u[k])
  }

  /** The UTF-16 code units of one character: itself below U+10000, a
      surrogate pair above. */
  function Utf16Char(c: char): (r: seq<int>)
    ensures Units(r) && 1 <= |r| <= 2
    ensures |r| == 1 <==> (c as int) < 0x1_0000
    ensures |r| == 1 ==> !(0xD800 <= r[0] < 0xE000)
    ensures |r| == 2 ==> 0xD800 <= r[0] < 0xDC00 && 0xDC00 <= r[1] < 0xE000
  {
    var v := c as int;
    if v < 0x1_0000 then [v]
    else [0xD800 + (v - 0x1_0000) / 0x400, 0xDC00 + (v - 0x1_0000) % 0x400]
  }

  function Utf16(s: string): (r: seq<int>)
    ensures Units(r) && |s| <= |r|
  {
    if s == [] then [] else Utf16Char(s[0]) + Utf16(s[1..])
  }

  /** The code units `escape` leaves alone: ASCII letters and digits and
      `@*_+-./`. */
  predicate Safe(x: int) {
    || 'A' as int <= x <= 'Z' as int
    || 'a' as int <= x <= 'z' as int
    || '0' as int <= x <= '9' as int
    || x == '@' as int || x == '*' as int || x == '_' as int || x == '+' as int
    || x == '-' as int || x == '.' as int || x == '/' as int
  }

  /** An upper-case hexadecimal digit. */
  function HexDigit(n: int): (c: char)
    requires 0 <= n < 16
    ensures c != 'u' && c != '%'
  {
    if n < 10 then (48 + n) as char else (55 + n) as char
  }

  predicate IsHex(c: char) {
    ('0' <= c <= '9') || ('A' <= c <= 'F') || ('a' <= c <= 'f')
  }

  function HexVal(c: char): (n: int)
    requires IsHex(c)
    ensures 0 <= n < 16
  {
    if '0' <= c <= '9' then c as int - 48
    else if 'A' <= c <= 'F' then c as int - 55
    else c as int - 87
  }

  lemma HexRoundTrip(n: int)
    requires 0 <= n < 16
    ensures IsHex(HexDigit(n)) && HexVal(HexDigit(n)) == n
  {
  }

  /** `escape` of one code unit: itself, `%XX`, or `%uXXXX`. */
  function EscapeUnit(x: int): (r: string)
    requires IsUnit(x)
    ensures |r| == 1 <==> Safe(x)
  {
    if Safe(x) then [x as char]
    else if x < 256 then ['%', HexDigit(x / 16), HexDigit(x % 16)]
    else ['%', 'u', HexDigit(x / 4096), HexDigit(x / 256 % 16), HexDigit(x / 16 % 16), HexDigit(x % 16)]
  }

  function EscapeUnits(u: seq<int>): string
    requires Units(u)
  {
    if u == [] then [] else EscapeUnit(u[0]) + EscapeUnits(u[1..])
  }

  /** `escape(s)`. */
  function Escape(s: string): string {
    EscapeUnits(Utf16(s))
  }

  /** `unescape(s)`: every `%uXXXX` and `%XX` with hexadecimal digits of
      either case becomes the code unit it names; anything else stands for
      itself. */
  function Unescape(s: string): (r: seq<int>)
    ensures Units(r)
    decreases |s|
  {
    if s == [] then []
    else if s[0] == '%' && |s| >= 6 && s[1] == 'u' && IsHex(s[2]) && IsHex(s[3]) && IsHex(s[4]) && IsHex(s[5]) then
      [HexVal(s[2]) * 4096 + HexVal(s[3]) * 256 + HexVal(s[4]) * 16 + HexVal(s[5])] + Unescape(s[6..])
    else if s[0] == '%' && |s| >= 3 && IsHex(s[1]) && IsHex(s[2]) then
      [HexVal(s[1]) * 16 + HexVal(s[2])] + Unescape(s[3..])
    else
      Utf16Char(s[0]) + Unescape(s[1..])
  }

  /** A code unit is its four hexadecimal digits. */
  lemma FourDigits(x: int)
    requires IsUnit(x)
    ensures x / 4096 * 4096 + x / 256 % 16 * 256 + x / 16 % 16 * 16 + x % 16 == x
  {
    var a, b, c, d := x / 4096, x / 256 % 16, x / 16 % 16, x % 16;
    assert x / 256 == a * 16 + b;
    assert x / 16 == (x / 256) * 16 + c;
    assert x == (x / 16) * 16 + d;
  }

  lemma UnescapeSafe(x: int, rest: string)
    requires IsUnit(x) && Safe(x)
    ensures Unescape(EscapeUnit(x) + rest) == [x] + Unescape(rest)
  {
    var s := [x as char] + rest;
    assert EscapeUnit(x) == [x as char];
    assert s[0] == x as char && s[0] != '%' && s[1..] == rest;
    assert Utf16Char(s[0]) == [x];
  }

  lemma UnescapeByte(x: int, rest: string)
    requires IsUnit(x) && !Safe(x) && x < 256
    ensures Unescape(EscapeUnit(x) + rest) == [x] + Unescape(rest)
  {
    var hi, lo := HexDigit(x / 16), HexDigit(x % 16);
    HexRoundTrip(x / 16);
    HexRoundTrip(x % 16);
    var s := ['%', hi, lo] + rest;
    assert EscapeUnit(x) == ['%', hi, lo];
    assert s[0] == '%' && s[1] == hi && s[2] == lo && s[3..] == rest;
    assert HexVal(s[1]) * 16 + HexVal(s[2]) == x;
  }

  lemma UnescapeWide(x: int, rest: string)
    requires IsUnit(x) && !Safe(x) && x >= 256
    ensures Unescape(EscapeUnit(x) + rest) == [x] + Unescape(rest)
  {
    var d3, d2, d1, d0 := HexDigit(x / 4096), HexDigit(x / 256 % 16), HexDigit(x / 16 % 16), HexDigit(x % 16);
    HexRoundTrip(x / 4096);
    HexRoundTrip(x / 256 % 16);
    HexRoundTrip(x / 16 % 16);
    HexRoundTrip(x % 16);
    FourDigits(x);
    var s := ['%', 'u', d3, d2, d1, d0] + rest;
    assert EscapeUnit(x) == ['%', 'u', d3, d2, d1, d0];
    assert s[0] == '%' && s[1] == 'u' && s[2] == d3 && s[3] == d2 && s[4] == d1 && s[5] == d0;
    assert s[6..] == rest;
    assert HexVal(s[2]) * 4096 + HexVal(s[3]) * 256 + HexVal(s[4]) * 16 + HexVal(s[5]) == x;
  }

  lemma UnescapeUnit(x: int, rest: string)
    requires IsUnit(x)
    ensures Unescape(EscapeUnit(x) + rest) == [x] + Unescape(rest)
  {
    if Safe(x) {
      UnescapeSafe(x, rest);
    } else if x < 256 {
      UnescapeByte(x, rest);
    } else {
      UnescapeWide(x, rest);
    }
  }

  lemma {:induction false} UnescapeEscapeUnits(u: seq<int>)
    requires Units(u)
    ensures Unescape(EscapeUnits(u)) == u
  {
    if u != [] {
      UnescapeEscapeUnits(u[1..]);
      UnescapeUnit(u[0], EscapeUnits(u[1..]));
    }
  }

  /** Round trip: `unescape(escape(s))` is `s` again. */
  lemma UnescapeEscape(s: string)
    ensures Unescape(Escape(s)) == Utf16(s)
  {
    UnescapeEscapeUnits(Utf16(s));
  }

  lemma {:induction false} Utf16Append(a: string, b: string)
    ensures Utf16(a + b) == Utf16(a) + Utf16(b)
  {
    if a == [] {
      assert a + b == b;
    } else {
      assert (a + b)[0] == a[0] && (a + b)[1..] == a[1..] + b;
      Utf16Append(a[1..], b);
    }
  }

  /** Below U+10000 every character is one code unit: `length` counts
      characters. */
  lemma {:induction false} Utf16OfBmp(s: string)
    requires forall k :: 0 <= k < |s| ==> (s[k] as int) < 0x1_0000
    ensures |Utf16(s)| == |s|
    ensures forall k :: 0 <= k < |s| ==> Utf16(s)[k] == s[k] as int
  {
    if s != [] {
      Utf16OfBmp(s[1..]);
      assert Utf16(s) == [s[0] as int] + Utf16(s[1..]);
    }
  }

  /** Different strings have different code units. */
  lemma {:induction false} Utf16Injective(a: string, b: string)
    requires Utf16(a) == Utf16(b)
    ensures a == b
  {
    if a != [] && b != [] {
      var ua, ub := Utf16Char(a[0]), Utf16Char(b[0]);
      assert Utf16(a) == ua + Utf16(a[1..]);
      assert Utf16(b) == ub + Utf16(b[1..]);
      assert Utf16(a)[0] == ua[0] && Utf16(b)[0] == ub[0];
      assert |ua| == |ub|;
      assert Utf16(a)[..|ua|] == ua && Utf16(b)[..|ub|] == ub;
      assert ua == ub;
      assert a[0] == b[0];
      assert Utf16(a)[|ua|..] == Utf16(a[1..]);
      assert Utf16(b)[|ub|..] == Utf16(b[1..]);
      Utf16Injective(a[1..], b[1..]);
      assert a == [a[0]] + a[1..] && b == [b[0]] + b[1..];
    }
  }

  // ---------------------------------------------------------------------
  // The relational operators on strings compare code unit by code unit,
  // a proper prefix sorting first.

  predicate UnitsLe(a: seq<int>, b: seq<int>)
    decreases |a|
  {
    a == [] || (b != [] && (a[0] < b[0] || (a[0] == b[0] && UnitsLe(a[1..], b[1..]))))
  }

  lemma {:induction false} UnitsLeTotal(a: seq<int>, b: seq<int>)
    ensures UnitsLe(a, b) || UnitsLe(b, a)
    decreases |a|
  {
    if a != [] && b != [] && a[0] == b[0] {
      UnitsLeTotal(a[1..], b[1..]);
    }
  }

  lemma {:induction false} UnitsLeTransitive(a: seq<int>, b: seq<int>, c: seq<int>)
    requires UnitsLe(a, b) && UnitsLe(b, c)
    ensures UnitsLe(a, c)
    decreases |a|
  {
    if a != [] && a[0] == b[0] && b[0] == c[0] {
      UnitsLeTransitive(a[1..], b[1..], c[1..]);
    }
  }

  lemma {:induction false} UnitsLeAntisymmetric(a: seq<int>, b: seq<int>)
    requires UnitsLe(a, b) && UnitsLe(b, a)
    ensures a == b
    decreases |a|
  {
    if a != [] && b != [] {
      UnitsLeAntisymmetric(a[1..], b[1..]);
      assert a == [a[0]] + a[1..] && b == [b[0]] + b[1..];
    }
  }

  /** `a <= b` on JavaScript strings: the order of their code units. */
  predicate StringLe(a: string, b: string) {
    UnitsLe(Utf16(a), Utf16(b))
  }

  lemma StringLeTotal(a: string, b: string)
    ensures StringLe(a, b) || StringLe(b, a)
  {
    UnitsLeTotal(Utf16(a), Utf16(b));
  }

  lemma StringLeTransitive(a: string, b: string, c: string)
    requires StringLe(a, b) && StringLe(b, c)
    ensures StringLe(a, c)
  {
    UnitsLeTransitive(Utf16(a), Utf16(b), Utf16(c));
  }

  lemma StringLeAntisymmetric(a: string, b: string)
    requires StringLe(a, b) && StringLe(b, a)
    ensures a == b
  {
    UnitsLeAntisymmetric(Utf16(a), Utf16(b));
    Utf16Injective(a, b);
  }

  /** A character above U+FFFF sorts before U+FFFF: its lead surrogate is a
      smaller code unit, although its code point is larger. */
  lemma SurrogatesSortLow()
    ensures StringLe([0x1_0000 as char], [0xFFFF as char])
    ensures !StringLe([0xFFFF as char], [0x1_0000 as char])
  {
    assert Utf16([0x1_0000 as char]) == [0xD800, 0xDC00];
    assert Utf16([0xFFFF as char]) == [0xFFFF];
  }

  /** Different item codes give different data attributes. */
  lemma EscapeInjective(a: string, b: string)
    requires Escape(a) == Escape(b)
    ensures a == b
  {
    UnescapeEscape(a);
    UnescapeEscape(b);
    Utf16Injective(a, b);
  }

  /** A string of safe characters is its own escape. */
  lemma {:induction false} EscapeOfSafe(s: string)
    requires forall k :: 0 <= k < |s| ==> Safe(s[k] as int)
    ensures Escape(s) == s
  {
    if s != [] {
      EscapeOfSafe(s[1..]);
      assert Utf16(s) == [s[0] as int] + Utf16(s[1..]);
      assert Utf16(s)[1..] == Utf16(s[1..]);
      assert s == [s[0]] + s[1..];
    }
  }

  /** A space is not safe: `escape("A B")` is `"A%20B"`. */
  lemma EscapeOfSpace()
    ensures Escape("A B") == "A%20B"
  {
    var s := "A B";
    assert Utf16(s[2..]) == [66] by {
      assert s[2..] == "B" && "B"[1..] == [];
    }
    assert Utf16(s[1..]) == [32, 66] by {
      assert s[1..][1..] == s[2..];
    }
    assert Utf16(s) == [65, 32, 66];
    var u := [65, 32, 66];
    assert u[1..] == [32, 66] && u[1..][1..] == [66] && u[1..][1..][1..] == [];
    assert EscapeUnit(32) == "%20";
  }
}
