/** `Array.prototype.sort` with a comparator. The language guarantees a
    stable sort, so the result is determined by the comparator: it is the
    unique ordering that is sorted, is a permutation of the input and keeps
    every group of equivalent elements in input order. The model writes the
    comparator as `le(a, b)`, meaning "the comparator returns a value <= 0
    for (a, b)", and computes that ordering by stable insertion. */
module StableSort {

  /** A comparator the sort can rely on: total and transitive. */
  ghost predicate TotalPreorder<T(!new)>(le: (T, T) -> bool) {
    && (forall a, b :: le(a, b) || le(b, a))
    && (forall a, b, c :: le(a, b) && le(b, c) ==> le(a, c))
  }

  predicate SortedBy<T>(s: seq<T>, le: (T, T) -> bool) {
    forall i, j :: 0 <= i < j < |s| ==> le(s[i], s[j])
  }

  /** The elements of `s` the comparator ranks equal to `y`, in order. */
  function Peers<T>(s: seq<T>, y: T, le: (T, T) -> bool): (r: seq<T>)
    ensures |r| <= |s|
  {
    if s == [] then []
    else (if le(s[0], y) && le(y, s[0]) then [s[0]] else []) + Peers(s[1..], y, le)
  }

  /** Each peer is an element of `s` ranked equal to `y`. */
  lemma {:induction false} PeersMembers<T>(s: seq<T>, y: T, le: (T, T) -> bool)
    ensures forall k :: 0 <= k < |Peers(s, y, le)| ==>
      Peers(s, y, le)[k] in s && le(Peers(s, y, le)[k], y) && le(y, Peers(s, y, le)[k])
  {
    if s != [] {
      PeersMembers(s[1..], y, le);
      var h := if le(s[0], y) && le(y, s[0]) then [s[0]] else [];
      var p := Peers(s[1..], y, le);
      assert Peers(s, y, le) == h + p;
      forall k | 0 <= k < |h + p|
        ensures (h + p)[k] in s && le((h + p)[k], y) && le(y, (h + p)[k])
      {
        if k >= |h| {
          assert (h + p)[k] == p[k - |h|];
          assert p[k - |h|] in s[1..];
        }
      }
    }
  }

  /** Every equivalence class of the comparator appears in `t` in the same
      order as in `s`. */
  ghost predicate KeepsTies<T(!new)>(s: seq<T>, t: seq<T>, le: (T, T) -> bool) {
    forall y :: Peers(t, y, le) == Peers(s, y, le)
  }

  /** `x` placed in front of the first element it does not rank after. */
  function Insert<T>(x: T, s: seq<T>, le: (T, T) -> bool): (r: seq<T>)
    ensures |r| == |s| + 1
    ensures multiset(r) == multiset(s) + multiset{x}
  {
    if s == [] || le(x, s[0]) then [x] + s
    else
      assert s == [s[0]] + s[1..];
      [s[0]] + Insert(x, s[1..], le)
  }

  function SortBy<T>(s: seq<T>, le: (T, T) -> bool): (r: seq<T>)
    ensures |r| == |s|
    ensures multiset(r) == multiset(s)
  {
    if s == [] then []
    else
      assert s == [s[0]] + s[1..];
      Insert(s[0], SortBy(s[1..], le), le)
  }

  lemma {:induction false} InsertSorted<T(!new)>(x: T, s: seq<T>, le: (T, T) -> bool)
    requires TotalPreorder(le) && SortedBy(s, le)
    ensures SortedBy(Insert(x, s, le), le)
    decreases |s|
  {
    if s != [] && !le(x, s[0]) {
      InsertSorted(x, s[1..], le);
      var r := Insert(x, s[1..], le);
      assert multiset(r) == multiset(s[1..]) + multiset{x};
      forall k | 0 <= k < |r| ensures le(s[0], r[k]) {
        assert r[k] in multiset(r);
        if r[k] != x {
          assert r[k] in multiset(s[1..]);
          var m :| 0 <= m < |s[1..]| && s[1..][m] == r[k];
          assert s[m + 1] == r[k];
        }
      }
    }
  }

  /** The sort puts its result in comparator order. */
  lemma {:induction false} SortBySorted<T(!new)>(s: seq<T>, le: (T, T) -> bool)
    requires TotalPreorder(le)
    ensures SortedBy(SortBy(s, le), le)
  {
    if s != [] {
      SortBySorted(s[1..], le);
      InsertSorted(s[0], SortBy(s[1..], le), le);
    }
  }

  /** An element ranked after `z` and `z` itself are never both peers of `y`. */
  lemma NotBothPeers<T(!new)>(x: T, z: T, y: T, le: (T, T) -> bool)
    requires TotalPreorder(le) && !le(x, z)
    ensures !(le(x, y) && le(y, z))
  {
  }

  lemma {:induction false} InsertPeers<T(!new)>(x: T, s: seq<T>, y: T, le: (T, T) -> bool)
    requires TotalPreorder(le)
    ensures Peers(Insert(x, s, le), y, le) == Peers([x] + s, y, le)
    decreases |s|
  {
    if s != [] && !le(x, s[0]) {
      InsertPeers(x, s[1..], y, le);
      var hx := if le(x, y) && le(y, x) then [x] else [];
      var h0 := if le(s[0], y) && le(y, s[0]) then [s[0]] else [];
      var rest := Peers(s[1..], y, le);
      assert ([x] + s[1..])[0] == x && ([x] + s[1..])[1..] == s[1..];
      assert ([x] + s)[0] == x && ([x] + s)[1..] == s;
      assert Insert(x, s, le) == [s[0]] + Insert(x, s[1..], le);
      assert ([s[0]] + Insert(x, s[1..], le))[1..] == Insert(x, s[1..], le);
      assert Peers(Insert(x, s, le), y, le) == h0 + (hx + rest);
      assert Peers([x] + s, y, le) == hx + (h0 + rest);
      // x and s[0] cannot both be peers of y, so their order is irrelevant
      NotBothPeers(x, s[0], y, le);
    }
  }

  /** The sort is stable. */
  lemma {:induction false} SortByKeepsTies<T(!new)>(s: seq<T>, le: (T, T) -> bool)
    requires TotalPreorder(le)
    ensures KeepsTies(s, SortBy(s, le), le)
  {
    if s != [] {
      SortByKeepsTies(s[1..], le);
      forall y ensures Peers(SortBy(s, le), y, le) == Peers(s, y, le) {
        InsertPeers(s[0], SortBy(s[1..], le), y, le);
        assert s == [s[0]] + s[1..];
      }
    }
  }

  lemma {:induction false} PeersOfSingleton<T>(s: seq<T>, y: T, le: (T, T) -> bool)
    requires s != [] && le(s[0], y) && le(y, s[0])
    ensures Peers(s, y, le) == [s[0]] + Peers(s[1..], y, le)
  {
  }

  /** The first elements of two sorted permutations of each other are
      ranked equal. */
  lemma HeadsArePeers<T(!new)>(t: seq<T>, u: seq<T>, le: (T, T) -> bool)
    requires TotalPreorder(le)
    requires SortedBy(t, le) && SortedBy(u, le)
    requires t != [] && multiset(t) == multiset(u)
    ensures u != [] && le(t[0], u[0]) && le(u[0], t[0])
  {
    assert t[0] in multiset(u);
    assert u != [];
    assert u[0] in multiset(t);
    var m :| 0 <= m < |u| && u[m] == t[0];
    if m > 0 { assert le(u[0], u[m]); }
    var n :| 0 <= n < |t| && t[n] == u[0];
    if n > 0 { assert le(t[0], t[n]); }
  }

  /** Dropping two equal heads keeps the tie groups equal. */
  lemma TailPeers<T(!new)>(t: seq<T>, u: seq<T>, le: (T, T) -> bool)
    requires t != [] && u != [] && t[0] == u[0]
    requires forall y :: Peers(t, y, le) == Peers(u, y, le)
    ensures forall y :: Peers(t[1..], y, le) == Peers(u[1..], y, le)
  {
    forall z ensures Peers(t[1..], z, le) == Peers(u[1..], z, le) {
      var h := if le(t[0], z) && le(z, t[0]) then [t[0]] else [];
      var a, b := Peers(t[1..], z, le), Peers(u[1..], z, le);
      assert Peers(t, z, le) == h + a;
      assert Peers(u, z, le) == h + b;
      assert a == (h + a)[|h|..] && b == (h + b)[|h|..];
    }
  }

  lemma SortedTail<T>(t: seq<T>, le: (T, T) -> bool)
    requires t != [] && SortedBy(t, le)
    ensures SortedBy(t[1..], le)
  {
  }

  lemma TailMultiset<T>(t: seq<T>, u: seq<T>)
    requires t != [] && u != [] && t[0] == u[0] && multiset(t) == multiset(u)
    ensures multiset(t[1..]) == multiset(u[1..])
  {
    assert t == [t[0]] + t[1..] && u == [u[0]] + u[1..];
    assert multiset(t[1..]) == multiset(t) - multiset{t[0]};
    assert multiset(u[1..]) == multiset(u) - multiset{u[0]};
  }

  /** Two sequences sorted by the same comparator, permutations of each
      other, with the same order inside every tie group, are equal. */
  lemma {:induction false} StableSortUnique<T(!new)>(t: seq<T>, u: seq<T>, le: (T, T) -> bool)
    requires TotalPreorder(le)
    requires SortedBy(t, le) && SortedBy(u, le)
    requires multiset(t) == multiset(u)
    requires forall y :: Peers(t, y, le) == Peers(u, y, le)
    ensures t == u
    decreases |t|
  {
    if t == [] {
      assert |u| == |multiset(u)| == 0;
    } else {
      HeadsArePeers(t, u, le);
      var y := t[0];
      PeersOfSingleton(t, y, le);
      PeersOfSingleton(u, y, le);
      assert t[0] == Peers(t, y, le)[0] == Peers(u, y, le)[0] == u[0];
      TailPeers(t, u, le);
      SortedTail(t, le);
      SortedTail(u, le);
      TailMultiset(t, u);
      StableSortUnique(t[1..], u[1..], le);
    }
  }

  /** Any stable sort of `s` agrees with SortBy(s). */
  lemma SortByIsTheStableSort<T(!new)>(s: seq<T>, t: seq<T>, le: (T, T) -> bool)
    requires TotalPreorder(le)
    requires SortedBy(t, le) && multiset(t) == multiset(s) && KeepsTies(s, t, le)
    ensures t == SortBy(s, le)
  {
    SortBySorted(s, le);
    SortByKeepsTies(s, le);
    StableSortUnique(t, SortBy(s, le), le);
  }

  // ---------------------------------------------------------------------
  // Reversing the comparator

  function Reverse<T>(s: seq<T>): (r: seq<T>)
    ensures |r| == |s|
    ensures forall k :: 0 <= k < |s| ==> r[k] == s[|s| - 1 - k]
  {
    if s == [] then [] else Reverse(s[1..]) + [s[0]]
  }

  lemma {:induction false} ReverseMultiset<T>(s: seq<T>)
    ensures multiset(Reverse(s)) == multiset(s)
  {
    if s != [] {
      ReverseMultiset(s[1..]);
      assert s == [s[0]] + s[1..];
    }
  }

  lemma {:induction false} PeersAppend<T>(a: seq<T>, b: seq<T>, y: T, le: (T, T) -> bool)
    ensures Peers(a + b, y, le) == Peers(a, y, le) + Peers(b, y, le)
  {
    if a == [] {
      assert a + b == b;
    } else {
      assert (a + b)[0] == a[0] && (a + b)[1..] == a[1..] + b;
      PeersAppend(a[1..], b, y, le);
    }
  }

  lemma {:induction false} PeersReverse<T>(s: seq<T>, y: T, le: (T, T) -> bool)
    ensures Peers(Reverse(s), y, le) == Reverse(Peers(s, y, le))
  {
    if s != [] {
      var h := if le(s[0], y) && le(y, s[0]) then [s[0]] else [];
      var p := Peers(s[1..], y, le);
      PeersReverse(s[1..], y, le);
      PeersAppend(Reverse(s[1..]), [s[0]], y, le);
      assert [s[0]][1..] == [];
      assert Peers([s[0]], y, le) == h;
      assert Peers(s, y, le) == h + p;
      if h != [] {
        assert (h + p)[0] == s[0] && (h + p)[1..] == p;
      } else {
        assert h + p == p;
      }
      assert Reverse(h + p) == Reverse(p) + h;
    }
  }

  /** Flipping the comparator does not change which elements tie. */
  lemma {:induction false} PeersFlip<T>(s: seq<T>, y: T, le: (T, T) -> bool, ge: (T, T) -> bool)
    requires forall a, b :: ge(a, b) == le(b, a)
    ensures Peers(s, y, ge) == Peers(s, y, le)
  {
    if s != [] {
      PeersFlip(s[1..], y, le, ge);
    }
  }

  lemma ReverseConstant<T>(s: seq<T>)
    requires forall i, j :: 0 <= i < |s| && 0 <= j < |s| ==> s[i] == s[j]
    ensures Reverse(s) == s
  {
  }

  lemma FlipTotalPreorder<T(!new)>(le: (T, T) -> bool, ge: (T, T) -> bool)
    requires TotalPreorder(le)
    requires forall a, b :: ge(a, b) == le(b, a)
    ensures TotalPreorder(ge)
  {
  }

  lemma ReverseSorted<T>(t: seq<T>, le: (T, T) -> bool, ge: (T, T) -> bool)
    requires SortedBy(t, le)
    requires forall a, b :: ge(a, b) == le(b, a)
    ensures SortedBy(Reverse(t), ge)
  {
    var r := Reverse(t);
    forall i, j | 0 <= i < j < |r| ensures ge(r[i], r[j]) {
      assert le(t[|t| - 1 - j], t[|t| - 1 - i]);
    }
  }

  /** When only equal elements tie, a tie group is one value repeated, so
      reversing it changes nothing. */
  lemma PeersUnchangedByReverse<T(!new)>(s: seq<T>, y: T, le: (T, T) -> bool)
    requires TotalPreorder(le)
    requires forall i, j :: 0 <= i < |s| && 0 <= j < |s| && le(s[i], s[j]) && le(s[j], s[i]) ==> s[i] == s[j]
    ensures Reverse(Peers(s, y, le)) == Peers(s, y, le)
  {
    var p := Peers(s, y, le);
    PeersMembers(s, y, le);
    forall i, j | 0 <= i < |p| && 0 <= j < |p| ensures p[i] == p[j] {
      assert p[i] in s && p[j] in s;
      var m :| 0 <= m < |s| && s[m] == p[i];
      var n :| 0 <= n < |s| && s[n] == p[j];
      assert le(p[i], y) && le(y, p[j]) && le(p[j], y) && le(y, p[i]);
      assert le(s[m], s[n]) && le(s[n], s[m]);
    }
    ReverseConstant(p);
  }

  /** Sorting with the flipped comparator (`desc` for `asc`) gives the
      reverse of the ascending result when no two different elements tie. */
  lemma SortByFlip<T(!new)>(s: seq<T>, le: (T, T) -> bool, ge: (T, T) -> bool)
    requires TotalPreorder(le)
    requires forall a, b :: ge(a, b) == le(b, a)
    requires forall i, j :: 0 <= i < |s| && 0 <= j < |s| && le(s[i], s[j]) && le(s[j], s[i]) ==> s[i] == s[j]
    ensures SortBy(s, ge) == Reverse(SortBy(s, le))
  {
    var asc := SortBy(s, le);
    var t := Reverse(asc);
    SortBySorted(s, le);
    SortByKeepsTies(s, le);
    ReverseMultiset(asc);
    ReverseSorted(asc, le, ge);
    FlipTotalPreorder(le, ge);
    forall y ensures Peers(t, y, ge) == Peers(s, y, ge) {
      PeersFlip(t, y, le, ge);
      PeersFlip(s, y, le, ge);
      PeersReverse(asc, y, le);
      PeersUnchangedByReverse(s, y, le);
    }
    SortByIsTheStableSort(s, t, ge);
  }

  // ---------------------------------------------------------------------
  // Array.prototype.filter

  /** The elements of `s` that satisfy `p`, in order. */
  function Keep<T>(s: seq<T>, p: T -> bool): (r: seq<T>)
    ensures |r| <= |s|
    ensures multiset(r) <= multiset(s)
    ensures forall k :: 0 <= k < |r| ==> p(r[k])
    ensures forall k :: 0 <= k < |s| && p(s[k]) ==> s[k] in r
  {
    if s == [] then []
    else
      assert s == [s[0]] + s[1..];
      (if p(s[0]) then [s[0]] else []) + Keep(s[1..], p)
  }

  /** No element occurs twice. */
  predicate Distinct<T(==)>(s: seq<T>) {
    forall i, j :: 0 <= i < j < |s| ==> s[i] != s[j]
  }

  /** Extending the input by one element extends the kept part by that
      element when it passes. */
  lemma KeepSnoc<T>(s: seq<T>, i: nat, p: T -> bool)
    requires i < |s|
    ensures Keep(s[..i + 1], p) == Keep(s[..i], p) + (if p(s[i]) then [s[i]] else [])
  {
    assert s[..i + 1] == s[..i] + [s[i]];
    KeepAppend(s[..i], [s[i]], p);
    assert Keep([s[i]], p) == (if p(s[i]) then [s[i]] else []) + Keep([s[i]][1..], p);
    assert [s[i]][1..] == [];
  }

  lemma {:induction false} KeepAppend<T>(a: seq<T>, b: seq<T>, p: T -> bool)
    ensures Keep(a + b, p) == Keep(a, p) + Keep(b, p)
  {
    if a != [] {
      var h := if p(a[0]) then [a[0]] else [];
      assert (a + b)[0] == a[0] && (a + b)[1..] == a[1..] + b;
      assert Keep(a + b, p) == h + Keep(a[1..] + b, p);
      KeepAppend(a[1..], b, p);
      assert Keep(a, p) == h + Keep(a[1..], p);
    } else {
      assert a + b == b;
    }
  }

  /** What holds of every element holds of every kept element. */
  lemma {:induction false} KeepPreserves<T>(s: seq<T>, p: T -> bool, q: T -> bool)
    requires forall k :: 0 <= k < |s| ==> q(s[k])
    ensures forall k :: 0 <= k < |Keep(s, p)| ==> q(Keep(s, p)[k])
  {
    if s != [] {
      assert forall k :: 1 <= k < |s| ==> s[1..][k - 1] == s[k];
      KeepPreserves(s[1..], p, q);
    }
  }

  /** Filtering keeps everything exactly when every element passes. */
  lemma {:induction false} KeepAll<T>(s: seq<T>, p: T -> bool)
    requires forall k :: 0 <= k < |s| ==> p(s[k])
    ensures Keep(s, p) == s
  {
    if s != [] {
      KeepAll(s[1..], p);
    }
  }

  /** The number of elements of `s` that satisfy `p`. */
  function Count<T>(s: seq<T>, p: T -> bool): (n: nat)
    ensures n <= |s|
  {
    if s == [] then 0 else (if p(s[0]) then 1 else 0) + Count(s[1..], p)
  }

  lemma {:induction false} KeepLength<T>(s: seq<T>, p: T -> bool)
    ensures |Keep(s, p)| == Count(s, p)
  {
    if s != [] {
      KeepLength(s[1..], p);
    }
  }

  /** Every element either passes the filter or fails it. */
  lemma {:induction false} CountSplit<T>(s: seq<T>, p: T -> bool, q: T -> bool)
    requires forall x :: q(x) == !p(x)
    ensures Count(s, p) + Count(s, q) == |s|
  {
    if s != [] {
      CountSplit(s[1..], p, q);
    }
  }

  lemma {:induction false} CountAppend<T>(a: seq<T>, b: seq<T>, p: T -> bool)
    ensures Count(a + b, p) == Count(a, p) + Count(b, p)
  {
    if a != [] {
      assert (a + b)[0] == a[0] && (a + b)[1..] == a[1..] + b;
      assert Count(a + b, p) == (if p(a[0]) then 1 else 0) + Count(a[1..] + b, p);
      CountAppend(a[1..], b, p);
    } else {
      assert a + b == b;
    }
  }
}
