/**
 * The page's client-side ordering of listings (src/app/page.tsx). The page
 * spreads the listings into a fresh array and sorts that copy in place with
 * `Array.prototype.sort` and one comparator per sort option. ECMA-262
 * requires that sort to be stable, so equal keys keep their input order.
 *
 * The specification is `SortedBy`, a stable insertion sort on an ascending
 * key; `SortInPlace` is the array algorithm proved equal to it, and the
 * lemmas prove that `SortedBy` orders, permutes, keeps ties in input order,
 * and is the only sequence that does all of that.
 */
module SortEngine {
  import opened Listing

  /** The comparator the page hands to `sort` for each option: a negative
      value puts `a` first, zero keeps the two in input order. */
  function Compare(option: SortOption, a: Property, b: Property): (c: int)
    ensures c < 0 <==> Key(option, a) < Key(option, b)
    ensures c == 0 <==> Key(option, a) == Key(option, b)
    ensures c > 0 <==> Key(option, a) > Key(option, b)
  {
    match option
    case Newest => b.createdAt - a.createdAt
    case Oldest => a.createdAt - b.createdAt
    case PriceDesc => b.price - a.price
    case PriceAsc => a.price - b.price
    case SquareFeet => b.squareFeet - a.squareFeet
  }

  /** The ascending key each comparator orders by; the descending options
      negate their field. */
  function Key(option: SortOption, p: Property): int
  {
    match option
    case Newest => -p.createdAt
    case Oldest => p.createdAt
    case PriceDesc => -p.price
    case PriceAsc => p.price
    case SquareFeet => -p.squareFeet
  }

  /** Keys never decrease along `s`. */
  ghost predicate Ordered(s: seq<Property>, option: SortOption)
  {
    forall i, j :: 0 <= i < j < |s| ==> Key(option, s[i]) <= Key(option, s[j])
  }

  /** The listings of `s` whose key is `k`, in their order in `s`. */
  function WithKey(s: seq<Property>, option: SortOption, k: int): seq<Property>
  {
    if s == [] then []
    else WithKey(s[..|s| - 1], option, k)
         + (if Key(option, s[|s| - 1]) == k then [s[|s| - 1]] else [])
  }

  /** Inserts `x` after every element of `t` whose key is at most its own,
      scanning from the back as the array sort shifts elements. */
  function Insert(t: seq<Property>, x: Property, option: SortOption): seq<Property>
  {
    if t == [] || Key(option, t[|t| - 1]) <= Key(option, x) then t + [x]
    else Insert(t[..|t| - 1], x, option) + [t[|t| - 1]]
  }

  /** The stable sort of `s` by `option`: the list the page displays. */
  function SortedBy(s: seq<Property>, option: SortOption): seq<Property>
  {
    if s == [] then []
    else Insert(SortedBy(s[..|s| - 1], option), s[|s| - 1], option)
  }

  // ---------------------------------------------------------------------
  // Properties of Insert

  lemma {:induction false} InsertPermutes(t: seq<Property>, x: Property, option: SortOption)
    ensures multiset(Insert(t, x, option)) == multiset(t) + multiset{x}
  {
    if t == [] || Key(option, t[|t| - 1]) <= Key(option, x) {
    } else {
      var init, last := t[..|t| - 1], t[|t| - 1];
      InsertPermutes(init, x, option);
      assert t == init + [last];
    }
  }

  /** Dropping the last element of an ordered list leaves an ordered list
      whose keys are all at most the dropped one's. */
  lemma OrderedInit(t: seq<Property>, option: SortOption)
    requires Ordered(t, option) && t != []
    ensures Ordered(t[..|t| - 1], option)
    ensures forall i :: 0 <= i < |t| - 1 ==> Key(option, t[i]) <= Key(option, t[|t| - 1])
  {
  }

  lemma OrderedSnoc(u: seq<Property>, y: Property, option: SortOption)
    requires Ordered(u, option)
    requires forall i :: 0 <= i < |u| ==> Key(option, u[i]) <= Key(option, y)
    ensures Ordered(u + [y], option)
  {
    var v := u + [y];
    forall i, j | 0 <= i < j < |v|
      ensures Key(option, v[i]) <= Key(option, v[j])
    {
      assert v[i] == u[i];
    }
  }

  /** A permutation of `init` plus `x` stays below a bound that all of
      `init` and `x` stay below. */
  lemma KeysBelow(u: seq<Property>, init: seq<Property>, x: Property, bound: int, option: SortOption)
    requires multiset(u) == multiset(init) + multiset{x}
    requires forall i :: 0 <= i < |init| ==> Key(option, init[i]) <= bound
    requires Key(option, x) <= bound
    ensures forall i :: 0 <= i < |u| ==> Key(option, u[i]) <= bound
  {
    forall i | 0 <= i < |u|
      ensures Key(option, u[i]) <= bound
    {
      assert u[i] in multiset(u);
      if u[i] != x {
        assert u[i] in multiset(init);
        var m :| 0 <= m < |init| && init[m] == u[i];
      }
    }
  }

  lemma {:induction false} InsertOrdered(t: seq<Property>, x: Property, option: SortOption)
    requires Ordered(t, option)
    ensures Ordered(Insert(t, x, option), option)
  {
    if t == [] || Key(option, t[|t| - 1]) <= Key(option, x) {
      OrderedSnoc(t, x, option);
    } else {
      var init, last := t[..|t| - 1], t[|t| - 1];
      OrderedInit(t, option);
      InsertOrdered(init, x, option);
      InsertPermutes(init, x, option);
      var u := Insert(init, x, option);
      KeysBelow(u, init, x, Key(option, last), option);
      OrderedSnoc(u, last, option);
    }
  }

  lemma {:induction false} WithKeyAppend(a: seq<Property>, b: seq<Property>, option: SortOption, k: int)
    ensures WithKey(a + b, option, k) == WithKey(a, option, k) + WithKey(b, option, k)
  {
    if b == [] {
      assert a + b == a;
    } else {
      var init := b[..|b| - 1];
      assert (a + b)[..|a + b| - 1] == a + init;
      WithKeyAppend(a, init, option, k);
    }
  }

  lemma WithKeySnoc(s: seq<Property>, y: Property, option: SortOption, k: int)
    ensures WithKey(s + [y], option, k)
         == WithKey(s, option, k) + (if Key(option, y) == k then [y] else [])
  {
    assert (s + [y])[..|s + [y]| - 1] == s;
  }

  /** Moving `x` in front of a larger-keyed element does not change the
      per-key subsequences. */
  lemma PassLarger(u: seq<Property>, init: seq<Property>, x: Property, last: Property, option: SortOption, k: int)
    requires WithKey(u, option, k) == WithKey(init, option, k) + WithKey([x], option, k)
    requires Key(option, last) > Key(option, x)
    ensures WithKey(u + [last], option, k) == WithKey(init + [last], option, k) + WithKey([x], option, k)
  {
    WithKeySnoc(u, last, option, k);
    WithKeySnoc(init, last, option, k);
    WithKeySnoc([], x, option, k);
    assert [] + [x] == [x];
    var wi, wx := WithKey(init, option, k), WithKey([x], option, k);
    if Key(option, last) == k {
      assert wx == [];
      assert wi + wx + [last] == wi + [last] + wx;
    } else {
      assert wi + wx + [] == wi + [] + wx;
    }
  }

  lemma {:induction false} InsertStable(t: seq<Property>, x: Property, option: SortOption, k: int)
    ensures WithKey(Insert(t, x, option), option, k) == WithKey(t, option, k) + WithKey([x], option, k)
  {
    if t == [] || Key(option, t[|t| - 1]) <= Key(option, x) {
      calc {
        WithKey(Insert(t, x, option), option, k);
        WithKey(t + [x], option, k);
        { WithKeyAppend(t, [x], option, k); }
        WithKey(t, option, k) + WithKey([x], option, k);
      }
    } else {
      var init, last := t[..|t| - 1], t[|t| - 1];
      var u := Insert(init, x, option);
      calc {
        WithKey(Insert(t, x, option), option, k);
        WithKey(u + [last], option, k);
        { InsertStable(init, x, option, k);
          PassLarger(u, init, x, last, option, k); }
        WithKey(init + [last], option, k) + WithKey([x], option, k);
        { assert t == init + [last]; }
        WithKey(t, option, k) + WithKey([x], option, k);
      }
    }
  }

  // ---------------------------------------------------------------------
  // Properties of SortedBy

  /** The displayed list is ordered by the chosen key. */
  lemma {:induction false} SortedByOrdered(s: seq<Property>, option: SortOption)
    ensures Ordered(SortedBy(s, option), option)
  {
    if s != [] {
      SortedByOrdered(s[..|s| - 1], option);
      InsertOrdered(SortedBy(s[..|s| - 1], option), s[|s| - 1], option);
    }
  }

  /** The displayed list holds exactly the listings received. */
  lemma {:induction false} SortedByPermutes(s: seq<Property>, option: SortOption)
    ensures multiset(SortedBy(s, option)) == multiset(s)
    ensures |SortedBy(s, option)| == |s|
  {
    if s != [] {
      var init, last := s[..|s| - 1], s[|s| - 1];
      var r0 := SortedBy(init, option);
      calc {
        multiset(SortedBy(s, option));
        multiset(Insert(r0, last, option));
        { InsertPermutes(r0, last, option); }
        multiset(r0) + multiset{last};
        { SortedByPermutes(init, option); }
        multiset(init) + multiset{last};
        { assert s == init + [last]; }
        multiset(s);
      }
    }
    SizesAgree(SortedBy(s, option), s);
  }

  lemma SizesAgree(a: seq<Property>, b: seq<Property>)
    requires multiset(a) == multiset(b)
    ensures |a| == |b|
  {
    assert |multiset(a)| == |a| && |multiset(b)| == |b|;
  }

  /** Listings with equal keys keep their input order. */
  lemma {:induction false} SortedByStable(s: seq<Property>, option: SortOption, k: int)
    ensures WithKey(SortedBy(s, option), option, k) == WithKey(s, option, k)
  {
    if s != [] {
      var init, last := s[..|s| - 1], s[|s| - 1];
      SortedByStable(init, option, k);
      InsertStable(SortedBy(init, option), last, option, k);
      assert s == init + [last];
      WithKeyAppend(init, [last], option, k);
    }
  }

  lemma {:induction false} WithKeyMembers(s: seq<Property>, option: SortOption, k: int, y: Property)
    ensures y in WithKey(s, option, k) <==> y in s && Key(option, y) == k
  {
    if s != [] {
      var init := s[..|s| - 1];
      WithKeyMembers(init, option, k, y);
      assert s == init + [s[|s| - 1]];
    }
  }

  lemma WithKeyCons(y: Property, rest: seq<Property>, option: SortOption, k: int)
    ensures WithKey([y] + rest, option, k)
         == (if Key(option, y) == k then [y] else []) + WithKey(rest, option, k)
  {
    WithKeyAppend([y], rest, option, k);
    assert [y][..0] == [];
  }

  lemma HeadHasKey(r: seq<Property>, option: SortOption)
    requires r != []
    ensures WithKey(r, option, Key(option, r[0])) != []
  {
    WithKeyMembers(r, option, Key(option, r[0]), r[0]);
  }

  /** Agreeing ordered sequences start with the same key. */
  lemma HeadKeysAgree(r1: seq<Property>, r2: seq<Property>, option: SortOption)
    requires r1 != [] && r2 != []
    requires Ordered(r1, option) && Ordered(r2, option)
    requires WithKey(r1, option, Key(option, r2[0])) == WithKey(r2, option, Key(option, r2[0]))
    requires WithKey(r1, option, Key(option, r1[0])) == WithKey(r2, option, Key(option, r1[0]))
    ensures Key(option, r1[0]) == Key(option, r2[0])
  {
    var m1, m2 := Key(option, r1[0]), Key(option, r2[0]);
    WithKeyMembers(r1, option, m1, r1[0]);
    WithKeyMembers(r2, option, m1, r1[0]);
    WithKeyMembers(r2, option, m2, r2[0]);
    WithKeyMembers(r1, option, m2, r2[0]);
  }

  /** Agreeing sequences with the same head key agree on their heads and tails. */
  lemma TailsAgree(y1: Property, t1: seq<Property>, y2: Property, t2: seq<Property>, option: SortOption, k: int)
    requires Key(option, y1) == Key(option, y2)
    requires WithKey([y1] + t1, option, k) == WithKey([y2] + t2, option, k)
    ensures WithKey(t1, option, k) == WithKey(t2, option, k)
    ensures k == Key(option, y1) ==> y1 == y2
  {
    WithKeyCons(y1, t1, option, k);
    WithKeyCons(y2, t2, option, k);
    var w1, w2 := WithKey(t1, option, k), WithKey(t2, option, k);
    if k == Key(option, y1) {
      assert [y1] + w1 == [y2] + w2;
      assert w1 == ([y1] + w1)[1..];
      assert w2 == ([y2] + w2)[1..];
      assert ([y1] + w1)[0] == y1;
    } else {
      assert [] + w1 == w1;
      assert [] + w2 == w2;
    }
  }

  /** Two ordered sequences that agree on every key's subsequence are equal. */
  lemma {:induction false} OrderedStableUnique(r1: seq<Property>, r2: seq<Property>, option: SortOption)
    requires Ordered(r1, option) && Ordered(r2, option)
    requires forall k :: WithKey(r1, option, k) == WithKey(r2, option, k)
    ensures r1 == r2
  {
    if r1 != [] && r2 != [] {
      HeadKeysAgree(r1, r2, option);
      var y1, t1, y2, t2 := r1[0], r1[1..], r2[0], r2[1..];
      assert r1 == [y1] + t1;
      assert r2 == [y2] + t2;
      forall k
        ensures WithKey(t1, option, k) == WithKey(t2, option, k)
      {
        TailsAgree(y1, t1, y2, t2, option, k);
      }
      TailsAgree(y1, t1, y2, t2, option, Key(option, y1));
      OrderedStableUnique(t1, t2, option);
    } else if r1 != [] {
      HeadHasKey(r1, option);
    } else if r2 != [] {
      HeadHasKey(r2, option);
    }
  }

  /** `r` is a stable sort of `s`: ordered by the key, and every key's
      listings appear in their order in `s`. */
  ghost predicate IsStableSortOf(r: seq<Property>, s: seq<Property>, option: SortOption)
  {
    Ordered(r, option) && forall k :: WithKey(r, option, k) == WithKey(s, option, k)
  }

  /** `SortedBy` is the stable sort: a list is the page's ordering of `s`
      exactly when it is ordered by the key and keeps every key's listings
      in their input order. */
  lemma SortedByIsStableSort(s: seq<Property>, r: seq<Property>, option: SortOption)
    ensures r == SortedBy(s, option) <==> IsStableSortOf(r, s, option)
  {
    var sorted := SortedBy(s, option);
    SortedByOrdered(s, option);
    forall k
      ensures WithKey(sorted, option, k) == WithKey(s, option, k)
    {
      SortedByStable(s, option, k);
    }
    assert IsStableSortOf(sorted, s, option);
    if IsStableSortOf(r, s, option) {
      OrderedStableUnique(r, sorted, option);
    }
  }

  /** Each option orders the field its comparator reads, in its direction. */
  lemma SortOptionOrdersField(s: seq<Property>, option: SortOption)
    ensures var r := SortedBy(s, option);
      && (option == Newest ==> forall i, j :: 0 <= i < j < |r| ==> r[i].createdAt >= r[j].createdAt)
      && (option == Oldest ==> forall i, j :: 0 <= i < j < |r| ==> r[i].createdAt <= r[j].createdAt)
      && (option == PriceDesc ==> forall i, j :: 0 <= i < j < |r| ==> r[i].price >= r[j].price)
      && (option == PriceAsc ==> forall i, j :: 0 <= i < j < |r| ==> r[i].price <= r[j].price)
      && (option == SquareFeet ==> forall i, j :: 0 <= i < j < |r| ==> r[i].squareFeet >= r[j].squareFeet)
  {
    SortedByOrdered(s, option);
  }

  // ---------------------------------------------------------------------
  // The page's in-place sort of its copy

  /** `x` lands right after the last element whose key is at most its own. */
  lemma {:induction false} InsertSplit(t: seq<Property>, x: Property, option: SortOption, j: int)
    requires 0 <= j <= |t|
    requires j == 0 || Key(option, t[j - 1]) <= Key(option, x)
    requires forall k :: j <= k < |t| ==> Key(option, t[k]) > Key(option, x)
    ensures Insert(t, x, option) == t[..j] + [x] + t[j..]
  {
    if j == |t| {
      assert t[..j] == t && t[j..] == [];
    } else {
      var init, last := t[..|t| - 1], t[|t| - 1];
      InsertSplit(init, x, option, j);
      assert init[..j] == t[..j];
      assert init[j..] + [last] == t[j..];
    }
  }

  lemma SortedByStep(s: seq<Property>, i: int, option: SortOption)
    requires 0 <= i < |s|
    ensures SortedBy(s[..i + 1], option) == Insert(SortedBy(s[..i], option), s[i], option)
  {
    assert s[..i + 1][..i] == s[..i];
  }

  lemma Assemble(u: seq<Property>, t: seq<Property>, x: Property, j: int)
    requires 0 <= j <= |t| && |u| == |t| + 1
    requires forall k :: 0 <= k < j ==> u[k] == t[k]
    requires u[j] == x
    requires forall k :: j < k < |u| ==> u[k] == t[k - 1]
    ensures u == t[..j] + [x] + t[j..]
  {
    var v := t[..j] + [x] + t[j..];
    forall k | 0 <= k < |u|
      ensures u[k] == v[k]
    {
      if k < j {
      } else if k == j {
      } else {
        assert v[k] == t[j..][k - j - 1];
      }
    }
  }

  /** One pass of the sort: the element at `i` moves left past every
      element of the sorted prefix whose key exceeds its own. */
  method InsertAt(a: array<Property>, i: int, option: SortOption)
    requires 0 <= i < a.Length
    modifies a
    ensures a[..i + 1] == Insert(old(a[..i]), old(a[i]), option)
    ensures forall k :: i < k < a.Length ==> a[k] == old(a[k])
  {
    var x := a[i];
    ghost var t := a[..i];
    var j := i;
    while j > 0 && Compare(option, a[j - 1], x) > 0
      invariant 0 <= j <= i
      invariant forall k :: 0 <= k < j ==> a[k] == t[k]
      invariant forall k :: j < k <= i ==> a[k] == t[k - 1]
      invariant forall k :: i < k < a.Length ==> a[k] == old(a[k])
      invariant forall k :: j <= k < i ==> Key(option, t[k]) > Key(option, x)
    {
      a[j] := a[j - 1];
      j := j - 1;
    }
    InsertSplit(t, x, option, j);
    a[j] := x;
    Assemble(a[..i + 1], t, x, j);
  }

  /** Sorts `a` in place by the option's comparator; the result is the
      stable sort of the old contents. */
  method SortInPlace(a: array<Property>, option: SortOption)
    modifies a
    ensures a[..] == SortedBy(old(a[..]), option)
  {
    ghost var s := a[..];
    var i := 0;
    assert s[..0] == [];
    while i < a.Length
      invariant 0 <= i <= a.Length
      invariant a[..i] == SortedBy(s[..i], option)
      invariant forall k :: i <= k < a.Length ==> a[k] == s[k]
    {
      InsertAt(a, i, option);
      SortedByStep(s, i, option);
      i := i + 1;
    }
    assert s[..a.Length] == s;
    assert a[..] == a[..a.Length];
  }

  /** The sort effect's `[...properties]` followed by `sort`: a fresh copy,
      sorted; the listings passed in are left as they were. */
  method SortedCopy(properties: seq<Property>, option: SortOption) returns (sorted: seq<Property>)
    ensures sorted == SortedBy(properties, option)
  {
    var a := new Property[|properties|](i requires 0 <= i < |properties| => properties[i]);
    assert a[..] == properties;
    SortInPlace(a, option);
    sorted := a[..];
  }
}
