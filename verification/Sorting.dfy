/**
  Orders, sorted sequences, and the one sort every component uses.

  `SortSlice` stands for the library sort the program calls; `Enumerate` is the
  sorted listing of a finite set, which is what sorting a duplicate-free
  collection produces no matter in which order it was collected.
 */
module Sorting {

  ghost predicate StrictTotal<T(!new)>(less: (T, T) -> bool) {
    && (forall x :: !less(x, x))
    && (forall x, y :: x == y || less(x, y) || less(y, x))
    && (forall x, y, z :: less(x, y) && less(y, z) ==> less(x, z))
  }

  ghost predicate StrictOrder<T(!new)>(less: (T, T) -> bool) {
    && (forall x :: !less(x, x))
    && (forall x, y, z :: less(x, y) && less(y, z) ==> less(x, z))
  }

  /** What a sort needs from its comparison: "not less" behaves like a total preorder. */
  ghost predicate WeakOrder<T(!new)>(less: (T, T) -> bool) {
    && (forall x, y :: less(x, y) ==> !less(y, x))
    && (forall x, y, z :: !less(x, y) && !less(y, z) ==> !less(x, z))
  }

  ghost predicate Ascending<T(!new)>(less: (T, T) -> bool, s: seq<T>) {
    forall i, j :: 0 <= i < j < |s| ==> less(s[i], s[j])
  }

  ghost predicate Sorted<T(!new)>(less: (T, T) -> bool, s: seq<T>) {
    forall i, j :: 0 <= i < j < |s| ==> !less(s[j], s[i])
  }

  predicate IntLess(a: int, b: int) { a < b }

  /** Byte-wise string order. */
  predicate StrLess(a: string, b: string) {
    if b == "" then false
    else if a == "" then true
    else if a[0] != b[0] then a[0] < b[0]
    else StrLess(a[1..], b[1..])
  }

  /** The first difference decides, and without one the shorter string is the smaller. */
  lemma {:induction false} StrLessExact(a: string, b: string)
    ensures StrLess(a, b) <==>
      || (|a| < |b| && a == b[..|a|])
      || exists i :: 0 <= i < |a| && i < |b| && a[..i] == b[..i] && a[i] < b[i]
  {
    if a != "" && b != "" {
      StrLessExact(a[1..], b[1..]);
      assert a[..0] == b[..0];
      if a[0] == b[0] {
        assert a == [a[0]] + a[1..] && b == [a[0]] + b[1..];
        DifferenceShifts(a, b);
        if |a| < |b| { assert b[..|a|] == [a[0]] + b[1..][..|a| - 1]; }
      } else if exists i :: 0 <= i < |a| && i < |b| && a[..i] == b[..i] && a[i] < b[i] {
        var i :| 0 <= i < |a| && i < |b| && a[..i] == b[..i] && a[i] < b[i];
        if i > 0 { assert a[..i][0] == b[..i][0]; }
      }
    }
  }

  lemma {:induction false} DifferenceShifts(a: string, b: string)
    requires a != "" && b != "" && a[0] == b[0]
    ensures (exists i :: 0 <= i < |a| && i < |b| && a[..i] == b[..i] && a[i] < b[i])
       <==> (exists i :: 0 <= i < |a[1..]| && i < |b[1..]| && a[1..][..i] == b[1..][..i] && a[1..][i] < b[1..][i])
  {
    if i :| 0 <= i < |a| && i < |b| && a[..i] == b[..i] && a[i] < b[i] {
      assert i > 0;
      assert a[1..][..i - 1] == a[..i][1..] && b[1..][..i - 1] == b[..i][1..];
      assert a[1..][i - 1] < b[1..][i - 1];
    }
    if i :| 0 <= i < |a[1..]| && i < |b[1..]| && a[1..][..i] == b[1..][..i] && a[1..][i] < b[1..][i] {
      assert a[..i + 1] == [a[0]] + a[1..][..i] && b[..i + 1] == [b[0]] + b[1..][..i];
      assert a[i + 1] < b[i + 1];
    }
  }

  lemma StrictTotalIsWeak<T(!new)>(less: (T, T) -> bool)
    requires StrictTotal(less)
    ensures WeakOrder(less)
  {
    forall x, y, z | !less(x, y) && !less(y, z) ensures !less(x, z) {
      assert x == y || y == z || (less(y, x) && less(z, y));
    }
  }

  lemma IntLessTotal()
    ensures StrictTotal(IntLess)
  {
  }

  lemma {:induction false} StrLessIrreflexive(a: string)
    ensures !StrLess(a, a)
  {
    if a != "" { StrLessIrreflexive(a[1..]); }
  }

  lemma {:induction false} StrLessConnected(a: string, b: string)
    ensures a == b || StrLess(a, b) || StrLess(b, a)
  {
    if a != "" && b != "" && a[0] == b[0] {
      StrLessConnected(a[1..], b[1..]);
      if a[1..] == b[1..] { assert a == [a[0]] + a[1..] == [b[0]] + b[1..] == b; }
    }
  }

  lemma {:induction false} StrLessTransitive(a: string, b: string, c: string)
    requires StrLess(a, b) && StrLess(b, c)
    ensures StrLess(a, c)
  {
    if a != "" && b != "" && c != "" && a[0] == b[0] == c[0] {
      StrLessTransitive(a[1..], b[1..], c[1..]);
    }
  }

  lemma StrLessTotal()
    ensures StrictTotal(StrLess)
  {
    forall x ensures !StrLess(x, x) { StrLessIrreflexive(x); }
    forall x, y ensures x == y || StrLess(x, y) || StrLess(y, x) { StrLessConnected(x, y); }
    forall x, y, z | StrLess(x, y) && StrLess(y, z) ensures StrLess(x, z) { StrLessTransitive(x, y, z); }
  }

  // ---- the sorted listing of a set ----

  ghost predicate IsLeast<T(!new)>(m: T, s: set<T>, less: (T, T) -> bool) {
    m in s && forall y :: y in s && y != m ==> less(m, y)
  }

  lemma {:induction false} LeastExists<T(!new)>(s: set<T>, less: (T, T) -> bool) returns (m: T)
    requires StrictTotal(less) && s != {}
    ensures IsLeast(m, s, less)
  {
    var x :| x in s;
    if s == {x} {
      m := x;
    } else {
      var rest := s - {x};
      assert s == rest + {x};
      var k := LeastExists(rest, less);
      m := if less(x, k) then x else k;
      forall y | y in s && y != m ensures less(m, y) {
        assert y == x || y in rest;
      }
    }
  }

  ghost function Least<T(!new)>(s: set<T>, less: (T, T) -> bool): (least: T)
    requires StrictTotal(less) && s != {}
    ensures IsLeast(least, s, less)
  {
    assert exists m :: IsLeast(m, s, less) by {
      var m := LeastExists(s, less);
    }
    var m :| IsLeast(m, s, less);
    m
  }

  /** The elements of `s`, each once, in ascending order. */
  ghost function Enumerate<T(!new)>(s: set<T>, less: (T, T) -> bool): (r: seq<T>)
    requires StrictTotal(less)
    ensures Ascending(less, r)
    ensures forall x :: x in r <==> x in s
    ensures |r| == |s|
  {
    if s == {} then [] else
      var m := Least(s, less);
      [m] + Enumerate(s - {m}, less)
  }

  lemma EmptyHasNoMembers<T(!new)>(s: seq<T>)
    ensures s == [] <==> forall x :: x !in s
  {
    if s != [] { assert s[0] in s; }
  }

  /** There is only one ascending listing of a collection. */
  lemma {:induction false} AscendingUnique<T(!new)>(a: seq<T>, b: seq<T>, less: (T, T) -> bool)
    requires StrictOrder(less)
    requires Ascending(less, a) && Ascending(less, b)
    requires forall x :: x in a <==> x in b
    ensures a == b
    decreases |a|
  {
    if a == [] {
      EmptyHasNoMembers(b);
    } else {
      assert a[0] in b;
      assert b != [] && b[0] in a;
      var i :| 0 <= i < |b| && b[i] == a[0];
      var j :| 0 <= j < |a| && a[j] == b[0];
      assert a[0] == b[0];
      forall x ensures x in a[1..] <==> x in b[1..] {
        if x in a[1..] {
          var k :| 1 <= k < |a| && a[k] == x;
          assert less(a[0], x);
          assert x in b;
        }
        if x in b[1..] {
          var k :| 1 <= k < |b| && b[k] == x;
          assert less(b[0], x);
          assert x in a;
        }
      }
      AscendingUnique(a[1..], b[1..], less);
      assert a == [a[0]] + a[1..] && b == [b[0]] + b[1..];
    }
  }

  lemma AscendingIsEnumerate<T(!new)>(a: seq<T>, s: set<T>, less: (T, T) -> bool)
    requires StrictTotal(less) && Ascending(less, a)
    requires forall x :: x in a <==> x in s
    ensures a == Enumerate(s, less)
  {
    AscendingUnique(a, Enumerate(s, less), less);
  }

  // ---- sorting ----

  function Elements<T>(s: seq<T>): set<T> { set x | x in s }

  ghost predicate NoDuplicates<T(!new)>(s: seq<T>) {
    forall i, j :: 0 <= i < j < |s| ==> s[i] != s[j]
  }

  lemma Inserted<T>(s: seq<T>, x: T, i: nat)
    requires i <= |s|
    ensures multiset(s[..i] + [x] + s[i..]) == multiset(s) + multiset{x}
  {
    assert s == s[..i] + s[i..];
  }

  /** Insert `x` after every element that is not greater: equal elements keep their order. */
  method Insert<T(!new)>(s: seq<T>, x: T, less: (T, T) -> bool) returns (r: seq<T>, ghost at: nat)
    requires WeakOrder(less) && Sorted(less, s)
    ensures Sorted(less, r)
    ensures at <= |s| && r == s[..at] + [x] + s[at..]
    ensures multiset(r) == multiset(s) + multiset{x}
    ensures forall i :: at <= i < |s| ==> less(x, s[i])
  {
    var i := |s|;
    while 0 < i && less(x, s[i - 1])
      invariant 0 <= i <= |s|
      invariant forall k :: i <= k < |s| ==> less(x, s[k])
    {
      i := i - 1;
    }
    at := i;
    r := s[..i] + [x] + s[i..];
    Inserted(s, x, i);
    if 0 < i {
      forall k | 0 <= k < i ensures !less(x, s[k]) {
        if k < i - 1 { assert !less(s[i - 1], s[k]); }
      }
    }
  }

  /** A stable sort: sorted, and the same elements with the same multiplicities. */
  method SortSlice<T(!new)>(items: seq<T>, less: (T, T) -> bool) returns (r: seq<T>)
    requires WeakOrder(less)
    ensures Sorted(less, r)
    ensures multiset(r) == multiset(items)
  {
    r := [];
    for i := 0 to |items|
      invariant Sorted(less, r)
      invariant multiset(r) == multiset(items[..i])
    {
      ghost var at;
      r, at := Insert(r, items[i], less);
      assert items[..i + 1] == items[..i] + [items[i]];
    }
    assert items[..|items|] == items;
  }

  lemma AppendFresh<T(!new)>(s: seq<T>, x: T)
    ensures Elements(s + [x]) == Elements(s) + {x}
    ensures NoDuplicates(s) && x !in s ==> NoDuplicates(s + [x])
  {
    assert x in s + [x];
    forall y | y in s ensures y in s + [x] {}
  }

  lemma MultisetMembers<T(!new)>(a: seq<T>, b: seq<T>)
    requires multiset(a) == multiset(b)
    ensures |a| == |b|
    ensures forall x :: x in a <==> x in b
  {
    assert |multiset(a)| == |multiset(b)|;
    forall x ensures x in a <==> x in b {
      assert x in a <==> x in multiset(a);
      assert x in b <==> x in multiset(b);
    }
  }

  lemma NoDuplicatesMultiplicity<T(!new)>(s: seq<T>)
    ensures NoDuplicates(s) <==> forall x :: multiset(s)[x] <= 1
  {
    if s == [] {
    } else {
      var t := s[1..];
      assert s == [s[0]] + t;
      NoDuplicatesMultiplicity(t);
      if NoDuplicates(s) {
        assert NoDuplicates(t) by {
          forall i, j | 0 <= i < j < |t| ensures t[i] != t[j] { assert s[i + 1] != s[j + 1]; }
        }
        assert s[0] !in t;
        assert multiset(t)[s[0]] == 0;
      }
      if forall x :: multiset(s)[x] <= 1 {
        forall x ensures multiset(t)[x] <= 1 { assert multiset(s)[x] == multiset([s[0]])[x] + multiset(t)[x]; }
        assert multiset(s)[s[0]] == 1 + multiset(t)[s[0]];
        assert s[0] !in multiset(t);
        forall i, j | 0 <= i < j < |s| ensures s[i] != s[j] {
          if i == 0 { assert s[j] in t; } else { assert t[i - 1] != t[j - 1]; }
        }
      }
    }
  }

  /** Sorting a duplicate-free collection by a strict total order lists its set. */
  lemma SortedIsEnumerate<T(!new)>(items: seq<T>, r: seq<T>, less: (T, T) -> bool)
    requires StrictTotal(less) && NoDuplicates(items)
    requires Sorted(less, r) && multiset(r) == multiset(items)
    ensures r == Enumerate(Elements(items), less)
  {
    NoDuplicatesMultiplicity(items);
    NoDuplicatesMultiplicity(r);
    MultisetMembers(r, items);
    AscendingIsEnumerate(r, Elements(items), less);
  }

  method SortSet<T(!new, ==)>(items: seq<T>, less: (T, T) -> bool) returns (r: seq<T>)
    requires StrictTotal(less) && NoDuplicates(items)
    ensures r == Enumerate(Elements(items), less)
  {
    StrictTotalIsWeak(less);
    r := SortSlice(items, less);
    SortedIsEnumerate(items, r, less);
  }

  /** A set's elements in some order, as iterating a map yields its keys. */
  method Collect<T(!new, ==)>(s: set<T>) returns (r: seq<T>)
    ensures NoDuplicates(r) && Elements(r) == s
  {
    r := [];
    var rest := s;
    while rest != {}
      invariant NoDuplicates(r) && Elements(r) == s - rest && rest <= s
      decreases rest
    {
      var x :| x in rest;
      rest := rest - {x};
      AppendFresh(r, x);
      r := r + [x];
    }
  }

  method SortedElements<T(!new, ==)>(s: set<T>, less: (T, T) -> bool) returns (r: seq<T>)
    requires StrictTotal(less)
    ensures r == Enumerate(s, less)
  {
    var items := Collect(s);
    r := SortSet(items, less);
  }
}
