/** Sequence vocabulary shared by every module: distinctness, membership sets, and the
    stable sort that the program takes from its standard library. */
module Sequences {

  datatype Option<+T> = None | Some(value: T)

  predicate Distinct<T(==)>(s: seq<T>) {
    forall i, j :: 0 <= i < j < |s| ==> s[i] != s[j]
  }

  function Elements<T>(s: seq<T>): set<T> {
    set x | x in s
  }

  lemma {:induction false} DistinctCardinality<T>(s: seq<T>)
    requires Distinct(s)
    ensures |Elements(s)| == |s|
  {
    if s == [] {
      assert Elements(s) == {};
    } else {
      DistinctCardinality(s[1..]);
      assert Elements(s) == {s[0]} + Elements(s[1..]);
    }
  }

  /** A duplicate-free list drawn from a finite set is no longer than the set. */
  lemma DistinctBounded<T>(s: seq<T>, bound: set<T>)
    requires Distinct(s) && forall x :: x in s ==> x in bound
    ensures |s| <= |bound|
  {
    DistinctCardinality(s);
    assert Elements(s) <= bound;
    SubsetCardinality(Elements(s), bound);
  }

  lemma {:induction false} SubsetCardinality<T>(a: set<T>, b: set<T>)
    requires a <= b
    ensures |a| <= |b|
  {
    if a != {} {
      var x :| x in a;
      SubsetCardinality(a - {x}, b - {x});
    }
  }

  lemma DistinctAppend<T>(s: seq<T>, x: T)
    requires Distinct(s) && x !in s
    ensures Distinct(s + [x])
  {}

  // ---------------------------------------------------------------- stable sort

  function Insert<T>(x: T, s: seq<T>, le: (T, T) -> bool): seq<T> {
    if s == [] then [x]
    else if le(x, s[0]) then [x] + s
    else [s[0]] + Insert(x, s[1..], le)
  }

  /** The stable sort of `s` under `le`. */
  function SortBy<T>(s: seq<T>, le: (T, T) -> bool): seq<T> {
    if s == [] then [] else Insert(s[0], SortBy(s[1..], le), le)
  }

  ghost predicate Sorted<T>(s: seq<T>, le: (T, T) -> bool) {
    forall i, j :: 0 <= i < j < |s| ==> le(s[i], s[j])
  }

  /** `le` is a total preorder on the members of `s`. */
  ghost predicate Preorders<T>(le: (T, T) -> bool, s: seq<T>) {
    && (forall x, y {:trigger le(x, y)} :: x in s && y in s ==> le(x, y) || le(y, x))
    && (forall x, y, z {:trigger le(x, y), le(y, z)} :: x in s && y in s && z in s && le(x, y) && le(y, z) ==> le(x, z))
  }

  ghost predicate Antisymmetric<T>(le: (T, T) -> bool, s: seq<T>) {
    forall x, y {:trigger le(x, y), le(y, x)} :: x in s && y in s && le(x, y) && le(y, x) ==> x == y
  }

  lemma {:induction false} InsertPermutes<T>(x: T, s: seq<T>, le: (T, T) -> bool)
    ensures multiset(Insert(x, s, le)) == multiset{x} + multiset(s)
  {
    if s != [] && !le(x, s[0]) {
      InsertPermutes(x, s[1..], le);
      assert s == [s[0]] + s[1..];
    }
  }

  lemma {:induction false} SortPermutes<T>(s: seq<T>, le: (T, T) -> bool)
    ensures multiset(SortBy(s, le)) == multiset(s)
    ensures |SortBy(s, le)| == |s|
    ensures forall x :: x in SortBy(s, le) <==> x in s
  {
    if s != [] {
      SortPermutes(s[1..], le);
      InsertPermutes(s[0], SortBy(s[1..], le), le);
      assert s == [s[0]] + s[1..];
    }
    MultisetMembers(s, SortBy(s, le));
  }

  lemma MultisetMembers<T>(a: seq<T>, b: seq<T>)
    requires multiset(a) == multiset(b)
    ensures |a| == |b|
    ensures forall x :: x in a <==> x in b
  {
    assert |multiset(a)| == |a| && |multiset(b)| == |b|;
    forall x ensures x in a <==> x in b {
      assert x in a <==> x in multiset(a);
      assert x in b <==> x in multiset(b);
    }
  }

  lemma {:induction false} InsertSorted<T>(x: T, s: seq<T>, le: (T, T) -> bool)
    requires Preorders(le, [x] + s) && Sorted(s, le)
    ensures Sorted(Insert(x, s, le), le)
  {
    InsertPermutes(x, s, le);
    if s != [] {
      assert x in [x] + s && forall y :: y in s ==> y in [x] + s;
      if !le(x, s[0]) {
        var r := Insert(x, s[1..], le);
        assert forall y :: y in [x] + s[1..] ==> y in [x] + s;
        InsertSorted(x, s[1..], le);
        InsertPermutes(x, s[1..], le);
        forall y | y in r ensures le(s[0], y) {
          assert y in multiset(r);
          assert y == x || y in s[1..];
        }
      } else {
        forall j | 0 <= j < |s| ensures le(x, s[j]) {
          assert s[j] in s && s[0] in s;
        }
      }
    }
  }

  lemma {:induction false} SortSorts<T>(s: seq<T>, le: (T, T) -> bool)
    requires Preorders(le, s)
    ensures Sorted(SortBy(s, le), le)
  {
    if s != [] {
      var rest := s[1..];
      PreordersTransfer(le, s, rest);
      SortSorts(rest, le);
      SortPermutes(rest, le);
      var t := SortBy(rest, le);
      forall y | y in [s[0]] + t ensures y in s {
        if y != s[0] {
          assert y in multiset(t);
          assert y in rest;
        }
      }
      PreordersTransfer(le, s, [s[0]] + t);
      InsertSorted(s[0], t, le);
    }
  }

  /** Sorting a sorted list changes nothing; with a total preorder the converse holds too. */
  lemma {:induction false} SortFixed<T>(s: seq<T>, le: (T, T) -> bool)
    requires Preorders(le, s)
    ensures SortBy(s, le) == s <==> Sorted(s, le)
  {
    SortSorts(s, le);
    if Sorted(s, le) && s != [] {
      assert forall y :: y in s[1..] ==> y in s;
      SortFixed(s[1..], le);
      assert Sorted(s[1..], le);
      assert SortBy(s[1..], le) == s[1..];
      if |s| > 1 {
        assert s[1..][0] == s[1] && le(s[0], s[1]);
      }
      assert s == [s[0]] + s[1..];
    }
  }

  lemma SortedHead<T>(s: seq<T>, x: T, le: (T, T) -> bool)
    requires Sorted(s, le) && x in s && le(s[0], s[0])
    ensures le(s[0], x)
  {
    var i :| 0 <= i < |s| && s[i] == x;
  }

  lemma SortedTail<T>(s: seq<T>, le: (T, T) -> bool)
    requires s != [] && Sorted(s, le)
    ensures Sorted(s[1..], le)
  {}

  lemma MultisetTail<T>(s: seq<T>)
    requires s != []
    ensures multiset(s[1..]) == multiset(s) - multiset{s[0]}
  {
    assert s == [s[0]] + s[1..];
  }

  lemma PreordersTransfer<T>(le: (T, T) -> bool, a: seq<T>, b: seq<T>)
    requires Preorders(le, a) && forall x :: x in b ==> x in a
    ensures Preorders(le, b)
    ensures Antisymmetric(le, a) ==> Antisymmetric(le, b)
  {}

  /** Two sorted arrangements of one multiset are the same list. */
  lemma {:induction false} SortedUnique<T>(a: seq<T>, b: seq<T>, le: (T, T) -> bool)
    requires Sorted(a, le) && Sorted(b, le)
    requires multiset(a) == multiset(b)
    requires Preorders(le, a) && Antisymmetric(le, a)
    ensures a == b
  {
    MultisetMembers(a, b);
    if a != [] {
      assert b[0] in a && a[0] in b;
      SortedHead(a, b[0], le);
      SortedHead(b, a[0], le);
      assert a[0] == b[0];
      MultisetTail(a);
      MultisetTail(b);
      assert multiset(a[1..]) == multiset(b[1..]);
      SortedTail(a, le);
      SortedTail(b, le);
      PreordersTransfer(le, a, a[1..]);
      SortedUnique(a[1..], b[1..], le);
      assert a == [a[0]] + a[1..];
    }
  }

  /** Hence a sort depends only on the multiset of its input. */
  lemma SortOrderFree<T>(a: seq<T>, b: seq<T>, le: (T, T) -> bool)
    requires multiset(a) == multiset(b)
    requires Preorders(le, a) && Antisymmetric(le, a)
    ensures SortBy(a, le) == SortBy(b, le)
  {
    MultisetMembers(a, b);
    SortPermutes(a, le);
    SortPermutes(b, le);
    PreordersTransfer(le, a, b);
    var t := SortBy(a, le);
    MultisetMembers(a, t);
    forall x | x in t ensures x in a {
      assert x in multiset(t);
    }
    PreordersTransfer(le, a, t);
    SortSorts(a, le);
    SortSorts(b, le);
    SortedUnique(t, SortBy(b, le), le);
  }

  lemma DistinctMultiset<T>(a: seq<T>, b: seq<T>)
    requires Distinct(a) && multiset(a) == multiset(b)
    ensures Distinct(b)
  {
    MultisetMembers(a, b);
    if i, j :| 0 <= i < j < |b| && b[i] == b[j] {
      assert b == b[..j] + [b[j]] + b[j+1..];
      assert b[i] in b[..j];
      assert multiset(b)[b[i]] >= 2;
      DistinctCount(a, b[i]);
    }
  }

  lemma {:induction false} DistinctCount<T>(s: seq<T>, x: T)
    requires Distinct(s)
    ensures multiset(s)[x] == if x in s then 1 else 0
  {
    if s != [] {
      DistinctCount(s[1..], x);
      assert s == [s[0]] + s[1..];
    }
  }

  /** Distinct lists with the same members are rearrangements of each other. */
  lemma SameMembersPermute<T>(a: seq<T>, b: seq<T>)
    requires Distinct(a) && Distinct(b) && Elements(a) == Elements(b)
    ensures multiset(a) == multiset(b)
  {
    forall x: T ensures multiset(a)[x] == multiset(b)[x] {
      assert x in Elements(a) <==> x in Elements(b);
      DistinctCount(a, x);
      DistinctCount(b, x);
    }
  }
}
