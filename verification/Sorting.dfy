/** The Go library's sort, and the fact that makes it hide map iteration order:
    a set has one sorted listing. */
module Sorting {

  ghost predicate TotalOrder<T(!new)>(leq: (T, T) -> bool) {
    && (forall x, y :: leq(x, y) || leq(y, x))
    && (forall x, y :: leq(x, y) && leq(y, x) ==> x == y)
    && (forall x, y, z :: leq(x, y) && leq(y, z) ==> leq(x, z))
  }

  ghost predicate Sorted<T>(s: seq<T>, leq: (T, T) -> bool) {
    forall i, j | 0 <= i < j < |s| :: leq(s[i], s[j])
  }

  ghost predicate NoDuplicates<T>(s: seq<T>) {
    forall i, j | 0 <= i < j < |s| :: s[i] != s[j]
  }

  /** `r` lists the elements of `s` once each, in order. */
  ghost predicate Lists<T(!new)>(r: seq<T>, s: set<T>, leq: (T, T) -> bool) {
    && Sorted(r, leq)
    && NoDuplicates(r)
    && forall x :: x in r <==> x in s
  }

  ghost function Listing<T(!new)>(s: set<T>, leq: (T, T) -> bool): seq<T> {
    if exists r :: Lists(r, s, leq) then var r :| Lists(r, s, leq); r else []
  }

  lemma {:induction false} ListsUnique<T(!new)>(a: seq<T>, b: seq<T>, s: set<T>, leq: (T, T) -> bool)
    requires TotalOrder(leq)
    requires Lists(a, s, leq) && Lists(b, s, leq)
    ensures a == b
    decreases |a|
  {
    if a == [] {
      HasElement(b);
    } else {
      assert a[0] in s && a[0] in b;
      assert b[0] in s && b[0] in a;
      assert a[0] == b[0];
      var s' := s - {a[0]};
      TailLists(a, s, leq);
      TailLists(b, s, leq);
      ListsUnique(a[1..], b[1..], s', leq);
      assert a == [a[0]] + a[1..] && b == [b[0]] + b[1..];
    }
  }

  lemma HasElement<T(!new)>(b: seq<T>)
    ensures b == [] || exists x :: x in b
  {
    assert b == [] || b[0] in b;
  }

  lemma TailLists<T(!new)>(a: seq<T>, s: set<T>, leq: (T, T) -> bool)
    requires Lists(a, s, leq) && a != []
    ensures Lists(a[1..], s - {a[0]}, leq)
  {
    var t := a[1..];
    forall x ensures x in t <==> x in s - {a[0]} {
      if x in t {
        var i :| 0 <= i < |t| && t[i] == x;
        assert a[i + 1] == x;
      }
      if x in s - {a[0]} {
        assert x in a;
        var i :| 0 <= i < |a| && a[i] == x;
        assert t[i - 1] == x;
      }
    }
  }

  /** Whatever order the set was enumerated in, sorting it gives its listing. */
  lemma ListingIs<T(!new)>(r: seq<T>, s: set<T>, leq: (T, T) -> bool)
    requires TotalOrder(leq)
    requires Lists(r, s, leq)
    ensures Listing(s, leq) == r
  {
    ListsUnique(r, Listing(s, leq), s, leq);
  }

  /** Ranging over a map: its keys once each, in an order nobody controls. */
  method Enumerate<T(==,!new)>(s: set<T>) returns (e: seq<T>)
    ensures NoDuplicates(e)
    ensures forall x :: x in e <==> x in s
  {
    e := [];
    var todo := s;
    while todo != {}
      invariant todo <= s && NoDuplicates(e)
      invariant forall x :: x in e <==> x in s && x !in todo
    {
      var x :| x in todo;
      e := e + [x];
      todo := todo - {x};
    }
  }

  /** sort.Strings and sort.Ints: one element after another goes to its place. */
  method Sort<T(!new)>(s: seq<T>, leq: (T, T) -> bool) returns (r: seq<T>)
    requires TotalOrder(leq)
    ensures Sorted(r, leq)
    ensures multiset(r) == multiset(s)
  {
    r := [];
    for i := 0 to |s|
      invariant Sorted(r, leq)
      invariant multiset(r) == multiset(s[..i])
    {
      assert s[..i + 1] == s[..i] + [s[i]];
      InsertedInPlace(r, s[i], leq);
      r := Inserted(r, s[i], leq);
    }
    assert s[..|s|] == s;
  }

  function Inserted<T>(s: seq<T>, x: T, leq: (T, T) -> bool): seq<T> {
    if s != [] && leq(s[0], x) then [s[0]] + Inserted(s[1..], x, leq) else [x] + s
  }

  lemma {:induction false} InsertedAdds<T>(s: seq<T>, x: T, leq: (T, T) -> bool)
    ensures multiset(Inserted(s, x, leq)) == multiset(s) + multiset{x}
  {
    if s != [] && leq(s[0], x) {
      InsertedAdds(s[1..], x, leq);
      assert s == [s[0]] + s[1..];
    }
  }

  lemma {:induction false} InsertedInPlace<T(!new)>(s: seq<T>, x: T, leq: (T, T) -> bool)
    requires TotalOrder(leq) && Sorted(s, leq)
    ensures Sorted(Inserted(s, x, leq), leq)
    ensures multiset(Inserted(s, x, leq)) == multiset(s) + multiset{x}
  {
    InsertedAdds(s, x, leq);
    if s != [] && leq(s[0], x) {
      InsertedInPlace(s[1..], x, leq);
      forall y | y in Inserted(s[1..], x, leq) ensures leq(s[0], y) {
        assert y in multiset(Inserted(s[1..], x, leq));
        assert y == x || y in s[1..];
      }
      SortedCons(s[0], Inserted(s[1..], x, leq), leq);
    } else {
      forall y | y in s ensures leq(x, y) {
        assert leq(x, s[0]);
      }
      SortedCons(x, s, leq);
    }
  }

  lemma SortedCons<T>(h: T, t: seq<T>, leq: (T, T) -> bool)
    requires Sorted(t, leq) && forall y | y in t :: leq(h, y)
    ensures Sorted([h] + t, leq)
  {
  }

  /** Every finite set has a listing. */
  lemma {:induction false} ListingExists<T(!new)>(s: set<T>, leq: (T, T) -> bool)
    requires TotalOrder(leq)
    ensures Lists(Listing(s, leq), s, leq)
  {
    if s == {} {
      assert Lists([], s, leq);
    } else {
      var x :| x in s;
      ListingExists(s - {x}, leq);
      var r := Listing(s - {x}, leq);
      InsertedInPlace(r, x, leq);
      assert multiset(r + [x]) == multiset(r) + multiset{x};
      SortedEnumeration(Inserted(r, x, leq), r + [x], s, leq);
    }
  }

  /** A permutation of a duplicate-free enumeration is a listing once sorted. */
  lemma SortedEnumeration<T(!new)>(r: seq<T>, e: seq<T>, s: set<T>, leq: (T, T) -> bool)
    requires Sorted(r, leq) && multiset(r) == multiset(e)
    requires NoDuplicates(e) && forall x :: x in e <==> x in s
    ensures Lists(r, s, leq)
  {
    forall x ensures x in r <==> x in s {
      assert x in r <==> x in multiset(r);
      assert x in e <==> x in multiset(e);
    }
    forall x ensures multiset(e)[x] <= 1 {
      AtMostOnce(e, x);
    }
    forall i, j | 0 <= i < j < |r| ensures r[i] != r[j] {
      CountsTwice(r, i, j);
    }
  }

  lemma CountsTwice<T>(r: seq<T>, i: nat, j: nat)
    requires i < j < |r|
    ensures r[i] == r[j] ==> multiset(r)[r[i]] >= 2
  {
    assert r == r[..j] + [r[j]] + r[j + 1..];
    assert r[i] in r[..j];
  }

  lemma {:induction false} AtMostOnce<T>(e: seq<T>, x: T)
    requires NoDuplicates(e)
    ensures multiset(e)[x] <= 1
  {
    if e != [] {
      AtMostOnce(e[1..], x);
      assert e == [e[0]] + e[1..];
      if x == e[0] {
        assert x !in e[1..];
      }
    }
  }
}
