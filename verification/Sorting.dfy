/** The stable sort every list in the model is ordered with. */
module Sorting {

  ghost predicate TotalPreorder<T(!new)>(le: (T, T) -> bool) {
    && (forall x, y :: le(x, y) || le(y, x))
    && (forall x, y, z :: le(x, y) && le(y, z) ==> le(x, z))
  }

  /** No two different elements of the list tie. */
  ghost predicate NoTies<T>(s: seq<T>, le: (T, T) -> bool) {
    forall x, y :: x in s && y in s && le(x, y) && le(y, x) ==> x == y
  }

  ghost predicate Ordered<T>(s: seq<T>, le: (T, T) -> bool) {
    forall i, j :: 0 <= i < j < |s| ==> le(s[i], s[j])
  }

  /** `x` goes after everything it does not precede. */
  function Insert<T>(s: seq<T>, x: T, le: (T, T) -> bool): (r: seq<T>)
    ensures multiset(r) == multiset(s) + multiset{x}
    ensures |r| == |s| + 1
  {
    if s == [] then [x]
    else
      var n := |s| - 1;
      assert s == s[..n] + [s[n]];
      if le(s[n], x) then s + [x] else Insert(s[..n], x, le) + [s[n]]
  }

  function Sort<T>(s: seq<T>, le: (T, T) -> bool): (r: seq<T>)
    ensures multiset(r) == multiset(s)
    ensures |r| == |s|
  {
    if s == [] then []
    else
      var n := |s| - 1;
      assert s == s[..n] + [s[n]];
      Insert(Sort(s[..n], le), s[n], le)
  }

  lemma SameElements<T>(a: seq<T>, b: seq<T>, x: T)
    requires multiset(a) == multiset(b)
    ensures x in a <==> x in b
  {
    assert x in a <==> x in multiset(a);
    assert x in b <==> x in multiset(b);
  }

  lemma {:induction false} InsertOrdered<T(!new)>(s: seq<T>, x: T, le: (T, T) -> bool)
    requires TotalPreorder(le) && Ordered(s, le)
    ensures Ordered(Insert(s, x, le), le)
  {
    if s != [] {
      var n := |s| - 1;
      if le(s[n], x) {
        forall i | 0 <= i < |s| ensures le(s[i], x) {}
      } else {
        InsertOrdered(s[..n], x, le);
        var r := Insert(s[..n], x, le);
        forall i | 0 <= i < |r| ensures le(r[i], s[n]) {
          assert r[i] in multiset(r);
          assert r[i] in multiset(s[..n]) + multiset{x};
          if r[i] != x {
            assert r[i] in s[..n];
          }
        }
      }
    }
  }

  lemma {:induction false} SortOrders<T(!new)>(s: seq<T>, le: (T, T) -> bool)
    requires TotalPreorder(le)
    ensures Ordered(Sort(s, le), le)
  {
    if s != [] {
      SortOrders(s[..|s| - 1], le);
      InsertOrdered(Sort(s[..|s| - 1], le), s[|s| - 1], le);
    }
  }

  lemma DropLast<T>(s: seq<T>)
    requires s != []
    ensures multiset(s[..|s| - 1]) == multiset(s) - multiset{s[|s| - 1]}
  {
    assert s == s[..|s| - 1] + [s[|s| - 1]];
  }

  /** The last of an ordered list is a greatest element. */
  lemma LastGreatest<T(!new)>(s: seq<T>, x: T, le: (T, T) -> bool)
    requires TotalPreorder(le) && Ordered(s, le) && x in s
    ensures le(x, s[|s| - 1])
  {
    assert le(s[|s| - 1], s[|s| - 1]);
  }

  lemma SameLast<T(!new)>(a: seq<T>, b: seq<T>, le: (T, T) -> bool)
    requires TotalPreorder(le) && NoTies(a, le) && a != [] && b != []
    requires Ordered(a, le) && Ordered(b, le) && multiset(a) == multiset(b)
    ensures a[|a| - 1] == b[|b| - 1]
  {
    var x, y := a[|a| - 1], b[|b| - 1];
    SameElements(a, b, x);
    SameElements(a, b, y);
    LastGreatest(b, x, le);
    LastGreatest(a, y, le);
  }

  lemma OrderedPrefix<T>(s: seq<T>, le: (T, T) -> bool)
    requires s != [] && Ordered(s, le)
    ensures Ordered(s[..|s| - 1], le) && (NoTies(s, le) ==> NoTies(s[..|s| - 1], le))
  {
    var front := s[..|s| - 1];
    assert forall x :: x in front ==> x in s;
  }

  /** Two ordered arrangements end alike, and what is before the end is the same problem again. */
  lemma FrontsAgree<T(!new)>(a: seq<T>, b: seq<T>, le: (T, T) -> bool)
    requires TotalPreorder(le) && NoTies(a, le) && a != [] && b != []
    requires Ordered(a, le) && Ordered(b, le) && multiset(a) == multiset(b)
    ensures var fa, fb, x := a[..|a| - 1], b[..|b| - 1], a[|a| - 1];
      && a == fa + [x] && b == fb + [x]
      && Ordered(fa, le) && Ordered(fb, le) && NoTies(fa, le) && multiset(fa) == multiset(fb)
  {
    SameLast(a, b, le);
    DropLast(a);
    DropLast(b);
    OrderedPrefix(a, le);
    OrderedPrefix(b, le);
  }

  lemma SameLength<T>(a: seq<T>, b: seq<T>)
    requires multiset(a) == multiset(b)
    ensures |a| == |b|
  {
    assert |a| == |multiset(a)| && |b| == |multiset(b)|;
  }

  /** Without ties there is only one ordered arrangement. */
  lemma {:induction false} OrderedUnique<T(!new)>(a: seq<T>, b: seq<T>, le: (T, T) -> bool)
    requires TotalPreorder(le) && NoTies(a, le)
    requires Ordered(a, le) && Ordered(b, le) && multiset(a) == multiset(b)
    ensures a == b
    decreases |a|
  {
    SameLength(a, b);
    if a != [] {
      FrontsAgree(a, b, le);
      OrderedUnique(a[..|a| - 1], b[..|b| - 1], le);
    }
  }

  /** Sorting forgets the order the list came in. */
  lemma SortIndependent<T(!new)>(s: seq<T>, t: seq<T>, le: (T, T) -> bool)
    requires TotalPreorder(le) && NoTies(s, le) && multiset(s) == multiset(t)
    ensures Sort(s, le) == Sort(t, le)
  {
    SortOrders(s, le);
    SortOrders(t, le);
    forall x ensures x in Sort(s, le) <==> x in s { SameElements(Sort(s, le), s, x); }
    OrderedUnique(Sort(s, le), Sort(t, le), le);
  }
}
