/** The order `<` gives strings. */
module Strings {
  /** `a` comes before `b`, compared character by character. */
  predicate Before(a: string, b: string) {
    if b == [] then false
    else if a == [] then true
    else a[0] < b[0] || (a[0] == b[0] && Before(a[1..], b[1..]))
  }

  lemma {:induction false} BeforeTotal(a: string, b: string)
    ensures Before(a, b) || Before(b, a) || a == b
    ensures !(Before(a, b) && Before(b, a))
    ensures !Before(a, a)
  {
    if a != [] && b != [] {
      BeforeTotal(a[1..], b[1..]);
      if a[0] == b[0] && a[1..] == b[1..] { assert a == [a[0]] + a[1..] == b; }
    }
    if a != [] { BeforeIrreflexive(a); }
  }

  lemma {:induction false} BeforeIrreflexive(a: string)
    ensures !Before(a, a)
  {
    if a != [] { BeforeIrreflexive(a[1..]); }
  }

  lemma {:induction false} BeforeTransitive(a: string, b: string, c: string)
    requires Before(a, b) && Before(b, c)
    ensures Before(a, c)
  {
    if a != [] && a[0] == b[0] == c[0] { BeforeTransitive(a[1..], b[1..], c[1..]); }
  }

  /** They agree up to a place where the first ends or has the smaller character. */
  predicate DiffersAt(a: string, b: string, p: nat) {
    p <= |a| && p < |b| && a[..p] == b[..p] && (p == |a| || a[p] < b[p])
  }

  lemma {:induction false} BeforeExactly(a: string, b: string)
    ensures Before(a, b) <==> exists p: nat :: DiffersAt(a, b, p)
  {
    if a == [] || b == [] {
      if b != [] { assert DiffersAt(a, b, 0); }
    } else {
      BeforeExactly(a[1..], b[1..]);
      if a[0] < b[0] { assert DiffersAt(a, b, 0); }
      if a[0] == b[0] && Before(a[1..], b[1..]) {
        var p: nat :| DiffersAt(a[1..], b[1..], p);
        assert a[..p + 1] == [a[0]] + a[1..][..p] && b[..p + 1] == [b[0]] + b[1..][..p];
        assert DiffersAt(a, b, p + 1);
      }
      if p: nat :| DiffersAt(a, b, p) && p > 0 {
        assert a[0] == a[..p][0] == b[..p][0] == b[0];
        assert a[1..][..p - 1] == a[..p][1..] && b[1..][..p - 1] == b[..p][1..];
        assert DiffersAt(a[1..], b[1..], p - 1);
      }
    }
  }
}
