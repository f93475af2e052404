/** UTF-8 (section 3 of RFC 3629), and how a decoder reads bytes that are not all of it. */
module Utf8 {
  type Byte = b: int | 0 <= b < 0x100

  /** A Unicode scalar value: any code point that is not a surrogate. */
  type Scalar = p: int | 0 <= p < 0xD800 || 0xDFFF < p <= 0x10FFFF

  const REPLACEMENT: Scalar := 0xFFFD

  function Bytes(p: Scalar): (r: seq<Byte>)
    ensures 1 <= |r| <= 4
  {
    if p < 0x80 then [p]
    else if p < 0x800 then [0xC0 + p / 0x40, 0x80 + p % 0x40]
    else if p < 0x10000 then [0xE0 + p / 0x1000, 0x80 + p / 0x40 % 0x40, 0x80 + p % 0x40]
    else [0xF0 + p / 0x40000, 0x80 + p / 0x1000 % 0x40, 0x80 + p / 0x40 % 0x40, 0x80 + p % 0x40]
  }

  function Encode(points: seq<Scalar>): seq<Byte> {
    if points == [] then [] else Bytes(points[0]) + Encode(points[1..])
  }

  predicate Tail(b: Byte) { 0x80 <= b <= 0xBF }

  /** The second bytes that a three-byte lead allows: no overlong form, no surrogate. */
  predicate SecondOfThree(lead: Byte, b: Byte) {
    Tail(b) && (lead == 0xE0 ==> b >= 0xA0) && (lead == 0xED ==> b <= 0x9F)
  }

  predicate SecondOfFour(lead: Byte, b: Byte) {
    Tail(b) && (lead == 0xF0 ==> b >= 0x90) && (lead == 0xF4 ==> b <= 0x8F)
  }

  function Two(a: int, b: int): int { (a - 0xC0) * 0x40 + (b - 0x80) }

  function Three(a: int, b: int, c: int): int { (a - 0xE0) * 0x1000 + (b - 0x80) * 0x40 + (c - 0x80) }

  function Four(a: int, b: int, c: int, d: int): int {
    (a - 0xF0) * 0x40000 + (b - 0x80) * 0x1000 + (c - 0x80) * 0x40 + (d - 0x80)
  }

  /**
    The first scalar value and the bytes it takes; a sequence that breaks off stands for one
    replacement, as far as it was a sequence.
   */
  function First(s: seq<Byte>): (r: (Scalar, nat))
    requires s != []
    ensures 1 <= r.1 <= |s|
  {
    var b := s[0];
    if b < 0x80 then (b, 1)
    else if 0xC2 <= b <= 0xDF then
      if |s| > 1 && Tail(s[1]) then (Two(b, s[1]), 2) else (REPLACEMENT, 1)
    else if 0xE0 <= b <= 0xEF then
      if |s| <= 1 || !SecondOfThree(b, s[1]) then (REPLACEMENT, 1)
      else if |s| <= 2 || !Tail(s[2]) then (REPLACEMENT, 2)
      else (Three(b, s[1], s[2]), 3)
    else if 0xF0 <= b <= 0xF4 then
      if |s| <= 1 || !SecondOfFour(b, s[1]) then (REPLACEMENT, 1)
      else if |s| <= 2 || !Tail(s[2]) then (REPLACEMENT, 2)
      else if |s| <= 3 || !Tail(s[3]) then (REPLACEMENT, 3)
      else (Four(b, s[1], s[2], s[3]), 4)
    else (REPLACEMENT, 1)
  }

  function Decode(s: seq<Byte>): seq<Scalar>
    decreases |s|
  {
    if s == [] then [] else [First(s).0] + Decode(s[First(s).1..])
  }

  // ---- Whole characters --------------------------------------------------------------------------------

  lemma TwoWhole(p: Scalar)
    requires 0x80 <= p < 0x800
    ensures var s := Bytes(p); 0xC2 <= s[0] <= 0xDF && Tail(s[1]) && Two(s[0], s[1]) == p
  {
  }

  lemma ThreeWhole(p: Scalar)
    requires 0x800 <= p < 0x10000
    ensures var s := Bytes(p);
      0xE0 <= s[0] <= 0xEF && SecondOfThree(s[0], s[1]) && Tail(s[2]) && Three(s[0], s[1], s[2]) == p
  {
    var high := p / 0x40;
    assert p == high * 0x40 + p % 0x40 && high == high / 0x40 * 0x40 + high % 0x40 && high / 0x40 == p / 0x1000;
  }

  lemma FourWhole(p: Scalar)
    requires 0x10000 <= p
    ensures var s := Bytes(p);
      0xF0 <= s[0] <= 0xF4 && SecondOfFour(s[0], s[1]) && Tail(s[2]) && Tail(s[3]) && Four(s[0], s[1], s[2], s[3]) == p
  {
    var high := p / 0x40;
    var top := high / 0x40;
    assert p == high * 0x40 + p % 0x40 && high == top * 0x40 + high % 0x40 && top == top / 0x40 * 0x40 + top % 0x40;
    assert top == p / 0x1000 && top / 0x40 == p / 0x40000;
  }

  /** Each byte after the first holds six bits, and the first says how many there are and holds the rest. */
  lemma BytesExactly(p: Scalar)
    ensures var s := Bytes(p); var rest := seq(|s|, (i: nat) requires i < |s| => s[i] as int - 0x80);
      && (forall i :: 1 <= i < |s| ==> 0 <= rest[i] < 64)
      && match |s|
         case 1 => s[0] == p < 0x80
         case 2 => 0xC0 <= s[0] < 0xE0 && 0x80 <= p == (s[0] - 0xC0) as int * 64 + rest[1]
         case 3 => 0xE0 <= s[0] < 0xF0 && 0x800 <= p == ((s[0] - 0xE0) as int * 64 + rest[1]) * 64 + rest[2]
         case _ => 0xF0 <= s[0] < 0xF8 && 0x10000 <= p == (((s[0] - 0xF0) as int * 64 + rest[1]) * 64 + rest[2]) * 64 + rest[3]
  {
    if 0x80 <= p < 0x800 { TwoWhole(p); }
    else if 0x800 <= p < 0x10000 { ThreeWhole(p); }
    else if 0x10000 <= p { FourWhole(p); }
  }

  lemma FirstWhole(p: Scalar, rest: seq<Byte>)
    ensures First(Bytes(p) + rest) == (p, |Bytes(p)|)
  {
    var s := Bytes(p) + rest;
    assert forall i :: 0 <= i < |Bytes(p)| ==> s[i] == Bytes(p)[i];
    if 0x80 <= p < 0x800 { TwoWhole(p); }
    else if 0x800 <= p < 0x10000 { ThreeWhole(p); }
    else if 0x10000 <= p { FourWhole(p); }
  }

  lemma DecodeFirst(p: Scalar, more: seq<Byte>)
    ensures Decode(Bytes(p) + more) == [p] + Decode(more)
  {
    FirstWhole(p, more);
    assert (Bytes(p) + more)[|Bytes(p)|..] == more;
  }

  lemma Regroup(p: Scalar, rest: seq<Scalar>, out: seq<Scalar>, first: seq<Byte>, encoded: seq<Byte>, more: seq<Byte>)
    ensures [p] + (rest + out) == [p] + rest + out
    ensures first + (encoded + more) == first + encoded + more
  {
  }

  /** Whole characters decode to themselves, whatever follows. */
  lemma {:induction false} DecodeWhole(points: seq<Scalar>, rest: seq<Byte>)
    ensures Decode(Encode(points) + rest) == points + Decode(rest)
  {
    if points == [] {
      assert Encode(points) + rest == rest;
    } else {
      calc {
        Decode(Encode(points) + rest);
      == { Regroup(points[0], points[1..], Decode(rest), Bytes(points[0]), Encode(points[1..]), rest); }
        Decode(Bytes(points[0]) + (Encode(points[1..]) + rest));
      == { DecodeFirst(points[0], Encode(points[1..]) + rest); }
        [points[0]] + Decode(Encode(points[1..]) + rest);
      == { DecodeWhole(points[1..], rest); }
        [points[0]] + (points[1..] + Decode(rest));
      == { assert points == [points[0]] + points[1..]; }
        points + Decode(rest);
      }
    }
  }

  lemma {:induction false} EncodeConcat(a: seq<Scalar>, b: seq<Scalar>)
    ensures Encode(a + b) == Encode(a) + Encode(b)
  {
    if a == [] {
      assert a + b == b;
    } else {
      assert (a + b)[1..] == a[1..] + b;
      EncodeConcat(a[1..], b);
    }
  }

  // ---- A cut anywhere --------------------------------------------------------------------------------------

  /** Nothing follows, or an ASCII character does. */
  predicate Ends(rest: seq<Byte>) { rest != [] ==> rest[0] < 0x80 }

  /** A character cut apart reads as one replacement. */
  lemma FirstCut(p: Scalar, k: nat, rest: seq<Byte>)
    requires 0 < k < |Bytes(p)| && Ends(rest)
    ensures p >= 0x80 && First(Bytes(p)[..k] + rest) == (REPLACEMENT, k)
  {
    var s := Bytes(p)[..k] + rest;
    assert forall i :: 0 <= i < k ==> s[i] == Bytes(p)[i];
    assert rest != [] ==> s[k] == rest[0];
    if p < 0x800 { TwoWhole(p); }
    else if p < 0x10000 { ThreeWhole(p); }
    else { FourWhole(p); }
  }

  /** The characters that lie whole within the first `k` bytes. */
  function Whole(points: seq<Scalar>, k: nat): (j: nat)
    ensures j <= |points|
  {
    if points == [] || k < |Bytes(points[0])| then 0 else 1 + Whole(points[1..], k - |Bytes(points[0])|)
  }

  function CutTail(points: seq<Scalar>, k: nat): seq<Scalar> {
    if k == |Encode(points[..Whole(points, k)])| then [] else [REPLACEMENT]
  }

  lemma FrontLength(points: seq<Scalar>, j: nat)
    requires j < |points|
    ensures |Encode(points[..j + 1])| == |Bytes(points[0])| + |Encode(points[1..][..j])|
  {
    assert points[..j + 1][1..] == points[1..][..j];
  }

  lemma {:induction false} WholeFits(points: seq<Scalar>, k: nat)
    requires k <= |Encode(points)|
    ensures var j := Whole(points, k);
      && |Encode(points[..j])| <= k
      && (j < |points| ==> k < |Encode(points[..j])| + |Bytes(points[j])|)
      && (j == |points| <==> k == |Encode(points)|)
  {
    if points != [] {
      var n := |Bytes(points[0])|;
      if k >= n {
        WholeFits(points[1..], k - n);
        FrontLength(points, Whole(points[1..], k - n));
      }
    }
  }

  /**
    Any byte prefix of an encoding decodes to the characters that lie whole within it, and one
    replacement if it ends inside another, which is then not ASCII; what follows decodes on its own.
   */
  lemma DecodeCut(points: seq<Scalar>, k: nat, rest: seq<Byte>, s: seq<Byte>)
    requires k <= |Encode(points)| && Ends(rest) && s == Encode(points)[..k] + rest
    ensures Decode(s) == points[..Whole(points, k)] + (CutTail(points, k) + Decode(rest))
    ensures CutTail(points, k) != [] ==> Whole(points, k) < |points| && points[Whole(points, k)] >= 0x80
  {
    var cut := Broken(points, k);
    CutSplits(points, k, rest);
    BrokenDecodes(points, k, rest);
    DecodeSplit(points[..Whole(points, k)], cut + rest, s);
  }

  lemma DecodeSplit(front: seq<Scalar>, tail: seq<Byte>, s: seq<Byte>)
    requires s == Encode(front) + tail
    ensures Decode(s) == front + Decode(tail)
  {
    DecodeWhole(front, tail);
  }

  lemma BrokenDecodes(points: seq<Scalar>, k: nat, rest: seq<Byte>)
    requires k <= |Encode(points)| && Ends(rest)
    ensures Decode(Broken(points, k) + rest) == CutTail(points, k) + Decode(rest)
    ensures CutTail(points, k) != [] ==> Whole(points, k) < |points| && points[Whole(points, k)] >= 0x80
  {
    var j, cut := Whole(points, k), Broken(points, k);
    WholeFits(points, k);
    assert points[..|points|] == points;
    if cut != [] {
      DecodeTail(points[j], |cut|, rest);
    } else {
      assert cut + rest == rest && [] + Decode(rest) == Decode(rest);
    }
  }

  /** The bytes of the character that the cut runs through. */
  function Broken(points: seq<Scalar>, k: nat): seq<Byte>
    requires k <= |Encode(points)|
  {
    WholeFits(points, k);
    var j := Whole(points, k);
    if j == |points| then [] else Bytes(points[j])[..k - |Encode(points[..j])|]
  }

  lemma CutSplits(points: seq<Scalar>, k: nat, rest: seq<Byte>)
    requires k <= |Encode(points)|
    ensures Encode(points)[..k] + rest == Encode(points[..Whole(points, k)]) + (Broken(points, k) + rest)
  {
    CutAt(points, k);
    Reassociate(Encode(points)[..k], Encode(points[..Whole(points, k)]), Broken(points, k), rest);
  }

  lemma CutAt(points: seq<Scalar>, k: nat)
    requires k <= |Encode(points)|
    ensures Encode(points)[..k] == Encode(points[..Whole(points, k)]) + Broken(points, k)
  {
    var j := Whole(points, k);
    EncodeSplit(points, j);
    BrokenBytes(points, k);
    SliceOfBoth(Encode(points[..j]), Encode(points[j..]), k);
  }

  lemma EncodeSplit(points: seq<Scalar>, j: nat)
    requires j <= |points|
    ensures Encode(points) == Encode(points[..j]) + Encode(points[j..])
  {
    EncodeWhole(points, points[..j], points[j..]);
  }

  lemma EncodeWhole(points: seq<Scalar>, front: seq<Scalar>, back: seq<Scalar>)
    requires points == front + back
    ensures Encode(points) == Encode(front) + Encode(back)
  {
    EncodeConcat(front, back);
  }

  lemma BrokenBytes(points: seq<Scalar>, k: nat)
    requires k <= |Encode(points)|
    ensures var j := Whole(points, k); var n := k - |Encode(points[..j])|;
      0 <= n <= |Encode(points[j..])| && Encode(points[j..])[..n] == Broken(points, k)
  {
    var j := Whole(points, k);
    WholeFits(points, k);
    if j < |points| {
      EncodedFirst(points, j, k - |Encode(points[..j])|);
    } else {
      assert points[..j] == points;
    }
  }

  lemma SliceOfBoth(a: seq<Byte>, b: seq<Byte>, k: nat)
    requires |a| <= k <= |a + b|
    ensures (a + b)[..k] == a + b[..k - |a|]
  {
  }

  lemma EncodedFirst(points: seq<Scalar>, j: nat, n: nat)
    requires j < |points| && n <= |Bytes(points[j])|
    ensures n <= |Encode(points[j..])| && Encode(points[j..])[..n] == Bytes(points[j])[..n]
  {
    assert points[j..][0] == points[j];
  }

  lemma Reassociate(s: seq<Byte>, a: seq<Byte>, b: seq<Byte>, c: seq<Byte>)
    requires s == a + b
    ensures s + c == a + (b + c)
  {
  }

  lemma DecodeTail(p: Scalar, k: nat, rest: seq<Byte>)
    requires 0 < k < |Bytes(p)| && Ends(rest)
    ensures p >= 0x80 && Decode(Bytes(p)[..k] + rest) == [REPLACEMENT] + Decode(rest)
  {
    FirstCut(p, k, rest);
    assert (Bytes(p)[..k] + rest)[k..] == rest;
  }

  /** Whole characters, a cut, and whole characters again. */
  lemma DecodeJoined(a: seq<Scalar>, points: seq<Scalar>, k: nat, more: seq<Scalar>)
    requires k <= |Encode(points)| && Ends(Encode(more))
    ensures Decode(Encode(a) + Encode(points)[..k] + Encode(more))
         == a + (points[..Whole(points, k)] + (CutTail(points, k) + more))
  {
    var middle, rest := Encode(points)[..k], Encode(more);
    Reassociate(Encode(a) + middle, Encode(a), middle, rest);
    DecodeSplit(a, middle + rest, Encode(a) + middle + rest);
    DecodeCut(points, k, rest, middle + rest);
    DecodeExact(more);
  }

  lemma DecodeExact(points: seq<Scalar>)
    ensures Decode(Encode(points)) == points
  {
    DecodeWhole(points, []);
    assert Encode(points) + [] == Encode(points) && points + [] == points;
  }
}
