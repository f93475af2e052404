/**
  How many bytes a prompt takes, counted over UTF-16 code units, and the token bound built on it.
  The reference points are the two encodings themselves: UTF-16 (section 2.1 of RFC 2781) and
  UTF-8 (section 3 of RFC 3629).
 */
module ModelAdmission {
  import opened Prelude
  import Utf8

  type CodeUnit = u: int | 0 <= u < 0x10000

  type Scalar = Utf8.Scalar

  predicate High(u: CodeUnit) { 0xD800 <= u <= 0xDBFF }

  predicate Low(u: CodeUnit) { 0xDC00 <= u <= 0xDFFF }

  /** The scalar value a surrogate pair stands for. */
  function Paired(h: int, l: int): (p: Scalar)
    requires 0xD800 <= h <= 0xDBFF && 0xDC00 <= l <= 0xDFFF
    ensures 0x10000 <= p && Units(p) == [h, l]
  {
    0x10000 + (h - 0xD800) * 0x400 + (l - 0xDC00)
  }

  // ---- UTF-16 ---------------------------------------------------------------------------------------

  function Units(p: Scalar): (r: seq<CodeUnit>)
    ensures 1 <= |r| <= 2
  {
    if p < 0x10000 then [p]
    else
      var v := p - 0x10000;
      [0xD800 + v / 0x400, 0xDC00 + v % 0x400]
  }

  /** Outside the first plane, a high and a low surrogate with ten bits each. */
  lemma UnitsExactly(p: Scalar)
    ensures if p < 0x10000 then Units(p) == [p]
            else |Units(p)| == 2 && High(Units(p)[0]) && Low(Units(p)[1])
                 && p == 0x10000 + (Units(p)[0] as int - 0xD800) * 0x400 + (Units(p)[1] as int - 0xDC00)
  {
  }

  function Utf16(points: seq<Scalar>): seq<CodeUnit> {
    if points == [] then [] else Units(points[0]) + Utf16(points[1..])
  }

  /** The string opens with a surrogate pair. */
  predicate PairAt(s: seq<CodeUnit>) { |s| >= 2 && High(s[0]) && Low(s[1]) }

  /** Every high surrogate is followed by a low one, and every low one preceded by a high one. */
  predicate WellFormed(s: seq<CodeUnit>) {
    s == [] || (if PairAt(s) then WellFormed(s[2..]) else !High(s[0]) && !Low(s[0]) && WellFormed(s[1..]))
  }

  /** What a standard encoder reads: a pair is one scalar value, a lone surrogate becomes U+FFFD. */
  function Decode(s: seq<CodeUnit>): seq<Scalar> {
    if s == [] then []
    else if PairAt(s) then [Paired(s[0], s[1])] + Decode(s[2..])
    else [if High(s[0]) || Low(s[0]) then 0xFFFD else s[0]] + Decode(s[1..])
  }

  /** The well-formed strings are the UTF-16 encodings, and decoding undoes the encoding. */
  lemma {:induction false} DecodeInverse(s: seq<CodeUnit>)
    requires WellFormed(s)
    ensures Utf16(Decode(s)) == s
  {
    if s != [] {
      if PairAt(s) {
        DecodeInverse(s[2..]);
        var p := Paired(s[0], s[1]);
        assert Decode(s)[1..] == Decode(s[2..]);
        assert s == Units(p) + s[2..];
      } else {
        DecodeInverse(s[1..]);
        assert Decode(s)[1..] == Decode(s[1..]);
        assert s == [s[0]] + s[1..];
      }
    }
  }

  lemma {:induction false} EncodeInverse(points: seq<Scalar>)
    ensures WellFormed(Utf16(points)) && Decode(Utf16(points)) == points
  {
    if points != [] {
      var p, rest := points[0], Utf16(points[1..]);
      var s := Utf16(points);
      EncodeInverse(points[1..]);
      assert s == Units(p) + rest;
      if p < 0x10000 {
        assert s[0] == p && s[1..] == rest;
      } else {
        assert PairAt(s) && s[2..] == rest;
      }
    }
  }

  // ---- The byte count --------------------------------------------------------------------------------------

  /** The count as the scan makes it: a high surrogate takes the unit after it along, whatever that is. */
  function ByteLength(s: seq<CodeUnit>): nat {
    if s == [] then 0
    else if s[0] < 0x80 then 1 + ByteLength(s[1..])
    else if s[0] < 0x800 then 2 + ByteLength(s[1..])
    else if High(s[0]) then 4 + (if |s| == 1 then 0 else ByteLength(s[2..]))
    else 3 + ByteLength(s[1..])
  }

  method Utf8ByteLength(s: seq<CodeUnit>) returns (bytes: nat)
    ensures bytes == ByteLength(s)
    ensures WellFormed(s) ==> bytes == |Utf8.Encode(Decode(s))|
  {
    bytes := 0;
    var i := 0;
    assert s[0..] == s;
    while i < |s|
      invariant 0 <= i
      invariant ByteLength(s) == bytes + if i < |s| then ByteLength(s[i..]) else 0
    {
      var code := s[i];
      assert i + 1 <= |s| && s[i..][1..] == s[i + 1..];
      assert i + 2 <= |s| ==> s[i..][2..] == s[i + 2..];
      if code < 0x80 {
        bytes := bytes + 1;
      } else if code < 0x800 {
        bytes := bytes + 2;
      } else if High(code) {
        bytes := bytes + 4;
        i := i + 1;
      } else {
        bytes := bytes + 3;
      }
      i := i + 1;
    }
    if WellFormed(s) { WellFormedLength(s); }
  }

  /** The length of the UTF-8 a standard encoder makes of the string. */
  function Encoded(s: seq<CodeUnit>): nat { |Utf8.Encode(Decode(s))| }

  function UnitBytes(u: CodeUnit): nat { if u < 0x80 then 1 else if u < 0x800 then 2 else 3 }

  lemma EncodedStep(s: seq<CodeUnit>)
    requires s != []
    ensures Encoded(s) == if PairAt(s) then 4 + Encoded(s[2..]) else UnitBytes(s[0]) + Encoded(s[1..])
  {
    if PairAt(s) {
      assert Decode(s)[1..] == Decode(s[2..]);
    } else {
      assert Decode(s)[1..] == Decode(s[1..]);
    }
  }

  /** The scan ends by reaching past a high surrogate that is the last unit. */
  predicate EndsOpen(s: seq<CodeUnit>) {
    s != [] && (if High(s[0]) then |s| == 1 || EndsOpen(s[2..]) else EndsOpen(s[1..]))
  }

  /**
    What one unpaired high surrogate at the head costs: it is counted four bytes together with the
    unit after it, where the encoder spends three and then that unit's own.
   */
  function HeadLoss(s: seq<CodeUnit>): nat
    requires s != []
  {
    if !High(s[0]) || |s| == 1 || PairAt(s) || PairAt(s[1..]) then 0 else UnitBytes(s[1]) - 1
  }

  /** The bytes of the units that unpaired high surrogates take along uncounted. */
  function Loss(s: seq<CodeUnit>): nat {
    if s == [] then 0
    else HeadLoss(s) + if !High(s[0]) then Loss(s[1..]) else if |s| == 1 then 0 else Loss(s[2..])
  }

  lemma {:induction false} Drift(s: seq<CodeUnit>)
    ensures ByteLength(s) + Loss(s) == Encoded(s) + if EndsOpen(s) then 1 else 0
    decreases |s|
  {
    if s != [] {
      EncodedStep(s);
      if !High(s[0]) {
        Drift(s[1..]);
      } else if |s| > 1 {
        Drift(s[2..]);
        if !PairAt(s) {
          EncodedStep(s[1..]);
          assert s[1..][1..] == s[2..];
          if PairAt(s[1..]) {
            assert s[1..][2..] == s[2..][1..];
            EncodedStep(s[2..]);
          }
        }
      }
    }
  }

  /** The count is the encoded length of exactly these strings; on every other string it is off. */
  lemma ByteLengthExactly(s: seq<CodeUnit>)
    ensures ByteLength(s) == Encoded(s) <==> Loss(s) == if EndsOpen(s) then 1 else 0
    ensures ByteLength(s) >= Encoded(s) <==> Loss(s) <= if EndsOpen(s) then 1 else 0
  {
    Drift(s);
  }

  // ---- The same, unit by unit ------------------------------------------------------------------------------

  /** The units the scan goes on by at the head: two at a high surrogate, whatever follows it. */
  function Stride(s: seq<CodeUnit>): nat
    requires s != []
  {
    if High(s[0]) then 2 else 1
  }

  /** The scan comes to stand at unit `i`. */
  predicate Meets(s: seq<CodeUnit>, i: nat)
    decreases |s|
  {
    s != [] && (i == 0 || (Stride(s) <= i && Stride(s) <= |s| && Meets(s[Stride(s)..], i - Stride(s))))
  }

  /** A high surrogate that begins no pair, with a unit after it. */
  predicate Lone(s: seq<CodeUnit>, i: nat) {
    i + 1 < |s| && High(s[i]) && !PairAt(s[i..])
  }

  /** Where the scan stands at one, what follows is ASCII or a surrogate pair. */
  predicate Lossless(s: seq<CodeUnit>, i: nat) {
    Meets(s, i) && Lone(s, i) ==> s[i + 1] < 0x80 || PairAt(s[i + 1..])
  }

  /** The scan stands at one that a unit of two bytes follows. */
  predicate LosesOne(s: seq<CodeUnit>, i: nat) {
    Meets(s, i) && Lone(s, i) && 0x80 <= s[i + 1] < 0x800
  }

  ghost predicate LosesNone(s: seq<CodeUnit>) { forall i: nat :: Lossless(s, i) }

  ghost predicate LosesOnce(s: seq<CodeUnit>) {
    exists i: nat :: LosesOne(s, i) && forall j: nat :: j != i ==> Lossless(s, j)
  }

  lemma Further(s: seq<CodeUnit>, i: nat)
    requires s != [] && Stride(s) <= |s|
    ensures var n := Stride(s);
      && (Lossless(s, i + n) <==> Lossless(s[n..], i))
      && (LosesOne(s, i + n) <==> LosesOne(s[n..], i))
  {
    var n := Stride(s);
    if i <= |s[n..]| { assert s[n..][i..] == s[i + n..]; }
    if i + 1 <= |s[n..]| { assert s[n..][i + 1..] == s[i + 1 + n..]; }
  }

  /** At the head: what is lost there is nothing, one byte or two. */
  lemma AtHead(s: seq<CodeUnit>)
    requires s != []
    ensures Lossless(s, 0) <==> HeadLoss(s) == 0
    ensures LosesOne(s, 0) <==> HeadLoss(s) == 1
    ensures forall i: nat :: 0 < i < Stride(s) || (i > 0 && Stride(s) > |s|) ==> Lossless(s, i) && !LosesOne(s, i)
  {
    assert s[0..] == s;
  }

  lemma NoneFurther(s: seq<CodeUnit>)
    requires s != [] && Stride(s) <= |s|
    ensures LosesNone(s) <==> Lossless(s, 0) && LosesNone(s[Stride(s)..])
  {
    var n := Stride(s);
    AtHead(s);
    if Lossless(s, 0) && LosesNone(s[n..]) {
      forall i: nat ensures Lossless(s, i) {
        if i >= n {
          Further(s, i - n);
          assert Lossless(s[n..], i - n);
        }
      }
    }
    if LosesNone(s) {
      forall i: nat ensures Lossless(s[n..], i) {
        Further(s, i);
        assert Lossless(s, i + n);
      }
    }
  }

  lemma {:induction false} NoLossExactly(s: seq<CodeUnit>)
    ensures Loss(s) == 0 <==> LosesNone(s)
    decreases |s|
  {
    if s != [] {
      AtHead(s);
      if Stride(s) <= |s| {
        NoLossExactly(s[Stride(s)..]);
        NoneFurther(s);
      }
    }
  }

  lemma {:induction false} OneLossExactly(s: seq<CodeUnit>)
    ensures Loss(s) == 1 <==> LosesOnce(s)
    decreases |s|
  {
    if s != [] {
      AtHead(s);
      if Stride(s) <= |s| {
        var rest := s[Stride(s)..];
        OneLossExactly(rest);
        NoLossExactly(rest);
        if LosesOnce(s) { OncePart(s); }
        if LosesOne(s, 0) && LosesNone(rest) { OnceHead(s); }
        if Lossless(s, 0) && LosesOnce(rest) { OnceLater(s); }
      }
    }
  }

  /** The one place of the string is its head, or lies further on. */
  lemma OncePart(s: seq<CodeUnit>)
    requires s != [] && Stride(s) <= |s| && LosesOnce(s)
    ensures (LosesOne(s, 0) && LosesNone(s[Stride(s)..])) || (Lossless(s, 0) && LosesOnce(s[Stride(s)..]))
  {
    var n := Stride(s);
    AtHead(s);
    var i: nat :| LosesOne(s, i) && forall j: nat :: j != i ==> Lossless(s, j);
    forall j: nat | j + n != i ensures Lossless(s[n..], j) {
      Further(s, j);
      assert Lossless(s, j + n);
    }
    if i > 0 {
      Further(s, i - n);
      assert LosesOne(s[n..], i - n);
    }
  }

  lemma OnceHead(s: seq<CodeUnit>)
    requires s != [] && Stride(s) <= |s| && LosesOne(s, 0) && LosesNone(s[Stride(s)..])
    ensures LosesOnce(s)
  {
    var n := Stride(s);
    AtHead(s);
    forall j: nat | j != 0 ensures Lossless(s, j) {
      if j >= n {
        Further(s, j - n);
        assert Lossless(s[n..], j - n);
      }
    }
  }

  /** What is lossless further on is lossless here. */
  lemma LosslessBack(s: seq<CodeUnit>, j: nat)
    requires s != [] && Stride(s) <= |s| && Lossless(s, 0) && (j >= Stride(s) ==> Lossless(s[Stride(s)..], j - Stride(s)))
    ensures Lossless(s, j)
  {
    AtHead(s);
    if j >= Stride(s) { Further(s, j - Stride(s)); }
  }

  lemma OnceLater(s: seq<CodeUnit>)
    requires s != [] && Stride(s) <= |s| && Lossless(s, 0) && LosesOnce(s[Stride(s)..])
    ensures LosesOnce(s)
  {
    var n := Stride(s);
    var i: nat :| LosesOne(s[n..], i) && forall j: nat :: j != i ==> Lossless(s[n..], j);
    forall j: nat | j != i + n ensures Lossless(s, j) { LosslessBack(s, j); }
    Further(s, i);
    assert LosesOne(s, i + n);
  }

  /**
    The count is exact, on a string that does not end open, if and only if each unpaired high
    surrogate the scan stands at is followed by ASCII or by a surrogate pair; on one that does, if
    and only if that fails once, before a unit of two bytes.
   */
  lemma ExactOn(s: seq<CodeUnit>)
    ensures !EndsOpen(s) ==> (ByteLength(s) == Encoded(s) <==> LosesNone(s))
    ensures EndsOpen(s) ==> (ByteLength(s) == Encoded(s) <==> LosesOnce(s))
    ensures ByteLength(s) >= Encoded(s) <==> LosesNone(s) || (EndsOpen(s) && LosesOnce(s))
  {
    ByteLengthExactly(s);
    NoLossExactly(s);
    OneLossExactly(s);
  }

  /** An unpaired high surrogate before a three-byte unit: four bytes counted, six needed. */
  lemma CountsTooFew()
    ensures var s: seq<CodeUnit> := [0xD800, 0x4E00]; ByteLength(s) == 4 && Encoded(s) == 6
  {
    var s: seq<CodeUnit> := [0xD800, 0x4E00];
    Drift(s);
    assert s[2..] == [];
    assert Loss(s) == 2;
  }

  lemma {:induction false} WellFormedLoss(s: seq<CodeUnit>)
    requires WellFormed(s)
    ensures Loss(s) == 0 && !EndsOpen(s)
  {
    if s != [] {
      if PairAt(s) { WellFormedLoss(s[2..]); } else { WellFormedLoss(s[1..]); }
    }
  }

  lemma WellFormedLength(s: seq<CodeUnit>)
    requires WellFormed(s)
    ensures ByteLength(s) == |Utf8.Encode(Decode(s))|
  {
    Drift(s);
    WellFormedLoss(s);
  }

  /** For every sequence of scalar values, the count of its UTF-16 is the length of its UTF-8. */
  lemma CountsUtf8(points: seq<Scalar>)
    ensures ByteLength(Utf16(points)) == |Utf8.Encode(points)|
  {
    EncodeInverse(points);
    WellFormedLength(Utf16(points));
  }

  // ---- Concatenation ---------------------------------------------------------------------------------------

  /** Appending: an open end takes the first unit of what follows along. */
  lemma {:induction false} ByteLengthConcat(a: seq<CodeUnit>, b: seq<CodeUnit>)
    ensures ByteLength(a + b) == ByteLength(a) + ByteLength(if EndsOpen(a) && b != [] then b[1..] else b)
    decreases |a|
  {
    if a == [] {
      assert a + b == b;
    } else if !High(a[0]) {
      assert (a + b)[1..] == a[1..] + b;
      ByteLengthConcat(a[1..], b);
    } else if |a| > 1 {
      assert (a + b)[2..] == a[2..] + b;
      ByteLengthConcat(a[2..], b);
    } else if b != [] {
      assert (a + b)[2..] == b[1..];
    } else {
      assert a + b == a;
    }
  }

  lemma Additive(a: seq<CodeUnit>, b: seq<CodeUnit>)
    requires WellFormed(a)
    ensures ByteLength(a + b) == ByteLength(a) + ByteLength(b)
  {
    WellFormedLoss(a);
    ByteLengthConcat(a, b);
  }

  lemma {:induction false} DropFirst(s: seq<CodeUnit>)
    requires s != []
    ensures ByteLength(s[1..]) <= ByteLength(s)
    decreases |s|
  {
    if High(s[0]) && |s| > 1 {
      assert s[1..][1..] == s[2..];
      if High(s[1]) && |s| > 2 {
        assert s[1..][2..] == s[2..][1..];
        DropFirst(s[2..]);
      }
    }
  }

  /** Cutting a string anywhere, even inside a pair, never lowers the summed count. */
  lemma CutNeverLowers(a: seq<CodeUnit>, b: seq<CodeUnit>)
    ensures ByteLength(a) <= ByteLength(a + b) <= ByteLength(a) + ByteLength(b)
  {
    ByteLengthConcat(a, b);
    if b != [] { DropFirst(b); }
  }

  // ---- The token bound ----------------------------------------------------------------------------------------

  const FRAMING_RESERVE := 256

  const DEFAULT_OUTPUT_RESERVE := 4096

  datatype Price = Price(inputPerMillion: real, outputPerMillion: real, contextWindow: Option<nat>)

  datatype Estimate = Estimate(inputTokens: nat, outputTokens: nat, totalTokens: nat, cost: real, contextWindow: Option<nat>)

  /** Two thirds of the bytes, rounded up, and the reserve. */
  function InputTokens(bytes: nat): nat { (2 * bytes + 2) / 3 + FRAMING_RESERVE }

  lemma Millionth(tokens: real, perMillion: real)
    ensures 1000000.0 * (tokens / 1000000.0 * perMillion) == tokens * perMillion
  {
    var each := tokens / 1000000.0;
    assert tokens == 1000000.0 * each;
    assert 1000000.0 * (each * perMillion) == (1000000.0 * each) * perMillion;
  }

  /** What the tokens cost, each at its price for a million; nothing where no price is known. */
  predicate Costs(cost: real, input: nat, output: nat, price: Option<Price>) {
    match price
    case None => cost == 0.0
    case Some(p) => 1000000.0 * cost == input as real * p.inputPerMillion + output as real * p.outputPerMillion
  }

  method CostOf(input: nat, output: nat, price: Option<Price>) returns (cost: real)
    ensures Costs(cost, input, output, price)
  {
    if price.None? { return 0.0; }
    var inputCost := input as real / 1000000.0 * price.value.inputPerMillion;
    var outputCost := output as real / 1000000.0 * price.value.outputPerMillion;
    Millionth(input as real, price.value.inputPerMillion);
    Millionth(output as real, price.value.outputPerMillion);
    cost := inputCost + outputCost;
  }

  /** `schema` is the rendered schema, absent when the request has none. */
  method EstimateConservativeTokens(
    system: seq<CodeUnit>, user: seq<CodeUnit>, schema: Option<seq<CodeUnit>>, outputReserve: Option<int>, price: Option<Price>)
    returns (e: Estimate)
    ensures e.inputTokens == InputTokens(ByteLength(system) + ByteLength(user)
                                         + if schema.Some? then ByteLength(schema.value) else 0)
    ensures e.outputTokens >= 1 && e.totalTokens == e.inputTokens + e.outputTokens
    ensures outputReserve.None? ==> e.outputTokens == DEFAULT_OUTPUT_RESERVE
    ensures outputReserve.Some? && outputReserve.value >= 1 ==> e.outputTokens == outputReserve.value
    ensures outputReserve.Some? && outputReserve.value < 1 ==> e.outputTokens == 1
    ensures Costs(e.cost, e.inputTokens, e.outputTokens, price)
    ensures e.contextWindow == if price.Some? then price.value.contextWindow else None
  {
    var systemBytes := Utf8ByteLength(system);
    var userBytes := Utf8ByteLength(user);
    var schemaBytes := 0;
    if schema.Some? { schemaBytes := Utf8ByteLength(schema.value); }
    var input := InputTokens(systemBytes + userBytes + schemaBytes);
    var reserve := if outputReserve.Some? then outputReserve.value else DEFAULT_OUTPUT_RESERVE;
    var output := if reserve < 1 then 1 else reserve;
    var cost := CostOf(input, output, price);
    e := Estimate(input, output, input + output, cost, if price.Some? then price.value.contextWindow else None);
  }

  /** The least number of tokens at a byte and a half each, beyond the reserve. */
  lemma InputTokensLeast(bytes: nat, n: nat)
    ensures 2 * bytes <= 3 * n <==> InputTokens(bytes) <= n + FRAMING_RESERVE
  {
  }

  /** A longer prompt is never estimated lower. */
  lemma EstimateMonotone(a: seq<CodeUnit>, b: seq<CodeUnit>, rest: nat)
    ensures InputTokens(ByteLength(a) + rest) <= InputTokens(ByteLength(a + b) + rest)
  {
    CutNeverLowers(a, b);
  }

  /** Splitting a prompt costs at least the second request's reserve, wherever it is cut. */
  lemma SplitNeverLowers(a: seq<CodeUnit>, b: seq<CodeUnit>)
    ensures InputTokens(ByteLength(a + b)) + FRAMING_RESERVE <= InputTokens(ByteLength(a)) + InputTokens(ByteLength(b))
  {
    CutNeverLowers(a, b);
    var x, y := ByteLength(a), ByteLength(b);
    assert InputTokens(ByteLength(a + b)) <= InputTokens(x + y);
  }

  /** On a well-formed cut it costs that and at most one token more. */
  lemma SplitCost(a: seq<CodeUnit>, b: seq<CodeUnit>)
    requires WellFormed(a)
    ensures var whole, parts := InputTokens(ByteLength(a + b)), InputTokens(ByteLength(a)) + InputTokens(ByteLength(b));
      whole + FRAMING_RESERVE <= parts <= whole + FRAMING_RESERVE + 1
  {
    Additive(a, b);
  }
}
