/** The outline of a JSON text: its brackets, its quotes, and its single line. */
module JsonShape {
  import opened JsonText

  // ---- Brackets and quotes --------------------------------------------------------------------------------

  /** Where a scan stands: how many brackets are open, and whether it is inside a string. */
  datatype Scan = Scan(depth: int, quoted: bool, escaped: bool)

  function At(depth: int): Scan { Scan(depth, false, false) }

  function Step(st: Scan, c: char): Scan {
    if st.quoted then
      if st.escaped then st.(escaped := false)
      else if c == '\\' then st.(escaped := true)
      else if c == '\"' then At(st.depth)
      else st
    else if c == '\"' then st.(quoted := true)
    else if c == '{' || c == '[' then st.(depth := st.depth + 1)
    else if c == '}' || c == ']' then st.(depth := st.depth - 1)
    else st
  }

  function Run(st: Scan, s: string): Scan
    decreases |s|
  {
    if s == [] then st else Run(Step(st, s[0]), s[1..])
  }

  function Min(a: int, b: int): int { if a < b then a else b }

  /** The fewest brackets open anywhere along the text. */
  function Lowest(st: Scan, s: string): int
    decreases |s|
  {
    if s == [] then st.depth else Min(st.depth, Lowest(Step(st, s[0]), s[1..]))
  }

  /** Every bracket and every quote the text opens, it closes. */
  predicate Balanced(s: string) { Run(At(0), s) == At(0) }

  /** Standing at depth `n`, the text ends there and never goes below it. */
  ghost predicate Nested(s: string, n: int) {
    Run(At(n), s) == At(n) && Lowest(At(n), s) >= n
  }

  lemma {:induction false} RunConcat(st: Scan, a: string, b: string)
    ensures Run(st, a + b) == Run(Run(st, a), b)
    ensures Lowest(st, a + b) == Min(Lowest(st, a), Lowest(Run(st, a), b))
    decreases |a|
  {
    if a == [] {
      assert a + b == b;
      LowestBelow(st, b);
    } else {
      assert (a + b)[1..] == a[1..] + b;
      RunConcat(Step(st, a[0]), a[1..], b);
    }
  }

  lemma LowestBelow(st: Scan, s: string)
    ensures Lowest(st, s) <= st.depth
  {
  }

  lemma {:induction false} PrefixDepth(st: Scan, s: string, k: nat)
    requires k <= |s|
    ensures Run(st, s[..k]).depth >= Lowest(st, s)
    decreases |s|
  {
    LowestBelow(st, s);
    if k > 0 {
      assert s[..k][1..] == s[1..][..k - 1];
      PrefixDepth(Step(st, s[0]), s[1..], k - 1);
    }
  }

  lemma NestedConcat(a: string, b: string, n: int)
    requires Nested(a, n) && Nested(b, n)
    ensures Nested(a + b, n)
  {
    RunConcat(At(n), a, b);
  }

  predicate Plain(c: char) { c != '\"' && c != '{' && c != '}' && c != '[' && c != ']' }

  lemma {:induction false} PlainNested(s: string, n: int)
    requires forall c :: c in s ==> Plain(c)
    ensures Nested(s, n)
  {
    if s != [] {
      assert s[0] in s;
      PlainNested(s[1..], n);
    }
  }

  lemma EscapedPair(c: char, tail: string, n: int)
    requires forall x :: x in tail ==> x != '\\' && x != '\"'
    ensures Run(Scan(n, true, false), ['\\', c] + tail) == Scan(n, true, false)
    ensures Lowest(Scan(n, true, false), ['\\', c] + tail) == n
  {
    InertStays(tail, n);
    var st := Scan(n, true, false);
    assert (['\\', c] + tail)[1..] == [c] + tail && ([c] + tail)[1..] == tail;
    assert Step(st, '\\') == Scan(n, true, true) && Step(Scan(n, true, true), c) == st;
  }

  /** Inside a string an escape leaves the scan where it was. */
  lemma EscapeStays(c: char, n: int)
    ensures Run(Scan(n, true, false), Escape(c)) == Scan(n, true, false)
    ensures Lowest(Scan(n, true, false), Escape(c)) == n
  {
    var st, e := Scan(n, true, false), Escape(c);
    if |e| == 1 {
      assert e[1..] == [];
    } else if |e| == 2 {
      EscapedPair(e[1], "", n);
      assert e == ['\\', e[1]] + "";
    } else {
      var tail := "00" + [HexDigit(c as int / 16), HexDigit(c as int % 16)];
      EscapedPair('u', tail, n);
      assert e == ['\\', 'u'] + tail;
    }
  }

  lemma {:induction false} InertStays(s: string, n: int)
    requires forall c :: c in s ==> c != '\\' && c != '\"'
    ensures Run(Scan(n, true, false), s) == Scan(n, true, false) && Lowest(Scan(n, true, false), s) == n
  {
    if s != [] {
      assert s[0] in s;
      forall c | c in s[1..] ensures c != '\\' && c != '\"' { assert c in s; }
      InertStays(s[1..], n);
    }
  }

  lemma {:induction false} EscapeAllStays(s: string, n: int)
    ensures Run(Scan(n, true, false), EscapeAll(s)) == Scan(n, true, false)
    ensures Lowest(Scan(n, true, false), EscapeAll(s)) == n
  {
    if s != [] {
      EscapeStays(s[0], n);
      EscapeAllStays(s[1..], n);
      RunConcat(Scan(n, true, false), Escape(s[0]), EscapeAll(s[1..]));
    }
  }

  lemma QuoteNested(s: string, n: int)
    ensures Nested(Quote(s), n)
  {
    var st := Scan(n, true, false);
    EscapeAllStays(s, n);
    RunConcat(st, EscapeAll(s), "\"");
    RunConcat(At(n), "\"", EscapeAll(s) + "\"");
    assert "\""[1..] == "";
    assert Quote(s) == "\"" + (EscapeAll(s) + "\"");
  }

  lemma WrapNested(opening: string, inner: string, closing: string, n: int)
    requires (opening == "{" && closing == "}") || (opening == "[" && closing == "]")
    requires Nested(inner, n + 1)
    ensures Nested(opening + inner + closing, n)
  {
    assert opening[1..] == "" && closing[1..] == "";
    RunConcat(At(n + 1), inner, closing);
    RunConcat(At(n), opening, inner + closing);
    assert opening + inner + closing == opening + (inner + closing);
  }

  lemma LiteralNested(d: Doc, n: int)
    requires d.NullDoc? || d.BoolDoc? || d.NumberDoc?
    ensures Nested(Render(d), n)
  {
    var text := Render(d);
    if d.NumberDoc? { NumberChars(d.number); }
    assert forall c :: c in text ==> Plain(c);
    PlainNested(text, n);
  }

  /** A rendered document closes what it opens, wherever it stands. */
  lemma {:induction false} RenderNested(d: Doc, n: int)
    ensures Nested(Render(d), n)
    decreases d, 1
  {
    match d
    case NullDoc => LiteralNested(d, n);
    case BoolDoc(flag) => LiteralNested(d, n);
    case NumberDoc(number) => LiteralNested(d, n);
    case TextDoc(text) => QuoteNested(text, n);
    case ListDoc(_) =>
      ItemsNested(d, 0, n + 1);
      WrapNested("[", RenderItems(d, 0), "]", n);
    case ObjectDoc(_) =>
      FieldsNested(d, 0, n + 1);
      WrapNested("{", RenderFields(d, 0), "}", n);
  }

  lemma {:induction false} ItemsNested(d: Doc, i: nat, n: int)
    requires d.ListDoc? && i <= |d.items|
    ensures Nested(RenderItems(d, i), n)
    decreases d, 0, |d.items| - i
  {
    if i < |d.items| {
      var comma := Comma(i);
      PlainNested(comma, n);
      RenderNested(d.items[i], n);
      ItemsNested(d, i + 1, n);
      NestedConcat(comma, Render(d.items[i]), n);
      NestedConcat(comma + Render(d.items[i]), RenderItems(d, i + 1), n);
    }
  }

  lemma {:induction false} FieldsNested(d: Doc, i: nat, n: int)
    requires d.ObjectDoc? && i <= |d.fields|
    ensures Nested(RenderFields(d, i), n)
    decreases d, 0, |d.fields| - i
  {
    if i < |d.fields| {
      var comma, key, value := Comma(i), Quote(d.fields[i].0), Render(d.fields[i].1);
      PlainNested(comma, n);
      PlainNested(":", n);
      QuoteNested(d.fields[i].0, n);
      RenderNested(d.fields[i].1, n);
      FieldsNested(d, i + 1, n);
      FieldNested(comma, key, value, RenderFields(d, i + 1), n);
    }
  }

  lemma FieldNested(comma: string, key: string, value: string, rest: string, n: int)
    requires Nested(comma, n) && Nested(key, n) && Nested(":", n) && Nested(value, n) && Nested(rest, n)
    ensures Nested(comma + key + ":" + value + rest, n)
  {
    NestedConcat(comma, key, n);
    NestedConcat(comma + key, ":", n);
    NestedConcat(comma + key + ":", value, n);
    NestedConcat(comma + key + ":" + value, rest, n);
  }

  const REPLACEMENT: char := '\U{FFFD}'

  /**
    No torn object is balanced: cut anywhere after its first character and before its last, with any
    number of replacement characters in place of a character that was cut apart.
   */
  lemma TornUnbalanced(d: Doc, k: nat, r: string)
    requires d.ObjectDoc? && 0 < k < |Render(d)| && forall c :: c in r ==> c == REPLACEMENT
    ensures Run(At(0), Render(d)[..k] + r).depth >= 1
    ensures !Balanced(Render(d)[..k] + r)
  {
    var inner := RenderFields(d, 0);
    FieldsNested(d, 0, 1);
    assert Render(d)[..k] == "{" + inner[..k - 1];
    assert "{"[1..] == "";
    RunConcat(At(0), "{", inner[..k - 1]);
    PrefixDepth(At(1), inner, k - 1);
    RunConcat(At(0), Render(d)[..k], r);
    SameDepth(Run(At(0), Render(d)[..k]), r);
  }

  lemma {:induction false} SameDepth(st: Scan, r: string)
    requires forall c :: c in r ==> c == REPLACEMENT
    ensures Run(st, r).depth == st.depth
    ensures !st.quoted && !st.escaped ==> Run(st, r) == st
    decreases |r|
  {
    if r != [] {
      assert r[0] in r;
      forall c | c in r[1..] ensures c == REPLACEMENT { assert c in r; }
      SameDepth(Step(st, r[0]), r[1..]);
    }
  }

  // ---- What the parser accepts ------------------------------------------------------------------------------

  lemma {:induction false} WhiteRun(t: string, n: int)
    ensures Run(At(n), t) == Run(At(n), SkipWhite(t))
  {
    if t != [] && White(t[0]) { WhiteRun(t[1..], n); }
  }

  lemma {:induction false} InertRun(t: string, k: nat, n: int)
    requires k <= |t| && forall i :: 0 <= i < k ==> t[i] != '\\' && t[i] != '\"'
    ensures Run(Scan(n, true, false), t) == Run(Scan(n, true, false), t[k..])
  {
    if k > 0 {
      assert t[1..][k - 1..] == t[k..];
      InertRun(t[1..], k - 1, n);
    }
  }

  /** One character of a string, escaped or not, leaves the scan inside the string. */
  lemma CharRun(t: string, n: int)
    requires ReadChar(t).Some?
    ensures Run(Scan(n, true, false), t) == Run(Scan(n, true, false), ReadChar(t).value.1)
  {
    if t[0] == '\\' {
      assert t[1..][1..] == t[2..];
      if Unescape(t[1]).None? {
        assert t[2..][4..] == t[6..];
        InertRun(t[2..], 4, n);
      }
    }
  }

  lemma {:induction false} StringRun(t: string, n: int)
    requires ReadString(t).Some?
    ensures Run(Scan(n, true, false), t) == Run(At(n), ReadString(t).value.1)
    decreases |t|
  {
    if t[0] != '\"' {
      CharRun(t, n);
      StringRun(ReadChar(t).value.1, n);
    }
  }

  lemma PlainRun(t: string, k: nat, n: int)
    requires k <= |t| && forall i :: 0 <= i < k ==> Plain(t[i])
    ensures Run(At(n), t) == Run(At(n), t[k..])
  {
    PlainNested(t[..k], n);
    assert t == t[..k] + t[k..];
    RunConcat(At(n), t[..k], t[k..]);
  }

  lemma ScalarRun(t: string, n: int)
    requires t != [] && ReadValue(t).Some? && SkipWhite(t) == t && t[0] != '{' && t[0] != '['
    ensures Run(At(n), t) == Run(At(n), ReadValue(t).value.1)
  {
    if t[0] == '\"' {
      StringRun(t[1..], n);
    } else if t[0] == 'n' {
      WordRun(t, "null", n);
    } else if t[0] == 't' {
      WordRun(t, "true", n);
    } else if t[0] == 'f' {
      WordRun(t, "false", n);
    } else {
      PlainRun(t, NumericRun(t), n);
    }
  }

  lemma WordRun(t: string, word: string, n: int)
    requires word == "null" || word == "true" || word == "false"
    requires word <= t
    ensures Run(At(n), t) == Run(At(n), t[|word|..])
  {
    assert forall i :: 0 <= i < |word| ==> t[i] == word[i];
    PlainRun(t, |word|, n);
  }

  /** A value read leaves the scan at the depth it started at. */
  lemma {:induction false} ValueRun(text: string, n: int)
    requires ReadValue(text).Some?
    ensures Run(At(n), text) == Run(At(n), ReadValue(text).value.1)
    decreases |text|, 0
  {
    var t := SkipWhite(text);
    WhiteRun(text, n);
    SkipTwice(text);
    if t[0] == '{' || t[0] == '[' {
      var inner := SkipWhite(t[1..]);
      WhiteRun(t[1..], n + 1);
      if inner[0] != '}' && t[0] == '{' { FieldsRun(inner, n); }
      if inner[0] != ']' && t[0] == '[' { ItemsRun(inner, n); }
    } else {
      assert ReadValue(t) == ReadValue(text);
      ScalarRun(t, n);
    }
  }

  lemma {:induction false} SkipTwice(t: string)
    ensures SkipWhite(SkipWhite(t)) == SkipWhite(t)
  {
  }

  lemma {:induction false} ItemsRun(text: string, n: int)
    requires ReadItems(text).Some?
    ensures Run(At(n + 1), text) == Run(At(n), ReadItems(text).value.1)
    decreases |text|, 1
  {
    var more := ReadValue(text).value.1;
    ValueRun(text, n + 1);
    WhiteRun(more, n + 1);
    var t := SkipWhite(more);
    if t[0] == ',' { ItemsRun(t[1..], n); }
  }

  lemma {:induction false} FieldRun(text: string, n: int)
    requires ReadField(text).Some?
    ensures Run(At(n), text) == Run(At(n), ReadField(text).value.1)
    decreases |text|, 1
  {
    var t := SkipWhite(text);
    WhiteRun(text, n);
    var afterKey := ReadString(t[1..]).value.1;
    StringRun(t[1..], n);
    WhiteRun(afterKey, n);
    ValueRun(SkipWhite(afterKey)[1..], n);
  }

  lemma {:induction false} FieldsRun(text: string, n: int)
    requires ReadFields(text).Some?
    ensures Run(At(n + 1), text) == Run(At(n), ReadFields(text).value.1)
    decreases |text|, 2
  {
    var more := ReadField(text).value.1;
    FieldRun(text, n + 1);
    WhiteRun(more, n + 1);
    var t := SkipWhite(more);
    if t[0] == ',' { FieldsRun(t[1..], n); }
  }

  /** Whatever text is accepted, its brackets and quotes are closed. */
  lemma ParseBalanced(text: string)
    requires Parse(text).Some?
    ensures Balanced(text)
  {
    ValueRun(text, 0);
    WhiteRun(ReadValue(text).value.1, 0);
  }

  // ---- No raw newline -----------------------------------------------------------------------------------------

  predicate OneLine(s: string) { '\n' !in s }

  lemma {:induction false} QuoteOneLine(s: string)
    ensures OneLine(EscapeAll(s)) && OneLine(Quote(s))
  {
    if s != [] { QuoteOneLine(s[1..]); }
  }

  /** A rendered document takes one line, whatever its strings hold. */
  lemma {:induction false} RenderOneLine(d: Doc)
    ensures OneLine(Render(d))
    decreases d, 1
  {
    match d
    case NumberDoc(number) => NumberChars(number);
    case TextDoc(text) => QuoteOneLine(text);
    case ListDoc(_) => ItemsOneLine(d, 0);
    case ObjectDoc(_) => FieldsOneLine(d, 0);
    case _ =>
  }

  lemma {:induction false} ItemsOneLine(d: Doc, i: nat)
    requires d.ListDoc? && i <= |d.items|
    ensures OneLine(RenderItems(d, i))
    decreases d, 0, |d.items| - i
  {
    if i < |d.items| {
      RenderOneLine(d.items[i]);
      ItemsOneLine(d, i + 1);
    }
  }

  lemma {:induction false} FieldsOneLine(d: Doc, i: nat)
    requires d.ObjectDoc? && i <= |d.fields|
    ensures OneLine(RenderFields(d, i))
    decreases d, 0, |d.fields| - i
  {
    if i < |d.fields| {
      QuoteOneLine(d.fields[i].0);
      RenderOneLine(d.fields[i].1);
      FieldsOneLine(d, i + 1);
    }
  }
}
