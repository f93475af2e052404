/** Reading undoes writing, for every document a process can hold. */
module JsonRoundTrip {
  import opened Prelude
  import opened JsonText

  // ---- Strings --------------------------------------------------------------------------------------------

  lemma HexInverse(n: int)
    requires 0 <= n < 16
    ensures HexValue(HexDigit(n)) == Some(n)
  {
  }

  /** Whatever a character is escaped to reads as that character. */
  lemma ReadEscaped(c: char, rest: string)
    ensures ReadChar(Escape(c) + rest) == Some((c, rest))
    ensures (Escape(c) + rest)[0] != '\"'
  {
    var e := Escape(c);
    var t := e + rest;
    assert t[|e|..] == rest && forall i :: 0 <= i < |e| ==> t[i] == e[i];
    if |e| == 6 {
      HexInverse(c as int / 16);
      HexInverse(c as int % 16);
      assert HexValue('0') == Some(0) && Unescape('u').None?;
    }
  }

  lemma {:induction false} ReadQuoted(s: string, rest: string)
    ensures ReadString(EscapeAll(s) + ("\"" + rest)) == Some((s, rest))
  {
    if s == [] {
      assert EscapeAll(s) + ("\"" + rest) == "\"" + rest;
      assert ("\"" + rest)[1..] == rest;
    } else {
      var more := EscapeAll(s[1..]) + ("\"" + rest);
      assert EscapeAll(s) + ("\"" + rest) == Escape(s[0]) + more;
      ReadEscaped(s[0], more);
      ReadQuoted(s[1..], rest);
      assert s == [s[0]] + s[1..];
    }
  }

  // ---- Numbers ----------------------------------------------------------------------------------------------

  /** No character of a number follows. */
  predicate Stops(rest: string) { rest != [] ==> !Numeric(rest[0]) }

  lemma {:induction false} RunOf(t: string, rest: string)
    requires Stops(rest) && forall c :: c in t ==> Numeric(c)
    ensures NumericRun(t + rest) == |t|
  {
    if t == [] {
      assert t + rest == rest;
    } else {
      assert t[0] in t && forall c :: c in t[1..] ==> c in t;
      assert (t + rest)[1..] == t[1..] + rest;
      RunOf(t[1..], rest);
    }
  }

  lemma ReadNumberText(t: NumberText, rest: string)
    requires Stops(rest)
    ensures ReadNumber(t + rest) == Some((NumberDoc(t), rest))
  {
    NumberChars(t);
    RunOf(t, rest);
    assert (t + rest)[..|t|] == t && (t + rest)[|t|..] == rest;
  }

  // ---- Fields -------------------------------------------------------------------------------------------------

  lemma {:induction false} PutNew(fields: seq<(string, Doc)>, key: string, value: Doc)
    requires forall i :: 0 <= i < |fields| ==> fields[i].0 != key
    ensures Put(fields, key, value) == fields + [(key, value)]
  {
    if fields != [] {
      PutNew(fields[1..], key, value);
      assert fields == [fields[0]] + fields[1..];
    }
  }

  lemma {:induction false} CollapseDistinct(fields: seq<(string, Doc)>)
    requires DistinctKeys(fields)
    ensures Collapse(fields) == fields
  {
    if fields != [] {
      var n := |fields| - 1;
      CollapseDistinct(fields[..n]);
      PutNew(fields[..n], fields[n].0, fields[n].1);
      assert fields == fields[..n] + [(fields[n].0, fields[n].1)];
    }
  }

  // ---- Documents ------------------------------------------------------------------------------------------------

  /** A document opens with no white space, and with neither closing bracket. */
  lemma Opening(d: Doc)
    ensures Render(d) != [] && !White(Render(d)[0]) && Render(d)[0] != ']' && Render(d)[0] != '}'
  {
    if d.NumberDoc? { NumberChars(d.number); }
  }

  lemma NoWhite(t: string)
    requires t != [] && !White(t[0])
    ensures SkipWhite(t) == t
  {
  }

  lemma {:induction false} ReadRendered(d: Doc, rest: string)
    requires WellKeyed(d) && Stops(rest)
    ensures ReadValue(Render(d) + rest) == Some((d, rest))
    decreases d, 1
  {
    var t := Render(d) + rest;
    Opening(d);
    NoWhite(t);
    match d
    case NullDoc => LiteralReads(t, "null", NullDoc, rest);
    case BoolDoc(flag) => LiteralReads(t, if flag then "true" else "false", d, rest);
    case NumberDoc(number) => NumberReads(number, rest);
    case TextDoc(text) => TextReads(text, rest);
    case ListDoc(items) => ReadList(d, rest);
    case ObjectDoc(fields) => ReadObject(d, rest);
  }

  lemma LiteralReads(t: string, word: string, d: Doc, rest: string)
    requires t == word + rest
    requires (word == "null" && d == NullDoc) || (word == "true" && d == BoolDoc(true)) || (word == "false" && d == BoolDoc(false))
    ensures ReadValue(t) == Some((d, rest))
  {
    assert t[0] == word[0] && t[|word|..] == rest;
    NoWhite(t);
  }

  lemma NumberReads(number: NumberText, rest: string)
    requires Stops(rest)
    ensures ReadValue(number + rest) == Some((NumberDoc(number), rest))
  {
    NumberChars(number);
    NoWhite(number + rest);
    ReadNumberText(number, rest);
  }

  lemma TextReads(text: string, rest: string)
    ensures ReadValue(Quote(text) + rest) == Some((TextDoc(text), rest))
  {
    var t := Quote(text) + rest;
    NoWhite(t);
    assert t[1..] == EscapeAll(text) + ("\"" + rest);
    ReadQuoted(text, rest);
  }

  // ---- Lists ------------------------------------------------------------------------------------------------------

  /** What follows the first of the items from `i` on. */
  function AfterItem(d: Doc, i: nat, rest: string): string
    requires d.ListDoc? && i < |d.items|
  {
    RenderItems(d, i + 1) + ("]" + rest)
  }

  lemma CommaFirst(a: string, b: string, c: string)
    ensures var t := ("," + a + b) + c; t[0] == ',' && t[1..] == a + (b + c)
  {
  }

  lemma AfterItemStep(d: Doc, i: nat, rest: string)
    requires d.ListDoc? && i < |d.items|
    ensures var after := AfterItem(d, i, rest);
      after != [] && Stops(after) && !White(after[0])
      && if i + 1 == |d.items| then after == "]" + rest
         else after[0] == ',' && after[1..] == Render(d.items[i + 1]) + AfterItem(d, i + 1, rest)
  {
    if i + 1 == |d.items| {
      assert AfterItem(d, i, rest) == "]" + rest;
    } else {
      CommaFirst(Render(d.items[i + 1]), RenderItems(d, i + 2), "]" + rest);
    }
  }

  lemma ListFrom(inner: string, items: seq<Doc>, rest: string)
    requires inner != [] && !White(inner[0]) && inner[0] != ']' && ReadItems(inner) == Some((items, rest))
    ensures ReadValue("[" + inner) == Some((ListDoc(items), rest))
  {
    NoWhite("[" + inner);
    NoWhite(inner);
    assert ("[" + inner)[1..] == inner;
  }

  lemma EmptyList(rest: string)
    ensures ReadValue("[" + ("]" + rest)) == Some((ListDoc([]), rest))
  {
    NoWhite("[" + ("]" + rest));
    NoWhite("]" + rest);
    assert ("[" + ("]" + rest))[1..] == "]" + rest && ("]" + rest)[1..] == rest;
  }

  lemma Enclosed(opening: string, first: string, more: string, closing: string, rest: string)
    ensures opening + ("" + first + more) + closing + rest == opening + (first + (more + (closing + rest)))
  {
  }

  lemma {:induction false} ReadList(d: Doc, rest: string)
    requires d.ListDoc? && WellKeyed(d)
    ensures ReadValue(Render(d) + rest) == Some((d, rest))
    decreases d, 0, |d.items| + 1
  {
    if d.items == [] {
      EmptyList(rest);
      assert Render(d) + rest == "[" + ("]" + rest);
    } else {
      Opening(d.items[0]);
      ItemsRead(d, 0, rest);
      assert d.items[0..] == d.items;
      ListFrom(Render(d.items[0]) + AfterItem(d, 0, rest), d.items, rest);
      Enclosed("[", Render(d.items[0]), RenderItems(d, 1), "]", rest);
    }
  }

  lemma {:induction false} ItemsRead(d: Doc, i: nat, rest: string)
    requires d.ListDoc? && WellKeyed(d) && i < |d.items|
    ensures ReadItems(Render(d.items[i]) + AfterItem(d, i, rest)) == Some((d.items[i..], rest))
    decreases d, 0, |d.items| - i
  {
    var after := AfterItem(d, i, rest);
    AfterItemStep(d, i, rest);
    ReadRendered(d.items[i], after);
    NoWhite(after);
    assert d.items[i..] == [d.items[i]] + d.items[i + 1..];
    if i + 1 == |d.items| {
      assert ("]" + rest)[1..] == rest && d.items[i..] == [d.items[i]];
    } else {
      ItemsRead(d, i + 1, rest);
    }
  }

  // ---- Objects ------------------------------------------------------------------------------------------------------

  function AfterField(d: Doc, i: nat, rest: string): string
    requires d.ObjectDoc? && i < |d.fields|
  {
    RenderFields(d, i + 1) + ("}" + rest)
  }

  function FieldText(key: string, value: string): string { Quote(key) + ":" + value }

  lemma NextField(key: string, value: string, more: string, closing: string)
    ensures "," + Quote(key) + ":" + value + more + closing == "," + (FieldText(key, value) + (more + closing))
  {
  }

  lemma AfterFieldStep(d: Doc, i: nat, rest: string)
    requires d.ObjectDoc? && i < |d.fields|
    ensures var after := AfterField(d, i, rest);
      after != [] && Stops(after) && !White(after[0])
      && if i + 1 == |d.fields| then after == "}" + rest
         else after[0] == ','
              && after[1..] == FieldText(d.fields[i + 1].0, Render(d.fields[i + 1].1)) + AfterField(d, i + 1, rest)
  {
    if i + 1 < |d.fields| {
      NextField(d.fields[i + 1].0, Render(d.fields[i + 1].1), RenderFields(d, i + 2), "}" + rest);
    }
  }

  lemma KeyReads(key: string, value: string, after: string)
    ensures var t := FieldText(key, value) + after;
      t != [] && t[0] == '\"' && ReadString(t[1..]) == Some((key, ":" + (value + after)))
  {
    var t := FieldText(key, value) + after;
    assert t[1..] == EscapeAll(key) + ("\"" + (":" + (value + after)));
    ReadQuoted(key, ":" + (value + after));
  }

  lemma {:induction false} FieldReads(d: Doc, i: nat, after: string)
    requires d.ObjectDoc? && WellKeyed(d) && i < |d.fields| && Stops(after)
    ensures ReadField(FieldText(d.fields[i].0, Render(d.fields[i].1)) + after) == Some((d.fields[i], after))
    decreases d, 0, 0
  {
    var (key, v) := d.fields[i];
    var t, value := FieldText(key, Render(v)) + after, Render(v) + after;
    KeyReads(key, Render(v), after);
    NoWhite(t);
    NoWhite(":" + value);
    assert (":" + value)[1..] == value;
    ReadRendered(v, after);
  }

  lemma ObjectFrom(inner: string, fields: seq<(string, Doc)>, rest: string)
    requires inner != [] && inner[0] == '\"' && ReadFields(inner) == Some((fields, rest)) && DistinctKeys(fields)
    ensures ReadValue("{" + inner) == Some((ObjectDoc(fields), rest))
  {
    NoWhite("{" + inner);
    NoWhite(inner);
    CollapseDistinct(fields);
    assert ("{" + inner)[1..] == inner;
  }

  lemma EmptyObject(rest: string)
    ensures ReadValue("{" + ("}" + rest)) == Some((ObjectDoc([]), rest))
  {
    NoWhite("{" + ("}" + rest));
    NoWhite("}" + rest);
    assert ("{" + ("}" + rest))[1..] == "}" + rest && ("}" + rest)[1..] == rest;
  }

  lemma FirstField(d: Doc)
    requires d.ObjectDoc? && d.fields != []
    ensures RenderFields(d, 0) == "" + FieldText(d.fields[0].0, Render(d.fields[0].1)) + RenderFields(d, 1)
  {
  }

  lemma {:induction false} ReadObject(d: Doc, rest: string)
    requires d.ObjectDoc? && WellKeyed(d)
    ensures ReadValue(Render(d) + rest) == Some((d, rest))
    decreases d, 0, |d.fields| + 2
  {
    if d.fields == [] {
      EmptyObject(rest);
      assert Render(d) + rest == "{" + ("}" + rest);
    } else {
      var first := FieldText(d.fields[0].0, Render(d.fields[0].1));
      FieldsRead(d, 0, rest);
      assert d.fields[0..] == d.fields;
      ObjectFrom(first + AfterField(d, 0, rest), d.fields, rest);
      FirstField(d);
      Enclosed("{", first, RenderFields(d, 1), "}", rest);
    }
  }

  lemma {:induction false} FieldsRead(d: Doc, i: nat, rest: string)
    requires d.ObjectDoc? && WellKeyed(d) && i < |d.fields|
    ensures ReadFields(FieldText(d.fields[i].0, Render(d.fields[i].1)) + AfterField(d, i, rest)) == Some((d.fields[i..], rest))
    decreases d, 0, |d.fields| - i
  {
    var after := AfterField(d, i, rest);
    AfterFieldStep(d, i, rest);
    FieldReads(d, i, after);
    NoWhite(after);
    assert d.fields[i..] == [d.fields[i]] + d.fields[i + 1..];
    if i + 1 == |d.fields| {
      assert ("}" + rest)[1..] == rest && d.fields[i..] == [d.fields[i]];
    } else {
      FieldsRead(d, i + 1, rest);
    }
  }

  /** The text of a document parses to that document. */
  lemma ParseRender(d: Doc)
    requires WellKeyed(d)
    ensures Parse(Render(d)) == Some(d)
  {
    ReadRendered(d, "");
    assert Render(d) + "" == Render(d);
  }
}
