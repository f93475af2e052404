/** Inside strings and right after them: what no accepted text has there. */
module JsonTokens {
  import opened JsonText
  import opened JsonShape

  /** `Digits(n)` has `n` digits of an escape to go; `Closed` is right after a string. */
  datatype Walk = Outside | Closed | Inside | Escaping | Digits(left: nat) | Broken

  predicate Letter(c: char) { 'a' <= c <= 'z' }

  function Take(w: Walk, c: char): Walk {
    match w
    case Outside => if c == '\"' then Inside else Outside
    case Closed => if Letter(c) then Broken else if c == '\"' then Inside else Outside
    case Inside => if c == '\"' then Closed else if c == '\\' then Escaping else Inside
    case Escaping => if Unescape(c).Some? then Inside else if c == 'u' then Digits(4) else Broken
    case Digits(n) => if HexValue(c).None? || n == 0 then Broken else if n == 1 then Inside else Digits(n - 1)
    case Broken => Broken
  }

  function Follow(w: Walk, s: string): Walk
    decreases |s|
  {
    if s == [] then w else Follow(Take(w, s[0]), s[1..])
  }

  lemma {:induction false} FollowConcat(w: Walk, a: string, b: string)
    ensures Follow(w, a + b) == Follow(Follow(w, a), b)
    decreases |a|
  {
    if a == [] {
      assert a + b == b;
    } else {
      assert (a + b)[1..] == a[1..] + b;
      FollowConcat(Take(w, a[0]), a[1..], b);
    }
  }

  lemma {:induction false} BrokenStays(s: string)
    ensures Follow(Broken, s) == Broken
    decreases |s|
  {
    if s != [] { BrokenStays(s[1..]); }
  }

  // ---- Accepted texts never break --------------------------------------------------------------------------

  lemma CharFollows(t: string)
    requires ReadChar(t).Some?
    ensures Follow(Inside, t) == Follow(Inside, ReadChar(t).value.1)
  {
    if t[0] == '\\' {
      assert t[1..][1..] == t[2..];
      if Unescape(t[1]).None? {
        assert t[2..][1..] == t[3..] && t[3..][1..] == t[4..] && t[4..][1..] == t[5..] && t[5..][1..] == t[6..];
        assert Follow(Inside, t) == Follow(Digits(4), t[2..]);
        assert Follow(Digits(4), t[2..]) == Follow(Digits(3), t[3..]);
        assert Follow(Digits(3), t[3..]) == Follow(Digits(2), t[4..]);
        assert Follow(Digits(2), t[4..]) == Follow(Digits(1), t[5..]);
      }
    }
  }

  lemma {:induction false} StringFollows(t: string)
    requires ReadString(t).Some?
    ensures Follow(Inside, t) == Follow(Closed, ReadString(t).value.1)
    decreases |t|
  {
    if t[0] != '\"' {
      CharFollows(t);
      StringFollows(ReadChar(t).value.1);
    }
  }

  lemma {:induction false} WhiteFollows(w: Walk, t: string)
    requires w == Outside || w == Closed
    ensures SkipWhite(t) != [] && w == Outside ==> Follow(w, t) == Follow(w, SkipWhite(t))
    ensures SkipWhite(t) != [] && !Letter(SkipWhite(t)[0]) && SkipWhite(t)[0] != '\"' ==>
      Follow(w, t) == Follow(Outside, SkipWhite(t)[1..])
    ensures SkipWhite(t) == [] ==> Follow(w, t) != Broken
    decreases |t|
  {
    if t != [] && White(t[0]) { WhiteFollows(Outside, t[1..]); }
  }

  lemma {:induction false} UnquotedFollows(t: string, k: nat)
    requires k <= |t| && forall i :: 0 <= i < k ==> t[i] != '\"'
    ensures Follow(Outside, t) == Follow(Outside, t[k..])
    decreases |t|
  {
    if k > 0 {
      assert t[1..][k - 1..] == t[k..];
      UnquotedFollows(t[1..], k - 1);
    }
  }

  /** Where reading a value leaves the walk. */
  function EndOf(text: string): Walk {
    var t := SkipWhite(text);
    if t != [] && t[0] == '\"' then Closed else Outside
  }

  lemma ScalarFollows(t: string)
    requires t != [] && ReadValue(t).Some? && SkipWhite(t) == t && t[0] != '{' && t[0] != '['
    ensures Follow(Outside, t) == Follow(EndOf(t), ReadValue(t).value.1)
  {
    if t[0] == '\"' {
      StringFollows(t[1..]);
    } else if t[0] == 'n' {
      WordFollows(t, "null");
    } else if t[0] == 't' {
      WordFollows(t, "true");
    } else if t[0] == 'f' {
      WordFollows(t, "false");
    } else {
      UnquotedFollows(t, NumericRun(t));
    }
  }

  lemma WordFollows(t: string, word: string)
    requires word == "null" || word == "true" || word == "false"
    requires word <= t
    ensures Follow(Outside, t) == Follow(Outside, t[|word|..])
  {
    assert forall i :: 0 <= i < |word| ==> t[i] == word[i];
    UnquotedFollows(t, |word|);
  }

  lemma {:induction false} ValueFollows(text: string)
    requires ReadValue(text).Some?
    ensures Follow(Outside, text) == Follow(EndOf(text), ReadValue(text).value.1)
    decreases |text|, 0
  {
    var t := SkipWhite(text);
    WhiteFollows(Outside, text);
    SkipTwice(text);
    if t[0] == '{' || t[0] == '[' {
      var inner := SkipWhite(t[1..]);
      WhiteFollows(Outside, t[1..]);
      if inner[0] != '}' && t[0] == '{' { FieldsFollow(inner); }
      if inner[0] != ']' && t[0] == '[' { ItemsFollow(inner); }
    } else {
      assert ReadValue(t) == ReadValue(text);
      ScalarFollows(t);
    }
  }

  lemma {:induction false} ItemsFollow(text: string)
    requires ReadItems(text).Some?
    ensures Follow(Outside, text) == Follow(Outside, ReadItems(text).value.1)
    decreases |text|, 1
  {
    var more := ReadValue(text).value.1;
    ValueFollows(text);
    WhiteFollows(EndOf(text), more);
    var t := SkipWhite(more);
    if t[0] == ',' { ItemsFollow(t[1..]); }
  }

  lemma {:induction false} FieldFollows(text: string)
    requires ReadField(text).Some?
    ensures Follow(Outside, text) == Follow(Outside, ReadField(text).value.1)
         || Follow(Outside, text) == Follow(Closed, ReadField(text).value.1)
    decreases |text|, 1
  {
    var t := SkipWhite(text);
    WhiteFollows(Outside, text);
    var afterKey := ReadString(t[1..]).value.1;
    StringFollows(t[1..]);
    WhiteFollows(Closed, afterKey);
    ValueFollows(SkipWhite(afterKey)[1..]);
  }

  lemma {:induction false} FieldsFollow(text: string)
    requires ReadFields(text).Some?
    ensures Follow(Outside, text) == Follow(Outside, ReadFields(text).value.1)
    decreases |text|, 2
  {
    var more := ReadField(text).value.1;
    FieldFollows(text);
    WhiteFollows(Outside, more);
    WhiteFollows(Closed, more);
    var t := SkipWhite(more);
    if t[0] == ',' { FieldsFollow(t[1..]); }
  }

  /** An accepted text has no broken escape and no letter right after a string. */
  lemma ParseNeverBreaks(text: string)
    requires Parse(text).Some?
    ensures Follow(Outside, text) != Broken
  {
    ValueFollows(text);
    WhiteFollows(EndOf(text), ReadValue(text).value.1);
  }

  // ---- A string left open ----------------------------------------------------------------------------------

  /** The walk and the scan agree on being inside a string. */
  predicate Together(st: Scan, w: Walk) {
    w.Broken? || ((st.quoted <==> w.Inside? || w.Escaping? || w.Digits?) && (st.escaped <==> w.Escaping?)
                  && (w.Digits? ==> w.left > 0))
  }

  lemma {:induction false} TogetherAlong(st: Scan, w: Walk, s: string)
    requires Together(st, w)
    ensures Together(Run(st, s), Follow(w, s))
    decreases |s|
  {
    if s != [] { TogetherAlong(Step(st, s[0]), Take(w, s[0]), s[1..]); }
  }

  lemma {:induction false} ReplacementsInside(r: string)
    requires forall c :: c in r ==> c == REPLACEMENT
    ensures Follow(Inside, r) == Inside
    ensures r != [] ==> Follow(Escaping, r) == Broken && forall n: nat :: Follow(Digits(n), r) == Broken
    decreases |r|
  {
    if r != [] {
      assert r[0] in r && forall c :: c in r[1..] ==> c in r;
      ReplacementsInside(r[1..]);
      BrokenStays(r[1..]);
    }
  }

  /** An object whose first key starts with a letter, where a string was left open: never accepted. */
  lemma OpenStringBreaks(cut: string, r: string, next: string)
    requires Run(At(0), cut).quoted && forall c :: c in r ==> c == REPLACEMENT
    requires |next| >= 3 && next[0] == '{' && next[1] == '\"' && Letter(next[2])
    ensures Parse(cut + r + next).None?
  {
    var w := Follow(Outside, cut);
    TogetherAlong(At(0), Outside, cut);
    FollowConcat(Outside, cut, r);
    FollowConcat(Outside, cut + r, next);
    ReplacementsInside(r);
    BrokenStays(r);
    var x := Follow(w, r);
    assert x.Inside? || x.Escaping? || x.Digits? || x.Broken?;
    NextBreaks(x, next);
    if Parse(cut + r + next).Some? { ParseNeverBreaks(cut + r + next); }
  }

  lemma NextBreaks(w: Walk, next: string)
    requires w.Inside? || w.Escaping? || w.Digits? || w.Broken?
    requires |next| >= 3 && next[0] == '{' && next[1] == '\"' && Letter(next[2])
    ensures Follow(w, next) == Broken
  {
    var a, b, c := next[1..], next[2..], next[3..];
    assert a[0] == '\"' && a[1..] == b && b[0] == next[2] && b[1..] == c;
    BrokenStays(a);
    BrokenStays(c);
    if w.Inside? {
      assert Follow(w, next) == Follow(Inside, a) == Follow(Closed, b) == Follow(Broken, c);
    } else {
      assert Take(w, '{') == Broken;
      assert Follow(w, next) == Follow(Broken, a);
    }
  }
}
