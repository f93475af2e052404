/** JSON as text (RFC 8259): how the process writes a document, and how it reads one. */
module JsonText {
  import opened Prelude

  // ---- Numbers (section 6) ------------------------------------------------------------------------------

  predicate IsDigit(c: char) { '0' <= c <= '9' }

  function DigitRun(t: string): (n: nat)
    ensures n <= |t| && forall i :: 0 <= i < n ==> IsDigit(t[i])
  {
    if t == [] || !IsDigit(t[0]) then 0 else 1 + DigitRun(t[1..])
  }

  predicate IsExponent(t: string) {
    t == [] ||
    ((t[0] == 'e' || t[0] == 'E') &&
      var power := if |t| > 1 && (t[1] == '+' || t[1] == '-') then t[2..] else t[1..];
      power != [] && DigitRun(power) == |power|)
  }

  predicate IsFraction(t: string) {
    if t != [] && t[0] == '.' then DigitRun(t[1..]) > 0 && IsExponent(t[1 + DigitRun(t[1..])..]) else IsExponent(t)
  }

  predicate IsNumber(t: string) {
    var whole := if t != [] && t[0] == '-' then t[1..] else t;
    var n := DigitRun(whole);
    n > 0 && (n == 1 || whole[0] != '0') && IsFraction(whole[n..])
  }

  type NumberText = t: string | IsNumber(t) witness "0"

  /** The characters a number is written with; none of them can follow a number. */
  predicate Numeric(c: char) { IsDigit(c) || c == '+' || c == '-' || c == '.' || c == 'e' || c == 'E' }

  lemma NumberChars(t: string)
    requires IsNumber(t)
    ensures t != [] && (IsDigit(t[0]) || t[0] == '-') && forall c :: c in t ==> Numeric(c)
  {
    var whole := if t[0] == '-' then t[1..] else t;
    var n := DigitRun(whole);
    FractionChars(whole[n..]);
    WholeChars(whole, n);
    forall c | c in t ensures Numeric(c) {
      assert t == (if t[0] == '-' then "-" else "") + whole;
    }
  }

  lemma WholeChars(whole: string, n: nat)
    requires n <= |whole| && (forall i :: 0 <= i < n ==> IsDigit(whole[i])) && forall c :: c in whole[n..] ==> Numeric(c)
    ensures forall c :: c in whole ==> Numeric(c)
  {
    assert whole == whole[..n] + whole[n..];
  }

  lemma FractionChars(t: string)
    requires IsFraction(t)
    ensures forall c :: c in t ==> Numeric(c)
  {
    if t != [] && t[0] == '.' {
      var n := DigitRun(t[1..]);
      ExponentChars(t[1 + n..]);
      assert t == "." + t[1..][..n] + t[1 + n..];
    } else {
      ExponentChars(t);
    }
  }

  lemma ExponentChars(t: string)
    requires IsExponent(t)
    ensures forall c :: c in t ==> Numeric(c)
  {
    if t != [] {
      var power := if |t| > 1 && (t[1] == '+' || t[1] == '-') then t[2..] else t[1..];
      assert forall c :: c in power ==> IsDigit(c);
      assert t == t[..|t| - |power|] + power;
    }
  }

  // ---- Documents ------------------------------------------------------------------------------------------

  /** A document as it is written: its fields in order, its numbers as their text. */
  datatype Doc =
    | NullDoc
    | BoolDoc(flag: bool)
    | NumberDoc(number: NumberText)
    | TextDoc(text: string)
    | ListDoc(items: seq<Doc>)
    | ObjectDoc(fields: seq<(string, Doc)>)

  predicate DistinctKeys(fields: seq<(string, Doc)>) {
    forall i, j :: 0 <= i < j < |fields| ==> fields[i].0 != fields[j].0
  }

  /** No object, at any depth, has a key twice: what a process can hold. */
  predicate WellKeyed(d: Doc) {
    match d
    case ListDoc(items) => forall i :: 0 <= i < |items| ==> WellKeyed(items[i])
    case ObjectDoc(fields) => DistinctKeys(fields) && forall i :: 0 <= i < |fields| ==> WellKeyed(fields[i].1)
    case _ => true
  }

  // ---- Writing --------------------------------------------------------------------------------------------

  function HexDigit(n: int): char
    requires 0 <= n < 16
  {
    if n < 10 then '0' + n as char else 'a' + (n - 10) as char
  }

  /** What a string's character is written as (section 7): only quote, backslash and controls are escaped. */
  function Escape(c: char): string {
    if c == '\"' then "\\\""
    else if c == '\\' then "\\\\"
    else if c as int == 8 then "\\b"
    else if c as int == 9 then "\\t"
    else if c as int == 10 then "\\n"
    else if c as int == 12 then "\\f"
    else if c as int == 13 then "\\r"
    else if c as int < 32 then ['\\', 'u', '0', '0', HexDigit(c as int / 16), HexDigit(c as int % 16)]
    else [c]
  }

  function EscapeAll(s: string): string {
    if s == [] then [] else Escape(s[0]) + EscapeAll(s[1..])
  }

  function Quote(s: string): string { "\"" + EscapeAll(s) + "\"" }

  function Render(d: Doc): string
    decreases d, 1
  {
    match d
    case NullDoc => "null"
    case BoolDoc(flag) => if flag then "true" else "false"
    case NumberDoc(number) => number
    case TextDoc(text) => Quote(text)
    case ListDoc(items) => "[" + RenderItems(d, 0) + "]"
    case ObjectDoc(fields) => "{" + RenderFields(d, 0) + "}"
  }

  function Comma(i: nat): string { if i == 0 then "" else "," }

  function RenderItems(d: Doc, i: nat): string
    requires d.ListDoc? && i <= |d.items|
    decreases d, 0, |d.items| - i
  {
    if i == |d.items| then [] else Comma(i) + Render(d.items[i]) + RenderItems(d, i + 1)
  }

  function RenderFields(d: Doc, i: nat): string
    requires d.ObjectDoc? && i <= |d.fields|
    decreases d, 0, |d.fields| - i
  {
    if i == |d.fields| then []
    else Comma(i) + Quote(d.fields[i].0) + ":" + Render(d.fields[i].1) + RenderFields(d, i + 1)
  }

  // ---- Reading --------------------------------------------------------------------------------------------

  /** What was read, and the text after it. */
  type Reading<T> = Option<(T, string)>

  predicate White(c: char) { c == ' ' || c == '\n' || c == '\r' || c == '\t' }

  function SkipWhite(t: string): (r: string)
    ensures |r| <= |t| && (r != [] ==> !White(r[0]))
  {
    if t != [] && White(t[0]) then SkipWhite(t[1..]) else t
  }

  function HexValue(c: char): Option<nat> {
    if IsDigit(c) then Some((c - '0') as nat)
    else if 'a' <= c <= 'f' then Some(10 + (c - 'a') as nat)
    else if 'A' <= c <= 'F' then Some(10 + (c - 'A') as nat)
    else None
  }

  /** The character a four-digit escape stands for; a surrogate half stands for no character of its own. */
  function Unicode(a: nat, b: nat, c: nat, d: nat): char
    requires a < 16 && b < 16 && c < 16 && d < 16
  {
    var n := ((a * 16 + b) * 16 + c) * 16 + d;
    if 0xD800 <= n <= 0xDFFF then '\U{FFFD}' else n as char
  }

  function Unescape(c: char): Option<char> {
    if c == '\"' || c == '\\' || c == '/' then Some(c)
    else if c == 'b' then Some(8 as char)
    else if c == 't' then Some('\t')
    else if c == 'n' then Some('\n')
    else if c == 'f' then Some(12 as char)
    else if c == 'r' then Some('\r')
    else None
  }

  /** One character of a string. */
  function ReadChar(t: string): (r: Reading<char>)
    ensures r.Some? ==> |r.value.1| < |t|
  {
    if t == [] || t[0] == '\"' || (t[0] as int) < 32 then None
    else if t[0] != '\\' then Some((t[0], t[1..]))
    else if |t| >= 2 && Unescape(t[1]).Some? then Some((Unescape(t[1]).value, t[2..]))
    else if |t| >= 6 && t[1] == 'u' && HexValue(t[2]).Some? && HexValue(t[3]).Some? && HexValue(t[4]).Some? && HexValue(t[5]).Some?
    then Some((Unicode(HexValue(t[2]).value, HexValue(t[3]).value, HexValue(t[4]).value, HexValue(t[5]).value), t[6..]))
    else None
  }

  /** A string, from after its opening quote. */
  function ReadString(t: string): (r: Reading<string>)
    ensures r.Some? ==> |r.value.1| < |t|
    decreases |t|
  {
    if t != [] && t[0] == '\"' then Some(("", t[1..]))
    else
      match ReadChar(t)
      case None => None
      case Some((c, more)) =>
        match ReadString(more)
        case None => None
        case Some((s, rest)) => Some(([c] + s, rest))
  }

  function NumericRun(t: string): (n: nat)
    ensures n <= |t| && forall i :: 0 <= i < n ==> Numeric(t[i])
    ensures n < |t| ==> !Numeric(t[n])
  {
    if t == [] || !Numeric(t[0]) then 0 else 1 + NumericRun(t[1..])
  }

  function Literal(t: string, word: string, d: Doc): Reading<Doc> {
    if word <= t then Some((d, t[|word|..])) else None
  }

  function ReadNumber(t: string): Reading<Doc> {
    var n := NumericRun(t);
    if IsNumber(t[..n]) then Some((NumberDoc(t[..n]), t[n..])) else None
  }

  /** A later value of the same key replaces the earlier one in its place. */
  function Put(fields: seq<(string, Doc)>, key: string, value: Doc): seq<(string, Doc)> {
    if fields == [] then [(key, value)]
    else if fields[0].0 == key then [(key, value)] + fields[1..]
    else [fields[0]] + Put(fields[1..], key, value)
  }

  function Collapse(fields: seq<(string, Doc)>): seq<(string, Doc)> {
    if fields == [] then []
    else var n := |fields| - 1; Put(Collapse(fields[..n]), fields[n].0, fields[n].1)
  }

  function ReadValue(text: string): (r: Reading<Doc>)
    ensures r.Some? ==> |r.value.1| < |text|
    decreases |text|, 0
  {
    var t := SkipWhite(text);
    if t == [] then None
    else if t[0] == '\"' then
      (match ReadString(t[1..]) case None => None case Some((s, rest)) => Some((TextDoc(s), rest)))
    else if t[0] == '{' then
      var inner := SkipWhite(t[1..]);
      if inner != [] && inner[0] == '}' then Some((ObjectDoc([]), inner[1..]))
      else (match ReadFields(inner) case None => None case Some((fields, rest)) => Some((ObjectDoc(Collapse(fields)), rest)))
    else if t[0] == '[' then
      var inner := SkipWhite(t[1..]);
      if inner != [] && inner[0] == ']' then Some((ListDoc([]), inner[1..]))
      else (match ReadItems(inner) case None => None case Some((items, rest)) => Some((ListDoc(items), rest)))
    else if t[0] == 'n' then Literal(t, "null", NullDoc)
    else if t[0] == 't' then Literal(t, "true", BoolDoc(true))
    else if t[0] == 'f' then Literal(t, "false", BoolDoc(false))
    else if IsDigit(t[0]) || t[0] == '-' then ReadNumber(t)
    else None
  }

  /** At least one item, up to the closing bracket. */
  function ReadItems(text: string): (r: Reading<seq<Doc>>)
    ensures r.Some? ==> |r.value.1| < |text|
    decreases |text|, 1
  {
    match ReadValue(text)
    case None => None
    case Some((d, more)) =>
      var t := SkipWhite(more);
      if t == [] then None
      else if t[0] == ']' then Some(([d], t[1..]))
      else if t[0] == ',' then
        (match ReadItems(t[1..]) case None => None case Some((items, rest)) => Some(([d] + items, rest)))
      else None
  }

  function ReadField(text: string): (r: Reading<(string, Doc)>)
    ensures r.Some? ==> |r.value.1| < |text|
    decreases |text|, 1
  {
    var t := SkipWhite(text);
    if t == [] || t[0] != '\"' then None
    else
      match ReadString(t[1..])
      case None => None
      case Some((key, afterKey)) =>
        var u := SkipWhite(afterKey);
        if u == [] || u[0] != ':' then None
        else (match ReadValue(u[1..]) case None => None case Some((d, rest)) => Some(((key, d), rest)))
  }

  /** At least one field, up to the closing brace. */
  function ReadFields(text: string): (r: Reading<seq<(string, Doc)>>)
    ensures r.Some? ==> |r.value.1| < |text|
    decreases |text|, 2
  {
    match ReadField(text)
    case None => None
    case Some((field, more)) =>
      var t := SkipWhite(more);
      if t == [] then None
      else if t[0] == '}' then Some(([field], t[1..]))
      else if t[0] == ',' then
        (match ReadFields(t[1..]) case None => None case Some((fields, rest)) => Some(([field] + fields, rest)))
      else None
  }

  /** The whole text is one document. */
  function Parse(text: string): Option<Doc> {
    match ReadValue(text)
    case None => None
    case Some((d, rest)) => if SkipWhite(rest) == [] then Some(d) else None
  }
}
