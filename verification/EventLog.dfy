/**
  The event log as text: one JSON document a line, appended, and read back after a crash.
  The proofs see the parser only through two properties, which the process's own parser has.
 */
module EventLog {
  import opened Prelude
  import opened JsonText
  import opened JsonRoundTrip
  import opened JsonShape
  import opened JsonTokens
  import Utf8

  type Parser = string -> Option<Doc>

  /** The parser accepts no text with a bracket or a quote left open. */
  ghost predicate OnlyBalanced(parse: Parser) {
    forall s :: parse(s).Some? ==> Balanced(s)
  }

  // ---- The log ------------------------------------------------------------------------------------------------

  /** A document a process can hold: no key twice. */
  type Held = d: Doc | WellKeyed(d) witness NullDoc

  /** An event as the Run store appends it; `detail` is a document of its own. */
  datatype Entry = Entry(at: string, kind: string, detail: Option<Held>)

  function ToDoc(e: Entry): Doc {
    ObjectDoc([("at", TextDoc(e.at)), ("type", TextDoc(e.kind))]
              + if e.detail.Some? then [("detail", e.detail.value)] else [])
  }

  function Line(e: Entry): string { Render(ToDoc(e)) + "\n" }

  function Texts(entries: seq<Entry>): seq<string> {
    seq(|entries|, i requires 0 <= i < |entries| => Render(ToDoc(entries[i])))
  }

  function Terminated(lines: seq<string>): string {
    if lines == [] then "" else lines[0] + "\n" + Terminated(lines[1..])
  }

  /** The file that holds exactly these events. */
  function Log(entries: seq<Entry>): string { Terminated(Texts(entries)) }

  function Docs(entries: seq<Entry>): seq<Doc> {
    seq(|entries|, i requires 0 <= i < |entries| => ToDoc(entries[i]))
  }

  function Lines(text: string): (r: seq<string>)
    ensures r != []
  {
    if text == [] then [[]]
    else if text[0] == '\n' then [[]] + Lines(text[1..])
    else
      var rest := Lines(text[1..]);
      [[text[0]] + rest[0]] + rest[1..]
  }

  /** What trimming removes. */
  predicate Space(c: char) {
    var n := c as int;
    || 9 <= n <= 13 || n == 32 || n == 0xA0 || n == 0x1680 || 0x2000 <= n <= 0x200A
    || n == 0x2028 || n == 0x2029 || n == 0x202F || n == 0x205F || n == 0x3000 || n == 0xFEFF
  }

  predicate Blank(line: string) { forall c :: c in line ==> Space(c) }

  function FieldOf(fields: seq<(string, Doc)>, key: string): Option<Doc> {
    if fields == [] then None
    else if fields[0].0 == key then Some(fields[0].1)
    else FieldOf(fields[1..], key)
  }

  predicate IsRunEvent(d: Doc) {
    && d.ObjectDoc?
    && FieldOf(d.fields, "at").Some? && FieldOf(d.fields, "at").value.TextDoc?
    && FieldOf(d.fields, "type").Some? && FieldOf(d.fields, "type").value.TextDoc?
  }

  predicate Readable(line: string, parse: Parser) { parse(line).Some? && IsRunEvent(parse(line).value) }

  predicate Damaged(line: string, parse: Parser) { !Blank(line) && !Readable(line, parse) }

  /** The events of the readable lines, in order. */
  function Events(lines: seq<string>, parse: Parser): seq<Doc> {
    if lines == [] then []
    else (if !Blank(lines[0]) && Readable(lines[0], parse) then [parse(lines[0]).value] else []) + Events(lines[1..], parse)
  }

  function FirstDamaged(lines: seq<string>, parse: Parser): (r: Option<nat>)
    ensures r.None? ==> forall i :: 0 <= i < |lines| ==> !Damaged(lines[i], parse)
    ensures r.Some? ==> r.value < |lines| && Damaged(lines[r.value], parse)
                        && forall i :: 0 <= i < r.value ==> !Damaged(lines[i], parse)
  {
    if lines == [] then None
    else if Damaged(lines[0], parse) then Some(0)
    else
      match FirstDamaged(lines[1..], parse)
      case None => None
      case Some(i) => Some(i + 1)
  }

  /** An absent file reads as no events; damage before the last line is refused, with its line number. */
  function Read(file: Option<string>, parse: Parser): Result<seq<Doc>, nat> {
    if file.None? then Success([])
    else
      var lines := Lines(file.value);
      match FirstDamaged(lines[..|lines| - 1], parse)
      case Some(i) => Failure(i + 1)
      case None => Success(Events(lines, parse))
  }

  method AppendEvent(file: Option<string>, at: string, kind: string, detail: Option<Held>) returns (log: string)
    ensures log == (if file.Some? then file.value else "") + Line(Entry(at, kind, detail))
  {
    var event := [("at", TextDoc(at)), ("type", TextDoc(kind))];
    if detail.Some? {
      event := event + [("detail", detail.value)];
    }
    assert ObjectDoc(event) == ToDoc(Entry(at, kind, detail));
    log := (if file.Some? then file.value else "") + (Render(ObjectDoc(event)) + "\n");
  }

  method ReadEvents(file: Option<string>, parse: Parser) returns (r: Result<seq<Doc>, nat>)
    ensures r == Read(file, parse)
  {
    if file.None? { return Success([]); }
    var lines := Lines(file.value);
    var events: seq<Doc> := [];
    var index := 0;
    while index < |lines|
      invariant index <= |lines|
      invariant events == Events(lines[..index], parse)
      invariant forall i :: 0 <= i < index && i < |lines| - 1 ==> !Damaged(lines[i], parse)
    {
      var line := lines[index];
      EventsSnoc(lines[..index], line, parse);
      assert lines[..index + 1] == lines[..index] + [line];
      if !Blank(line) {
        var parsed := parse(line);
        if parsed.Some? && IsRunEvent(parsed.value) {
          events := events + [parsed.value];
        } else if index != |lines| - 1 {
          FirstIs(lines, index, parse);
          return Failure(index + 1);
        }
      }
      index := index + 1;
    }
    assert lines[..index] == lines;
    NoneDamaged(lines, parse);
    return Success(events);
  }

  lemma FirstIs(lines: seq<string>, index: nat, parse: Parser)
    requires index < |lines| - 1 && Damaged(lines[index], parse)
    requires forall i :: 0 <= i < index ==> !Damaged(lines[i], parse)
    ensures FirstDamaged(lines[..|lines| - 1], parse) == Some(index)
  {
    assert lines[..|lines| - 1][index] == lines[index];
  }

  lemma NoneDamaged(lines: seq<string>, parse: Parser)
    requires lines != [] && forall i :: 0 <= i < |lines| - 1 ==> !Damaged(lines[i], parse)
    ensures FirstDamaged(lines[..|lines| - 1], parse) == None
  {
  }

  lemma {:induction false} EventsConcat(a: seq<string>, b: seq<string>, parse: Parser)
    ensures Events(a + b, parse) == Events(a, parse) + Events(b, parse)
  {
    if a == [] {
      assert a + b == b;
    } else {
      assert (a + b)[1..] == a[1..] + b;
      EventsConcat(a[1..], b, parse);
    }
  }

  lemma EventsSnoc(lines: seq<string>, line: string, parse: Parser)
    ensures Events(lines + [line], parse)
         == Events(lines, parse) + if !Blank(line) && Readable(line, parse) then [parse(line).value] else []
  {
    EventsConcat(lines, [line], parse);
    assert [line][1..] == [];
  }

  // ---- Reading undoes appending -----------------------------------------------------------------------------------

  /** A text without a newline is the first line of what follows it and a newline. */
  lemma {:induction false} LinesFirst(line: string, rest: string)
    requires OneLine(line)
    ensures Lines(line + "\n" + rest) == [line] + Lines(rest)
    ensures Lines(line) == [line]
  {
    if line == [] {
      assert (line + "\n" + rest)[1..] == rest;
    } else {
      assert (line + "\n" + rest)[1..] == line[1..] + "\n" + rest;
      assert line == [line[0]] + line[1..];
      LinesFirst(line[1..], rest);
    }
  }

  lemma FirstLine(line: string, more: string, rest: string)
    requires OneLine(line)
    ensures Lines(line + "\n" + more + rest) == [line] + Lines(more + rest)
  {
    assert line + "\n" + more + rest == line + "\n" + (more + rest);
    LinesFirst(line, more + rest);
  }

  lemma {:induction false} TerminatedLines(lines: seq<string>, rest: string)
    requires forall l :: l in lines ==> OneLine(l)
    ensures Lines(Terminated(lines) + rest) == lines + Lines(rest)
  {
    if lines == [] {
      assert Terminated(lines) + rest == rest;
    } else {
      assert lines[0] in lines && forall l :: l in lines[1..] ==> l in lines;
      FirstLine(lines[0], Terminated(lines[1..]), rest);
      TerminatedLines(lines[1..], rest);
      assert lines == [lines[0]] + lines[1..];
    }
  }

  lemma LogLines(entries: seq<Entry>, rest: string)
    ensures Lines(Log(entries) + rest) == Texts(entries) + Lines(rest)
  {
    forall l | l in Texts(entries) ensures OneLine(l) {
      var i :| 0 <= i < |entries| && Texts(entries)[i] == l;
      RenderOneLine(ToDoc(entries[i]));
    }
    TerminatedLines(Texts(entries), rest);
  }

  /** Parsing the text of these events gives each of them back. */
  ghost predicate GivesBack(parse: Parser, entries: seq<Entry>) {
    forall e :: e in entries ==> parse(Render(ToDoc(e))) == Some(ToDoc(e))
  }

  lemma EntryReadable(e: Entry, parse: Parser)
    requires parse(Render(ToDoc(e))) == Some(ToDoc(e))
    ensures Readable(Render(ToDoc(e)), parse) && !Blank(Render(ToDoc(e)))
  {
    var fields := ToDoc(e).fields;
    assert fields[0].0 == "at" && fields[1..][0].0 == "type";
    assert "at" != "type" by { assert |"at"| == 2; }
    assert Render(ToDoc(e))[0] == '{' && Render(ToDoc(e))[0] in Render(ToDoc(e));
    assert !Space('{');
  }

  lemma {:induction false} TextsRead(entries: seq<Entry>, parse: Parser)
    requires GivesBack(parse, entries)
    ensures Events(Texts(entries), parse) == Docs(entries)
    ensures forall i :: 0 <= i < |entries| ==> !Damaged(Texts(entries)[i], parse)
  {
    if entries != [] {
      assert entries[0] in entries && forall e :: e in entries[1..] ==> e in entries;
      EntryReadable(entries[0], parse);
      TextsRead(entries[1..], parse);
      TextsCons(entries);
      ReadableCons(Render(ToDoc(entries[0])), Texts(entries[1..]), parse);
    }
  }

  lemma TextsCons(entries: seq<Entry>)
    requires entries != []
    ensures Texts(entries) == [Render(ToDoc(entries[0]))] + Texts(entries[1..])
    ensures Docs(entries) == [ToDoc(entries[0])] + Docs(entries[1..])
  {
  }

  lemma ReadableCons(line: string, lines: seq<string>, parse: Parser)
    requires Readable(line, parse) && !Blank(line)
    requires forall i :: 0 <= i < |lines| ==> !Damaged(lines[i], parse)
    ensures Events([line] + lines, parse) == [parse(line).value] + Events(lines, parse)
    ensures forall i :: 0 <= i < |[line] + lines| ==> !Damaged(([line] + lines)[i], parse)
  {
    assert ([line] + lines)[1..] == lines;
  }

  /** Whatever comes after the newline of the last whole event, if it is one line, decides alone. */
  lemma LastLine(entries: seq<Entry>, tail: string, parse: Parser)
    requires GivesBack(parse, entries) && OneLine(tail)
    ensures Read(Some(Log(entries) + tail), parse)
         == Success(Docs(entries) + if !Blank(tail) && Readable(tail, parse) then [parse(tail).value] else [])
  {
    LogLines(entries, tail);
    LinesFirst(tail, "");
    var lines := Texts(entries) + [tail];
    assert lines[..|lines| - 1] == Texts(entries);
    TextsRead(entries, parse);
    EventsSnoc(Texts(entries), tail, parse);
  }

  lemma AppendedReads(entries: seq<Entry>, parse: Parser)
    requires GivesBack(parse, entries)
    ensures Read(Some(Log(entries)), parse) == Success(Docs(entries))
  {
    LastLine(entries, "", parse);
    assert Blank("");
    assert Docs(entries) + [] == Docs(entries);
    assert Log(entries) + "" == Log(entries);
  }

  /**
    What a crash leaves of an append: the first `k` characters of the line and, where the byte cut
    fell inside a character of several bytes, replacement characters in its place.
   */
  predicate Torn(line: string, k: nat, r: string) {
    && k <= |line|
    && (forall c :: c in r ==> c == REPLACEMENT)
    && (r != [] ==> k < |line| && line[k] as int >= 0x80)
  }

  lemma DocsSnoc(entries: seq<Entry>, e: Entry)
    ensures Docs(entries + [e]) == Docs(entries) + [ToDoc(e)]
  {
  }

  lemma GivesBackSnoc(parse: Parser, entries: seq<Entry>, e: Entry)
    requires GivesBack(parse, entries + [e])
    ensures GivesBack(parse, entries) && parse(Render(ToDoc(e))) == Some(ToDoc(e))
  {
    assert e in entries + [e] && forall x :: x in entries ==> x in entries + [e];
  }

  /** All of the text, but no newline yet. */
  lemma TextArrived(entries: seq<Entry>, e: Entry, parse: Parser)
    requires GivesBack(parse, entries + [e])
    ensures Read(Some(Log(entries) + Render(ToDoc(e))), parse) == Success(Docs(entries + [e]))
  {
    GivesBackSnoc(parse, entries, e);
    RenderOneLine(ToDoc(e));
    EntryReadable(e, parse);
    DocsSnoc(entries, e);
    LastLine(entries, Render(ToDoc(e)), parse);
  }

  lemma TornOneLine(text: string, k: nat, r: string)
    requires OneLine(text) && k <= |text| && forall c :: c in r ==> c == REPLACEMENT
    ensures OneLine(text[..k] + r)
  {
  }

  /** Less than the text. */
  lemma TextTorn(entries: seq<Entry>, e: Entry, k: nat, r: string, parse: Parser)
    requires GivesBack(parse, entries) && OnlyBalanced(parse)
    requires k < |Render(ToDoc(e))| && Torn(Render(ToDoc(e)), k, r)
    ensures Read(Some(Log(entries) + (Render(ToDoc(e))[..k] + r)), parse) == Success(Docs(entries))
  {
    var text := Render(ToDoc(e));
    var tail := text[..k] + r;
    RenderOneLine(ToDoc(e));
    TornOneLine(text, k, r);
    LastLine(entries, tail, parse);
    assert Docs(entries) + [] == Docs(entries);
    if k == 0 {
      assert text[0] == '{';
      assert Blank(tail);
    } else {
      TornUnbalanced(ToDoc(e), k, r);
    }
  }

  lemma CutOfLine(text: string, k: nat, r: string)
    requires Torn(text + "\n", k, r)
    ensures k < |text| ==> Torn(text, k, r) && (text + "\n")[..k] == text[..k]
    ensures k == |text| ==> (text + "\n")[..k] + r == text
    ensures k > |text| ==> (text + "\n")[..k] + r == text + "\n"
  {
  }

  lemma CutReads(entries: seq<Entry>, e: Entry, k: nat, r: string, parse: Parser)
    requires GivesBack(parse, entries + [e]) && OnlyBalanced(parse) && Torn(Line(e), k, r)
    ensures Read(Some(Log(entries) + (Line(e)[..k] + r)), parse)
         == Success(if k >= |Render(ToDoc(e))| then Docs(entries + [e]) else Docs(entries))
  {
    var text := Render(ToDoc(e));
    CutOfLine(text, k, r);
    if k > |text| {
      LogSnoc(entries, e);
      AppendedReads(entries + [e], parse);
    } else if k == |text| {
      TextArrived(entries, e, parse);
    } else {
      GivesBackSnoc(parse, entries, e);
      TextTorn(entries, e, k, r, parse);
    }
  }

  lemma {:induction false} TerminatedSnoc(lines: seq<string>, line: string)
    ensures Terminated(lines + [line]) == Terminated(lines) + (line + "\n")
  {
    if lines == [] {
      assert (lines + [line])[1..] == [];
    } else {
      assert (lines + [line])[1..] == lines[1..] + [line];
      TerminatedSnoc(lines[1..], line);
    }
  }

  /** Appending an event to its file is appending it to the list. */
  lemma LogSnoc(entries: seq<Entry>, e: Entry)
    ensures Log(entries + [e]) == Log(entries) + Line(e)
  {
    assert Texts(entries + [e]) == Texts(entries) + [Render(ToDoc(e))];
    TerminatedSnoc(Texts(entries), Render(ToDoc(e)));
  }

  /** A log is refused exactly for a damaged line before its last one. */
  lemma RefusedExactly(text: string, parse: Parser)
    ensures Read(Some(text), parse).Failure?
            <==> exists i :: 0 <= i < |Lines(text)| - 1 && Damaged(Lines(text)[i], parse)
  {
    var lines := Lines(text);
    var earlier := lines[..|lines| - 1];
    if i :| 0 <= i < |lines| - 1 && Damaged(lines[i], parse) {
      assert earlier[i] == lines[i];
    }
  }

  /** Outside a string no escape is pending. */
  lemma {:induction false} UnquotedAt(st: Scan, s: string)
    requires st.escaped ==> st.quoted
    ensures Run(st, s).escaped ==> Run(st, s).quoted
    decreases |s|
  {
    if s != [] { UnquotedAt(Step(st, s[0]), s[1..]); }
  }

  /** A damaged line that is not the last is found, and it is the first such. */
  lemma DamagedMiddle(entries: seq<Entry>, line: string, later: string, parse: Parser)
    requires GivesBack(parse, entries) && Damaged(line, parse) && OneLine(line)
    ensures Read(Some(Log(entries) + (line + "\n" + later)), parse) == Failure(|entries| + 1)
  {
    LogLines(entries, line + "\n" + later);
    LinesFirst(line, later);
    FirstIsJoined(entries, line, Lines(later), parse);
    RefusedAt(Log(entries) + (line + "\n" + later), Texts(entries) + ([line] + Lines(later)), |entries|, parse);
  }

  lemma RefusedAt(text: string, lines: seq<string>, i: nat, parse: Parser)
    requires Lines(text) == lines && lines != [] && FirstDamaged(lines[..|lines| - 1], parse) == Some(i)
    ensures Read(Some(text), parse) == Failure(i + 1)
  {
  }

  lemma FirstIsJoined(entries: seq<Entry>, joined: string, later: seq<string>, parse: Parser)
    requires GivesBack(parse, entries) && Damaged(joined, parse) && later != []
    ensures var lines := Texts(entries) + ([joined] + later);
      FirstDamaged(lines[..|lines| - 1], parse) == Some(|entries|)
  {
    var lines := Texts(entries) + ([joined] + later);
    var earlier := lines[..|lines| - 1];
    TextsRead(entries, parse);
    assert earlier[|entries|] == joined;
    forall i | 0 <= i < |entries| ensures !Damaged(earlier[i], parse) {
      assert earlier[i] == Texts(entries)[i];
    }
  }

  // ---- With the process's own parser ------------------------------------------------------------------------------------

  lemma EventHeld(e: Entry)
    ensures WellKeyed(ToDoc(e))
  {
    var fields := ToDoc(e).fields;
    assert |"at"| == 2 && |"type"| == 4 && |"detail"| == 6;
    assert DistinctKeys(fields);
  }

  lemma OwnParser(entries: seq<Entry>)
    ensures GivesBack(Parse, entries) && OnlyBalanced(Parse)
  {
    forall e | e in entries ensures Parse(Render(ToDoc(e))) == Some(ToDoc(e)) {
      EventHeld(e);
      ParseRender(ToDoc(e));
    }
    forall s | Parse(s).Some? ensures Balanced(s) { ParseBalanced(s); }
  }

  /** Any sequence of appended events is read back exactly from the bytes of the file. */
  lemma ReadUndoesAppend(entries: seq<Entry>)
    ensures Read(Some(Loaded(Stored(Log(entries)))), Parse) == Success(Docs(entries))
  {
    OwnParser(entries);
    LoadedStored(Log(entries));
    AppendedReads(entries, Parse);
  }

  /** What is read back of an event is its time, its kind and its detail. */
  lemma EventFields(e: Entry)
    ensures IsRunEvent(ToDoc(e)) && |ToDoc(e).fields| == 2 + if e.detail.Some? then 1 else 0
    ensures FieldOf(ToDoc(e).fields, "at") == Some(TextDoc(e.at))
    ensures FieldOf(ToDoc(e).fields, "type") == Some(TextDoc(e.kind))
    ensures FieldOf(ToDoc(e).fields, "detail") == if e.detail.Some? then Some(e.detail.value) else None
  {
    var fields := ToDoc(e).fields;
    assert fields[0] == ("at", TextDoc(e.at)) && fields[1..][0] == ("type", TextDoc(e.kind));
    assert "at" != "type" && "at" != "detail" && "type" != "detail" by { assert |"at"| == 2 && |"type"| == 4 && |"detail"| == 6; }
    var rest := fields[1..][1..];
    assert FieldOf(fields, "detail") == FieldOf(fields[1..], "detail") == FieldOf(rest, "detail");
    if e.detail.Some? {
      assert rest == [("detail", e.detail.value)];
    } else {
      assert rest == [];
    }
  }

  /** The same for the text a torn append leaves, cut after `k` characters. */
  lemma TornAppend(entries: seq<Entry>, e: Entry, k: nat, r: string)
    requires Torn(Line(e), k, r)
    ensures Read(Some(Log(entries) + (Line(e)[..k] + r)), Parse)
         == Success(if k >= |Render(ToDoc(e))| then Docs(entries + [e]) else Docs(entries))
  {
    OwnParser(entries + [e]);
    CutReads(entries, e, k, r, Parse);
  }

  // ---- In bytes ---------------------------------------------------------------------------------------------------------

  function Points(s: string): seq<Utf8.Scalar> {
    seq(|s|, i requires 0 <= i < |s| => s[i] as int)
  }

  function Chars(points: seq<Utf8.Scalar>): string {
    seq(|points|, i requires 0 <= i < |points| => points[i] as char)
  }

  /** A text as the file holds it. */
  function Stored(text: string): seq<Utf8.Byte> { Utf8.Encode(Points(text)) }

  /** The text a file's bytes are read as. */
  function Loaded(bytes: seq<Utf8.Byte>): string { Chars(Utf8.Decode(bytes)) }

  lemma LoadedCut(log: string, line: string, k: nat)
    requires k <= |Stored(line)|
    ensures var j := Utf8.Whole(Points(line), k);
      Loaded(Stored(log) + Stored(line)[..k]) == log + (line[..j] + Chars(Utf8.CutTail(Points(line), k)))
  {
    var j, tail := Utf8.Whole(Points(line), k), Utf8.CutTail(Points(line), k);
    Utf8.DecodeWhole(Points(log), Stored(line)[..k]);
    assert Stored(line)[..k] + [] == Stored(line)[..k] && tail + [] == tail;
    Utf8.DecodeCut(Points(line), k, [], Stored(line)[..k]);
    CharsOf(log, line[..j], tail);
    assert Points(line[..j]) == Points(line)[..j];
  }

  lemma CharsOf(a: string, b: string, tail: seq<Utf8.Scalar>)
    ensures Chars(Points(a) + (Points(b) + tail)) == a + (b + Chars(tail))
  {
  }

  lemma CutIsTorn(line: string, k: nat)
    requires k <= |Stored(line)|
    ensures Torn(line, Utf8.Whole(Points(line), k), Chars(Utf8.CutTail(Points(line), k)))
  {
    Utf8.BrokenDecodes(Points(line), k, []);
  }

  lemma LoadedStored(text: string)
    ensures Loaded(Stored(text)) == text
  {
    Utf8.DecodeExact(Points(text));
    assert Chars(Points(text)) == text;
  }

  lemma StoredPrefix(line: string, n: nat, j: nat)
    requires n <= j <= |line|
    ensures |Utf8.Encode(Points(line)[..n])| <= |Utf8.Encode(Points(line)[..j])|
  {
    Utf8.EncodeConcat(Points(line)[..n], Points(line)[n..j]);
    assert Points(line)[..j] == Points(line)[..n] + Points(line)[n..j];
  }

  /** As many bytes as the first `n` characters take have arrived exactly if those characters have. */
  lemma WholeArrived(line: string, n: nat, k: nat)
    requires n <= |line| && k <= |Stored(line)|
    ensures Utf8.Whole(Points(line), k) >= n <==> k >= |Stored(line[..n])|
  {
    var j := Utf8.Whole(Points(line), k);
    Utf8.WholeFits(Points(line), k);
    assert Points(line[..n]) == Points(line)[..n];
    if j >= n {
      StoredPrefix(line, n, j);
    } else {
      StoredPrefix(line, j + 1, n);
      OneMore(Points(line), j);
    }
  }

  lemma OneMore(points: seq<Utf8.Scalar>, j: nat)
    requires j < |points|
    ensures |Utf8.Encode(points[..j + 1])| == |Utf8.Encode(points[..j])| + |Utf8.Bytes(points[j])|
  {
    Utf8.EncodeConcat(points[..j], [points[j]]);
    assert points[..j + 1] == points[..j] + [points[j]];
    assert [points[j]][1..] == [];
  }

  /**
    After an append interrupted at any byte the log reads without error: the events before it, and
    the new one exactly if all the bytes of its text arrived, with or without its newline.
   */
  lemma CrashedAppend(entries: seq<Entry>, e: Entry, k: nat)
    requires k <= |Stored(Line(e))|
    ensures Read(Some(Loaded(Stored(Log(entries)) + Stored(Line(e))[..k])), Parse)
         == Success(if k >= |Stored(Render(ToDoc(e)))| then Docs(entries + [e]) else Docs(entries))
  {
    var text := Render(ToDoc(e));
    var points := Points(Line(e));
    LoadedCut(Log(entries), Line(e), k);
    CutIsTorn(Line(e), k);
    TornAppend(entries, e, Utf8.Whole(points, k), Chars(Utf8.CutTail(points, k)));
    WholeArrived(Line(e), |text|, k);
    assert Line(e)[..|text|] == text;
  }

  // ---- The next append -------------------------------------------------------------------------------------------------

  lemma EventOpens(e: Entry)
    ensures var text := Render(ToDoc(e)); |text| >= 3 && text[0] == '{' && text[1] == '\"' && text[2] == 'a'
  {
    var fields := RenderFields(ToDoc(e), 0);
    assert ToDoc(e).fields[0].0 == "at";
    assert EscapeAll("at")[0] == 'a';
    assert Quote("at")[0] == '\"' && Quote("at")[1] == 'a';
    assert fields[0] == '\"' && fields[1] == 'a';
  }

  /** A whole document with another right behind it is not a document. */
  lemma TwoDocuments(e: Entry, next: Entry)
    ensures Parse(Render(ToDoc(e)) + Render(ToDoc(next))).None?
  {
    var second := Render(ToDoc(next));
    EventHeld(e);
    EventOpens(next);
    ReadRendered(ToDoc(e), second);
    NoWhite(second);
  }

  /** A text cut outside any string, continued by a whole document, leaves a bracket open. */
  lemma OpenBracketStays(d: Doc, k: nat, r: string, next: Doc)
    requires d.ObjectDoc? && 0 < k < |Render(d)| && !Run(At(0), Render(d)[..k]).quoted
    requires forall c :: c in r ==> c == REPLACEMENT
    ensures Parse(Render(d)[..k] + r + Render(next)).None?
  {
    var cut := Render(d)[..k];
    var n := Run(At(0), cut).depth;
    TornUnbalanced(d, k, r);
    UnquotedAt(At(0), cut);
    SameDepth(Run(At(0), cut), r);
    RunConcat(At(0), cut, r);
    RenderNested(next, n);
    RunConcat(At(0), cut + r, Render(next));
    if Parse(cut + r + Render(next)).Some? { ParseBalanced(cut + r + Render(next)); }
  }

  /** However a text was torn, the line that the next event continues is not an event. */
  lemma JoinedUnreadable(e: Entry, k: nat, r: string, next: Entry)
    requires 0 < k && Torn(Render(ToDoc(e)), k, r)
    ensures Parse(Render(ToDoc(e))[..k] + r + Render(ToDoc(next))).None?
  {
    var text := Render(ToDoc(e));
    EventOpens(next);
    if k == |text| {
      TwoDocuments(e, next);
      assert text[..k] + r == text;
    } else if Run(At(0), text[..k]).quoted {
      OpenStringBreaks(text[..k], r, Render(ToDoc(next)));
    } else {
      OpenBracketStays(ToDoc(e), k, r, ToDoc(next));
    }
  }

  lemma JoinedOneLine(d: Doc, k: nat, r: string, next: Doc)
    requires k <= |Render(d)| && forall c :: c in r ==> c == REPLACEMENT
    ensures OneLine(Render(d)[..k] + r + Render(next))
  {
    RenderOneLine(d);
    RenderOneLine(next);
    TornOneLine(Render(d), k, r);
  }

  /** The log is refused at the joined line from then on, whatever is appended after it. */
  lemma JoinedRefused(entries: seq<Entry>, e: Entry, k: nat, r: string, next: Entry, later: string)
    requires 0 < k && Torn(Render(ToDoc(e)), k, r)
    ensures var joined := Render(ToDoc(e))[..k] + r + Render(ToDoc(next));
      Read(Some(Log(entries) + (joined + "\n" + later)), Parse) == Failure(|entries| + 1)
  {
    var joined := Render(ToDoc(e))[..k] + r + Render(ToDoc(next));
    EventOpens(e);
    assert joined[0] == '{' && joined[0] in joined && !Space('{');
    JoinedUnreadable(e, k, r, next);
    JoinedOneLine(ToDoc(e), k, r, ToDoc(next));
    OwnParser(entries);
    DamagedMiddle(entries, joined, later, Parse);
  }

  lemma LoadedJoined(log: string, line: string, k: nat, more: string)
    requires k <= |Stored(line)| && more != [] && more[0] as int < 0x80
    ensures var j := Utf8.Whole(Points(line), k);
      Loaded(Stored(log) + Stored(line)[..k] + Stored(more)) == log + (line[..j] + (Chars(Utf8.CutTail(Points(line), k)) + more))
  {
    var j, tail := Utf8.Whole(Points(line), k), Utf8.CutTail(Points(line), k);
    AsciiFirst(more);
    Utf8.DecodeJoined(Points(log), Points(line), k, Points(more));
    assert Points(line[..j]) == Points(line)[..j];
    CharsOf(log, line[..j], tail + Points(more));
    assert Chars(tail + Points(more)) == Chars(tail) + more;
  }

  lemma AsciiFirst(more: string)
    requires more != [] && more[0] as int < 0x80
    ensures Utf8.Ends(Stored(more))
  {
  }

  lemma ReadsNext(entries: seq<Entry>, next: Entry)
    ensures Read(Some(Log(entries) + Line(next)), Parse) == Success(Docs(entries + [next]))
  {
    OwnParser(entries + [next]);
    LogSnoc(entries, next);
    AppendedReads(entries + [next], Parse);
  }

  /** A cut strictly inside the line leaves its first character, and at most its text. */
  lemma SomeArrived(e: Entry, k: nat)
    requires 0 < k < |Stored(Line(e))|
    ensures var j := Utf8.Whole(Points(Line(e)), k); var r := Chars(Utf8.CutTail(Points(Line(e)), k));
      0 < j <= |Render(ToDoc(e))| && Torn(Render(ToDoc(e)), j, r) && Line(e)[..j] == Render(ToDoc(e))[..j]
  {
    var points := Points(Line(e));
    EventOpens(e);
    assert points[0] == '{' as int && |Utf8.Bytes(points[0])| == 1;
    Utf8.WholeFits(points, k);
    CutIsTorn(Line(e), k);
    LineCut(Render(ToDoc(e)), Utf8.Whole(points, k), Chars(Utf8.CutTail(points, k)));
  }

  lemma LineCut(text: string, j: nat, r: string)
    requires j <= |text| && Torn(text + "\n", j, r)
    ensures Torn(text, j, r) && (text + "\n")[..j] == text[..j]
  {
  }

  lemma Joining(log: string, cut: string, r: string, second: string)
    ensures log + (cut + (r + (second + "\n"))) == log + (cut + r + second + "\n" + "")
  {
  }

  /** What the bytes of the log read as after a crash and one more event. */
  function Reread(entries: seq<Entry>, e: Entry, k: nat, next: Entry): Result<seq<Doc>, nat>
    requires k <= |Stored(Line(e))|
  {
    Read(Some(Loaded(Stored(Log(entries)) + Stored(Line(e))[..k] + Stored(Line(next)))), Parse)
  }

  lemma RereadText(entries: seq<Entry>, e: Entry, k: nat, next: Entry)
    requires k <= |Stored(Line(e))|
    ensures var j := Utf8.Whole(Points(Line(e)), k); var r := Chars(Utf8.CutTail(Points(Line(e)), k));
      Reread(entries, e, k, next) == Read(Some(Log(entries) + (Line(e)[..j] + (r + Line(next)))), Parse)
  {
    EventOpens(next);
    LoadedJoined(Log(entries), Line(e), k, Line(next));
  }

  lemma RereadNothing(entries: seq<Entry>, e: Entry, next: Entry)
    ensures Reread(entries, e, 0, next) == Success(Docs(entries + [next]))
  {
    RereadText(entries, e, 0, next);
    assert Utf8.Whole(Points(Line(e)), 0) == 0 && Chars([]) == "";
    assert "" + ("" + Line(next)) == Line(next);
    ReadsNext(entries, next);
  }

  lemma RereadAll(entries: seq<Entry>, e: Entry, next: Entry)
    ensures Reread(entries, e, |Stored(Line(e))|, next) == Success(Docs(entries + [e] + [next]))
  {
    RereadText(entries, e, |Stored(Line(e))|, next);
    WholeLine(Line(e));
    AllText(Log(entries), Line(e), Line(next));
    LogSnoc(entries, e);
    ReadsNext(entries + [e], next);
  }

  lemma WholeLine(line: string)
    ensures var k := |Stored(line)|;
      line[..Utf8.Whole(Points(line), k)] == line && Chars(Utf8.CutTail(Points(line), k)) == ""
  {
    Utf8.WholeFits(Points(line), |Stored(line)|);
    assert Points(line)[..|line|] == Points(line) && line[..|line|] == line;
  }

  lemma AllText(log: string, line: string, more: string)
    ensures log + (line + ("" + more)) == log + line + more
  {
  }

  lemma RereadSome(entries: seq<Entry>, e: Entry, k: nat, next: Entry)
    requires 0 < k < |Stored(Line(e))|
    ensures Reread(entries, e, k, next) == Failure(|entries| + 1)
  {
    var j, r := Utf8.Whole(Points(Line(e)), k), Chars(Utf8.CutTail(Points(Line(e)), k));
    RereadText(entries, e, k, next);
    SomeArrived(e, k);
    JoinedRefused(entries, e, j, r, next, "");
    Joining(Log(entries), Render(ToDoc(e))[..j], r, Render(ToDoc(next)));
  }

  /**
    The tolerance ends with the next append: after a crash and one more event the log reads if and
    only if nothing, or all, of the interrupted line had reached the file. Otherwise it is refused
    at that line (and stays so, by `JoinedRefused`, whatever is appended later).
   */
  lemma NextAppendExactly(entries: seq<Entry>, e: Entry, k: nat, next: Entry)
    requires k <= |Stored(Line(e))|
    ensures Reread(entries, e, k, next) ==
            if k == 0 then Success(Docs(entries + [next]))
            else if k == |Stored(Line(e))| then Success(Docs(entries + [e] + [next]))
            else Failure(|entries| + 1)
  {
    if k == 0 {
      RereadNothing(entries, e, next);
    } else if k == |Stored(Line(e))| {
      RereadAll(entries, e, next);
    } else {
      RereadSome(entries, e, k, next);
    }
  }
}
