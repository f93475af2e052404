/** What each request does to the record it finds, said on its bytes and on the document they hold. */
module CommitAnswers {
  import opened Prelude
  import opened Json
  import opened Commit
  import opened CommitHistory
  import opened CommitTheorems
  import opened CommitProgress

  const LAST_GENERATION: int := 0x1F_FFFF_FFFF_FFFF

  /** A document that carries no generation is of the first; one that does is of that, if it is a version at all. */
  predicate DocumentAt(document: Json, expected: int) {
    if document.Obj? && "generation" in document.fields
    then document.fields["generation"] == Num(expected as real) && 0 <= expected <= LAST_GENERATION
    else expected == 0
  }

  /** The record is absent and the first is expected, or its text parses to a document of that generation. */
  predicate RecordAt(codec: Codec, content: Option<string>, expected: int) {
    match content
    case None => expected == 0
    case Some(text) => codec.parse(text).Some? && DocumentAt(codec.parse(text).value, expected)
  }

  /** What an update is handed: null for an absent record, and nothing for one that does not parse. */
  predicate ReadsAs(codec: Codec, content: Option<string>, document: Json) {
    match content
    case None => document == Null
    case Some(text) => codec.parse(text) == Some(document)
  }

  predicate Unreadable(codec: Codec, content: Option<string>) {
    content.Some? && codec.parse(content.value).None?
  }

  lemma GenerationMeans(document: Json, expected: int)
    ensures GenerationOf(document) == Some(expected) <==> DocumentAt(document, expected)
  {
    if document.Obj? && "generation" in document.fields {
      match document.fields["generation"]
      case Num(n) => assert n == expected as real ==> n.Floor == expected;
      case _ =>
    }
  }

  // ---- One turn --------------------------------------------------------------------------------------

  /** The operation goes on to commit these bytes; nothing is published yet. */
  predicate Commits(w: Writer, i: nat, w': Writer, bytes: string)
    requires i < |w.ops| == |w'.ops|
  {
    && w'.ops[i].phase == Writing(bytes, w.nonce) && w'.files == w.files && w'.versions == w.versions
    && w'.active == w.active
  }

  /** The operation ends there: nothing is published, the record's bytes stay, and it is released. */
  predicate Ends(w: Writer, i: nat, w': Writer, outcome: Outcome)
    requires i < |w.ops| == |w'.ops|
  {
    && w'.ops[i].phase == Settled(outcome) && w'.files == w.files && w'.versions == w.versions
    && w'.active == w.active - {w.ops[i].path}
  }

  ghost predicate LookedRight(codec: Codec, w: Writer, i: nat, w': Writer)
    requires i < |w.ops| == |w'.ops|
  {
    var content := Content(w.files, w.ops[i].path);
    var refused := Refused(|w.versions|);
    match w.ops[i].request
    case Put(bytes) => Commits(w, i, w', bytes)
    case Keep(bytes) =>
      if content.None? then Commits(w, i, w', bytes)
      else Ends(w, i, w', if content.value == bytes then Replayed(|w.versions|) else refused)
    case Update(_) =>
      if Unreadable(codec, content) then Ends(w, i, w', refused)
      else w'.ops[i].phase.Mutating? && ReadsAs(codec, content, w'.ops[i].phase.current)
           && w'.files == w.files && w'.versions == w.versions
    case Replace(expected, next) =>
      if RecordAt(codec, content, expected) then Commits(w, i, w', codec.render(next)) else Ends(w, i, w', refused)
  }

  /**
    The turn of a request, on the bytes it finds. A replacement goes on to commit exactly if the record
    is of the generation expected; an update is handed the document, and an unreadable record is
    refused, not overwritten; an immutable write commits only where nothing is.
   */
  lemma LookExactly(codec: Codec, w: Writer, i: nat)
    requires Enabled(w, Look(i))
    ensures |Next(codec, w, Look(i)).ops| == |w.ops| && LookedRight(codec, w, i, Next(codec, w, Look(i)))
  {
    var content := Content(w.files, w.ops[i].path);
    match w.ops[i].request
    case Put(_) =>
    case Keep(_) =>
    case Update(_) =>
    case Replace(expected, _) =>
      var current := if content.None? then Some(Null) else codec.parse(content.value);
      if current.Some? { GenerationMeans(current.value, expected); }
  }

  ghost predicate MutatedRight(codec: Codec, w: Writer, i: nat, w': Writer)
    requires i < |w.ops| == |w'.ops| && w.ops[i].phase.Mutating? && w.ops[i].request.Update?
  {
    match w.ops[i].request.mutate(w.ops[i].phase.current)
    case None => Ends(w, i, w', Refused(|w.versions|))
    case Some(next) => Commits(w, i, w', codec.render(next))
  }

  /** An update commits what its function makes of the document it was handed, or ends where it throws. */
  lemma MutateExactly(codec: Codec, w: Writer, i: nat)
    requires Enabled(w, Mutate(i))
    ensures |Next(codec, w, Mutate(i)).ops| == |w.ops| && MutatedRight(codec, w, i, Next(codec, w, Mutate(i)))
  {
  }

  // ---- Over whole runs ------------------------------------------------------------------------------------

  /** These are the bytes the request asks for over that content. */
  ghost predicate AskedFor(codec: Codec, request: Request, content: Option<string>, bytes: string) {
    match request
    case Put(asked) => bytes == asked
    case Keep(asked) => content.None? && bytes == asked
    case Update(mutate) =>
      exists document :: ReadsAs(codec, content, document)
                         && mutate(document).Some? && bytes == codec.render(mutate(document).value)
    case Replace(expected, next) => RecordAt(codec, content, expected) && bytes == codec.render(next)
  }

  /** The request must not be carried out over that content. */
  ghost predicate NotToBeDone(codec: Codec, request: Request, content: Option<string>) {
    match request
    case Put(_) => false
    case Keep(asked) => content.Some? && content.value != asked
    case Update(mutate) => Unreadable(codec, content) || exists document :: ReadsAs(codec, content, document) && mutate(document).None?
    case Replace(expected, _) => !RecordAt(codec, content, expected)
  }

  lemma EffectMeans(codec: Codec, request: Request, content: Option<string>)
    ensures Effect(codec, request, content).Some? ==> AskedFor(codec, request, content, Effect(codec, request, content).value)
    ensures Effect(codec, request, content).None? && !Replays(request, content) ==> NotToBeDone(codec, request, content)
  {
    var current := if content.None? then Some(Null) else codec.parse(content.value);
    if current.Some? {
      assert ReadsAs(codec, content, current.value);
      if request.Replace? { GenerationMeans(current.value, request.expected); }
    }
  }

  /**
    In every run, with crashes anywhere: a write that resolved published the bytes its request asks for
    over the version just before, and one that was refused was decided on a version over which it must
    not be done, and has published nothing.
   */
  lemma DoneAsAsked(codec: Codec, records: map<string, string>, steps: seq<Step>, i: nat)
    requires Happens(codec, records, steps) && i < |Reached(codec, records, steps).ops|
    ensures var w := Reached(codec, records, steps); var op := w.ops[i];
      match op.phase
      case Settled(Wrote) =>
        exists k: nat :: k < |w.versions| && w.versions[k].writer == Some(i) && w.versions[k].path == op.path
                         && AskedFor(codec, op.request, Latest(records, w.versions[..k], op.path), w.versions[k].bytes)
      case Settled(Refused(k)) =>
        k <= |w.versions| && NotToBeDone(codec, op.request, Latest(records, w.versions[..k], op.path))
        && forall l :: 0 <= l < |w.versions| ==> w.versions[l].writer != Some(i)
      case _ => true
  {
    ProtocolKeeps(codec, records, steps);
    var w := Reached(codec, records, steps);
    var op := w.ops[i];
    assert PhaseSound(codec, op, i, w.files, w.initial, w.versions);
    match op.phase
    case Settled(Wrote) =>
      NothingLost(codec, records, steps, i);
      var k: nat :| CommitTheorems.Published(codec, records, w, i, k);
      EffectMeans(codec, op.request, Latest(records, w.versions[..k], op.path));
    case Settled(Refused(k)) =>
      assert DecidedOn(codec, op, w.initial, w.versions, k);
      EffectMeans(codec, op.request, Latest(records, w.versions[..k], op.path));
    case _ =>
  }

  // ---- Temporary files ------------------------------------------------------------------------------------

  /** An operation is writing this temporary file, or about to rename it. */
  ghost predicate InUse(ops: seq<Op>, path: string, nonce: nat) {
    exists i :: 0 <= i < |ops| && Drafts(ops[i]) && ops[i].path == path && ops[i].phase.nonce == nonce
  }

  ghost predicate NoLitter(w: Writer) {
    forall p: string, n: nat :: Temp(p, n) in w.files ==> InUse(w.ops, p, n)
  }

  ghost predicate NoCrash(steps: seq<Step>) { forall s :: s in steps ==> !s.Crash? && !s.CrashInSync? }

  /** Another operation's step leaves this one drafting. */
  lemma StaysInUse(ops: seq<Op>, k: nat, phase: Phase, path: string, nonce: nat)
    requires k < |ops| && InUse(ops, path, nonce)
    requires Drafts(ops[k]) && ops[k].path == path && ops[k].phase.nonce == nonce ==>
      (phase.Writing? || phase.Written?) && phase.nonce == nonce
    ensures InUse(ops[k := ops[k].(phase := phase)], path, nonce)
  {
    var i :| 0 <= i < |ops| && Drafts(ops[i]) && ops[i].path == path && ops[i].phase.nonce == nonce;
    var ops' := ops[k := ops[k].(phase := phase)];
    assert Drafts(ops'[i]) && ops'[i].path == path && ops'[i].phase.nonce == nonce;
  }

  lemma LitterInside(codec: Codec, w: Writer, step: Step)
    requires NoLitter(w) && Enabled(w, step) && (InsideStep(step) || step.Enter?)
    ensures NoLitter(Next(codec, w, step))
  {
    var w' := Next(codec, w, step);
    forall p: string, n: nat | Temp(p, n) in w'.files ensures InUse(w'.ops, p, n) {
      if Temp(p, n) in w.files {
        StaysInUse(w.ops, step.op, w'.ops[step.op].phase, p, n);
      } else {
        assert Drafts(w'.ops[step.op]) && w'.ops[step.op].path == p && w'.ops[step.op].phase.nonce == n;
      }
    }
  }

  lemma LitterStep(codec: Codec, w: Writer, step: Step)
    requires NoLitter(w) && Enabled(w, step) && !step.Crash? && !step.CrashInSync?
    ensures NoLitter(Next(codec, w, step))
  {
    if InsideStep(step) || step.Enter? {
      LitterInside(codec, w, step);
    } else {
      var w' := Next(codec, w, step);
      forall p: string, n: nat | Temp(p, n) in w'.files ensures InUse(w'.ops, p, n) {
        assert Temp(p, n) in w.files;
        var i :| 0 <= i < |w.ops| && Drafts(w.ops[i]) && w.ops[i].path == p && w.ops[i].phase.nonce == n;
        assert w'.ops[i] == w.ops[i];
      }
    }
  }

  /**
    Unless the process dies, every temporary file is one an operation is still writing or about to
    rename: a commit consumes its own, and one that fails removes it.
   */
  lemma {:induction false} NothingLeftBehind(codec: Codec, records: map<string, string>, steps: seq<Step>)
    requires Happens(codec, records, steps) && NoCrash(steps)
    ensures NoLitter(Reached(codec, records, steps))
    decreases |steps|
  {
    if steps != [] {
      var n := |steps| - 1;
      NothingLeftBehind(codec, records, steps[..n]);
      LitterStep(codec, Reached(codec, records, steps[..n]), steps[n]);
    }
  }
}
