/** Every record's content is its published history: each version the request applied to the one before. */
module CommitHistory {
  import opened Prelude
  import opened Json
  import opened Commit
  import opened CommitLaws

  /** A record's content after a history: the last version on its path, or what it held at first. */
  function Latest(initial: map<string, string>, versions: seq<Version>, path: string): Option<string> {
    if versions == [] then if path in initial then Some(initial[path]) else None
    else if versions[|versions| - 1].path == path then Some(versions[|versions| - 1].bytes)
    else Latest(initial, versions[..|versions| - 1], path)
  }

  lemma LatestSnoc(initial: map<string, string>, versions: seq<Version>, v: Version, path: string)
    ensures Latest(initial, versions + [v], path)
         == if v.path == path then Some(v.bytes) else Latest(initial, versions, path)
  {
    assert (versions + [v])[..|versions|] == versions;
  }

  ghost predicate PublishedBy(versions: seq<Version>, i: nat) {
    exists k :: 0 <= k < |versions| && versions[k].writer == Some(i)
  }

  /** The version a settled operation was decided on: the record's content after `k` versions. */
  ghost predicate DecidedOn(codec: Codec, op: Op, initial: map<string, string>, versions: seq<Version>, k: nat) {
    k <= |versions| &&
    var content := Latest(initial, versions[..k], op.path);
    if op.phase == Settled(Replayed(k)) then Replays(op.request, content)
    else !Replays(op.request, content) && Effect(codec, op.request, content).None?
  }

  /** What an operation's phase says about the store. */
  ghost predicate PhaseSound(
    codec: Codec, op: Op, i: nat, files: map<File, string>, initial: map<string, string>, versions: seq<Version>)
  {
    var content := Content(files, op.path);
    match op.phase
    case Waiting => !PublishedBy(versions, i)
    case Entered => !PublishedBy(versions, i)
    case Mutating(current) =>
      !PublishedBy(versions, i) && op.request.Update? && ParsedOrNull(codec, content) == Some(current)
    case Writing(bytes, _) => !PublishedBy(versions, i) && Effect(codec, op.request, content) == Some(bytes)
    case Written(bytes, nonce) =>
      && !PublishedBy(versions, i) && Effect(codec, op.request, content) == Some(bytes)
      && Temp(op.path, nonce) in files && files[Temp(op.path, nonce)] == bytes
    case Published(bytes) => PublishedBy(versions, i) && content == Some(bytes)
    case Settled(Wrote) => PublishedBy(versions, i)
    case Settled(Replayed(k)) => !PublishedBy(versions, i) && DecidedOn(codec, op, initial, versions, k)
    case Settled(Refused(k)) => !PublishedBy(versions, i) && DecidedOn(codec, op, initial, versions, k)
    case Settled(_) => true
  }

  /** A version published by an operation is that operation's request applied to the version before it. */
  ghost predicate VersionSound(codec: Codec, ops: seq<Op>, initial: map<string, string>, versions: seq<Version>, k: nat)
    requires k < |versions|
  {
    versions[k].writer.Some? ==>
      var i := versions[k].writer.value;
      && i < |ops| && ops[i].path == versions[k].path
      && Effect(codec, ops[i].request, Latest(initial, versions[..k], ops[i].path)) == Some(versions[k].bytes)
  }

  predicate SamePathWriters(v: Version, u: Version) {
    v.path == u.path && v.writer.Some? && u.writer.Some?
  }

  /** Operations on one record publish in the order in which they were called. */
  ghost predicate InCallOrder(versions: seq<Version>) {
    forall k, l :: 0 <= k < l < |versions| && SamePathWriters(versions[k], versions[l]) ==>
      versions[k].writer.value < versions[l].writer.value
  }

  ghost predicate Sound(codec: Codec, w: Writer) {
    && Queued(w)
    && (forall p :: Content(w.files, p) == Latest(w.initial, w.versions, p))
    && (forall i :: 0 <= i < |w.ops| ==> PhaseSound(codec, w.ops[i], i, w.files, w.initial, w.versions))
    && (forall k :: 0 <= k < |w.versions| ==> VersionSound(codec, w.ops, w.initial, w.versions, k))
    && InCallOrder(w.versions)
  }

  // ---- Frames ----------------------------------------------------------------------------------------

  /** A step that is not this operation's keeps what its phase says. */
  lemma PhaseFrame(
    codec: Codec, op: Op, i: nat, files: map<File, string>, files': map<File, string>,
    initial: map<string, string>, versions: seq<Version>, versions': seq<Version>)
    requires PhaseSound(codec, op, i, files, initial, versions)
    requires versions <= versions'
    requires forall k :: |versions| <= k < |versions'| ==> versions'[k].writer != Some(i)
    requires InSection(op) ==> Content(files', op.path) == Content(files, op.path)
    requires forall n :: Temp(op.path, n) in files && InSection(op) ==>
      Temp(op.path, n) in files' && files'[Temp(op.path, n)] == files[Temp(op.path, n)]
    ensures PhaseSound(codec, op, i, files', initial, versions')
  {
    PublishedFrame(versions, versions', i);
    forall k | 0 <= k <= |versions| ensures versions'[..k] == versions[..k] {}
  }

  lemma PublishedFrame(versions: seq<Version>, versions': seq<Version>, i: nat)
    requires versions <= versions'
    requires forall k :: |versions| <= k < |versions'| ==> versions'[k].writer != Some(i)
    ensures PublishedBy(versions', i) <==> PublishedBy(versions, i)
  {
    if PublishedBy(versions, i) {
      var k :| 0 <= k < |versions| && versions[k].writer == Some(i);
      assert versions'[k].writer == Some(i);
    }
  }

  /** What a step inside a section leaves in the store: other records and their temporaries stay. */
  ghost predicate OnlyOwn(w: Writer, i: nat, t: Turn)
    requires i < |w.ops|
  {
    && w.versions <= t.versions
    && (forall k :: |w.versions| <= k < |t.versions| ==> t.versions[k].writer == Some(i))
    && (forall f: File :: f.path != w.ops[i].path ==>
          (f in t.files <==> f in w.files) && (f in w.files ==> t.files[f] == w.files[f]))
  }

  lemma TurnOwn(codec: Codec, w: Writer, step: Step)
    requires Enabled(w, step) && InsideStep(step)
    ensures OnlyOwn(w, step.op, Taken(codec, w, step))
  {
  }

  lemma TurnDecides(codec: Codec, w: Writer, step: Step)
    requires Enabled(w, step) && (step.Look? || step.Mutate?)
    requires var op := w.ops[step.op];
      Content(w.files, op.path) == Latest(w.initial, w.versions, op.path)
      && PhaseSound(codec, op, step.op, w.files, w.initial, w.versions)
    ensures var t := Taken(codec, w, step); var i := step.op;
      && t.versions == w.versions
      && (forall p :: Content(t.files, p) == Content(w.files, p))
      && PhaseSound(codec, w.ops[i].(phase := t.phase), i, t.files, w.initial, t.versions)
  {
    assert w.versions[..|w.versions|] == w.versions;
  }

  lemma TurnWrites(codec: Codec, w: Writer, step: Step)
    requires Enabled(w, step) && InsideStep(step) && !step.Look? && !step.Mutate? && !step.Rename?
    requires PhaseSound(codec, w.ops[step.op], step.op, w.files, w.initial, w.versions)
    ensures var t := Taken(codec, w, step); var i := step.op;
      && t.versions == w.versions
      && (forall p :: Content(t.files, p) == Content(w.files, p))
      && PhaseSound(codec, w.ops[i].(phase := t.phase), i, t.files, w.initial, t.versions)
  {
  }

  /** The step's own operation is where its new phase says, and the record is its latest version. */
  lemma TurnSound(codec: Codec, w: Writer, step: Step)
    requires Enabled(w, step) && InsideStep(step) && Sound(codec, w) && !step.Rename?
    ensures var t := Taken(codec, w, step); var i := step.op;
      && t.versions == w.versions
      && (forall p :: Content(t.files, p) == Content(w.files, p))
      && PhaseSound(codec, w.ops[i].(phase := t.phase), i, t.files, w.initial, t.versions)
  {
    var op := w.ops[step.op];
    assert Content(w.files, op.path) == Latest(w.initial, w.versions, op.path);
    assert PhaseSound(codec, op, step.op, w.files, w.initial, w.versions);
    if step.Look? || step.Mutate? {
      TurnDecides(codec, w, step);
    } else {
      TurnWrites(codec, w, step);
    }
  }

  lemma RenameSound(codec: Codec, w: Writer, i: nat)
    requires Enabled(w, Rename(i)) && Sound(codec, w)
    ensures var t := Renamed(w, i);
      && (forall p :: Content(t.files, p) == Latest(w.initial, t.versions, p))
      && PhaseSound(codec, w.ops[i].(phase := t.phase), i, t.files, w.initial, t.versions)
      && t.versions == w.versions + [Version(w.ops[i].path, Some(i), w.ops[i].phase.bytes)]
  {
    var op, t := w.ops[i], Renamed(w, i);
    assert PhaseSound(codec, op, i, w.files, w.initial, w.versions);
    var v := Version(op.path, Some(i), op.phase.bytes);
    assert t.versions == w.versions + [v];
    assert t.versions[|w.versions|].writer == Some(i);
    forall p ensures Content(t.files, p) == Latest(w.initial, t.versions, p) {
      LatestSnoc(w.initial, w.versions, v, p);
    }
  }

  lemma RenameHistory(codec: Codec, w: Writer, i: nat)
    requires Enabled(w, Rename(i)) && Sound(codec, w)
    ensures var t := Renamed(w, i); var ops' := w.ops[i := w.ops[i].(phase := t.phase)];
      && (forall k :: 0 <= k < |t.versions| ==> VersionSound(codec, ops', w.initial, t.versions, k))
      && InCallOrder(t.versions)
  {
    var op, t := w.ops[i], Renamed(w, i);
    var ops' := w.ops[i := w.ops[i].(phase := t.phase)];
    assert PhaseSound(codec, op, i, w.files, w.initial, w.versions);
    forall k | 0 <= k < |t.versions| ensures VersionSound(codec, ops', w.initial, t.versions, k) {
      if k < |w.versions| {
        assert VersionSound(codec, w.ops, w.initial, w.versions, k);
        assert t.versions[..k] == w.versions[..k];
      } else {
        assert t.versions[..k] == w.versions;
      }
    }
    forall k | 0 <= k < |w.versions| && w.versions[k].path == op.path && w.versions[k].writer.Some?
      ensures w.versions[k].writer.value < i
    {
      var j := w.versions[k].writer.value;
      assert VersionSound(codec, w.ops, w.initial, w.versions, k);
      assert PublishedBy(w.versions, j) && PhaseSound(codec, w.ops[j], j, w.files, w.initial, w.versions);
    }
  }

  lemma SoundInside(codec: Codec, w: Writer, step: Step)
    requires Enabled(w, step) && InsideStep(step) && Sound(codec, w)
    ensures Sound(codec, Next(codec, w, step))
  {
    var i, t := step.op, Taken(codec, w, step);
    var w' := Next(codec, w, step);
    assert w' == Advance(w, i, t);
    QueuedStep(codec, w, step);
    TakenPhase(codec, w, step);
    TurnOwn(codec, w, step);
    if step.Rename? {
      RenameSound(codec, w, i);
      RenameHistory(codec, w, i);
    } else {
      TurnSound(codec, w, step);
      VersionsFrame(codec, w, w'.ops);
    }
    forall j | 0 <= j < |w'.ops| ensures PhaseSound(codec, w'.ops[j], j, w'.files, w'.initial, w'.versions) {
      if j != i {
        OthersFrame(codec, w, i, t, j);
      }
    }
  }

  lemma VersionsFrame(codec: Codec, w: Writer, ops': seq<Op>)
    requires forall k :: 0 <= k < |w.versions| ==> VersionSound(codec, w.ops, w.initial, w.versions, k)
    requires |w.ops| <= |ops'|
    requires forall j :: 0 <= j < |w.ops| ==> ops'[j].path == w.ops[j].path && ops'[j].request == w.ops[j].request
    ensures forall k :: 0 <= k < |w.versions| ==> VersionSound(codec, ops', w.initial, w.versions, k)
  {
    forall k | 0 <= k < |w.versions| ensures VersionSound(codec, ops', w.initial, w.versions, k) {
      assert VersionSound(codec, w.ops, w.initial, w.versions, k);
    }
  }

  lemma OthersFrame(codec: Codec, w: Writer, i: nat, t: Turn, j: nat)
    requires Sound(codec, w) && i < |w.ops| && j < |w.ops| && i != j && InSection(w.ops[i])
    requires OnlyOwn(w, i, t)
    ensures PhaseSound(codec, w.ops[j], j, t.files, w.initial, t.versions)
  {
    if InSection(w.ops[j]) && w.ops[j].path == w.ops[i].path {
      Exclusive(w, i, j);
      assert false;
    }
    PhaseFrame(codec, w.ops[j], j, w.files, t.files, w.initial, w.versions, t.versions);
  }

  // ---- The other steps -------------------------------------------------------------------------------

  lemma SoundCall(codec: Codec, w: Writer, step: Step)
    requires Enabled(w, step) && step.Call? && Sound(codec, w)
    ensures Sound(codec, Next(codec, w, step))
  {
    var w' := Next(codec, w, step);
    QueuedStep(codec, w, step);
    VersionsFrame(codec, w, w'.ops);
    NotYetCalled(codec, w);
  }

  lemma NotYetCalled(codec: Codec, w: Writer)
    requires Sound(codec, w)
    ensures !PublishedBy(w.versions, |w.ops|)
  {
    forall k | 0 <= k < |w.versions| ensures w.versions[k].writer != Some(|w.ops|) {
      assert VersionSound(codec, w.ops, w.initial, w.versions, k);
    }
  }

  lemma SoundEnter(codec: Codec, w: Writer, step: Step)
    requires Enabled(w, step) && (step.Enter? || step.Cleanup?) && Sound(codec, w)
    ensures Sound(codec, Next(codec, w, step))
  {
    var w' := Next(codec, w, step);
    QueuedStep(codec, w, step);
    VersionsFrame(codec, w, w'.ops);
  }

  lemma SoundSync(codec: Codec, w: Writer, path: string, bytes: string)
    requires Sound(codec, w)
    ensures Sound(codec, Next(codec, w, SyncWrite(path, bytes)))
  {
    var w' := Next(codec, w, SyncWrite(path, bytes));
    QueuedStep(codec, w, SyncWrite(path, bytes));
    if path !in w.active {
      var v := Version(path, None, bytes);
      forall p ensures Content(w'.files, p) == Latest(w'.initial, w'.versions, p) {
        LatestSnoc(w.initial, w.versions, v, p);
      }
      forall i | 0 <= i < |w.ops| ensures PhaseSound(codec, w.ops[i], i, w'.files, w.initial, w'.versions) {
        if InSection(w.ops[i]) { assert Owns(w.ops, w.ops[i].path); }
        PhaseFrame(codec, w.ops[i], i, w.files, w'.files, w.initial, w.versions, w'.versions);
      }
      forall k | 0 <= k < |w'.versions| ensures VersionSound(codec, w.ops, w.initial, w'.versions, k) {
        if k < |w.versions| {
          assert VersionSound(codec, w.ops, w.initial, w.versions, k);
          assert w'.versions[..k] == w.versions[..k];
        }
      }
    }
  }

  lemma SoundCrash(codec: Codec, w: Writer, step: Step)
    requires Enabled(w, step) && (step.Crash? || step.CrashInSync?) && Sound(codec, w)
    ensures Sound(codec, Next(codec, w, step))
  {
    var w' := Next(codec, w, step);
    QueuedStep(codec, w, step);
    VersionsFrame(codec, w, w'.ops);
    forall i | 0 <= i < |w'.ops| ensures PhaseSound(codec, w'.ops[i], i, w'.files, w'.initial, w'.versions) {
      if w.ops[i].phase.Settled? {
        PhaseFrame(codec, w.ops[i], i, w.files, w'.files, w.initial, w.versions, w'.versions);
      }
    }
  }

  lemma SoundStep(codec: Codec, w: Writer, step: Step)
    requires Enabled(w, step) && Sound(codec, w)
    ensures Sound(codec, Next(codec, w, step))
  {
    match step
    case Call(_, _, _) => SoundCall(codec, w, step);
    case Cleanup(_) => SoundEnter(codec, w, step);
    case Enter(_) => SoundEnter(codec, w, step);
    case SyncWrite(path, bytes) => SoundSync(codec, w, path, bytes);
    case SyncFail(_) =>
    case Crash => SoundCrash(codec, w, step);
    case CrashInSync(_, _, _) => SoundCrash(codec, w, step);
    case _ => SoundInside(codec, w, step);
  }

  lemma BootSound(codec: Codec, records: map<string, string>)
    ensures Sound(codec, Boot(records))
  {
    var w := Boot(records);
    assert Queued(w);
    forall p ensures Content(w.files, p) == Latest(w.initial, w.versions, p) {}
  }

  lemma InitialKept(codec: Codec, w: Writer, step: Step)
    requires Enabled(w, step)
    ensures Next(codec, w, step).initial == w.initial
  {
  }

  lemma {:induction false} ProtocolKeeps(codec: Codec, records: map<string, string>, steps: seq<Step>)
    requires Happens(codec, records, steps)
    ensures Sound(codec, Reached(codec, records, steps))
    ensures Reached(codec, records, steps).initial == records
    decreases |steps|
  {
    if steps == [] {
      BootSound(codec, records);
    } else {
      var n := |steps| - 1;
      var before := Reached(codec, records, steps[..n]);
      ProtocolKeeps(codec, records, steps[..n]);
      SoundStep(codec, before, steps[n]);
      InitialKept(codec, before, steps[n]);
    }
  }
}
