/**
  The commit protocol for Workspace records: one queue per path, a record read, transformed,
  written to a temporary sibling, renamed over the target and read back, with the process
  switching between operations at every await and dying at any point.
 */
module Commit {
  import opened Prelude
  import opened Json

  datatype File = Record(path: string) | Temp(path: string, nonce: nat)

  /** What a caller asks for: plain bytes, an immutable identity, a transformation, or a guarded replacement. */
  datatype Request =
    | Put(bytes: string)
    | Keep(bytes: string)
    | Update(mutate: Json -> Option<Json>)
    | Replace(expected: int, next: Json)

  datatype Outcome =
    | Wrote
    | Replayed(version: nat)
    | Refused(version: nat)
    | Broken
    | Lost

  /** Where an operation stands. The record is read in `Look`; the temporary file grows in `Writing`. */
  datatype Phase =
    | Waiting
    | Entered
    | Mutating(current: Json)
    | Writing(bytes: string, nonce: nat)
    | Written(bytes: string, nonce: nat)
    | Published(bytes: string)
    | Settled(outcome: Outcome)

  /** `ancestry` is every record held by the call's asynchronous ancestors, and its own. */
  datatype Op = Op(path: string, request: Request, parent: Option<nat>, ancestry: set<string>, prev: Option<nat>, phase: Phase)

  /** One publication: by an operation, or (None) by a synchronous writer. */
  datatype Version = Version(path: string, writer: Option<nat>, bytes: string)

  /** `tails` and `active` are the shared maps; `initial` and `versions` record the history of the records. */
  datatype Writer = Writer(
    files: map<File, string>, nonce: nat, ops: seq<Op>, tails: map<string, nat>, active: set<string>,
    initial: map<string, string>, versions: seq<Version>)

  datatype Step =
    | Call(parent: Option<nat>, path: string, request: Request)
    | Cleanup(path: string)
    | Enter(op: nat)
    | Look(op: nat)
    | Mutate(op: nat)
    | WritePart(op: nat, k: nat)
    | FinishTemp(op: nat)
    | Rename(op: nat)
    | ReadBack(op: nat)
    | Fail(op: nat)
    | SyncWrite(path: string, bytes: string)
    | SyncFail(path: string)
    | Crash
    | CrashInSync(path: string, bytes: string, k: nat)

  function Content(files: map<File, string>, path: string): Option<string> {
    if Record(path) in files then Some(files[Record(path)]) else None
  }

  // ---- What a request does to a record -----------------------------------------------------------

  const MAX_SAFE_INTEGER: int := 9007199254740991

  /** The record's generation: the first when absent, None when it is there and is no version. */
  function GenerationOf(record: Json): Option<int> {
    if !record.Obj? || "generation" !in record.fields then Some(0)
    else match record.fields["generation"]
      case Num(n) => if n == n.Floor as real && 0.0 <= n <= MAX_SAFE_INTEGER as real then Some(n.Floor) else None
      case _ => None
  }

  /** The stored value, null when there is none; None when the text does not parse. */
  function ParsedOrNull(codec: Codec, content: Option<string>): Option<Json> {
    match content case None => Some(Null) case Some(text) => codec.parse(text)
  }

  /** The bytes a request publishes over `content`; None when it publishes nothing. */
  function Effect(codec: Codec, request: Request, content: Option<string>): Option<string> {
    match request
    case Put(bytes) => Some(bytes)
    case Keep(bytes) => if content.None? then Some(bytes) else None
    case Update(mutate) =>
      var current := ParsedOrNull(codec, content);
      if current.None? || mutate(current.value).None? then None
      else Some(codec.render(mutate(current.value).value))
    case Replace(expected, next) =>
      var current := ParsedOrNull(codec, content);
      if current.Some? && GenerationOf(current.value) == Some(expected) then Some(codec.render(next)) else None
  }

  /** An immutable write of bytes the record already holds. */
  predicate Replays(request: Request, content: Option<string>) {
    request.Keep? && content == Some(request.bytes)
  }

  // ---- Steps ---------------------------------------------------------------------------------------

  predicate InSection(op: Op) { !op.phase.Waiting? && !op.phase.Settled? }

  function HeldBy(w: Writer, parent: Option<nat>): set<string>
    requires parent.Some? ==> parent.value < |w.ops|
  {
    if parent.Some? then w.ops[parent.value].ancestry else {}
  }

  predicate Enabled(w: Writer, step: Step) {
    match step
    case Call(parent, _, _) => parent.Some? ==> parent.value < |w.ops|
    case Cleanup(path) => path in w.tails && w.tails[path] < |w.ops| && w.ops[w.tails[path]].phase.Settled?
    case Enter(i) =>
      i < |w.ops| && w.ops[i].phase.Waiting?
      && (w.ops[i].prev.Some? ==> w.ops[i].prev.value < |w.ops| && w.ops[w.ops[i].prev.value].phase.Settled?)
    case Look(i) => i < |w.ops| && w.ops[i].phase.Entered?
    case Mutate(i) => i < |w.ops| && w.ops[i].phase.Mutating? && w.ops[i].request.Update?
    case WritePart(i, k) => i < |w.ops| && w.ops[i].phase.Writing? && k <= |w.ops[i].phase.bytes|
    case FinishTemp(i) => i < |w.ops| && w.ops[i].phase.Writing?
    case Rename(i) =>
      i < |w.ops| && w.ops[i].phase.Written? && Temp(w.ops[i].path, w.ops[i].phase.nonce) in w.files
    case ReadBack(i) => i < |w.ops| && w.ops[i].phase.Published?
    case Fail(i) => i < |w.ops| && InSection(w.ops[i])
    case SyncWrite(_, _) => true
    case SyncFail(_) => true
    case Crash => true
    case CrashInSync(_, bytes, k) => k <= |bytes|
  }

  /** One step inside a section: where the operation stands after it, and what it left in the store. */
  datatype Turn = Turn(phase: Phase, files: map<File, string>, nonce: nat, versions: seq<Version>)

  function Stay(w: Writer, phase: Phase): Turn { Turn(phase, w.files, w.nonce, w.versions) }

  /** The commit begins: the temporary sibling gets a name no other has. */
  function StartWriting(w: Writer, bytes: string): Turn {
    Stay(w, Writing(bytes, w.nonce)).(nonce := w.nonce + 1)
  }

  /** The first step inside the section: read what there is to read, and decide. */
  function Looked(codec: Codec, w: Writer, op: Op): Turn {
    var content := Content(w.files, op.path);
    if op.request.Update? then
      match ParsedOrNull(codec, content)
      case None => Stay(w, Settled(Refused(|w.versions|)))
      case Some(current) => Stay(w, Mutating(current))
    else if Replays(op.request, content) then Stay(w, Settled(Replayed(|w.versions|)))
    else match Effect(codec, op.request, content)
      case None => Stay(w, Settled(Refused(|w.versions|)))
      case Some(bytes) => StartWriting(w, bytes)
  }

  function Mutated(codec: Codec, w: Writer, op: Op): Turn
    requires op.phase.Mutating? && op.request.Update?
  {
    match op.request.mutate(op.phase.current)
    case None => Stay(w, Settled(Refused(|w.versions|)))
    case Some(next) => StartWriting(w, codec.render(next))
  }

  function Renamed(w: Writer, i: nat): Turn
    requires i < |w.ops| && w.ops[i].phase.Written? && Temp(w.ops[i].path, w.ops[i].phase.nonce) in w.files
  {
    var op := w.ops[i];
    var temp := Temp(op.path, op.phase.nonce);
    Turn(Published(op.phase.bytes),
         (w.files - {temp})[Record(op.path) := w.files[temp]],
         w.nonce,
         w.versions + [Version(op.path, Some(i), w.files[temp])])
  }

  function Dropped(files: map<File, string>, op: Op): map<File, string> {
    match op.phase
    case Writing(_, nonce) => files - {Temp(op.path, nonce)}
    case Written(_, nonce) => files - {Temp(op.path, nonce)}
    case _ => files
  }

  predicate InsideStep(step: Step) {
    step.Look? || step.Mutate? || step.WritePart? || step.FinishTemp? || step.Rename? || step.ReadBack? || step.Fail?
  }

  function Taken(codec: Codec, w: Writer, step: Step): Turn
    requires Enabled(w, step) && InsideStep(step)
  {
    var op := w.ops[step.op];
    match step
    case Look(_) => Looked(codec, w, op)
    case Mutate(_) => Mutated(codec, w, op)
    case WritePart(_, k) =>
      Stay(w, op.phase).(files := w.files[Temp(op.path, op.phase.nonce) := op.phase.bytes[..k]])
    case FinishTemp(_) =>
      Stay(w, Written(op.phase.bytes, op.phase.nonce)).(
        files := w.files[Temp(op.path, op.phase.nonce) := op.phase.bytes])
    case Rename(i) => Renamed(w, i)
    case ReadBack(_) =>
      Stay(w, Settled(if Content(w.files, op.path) == Some(op.phase.bytes) then Wrote else Broken))
    case Fail(_) => Stay(w, Settled(Broken)).(files := Dropped(w.files, op))
  }

  /** The operation moves, and releases its record when it settles. */
  function Advance(w: Writer, i: nat, t: Turn): Writer
    requires i < |w.ops|
  {
    Writer(t.files, t.nonce, w.ops[i := w.ops[i].(phase := t.phase)], w.tails,
           if t.phase.Settled? then w.active - {w.ops[i].path} else w.active,
           w.initial, t.versions)
  }

  /** Every operation the dying process had not settled is lost. */
  function Abandoned(ops: seq<Op>): seq<Op> {
    seq(|ops|, i requires 0 <= i < |ops| =>
      if ops[i].phase.Settled? then ops[i] else ops[i].(phase := Settled(Lost)))
  }

  function Restarted(w: Writer): Writer {
    w.(ops := Abandoned(w.ops), tails := map[], active := {})
  }

  function Next(codec: Codec, w: Writer, step: Step): Writer
    requires Enabled(w, step)
  {
    match step
    case Call(parent, path, request) =>
      if path in HeldBy(w, parent) then w
      else
        var prev := if path in w.tails then Some(w.tails[path]) else None;
        w.(ops := w.ops + [Op(path, request, parent, HeldBy(w, parent) + {path}, prev, Waiting)],
           tails := w.tails[path := |w.ops|])
    case Cleanup(path) => w.(tails := w.tails - {path})
    case Enter(i) => Advance(w, i, Stay(w, Entered)).(active := w.active + {w.ops[i].path})
    case SyncWrite(path, bytes) =>
      if path in w.active then w
      else w.(files := (w.files - {Temp(path, w.nonce)})[Record(path) := bytes], nonce := w.nonce + 1,
              versions := w.versions + [Version(path, None, bytes)])
    case SyncFail(path) => if path in w.active then w else w.(nonce := w.nonce + 1)
    case Crash => Restarted(w)
    case CrashInSync(path, bytes, k) =>
      if path in w.active then Restarted(w)
      else Restarted(w).(files := w.files[Temp(path, w.nonce) := bytes[..k]], nonce := w.nonce + 1)
    case _ => Advance(w, step.op, Taken(codec, w, step))
  }

  function Boot(records: map<string, string>): Writer {
    Writer(map p | p in records :: Record(p) := records[p], 0, [], map[], {}, records, [])
  }

  ghost predicate Happens(codec: Codec, records: map<string, string>, steps: seq<Step>)
    decreases |steps|, 0
  {
    steps == [] ||
    (Happens(codec, records, steps[..|steps| - 1])
      && Enabled(Reached(codec, records, steps[..|steps| - 1]), steps[|steps| - 1]))
  }

  ghost function Reached(codec: Codec, records: map<string, string>, steps: seq<Step>): Writer
    requires Happens(codec, records, steps)
    decreases |steps|, 1
  {
    if steps == [] then Boot(records)
    else Next(codec, Reached(codec, records, steps[..|steps| - 1]), steps[|steps| - 1])
  }
}
