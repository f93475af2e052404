/**
  One Run on disk: its metadata record, its append-only event log and its files,
  the transitions that move it, and the stories those transitions can tell when
  any of them may be cut short by the death of the process.
 */
module RunRecords {
  import opened Prelude

  datatype Status = Pending | Running | Blocked | Failed | Done | Skipped

  /** `At(None)` is a timestamp that does not parse. */
  datatype Timeout = Never | At(instant: Option<int>)

  datatype Wait = Wait(requestedAt: int, stage: string, reason: string, timeout: Timeout)

  /** A value inside an event's detail: only strings are ever looked into. */
  datatype Value = Text(text: string) | Deadline(timeout: Timeout) | Opaque(tag: int)

  type Detail = map<string, Value>

  /** The names the Shell writes, and every other name a Module may choose. */
  datatype Kind =
    | Created | StageStarted | StageFailed | RunDone | RunFailed | RunReopened | RunBlocked
    | RunResumed | RunRecovered | RetryRefused | ClassifySkipped
    | Named(name: string)

  /** How a type string on an event line is understood by its readers. */
  function KindOf(name: string): Kind {
    match name
    case "created" => Created
    case "stage_started" => StageStarted
    case "stage_failed" => StageFailed
    case "run_done" => RunDone
    case "run_failed" => RunFailed
    case "run_reopened" => RunReopened
    case "run_blocked" => RunBlocked
    case "run_resumed" => RunResumed
    case "run_recovered" => RunRecovered
    case "retry_refused" => RetryRefused
    case "classify_skipped" => ClassifySkipped
    case _ => Named(name)
  }

  datatype Event = Event(at: Option<int>, kind: Kind, detail: Option<Detail>)

  type Log = seq<Event>

  datatype Meta = Meta(
    id: string, owner: string, status: Status, wait: Option<Wait>, attempts: nat,
    failedStage: Option<string>, failureHint: Option<string>, skipReason: Option<string>,
    summary: Option<string>, connectionState: Option<string>)

  datatype Outcome =
    | EndDone(summary: Option<string>, detail: Detail)
    | EndSkipped(reason: Option<string>)

  /** What can happen to a Run. `Appended` is the bare event append. */
  datatype RunOp =
    | Started(stage: string)
    | FailedIn(stage: string, reason: string, hint: string, connection: Option<string>, extra: Detail)
    | BlockedOn(wait: Wait)
    | Resumed(fromStage: string, requestedBy: string, reason: string)
    | Recovered(fromStage: string, reason: string)
    | Finished(outcome: Outcome)
    | AttemptStarted
    | ResetAttempts
    | Reopened(fromStage: string, reason: string)
    | Appended(kind: Kind, detail: Option<Detail>)
    | WroteFile(name: string, text: string)
    | DeletedFile(name: string)

  /** A Run's directory. `meta` is None while the record is missing or unreadable. */
  datatype RunDir = RunDir(meta: Option<Meta>, log: Log, files: map<string, string>)

  predicate Digit(c: char) { '0' <= c <= '9' }

  /** `run_<8 digits>-<6 digits>_<8 lower-case hex digits>` */
  predicate IsRunId(s: string) {
    && |s| == 28 && s[..4] == "run_" && s[12] == '-' && s[19] == '_'
    && (forall i :: 4 <= i < 12 ==> Digit(s[i]))
    && (forall i :: 13 <= i < 19 ==> Digit(s[i]))
    && (forall i :: 20 <= i < 28 ==> Digit(s[i]) || 'a' <= s[i] <= 'f')
  }

  predicate Alphanumeric(c: char) {
    'A' <= c <= 'Z' || 'a' <= c <= 'z' || '0' <= c <= '9'
  }

  predicate ValidFileName(name: string) {
    && name != [] && Alphanumeric(name[0])
    && (forall i :: 0 < i < |name| ==> Alphanumeric(name[i]) || name[i] in {'.', '_', '-'})
    && name != "meta.json" && name != "events.jsonl"
  }

  /** The metadata half of a transition. */
  function Change(meta: Meta, op: RunOp): Meta {
    match op
    case Started(_) => meta.(status := Running)
    case FailedIn(stage, _, hint, connection, _) =>
      meta.(status := Failed, wait := None, failedStage := Some(stage), failureHint := Some(hint),
            connectionState := connection)
    case BlockedOn(wait) => meta.(status := Blocked, wait := Some(wait))
    case Resumed(_, _, _) => meta.(status := Pending, wait := None, failedStage := None, failureHint := None)
    case Recovered(_, _) => meta.(status := Pending, wait := None, failedStage := None, failureHint := None)
    case Finished(EndSkipped(reason)) => meta.(status := Skipped, wait := None, skipReason := reason)
    case Finished(EndDone(summary, _)) => meta.(status := Done, wait := None, failedStage := None, summary := summary)
    case AttemptStarted => meta.(attempts := meta.attempts + 1)
    case ResetAttempts => meta.(attempts := 0)
    case Reopened(_, _) =>
      meta.(status := Pending, wait := None, failedStage := None, failureHint := None,
            skipReason := None, connectionState := None)
    case Appended(_, _) => meta
    case WroteFile(_, _) => meta
    case DeletedFile(_) => meta
  }

  function StatusName(s: Status): string {
    match s
    case Pending => "pending" case Running => "running" case Blocked => "blocked"
    case Failed => "failed" case Done => "done" case Skipped => "skipped"
  }

  function OptionalText(t: Option<string>): Value {
    match t case Some(s) => Text(s) case None => Opaque(0)
  }

  /** Later entries override earlier ones, as a spread does. */
  function Spread(first: Detail, second: Detail): Detail { first + second }

  /** The timeline half of a transition: the events it appends, in order. */
  function EventsOf(meta: Meta, op: RunOp, at: int): Log {
    match op
    case Started(stage) => [Event(Some(at), StageStarted, Some(map["stage" := Text(stage)]))]
    case FailedIn(stage, reason, _, _, extra) =>
      [Event(Some(at), StageFailed, Some(Spread(extra, map["stage" := Text(stage), "error" := Text(reason)]))),
       Event(Some(at), RunFailed, Some(Spread(extra, map["stage" := Text(stage), "reason" := Text(reason)])))]
    case BlockedOn(wait) =>
      [Event(Some(at), RunBlocked,
        Some(map["stage" := Text(wait.stage), "reason" := Text(wait.reason), "timeout" := Deadline(wait.timeout)]))]
    case Resumed(fromStage, requestedBy, reason) =>
      [Event(Some(at), RunResumed,
        Some(map["fromStage" := Text(fromStage), "requestedBy" := Text(requestedBy), "reason" := Text(reason)]))]
    case Recovered(fromStage, reason) =>
      [Event(Some(at), RunRecovered,
        Some(map["fromStage" := Text(fromStage), "previousStatus" := Text(StatusName(meta.status)),
                 "reason" := Text(reason)]))]
    case Finished(EndSkipped(reason)) =>
      [Event(Some(at), ClassifySkipped, Some(map["skipReason" := OptionalText(reason)])),
       Event(Some(at), RunDone, Some(map["status" := Text("skipped")]))]
    case Finished(EndDone(_, detail)) =>
      [Event(Some(at), RunDone, Some(Spread(map["status" := Text("done")], detail)))]
    case AttemptStarted => []
    case ResetAttempts => []
    case Reopened(fromStage, reason) =>
      [Event(Some(at), RunReopened, Some(map["fromStage" := Text(fromStage), "reason" := Text(reason)]))]
    case Appended(kind, detail) => [Event(Some(at), kind, detail)]
    case WroteFile(_, _) => []
    case DeletedFile(_) => []
  }

  function ChangeFiles(files: map<string, string>, op: RunOp): map<string, string> {
    match op
    case WroteFile(name, text) => files[name := text]
    case DeletedFile(name) => files - {name}
    case _ => files
  }

  /** Does the operation read and rewrite the metadata record? */
  predicate Transition(op: RunOp) {
    !op.Appended? && !op.WroteFile? && !op.DeletedFile?
  }

  /** The operation is refused before any effect: unreadable record, or a name that is not a file's. */
  predicate Throws(dir: RunDir, op: RunOp) {
    || (Transition(op) && dir.meta.None?)
    || (op.WroteFile? && !ValidFileName(op.name))
    || (op.DeletedFile? && !ValidFileName(op.name))
  }

  /** An operation whose metadata was committed and whose first `k` events were appended. */
  function ApplyPart(dir: RunDir, op: RunOp, at: int, k: nat): RunDir
    requires Throws(dir, op) || k <= |Emitted(dir, op, at)|
  {
    if Throws(dir, op) then dir
    else RunDir(
      if dir.meta.Some? then Some(Change(dir.meta.value, op)) else None,
      dir.log + Emitted(dir, op, at)[..k],
      ChangeFiles(dir.files, op))
  }

  /** The events an operation appends; a bare append needs no metadata record. */
  function Emitted(dir: RunDir, op: RunOp, at: int): Log {
    match op
    case Appended(kind, detail) => [Event(Some(at), kind, detail)]
    case _ => if dir.meta.Some? then EventsOf(dir.meta.value, op, at) else []
  }

  /** A whole operation. */
  function Apply(dir: RunDir, op: RunOp, at: int): RunDir {
    if Throws(dir, op) then dir else ApplyPart(dir, op, at, |Emitted(dir, op, at)|)
  }

  // ---- What a reader of the log takes the status to be -------------------------------------

  /** The status an event announces, if it announces one. */
  function Announces(e: Event): Option<Status> {
    match e.kind
    case Created => Some(Pending)
    case StageStarted => Some(Running)
    case RunFailed => Some(Failed)
    case RunBlocked => Some(Blocked)
    case RunResumed => Some(Pending)
    case RunRecovered => Some(Pending)
    case RunReopened => Some(Pending)
    case RunDone =>
      if e.detail.Some? && SaysSkipped(e.detail.value)
      then Some(Skipped) else Some(Done)
    case _ => None
  }

  /** Replaying the log: the last announcement stands. */
  function Replayed(log: Log): Option<Status> {
    if log == [] then None
    else match Announces(log[|log| - 1])
      case Some(s) => Some(s)
      case None => Replayed(log[..|log| - 1])
  }

  lemma {:induction false} ReplayedConcat(a: Log, b: Log)
    ensures Replayed(a + b) == if Replayed(b).Some? then Replayed(b) else Replayed(a)
  {
    if b == [] {
      assert a + b == a;
    } else {
      assert (a + b)[..|a + b| - 1] == a + b[..|b| - 1];
      ReplayedConcat(a, b[..|b| - 1]);
    }
  }

  // ---- Stories: every sequence of operations, any of which may be the last of its process ---

  /** `Interrupted`: the process died with the metadata committed and `k` events appended. */
  datatype Happening =
    | Did(op: RunOp, at: int)
    | Interrupted(op: RunOp, at: int, k: nat)

  /** A directory together with the events an interrupted transition never appended. */
  datatype Record = Record(dir: RunDir, owed: Log)

  function NewMeta(id: string, owner: string): Meta {
    Meta(id, owner, Pending, None, 0, None, None, None, None, None)
  }

  function CreatedEvent(at: int): Event { Event(Some(at), Created, Some(map[])) }

  /** Creation commits the metadata and then logs it; `logged` is false when the process died between. */
  function Birth(id: string, owner: string, at: int, logged: bool): Record {
    if logged then Record(RunDir(Some(NewMeta(id, owner)), [CreatedEvent(at)], map[]), [])
    else Record(RunDir(Some(NewMeta(id, owner)), [], map[]), [CreatedEvent(at)])
  }

  /** Operations that move the status. */
  predicate Moves(op: RunOp) {
    Transition(op) && !op.AttemptStarted? && !op.ResetAttempts?
  }

  predicate Possible(dir: RunDir, h: Happening) {
    h.Interrupted? ==> !Throws(dir, h.op) && Moves(h.op) && h.k < |Emitted(dir, h.op, h.at)|
  }

  function After(r: Record, h: Happening): Record
    requires Possible(r.dir, h)
  {
    match h
    case Did(op, at) =>
      Record(Apply(r.dir, op, at), if !Throws(r.dir, op) && Moves(op) then [] else r.owed)
    case Interrupted(op, at, k) =>
      Record(ApplyPart(r.dir, op, at, k), Emitted(r.dir, op, at)[k..])
  }

  /** The stages whose start the log records. */
  function StageKey(e: Event): Option<string> {
    if e.detail.Some? && "stage" in e.detail.value && e.detail.value["stage"].Text?
    then Some(e.detail.value["stage"].text) else None
  }

  predicate Starts(e: Event, stage: string) {
    e.kind == StageStarted && StageKey(e) == Some(stage)
  }

  ghost predicate HasStarted(log: Log, stage: string) {
    exists e :: e in log && Starts(e, stage)
  }

  predicate SaysSkipped(detail: Detail) {
    "status" in detail && detail["status"] == Text("skipped")
  }

  /**
    A bare event that leaves a Run of this status and log as its reader had it: it announces
    no other status, and it neither closes nor fails the open Stage of a running Run.
   */
  ghost predicate FaithfulEvent(status: Status, log: Log, e: Event) {
    match e.kind
    case Named(_) => true
    case RetryRefused => true
    case Created => status == Pending
    case RunReopened => status == Pending
    case RunResumed => status == Pending
    case RunRecovered => status == Pending
    case StageStarted => status == Running
    case RunBlocked => status == Blocked
    case RunFailed => status == Failed
    case RunDone => status == if e.detail.Some? && SaysSkipped(e.detail.value) then Skipped else Done
    case ClassifySkipped => status != Running
    case StageFailed => status == Running ==> !(StageKey(e).Some? && HasStarted(log, StageKey(e).value))
  }

  /**
    What keeps a Run's status and what its reader sees the same: a Stage fails only after it
    started, a finished Run's detail does not call it skipped, and a bare event is a faithful
    one. While a transition still owes the log its events they speak last, and the only event
    that can undo them is a new start of the failed Stage, between its failure and the Run's.
   */
  ghost predicate Faithful(r: Record, op: RunOp) {
    match op
    case FailedIn(stage, _, _, _, _) => HasStarted(r.dir.log, stage)
    case Finished(EndDone(_, detail)) => !SaysSkipped(detail)
    case Appended(kind, detail) =>
      r.dir.meta.Some? ==>
        var meta := r.dir.meta.value;
        var e := Event(None, kind, detail);
        if r.owed == [] then FaithfulEvent(meta.status, r.dir.log, e)
        else !(meta.status == Failed && |r.owed| == 1 && e.kind.StageStarted? && StageKey(e) == meta.failedStage)
    case _ => true
  }

  /** A Run is reopened from an end and resumed from a wait, and no bare event claims either, or a creation. */
  predicate Orderly(dir: RunDir, op: RunOp) {
    match op
    case Appended(kind, _) => !kind.Created? && !kind.RunReopened? && !kind.RunResumed?
    case Reopened(_, _) => dir.meta.Some? ==> dir.meta.value.status in {Failed, Done, Skipped}
    case Resumed(_, _, _) => dir.meta.Some? ==> dir.meta.value.status == Blocked
    case _ => true
  }

  datatype Story = Story(id: string, owner: string, at: int, logged: bool, happenings: seq<Happening>)

  function Chapter(s: Story, n: nat): Story
    requires n <= |s.happenings|
  {
    s.(happenings := s.happenings[..n])
  }

  ghost predicate WellTold(s: Story)
    decreases |s.happenings|, 0
  {
    s.happenings == [] || (
      var earlier := Chapter(s, |s.happenings| - 1);
      var h := s.happenings[|s.happenings| - 1];
      WellTold(earlier) && Possible(Tell(earlier).dir, h))
  }

  /** Where a story leads. */
  ghost function Tell(s: Story): Record
    requires WellTold(s)
    decreases |s.happenings|, 1
  {
    if s.happenings == [] then Birth(s.id, s.owner, s.at, s.logged)
    else After(Tell(Chapter(s, |s.happenings| - 1)), s.happenings[|s.happenings| - 1])
  }

  /** Every happening of the story is faithful to the Run as it found it. */
  ghost predicate FaithfulThroughout(s: Story)
    requires WellTold(s)
    decreases |s.happenings|
  {
    s.happenings != [] ==>
      var earlier := Chapter(s, |s.happenings| - 1);
      FaithfulThroughout(earlier) && Faithful(Tell(earlier), s.happenings[|s.happenings| - 1].op)
  }

  ghost predicate OrderlyThroughout(s: Story)
    requires WellTold(s)
    decreases |s.happenings|
  {
    s.happenings != [] ==>
      var earlier := Chapter(s, |s.happenings| - 1);
      OrderlyThroughout(earlier) && Orderly(Tell(earlier).dir, s.happenings[|s.happenings| - 1].op)
  }

  predicate CrashFree(s: Story) {
    s.logged && forall h :: h in s.happenings ==> h.Did?
  }
}
