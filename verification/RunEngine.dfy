/**
  The Run engine as a state machine. One step is one uninterrupted turn of the process:
  a call from outside, the start or the end of a queued execution, one use a Module makes
  of its context, or an operation a host performs on the store by itself. Steps of different
  callers and Modules interleave freely, and the process may die inside any of them.
 */
module RunEngine {
  import opened Prelude
  import opened RunRecords

  type Disk = map<string, RunDir>

  datatype Plan<I> = Plan(fromStage: string, reason: string, input: I)

  datatype RetryPlan<I> = RetryPlan(fromStage: string, reason: string, input: I, resetAttempts: bool, discard: seq<string>)

  /** A Module is any policy: its plans are arbitrary functions of the durable record. */
  datatype ShellModule<I> = ShellModule(
    id: string,
    planRetry: Meta -> Option<RetryPlan<I>>,
    planResume: Meta -> Option<Plan<I>>,
    planRecovery: (Meta, Log, set<string>) -> Option<Plan<I>>)

  datatype Phase = Queued | Executing | Settled

  /** One link of the promise chain: it may start only when the link before it has settled. */
  datatype Link<I> = Link(run: string, input: I, phase: Phase)

  /**
    The context handed to one execution. `calls` are the `stage` calls that have not settled,
    in the order they were made; `stack` is what the context itself keeps; `leaked` counts the
    pushes whose `started` threw, which nothing pops.
   */
  datatype Context = Context(link: nat, run: string, stack: seq<string>, calls: seq<string>, leaked: nat, waited: bool)

  /** `issued` is every id ever handed out; `crashes` how often the process has died. */
  datatype Engine<I> = Engine(
    disk: Disk, chain: seq<Link<I>>, active: set<string>, contexts: seq<Context>, issued: set<string>, crashes: nat)

  datatype Verdict = Returned(outcome: Outcome) | Threw

  datatype Ending =
    | Fine
    | RanIntoWait
    | Broke(reason: string, hint: string, connection: Option<string>, extra: Detail)

  /** `refused`: the store turns the Stage's start away before any effect, as it does while a record is being written. */
  datatype Step<I> =
    | StartRun(ready: bool, newId: string, input: I)
    | RetryRun(ready: bool, id: string)
    | ReenterRun(id: string, fromStage: string, reason: string, input: I)
    | ResumeRun(ready: bool, id: string)
    | RecoverRuns(ready: bool, now: int, listing: seq<string>, damaged: set<string>)
    | Begin(ready: bool, link: nat)
    | Settle(link: nat, verdict: Verdict)
    | OpenStage(ctx: nat, name: string, refused: bool)
    | CloseStage(ctx: nat, call: nat, ending: Ending)
    | EmitEvent(ctx: nat, name: string, detail: Option<Detail>)
    | CountAttempt(ctx: nat)
    | WaitFor(ctx: nat, now: int, reason: string, timeout: Timeout)
    | WriteFile(ctx: nat, name: string, text: string)
    | DeleteRun(id: string)
    | HostDoes(id: string, op: RunOp)

  // ---- The disk ------------------------------------------------------------------------------

  datatype Write = Make(id: string, owner: string) | Do(id: string, op: RunOp) | Remove(id: string)

  function PlayWrite(disk: Disk, w: Write, at: int): Disk {
    match w
    case Make(id, owner) => disk[id := Birth(id, owner, at, true).dir]
    case Do(id, op) => if id in disk then disk[id := Apply(disk[id], op, at)] else disk
    case Remove(id) => disk - {id}
  }

  function PlayWrites(disk: Disk, ws: seq<Write>, at: int): Disk
    decreases |ws|
  {
    if ws == [] then disk else PlayWrites(PlayWrite(disk, ws[0], at), ws[1..], at)
  }

  /** A write the process died in, after `k` of its durable parts. */
  function PartWrite(disk: Disk, w: Write, at: int, k: nat): Disk {
    match w
    case Make(id, owner) =>
      if k == 0 then disk[id := RunDir(None, [], map[])]
      else disk[id := Birth(id, owner, at, false).dir]
    case Do(id, op) =>
      if id in disk && Possible(disk[id], Interrupted(op, at, k)) then disk[id := ApplyPart(disk[id], op, at, k)]
      else PlayWrite(disk, w, at)
    case Remove(_) => PlayWrite(disk, w, at)
  }

  predicate Readable(disk: Disk, id: string) {
    IsRunId(id) && id in disk && disk[id].meta.Some?
  }

  // ---- What each step decides, from the state it finds ---------------------------------------

  function Refusal(meta: Meta, condition: string): RunOp {
    var detail := map["condition" := Text(condition), "status" := Text(StatusName(meta.status)), "module" := Text(meta.owner)];
    Appended(RetryRefused,
             Some(if condition == "module_declined" then detail["failedStage" := OptionalText(meta.failedStage)] else detail))
  }

  /** Names up to the first that is not a file's: that one throws. */
  function Discardable(names: seq<string>): seq<string> {
    if names == [] || !ValidFileName(names[0]) then [] else [names[0]] + Discardable(names[1..])
  }

  function Deletions(id: string, names: seq<string>): seq<Write> {
    seq(|names|, i requires 0 <= i < |names| => Do(id, DeletedFile(names[i])))
  }

  datatype RetryDecision<I> =
    | Unknown
    | Refuse(condition: string)
    | GoAhead(plan: RetryPlan<I>)

  function DecideRetry<I>(e: Engine<I>, m: ShellModule<I>, ready: bool, id: string): RetryDecision<I> {
    if !ready || !Readable(e.disk, id) then Unknown
    else
      var meta := e.disk[id].meta.value;
      if meta.status != Failed then Refuse("status_not_failed")
      else if meta.failedStage.None? || meta.failedStage.value == "" then Refuse("failed_stage_missing")
      else match m.planRetry(meta)
        case None => Refuse("module_declined")
        case Some(plan) => GoAhead(plan)
  }

  /** Every file the plan discards has a file's name. */
  predicate Carried<I>(plan: RetryPlan<I>) { Discardable(plan.discard) == plan.discard }

  predicate Reenterable(disk: Disk, id: string) {
    Readable(disk, id) && disk[id].meta.value.status in {Done, Skipped}
  }

  function ResumePlan<I>(e: Engine<I>, m: ShellModule<I>, ready: bool, id: string): Option<Plan<I>> {
    if ready && Readable(e.disk, id) && e.disk[id].meta.value.status == Blocked && e.disk[id].meta.value.wait.Some?
    then m.planResume(e.disk[id].meta.value) else None
  }

  /** The clock has reached a wait's timeout; one that does not parse is due. */
  predicate Due(timeout: Timeout, now: int) {
    timeout.At? && (timeout.instant.Some? ==> timeout.instant.value <= now)
  }

  /** What a sweep does with one Run: how it is put back to pending, and with what input it is queued. */
  function Salvage<I>(e: Engine<I>, m: ShellModule<I>, now: int, damaged: set<string>, id: string): Option<(RunOp, I)> {
    if id in e.active || !Readable(e.disk, id) then None
    else
      var dir := e.disk[id];
      var meta := dir.meta.value;
      if meta.status == Blocked && meta.wait.Some? && meta.wait.value.timeout.At? then
        if !Due(meta.wait.value.timeout, now) then None
        else match m.planResume(meta)
          case None => None
          case Some(p) => Some((Resumed(p.fromStage, "clock", p.reason), p.input))
      else if meta.status != Pending && meta.status != Running then None
      else if id in damaged then None
      else match m.planRecovery(meta, dir.log, dir.files.Keys)
        case None => None
        case Some(p) => Some((Recovered(p.fromStage, p.reason), p.input))
  }

  function SalvageWrites<I>(e: Engine<I>, m: ShellModule<I>, now: int, damaged: set<string>, ids: seq<string>): seq<Write> {
    if ids == [] then []
    else
      var s := Salvage(e, m, now, damaged, ids[0]);
      (if s.Some? then [Do(ids[0], s.value.0)] else []) + SalvageWrites(e, m, now, damaged, ids[1..])
  }

  function SalvageLinks<I>(e: Engine<I>, m: ShellModule<I>, now: int, damaged: set<string>, ids: seq<string>): seq<Link<I>> {
    if ids == [] then []
    else
      var s := Salvage(e, m, now, damaged, ids[0]);
      (if s.Some? then [Link(ids[0], s.value.1, Queued)] else []) + SalvageLinks(e, m, now, damaged, ids[1..])
  }

  /** The Runs of one Module whose record can be read, each once. */
  ghost predicate IsListing(disk: Disk, owner: string, ids: seq<string>) {
    && (forall id :: id in ids <==> Readable(disk, id) && disk[id].meta.value.owner == owner)
    && (forall i, j :: 0 <= i < j < |ids| ==> ids[i] != ids[j])
  }

  predicate InStage(c: Context) { c.stack != [] }

  function ContextWrite(c: Context, w: RunOp): seq<Write> {
    if InStage(c) then [Do(c.run, w)] else []
  }

  // ---- Steps ---------------------------------------------------------------------------------

  ghost predicate Enabled<I>(e: Engine<I>, m: ShellModule<I>, step: Step<I>) {
    match step
    case StartRun(_, id, _) => IsRunId(id) && id !in e.issued
    case RecoverRuns(_, _, listing, _) => IsListing(e.disk, m.id, listing)
    case Begin(_, i) => i < |e.chain| && e.chain[i].phase == Queued && (i > 0 ==> e.chain[i - 1].phase == Settled)
    case Settle(i, _) => i < |e.chain| && e.chain[i].phase == Executing
    case OpenStage(c, _, _) => c < |e.contexts|
    case CloseStage(c, call, _) => c < |e.contexts| && call < |e.contexts[c].calls|
    case EmitEvent(c, _, _) => c < |e.contexts|
    case CountAttempt(c) => c < |e.contexts|
    case WaitFor(c, _, _, _) => c < |e.contexts|
    case WriteFile(c, _, _) => c < |e.contexts|
    case _ => true
  }

  /** The durable writes of a step, in order. */
  ghost function WritesOf<I>(e: Engine<I>, m: ShellModule<I>, step: Step<I>): seq<Write>
    requires Enabled(e, m, step)
  {
    match step
    case StartRun(ready, id, _) => if ready then [Make(id, m.id)] else []
    case RetryRun(ready, id) => RetryWrites(e, DecideRetry(e, m, ready, id), id)
    case ReenterRun(id, fromStage, reason, _) =>
      if Reenterable(e.disk, id) then [Do(id, Reopened(fromStage, reason))] else []
    case ResumeRun(ready, id) =>
      (match ResumePlan(e, m, ready, id)
       case None => []
       case Some(p) => [Do(id, Resumed(p.fromStage, "module", p.reason))])
    case RecoverRuns(ready, now, listing, damaged) =>
      if ready then SalvageWrites(e, m, now, damaged, listing) else []
    case Begin(_, _) => []
    case Settle(i, verdict) =>
      if verdict.Returned? then [Do(e.chain[i].run, Finished(verdict.outcome))] else []
    case OpenStage(c, name, refused) => if refused then [] else [Do(e.contexts[c].run, Started(name))]
    case CloseStage(c, call, ending) =>
      if ending.Broke?
      then [Do(e.contexts[c].run, FailedIn(e.contexts[c].calls[call], ending.reason, ending.hint, ending.connection, ending.extra))]
      else []
    case EmitEvent(c, name, detail) => ContextWrite(e.contexts[c], Appended(KindOf(name), detail))
    case CountAttempt(c) => ContextWrite(e.contexts[c], AttemptStarted)
    case WaitFor(c, now, reason, timeout) =>
      var ctx := e.contexts[c];
      if InStage(ctx) then [Do(ctx.run, BlockedOn(Wait(now, ctx.stack[|ctx.stack| - 1], reason, timeout)))] else []
    case WriteFile(c, name, text) => ContextWrite(e.contexts[c], RunOp.WroteFile(name, text))
    case DeleteRun(id) => [Remove(id)]
    case HostDoes(id, op) => [Do(id, op)]
  }

  function RetryWrites<I>(e: Engine<I>, d: RetryDecision<I>, id: string): seq<Write>
    requires !d.Unknown? ==> Readable(e.disk, id)
  {
    match d
    case Unknown => []
    case Refuse(condition) => [Do(id, Refusal(e.disk[id].meta.value, condition))]
    case GoAhead(plan) => Preparation(plan, id) + Reopening(plan, id)
  }

  /** The reset and the discards of a retry, up to the first name that is not a file's … */
  function Preparation<I>(plan: RetryPlan<I>, id: string): seq<Write> {
    (if plan.resetAttempts then [Do(id, ResetAttempts)] else []) + Deletions(id, Discardable(plan.discard))
  }

  /** … which stops the retry before the Run is reopened. */
  function Reopening<I>(plan: RetryPlan<I>, id: string): seq<Write> {
    if Carried(plan) then [Do(id, Reopened(plan.fromStage, plan.reason))] else []
  }

  /** What the step asks the queue to take. */
  ghost function Requests<I>(e: Engine<I>, m: ShellModule<I>, step: Step<I>): seq<Link<I>>
    requires Enabled(e, m, step)
  {
    match step
    case StartRun(ready, id, input) => if ready then [Link(id, input, Queued)] else []
    case RetryRun(ready, id) =>
      var d := DecideRetry(e, m, ready, id);
      if d.GoAhead? && Carried(d.plan) then [Link(id, d.plan.input, Queued)] else []
    case ReenterRun(id, _, _, input) => if Reenterable(e.disk, id) then [Link(id, input, Queued)] else []
    case ResumeRun(ready, id) =>
      (match ResumePlan(e, m, ready, id) case None => [] case Some(p) => [Link(id, p.input, Queued)])
    case RecoverRuns(ready, now, listing, damaged) =>
      if ready then SalvageLinks(e, m, now, damaged, listing) else []
    case _ => []
  }

  /** A Run that is queued or executing is not taken again. */
  function Admitted<I>(active: set<string>, links: seq<Link<I>>): seq<Link<I>>
    decreases |links|
  {
    if links == [] then []
    else if links[0].run in active then Admitted(active, links[1..])
    else [links[0]] + Admitted(active + {links[0].run}, links[1..])
  }

  function Runs<I>(links: seq<Link<I>>): set<string> {
    set i | 0 <= i < |links| :: links[i].run
  }

  /** The phases after the step, before anything new is queued. */
  function Advance<I>(chain: seq<Link<I>>, step: Step<I>): seq<Link<I>> {
    match step
    case Begin(ready, i) =>
      if i < |chain| then chain[i := chain[i].(phase := if ready then Executing else Settled)] else chain
    case Settle(i, _) => if i < |chain| then chain[i := chain[i].(phase := Settled)] else chain
    case _ => chain
  }

  /** The Runs the step takes off the active set. */
  function Released<I>(chain: seq<Link<I>>, step: Step<I>): set<string> {
    match step
    case Begin(ready, i) => if i < |chain| && !ready then {chain[i].run} else {}
    case Settle(i, _) => if i < |chain| then {chain[i].run} else {}
    case _ => {}
  }

  function OpenedContext(c: Context, name: string, recorded: bool): Context {
    var pushed := c.(stack := c.stack + [name]);
    if recorded then pushed.(calls := c.calls + [name]) else pushed.(leaked := c.leaked + 1)
  }

  function ClosedContext(c: Context, call: nat): Context
    requires call < |c.calls|
  {
    c.(stack := if c.stack == [] then [] else c.stack[..|c.stack| - 1],
       calls := c.calls[..call] + c.calls[call + 1..])
  }

  predicate Recordable(disk: Disk, run: string) { run in disk && disk[run].meta.Some? }

  ghost function ContextsOf<I>(e: Engine<I>, m: ShellModule<I>, step: Step<I>): seq<Context>
    requires Enabled(e, m, step)
  {
    match step
    case Begin(ready, i) => if ready then e.contexts + [Context(i, e.chain[i].run, [], [], 0, false)] else e.contexts
    case OpenStage(c, name, refused) =>
      e.contexts[c := OpenedContext(e.contexts[c], name, !refused && Recordable(e.disk, e.contexts[c].run))]
    case CloseStage(c, call, _) => e.contexts[c := ClosedContext(e.contexts[c], call)]
    case WaitFor(c, _, _, _) =>
      if InStage(e.contexts[c]) then e.contexts[c := e.contexts[c].(waited := true)] else e.contexts
    case _ => e.contexts
  }

  ghost function Next<I>(e: Engine<I>, m: ShellModule<I>, step: Step<I>, at: int): Engine<I>
    requires Enabled(e, m, step)
  {
    var taken := Admitted(e.active, Requests(e, m, step));
    Engine(
      PlayWrites(e.disk, WritesOf(e, m, step), at),
      Advance(e.chain, step) + taken,
      e.active - Released(e.chain, step) + Runs(taken),
      ContextsOf(e, m, step),
      if step.StartRun? && step.ready then e.issued + {step.newId} else e.issued,
      e.crashes)
  }

  /** The process dies in a step, after `n` of its writes and `k` parts of the next one. Only the disk is left. */
  ghost function Dead<I>(e: Engine<I>, m: ShellModule<I>, step: Step<I>, at: int, n: nat, k: nat): Engine<I>
    requires Enabled(e, m, step) && n <= |WritesOf(e, m, step)|
  {
    var ws := WritesOf(e, m, step);
    var disk := PlayWrites(e.disk, ws[..n], at);
    Engine(
      if n < |ws| then PartWrite(disk, ws[n], at, k) else disk,
      [], {}, [],
      if step.StartRun? && step.ready then e.issued + {step.newId} else e.issued,
      e.crashes + 1)
  }

  // ---- Whole runs ----------------------------------------------------------------------------

  datatype Move<I> =
    | Lives(step: Step<I>, at: int)
    | Dies(step: Step<I>, at: int, n: nat, k: nat)

  ghost predicate CanMove<I>(e: Engine<I>, m: ShellModule<I>, move: Move<I>) {
    && Enabled(e, m, move.step)
    && (move.Dies? ==> move.n <= |WritesOf(e, m, move.step)|)
  }

  ghost function Moved<I>(e: Engine<I>, m: ShellModule<I>, move: Move<I>): Engine<I>
    requires CanMove(e, m, move)
  {
    match move
    case Lives(step, at) => Next(e, m, step, at)
    case Dies(step, at, n, k) => Dead(e, m, step, at, n, k)
  }

  function Boot<I>(): Engine<I> { Engine(map[], [], {}, [], {}, 0) }

  ghost predicate Happens<I>(m: ShellModule<I>, moves: seq<Move<I>>)
    decreases |moves|, 0
  {
    moves == [] ||
    (Happens(m, moves[..|moves| - 1]) && CanMove(Reached(m, moves[..|moves| - 1]), m, moves[|moves| - 1]))
  }

  ghost function Reached<I>(m: ShellModule<I>, moves: seq<Move<I>>): Engine<I>
    requires Happens(m, moves)
    decreases |moves|, 1
  {
    if moves == [] then Boot() else Moved(Reached(m, moves[..|moves| - 1]), m, moves[|moves| - 1])
  }

  // ---- Orderly moves ---------------------------------------------------------------------------

  /** Neither a Module's event nor a host claims a reopening, a resumption or a creation that was none. */
  predicate OrderlyStep<I>(e: Engine<I>, step: Step<I>) {
    match step
    case EmitEvent(c, name, detail) =>
      c < |e.contexts| && InStage(e.contexts[c]) ==> OrderlyOn(e.disk, e.contexts[c].run, Appended(KindOf(name), detail))
    case HostDoes(id, op) => OrderlyOn(e.disk, id, op)
    case _ => true
  }

  predicate OrderlyOn(disk: Disk, run: string, op: RunOp) {
    Recordable(disk, run) ==> Orderly(disk[run], op)
  }

  ghost predicate OrderlyMoves<I>(m: ShellModule<I>, moves: seq<Move<I>>)
    requires Happens(m, moves)
    decreases |moves|
  {
    moves == [] ||
    (OrderlyMoves(m, moves[..|moves| - 1]) && OrderlyStep(Reached(m, moves[..|moves| - 1]), moves[|moves| - 1].step))
  }
}
