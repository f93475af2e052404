/** Runs of the engine, from boot, in which a promise fails. Each is short, and each ends in the state it names. */
module RunEngineRuns {
  import opened Prelude
  import opened RunRecords
  import opened Timeline
  import opened TimelineLaws
  import opened RunStories
  import opened RunEngine
  import opened RunRecordsKept

  // ---- Engines with one Run --------------------------------------------------------------------------

  function Solo<I>(id: string, dir: RunDir, chain: seq<Link<I>>, active: set<string>, contexts: seq<Context>): Engine<I> {
    Engine(map[id := dir], chain, active, contexts, {id}, 0)
  }

  lemma Extend<I>(m: ShellModule<I>, moves: seq<Move<I>>, step: Step<I>)
    requires Happens(m, moves) && Enabled(Reached(m, moves), m, step)
    ensures Happens(m, moves + [Lives(step, 0)])
    ensures Reached(m, moves + [Lives(step, 0)]) == Next(Reached(m, moves), m, step, 0)
  {
    var more := moves + [Lives(step, 0)];
    assert more[..|more| - 1] == moves;
  }

  /** A step that is one operation on the Run, and asks nothing of the queue. */
  lemma SoloStep<I>(m: ShellModule<I>, id: string, dir: RunDir, chain: seq<Link<I>>, active: set<string>,
                    contexts: seq<Context>, step: Step<I>, op: RunOp)
    requires var e := Solo(id, dir, chain, active, contexts);
      Enabled(e, m, step) && WritesOf(e, m, step) == [Do(id, op)] && Requests(e, m, step) == []
      && !step.StartRun? && !step.Begin? && !step.Settle?
    ensures var e := Solo(id, dir, chain, active, contexts);
      Next(e, m, step, 0) == Solo(id, Apply(dir, op, 0), chain, active, ContextsOf(e, m, step))
  {
    var e := Solo(id, dir, chain, active, contexts);
    PlayOne(e.disk, Do(id, op), 0);
    assert e.disk[id := Apply(dir, op, 0)] == map[id := Apply(dir, op, 0)];
    assert chain + [] == chain && Runs<I>([]) == {} && active - {} + {} == active;
  }

  lemma MoveApplies(dir: RunDir, op: RunOp, at: int)
    requires dir.meta.Some? && Moves(op)
    ensures Apply(dir, op, at) == RunDir(Some(Change(dir.meta.value, op)), dir.log + EventsOf(dir.meta.value, op, at), dir.files)
  {
    MovesEmit(dir, op, at);
    var events := EventsOf(dir.meta.value, op, at);
    assert events[..|events|] == events;
  }

  lemma EventApplies(dir: RunDir, kind: Kind, detail: Option<Detail>, at: int)
    requires dir.meta.Some?
    ensures Apply(dir, Appended(kind, detail), at) == dir.(log := dir.log + [Event(Some(at), kind, detail)])
  {
    var events := [Event(Some(at), kind, detail)];
    assert events[..1] == events;
  }

  /** The Run is created and its execution has begun. */
  function Opening<I>(id: string, input: I): seq<Move<I>> {
    [Lives(StartRun(true, id, input), 0), Lives(Begin(true, 0), 0)]
  }

  function Newborn<I>(m: ShellModule<I>, id: string): RunDir {
    RunDir(Some(NewMeta(id, m.id)), [CreatedEvent(0)], map[])
  }

  lemma Created<I>(m: ShellModule<I>, id: string, input: I)
    requires IsRunId(id)
    ensures var moves := [Lives(StartRun(true, id, input), 0)];
      Happens(m, moves) && Reached(m, moves) == Solo(id, Newborn(m, id), [Link(id, input, Queued)], {id}, [])
  {
    var e := Boot<I>();
    var step, l := StartRun(true, id, input), Link(id, input, Queued);
    assert Happens(m, []) && Reached(m, []) == e;
    Extend(m, [], step);
    assert [] + [Lives(step, 0)] == [Lives(step, 0)];
    PlayOne(e.disk, Make(id, m.id), 0);
    assert [l][1..] == [] && Admitted({}, [l]) == [l];
    assert Runs([l]) == {id} by { assert [l][0].run == id; }
    assert e.disk[id := Newborn(m, id)] == map[id := Newborn(m, id)];
  }

  lemma Underway<I>(m: ShellModule<I>, id: string, input: I)
    requires IsRunId(id)
    ensures Happens(m, Opening(id, input))
    ensures Reached(m, Opening(id, input))
         == Solo(id, Newborn(m, id), [Link(id, input, Executing)], {id}, [Context(0, id, [], [], 0, false)])
  {
    Created(m, id, input);
    var first := [Lives(StartRun(true, id, input), 0)];
    Extend(m, first, Begin(true, 0));
    assert first + [Lives(Begin(true, 0), 0)] == Opening(id, input);
    Begins(m, id, input);
  }

  lemma Begins<I>(m: ShellModule<I>, id: string, input: I)
    ensures var e := Solo(id, Newborn(m, id), [Link(id, input, Queued)], {id}, []);
      Enabled(e, m, Begin(true, 0))
      && Next(e, m, Begin(true, 0), 0)
         == Solo(id, Newborn(m, id), [Link(id, input, Executing)], {id}, [Context(0, id, [], [], 0, false)])
  {
    assert Runs<I>([]) == {} && {id} - {} + {} == {id};
    assert [Link(id, input, Queued)][0 := Link(id, input, Executing)] + [] == [Link(id, input, Executing)];
  }

  // ---- Uses of the one context ---------------------------------------------------------------------------

  ghost function At<I>(id: string, input: I, dir: RunDir, c: Context): Engine<I> {
    Solo(id, dir, [Link(id, input, Executing)], {id}, [c])
  }

  /** A use of the context, one operation on the Run, takes the engine from one such state to the next. */
  lemma Uses<I>(m: ShellModule<I>, moves: seq<Move<I>>, id: string, input: I, dir: RunDir, c: Context,
                step: Step<I>, op: RunOp, c': Context)
    requires Happens(m, moves) && Reached(m, moves) == At(id, input, dir, c) && c.run == id
    requires var e := At(id, input, dir, c);
      Enabled(e, m, step) && WritesOf(e, m, step) == [Do(id, op)] && Requests(e, m, step) == []
      && !step.StartRun? && !step.Begin? && !step.Settle? && ContextsOf(e, m, step) == [c']
    ensures Happens(m, moves + [Lives(step, 0)])
    ensures Reached(m, moves + [Lives(step, 0)]) == At(id, input, Apply(dir, op, 0), c')
  {
    Extend(m, moves, step);
    SoloStep(m, id, dir, [Link(id, input, Executing)], {id}, [c], step, op);
  }

  lemma Opens<I>(m: ShellModule<I>, moves: seq<Move<I>>, id: string, input: I, dir: RunDir, c: Context, name: string)
    requires Happens(m, moves) && Reached(m, moves) == At(id, input, dir, c) && c.run == id && dir.meta.Some?
    ensures Happens(m, moves + [Lives(OpenStage(0, name, false), 0)])
    ensures Reached(m, moves + [Lives(OpenStage(0, name, false), 0)])
         == At(id, input,
               RunDir(Some(dir.meta.value.(status := Running)), dir.log + EventsOf(dir.meta.value, Started(name), 0), dir.files),
               c.(stack := c.stack + [name], calls := c.calls + [name]))
  {
    OpensOne(m, id, input, dir, c, name);
    Uses(m, moves, id, input, dir, c, OpenStage(0, name, false), Started(name), OpenedContext(c, name, true));
    MoveApplies(dir, Started(name), 0);
  }

  lemma OpensOne<I>(m: ShellModule<I>, id: string, input: I, dir: RunDir, c: Context, name: string)
    requires c.run == id && dir.meta.Some?
    ensures var e := At(id, input, dir, c);
      Enabled(e, m, OpenStage(0, name, false)) && ContextsOf(e, m, OpenStage(0, name, false)) == [OpenedContext(c, name, true)]
  {
    assert [c][0 := OpenedContext(c, name, true)] == [OpenedContext(c, name, true)];
  }

  lemma Emits<I>(m: ShellModule<I>, moves: seq<Move<I>>, id: string, input: I, dir: RunDir, c: Context, name: string)
    requires Happens(m, moves) && Reached(m, moves) == At(id, input, dir, c) && c.run == id && dir.meta.Some? && InStage(c)
    ensures Happens(m, moves + [Lives(EmitEvent(0, name, None), 0)])
    ensures Reached(m, moves + [Lives(EmitEvent(0, name, None), 0)])
         == At(id, input, dir.(log := dir.log + [Event(Some(0), KindOf(name), None)]), c)
  {
    Uses(m, moves, id, input, dir, c, EmitEvent(0, name, None), Appended(KindOf(name), None), c);
    EventApplies(dir, KindOf(name), None, 0);
  }

  lemma Asks<I>(m: ShellModule<I>, moves: seq<Move<I>>, id: string, input: I, dir: RunDir, c: Context)
    requires Happens(m, moves) && Reached(m, moves) == At(id, input, dir, c) && c.run == id && dir.meta.Some? && InStage(c)
    ensures var step := WaitFor(0, 0, "why", Never); var wait := Wait(0, c.stack[|c.stack| - 1], "why", Never);
      Happens(m, moves + [Lives(step, 0)])
      && Reached(m, moves + [Lives(step, 0)])
         == At(id, input,
               RunDir(Some(dir.meta.value.(status := Blocked, wait := Some(wait))),
                      dir.log + EventsOf(dir.meta.value, BlockedOn(wait), 0), dir.files),
               c.(waited := true))
  {
    var wait := Wait(0, c.stack[|c.stack| - 1], "why", Never);
    Uses(m, moves, id, input, dir, c, WaitFor(0, 0, "why", Never), BlockedOn(wait), c.(waited := true));
    MoveApplies(dir, BlockedOn(wait), 0);
  }

  // ---- Status and timeline ---------------------------------------------------------------------------------

  /** The Run in its first Stage. */
  function InFirst<I>(m: ShellModule<I>, id: string, name: string): RunDir {
    RunDir(Some(NewMeta(id, m.id).(status := Running)),
           [CreatedEvent(0), Event(Some(0), StageStarted, Some(map["stage" := Text(name)]))], map[])
  }

  lemma FirstStage<I>(m: ShellModule<I>, id: string, input: I, name: string)
    requires IsRunId(id)
    ensures var moves := Opening(id, input) + [Lives(OpenStage(0, name, false), 0)];
      Happens(m, moves) && Reached(m, moves) == At(id, input, InFirst(m, id, name), Context(0, id, [name], [name], 0, false))
  {
    var dir := Newborn(m, id);
    Underway(m, id, input);
    Opens(m, Opening(id, input), id, input, dir, Context(0, id, [], [], 0, false), name);
    assert dir.log + EventsOf(dir.meta.value, Started(name), 0) == InFirst(m, id, name).log;
    assert [] + [name] == [name];
  }

  /** A Module event with a Shell name: the Run is running, and its log says done. */
  lemma EventMisleads<I>(m: ShellModule<I>, id: string, input: I)
    requires IsRunId(id)
    ensures var moves := Opening(id, input) + [Lives(OpenStage(0, "a", false), 0)] + [Lives(EmitEvent(0, "run_done", None), 0)];
      Happens(m, moves)
      && Recordable(Reached(m, moves).disk, id)
      && var dir := Reached(m, moves).disk[id];
         dir.meta.value.status == Running && Replayed(dir.log) == Some(Done)
  {
    FirstStage(m, id, input, "a");
    var dir := InFirst(m, id, "a");
    Emits(m, Opening(id, input) + [Lives(OpenStage(0, "a", false), 0)], id, input, dir, Context(0, id, ["a"], ["a"], 0, false), "run_done");
    ReplayedSnoc(dir.log, Event(Some(0), KindOf("run_done"), None));
  }

  lemma ClosingEmits<I>(m: ShellModule<I>, moves: seq<Move<I>>, id: string, input: I, dir: RunDir, c: Context, name: string)
    requires Happens(m, moves) && Reached(m, moves) == At(id, input, dir, c)
    requires dir.meta.Some? && c.run == id && InStage(c) && Closes(KindOf(name))
    ensures var after := moves + [Lives(EmitEvent(0, name, None), 0)];
      Happens(m, after)
      && Recordable(Reached(m, after).disk, id)
      && Reached(m, after).disk[id].meta == dir.meta
      && NoneRunning(Render(Replay(Reached(m, after).disk[id].log)))
  {
    Emits(m, moves, id, input, dir, c, name);
    ClosingShowsNone(dir.log, Event(Some(0), KindOf(name), None));
  }

  /** One that announces nothing: the Run is running, and its timeline shows no Stage running. */
  lemma EventCloses<I>(m: ShellModule<I>, id: string, input: I)
    requires IsRunId(id)
    ensures var moves := Opening(id, input) + [Lives(OpenStage(0, "a", false), 0)] + [Lives(EmitEvent(0, "classify_skipped", None), 0)];
      Happens(m, moves)
      && Recordable(Reached(m, moves).disk, id)
      && var dir := Reached(m, moves).disk[id];
         dir.meta.value.status == Running && NoneRunning(Render(Replay(dir.log)))
  {
    FirstStage(m, id, input, "a");
    ClosingEmits(m, Opening(id, input) + [Lives(OpenStage(0, "a", false), 0)], id, input, InFirst(m, id, "a"),
                 Context(0, id, ["a"], ["a"], 0, false), "classify_skipped");
  }

  lemma ClosingShowsNone(log: Log, e: Event)
    requires Closes(e.kind)
    ensures NoneRunning(Render(Replay(log + [e])))
  {
    ReplayStep(log, e);
    LastOpens(Replay(log), e);
    RunningIsOpen(Replay(log + [e]));
  }

  /** An outcome whose detail says skipped: the Run is done, and its log says skipped. */
  lemma OutcomeMisleads<I>(m: ShellModule<I>, id: string, input: I)
    requires IsRunId(id)
    ensures var outcome := EndDone(None, map["status" := Text("skipped")]);
      var moves := Opening(id, input) + [Lives(Settle(0, Returned(outcome)), 0)];
      Happens(m, moves)
      && Recordable(Reached(m, moves).disk, id)
      && var dir := Reached(m, moves).disk[id];
         dir.meta.value.status == Done && Replayed(dir.log) == Some(Skipped)
  {
    var outcome := EndDone(None, map["status" := Text("skipped")]);
    Underway(m, id, input);
    Ends(m, Opening(id, input), id, input, Newborn(m, id), Context(0, id, [], [], 0, false), outcome);
    SkippedWord(NewMeta(id, m.id), Newborn(m, id).log);
  }

  lemma SkippedWord(meta: Meta, log: Log)
    ensures var op := Finished(EndDone(None, map["status" := Text("skipped")]));
      Replayed(log + EventsOf(meta, op, 0)) == Some(Skipped)
  {
    var events := EventsOf(meta, Finished(EndDone(None, map["status" := Text("skipped")])), 0);
    assert events == [events[0]];
    ReplayedSnoc(log, events[0]);
  }

  lemma Ends<I>(m: ShellModule<I>, moves: seq<Move<I>>, id: string, input: I, dir: RunDir, c: Context, outcome: Outcome)
    requires Happens(m, moves) && Reached(m, moves) == At(id, input, dir, c) && dir.meta.Some?
    ensures var step := Settle(0, Returned(outcome)); var op := Finished(outcome);
      Happens(m, moves + [Lives(step, 0)])
      && Reached(m, moves + [Lives(step, 0)])
         == Solo(id, RunDir(Some(Change(dir.meta.value, op)), dir.log + EventsOf(dir.meta.value, op, 0), dir.files),
                 [Link(id, input, Settled)], {}, [c])
  {
    Extend(m, moves, Settle(0, Returned(outcome)));
    EndsNext(m, id, input, dir, c, outcome);
    MoveApplies(dir, Finished(outcome), 0);
  }

  lemma EndsNext<I>(m: ShellModule<I>, id: string, input: I, dir: RunDir, c: Context, outcome: Outcome)
    ensures Next(At(id, input, dir, c), m, Settle(0, Returned(outcome)), 0)
         == Solo(id, Apply(dir, Finished(outcome), 0), [Link(id, input, Settled)], {}, [c])
  {
    var e := At(id, input, dir, c);
    PlayOne(e.disk, Do(id, Finished(outcome)), 0);
    assert e.disk[id := Apply(dir, Finished(outcome), 0)] == map[id := Apply(dir, Finished(outcome), 0)];
    assert e.chain[0 := Link(id, input, Settled)] + [] == [Link(id, input, Settled)];
    assert Runs<I>([]) == {} && {id} - {id} + {} == {};
  }

  /** A host fails a Run in a Stage it never started: the Run has failed, and no entry says so. */
  lemma FailureUnshown<I>(m: ShellModule<I>, id: string, input: I)
    requires IsRunId(id)
    ensures var op := FailedIn("a", "broke", "hint", None, map[]);
      var moves := [Lives(StartRun(true, id, input), 0)] + [Lives(HostDoes(id, op), 0)];
      Happens(m, moves)
      && Recordable(Reached(m, moves).disk, id)
      && var dir := Reached(m, moves).disk[id];
         dir.meta.value.status == Failed && dir.meta.value.failedStage == Some("a")
         && forall stage :: !ShowsFailed(Render(Replay(dir.log)), stage)
  {
    var op := FailedIn("a", "broke", "hint", None, map[]);
    var first := [Lives(StartRun(true, id, input), 0)];
    var dir := Newborn(m, id);
    Created(m, id, input);
    Extend(m, first, HostDoes(id, op));
    SoloStep(m, id, dir, [Link(id, input, Queued)], {id}, [], HostDoes(id, op), op);
    MoveApplies(dir, op, 0);
    NoneStarted(dir.log + EventsOf(dir.meta.value, op, 0));
  }

  /** A log that starts no Stage shows none failed. */
  lemma NoneStarted(log: Log)
    requires forall e :: e in log ==> !e.kind.StageStarted?
    ensures forall stage :: !ShowsFailed(Render(Replay(log)), stage)
  {
    forall stage ensures !ShowsFailed(Render(Replay(log)), stage) {
      EntryMeaning(log, stage);
      ShowsFailedStage(Replay(log), stage);
    }
  }

  lemma CutParts(dir: RunDir, name: string)
    requires dir.meta.Some?
    ensures var op := Started(name);
      && Possible(dir, Interrupted(op, 0, 0))
      && ApplyPart(dir, op, 0, 0) == dir.(meta := Some(dir.meta.value.(status := Running)))
      && Emitted(dir, op, 0)[0..] == [Event(Some(0), StageStarted, Some(map["stage" := Text(name)]))]
  {
    var events := EventsOf(dir.meta.value, Started(name), 0);
    assert events[0..] == events && events[..0] == [] && dir.log + [] == dir.log;
  }

  lemma CutStart<I>(m: ShellModule<I>, e: Engine<I>, c: Chronicle, id: string, input: I, dir: RunDir, ctx: Context)
    requires e == At(id, input, dir, ctx) && ctx.run == id && dir.meta.Some? && Tells(c, e.disk)
    ensures var move := Dies(OpenStage(0, "a", false), 0, 0, 0);
      && CanMove(e, m, move)
      && Moved(e, m, move).disk == map[id := dir.(meta := Some(dir.meta.value.(status := Running)))]
      && id in NoteMove(e, c, m, move)
      && Tell(NoteMove(e, c, m, move)[id]).owed == [Event(Some(0), StageStarted, Some(map["stage" := Text("a")]))]
  {
    var move, w := Dies(OpenStage(0, "a", false), 0, 0, 0), Do(id, Started("a"));
    assert WritesOf(e, m, move.step) == [w] && [w][..0] == [];
    assert ToldOn(c, e.disk, id);
    CutParts(dir, "a");
    assert e.disk[id := dir.(meta := Some(dir.meta.value.(status := Running)))]
        == map[id := dir.(meta := Some(dir.meta.value.(status := Running)))];
  }

  /** The process dies between a start's metadata and its event: the Run is running, and its log says pending. */
  lemma StartCutShort<I>(m: ShellModule<I>, id: string, input: I)
    requires IsRunId(id)
    ensures var moves := Opening(id, input) + [Dies(OpenStage(0, "a", false), 0, 0, 0)];
      Happens(m, moves)
      && Recordable(Reached(m, moves).disk, id)
      && var dir := Reached(m, moves).disk[id];
         dir.meta.value.status == Running && Replayed(dir.log) == Some(Pending)
         && id in Histories(m, moves)
         && Tell(Histories(m, moves)[id]).owed == [Event(Some(0), StageStarted, Some(map["stage" := Text("a")]))]
  {
    var opening := Opening(id, input);
    Underway(m, id, input);
    HistoriesTell(m, opening);
    CutStart(m, Reached(m, opening), Histories(m, opening), id, input, Newborn(m, id), Context(0, id, [], [], 0, false));
    DiesAfter(m, opening, Dies(OpenStage(0, "a", false), 0, 0, 0));
    ReplayedSnoc([], CreatedEvent(0));
    assert [] + [CreatedEvent(0)] == [CreatedEvent(0)];
  }

  lemma DiesAfter<I>(m: ShellModule<I>, moves: seq<Move<I>>, move: Move<I>)
    requires Happens(m, moves) && CanMove(Reached(m, moves), m, move)
    ensures Happens(m, moves + [move]) && Reached(m, moves + [move]) == Moved(Reached(m, moves), m, move)
    ensures Histories(m, moves + [move]) == NoteMove(Reached(m, moves), Histories(m, moves), m, move)
  {
    assert (moves + [move])[..|moves|] == moves;
  }

  // ---- Waits -------------------------------------------------------------------------------------------------

  /** A Stage opened after `wait` threw: the Run is running, with a wait. */
  lemma StageAfterWait<I>(m: ShellModule<I>, id: string, input: I)
    requires IsRunId(id)
    ensures var moves := Opening(id, input) + [Lives(OpenStage(0, "a", false), 0)] + [Lives(WaitFor(0, 0, "why", Never), 0)]
                         + [Lives(OpenStage(0, "b", false), 0)];
      Happens(m, moves)
      && Recordable(Reached(m, moves).disk, id)
      && var dir := Reached(m, moves).disk[id];
         dir.meta.value.status == Running && dir.meta.value.wait.Some?
  {
    var moves1 := Opening(id, input) + [Lives(OpenStage(0, "a", false), 0)];
    var c := Context(0, id, ["a"], ["a"], 0, false);
    FirstStage(m, id, input, "a");
    Asks(m, moves1, id, input, InFirst(m, id, "a"), c);
    var moves2 := moves1 + [Lives(WaitFor(0, 0, "why", Never), 0)];
    Opens(m, moves2, id, input, Reached(m, moves2).disk[id], c.(waited := true), "b");
  }

  /** The Run after its first Stage and its end. */
  function Ended<I>(m: ShellModule<I>, id: string): RunDir {
    var dir, op := InFirst(m, id, "a"), Finished(EndDone(None, map[]));
    RunDir(Some(Change(dir.meta.value, op)), dir.log + EventsOf(dir.meta.value, op, 0), map[])
  }

  function EndedMoves<I>(id: string, input: I): seq<Move<I>> {
    Opening(id, input) + [Lives(OpenStage(0, "a", false), 0)] + [Lives(Settle(0, Returned(EndDone(None, map[]))), 0)]
  }

  const LEFT_OPEN := Context(0, "", ["a"], ["a"], 0, false)

  lemma FirstEnded<I>(m: ShellModule<I>, id: string, input: I)
    requires IsRunId(id)
    ensures Happens(m, EndedMoves(id, input))
    ensures Reached(m, EndedMoves(id, input))
         == Solo(id, Ended(m, id), [Link(id, input, Settled)], {}, [LEFT_OPEN.(run := id)])
  {
    FirstStage(m, id, input, "a");
    Ends(m, Opening(id, input) + [Lives(OpenStage(0, "a", false), 0)], id, input, InFirst(m, id, "a"),
         LEFT_OPEN.(run := id), EndDone(None, map[]));
  }

  /** A context whose execution has settled with its Stage still open, and the Run re-entered. */
  lemma Reentered<I>(m: ShellModule<I>, id: string, input: I)
    requires IsRunId(id)
    ensures var moves := EndedMoves(id, input) + [Lives(Step.ReenterRun(id, "a", "again", input), 0)];
      Happens(m, moves)
      && Reached(m, moves) == Solo(id, Apply(Ended(m, id), Reopened("a", "again"), 0),
                                   [Link(id, input, Settled), Link(id, input, Queued)], {id}, [LEFT_OPEN.(run := id)])
  {
    FirstEnded(m, id, input);
    ReentersAfter(m, EndedMoves(id, input), id, input, Ended(m, id));
  }

  lemma ReentersAfter<I>(m: ShellModule<I>, moves: seq<Move<I>>, id: string, input: I, dir: RunDir)
    requires IsRunId(id) && dir.meta.Some? && dir.meta.value.status == Done && Happens(m, moves)
    requires Reached(m, moves) == Solo(id, dir, [Link(id, input, Settled)], {}, [LEFT_OPEN.(run := id)])
    ensures var step := Step.ReenterRun(id, "a", "again", input);
      Happens(m, moves + [Lives(step, 0)])
      && Reached(m, moves + [Lives(step, 0)])
         == Solo(id, Apply(dir, Reopened("a", "again"), 0), [Link(id, input, Settled), Link(id, input, Queued)], {id},
                 [LEFT_OPEN.(run := id)])
  {
    Extend(m, moves, Step.ReenterRun(id, "a", "again", input));
    ReenterNext(m, id, input, dir, [Link(id, input, Settled)], LEFT_OPEN.(run := id));
    assert [Link(id, input, Settled)] + [Link(id, input, Queued)] == [Link(id, input, Settled), Link(id, input, Queued)];
  }

  lemma ReenterNext<I>(m: ShellModule<I>, id: string, input: I, dir: RunDir, chain: seq<Link<I>>, c: Context)
    requires IsRunId(id) && dir.meta.Some? && dir.meta.value.status == Done
    ensures Next(Solo(id, dir, chain, {}, [c]), m, Step.ReenterRun(id, "a", "again", input), 0)
         == Solo(id, Apply(dir, Reopened("a", "again"), 0), chain + [Link(id, input, Queued)], {id}, [c])
  {
    var e, l := Solo(id, dir, chain, {}, [c]), Link(id, input, Queued);
    PlayOne(e.disk, Do(id, Reopened("a", "again")), 0);
    assert e.disk[id := Apply(dir, Reopened("a", "again"), 0)] == map[id := Apply(dir, Reopened("a", "again"), 0)];
    assert [l][1..] == [] && Admitted({}, [l]) == [l];
    assert Runs([l]) == {id} by { assert [l][0].run == id; }
  }

  function LateMoves<I>(id: string, input: I): seq<Move<I>> {
    EndedMoves(id, input) + [Lives(Step.ReenterRun(id, "a", "again", input), 0)] + [Lives(WaitFor(0, 0, "why", Never), 0)]
    + [Lives(Begin(true, 1), 0)] + [Lives(OpenStage(1, "b", false), 0)]
  }

  /**
    An old context used after its execution settled blocks the Run before the next execution begins:
    that one opens its first Stage, never having asked to wait, and the Run is running, with a wait.
   */
  lemma LateWait<I>(m: ShellModule<I>, id: string, input: I)
    requires IsRunId(id)
    ensures Happens(m, LateMoves(id, input))
    ensures var e := Reached(m, LateMoves(id, input));
      && Recordable(e.disk, id) && e.disk[id].meta.value.status == Running && e.disk[id].meta.value.wait.Some?
      && |e.contexts| == 2 && !e.contexts[1].waited && |e.contexts[0].calls| == 1
  {
    var moves := EndedMoves(id, input) + [Lives(Step.ReenterRun(id, "a", "again", input), 0)];
    var dir := Apply(Ended(m, id), Reopened("a", "again"), 0);
    Reentered(m, id, input);
    MoveApplies(Ended(m, id), Reopened("a", "again"), 0);
    LateBlock(m, moves, id, input, dir);
    var moves' := moves + [Lives(WaitFor(0, 0, "why", Never), 0)];
    LateOpen(m, moves', id, input, Reached(m, moves').disk[id]);
  }

  /** The old context blocks the queued Run. */
  lemma LateBlock<I>(m: ShellModule<I>, moves: seq<Move<I>>, id: string, input: I, dir: RunDir)
    requires Happens(m, moves) && dir.meta.Some?
    requires var chain := [Link(id, input, Settled), Link(id, input, Queued)];
      Reached(m, moves) == Solo(id, dir, chain, {id}, [LEFT_OPEN.(run := id)])
    ensures var after := moves + [Lives(WaitFor(0, 0, "why", Never), 0)];
      Happens(m, after) && Recordable(Reached(m, after).disk, id)
      && Reached(m, after) == Solo(id, Reached(m, after).disk[id], [Link(id, input, Settled), Link(id, input, Queued)], {id},
                                   [LEFT_OPEN.(run := id, waited := true)])
      && Reached(m, after).disk[id].meta.value.status == Blocked && Reached(m, after).disk[id].meta.value.wait.Some?
  {
    var chain, c := [Link(id, input, Settled), Link(id, input, Queued)], LEFT_OPEN.(run := id);
    var step, op := WaitFor(0, 0, "why", Never), BlockedOn(Wait(0, "a", "why", Never));
    Extend(m, moves, step);
    SoloStep(m, id, dir, chain, {id}, [c], step, op);
    MoveApplies(dir, op, 0);
    assert [c][0 := c.(waited := true)] == [c.(waited := true)];
  }

  /** The next execution begins and opens its first Stage. */
  lemma LateOpen<I>(m: ShellModule<I>, moves: seq<Move<I>>, id: string, input: I, dir: RunDir)
    requires Happens(m, moves) && dir.meta.Some?
    requires Reached(m, moves) == Solo(id, dir, [Link(id, input, Settled), Link(id, input, Queued)], {id},
                                       [LEFT_OPEN.(run := id, waited := true)])
    ensures var after := moves + [Lives(Begin(true, 1), 0)] + [Lives(OpenStage(1, "b", false), 0)];
      Happens(m, after)
      && var e := Reached(m, after);
         && Recordable(e.disk, id) && e.disk[id].meta == Some(dir.meta.value.(status := Running))
         && |e.contexts| == 2 && !e.contexts[1].waited && |e.contexts[0].calls| == 1
  {
    var c0, c1 := LEFT_OPEN.(run := id, waited := true), Context(1, id, [], [], 0, false);
    var chain := [Link(id, input, Settled), Link(id, input, Executing)];
    Extend(m, moves, Begin(true, 1));
    LateBegin(m, id, input, dir, c0);
    Extend(m, moves + [Lives(Begin(true, 1), 0)], OpenStage(1, "b", false));
    SoloStep(m, id, dir, chain, {id}, [c0, c1], OpenStage(1, "b", false), Started("b"));
    MoveApplies(dir, Started("b"), 0);
  }

  lemma LateBegin<I>(m: ShellModule<I>, id: string, input: I, dir: RunDir, c: Context)
    ensures var e := Solo(id, dir, [Link(id, input, Settled), Link(id, input, Queued)], {id}, [c]);
      Enabled(e, m, Begin(true, 1))
      && Next(e, m, Begin(true, 1), 0)
         == Solo(id, dir, [Link(id, input, Settled), Link(id, input, Executing)], {id}, [c, Context(1, id, [], [], 0, false)])
  {
    var chain := [Link(id, input, Settled), Link(id, input, Queued)];
    assert chain[1 := Link(id, input, Executing)] + [] == [Link(id, input, Settled), Link(id, input, Executing)];
    assert [c] + [Context(1, id, [], [], 0, false)] == [c, Context(1, id, [], [], 0, false)];
    assert Runs<I>([]) == {} && {id} - {} + {} == {id};
  }

  // ---- The stack -------------------------------------------------------------------------------------------------

  /** A refused start leaves its name behind: with no `stage` call open, an event goes through. */
  lemma LeakLetsThrough<I>(m: ShellModule<I>, id: string, input: I)
    requires IsRunId(id)
    ensures var moves := Opening(id, input) + [Lives(OpenStage(0, "a", true), 0)] + [Lives(EmitEvent(0, "note", None), 0)];
      Happens(m, moves)
      && var e := Reached(m, moves);
         e.contexts[0].calls == [] && id in e.disk && e.disk[id].log == [CreatedEvent(0), Event(Some(0), KindOf("note"), None)]
  {
    Refused(m, id, input);
    Emits(m, Opening(id, input) + [Lives(OpenStage(0, "a", true), 0)], id, input, Newborn(m, id),
          Context(0, id, ["a"], [], 1, false), "note");
  }

  lemma Refused<I>(m: ShellModule<I>, id: string, input: I)
    requires IsRunId(id)
    ensures var moves := Opening(id, input) + [Lives(OpenStage(0, "a", true), 0)];
      Happens(m, moves) && Reached(m, moves) == At(id, input, Newborn(m, id), Context(0, id, ["a"], [], 1, false))
  {
    Underway(m, id, input);
    var e := Reached(m, Opening(id, input));
    Extend(m, Opening(id, input), OpenStage(0, "a", true));
    assert [] + ["a"] == ["a"];
    assert e.contexts[0 := Context(0, id, ["a"], [], 1, false)] == [Context(0, id, ["a"], [], 1, false)];
    assert e.chain + [] == e.chain && Runs<I>([]) == {} && e.active - {} + {} == e.active;
  }

  /** Two Stages at once, and the first one settles: the wait names it, while the other is the one open. */
  lemma WaitMisnames<I>(m: ShellModule<I>, id: string, input: I)
    requires IsRunId(id)
    ensures var moves := Opening(id, input) + [Lives(OpenStage(0, "a", false), 0)] + [Lives(OpenStage(0, "b", false), 0)]
                         + [Lives(CloseStage(0, 0, Fine), 0)] + [Lives(WaitFor(0, 0, "why", Never), 0)];
      Happens(m, moves)
      && var e := Reached(m, moves);
         e.contexts[0].calls == ["b"]
         && Recordable(e.disk, id) && e.disk[id].meta.value.wait.Some? && e.disk[id].meta.value.wait.value.stage == "a"
  {
    var moves1 := Opening(id, input) + [Lives(OpenStage(0, "a", false), 0)];
    var moves2 := moves1 + [Lives(OpenStage(0, "b", false), 0)];
    FirstStage(m, id, input, "a");
    Opens(m, moves1, id, input, InFirst(m, id, "a"), Context(0, id, ["a"], ["a"], 0, false), "b");
    var dir := Reached(m, moves2).disk[id];
    Settles(m, moves2, id, input, dir);
    Asks(m, moves2 + [Lives(CloseStage(0, 0, Fine), 0)], id, input, dir, Context(0, id, ["a"], ["b"], 0, false));
  }

  lemma Settles<I>(m: ShellModule<I>, moves: seq<Move<I>>, id: string, input: I, dir: RunDir)
    requires Happens(m, moves) && Reached(m, moves) == At(id, input, dir, Context(0, id, ["a"] + ["b"], ["a"] + ["b"], 0, false))
    ensures Happens(m, moves + [Lives(CloseStage(0, 0, Fine), 0)])
    ensures Reached(m, moves + [Lives(CloseStage(0, 0, Fine), 0)]) == At(id, input, dir, Context(0, id, ["a"], ["b"], 0, false))
  {
    var e := Reached(m, moves);
    Extend(m, moves, CloseStage(0, 0, Fine));
    assert ["a", "b"][..1] == ["a"] && ["a", "b"][..0] + ["a", "b"][1..] == ["b"];
    assert e.chain + [] == e.chain && Runs<I>([]) == {} && e.active - {} + {} == e.active;
  }
}
