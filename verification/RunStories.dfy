/**
  What every story of a Run keeps: the stored status, the status a reader replays from
  the log, the timeline and the durable wait, over every sequence of transitions and
  with the process dying inside any of them.
 */
module RunStories {
  import opened Prelude
  import opened RunRecords
  import opened Timeline
  import opened TimelineLaws

  // ---- What the page shows beside the status -----------------------------------------------

  ghost predicate RunningAt(entries: seq<Entry>, i: nat) {
    i < |entries| && entries[i].state.EntryRunning?
  }

  ghost predicate NoneRunning(entries: seq<Entry>) {
    forall i: nat :: !RunningAt(entries, i)
  }

  ghost predicate AtMostOneRunning(entries: seq<Entry>) {
    forall i: nat, j: nat :: RunningAt(entries, i) && RunningAt(entries, j) ==> i == j
  }

  ghost predicate OneRunning(entries: seq<Entry>) {
    AtMostOneRunning(entries) && !NoneRunning(entries)
  }

  ghost predicate ShowsFailed(entries: seq<Entry>, stage: string) {
    exists i :: 0 <= i < |entries| && entries[i].stage == stage && entries[i].state.EntryFailed?
  }

  /** The rendered timeline and the stored record tell one story. */
  ghost predicate TimelineAgrees(meta: Meta, log: Log) {
    var entries := Render(Replay(log));
    match meta.status
    case Pending => AtMostOneRunning(entries)
    case Running => OneRunning(entries)
    case Failed => NoneRunning(entries) && meta.failedStage.Some? && ShowsFailed(entries, meta.failedStage.value)
    case _ => NoneRunning(entries)
  }

  /** The same, said about the replayer's state. */
  ghost predicate ReplayAgrees(meta: Meta, r: Replayer) {
    && (meta.status == Running ==> r.open.Some?)
    && (meta.status in {Blocked, Failed, Done, Skipped} ==> r.open.None?)
    && (meta.status == Failed ==>
        meta.failedStage.Some? && meta.failedStage.value in r.accs && r.accs[meta.failedStage.value].failed)
  }

  lemma RunningIsOpen(r: Replayer)
    requires Consistent(r)
    ensures r.open.None? ==> NoneRunning(Render(r))
    ensures r.open.Some? ==> OneRunning(Render(r))
    ensures AtMostOneRunning(Render(r))
  {
    var entries := Render(r);
    forall i: nat | RunningAt(entries, i) ensures r.open == Some(r.order[i]) {
      assert entries[i] == EntryFor(r, r.order[i]);
    }
    if r.open.Some? {
      assert r.open.value in r.order;
      var i: nat :| i < |r.order| && r.order[i] == r.open.value;
      assert entries[i] == EntryFor(r, r.order[i]);
      assert RunningAt(entries, i);
    }
  }

  lemma ShowsFailedStage(r: Replayer, stage: string)
    requires Consistent(r)
    ensures ShowsFailed(Render(r), stage) <==> stage in r.accs && r.accs[stage].failed
  {
    if stage in r.accs && r.accs[stage].failed {
      assert stage in r.order;
      var i :| 0 <= i < |r.order| && r.order[i] == stage;
      assert Render(r)[i] == EntryFor(r, r.order[i]);
    }
    if ShowsFailed(Render(r), stage) {
      var i :| 0 <= i < |r.order| && Render(r)[i].stage == stage && Render(r)[i].state.EntryFailed?;
      assert Render(r)[i] == EntryFor(r, r.order[i]) && r.order[i] in r.order;
    }
  }

  lemma OpenExactly(r: Replayer)
    requires Consistent(r)
    ensures OneRunning(Render(r)) <==> r.open.Some?
    ensures NoneRunning(Render(r)) <==> r.open.None?
    ensures AtMostOneRunning(Render(r))
  {
    RunningIsOpen(r);
  }

  lemma AgreementRendered(meta: Meta, log: Log)
    ensures TimelineAgrees(meta, log) <==> ReplayAgrees(meta, Replay(log))
  {
    OpenExactly(Replay(log));
    if meta.failedStage.Some? { ShowsFailedStage(Replay(log), meta.failedStage.value); }
  }

  /** The reader of the log sees the stored status, and the timeline that goes with it. */
  ghost predicate Agrees(meta: Meta, log: Log) {
    Replayed(log) == Some(meta.status) && TimelineAgrees(meta, log)
  }

  /** Agreement, once the events an interrupted transition still owes the log are counted. */
  ghost predicate AgreeAt(r: Record) {
    r.dir.meta.Some? && Agrees(r.dir.meta.value, r.dir.log + r.owed)
  }

  // ---- One event more ----------------------------------------------------------------------

  lemma ReplayedSnoc(log: Log, e: Event)
    ensures Replayed(log + [e]) == if Announces(e).Some? then Announces(e) else Replayed(log)
  {
    assert (log + [e])[..|log|] == log;
  }

  /** An event that announces nothing else disturbs the timeline of a running Run alone, by ending its open Stage. */
  lemma StepAgrees(meta: Meta, r: Replayer, e: Event)
    requires Consistent(r) && ReplayAgrees(meta, r) && (Announces(e).Some? ==> Announces(e) == Some(meta.status))
    ensures ReplayAgrees(meta, Step(r, e))
            <==> !(meta.status == Running
                   && (e.kind.ClassifySkipped? || (e.kind.StageFailed? && StageKey(e).Some? && StageKey(e).value in r.accs)))
  {
    if meta.status == Failed { StepEntry(r, e, meta.failedStage.value); }
  }

  lemma FaithfulAnnounces(status: Status, log: Log, e: Event)
    ensures FaithfulEvent(status, log, e) <==>
            (Announces(e).Some? ==> Announces(e) == Some(status))
            && !(status == Running
                 && (e.kind.ClassifySkipped? || (e.kind.StageFailed? && StageKey(e).Some? && HasStarted(log, StageKey(e).value))))
  {
  }

  /** A bare event keeps agreement if and only if it is faithful. */
  lemma EventExactly(meta: Meta, log: Log, e: Event)
    requires Agrees(meta, log)
    ensures Agrees(meta, log + [e]) <==> FaithfulEvent(meta.status, log, e)
  {
    AgreementRendered(meta, log);
    AgreementRendered(meta, log + [e]);
    ReplayedSnoc(log, e);
    ReplayStep(log, e);
    FaithfulAnnounces(meta.status, log, e);
    if StageKey(e).Some? { EntryMeaning(log, StageKey(e).value); }
    if Announces(e).Some? ==> Announces(e) == Some(meta.status) { StepAgrees(meta, Replay(log), e); }
  }

  /** What an interrupted transition into `status` can still owe the log. */
  ghost predicate TailOf(owed: Log, status: Status, failedStage: Option<string>) {
    match status
    case Pending => |owed| == 1 && owed[0].kind in {Created, RunResumed, RunRecovered, RunReopened}
    case Running => |owed| == 1 && owed[0].kind.StageStarted? && StageKey(owed[0]).Some?
    case Blocked => |owed| == 1 && owed[0].kind.RunBlocked?
    case Done => |owed| == 1 && owed[0].kind.RunDone?
    case Skipped =>
      1 <= |owed| <= 2 && owed[|owed| - 1].kind.RunDone? && Announces(owed[|owed| - 1]) == Some(Skipped)
      && (|owed| == 2 ==> owed[0].kind.ClassifySkipped?)
    case Failed =>
      1 <= |owed| <= 2 && owed[|owed| - 1].kind.RunFailed? && failedStage.Some?
      && (|owed| == 2 ==> owed[0].kind.StageFailed? && StageKey(owed[0]) == failedStage)
  }

  /** Whatever is owed is such a tail. */
  ghost predicate Trails(r: Record) {
    r.dir.meta.Some? && (r.owed != [] ==> TailOf(r.owed, r.dir.meta.value.status, r.dir.meta.value.failedStage))
  }

  lemma AnnouncedAtEnd(log: Log, events: Log)
    requires events != [] && Announces(events[|events| - 1]).Some?
    ensures Replayed(log + events) == Announces(events[|events| - 1])
  {
    assert (log + events)[|log + events| - 1] == events[|events| - 1];
  }

  lemma ReplayOne(log: Log, owed: Log)
    requires |owed| == 1
    ensures Replay(log + owed) == Step(Replay(log), owed[0])
  {
    assert owed == [owed[0]];
    ReplayStep(log, owed[0]);
  }

  lemma ReplayTwo(log: Log, owed: Log)
    requires |owed| == 2
    ensures Replay(log + owed) == Step(Step(Replay(log), owed[0]), owed[1])
  {
    assert log + owed == (log + [owed[0]]) + [owed[1]];
    ReplayStep(log, owed[0]);
    ReplayStep(log + [owed[0]], owed[1]);
  }

  /** The last event of a tail opens a Stage or closes whatever was open. */
  lemma LastOpens(r: Replayer, e: Event)
    requires Consistent(r)
    ensures e.kind.StageStarted? && StageKey(e).Some? ==> Step(r, e).open.Some?
    ensures Closes(e.kind) ==> Step(r, e).open.None?
  {
  }

  predicate MarkedFailed(r: Replayer, stage: string) { stage in r.accs && r.accs[stage].failed }

  /** The replayer after one or two more events. */
  ghost predicate StepsTo(r: Replayer, owed: Log, r': Replayer)
    requires Consistent(r) && 1 <= |owed| <= 2
  {
    r' == if |owed| == 1 then Step(r, owed[0]) else Step(Step(r, owed[0]), owed[1])
  }

  lemma TailOpen(r: Replayer, owed: Log, r': Replayer, status: Status, failedStage: Option<string>)
    requires Consistent(r) && TailOf(owed, status, failedStage) && StepsTo(r, owed, r')
    ensures status == Running ==> r'.open.Some?
    ensures status in {Blocked, Failed, Done, Skipped} ==> r'.open.None?
  {
    LastOpens(if |owed| == 1 then r else Step(r, owed[0]), owed[|owed| - 1]);
  }

  lemma TailFailed(r: Replayer, owed: Log, r': Replayer, stage: string)
    requires Consistent(r) && TailOf(owed, Failed, Some(stage)) && StepsTo(r, owed, r')
    ensures MarkedFailed(r', stage) <==> if |owed| == 2 then stage in r.accs else MarkedFailed(r, stage)
  {
    if |owed| == 1 {
      CloseKeepsFailed(r, owed[0], stage);
    } else {
      FailureCloses(r, owed[0], owed[1], stage);
    }
  }

  /** The state after an owed tail, by the state before it. */
  lemma TailReplay(log: Log, owed: Log, status: Status, failedStage: Option<string>)
    requires TailOf(owed, status, failedStage)
    ensures var r, r' := Replay(log), Replay(log + owed);
      && (status == Running ==> r'.open.Some?)
      && (status in {Blocked, Failed, Done, Skipped} ==> r'.open.None?)
      && (status == Failed ==>
            (MarkedFailed(r', failedStage.value)
             <==> if |owed| == 2 then failedStage.value in r.accs else MarkedFailed(r, failedStage.value)))
  {
    var r, r' := Replay(log), Replay(log + owed);
    if |owed| == 1 { ReplayOne(log, owed); } else { ReplayTwo(log, owed); }
    TailOpen(r, owed, r', status, failedStage);
    if status == Failed { TailFailed(r, owed, r', failedStage.value); }
  }

  lemma CloseKeepsFailed(r: Replayer, ended: Event, stage: string)
    requires Consistent(r) && ended.kind.RunFailed?
    ensures var r' := Step(r, ended);
      r'.open.None? && (stage in r'.accs <==> stage in r.accs)
      && (stage in r.accs ==> (r'.accs[stage].failed <==> r.accs[stage].failed))
  {
  }

  lemma FailureCloses(r: Replayer, failed: Event, ended: Event, stage: string)
    requires Consistent(r)
    requires failed.kind.StageFailed? && StageKey(failed) == Some(stage) && ended.kind.RunFailed?
    ensures var r' := Step(Step(r, failed), ended);
      r'.open.None? && (stage in r'.accs <==> stage in r.accs) && (stage in r.accs ==> r'.accs[stage].failed)
  {
    CloseKeepsFailed(Step(r, failed), ended, stage);
  }

  /** A bare event before an owed tail: the tail has the last word, save on a failed Stage started anew. */
  lemma InsertExactly(meta: Meta, log: Log, e: Event, owed: Log)
    requires Agrees(meta, log + owed) && owed != [] && TailOf(owed, meta.status, meta.failedStage)
    ensures Agrees(meta, log + [e] + owed)
            <==> !(meta.status == Failed && |owed| == 1 && e.kind.StageStarted? && StageKey(e) == meta.failedStage)
  {
    AgreementRendered(meta, log + owed);
    AgreementRendered(meta, log + [e] + owed);
    AnnouncedAtEnd(log, owed);
    AnnouncedAtEnd(log + [e], owed);
    TailReplay(log, owed, meta.status, meta.failedStage);
    TailReplay(log + [e], owed, meta.status, meta.failedStage);
    ReplayStep(log, e);
    if meta.status == Failed { StepEntry(Replay(log), e, meta.failedStage.value); }
  }

  // ---- One transition, whatever the log was before -----------------------------------------

  /** The log's last word on the status. */
  function LastWord(log: Log): Option<Kind> {
    if log == [] then None
    else if Announces(log[|log| - 1]).Some? then Some(log[|log| - 1].kind)
    else LastWord(log[..|log| - 1])
  }

  lemma LastWordSnoc(log: Log, e: Event)
    ensures LastWord(log + [e]) == if Announces(e).Some? then Some(e.kind) else LastWord(log)
  {
    assert (log + [e])[..|log|] == log;
  }

  /** Any tail of a transition's events is a tail into the status it moves to. */
  lemma MoveTrails(meta: Meta, op: RunOp, at: int, k: nat)
    requires Moves(op) && k < |EventsOf(meta, op, at)|
    ensures TailOf(EventsOf(meta, op, at)[k..], Change(meta, op).status, Change(meta, op).failedStage)
  {
    var events := EventsOf(meta, op, at);
    assert |events| <= 2;
    assert k == 0 ==> events[k..] == events;
    assert k == 1 ==> events[k..] == [events[1]];
  }

  lemma FailedLast(meta: Meta, op: RunOp, at: int)
    requires Moves(op)
    ensures var events := EventsOf(meta, op, at);
      events != [] && Announces(events[|events| - 1])
        == Some(if op.Finished? && op.outcome.EndDone? && SaysSkipped(op.outcome.detail) then Skipped
                else Change(meta, op).status)
    ensures op.FailedIn? ==> |EventsOf(meta, op, at)| == 2 && Change(meta, op).failedStage == Some(op.stage)
  {
  }

  /** A transition ends in agreement if and only if it is faithful, whatever went before. */
  lemma TransitionExactly(meta: Meta, log: Log, op: RunOp, at: int)
    requires Moves(op)
    ensures Agrees(Change(meta, op), log + EventsOf(meta, op, at)) <==> Faithful(Record(RunDir(Some(meta), log, map[]), []), op)
  {
    var events, after := EventsOf(meta, op, at), Change(meta, op);
    FailedLast(meta, op, at);
    AnnouncedAtEnd(log, events);
    AgreementRendered(after, log + events);
    assert events[0..] == events;
    MoveTrails(meta, op, at, 0);
    TailReplay(log, events, after.status, after.failedStage);
    if op.FailedIn? { EntryMeaning(log, op.stage); }
  }

  /** A transition's record: the changed metadata, and the whole of its events between log and debt. */
  lemma MoveParts(r: Record, h: Happening)
    requires r.dir.meta.Some? && Possible(r.dir, h) && Moves(h.op)
    ensures After(r, h).dir.meta == Some(Change(r.dir.meta.value, h.op))
    ensures After(r, h).dir.log + After(r, h).owed == r.dir.log + EventsOf(r.dir.meta.value, h.op, h.at)
    ensures After(r, h).owed == if h.Did? then [] else EventsOf(r.dir.meta.value, h.op, h.at)[h.k..]
  {
    var meta, events := r.dir.meta.value, EventsOf(r.dir.meta.value, h.op, h.at);
    MovesEmit(r.dir, h.op, h.at);
    SplitLog(r.dir.log, events, if h.Interrupted? then h.k else |events|);
    var files := ChangeFiles(r.dir.files, h.op);
    if h.Interrupted? {
      assert After(r, h) == Record(RunDir(Some(Change(meta, h.op)), r.dir.log + events[..h.k], files), events[h.k..]);
    } else {
      assert After(r, h) == Record(RunDir(Some(Change(meta, h.op)), r.dir.log + events[..|events|], files), []);
    }
  }

  lemma SplitLog(log: Log, events: Log, k: nat)
    requires k <= |events|
    ensures log + events[..k] + events[k..] == log + events
    ensures k == |events| ==> log + events[..k] + [] == log + events
  {
    assert events == events[..k] + events[k..];
  }

  lemma MovesEmit(dir: RunDir, op: RunOp, at: int)
    requires dir.meta.Some? && Moves(op)
    ensures !Throws(dir, op) && Emitted(dir, op, at) == EventsOf(dir.meta.value, op, at)
  {
  }

  /** Any other operation leaves the status, and what is owed, as they were. */
  lemma StillParts(r: Record, h: Happening)
    requires r.dir.meta.Some? && Possible(r.dir, h) && !Moves(h.op)
    ensures After(r, h).owed == r.owed
    ensures After(r, h).dir.meta.Some?
    ensures var (m, m') := (r.dir.meta.value, After(r, h).dir.meta.value);
      m'.status == m.status && m'.wait == m.wait && m'.failedStage == m.failedStage && m'.id == m.id && m'.owner == m.owner
    ensures After(r, h).dir.log ==
            if h.op.Appended? then r.dir.log + [Event(Some(h.at), h.op.kind, h.op.detail)] else r.dir.log
  {
    var events := Emitted(r.dir, h.op, h.at);
    assert events[..|events|] == events;
  }

  // ---- Exactly when an operation keeps the promise --------------------------------------------

  lemma SameAgreement(m: Meta, m': Meta, log: Log)
    requires m'.status == m.status && m'.failedStage == m.failedStage
    ensures Agrees(m', log) <==> Agrees(m, log)
  {
    AgreementRendered(m, log);
    AgreementRendered(m', log);
  }

  /** The moment of an event is no part of its faithfulness. */
  lemma AnyMoment(status: Status, log: Log, at: Option<int>, kind: Kind, detail: Option<Detail>)
    ensures FaithfulEvent(status, log, Event(at, kind, detail)) <==> FaithfulEvent(status, log, Event(None, kind, detail))
  {
  }

  /**
    From agreement of status and timeline, an operation, whole or cut short after any of its
    events, keeps agreement if and only if it is faithful.
   */
  lemma AgreementExactly(r: Record, h: Happening)
    requires AgreeAt(r) && Trails(r) && Possible(r.dir, h)
    ensures AgreeAt(After(r, h)) <==> Faithful(r, h.op)
  {
    var meta := r.dir.meta.value;
    if Moves(h.op) {
      MoveExactly(r, h);
    } else {
      StillParts(r, h);
      SameAgreement(meta, After(r, h).dir.meta.value, After(r, h).dir.log + r.owed);
      if h.op.Appended? { AppendExactly(r, Event(Some(h.at), h.op.kind, h.op.detail)); }
    }
  }

  lemma MoveExactly(r: Record, h: Happening)
    requires r.dir.meta.Some? && Possible(r.dir, h) && Moves(h.op)
    ensures AgreeAt(After(r, h)) <==> Faithful(r, h.op)
  {
    MoveParts(r, h);
    TransitionExactly(r.dir.meta.value, r.dir.log, h.op, h.at);
  }

  lemma AppendExactly(r: Record, e: Event)
    requires AgreeAt(r) && Trails(r)
    ensures Agrees(r.dir.meta.value, r.dir.log + [e] + r.owed) <==> Faithful(r, Appended(e.kind, e.detail))
  {
    var meta := r.dir.meta.value;
    AnyMoment(meta.status, r.dir.log, e.at, e.kind, e.detail);
    if r.owed == [] {
      assert r.dir.log + [] == r.dir.log && r.dir.log + [e] + [] == r.dir.log + [e];
      EventExactly(meta, r.dir.log, e);
    } else {
      InsertExactly(meta, r.dir.log, e, r.owed);
    }
  }

  lemma TrailsAfter(r: Record, h: Happening)
    requires Trails(r) && Possible(r.dir, h)
    ensures Trails(After(r, h))
  {
    if Moves(h.op) {
      MoveParts(r, h);
      MovesEmit(r.dir, h.op, h.at);
      if h.Interrupted? { MoveTrails(r.dir.meta.value, h.op, h.at, h.k); }
    } else {
      StillParts(r, h);
    }
  }

  // ---- Whole stories --------------------------------------------------------------------------

  lemma {:induction false} StoryTrails(s: Story)
    requires WellTold(s)
    ensures Trails(Tell(s))
    decreases |s.happenings|
  {
    if s.happenings != [] {
      var earlier := Chapter(s, |s.happenings| - 1);
      StoryTrails(earlier);
      TrailsAfter(Tell(earlier), s.happenings[|s.happenings| - 1]);
    }
  }

  /** Status and timeline agree at every point of the story. */
  ghost predicate AgreesThroughout(s: Story)
    requires WellTold(s)
    decreases |s.happenings|
  {
    AgreeAt(Tell(s)) && (s.happenings != [] ==> AgreesThroughout(Chapter(s, |s.happenings| - 1)))
  }

  /**
    Through a whole story, with the process dying inside any transition, status and timeline
    agree at every point if and only if every happening is faithful to the Run it found.
   */
  lemma {:induction false} StoryAgreesExactly(s: Story)
    requires WellTold(s)
    ensures AgreesThroughout(s) <==> FaithfulThroughout(s)
    decreases |s.happenings|
  {
    if s.happenings == [] {
      BornAgreeing(s.id, s.owner, s.at, s.logged);
    } else {
      var earlier := Chapter(s, |s.happenings| - 1);
      StoryAgreesExactly(earlier);
      StoryTrails(earlier);
      if AgreesThroughout(earlier) { AgreementExactly(Tell(earlier), s.happenings[|s.happenings| - 1]); }
    }
  }

  lemma BornAgreeing(id: string, owner: string, at: int, logged: bool)
    ensures AgreeAt(Birth(id, owner, at, logged))
  {
    var r, e := Birth(id, owner, at, logged), CreatedEvent(at);
    assert r.dir.log + r.owed == [] + [e];
    ReplayedSnoc([], e);
    AgreementRendered(r.dir.meta.value, r.dir.log + r.owed);
  }

  /**
    In every faithful story the stored status is the one replayed from the log once the events
    an interrupted transition never appended are counted, and the timeline agrees likewise.
   */
  lemma {:induction false} StatusAndTimelineAgree(s: Story)
    requires WellTold(s) && FaithfulThroughout(s)
    ensures AgreeAt(Tell(s)) && Tell(s).dir.meta.value.id == s.id && Tell(s).dir.meta.value.owner == s.owner
    decreases |s.happenings|
  {
    StoryAgreesExactly(s);
    StoryKeepsIdentity(s);
  }

  lemma {:induction false} StoryKeepsIdentity(s: Story)
    requires WellTold(s)
    ensures var dir := Tell(s).dir;
      dir.meta.Some? && dir.meta.value.id == s.id && dir.meta.value.owner == s.owner
    decreases |s.happenings|
  {
    if s.happenings != [] {
      var earlier := Chapter(s, |s.happenings| - 1);
      StoryKeepsIdentity(earlier);
      KeepsIdentity(Tell(earlier), s.happenings[|s.happenings| - 1]);
    }
  }

  lemma KeepsIdentity(r: Record, h: Happening)
    requires r.dir.meta.Some? && Possible(r.dir, h)
    ensures var dir := After(r, h).dir;
      dir.meta.Some? && dir.meta.value.id == r.dir.meta.value.id && dir.meta.value.owner == r.dir.meta.value.owner
  {
    if Moves(h.op) { MoveParts(r, h); } else { StillParts(r, h); }
  }

  /** Without a crash nothing is owed. */
  lemma {:induction false} CrashFreeOwesNothing(s: Story)
    requires WellTold(s) && CrashFree(s)
    ensures Tell(s).owed == []
    decreases |s.happenings|
  {
    if s.happenings != [] {
      var earlier := Chapter(s, |s.happenings| - 1);
      assert forall h :: h in earlier.happenings ==> h in s.happenings;
      assert s.happenings[|s.happenings| - 1] in s.happenings;
      CrashFreeOwesNothing(earlier);
    }
  }

  /** Without a crash a faithful story's status and log cannot drift apart. */
  lemma CrashFreeAgrees(s: Story)
    requires WellTold(s) && FaithfulThroughout(s) && CrashFree(s)
    ensures Tell(s).dir.meta.Some? && Agrees(Tell(s).dir.meta.value, Tell(s).dir.log)
  {
    StatusAndTimelineAgree(s);
    CrashFreeOwesNothing(s);
    assert Tell(s).dir.log + [] == Tell(s).dir.log;
  }

  /** The `n`-th happening moved no status: it completed and was no transition, or was refused. */
  ghost predicate QuietAt(s: Story, n: nat)
    requires n < |s.happenings|
  {
    && s.happenings[n].Did?
    && (Moves(s.happenings[n].op) ==> WellTold(Chapter(s, n)) && Throws(Tell(Chapter(s, n)).dir, s.happenings[n].op))
  }

  ghost predicate QuietFrom(s: Story, n: nat) {
    forall m :: n <= m < |s.happenings| ==> QuietAt(s, m)
  }

  /** The `n`-th happening is the transition the process died in, and `owed` is what the log never received of it. */
  ghost predicate DiedIn(s: Story, n: nat, owed: Log) {
    && n < |s.happenings| && WellTold(Chapter(s, n))
    && s.happenings[n].Interrupted?
    && var h := s.happenings[n]; var dir := Tell(Chapter(s, n)).dir;
       Possible(dir, h) && owed == Emitted(dir, h.op, h.at)[h.k..]
  }

  /**
    The log lags by at most one transition: whatever is owed is the tail of one interrupted
    transition (or of creation) that no completed transition has followed.
   */
  lemma {:induction false} LagIsOneTransition(s: Story)
    requires WellTold(s) && Tell(s).owed != []
    ensures (exists n: nat :: DiedIn(s, n, Tell(s).owed) && QuietFrom(s, n + 1))
         || (!s.logged && Tell(s).owed == [CreatedEvent(s.at)] && QuietFrom(s, 0))
    decreases |s.happenings|
  {
    if s.happenings != [] {
      var last := |s.happenings| - 1;
      if s.happenings[last].Interrupted? {
        assert DiedIn(s, last, Tell(s).owed) && QuietFrom(s, last + 1);
      } else {
        var earlier := Chapter(s, last);
        LagIsOneTransition(earlier);
        assert QuietAt(s, last);
        if n: nat :| DiedIn(earlier, n, Tell(earlier).owed) && QuietFrom(earlier, n + 1) {
          DeathExtends(s, n, Tell(earlier).owed);
          QuietExtends(s, n + 1);
        } else {
          QuietExtends(s, 0);
        }
      }
    }
  }

  lemma DeathExtends(s: Story, n: nat, owed: Log)
    requires s.happenings != [] && DiedIn(Chapter(s, |s.happenings| - 1), n, owed)
    ensures DiedIn(s, n, owed)
  {
    assert Chapter(Chapter(s, |s.happenings| - 1), n) == Chapter(s, n);
  }

  lemma QuietExtends(s: Story, n: nat)
    requires s.happenings != [] && QuietFrom(Chapter(s, |s.happenings| - 1), n) && QuietAt(s, |s.happenings| - 1)
    ensures QuietFrom(s, n)
  {
    var earlier := Chapter(s, |s.happenings| - 1);
    forall m | n <= m < |s.happenings| ensures QuietAt(s, m) {
      if m < |earlier.happenings| {
        assert QuietAt(earlier, m) && Chapter(earlier, m) == Chapter(s, m);
      }
    }
  }

  // ---- What a pending Run can still show -------------------------------------------------------

  ghost predicate LeftoverExplained(dir: RunDir) {
    dir.meta.Some? && dir.meta.value.status == Pending && Replay(dir.log).open.Some? ==>
      LastWord(dir.log) == Some(RunRecovered)
  }

  lemma LeftoverAfter(dir: RunDir, op: RunOp, at: int)
    requires dir.meta.Some? && Agrees(dir.meta.value, dir.log) && LeftoverExplained(dir)
    requires Orderly(dir, op) && Faithful(Record(dir, []), op)
    ensures LeftoverExplained(Apply(dir, op, at))
  {
    var r, h := Record(dir, []), Did(op, at);
    AgreementRendered(dir.meta.value, dir.log);
    if Moves(op) {
      MoveParts(r, h);
      assert Apply(dir, op, at).log + [] == Apply(dir, op, at).log;
      LeftoverMove(dir.meta.value, dir.log, op, at);
    } else {
      StillParts(r, h);
      if op.Appended? { LeftoverEvent(dir, Event(Some(at), op.kind, op.detail)); }
    }
  }

  /** A faithful event on a pending Run opens nothing, and leaves the last word to the recovery. */
  lemma LeftoverEvent(dir: RunDir, e: Event)
    requires dir.meta.Some? && LeftoverExplained(dir)
    requires FaithfulEvent(dir.meta.value.status, dir.log, Event(None, e.kind, e.detail)) && Orderly(dir, Appended(e.kind, e.detail))
    ensures dir.meta.value.status == Pending && Replay(dir.log + [e]).open.Some? ==> LastWord(dir.log + [e]) == Some(RunRecovered)
  {
    ReplayStep(dir.log, e);
    LastWordSnoc(dir.log, e);
  }

  lemma LeftoverMove(meta: Meta, log: Log, op: RunOp, at: int)
    requires Moves(op) && ReplayAgrees(meta, Replay(log)) && Orderly(RunDir(Some(meta), log, map[]), op)
    ensures Change(meta, op).status == Pending && Replay(log + EventsOf(meta, op, at)).open.Some?
            ==> LastWord(log + EventsOf(meta, op, at)) == Some(RunRecovered)
  {
    if Change(meta, op).status == Pending {
      var e := EventsOf(meta, op, at)[0];
      assert EventsOf(meta, op, at) == [e];
      ReplayStep(log, e);
      LastWordSnoc(log, e);
      PendingWord(meta, op, at, Replay(log));
    }
  }

  /** Of the moves back to pending only a recovery can leave a Stage open. */
  lemma PendingWord(meta: Meta, op: RunOp, at: int, r: Replayer)
    requires Moves(op) && Change(meta, op).status == Pending && EventsOf(meta, op, at) != []
    requires Consistent(r) && ReplayAgrees(meta, r) && Orderly(RunDir(Some(meta), [], map[]), op)
    ensures var e := EventsOf(meta, op, at)[0];
      Announces(e) == Some(Pending) && Step(r, e).open == r.open && (r.open.Some? ==> e.kind == RunRecovered)
  {
  }

  lemma CrashFreeChapter(s: Story)
    requires CrashFree(s) && s.happenings != []
    ensures CrashFree(Chapter(s, |s.happenings| - 1)) && s.happenings[|s.happenings| - 1].Did?
  {
    assert forall h :: h in s.happenings[..|s.happenings| - 1] ==> h in s.happenings;
  }

  lemma LeftoverStep(r: Record, h: Happening)
    requires h.Did? && r.owed == [] && LeftoverExplained(r.dir)
    requires r.dir.meta.Some? && Agrees(r.dir.meta.value, r.dir.log)
    requires Orderly(r.dir, h.op) && Faithful(r, h.op)
    ensures LeftoverExplained(After(r, h).dir)
  {
    assert r == Record(r.dir, []);
    LeftoverAfter(r.dir, h.op, h.at);
  }

  /** Without a crash, a Run that is pending with a Stage still shown running was left so by a recovery. */
  lemma {:induction false} PendingLeftover(s: Story)
    requires WellTold(s) && CrashFree(s) && FaithfulThroughout(s) && OrderlyThroughout(s)
    ensures LeftoverExplained(Tell(s).dir)
    decreases |s.happenings|
  {
    if s.happenings == [] {
      assert Tell(s).dir.log == [] + [CreatedEvent(s.at)];
      ReplayStep([], CreatedEvent(s.at));
    } else {
      var last := |s.happenings| - 1;
      var earlier := Chapter(s, last);
      CrashFreeChapter(s);
      PendingLeftover(earlier);
      CrashFreeAgrees(earlier);
      CrashFreeOwesNothing(earlier);
      LeftoverStep(Tell(earlier), s.happenings[last]);
    }
  }

  lemma FailurePair(log: Log, failed: Event, ended: Event, stage: string)
    requires failed.kind.StageFailed? && ended.kind.RunFailed? && StageKey(failed) == Some(stage)
    ensures ShowsFailed(Render(Replay(log + [failed, ended])), stage) <==> HasStarted(log, stage)
  {
    assert log + [failed, ended] == (log + [failed]) + [ended];
    ReplayStep(log, failed);
    ReplayStep(log + [failed], ended);
    EntryMeaning(log, stage);
    FailureCloses(Replay(log), failed, ended, stage);
    ShowsFailedStage(Replay(log + [failed, ended]), stage);
  }

  /** A failure shows on the failed Stage's own entry exactly when that Stage's start is on the log. */
  lemma FailedEntryExactly(dir: RunDir, op: RunOp, at: int)
    requires dir.meta.Some? && op.FailedIn?
    ensures ShowsFailed(Render(Replay(Apply(dir, op, at).log)), op.stage) <==> HasStarted(dir.log, op.stage)
  {
    var r := Record(dir, []);
    MoveParts(r, Did(op, at));
    var events := EventsOf(dir.meta.value, op, at);
    FailurePair(dir.log, events[0], events[1], op.stage);
    assert events == [events[0], events[1]];
    assert Apply(dir, op, at).log + [] == Apply(dir, op, at).log;
  }

  // ---- The durable wait ----------------------------------------------------------------------

  /** A wait stands exactly while the Run is blocked. */
  ghost predicate WaitMatches(dir: RunDir) {
    dir.meta.Some? && (dir.meta.value.wait.Some? <==> dir.meta.value.status == Blocked)
  }

  ghost predicate AllWaitsMatch(s: Story)
    requires WellTold(s)
    decreases |s.happenings|
  {
    WaitMatches(Tell(s).dir) && (s.happenings != [] ==> AllWaitsMatch(Chapter(s, |s.happenings| - 1)))
  }

  /** Some Stage of the story is opened while the Run is blocked. */
  ghost predicate OpensWhileBlocked(s: Story)
    requires WellTold(s)
    decreases |s.happenings|
  {
    s.happenings != [] && (
      var earlier := Chapter(s, |s.happenings| - 1);
      var dir := Tell(earlier).dir;
      || OpensWhileBlocked(earlier)
      || (s.happenings[|s.happenings| - 1].op.Started? && dir.meta.Some? && dir.meta.value.status == Blocked))
  }

  /**
    Through a whole story the wait matches the status at every point if and only if no
    Stage is ever opened on a blocked Run.
   */
  lemma {:induction false} WaitExactly(s: Story)
    requires WellTold(s)
    ensures AllWaitsMatch(s) <==> !OpensWhileBlocked(s)
    decreases |s.happenings|
  {
    if s.happenings != [] {
      var last := |s.happenings| - 1;
      WaitExactly(Chapter(s, last));
      if WaitMatches(Tell(Chapter(s, last)).dir) { WaitStep(Tell(Chapter(s, last)), s.happenings[last]); }
    }
  }

  lemma WaitStep(r: Record, h: Happening)
    requires Possible(r.dir, h) && WaitMatches(r.dir)
    ensures WaitMatches(After(r, h).dir) <==> !(h.op.Started? && r.dir.meta.value.status == Blocked)
  {
    if Moves(h.op) { MoveParts(r, h); } else { StillParts(r, h); }
  }
}
