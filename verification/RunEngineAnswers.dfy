/** What each call on the engine leaves, said on the records and the queue it finds. */
module RunEngineAnswers {
  import opened Prelude
  import opened RunRecords
  import opened RunFields
  import opened RunEngine
  import opened RunRecordsKept
  import opened RunEngineTheorems

  /** Every readable Run's record and files hold what its own history said last. */
  lemma EveryRecordRemembers<I>(m: ShellModule<I>, moves: seq<Move<I>>, r: string, name: string)
    requires Happens(m, moves) && Recordable(Reached(m, moves).disk, r)
    ensures r in Histories(m, moves) && Remembers(Histories(m, moves)[r], Reached(m, moves).disk[r], name)
  {
    RecordTold(m, moves, r);
    RecordRemembers(Histories(m, moves)[r], name);
  }

  /** An operation carried out on a Run that has a readable record; nothing happens to any other. */
  function Operated(disk: Disk, r: string, op: RunOp, at: int): Disk {
    if Recordable(disk, r) then disk[r := Apply(disk[r], op, at)] else disk
  }

  // ---- Putting a Run back ------------------------------------------------------------------------------

  /** Pending, with nothing left of a wait or a failure. */
  function Cleared(meta: Meta): Meta { meta.(status := Pending, wait := None, failedStage := None, failureHint := None) }

  /** One more event, and the record as given. */
  function Noted(dir: RunDir, meta: Meta, event: Event): RunDir { RunDir(Some(meta), dir.log + [event], dir.files) }

  function ReopenedAs(dir: RunDir, fromStage: string, reason: string, at: int): RunDir
    requires dir.meta.Some?
  {
    Noted(dir, Cleared(dir.meta.value).(skipReason := None, connectionState := None),
          Event(Some(at), RunReopened, Some(map["fromStage" := Text(fromStage), "reason" := Text(reason)])))
  }

  function ResumedAs(dir: RunDir, fromStage: string, requester: string, reason: string, at: int): RunDir
    requires dir.meta.Some?
  {
    Noted(dir, Cleared(dir.meta.value),
          Event(Some(at), RunResumed,
                Some(map["fromStage" := Text(fromStage), "requestedBy" := Text(requester), "reason" := Text(reason)])))
  }

  /** The Run's directory is that one now, and the Run is queued, unless it already was queued or executing. */
  ghost predicate TakenAs<I>(e: Engine<I>, e': Engine<I>, r: string, dir: RunDir, input: I) {
    && e'.disk == e.disk[r := dir]
    && e'.chain == e.chain + (if r in e.active then [] else [Link(r, input, Queued)])
    && e'.active == e.active + {r}
    && e'.contexts == e.contexts
  }

  lemma TakeOne<I>(active: set<string>, l: Link<I>)
    ensures Admitted(active, [l]) == if l.run in active then [] else [l]
    ensures active + Runs(Admitted(active, [l])) == active + {l.run}
  {
    assert [l][1..] == [];
    assert Runs([l]) == {l.run} by { assert [l][0].run == l.run; }
    assert Runs<I>([]) == {};
  }

  lemma NotedBy(dir: RunDir, op: RunOp, at: int, event: Event)
    requires dir.meta.Some? && Transition(op) && EventsOf(dir.meta.value, op, at) == [event]
    ensures Apply(dir, op, at) == Noted(dir, Change(dir.meta.value, op), event)
  {
    assert [event][..1] == [event];
  }

  lemma TakesRun<I>(e: Engine<I>, m: ShellModule<I>, step: Step<I>, at: int, r: string, op: RunOp, dir: RunDir, input: I)
    requires Enabled(e, m, step) && (step.ReenterRun? || step.ResumeRun?)
    requires WritesOf(e, m, step) == [Do(r, op)] && Requests(e, m, step) == [Link(r, input, Queued)]
    requires r in e.disk && Apply(e.disk[r], op, at) == dir
    ensures TakenAs(e, Next(e, m, step, at), r, dir, input)
  {
    PlayOne(e.disk, Do(r, op), at);
    TakeOne(e.active, Link(r, input, Queued));
  }

  lemma TakesNothing<I>(e: Engine<I>, m: ShellModule<I>, step: Step<I>, at: int)
    requires Enabled(e, m, step) && (step.ReenterRun? || step.ResumeRun? || step.RetryRun?)
    requires WritesOf(e, m, step) == [] && Requests(e, m, step) == []
    ensures Next(e, m, step, at) == e
  {
    QueueRests(e, m, step, at);
  }

  /** A done or skipped Run is reopened and queued; on any other Run nothing happens. */
  ghost predicate Reentered<I>(e: Engine<I>, id: string, fromStage: string, reason: string, input: I, e': Engine<I>, at: int) {
    if Readable(e.disk, id) && e.disk[id].meta.value.status in {Done, Skipped}
    then TakenAs(e, e', id, ReopenedAs(e.disk[id], fromStage, reason, at), input) else e' == e
  }

  lemma ReenterExactly<I>(e: Engine<I>, m: ShellModule<I>, id: string, fromStage: string, reason: string, input: I, at: int)
    ensures Reentered(e, id, fromStage, reason, input, Next(e, m, Step.ReenterRun(id, fromStage, reason, input), at), at)
  {
    var step := Step.ReenterRun(id, fromStage, reason, input);
    if Readable(e.disk, id) && e.disk[id].meta.value.status in {Done, Skipped} {
      var event := Event(Some(at), RunReopened, Some(map["fromStage" := Text(fromStage), "reason" := Text(reason)]));
      NotedBy(e.disk[id], Reopened(fromStage, reason), at, event);
      TakesRun(e, m, step, at, id, Reopened(fromStage, reason), ReopenedAs(e.disk[id], fromStage, reason, at), input);
    } else {
      TakesNothing(e, m, step, at);
    }
  }

  /** The setup is ready, the Run is waiting, and its Module plans how it goes on. */
  predicate MayResume<I>(e: Engine<I>, m: ShellModule<I>, ready: bool, id: string) {
    && ready && Readable(e.disk, id) && e.disk[id].meta.value.status == Blocked && e.disk[id].meta.value.wait.Some?
    && m.planResume(e.disk[id].meta.value).Some?
  }

  ghost predicate ResumedTo<I>(e: Engine<I>, m: ShellModule<I>, ready: bool, id: string, e': Engine<I>, at: int) {
    if MayResume(e, m, ready, id) then
      var p := m.planResume(e.disk[id].meta.value).value;
      TakenAs(e, e', id, ResumedAs(e.disk[id], p.fromStage, "module", p.reason, at), p.input)
    else e' == e
  }

  lemma ResumeExactly<I>(e: Engine<I>, m: ShellModule<I>, ready: bool, id: string, at: int)
    ensures ResumedTo(e, m, ready, id, Next(e, m, Step.ResumeRun(ready, id), at), at)
  {
    var step := Step.ResumeRun(ready, id);
    if MayResume(e, m, ready, id) {
      var p := m.planResume(e.disk[id].meta.value).value;
      var op := Resumed(p.fromStage, "module", p.reason);
      var event := Event(Some(at), RunResumed,
        Some(map["fromStage" := Text(p.fromStage), "requestedBy" := Text("module"), "reason" := Text(p.reason)]));
      NotedBy(e.disk[id], op, at, event);
      TakesRun(e, m, step, at, id, op, ResumedAs(e.disk[id], p.fromStage, "module", p.reason, at), p.input);
    } else {
      TakesNothing(e, m, step, at);
    }
  }

  // ---- A retry --------------------------------------------------------------------------------------------

  /** Why a readable Run is not retried, if it is not. */
  function RetryCondition<I>(m: ShellModule<I>, meta: Meta): Option<string> {
    if meta.status != Failed then Some("status_not_failed")
    else if meta.failedStage == None || meta.failedStage == Some("") then Some("failed_stage_missing")
    else if m.planRetry(meta).None? then Some("module_declined")
    else None
  }

  /** The names before the first that is not a file's. */
  predicate DiscardedAt(names: seq<string>, j: nat) {
    j < |names| && forall i :: 0 <= i <= j ==> ValidFileName(names[i])
  }

  function Discarded(names: seq<string>): set<string> { set j | 0 <= j < |names| && DiscardedAt(names, j) :: names[j] }

  predicate AllFiles(names: seq<string>) { forall i :: 0 <= i < |names| ==> ValidFileName(names[i]) }

  lemma {:induction false} DiscardableNames(names: seq<string>)
    ensures Names(Discardable(names)) == Discarded(names)
    ensures Discardable(names) == names <==> AllFiles(names)
  {
    if names == [] {
    } else if !ValidFileName(names[0]) {
      assert !ValidFileName(names[0]);
    } else {
      DiscardableNames(names[1..]);
      assert forall j: nat :: j < |names| - 1 ==> names[1..][j] == names[j + 1];
      DiscardedCons(names);
      AllFilesCons(names);
      assert Discardable(names) == [names[0]] + Discardable(names[1..]);
      assert Names(Discardable(names)) == {names[0]} + Names(Discardable(names[1..]));
      assert names == [names[0]] + names[1..];
      if Discardable(names) == names { assert Discardable(names)[1..] == Discardable(names[1..]); }
    }
  }

  lemma AllFilesCons(names: seq<string>)
    requires names != [] && ValidFileName(names[0])
    ensures AllFiles(names) <==> AllFiles(names[1..])
  {
    if AllFiles(names[1..]) {
      forall i | 0 < i < |names| ensures ValidFileName(names[i]) { assert names[1..][i - 1] == names[i]; }
    }
  }

  lemma DiscardedCons(names: seq<string>)
    requires names != [] && ValidFileName(names[0])
    ensures Discarded(names) == {names[0]} + Discarded(names[1..])
  {
    assert DiscardedAt(names, 0);
    forall j: nat | j < |names| - 1 ensures DiscardedAt(names, j + 1) <==> DiscardedAt(names[1..], j) {
      if DiscardedAt(names, j + 1) {
        forall i | 0 <= i <= j ensures ValidFileName(names[1..][i]) { assert names[1..][i] == names[i + 1]; }
      }
      if DiscardedAt(names[1..], j) {
        forall i | 0 < i <= j + 1 ensures ValidFileName(names[i]) { assert names[1..][i - 1] == names[i]; }
      }
    }
    forall x | x in Discarded(names) ensures x in {names[0]} + Discarded(names[1..]) {
      var j :| 0 <= j < |names| && DiscardedAt(names, j) && names[j] == x;
      if j > 0 { assert DiscardedAt(names[1..], j - 1) && names[1..][j - 1] == x; }
    }
    forall x | x in Discarded(names[1..]) ensures x in Discarded(names) {
      var j :| 0 <= j < |names[1..]| && DiscardedAt(names[1..], j) && names[1..][j] == x;
      assert DiscardedAt(names, j + 1) && names[j + 1] == x;
    }
  }

  /** The last event names the condition, and nothing else has changed. */
  ghost predicate RefusedFor(dir: RunDir, dir': RunDir, condition: string, at: int) {
    && OnlyNoted(dir, dir')
    && var event := dir'.log[|dir.log|];
       event.at == Some(at) && event.kind == RetryRefused && Says(event, "condition", condition)
       && dir.meta.Some? && Says(event, "status", StatusName(dir.meta.value.status)) && Says(event, "module", dir.meta.value.owner)
  }

  /** The plan's reset and discards, up to the first name that is not a file's. */
  function ReadyFor<I>(dir: RunDir, plan: RetryPlan<I>): RunDir
    requires dir.meta.Some?
  {
    RunDir(Some(dir.meta.value.(attempts := if plan.resetAttempts then 0 else dir.meta.value.attempts)), dir.log,
           dir.files - Discarded(plan.discard))
  }

  ghost predicate Retried<I>(e: Engine<I>, m: ShellModule<I>, ready: bool, id: string, e': Engine<I>, at: int) {
    if !ready || !Readable(e.disk, id) then e' == e
    else
      var meta := e.disk[id].meta.value;
      var refused := RetryCondition(m, meta);
      if refused.Some? then
        && id in e'.disk && e' == e.(disk := e.disk[id := e'.disk[id]])
        && RefusedFor(e.disk[id], e'.disk[id], refused.value, at)
      else
        var plan := m.planRetry(meta).value;
        if AllFiles(plan.discard)
        then TakenAs(e, e', id, ReopenedAs(ReadyFor(e.disk[id], plan), plan.fromStage, plan.reason, at), plan.input)
        else e' == e.(disk := e.disk[id := ReadyFor(e.disk[id], plan)])
  }

  lemma RefusalSpeaks(dir: RunDir, condition: string, at: int)
    requires dir.meta.Some?
    ensures RefusedFor(dir, Apply(dir, Refusal(dir.meta.value, condition), at), condition, at)
  {
    RefusalNotes(dir, condition, at);
    var op := Refusal(dir.meta.value, condition);
    assert Emitted(dir, op, at) == [Event(Some(at), op.kind, op.detail)];
    assert "condition" != "status" && "condition" != "module" && "condition" != "failedStage" by {
      assert |"condition"| == 9 && |"status"| == 6 && |"module"| == 6 && |"failedStage"| == 11;
    }
    assert "status" != "module" && "failedStage" != "status" && "failedStage" != "module" by {
      assert "status"[0] == 's' && "module"[0] == 'm' && "failedStage"[0] == 'f';
    }
  }

  lemma DecidedOnFields<I>(e: Engine<I>, m: ShellModule<I>, ready: bool, id: string)
    ensures var d := DecideRetry(e, m, ready, id);
      if !ready || !Readable(e.disk, id) then d.Unknown?
      else match RetryCondition(m, e.disk[id].meta.value)
        case Some(condition) => d == Refuse(condition)
        case None => d == GoAhead(m.planRetry(e.disk[id].meta.value).value)
  {
  }

  lemma ContextsRest<I>(e: Engine<I>, m: ShellModule<I>, ready: bool, id: string, at: int)
    ensures var e' := Next(e, m, Step.RetryRun(ready, id), at);
      e'.contexts == e.contexts && e'.issued == e.issued && e'.crashes == e.crashes
  {
  }

  lemma RetriedWhole<I>(e: Engine<I>, m: ShellModule<I>, ready: bool, id: string, at: int)
    requires ready && Readable(e.disk, id) && RetryCondition(m, e.disk[id].meta.value).None?
    ensures Retried(e, m, ready, id, Next(e, m, Step.RetryRun(ready, id), at), at)
  {
    var dir := e.disk[id];
    var plan := m.planRetry(dir.meta.value).value;
    DecidedOnFields(e, m, ready, id);
    DiscardableNames(plan.discard);
    ContextsRest(e, m, ready, id, at);
    assert Prepared(dir, plan) == ReadyFor(dir, plan);
    if AllFiles(plan.discard) {
      var event := Event(Some(at), RunReopened, Some(map["fromStage" := Text(plan.fromStage), "reason" := Text(plan.reason)]));
      RetryGoes(e, m, ready, id, at);
      RetryTaken(e, m, ready, id, at);
      NotedBy(ReadyFor(dir, plan), Reopened(plan.fromStage, plan.reason), at, event);
    } else {
      RetryStops(e, m, ready, id, at);
    }
  }

  /**
    A retry, on the record it finds. Without a ready setup or a readable record nothing happens; a
    Run that has not failed, that names no failed Stage, or whose Module declines, gets one event that
    says which; any other loses its attempts, if so planned, and the files before the first name that
    is not a file's, and if there is none is reopened and queued.
   */
  lemma RetryExactly<I>(e: Engine<I>, m: ShellModule<I>, ready: bool, id: string, at: int)
    ensures Retried(e, m, ready, id, Next(e, m, Step.RetryRun(ready, id), at), at)
  {
    DecidedOnFields(e, m, ready, id);
    if !ready || !Readable(e.disk, id) {
      TakesNothing(e, m, Step.RetryRun(ready, id), at);
    } else if RetryCondition(m, e.disk[id].meta.value).Some? {
      var condition := RetryCondition(m, e.disk[id].meta.value).value;
      RefusalSpeaks(e.disk[id], condition, at);
      ContextsRest(e, m, ready, id, at);
      PlayOne(e.disk, Do(id, Refusal(e.disk[id].meta.value, condition)), at);
      QueueRests(e, m, Step.RetryRun(ready, id), at);
    } else {
      RetriedWhole(e, m, ready, id, at);
    }
  }
}
