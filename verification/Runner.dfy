/** The run directories: metadata and log files rewritten in place by each transition. */
module RunStore {
  import opened Prelude
  import opened RunRecords
  import opened RunEngine

  class Store {
    var dirs: Disk

    constructor ()
      ensures dirs == map[]
    {
      dirs := map[];
    }

    method WriteMeta(id: string, meta: Meta)
      requires id in dirs
      modifies this
      ensures dirs == old(dirs)[id := old(dirs)[id].(meta := Some(meta))]
    {
      dirs := dirs[id := dirs[id].(meta := Some(meta))];
    }

    method AppendLine(id: string, event: Event)
      requires id in dirs
      modifies this
      ensures dirs == old(dirs)[id := old(dirs)[id].(log := old(dirs)[id].log + [event])]
    {
      dirs := dirs[id := dirs[id].(log := dirs[id].log + [event])];
    }

    method Create(id: string, owner: string, at: int)
      modifies this
      ensures dirs == PlayWrite(old(dirs), Make(id, owner), at)
    {
      dirs := dirs[id := RunDir(None, [], map[])];
      WriteMeta(id, NewMeta(id, owner));
      AppendLine(id, CreatedEvent(at));
      assert dirs[id].log == [CreatedEvent(at)];
      assert dirs == old(dirs)[id := Birth(id, owner, at, true).dir];
    }

    /**
      Every transition goes through here: the metadata is committed first and its events are
      appended one by one, so what a crash leaves is always a metadata record and a prefix.
     */
    method Perform(id: string, op: RunOp, at: int) returns (done: bool)
      requires Transition(op)
      modifies this
      ensures dirs == PlayWrite(old(dirs), Do(id, op), at)
      ensures done <==> Recordable(old(dirs), id)
    {
      if id !in dirs || dirs[id].meta.None? {
        return false;
      }
      ghost var before := dirs[id];
      var meta := dirs[id].meta.value;
      var events := EventsOf(meta, op, at);
      assert Emitted(before, op, at) == events;
      WriteMeta(id, Change(meta, op));
      assert before.log + events[..0] == before.log;
      for k := 0 to |events|
        invariant id in dirs && dirs == old(dirs)[id := ApplyPart(before, op, at, k)]
      {
        AppendLine(id, events[k]);
        assert before.log + events[..k + 1] == before.log + events[..k] + [events[k]];
      }
      return true;
    }

    /** A bare append needs the directory, not a readable record. */
    method AppendEvent(id: string, kind: Kind, detail: Option<Detail>, at: int) returns (done: bool)
      modifies this
      ensures dirs == PlayWrite(old(dirs), Do(id, Appended(kind, detail)), at)
      ensures done <==> id in old(dirs)
    {
      if id !in dirs {
        return false;
      }
      AppendLine(id, Event(Some(at), kind, detail));
      assert [Event(Some(at), kind, detail)][..1] == [Event(Some(at), kind, detail)];
      return true;
    }

    method WriteArtifact(id: string, name: string, text: string, ghost at: int) returns (done: bool)
      modifies this
      ensures dirs == PlayWrite(old(dirs), Do(id, RunOp.WroteFile(name, text)), at)
      ensures done <==> id in old(dirs) && ValidFileName(name)
    {
      if id !in dirs || !ValidFileName(name) {
        return false;
      }
      dirs := dirs[id := dirs[id].(files := dirs[id].files[name := text])];
      assert dirs[id].log == old(dirs)[id].log + [];
      return true;
    }

    method DeleteArtifact(id: string, name: string, ghost at: int) returns (done: bool)
      modifies this
      ensures dirs == PlayWrite(old(dirs), Do(id, DeletedFile(name)), at)
      ensures done <==> id in old(dirs) && ValidFileName(name)
    {
      if id !in dirs || !ValidFileName(name) {
        return false;
      }
      dirs := dirs[id := dirs[id].(files := dirs[id].files - {name})];
      assert dirs[id].log == old(dirs)[id].log + [];
      return true;
    }
  }
}

/** The Runner object, field by field, proved to take the steps of the engine and no others. */
module Runners {
  import opened Prelude
  import opened RunRecords
  import opened RunEngine
  import opened RunRecordsKept
  import opened RunEngineTheorems
  import opened RunEngineSweeps
  import opened RunEngineAnswers
  import RunStore

  /** How a call on a Run is turned down; `Unreadable` is a Run whose record is damaged or missing. */
  datatype RunError = SetupRequired | NotFound | Unreadable | NotRetryable(condition: string) | NotResumable | InvalidFileName

  /** Why a Run's record cannot be had, if it cannot. */
  function Denied(disk: Disk, id: string): Option<RunError> {
    if !IsRunId(id) || id !in disk then Some(NotFound)
    else if disk[id].meta.None? then Some(Unreadable)
    else None
  }

  class Runner<I> {
    const mod: ShellModule<I>
    const runs: RunStore.Store
    /** The promise chain, settled links included. */
    var chain: seq<Link<I>>
    var active: set<string>
    var contexts: seq<Context>
    ghost var issued: set<string>
    ghost const crashes: nat

    ghost function View(): Engine<I>
      reads this, runs
    {
      Engine(runs.dirs, chain, active, contexts, issued, crashes)
    }

    /** A process comes up over the directories it finds. */
    constructor (mod: ShellModule<I>, runs: RunStore.Store, ghost issued: set<string>, ghost crashes: nat)
      ensures this.mod == mod && this.runs == runs
      ensures View() == Engine(runs.dirs, [], {}, [], issued, crashes)
    {
      this.mod, this.runs := mod, runs;
      chain, active, contexts := [], {}, [];
      this.issued, this.crashes := issued, crashes;
    }

    method Enqueue(run: string, input: I) returns (accepted: bool)
      modifies this`chain, this`active
      ensures accepted <==> run !in old(active)
      ensures var taken := Admitted(old(active), [Link(run, input, Queued)]);
        chain == old(chain) + taken && active == old(active) + Runs(taken)
    {
      assert [Link(run, input, Queued)][1..] == [];
      if run in active {
        assert Admitted(active, [Link(run, input, Queued)]) == [];
        return false;
      }
      active := active + {run};
      chain := chain + [Link(run, input, Queued)];
      assert Admitted(old(active), [Link(run, input, Queued)]) == [Link(run, input, Queued)];
      assert Runs([Link(run, input, Queued)]) == {run} by {
        assert [Link(run, input, Queued)][0].run == run;
      }
      return true;
    }

    method StartRun(ready: bool, newId: string, input: I, at: int) returns (started: bool)
      requires Enabled(View(), mod, Step.StartRun(ready, newId, input))
      modifies this, runs
      ensures View() == Next(old(View()), mod, Step.StartRun(ready, newId, input), at)
      ensures started == ready
      ensures ready ==>
        var record := Meta(newId, mod.id, Pending, None, 0, None, None, None, None, None);
        TakenAs(old(View()), View(), newId, RunDir(Some(record), [Event(Some(at), Created, Some(map[]))], map[]), input)
      ensures !ready ==> View() == old(View())
    {
      if !ready {
        Unchanged(View());
        return false;
      }
      PlayOne(runs.dirs, Make(newId, mod.id), at);
      runs.Create(newId, mod.id, at);
      issued := issued + {newId};
      TakeOne(old(active), Link(newId, input, Queued));
      var _ := Enqueue(newId, input);
      return true;
    }

    method RetryRun(ready: bool, id: string, at: int) returns (r: Result<Meta, RunError>)
      modifies this, runs
      ensures View() == Next(old(View()), mod, Step.RetryRun(ready, id), at)
      ensures r.Success? ==> id in runs.dirs && runs.dirs[id].meta == Some(r.value) && r.value.status == Pending
      ensures Retried(old(View()), mod, ready, id, View(), at)
      ensures !ready ==> r == Failure(SetupRequired)
      ensures ready && !Readable(old(runs.dirs), id) ==>
        r == Failure(if IsRunId(id) && id in old(runs.dirs) then Unreadable else NotFound)
      ensures ready && Readable(old(runs.dirs), id) ==>
        var meta := old(runs.dirs)[id].meta.value;
        match RetryCondition(mod, meta)
        case Some(condition) => r == Failure(NotRetryable(condition))
        case None => if AllFiles(mod.planRetry(meta).value.discard) then r.Success? else r == Failure(InvalidFileName)
    {
      RetryNext(View(), mod, ready, id, at);
      RetryExactly(View(), mod, ready, id, at);
      DecidedOnFields(View(), mod, ready, id);
      Unchanged(View());
      var d := Consider(ready, id);
      if d.Unknown? {
        return Failure(if ready then Denied(runs.dirs, id).value else SetupRequired);
      }
      if d.Refuse? {
        var refusal := Refusal(runs.dirs[id].meta.value, d.condition);
        PlayOne(runs.dirs, Do(id, refusal), at);
        var _ := runs.AppendEvent(id, refusal.kind, refusal.detail, at);
        return Failure(NotRetryable(d.condition));
      }
      DiscardableNames(d.plan.discard);
      r := CarryOut(id, d.plan, at);
    }

    /** The reset, the discards and the reopening of an accepted retry. */
    method CarryOut(id: string, plan: RetryPlan<I>, at: int) returns (r: Result<Meta, RunError>)
      requires Recordable(runs.dirs, id)
      modifies this`chain, this`active, runs
      ensures runs.dirs == PlayWrites(old(runs.dirs), Preparation(plan, id) + Reopening(plan, id), at)
      ensures var taken := if Carried(plan) then Admitted(old(active), [Link(id, plan.input, Queued)]) else [];
        chain == old(chain) + taken && active == old(active) + Runs(taken)
      ensures if Carried(plan) then r.Success? else r == Failure(InvalidFileName)
      ensures r.Success? ==> id in runs.dirs && runs.dirs[id].meta == Some(r.value) && r.value.status == Pending
    {
      ghost var disk0 := runs.dirs;
      Unchanged(View());
      PlayConcat(disk0, Preparation(plan, id), Reopening(plan, id), at);
      var carried := Prepare(id, plan, at);
      if !carried {
        return Failure(InvalidFileName);
      }
      PlayOne(runs.dirs, Do(id, Reopened(plan.fromStage, plan.reason)), at);
      var _ := runs.Perform(id, Reopened(plan.fromStage, plan.reason), at);
      var _ := Enqueue(id, plan.input);
      return Success(runs.dirs[id].meta.value);
    }

    /** Whether, and how, a failed Run may be run again. */
    method Consider(ready: bool, id: string) returns (d: RetryDecision<I>)
      ensures d == DecideRetry(View(), mod, ready, id)
    {
      if !ready || !Readable(runs.dirs, id) {
        return Unknown;
      }
      var meta := runs.dirs[id].meta.value;
      if meta.status != Failed {
        return Refuse("status_not_failed");
      }
      if meta.failedStage.None? || meta.failedStage.value == "" {
        return Refuse("failed_stage_missing");
      }
      var plan := mod.planRetry(meta);
      if plan.None? {
        return Refuse("module_declined");
      }
      return GoAhead(plan.value);
    }

    /** The reset and the discards of a retry, up to the first name that is not a file's. */
    method Prepare(id: string, plan: RetryPlan<I>, at: int) returns (carried: bool)
      requires Recordable(runs.dirs, id)
      modifies runs
      ensures carried <==> Carried(plan)
      ensures Recordable(runs.dirs, id)
      ensures runs.dirs == PlayWrites(old(runs.dirs), Preparation(plan, id), at)
    {
      ghost var disk0 := runs.dirs;
      ghost var head := if plan.resetAttempts then [Do(id, ResetAttempts)] else [];
      if plan.resetAttempts {
        PlayOne(disk0, Do(id, ResetAttempts), at);
        var _ := runs.Perform(id, ResetAttempts, at);
      }
      PlayConcat(disk0, head, Deletions(id, Discardable(plan.discard)), at);
      carried := DiscardFiles(id, plan.discard, at);
    }

    method DiscardFiles(id: string, names: seq<string>, at: int) returns (all: bool)
      requires Recordable(runs.dirs, id)
      modifies runs
      ensures all <==> Discardable(names) == names
      ensures Recordable(runs.dirs, id)
      ensures runs.dirs == PlayWrites(old(runs.dirs), Deletions(id, Discardable(names)), at)
    {
      var i := 0;
      assert Deletions(id, names[..0]) == [];
      while i < |names|
        invariant 0 <= i <= |names|
        invariant Discardable(names[..i]) == names[..i]
        invariant Recordable(runs.dirs, id)
        invariant runs.dirs == PlayWrites(old(runs.dirs), Deletions(id, names[..i]), at)
      {
        DiscardableSplit(names, i);
        if !ValidFileName(names[i]) {
          return false;
        }
        ghost var before := runs.dirs;
        var _ := runs.DeleteArtifact(id, names[i], at);
        assert names[..i + 1] == names[..i] + [names[i]];
        assert Deletions(id, names[..i + 1]) == Deletions(id, names[..i]) + [Do(id, DeletedFile(names[i]))];
        PlayConcat(old(runs.dirs), Deletions(id, names[..i]), [Do(id, DeletedFile(names[i]))], at);
        PlayOne(before, Do(id, DeletedFile(names[i])), at);
        i := i + 1;
      }
      assert names[..i] == names;
      return true;
    }

    method ReenterRun(id: string, fromStage: string, reason: string, input: I, at: int) returns (r: Result<Meta, RunError>)
      modifies this, runs
      ensures View() == Next(old(View()), mod, Step.ReenterRun(id, fromStage, reason, input), at)
      ensures Reentered(old(View()), id, fromStage, reason, input, View(), at)
      ensures r.Success? <==> Readable(old(runs.dirs), id) && old(runs.dirs)[id].meta.value.status in {Done, Skipped}
      ensures r.Success? ==> id in runs.dirs && runs.dirs[id].meta == Some(r.value) && r.value.status == Pending
      ensures r.Failure? ==>
        r.error == if Readable(old(runs.dirs), id) then NotResumable
                   else if IsRunId(id) && id in old(runs.dirs) then Unreadable else NotFound
    {
      Unchanged(View());
      ReenterExactly(View(), mod, id, fromStage, reason, input, at);
      var denied := Denied(runs.dirs, id);
      if denied.Some? {
        return Failure(denied.value);
      }
      if runs.dirs[id].meta.value.status !in {Done, Skipped} {
        return Failure(NotResumable);
      }
      PlayOne(runs.dirs, Do(id, Reopened(fromStage, reason)), at);
      var _ := runs.Perform(id, Reopened(fromStage, reason), at);
      var _ := Enqueue(id, input);
      return Success(runs.dirs[id].meta.value);
    }

    method ResumeRun(ready: bool, id: string, at: int) returns (r: Result<Meta, RunError>)
      modifies this, runs
      ensures View() == Next(old(View()), mod, Step.ResumeRun(ready, id), at)
      ensures ResumedTo(old(View()), mod, ready, id, View(), at)
      ensures r.Success? <==> MayResume(old(View()), mod, ready, id)
      ensures r.Success? ==> id in runs.dirs && runs.dirs[id].meta == Some(r.value) && r.value.status == Pending
      ensures r.Failure? ==>
        r.error == if !ready then SetupRequired
                   else if Readable(old(runs.dirs), id) then NotResumable
                   else if IsRunId(id) && id in old(runs.dirs) then Unreadable else NotFound
    {
      Unchanged(View());
      ResumeExactly(View(), mod, ready, id, at);
      if !ready {
        return Failure(SetupRequired);
      }
      var denied := Denied(runs.dirs, id);
      if denied.Some? {
        return Failure(denied.value);
      }
      var meta := runs.dirs[id].meta.value;
      if meta.status != Blocked || meta.wait.None? {
        return Failure(NotResumable);
      }
      var plan := mod.planResume(meta);
      if plan.None? {
        return Failure(NotResumable);
      }
      var op := Resumed(plan.value.fromStage, "module", plan.value.reason);
      PlayOne(runs.dirs, Do(id, op), at);
      var _ := runs.Perform(id, op, at);
      var _ := Enqueue(id, plan.value.input);
      return Success(runs.dirs[id].meta.value);
    }

    /** The sweep: one Run after another, each decided on the state its predecessors left. */
    method RecoverRuns(ready: bool, now: int, listing: seq<string>, damaged: set<string>, at: int)
      returns (recovered: nat)
      requires IsListing(runs.dirs, mod.id, listing)
      modifies this, runs
      ensures View() == Next(old(View()), mod, Step.RecoverRuns(ready, now, listing, damaged), at)
      ensures recovered == if ready then |PutBack(old(View()), mod, now, damaged, listing)| else 0
      ensures ready ==> SweptRight(old(View()), mod, now, damaged, listing, View(), at)
      ensures !ready ==> View() == old(View())
    {
      recovered := 0;
      ghost var before := View();
      if !ready {
        Unchanged(before);
        return;
      }
      SweptNone(before, mod, now, damaged, at);
      for i := 0 to |listing|
        invariant View() == SweptTo(before, mod, now, damaged, listing[..i], at)
        invariant recovered == |SalvageLinks(before, mod, now, damaged, listing[..i])|
      {
        var taken := RecoverNext(before, now, listing, damaged, i, at);
        if taken { recovered := recovered + 1; }
      }
      assert listing[..|listing|] == listing;
      SweptAll(before, mod, now, listing, damaged, at);
      LinksOf(before, mod, now, damaged, listing);
      SweepExactly(before, mod, Step.RecoverRuns(true, now, listing, damaged), at);
    }

    /** The round for the next Run of the listing. */
    method RecoverNext(ghost before: Engine<I>, now: int, listing: seq<string>, damaged: set<string>, i: nat, at: int)
      returns (taken: bool)
      requires i < |listing| && IsListing(before.disk, mod.id, listing)
      requires View() == SweptTo(before, mod, now, damaged, listing[..i], at)
      modifies this, runs
      ensures View() == SweptTo(before, mod, now, damaged, listing[..i + 1], at)
      ensures |SalvageLinks(before, mod, now, damaged, listing[..i + 1])|
           == |SalvageLinks(before, mod, now, damaged, listing[..i])| + if taken then 1 else 0
    {
      SweptSnoc(before, mod, now, damaged, listing, i, at);
      SalvageMeans(View(), mod, now, damaged, listing[i], at);
      taken := RecoverOne(listing[i], now, damaged, at);
    }

    method RecoverOne(id: string, now: int, damaged: set<string>, at: int) returns (taken: bool)
      modifies this, runs
      ensures View() == SweptOne(old(View()), Salvage(old(View()), mod, now, damaged, id), id, at)
      ensures taken <==> ToPutBack(old(View()), mod, now, damaged, id)
    {
      if id in active || !Readable(runs.dirs, id) {
        return false;
      }
      var dir := runs.dirs[id];
      var meta := dir.meta.value;
      if meta.status == Blocked && meta.wait.Some? && meta.wait.value.timeout.At? {
        var instant := meta.wait.value.timeout.instant;
        if instant.Some? && instant.value > now {
          return false;
        }
        var plan := mod.planResume(meta);
        if plan.Some? {
          taken := Requeue(id, Resumed(plan.value.fromStage, "clock", plan.value.reason), plan.value.input, at);
          return;
        }
        return false;
      }
      if (meta.status != Pending && meta.status != Running) || id in damaged {
        return false;
      }
      var plan := mod.planRecovery(meta, dir.log, dir.files.Keys);
      if plan.None? {
        return false;
      }
      taken := Requeue(id, Recovered(plan.value.fromStage, plan.value.reason), plan.value.input, at);
    }

    method Requeue(id: string, op: RunOp, input: I, at: int) returns (taken: bool)
      requires id !in active && Transition(op)
      modifies this, runs
      ensures View() == SweptOne(old(View()), Some((op, input)), id, at)
      ensures taken
    {
      var _ := runs.Perform(id, op, at);
      taken := Enqueue(id, input);
      assert [Link(id, input, Queued)][1..] == [];
      assert Admitted(old(active), [Link(id, input, Queued)]) == [Link(id, input, Queued)];
      assert Runs([Link(id, input, Queued)]) == {id} by { assert [Link(id, input, Queued)][0].run == id; }
    }

    /** The link whose turn it is: its execution starts, or returns at once while the setup is not ready. */
    method Begin(ready: bool, link: nat, at: int)
      requires Enabled(View(), mod, Step.Begin(ready, link))
      modifies this
      ensures View() == Next(old(View()), mod, Step.Begin(ready, link), at)
      ensures chain == old(chain)[link := old(chain)[link].(phase := if ready then Executing else Settled)]
      ensures active == if ready then old(active) else old(active) - {old(chain)[link].run}
      ensures contexts == if ready then old(contexts) + [Context(link, old(chain)[link].run, [], [], 0, false)] else old(contexts)
    {
      var run := chain[link].run;
      if ready {
        chain := chain[link := chain[link].(phase := Executing)];
        contexts := contexts + [Context(link, run, [], [], 0, false)];
      } else {
        chain := chain[link := chain[link].(phase := Settled)];
        active := active - {run};
      }
      Unchanged(old(View()));
      assert chain + [] == chain;
    }

    /** `module.run` has settled: its outcome ends the Run if the record is still there, and the Run is released. */
    method Settle(link: nat, verdict: Verdict, at: int)
      requires Enabled(View(), mod, Step.Settle(link, verdict))
      modifies this, runs
      ensures View() == Next(old(View()), mod, Step.Settle(link, verdict), at)
      ensures runs.dirs == if verdict.Returned? then Operated(old(runs.dirs), old(chain)[link].run, Finished(verdict.outcome), at)
                           else old(runs.dirs)
      ensures active == old(active) - {old(chain)[link].run} && chain == old(chain)[link := old(chain)[link].(phase := Settled)]
    {
      var run := chain[link].run;
      Unchanged(old(View()));
      if verdict.Returned? {
        PlayOne(runs.dirs, Do(run, Finished(verdict.outcome)), at);
        var _ := runs.Perform(run, Finished(verdict.outcome), at);
      }
      chain := chain[link := chain[link].(phase := Settled)];
      active := active - {run};
      assert chain + [] == chain;
    }

    /** The name is pushed first; a start that throws, refused by the store or without a record, leaves it there. */
    method OpenStage(ctx: nat, name: string, refused: bool, at: int) returns (recorded: bool)
      requires ctx < |contexts|
      modifies this, runs
      ensures View() == Next(old(View()), mod, Step.OpenStage(ctx, name, refused), at)
      ensures recorded <==> !refused && Recordable(old(runs.dirs), old(contexts)[ctx].run)
      ensures runs.dirs == if recorded then Operated(old(runs.dirs), old(contexts)[ctx].run, Started(name), at) else old(runs.dirs)
      ensures |contexts| == |old(contexts)| && contexts[ctx].stack == old(contexts)[ctx].stack + [name]
    {
      var c := contexts[ctx];
      Unchanged(old(View()));
      PlayOne(runs.dirs, Do(c.run, Started(name)), at);
      contexts := contexts[ctx := c.(stack := c.stack + [name])];
      recorded := false;
      if !refused { recorded := runs.Perform(c.run, Started(name), at); }
      contexts := contexts[ctx := OpenedContext(c, name, recorded)];
    }

    /** A `stage` call settles: a failure is recorded, and in every case the stack is popped. */
    method CloseStage(ctx: nat, call: nat, ending: Ending, at: int)
      requires ctx < |contexts| && call < |contexts[ctx].calls|
      modifies this, runs
      ensures View() == Next(old(View()), mod, Step.CloseStage(ctx, call, ending), at)
      ensures var c := old(contexts)[ctx];
        runs.dirs == if ending.Broke?
                     then Operated(old(runs.dirs), c.run,
                                   FailedIn(c.calls[call], ending.reason, ending.hint, ending.connection, ending.extra), at)
                     else old(runs.dirs)
    {
      var c := contexts[ctx];
      Unchanged(old(View()));
      if ending.Broke? {
        var op := FailedIn(c.calls[call], ending.reason, ending.hint, ending.connection, ending.extra);
        PlayOne(runs.dirs, Do(c.run, op), at);
        var _ := runs.Perform(c.run, op, at);
      }
      contexts := contexts[ctx := ClosedContext(c, call)];
    }

    method EmitEvent(ctx: nat, name: string, detail: Option<Detail>, at: int) returns (done: bool)
      requires ctx < |contexts|
      modifies runs
      ensures View() == Next(old(View()), mod, Step.EmitEvent(ctx, name, detail), at)
      ensures done ==> InStage(contexts[ctx])
    {
      Unchanged(old(View()));
      if contexts[ctx].stack == [] {
        return false;
      }
      PlayOne(runs.dirs, Do(contexts[ctx].run, Appended(KindOf(name), detail)), at);
      done := runs.AppendEvent(contexts[ctx].run, KindOf(name), detail, at);
    }

    method CountAttempt(ctx: nat, at: int) returns (done: bool)
      requires ctx < |contexts|
      modifies runs
      ensures View() == Next(old(View()), mod, Step.CountAttempt(ctx), at)
      ensures done ==> InStage(contexts[ctx])
    {
      Unchanged(old(View()));
      if contexts[ctx].stack == [] {
        return false;
      }
      PlayOne(runs.dirs, Do(contexts[ctx].run, AttemptStarted), at);
      done := runs.Perform(contexts[ctx].run, AttemptStarted, at);
    }

    method WaitFor(ctx: nat, now: int, reason: string, timeout: Timeout, at: int) returns (done: bool)
      requires ctx < |contexts|
      modifies this, runs
      ensures View() == Next(old(View()), mod, Step.WaitFor(ctx, now, reason, timeout), at)
      ensures done ==> InStage(old(contexts)[ctx])
    {
      Unchanged(old(View()));
      var c := contexts[ctx];
      if c.stack == [] {
        return false;
      }
      var op := BlockedOn(Wait(now, c.stack[|c.stack| - 1], reason, timeout));
      PlayOne(runs.dirs, Do(c.run, op), at);
      done := runs.Perform(c.run, op, at);
      contexts := contexts[ctx := c.(waited := true)];
    }

    method WriteFile(ctx: nat, name: string, text: string, at: int) returns (done: bool)
      requires ctx < |contexts|
      modifies runs
      ensures View() == Next(old(View()), mod, Step.WriteFile(ctx, name, text), at)
      ensures done ==> InStage(contexts[ctx])
    {
      Unchanged(old(View()));
      if contexts[ctx].stack == [] {
        return false;
      }
      PlayOne(runs.dirs, Do(contexts[ctx].run, RunOp.WroteFile(name, text)), at);
      done := runs.WriteArtifact(contexts[ctx].run, name, text, at);
    }
  }

  lemma RetryNext<I>(e: Engine<I>, m: ShellModule<I>, ready: bool, id: string, at: int)
    ensures var d := DecideRetry(e, m, ready, id);
      var taken := if d.GoAhead? && Carried(d.plan) then Admitted(e.active, [Link(id, d.plan.input, Queued)]) else [];
      Next(e, m, Step.RetryRun(ready, id), at)
        == e.(disk := PlayWrites(e.disk, RetryWrites(e, d, id), at), chain := e.chain + taken, active := e.active + Runs(taken))
  {
    Unchanged(e);
  }

  /** Nothing requested, nothing taken. */
  lemma Unchanged<I>(e: Engine<I>)
    ensures Admitted<I>(e.active, []) == [] && Runs<I>([]) == {}
    ensures e.chain + [] == e.chain && e.active + {} == e.active && e.active - {} == e.active
  {
  }

  lemma DiscardableSplit(names: seq<string>, i: nat)
    requires i < |names| && Discardable(names[..i]) == names[..i]
    ensures ValidFileName(names[i]) ==> Discardable(names[..i + 1]) == names[..i + 1]
    ensures !ValidFileName(names[i]) ==> Discardable(names) == names[..i] && Discardable(names) != names
    decreases i
  {
    if i == 0 {
      assert names[..1] == [names[0]] && names[..1][1..] == [];
    } else {
      assert names[..i][1..] == names[1..][..i - 1] && names[..i + 1][1..] == names[1..][..i];
      assert names[..i] == [names[0]] + names[1..][..i - 1];
      DiscardableSplit(names[1..], i - 1);
    }
  }

  // ---- A sweep, Run by Run ----------------------------------------------------------------------

  function SweptOne<I>(e: Engine<I>, s: Option<(RunOp, I)>, id: string, at: int): Engine<I> {
    match s
    case None => e
    case Some((op, input)) =>
      e.(disk := PlayWrite(e.disk, Do(id, op), at),
         chain := e.chain + [Link(id, input, Queued)],
         active := e.active + {id})
  }

  ghost function SweptTo<I>(
    e: Engine<I>, m: ShellModule<I>, now: int, damaged: set<string>, ids: seq<string>, at: int): Engine<I>
  {
    e.(disk := PlayWrites(e.disk, SalvageWrites(e, m, now, damaged, ids), at),
       chain := e.chain + SalvageLinks(e, m, now, damaged, ids),
       active := e.active + Runs(SalvageLinks(e, m, now, damaged, ids)))
  }

  lemma SweptAll<I>(e: Engine<I>, m: ShellModule<I>, now: int, ids: seq<string>, damaged: set<string>, at: int)
    requires IsListing(e.disk, m.id, ids)
    ensures SweptTo(e, m, now, damaged, ids, at) == Next(e, m, Step.RecoverRuns(true, now, ids, damaged), at)
  {
    SweepLinks(e, m, now, damaged, ids, e.active);
  }

  lemma SweptNone<I>(e: Engine<I>, m: ShellModule<I>, now: int, damaged: set<string>, at: int)
    ensures SweptTo(e, m, now, damaged, [], at) == e
  {
    Unchanged(e);
  }

  lemma {:induction false} SalvageSnoc<I>(
    e: Engine<I>, m: ShellModule<I>, now: int, damaged: set<string>, ids: seq<string>, id: string)
    ensures var s := Salvage(e, m, now, damaged, id);
      && SalvageWrites(e, m, now, damaged, ids + [id])
         == SalvageWrites(e, m, now, damaged, ids) + (if s.Some? then [Do(id, s.value.0)] else [])
      && SalvageLinks(e, m, now, damaged, ids + [id])
         == SalvageLinks(e, m, now, damaged, ids) + (if s.Some? then [Link(id, s.value.1, Queued)] else [])
    decreases |ids|
  {
    if ids == [] {
      assert [] + [id] == [id] && [id][1..] == [];
    } else {
      assert (ids + [id])[1..] == ids[1..] + [id];
      SalvageSnoc(e, m, now, damaged, ids[1..], id);
    }
  }

  /** Deciding on the state the sweep has reached is deciding on the state it found. */
  lemma SweptSnoc<I>(
    e: Engine<I>, m: ShellModule<I>, now: int, damaged: set<string>, ids: seq<string>, i: nat, at: int)
    requires i < |ids| && IsListing(e.disk, m.id, ids)
    ensures var e' := SweptTo(e, m, now, damaged, ids[..i], at);
      var s := Salvage(e, m, now, damaged, ids[i]);
      && Salvage(e', m, now, damaged, ids[i]) == s
      && SweptTo(e, m, now, damaged, ids[..i + 1], at) == SweptOne(e', s, ids[i], at)
      && |SalvageLinks(e, m, now, damaged, ids[..i + 1])|
         == |SalvageLinks(e, m, now, damaged, ids[..i])| + if s.Some? then 1 else 0
  {
    var before, id := ids[..i], ids[i];
    var s := Salvage(e, m, now, damaged, id);
    assert ids[..i + 1] == before + [id];
    assert id in ids && id in e.disk;
    forall j | 0 <= j < |before| ensures before[j] != id { assert before[j] == ids[j]; }
    SalvageSnoc(e, m, now, damaged, before, id);
    SameDecision(e, m, now, damaged, before, id, at);
    var links := SalvageLinks(e, m, now, damaged, before);
    if s.Some? {
      var (w, l) := (Do(id, s.value.0), Link(id, s.value.1, Queued));
      PlayConcat(e.disk, SalvageWrites(e, m, now, damaged, before), [w], at);
      PlayOne(PlayWrites(e.disk, SalvageWrites(e, m, now, damaged, before), at), w, at);
      RunsSnoc(links, l);
      assert e.chain + (links + [l]) == e.chain + links + [l];
    } else {
      assert links + [] == links;
      assert SalvageWrites(e, m, now, damaged, before) + [] == SalvageWrites(e, m, now, damaged, before);
    }
  }

  /** Salvaging other Runs does not change the decision on this one. */
  lemma SameDecision<I>(e: Engine<I>, m: ShellModule<I>, now: int, damaged: set<string>, before: seq<string>, id: string, at: int)
    requires id in e.disk && id !in before
    requires forall i, j :: 0 <= i < j < |before| ==> before[i] != before[j]
    ensures Salvage(SweptTo(e, m, now, damaged, before, at), m, now, damaged, id) == Salvage(e, m, now, damaged, id)
    ensures id in PlayWrites(e.disk, SalvageWrites(e, m, now, damaged, before), at)
  {
    SweepWritesEach(e, m, now, damaged, before, e.disk, at, id);
    SweepLinks(e, m, now, damaged, before, e.active);
  }

  lemma RunsSnoc<I>(links: seq<Link<I>>, l: Link<I>)
    ensures Runs(links + [l]) == Runs(links) + {l.run}
  {
    var all := links + [l];
    assert all[|links|] == l;
    forall i | 0 <= i < |links| ensures all[i] == links[i] {}
    forall r | r in Runs(links) ensures r in Runs(all) {
      var i :| 0 <= i < |links| && links[i].run == r;
      assert all[i].run == r;
    }
  }
}
