/** When a wait stands exactly while its Run is blocked. */
module RunEngineWaits {
  import opened Prelude
  import opened RunRecords
  import opened RunStories
  import opened RunEngine
  import opened RunRecordsKept
  import opened RunEngineLaws
  import opened RunEngineTheorems
  import opened RunEngineStages

  ghost predicate UsesContext<I>(step: Step<I>, c: nat) {
    || (step.OpenStage? && step.ctx == c)
    || (step.CloseStage? && step.ctx == c)
    || (GuardedUse(step) && ContextOf(step) == c)
  }

  /**
    A Module uses a context only while its own execution is under way, and opens no Stage after a
    wait; a host moves no Run that is queued or executing, and starts no blocked one.
   */
  ghost predicate Disciplined<I>(e: Engine<I>, m: ShellModule<I>, step: Step<I>)
    requires Enabled(e, m, step)
  {
    && (forall c: nat :: UsesContext(step, c) ==>
          && c < |e.contexts| && e.contexts[c].link < |e.chain|
          && e.chain[e.contexts[c].link].phase == Executing
          && (step.OpenStage? ==> !e.contexts[c].waited))
    && (step.HostDoes? ==>
          (Moves(step.op) ==> step.id !in e.active) && (step.op.Started? ==> !HasStatus(e.disk, step.id, Blocked)))
  }

  ghost predicate DisciplinedMoves<I>(m: ShellModule<I>, moves: seq<Move<I>>)
    requires Happens(m, moves)
    decreases |moves|
  {
    moves == [] ||
    (DisciplinedMoves(m, moves[..|moves| - 1])
      && Disciplined(Reached(m, moves[..|moves| - 1]), m, moves[|moves| - 1].step))
  }

  predicate HasStatus(disk: Disk, r: string, s: Status) {
    Recordable(disk, r) && disk[r].meta.value.status == s
  }

  ghost predicate WaitsMatch(disk: Disk) {
    forall r :: Recordable(disk, r) ==> WaitMatches(disk[r])
  }

  /** Each context belongs to an execution that has begun, and to its own. */
  ghost predicate ContextsPaced<I>(chain: seq<Link<I>>, contexts: seq<Context>) {
    && (forall c :: 0 <= c < |contexts| ==> contexts[c].link < |chain| && chain[contexts[c].link].phase != Queued)
    && (forall c, d :: 0 <= c < d < |contexts| ==> contexts[c].link != contexts[d].link)
  }

  /** Queued Runs are pending; a Run whose execution has not called `wait` is not blocked. */
  ghost predicate Paced<I>(e: Engine<I>) {
    && (forall i :: 0 <= i < |e.chain| && e.chain[i].phase == Queued && Recordable(e.disk, e.chain[i].run) ==>
          HasStatus(e.disk, e.chain[i].run, Pending))
    && ContextsPaced(e.chain, e.contexts)
    && (forall c :: 0 <= c < |e.contexts| && e.chain[e.contexts[c].link].phase == Executing && !e.contexts[c].waited ==>
          !HasStatus(e.disk, e.contexts[c].run, Blocked))
  }

  // ---- What writes do to one Run's status and wait ----------------------------------------------

  /** No Stage is started on a blocked Run. */
  ghost predicate Calm(disk: Disk, w: Write) {
    w.Do? && w.op.Started? ==> !HasStatus(disk, w.id, Blocked)
  }

  lemma ApplyMeta(dir: RunDir, op: RunOp, at: int)
    ensures Apply(dir, op, at).meta.Some? <==> dir.meta.Some?
    ensures dir.meta.Some? && !Throws(dir, op) ==> Apply(dir, op, at).meta == Some(Change(dir.meta.value, op))
    ensures dir.meta.Some? && Throws(dir, op) ==> Apply(dir, op, at).meta == dir.meta
  {
  }

  lemma WriteWaits(disk: Disk, w: Write, at: int)
    requires WaitsMatch(disk) && Calm(disk, w)
    ensures WaitsMatch(PlayWrite(disk, w, at))
  {
    if w.Do? && w.id in disk { ApplyMeta(disk[w.id], w.op, at); }
  }

  ghost predicate AllCalm(disk: Disk, ws: seq<Write>) {
    (|ws| == 1 && Calm(disk, ws[0])) || (forall w :: w in ws ==> !(w.Do? && w.op.Started?))
  }

  lemma {:induction false} WritesWait(disk: Disk, ws: seq<Write>, at: int)
    requires WaitsMatch(disk) && AllCalm(disk, ws)
    ensures WaitsMatch(PlayWrites(disk, ws, at))
    decreases |ws|
  {
    if ws != [] {
      assert ws[0] in ws;
      WriteWaits(disk, ws[0], at);
      assert forall w :: w in ws[1..] ==> w in ws;
      WritesWait(PlayWrite(disk, ws[0], at), ws[1..], at);
    }
  }

  /** However far an interrupted write got, the metadata is as after the whole write, or absent. */
  lemma PartMeta(disk: Disk, w: Write, at: int, k: nat, r: string)
    ensures Recordable(PartWrite(disk, w, at, k), r) ==>
      Recordable(PlayWrite(disk, w, at), r) && PartWrite(disk, w, at, k)[r].meta == PlayWrite(disk, w, at)[r].meta
  {
  }

  lemma PartWaits(disk: Disk, w: Write, at: int, k: nat)
    requires WaitsMatch(disk) && Calm(disk, w)
    ensures WaitsMatch(PartWrite(disk, w, at, k))
  {
    WriteWaits(disk, w, at);
    forall r | Recordable(PartWrite(disk, w, at, k), r) ensures WaitMatches(PartWrite(disk, w, at, k)[r]) {
      PartMeta(disk, w, at, k, r);
    }
  }

  /** Only `wait` blocks a Run. */
  lemma {:induction false} OnlyWaitBlocks(disk: Disk, ws: seq<Write>, at: int, r: string)
    requires forall w :: w in ws && w.Do? && w.id == r ==> !w.op.BlockedOn?
    requires HasStatus(PlayWrites(disk, ws, at), r, Blocked)
    ensures HasStatus(disk, r, Blocked)
    decreases |ws|
  {
    if ws != [] {
      assert ws[0] in ws && forall w :: w in ws[1..] ==> w in ws;
      OnlyWaitBlocks(PlayWrite(disk, ws[0], at), ws[1..], at, r);
      if ws[0].Do? && ws[0].id in disk { ApplyMeta(disk[ws[0].id], ws[0].op, at); }
    }
  }

  /** A pending Run stays pending under operations that do not move it. */
  lemma {:induction false} StaysPending(disk: Disk, ws: seq<Write>, at: int, r: string)
    requires forall w :: w in ws && w.id == r ==> w.Remove? || (w.Do? && !Moves(w.op))
    requires Recordable(disk, r) ==> HasStatus(disk, r, Pending)
    ensures Recordable(PlayWrites(disk, ws, at), r) ==> HasStatus(PlayWrites(disk, ws, at), r, Pending)
    decreases |ws|
  {
    if ws != [] {
      assert ws[0] in ws && forall w :: w in ws[1..] ==> w in ws;
      if ws[0].Do? && ws[0].id in disk { ApplyMeta(disk[ws[0].id], ws[0].op, at); }
      StaysPending(PlayWrite(disk, ws[0], at), ws[1..], at, r);
    }
  }

  // ---- The writes of a disciplined step -----------------------------------------------------------

  lemma {:induction false} SalvageWritesWhat<I>(
    e: Engine<I>, m: ShellModule<I>, now: int, damaged: set<string>, ids: seq<string>)
    ensures forall w :: w in SalvageWrites(e, m, now, damaged, ids) ==>
      w.Do? && w.id !in e.active && (w.op.Resumed? || w.op.Recovered?)
    decreases |ids|
  {
    if ids != [] { SalvageWritesWhat(e, m, now, damaged, ids[1..]); }
  }

  lemma OnlyWaitForBlocks<I>(e: Engine<I>, m: ShellModule<I>, step: Step<I>)
    requires Enabled(e, m, step) && !(step.WaitFor? && InStage(e.contexts[step.ctx])) && !step.HostDoes?
    ensures forall w :: w in WritesOf(e, m, step) && w.Do? ==> !w.op.BlockedOn?
  {
    if step.RecoverRuns? { SalvageWritesWhat(e, m, step.now, step.damaged, step.listing); }
  }

  lemma OnlyOpenStageStarts<I>(e: Engine<I>, m: ShellModule<I>, step: Step<I>)
    requires Enabled(e, m, step) && !step.OpenStage? && !step.HostDoes?
    ensures forall w :: w in WritesOf(e, m, step) && w.Do? ==> !w.op.Started?
  {
    if step.RecoverRuns? { SalvageWritesWhat(e, m, step.now, step.damaged, step.listing); }
  }

  /** The step starts a Stage on a Run that is blocked. */
  predicate StartsBlocked<I>(e: Engine<I>, step: Step<I>) {
    || (step.OpenStage? && step.ctx < |e.contexts| && !step.refused && HasStatus(e.disk, e.contexts[step.ctx].run, Blocked))
    || (step.HostDoes? && step.op.Started? && HasStatus(e.disk, step.id, Blocked))
  }

  lemma DisciplinedStarts<I>(e: Engine<I>, m: ShellModule<I>, step: Step<I>)
    requires Enabled(e, m, step) && Paced(e) && Disciplined(e, m, step)
    ensures !StartsBlocked(e, step)
  {
    if step.OpenStage? { assert UsesContext(step, step.ctx); }
  }

  lemma StepCalm<I>(e: Engine<I>, m: ShellModule<I>, step: Step<I>)
    requires Enabled(e, m, step) && !StartsBlocked(e, step)
    ensures AllCalm(e.disk, WritesOf(e, m, step))
    ensures forall n :: 0 <= n <= |WritesOf(e, m, step)| ==> AllCalm(e.disk, WritesOf(e, m, step)[..n])
  {
    var ws := WritesOf(e, m, step);
    if !step.OpenStage? && !step.HostDoes? { OnlyOpenStageStarts(e, m, step); }
    forall n | 0 <= n <= |ws| ensures AllCalm(e.disk, ws[..n]) {
      if n == |ws| { assert ws[..n] == ws; }
      assert forall w :: w in ws[..n] ==> w in ws;
    }
  }

  predicate OfContext<I>(step: Step<I>) { step.OpenStage? || step.CloseStage? || GuardedUse(step) }

  /** What a step writes on a Run that is queued, pending and not executing, does not move it. */
  lemma QueuedUntouched<I>(e: Engine<I>, m: ShellModule<I>, step: Step<I>, i: nat)
    requires Enabled(e, m, step) && Disciplined(e, m, step) && Inv(e) && Paced(e)
    requires i < |e.chain| && e.chain[i].phase == Queued
    ensures forall w :: w in WritesOf(e, m, step) && w.id == e.chain[i].run ==> w.Remove? || (w.Do? && !Moves(w.op))
  {
    var r := e.chain[i].run;
    assert Unsettled(e.chain, i) && Waits(e.chain, r);
    if step.RecoverRuns? {
      SalvageWritesWhat(e, m, step.now, step.damaged, step.listing);
    } else if step.Settle? {
      assert Unsettled(e.chain, step.link);
    } else if OfContext(step) {
      var c := step.ctx;
      assert UsesContext(step, c);
      assert Unsettled(e.chain, e.contexts[c].link);
      ContextWritesOwn(e, m, step, c);
    } else if step.HostDoes? {
      assert r in e.active;
    } else {
      OutsideWrites(e, m, step, r);
    }
  }

  lemma ContextWritesOwn<I>(e: Engine<I>, m: ShellModule<I>, step: Step<I>, c: nat)
    requires Enabled(e, m, step) && UsesContext(step, c)
    ensures forall w :: w in WritesOf(e, m, step) ==> w.id == e.contexts[c].run
  {
  }

  lemma OutsideWrites<I>(e: Engine<I>, m: ShellModule<I>, step: Step<I>, r: string)
    requires Enabled(e, m, step) && IdsIssued(e) && r in e.issued
    requires !step.RecoverRuns? && !step.Settle? && !step.HostDoes? && !OfContext(step)
    requires Recordable(e.disk, r) ==> HasStatus(e.disk, r, Pending)
    ensures forall w :: w in WritesOf(e, m, step) && w.id == r ==> w.Remove? || (w.Do? && !Moves(w.op))
  {
    if step.StartRun? { assert r != step.newId; }
  }

  // ---- Newly queued Runs are pending -----------------------------------------------------------------

  lemma TakenPending<I>(e: Engine<I>, m: ShellModule<I>, step: Step<I>, at: int, l: Link<I>)
    requires Enabled(e, m, step) && l in Requests(e, m, step)
    ensures HasStatus(Next(e, m, step, at).disk, l.run, Pending)
  {
    if step.RecoverRuns? {
      SweepEffect(e, m, step, at);
      SalvageLinksFrom(e, m, step.now, step.damaged, step.listing, l);
      SalvagePending(e, m, step.now, step.damaged, l.run, at);
    } else if step.RetryRun? {
      RetryPending(e, m, step.ready, step.id, at);
    } else {
      var ws := WritesOf(e, m, step);
      assert ws == [ws[0]];
      PlayOne(e.disk, ws[0], at);
      if ws[0].Do? { ApplyMeta(e.disk[ws[0].id], ws[0].op, at); }
    }
  }

  lemma {:induction false} SalvageLinksFrom<I>(
    e: Engine<I>, m: ShellModule<I>, now: int, damaged: set<string>, ids: seq<string>, l: Link<I>)
    requires l in SalvageLinks(e, m, now, damaged, ids)
    ensures Salvaged(e, m, now, damaged, ids, l.run)
    decreases |ids|
  {
    var s := Salvage(e, m, now, damaged, ids[0]);
    if !(s.Some? && l == Link(ids[0], s.value.1, Queued)) {
      SalvageLinksFrom(e, m, now, damaged, ids[1..], l);
    }
  }

  lemma RetryPending<I>(e: Engine<I>, m: ShellModule<I>, ready: bool, id: string, at: int)
    requires var d := DecideRetry(e, m, ready, id); d.GoAhead? && Carried(d.plan)
    ensures HasStatus(PlayWrites(e.disk, RetryWrites(e, DecideRetry(e, m, ready, id), id), at), id, Pending)
  {
    var plan := DecideRetry(e, m, ready, id).plan;
    var prep := Preparation(plan, id);
    var last := Do(id, Reopened(plan.fromStage, plan.reason));
    HousekeepingKeeps(e.disk, prep, at, id);
    PlayConcat(e.disk, prep, [last], at);
    PlayOne(PlayWrites(e.disk, prep, at), last, at);
    ApplyMeta(PlayWrites(e.disk, prep, at)[id], last.op, at);
  }

  // ---- The invariant -----------------------------------------------------------------------------------

  lemma PacedQueue<I>(e: Engine<I>, m: ShellModule<I>, step: Step<I>, at: int, i: nat, l: Link<I>, disk: Disk)
    requires Enabled(e, m, step) && Disciplined(e, m, step) && Inv(e) && Paced(e)
    requires disk == PlayWrites(e.disk, WritesOf(e, m, step), at)
    requires |Advance(e.chain, step)| == |e.chain| && (i >= |e.chain| ==> i - |e.chain| < |Admitted(e.active, Requests(e, m, step))|)
    requires l == if i < |e.chain| then Advance(e.chain, step)[i] else Admitted(e.active, Requests(e, m, step))[i - |e.chain|]
    requires l.phase == Queued && Recordable(disk, l.run)
    ensures HasStatus(disk, l.run, Pending)
  {
    if i < |e.chain| {
      PacedQueued(e, m, step, at, i);
    } else {
      NewPending(e, m, step, at, i - |e.chain|);
    }
  }

  /** The chain after a step: its links advanced, and what the step admitted behind them. */
  lemma ChainAfter<I>(e: Engine<I>, m: ShellModule<I>, step: Step<I>, at: int, i: nat)
    requires Enabled(e, m, step) && i < |Next(e, m, step, at).chain|
    ensures |Advance(e.chain, step)| == |e.chain|
    ensures i >= |e.chain| ==> i - |e.chain| < |Admitted(e.active, Requests(e, m, step))|
    ensures Next(e, m, step, at).chain[i]
         == if i < |e.chain| then Advance(e.chain, step)[i] else Admitted(e.active, Requests(e, m, step))[i - |e.chain|]
    ensures Next(e, m, step, at).disk == PlayWrites(e.disk, WritesOf(e, m, step), at)
  {
  }

  lemma NewPending<I>(e: Engine<I>, m: ShellModule<I>, step: Step<I>, at: int, k: nat)
    requires Enabled(e, m, step) && k < |Admitted(e.active, Requests(e, m, step))|
    ensures HasStatus(PlayWrites(e.disk, WritesOf(e, m, step), at), Admitted(e.active, Requests(e, m, step))[k].run, Pending)
  {
    var links := Requests(e, m, step);
    var taken := Admitted(e.active, links);
    RequestsQueued(e, m, step);
    AdmittedFresh(e.active, links);
    assert taken[k] in taken;
    TakenPending(e, m, step, at, taken[k]);
  }

  lemma PacedQueued<I>(e: Engine<I>, m: ShellModule<I>, step: Step<I>, at: int, i: nat)
    requires Enabled(e, m, step) && Disciplined(e, m, step) && Inv(e) && Paced(e)
    requires i < |e.chain| && i < |Advance(e.chain, step)| && Advance(e.chain, step)[i].phase == Queued
    requires Recordable(PlayWrites(e.disk, WritesOf(e, m, step), at), e.chain[i].run)
    ensures Advance(e.chain, step)[i] == e.chain[i]
    ensures HasStatus(PlayWrites(e.disk, WritesOf(e, m, step), at), e.chain[i].run, Pending)
  {
    assert Advance(e.chain, step)[i] == e.chain[i];
    QueuedUntouched(e, m, step, i);
    StaysPending(e.disk, WritesOf(e, m, step), at, e.chain[i].run);
  }

  lemma ContextsStay<I>(e: Engine<I>, m: ShellModule<I>, step: Step<I>, c: nat)
    requires Enabled(e, m, step) && c < |e.contexts|
    ensures c < |ContextsOf(e, m, step)| && ContextsOf(e, m, step)[c].link == e.contexts[c].link
  {
  }

  lemma SameLinks<I>(chain: seq<Link<I>>, chain': seq<Link<I>>, contexts: seq<Context>, contexts': seq<Context>)
    requires ContextsPaced(chain, contexts) && |contexts'| == |contexts| && |chain| <= |chain'|
    requires forall i :: 0 <= i < |chain| && chain[i].phase != Queued ==> chain'[i].phase != Queued
    requires forall c :: 0 <= c < |contexts| ==> contexts'[c].link == contexts[c].link
    ensures ContextsPaced(chain', contexts')
  {
  }

  lemma PacedContexts<I>(e: Engine<I>, m: ShellModule<I>, step: Step<I>, at: int)
    requires Enabled(e, m, step) && ContextsPaced(e.chain, e.contexts)
    ensures ContextsPaced(Next(e, m, step, at).chain, Next(e, m, step, at).contexts)
  {
    assert |Advance(e.chain, step)| == |e.chain|;
    if !step.Begin? {
      forall c | 0 <= c < |e.contexts| ensures ContextsOf(e, m, step)[c].link == e.contexts[c].link { ContextsStay(e, m, step, c); }
      SameLinks(e.chain, Next(e, m, step, at).chain, e.contexts, ContextsOf(e, m, step));
    }
  }

  /** Only the executing context itself can block its Run. */
  lemma NotBlocking<I>(e: Engine<I>, m: ShellModule<I>, step: Step<I>, c: nat)
    requires Enabled(e, m, step) && Disciplined(e, m, step) && Inv(e) && Paced(e)
    requires c < |e.contexts| && e.chain[e.contexts[c].link].phase == Executing
    requires !(step.WaitFor? && step.ctx == c && InStage(e.contexts[c]))
    ensures forall w :: w in WritesOf(e, m, step) && w.Do? && w.id == e.contexts[c].run ==> !w.op.BlockedOn?
  {
    if step.WaitFor? {
      assert UsesContext(step, step.ctx);
      assert Unsettled(e.chain, e.contexts[c].link) && Unsettled(e.chain, e.contexts[step.ctx].link);
    } else if step.HostDoes? {
      assert StackCounts(e.contexts[c], e.chain) && Unsettled(e.chain, e.contexts[c].link);
      assert Waits(e.chain, e.contexts[c].run);
    } else {
      OnlyWaitForBlocks(e, m, step);
    }
  }

  /** A context that is executing after the step, and has not waited, was so before it. */
  lemma StillExecuting<I>(e: Engine<I>, m: ShellModule<I>, step: Step<I>, at: int, c: nat)
    requires Enabled(e, m, step) && c < |e.contexts| && e.contexts[c].link < |e.chain|
    requires e.chain[e.contexts[c].link].phase != Queued
    requires var e' := Next(e, m, step, at);
      c < |e'.contexts| && e'.contexts[c].link < |e'.chain|
      && e'.chain[e'.contexts[c].link].phase == Executing && !e'.contexts[c].waited
    ensures e.chain[e.contexts[c].link].phase == Executing && !e.contexts[c].waited
    ensures Next(e, m, step, at).contexts[c].run == e.contexts[c].run
    ensures !(step.WaitFor? && step.ctx == c && InStage(e.contexts[c]))
  {
    assert |Advance(e.chain, step)| == |e.chain|;
    assert Next(e, m, step, at).contexts[c].link == e.contexts[c].link;
  }

  lemma PacedExecution<I>(e: Engine<I>, m: ShellModule<I>, step: Step<I>, at: int, c: nat)
    requires Enabled(e, m, step) && Disciplined(e, m, step) && Inv(e) && Paced(e)
    requires var e' := Next(e, m, step, at);
      c < |e'.contexts| && e'.contexts[c].link < |e'.chain|
      && e'.chain[e'.contexts[c].link].phase == Executing && !e'.contexts[c].waited
    ensures !HasStatus(Next(e, m, step, at).disk, Next(e, m, step, at).contexts[c].run, Blocked)
  {
    var e' := Next(e, m, step, at);
    var run := e'.contexts[c].run;
    if c < |e.contexts| {
      StillExecuting(e, m, step, at, c);
      NotBlocking(e, m, step, c);
      StaysUnblocked(e, m, step, at, run);
    } else {
      assert step.Begin? && run == e.chain[step.link].run;
      assert WritesOf(e, m, step) == [];
    }
  }

  lemma StaysUnblocked<I>(e: Engine<I>, m: ShellModule<I>, step: Step<I>, at: int, run: string)
    requires Enabled(e, m, step) && !HasStatus(e.disk, run, Blocked)
    requires forall w :: w in WritesOf(e, m, step) && w.Do? && w.id == run ==> !w.op.BlockedOn?
    ensures !HasStatus(PlayWrites(e.disk, WritesOf(e, m, step), at), run, Blocked)
  {
    if HasStatus(PlayWrites(e.disk, WritesOf(e, m, step), at), run, Blocked) {
      OnlyWaitBlocks(e.disk, WritesOf(e, m, step), at, run);
    }
  }

  lemma PacedStep<I>(e: Engine<I>, m: ShellModule<I>, step: Step<I>, at: int)
    requires Enabled(e, m, step) && Disciplined(e, m, step) && Inv(e) && Paced(e)
    ensures Paced(Next(e, m, step, at))
  {
    var e' := Next(e, m, step, at);
    PacedContexts(e, m, step, at);
    forall i | 0 <= i < |e'.chain| && e'.chain[i].phase == Queued && Recordable(e'.disk, e'.chain[i].run)
      ensures HasStatus(e'.disk, e'.chain[i].run, Pending)
    {
      ChainAfter(e, m, step, at, i);
      PacedQueue(e, m, step, at, i, e'.chain[i], e'.disk);
    }
    forall c | 0 <= c < |e'.contexts| && e'.chain[e'.contexts[c].link].phase == Executing && !e'.contexts[c].waited
      ensures !HasStatus(e'.disk, e'.contexts[c].run, Blocked)
    {
      PacedExecution(e, m, step, at, c);
    }
  }

  /** A step that starts no Stage on a blocked Run, whole or cut short, keeps every wait matching. */
  lemma WaitsStep<I>(e: Engine<I>, m: ShellModule<I>, move: Move<I>)
    requires CanMove(e, m, move) && !StartsBlocked(e, move.step) && WaitsMatch(e.disk)
    ensures WaitsMatch(Moved(e, m, move).disk)
  {
    StepCalm(e, m, move.step);
    if move.Lives? {
      WritesWait(e.disk, WritesOf(e, m, move.step), move.at);
    } else {
      WritesWait(e.disk, WritesOf(e, m, move.step)[..move.n], move.at);
      if move.n < |WritesOf(e, m, move.step)| { WaitsDie(e, m, move.step, move.at, move.n, move.k); }
    }
  }

  lemma WaitsDie<I>(e: Engine<I>, m: ShellModule<I>, step: Step<I>, at: int, n: nat, k: nat)
    requires Enabled(e, m, step) && !StartsBlocked(e, step) && n < |WritesOf(e, m, step)|
    requires WaitsMatch(PlayWrites(e.disk, WritesOf(e, m, step)[..n], at))
    ensures WaitsMatch(PartWrite(PlayWrites(e.disk, WritesOf(e, m, step)[..n], at), WritesOf(e, m, step)[n], at, k))
  {
    var ws := WritesOf(e, m, step);
    assert ws[n] in ws;
    if step.OpenStage? || step.HostDoes? {
      assert n == 0 && ws[..0] == [];
    } else {
      OnlyOpenStageStarts(e, m, step);
    }
    PartWaits(PlayWrites(e.disk, ws[..n], at), ws[n], at, k);
  }

  /** A Stage started on a blocked Run, however far the start got, leaves a running Run with a wait. */
  lemma StartBreaks<I>(e: Engine<I>, m: ShellModule<I>, move: Move<I>)
    requires CanMove(e, m, move) && StartsBlocked(e, move.step) && WaitsMatch(e.disk)
    ensures !WaitsMatch(Moved(e, m, move).disk)
  {
    var ws := WritesOf(e, m, move.step);
    var run, disk' := ws[0].id, Moved(e, m, move).disk;
    assert ws == [ws[0]] && ws[0].op.Started? && HasStatus(e.disk, run, Blocked);
    assert WaitMatches(e.disk[run]);
    PlayOne(e.disk, ws[0], move.at);
    assert ws[..0] == [] && ws[..1] == ws;
    StartedMeta(e.disk, ws[0], move.at, if move.Dies? then move.k else 0);
    assert Recordable(disk', run) && !WaitMatches(disk'[run]);
  }

  lemma StartedMeta(disk: Disk, w: Write, at: int, k: nat)
    requires w.Do? && w.op.Started? && Recordable(disk, w.id)
    ensures Recordable(PlayWrite(disk, w, at), w.id) && Recordable(PartWrite(disk, w, at, k), w.id)
    ensures PlayWrite(disk, w, at)[w.id].meta.value == disk[w.id].meta.value.(status := Running)
    ensures PartWrite(disk, w, at, k)[w.id].meta == PlayWrite(disk, w, at)[w.id].meta
  {
    ApplyMeta(disk[w.id], w.op, at);
  }

  ghost predicate WaitsAlways<I>(m: ShellModule<I>, moves: seq<Move<I>>)
    requires Happens(m, moves)
    decreases |moves|
  {
    WaitsMatch(Reached(m, moves).disk) && (moves != [] ==> WaitsAlways(m, moves[..|moves| - 1]))
  }

  ghost predicate NoneStartsBlocked<I>(m: ShellModule<I>, moves: seq<Move<I>>)
    requires Happens(m, moves)
    decreases |moves|
  {
    moves == [] ||
    (NoneStartsBlocked(m, moves[..|moves| - 1])
      && !StartsBlocked(Reached(m, moves[..|moves| - 1]), moves[|moves| - 1].step))
  }

  /**
    Over every sequence of moves, crashes included: each readable Run holds a wait exactly when it
    is blocked, after every move, if and only if no Stage is ever started on a blocked Run.
   */
  lemma {:induction false} WaitsExactly<I>(m: ShellModule<I>, moves: seq<Move<I>>)
    requires Happens(m, moves)
    ensures WaitsAlways(m, moves) <==> NoneStartsBlocked(m, moves)
    decreases |moves|
  {
    if moves != [] {
      var n := |moves| - 1;
      var e := Reached(m, moves[..n]);
      WaitsExactly(m, moves[..n]);
      if WaitsMatch(e.disk) {
        if StartsBlocked(e, moves[n].step) { StartBreaks(e, m, moves[n]); } else { WaitsStep(e, m, moves[n]); }
      }
    }
  }

  /**
    That is so, in particular, where Modules use their contexts only while their executions are
    under way and open no Stage after `wait` threw, and hosts leave queued and executing Runs
    alone; every queued Run is pending then, and a Run whose execution has not asked to wait is
    not blocked.
   */
  lemma {:induction false} WaitExactlyWhileBlocked<I>(m: ShellModule<I>, moves: seq<Move<I>>)
    requires Happens(m, moves) && DisciplinedMoves(m, moves)
    ensures WaitsAlways(m, moves) && NoneStartsBlocked(m, moves) && Paced(Reached(m, moves))
    decreases |moves|
  {
    if moves != [] {
      var n := |moves| - 1;
      var e := Reached(m, moves[..n]);
      WaitExactlyWhileBlocked(m, moves[..n]);
      EngineKeeps(m, moves[..n]);
      DisciplinedStarts(e, m, moves[n].step);
      if moves[n].Lives? { PacedStep(e, m, moves[n].step, moves[n].at); }
    }
    WaitsExactly(m, moves);
  }
}
