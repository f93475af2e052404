/** Stages and the stack a context keeps of them. */
module RunEngineStages {
  import opened RunRecords
  import opened RunEngine
  import opened RunRecordsKept
  import opened RunEngineLaws

  predicate GuardedUse<I>(step: Step<I>) {
    step.EmitEvent? || step.CountAttempt? || step.WaitFor? || step.WriteFile?
  }

  function ContextOf<I>(step: Step<I>): nat
    requires GuardedUse(step)
  {
    match step
    case EmitEvent(c, _, _) => c
    case CountAttempt(c) => c
    case WaitFor(c, _, _, _) => c
    case WriteFile(c, _, _) => c
  }

  /** What a guarded use does to the Run once the guard lets it through. */
  function UseOf<I>(step: Step<I>, c: Context): RunOp
    requires GuardedUse(step) && c.stack != []
  {
    match step
    case EmitEvent(_, name, detail) => Appended(KindOf(name), detail)
    case CountAttempt(_) => AttemptStarted
    case WaitFor(_, now, reason, timeout) => BlockedOn(Wait(now, c.stack[|c.stack| - 1], reason, timeout))
    case WriteFile(_, name, text) => RunOp.WroteFile(name, text)
  }

  /**
    `event`, `attempt`, `wait` and `writeFile` pass the guard if and only if a `stage` call is open,
    or a Stage's opening threw, which leaves the guard open behind it. Where they do not pass,
    nothing at all changes; where they do, exactly their operation is carried out on the Run.
   */
  lemma EffectsOnlyInStage<I>(m: ShellModule<I>, moves: seq<Move<I>>, step: Step<I>, at: int)
    requires Happens(m, moves)
    requires Enabled(Reached(m, moves), m, step) && GuardedUse(step)
    ensures var e := Reached(m, moves); var c := e.contexts[ContextOf(step)];
      && (InStage(c) <==> c.calls != [] || c.leaked > 0)
      && (!InStage(c) ==> Next(e, m, step, at) == e)
      && (InStage(c) ==> Next(e, m, step, at).disk == PlayWrite(e.disk, Do(c.run, UseOf(step, c)), at))
  {
    EngineKeeps(m, moves);
    var e := Reached(m, moves);
    assert StackCounts(e.contexts[ContextOf(step)], e.chain);
    UseEffect(e, m, step, at);
  }

  lemma UseEffect<I>(e: Engine<I>, m: ShellModule<I>, step: Step<I>, at: int)
    requires Enabled(e, m, step) && GuardedUse(step)
    ensures var c := e.contexts[ContextOf(step)];
      && (!InStage(c) ==> Next(e, m, step, at) == e)
      && (InStage(c) ==> Next(e, m, step, at).disk == PlayWrite(e.disk, Do(c.run, UseOf(step, c)), at))
  {
    var c := e.contexts[ContextOf(step)];
    assert e.chain + [] == e.chain && Runs<I>([]) == {};
    if InStage(c) { PlayOne(e.disk, Do(c.run, UseOf(step, c)), at); }
  }

  // ---- When the stack is the list of open calls -----------------------------------------------------

  predicate Nested(c: Context) { c.stack == c.calls && c.leaked == 0 }

  ghost predicate AllNested<I>(e: Engine<I>) {
    forall c :: 0 <= c < |e.contexts| ==> Nested(e.contexts[c])
  }

  /** The call is the innermost one, or every call opened since bears its name. */
  predicate SettlesInnermost(calls: seq<string>, call: nat) {
    forall i :: call <= i < |calls| - 1 ==> calls[i] == calls[i + 1]
  }

  /** Popping the stack takes away the call that settles if and only if it settles as the innermost. */
  lemma ClosedExactly(c: Context, call: nat)
    requires Nested(c) && call < |c.calls|
    ensures Nested(ClosedContext(c, call)) <==> SettlesInnermost(c.calls, call)
  {
    var n := |c.calls| - 1;
    var left := c.calls[..call] + c.calls[call + 1..];
    assert forall i :: 0 <= i < n ==> left[i] == if i < call then c.calls[i] else c.calls[i + 1];
    if left == c.calls[..n] {
      forall i | call <= i < n ensures c.calls[i] == c.calls[i + 1] { assert left[i] == c.calls[..n][i]; }
    }
  }

  predicate NestsStep<I>(e: Engine<I>, step: Step<I>) {
    match step
    case OpenStage(c, _, refused) => c < |e.contexts| ==> !refused && Recordable(e.disk, e.contexts[c].run)
    case CloseStage(c, call, _) => c < |e.contexts| ==> SettlesInnermost(e.contexts[c].calls, call)
    case _ => true
  }

  lemma NestedStep<I>(e: Engine<I>, m: ShellModule<I>, step: Step<I>, at: int)
    requires Enabled(e, m, step) && AllNested(e)
    ensures AllNested(Next(e, m, step, at)) <==> NestsStep(e, step)
  {
    var after := Next(e, m, step, at).contexts;
    if step.CloseStage? {
      ClosedExactly(e.contexts[step.ctx], step.call);
      OnlyOneChanges(e.contexts, step.ctx, after);
    } else if step.OpenStage? {
      OnlyOneChanges(e.contexts, step.ctx, after);
    } else {
      forall c | 0 <= c < |after| ensures Nested(after[c]) { ContextAfter(e, m, step, c); OthersNested(e, m, step, c); }
    }
  }

  lemma OnlyOneChanges(before: seq<Context>, c: nat, after: seq<Context>)
    requires c < |before| && |after| == |before| && after == before[c := after[c]]
    requires forall d :: 0 <= d < |before| ==> Nested(before[d])
    ensures (forall d :: 0 <= d < |after| ==> Nested(after[d])) <==> Nested(after[c])
  {
  }

  lemma OthersNested<I>(e: Engine<I>, m: ShellModule<I>, step: Step<I>, c: nat)
    requires Enabled(e, m, step) && AllNested(e) && !step.OpenStage? && !step.CloseStage?
    requires c < |ContextsOf(e, m, step)|
    ensures Nested(ContextsOf(e, m, step)[c])
  {
    if c < |e.contexts| { assert Nested(e.contexts[c]); }
  }

  ghost predicate NestsMoves<I>(m: ShellModule<I>, moves: seq<Move<I>>)
    requires Happens(m, moves)
    decreases |moves|
  {
    moves == [] ||
    (NestsMoves(m, moves[..|moves| - 1])
      && (moves[|moves| - 1].Lives? ==> NestsStep(Reached(m, moves[..|moves| - 1]), moves[|moves| - 1].step)))
  }

  ghost predicate NestedThroughout<I>(m: ShellModule<I>, moves: seq<Move<I>>)
    requires Happens(m, moves)
    decreases |moves|
  {
    AllNested(Reached(m, moves)) && (moves != [] ==> NestedThroughout(m, moves[..|moves| - 1]))
  }

  /**
    After every move the stack of every context is the list of its open calls, if and only if every
    Stage's start was recorded and every call settled as the innermost, or among calls of its name.
   */
  lemma {:induction false} StackExactly<I>(m: ShellModule<I>, moves: seq<Move<I>>)
    requires Happens(m, moves)
    ensures NestedThroughout(m, moves) <==> NestsMoves(m, moves)
    decreases |moves|
  {
    if moves != [] {
      var n := |moves| - 1;
      StackExactly(m, moves[..n]);
      if moves[n].Lives? && AllNested(Reached(m, moves[..n])) {
        NestedStep(Reached(m, moves[..n]), m, moves[n].step, moves[n].at);
      }
    }
  }

  lemma NestedContext<I>(m: ShellModule<I>, moves: seq<Move<I>>, c: nat)
    requires Happens(m, moves) && NestsMoves(m, moves) && c < |Reached(m, moves).contexts|
    ensures Nested(Reached(m, moves).contexts[c])
  {
    StackExactly(m, moves);
  }

  /** So long a wait names the innermost Stage. */
  lemma WaitNamesInnermost<I>(m: ShellModule<I>, moves: seq<Move<I>>, step: Step<I>)
    requires Happens(m, moves) && NestsMoves(m, moves)
    requires Enabled(Reached(m, moves), m, step) && step.WaitFor?
    requires Reached(m, moves).contexts[step.ctx].calls != []
    ensures var e := Reached(m, moves); var c := e.contexts[step.ctx];
      WritesOf(e, m, step)
        == [Do(c.run, BlockedOn(Wait(step.now, c.calls[|c.calls| - 1], step.reason, step.timeout)))]
  {
    NestedContext(m, moves, step.ctx);
    WaitWrites(Reached(m, moves), m, step);
  }

  lemma WaitWrites<I>(e: Engine<I>, m: ShellModule<I>, step: Step<I>)
    requires Enabled(e, m, step) && step.WaitFor? && Nested(e.contexts[step.ctx]) && e.contexts[step.ctx].calls != []
    ensures var c := e.contexts[step.ctx];
      WritesOf(e, m, step)
        == [Do(c.run, BlockedOn(Wait(step.now, c.calls[|c.calls| - 1], step.reason, step.timeout)))]
  {
  }
}
