/** Progress of the queues, and the names of the temporary files. */
module CommitProgress {
  import opened Prelude
  import opened Json
  import opened Commit
  import opened CommitLaws
  import opened CommitHistory

  // ---- Every schedule settles what was called ------------------------------------------------------------

  /** Steps an operation can still take, parts of its temporary file aside. */
  function Left(phase: Phase): nat {
    match phase
    case Waiting => 6
    case Entered => 5
    case Mutating(_) => 4
    case Writing(_, _) => 3
    case Written(_, _) => 2
    case Published(_) => 1
    case Settled(_) => 0
  }

  function Work(ops: seq<Op>): nat {
    if ops == [] then 0 else Work(ops[..|ops| - 1]) + Left(ops[|ops| - 1].phase)
  }

  /** The step moves an operation on: any step of one but the growing of its temporary file. */
  predicate Progresses(step: Step) { step.Enter? || (InsideStep(step) && !step.WritePart?) }

  lemma {:induction false} WorkUpdate(ops: seq<Op>, i: nat, op: Op)
    requires i < |ops|
    ensures Work(ops[i := op]) == Work(ops) - Left(ops[i].phase) + Left(op.phase)
  {
    var last := |ops| - 1;
    if i == last {
      assert ops[i := op][..last] == ops[..last];
    } else {
      assert ops[i := op][..last] == ops[..last][i := op];
      WorkUpdate(ops[..last], i, op);
    }
  }

  lemma WorkSnoc(ops: seq<Op>, op: Op)
    ensures Work(ops + [op]) == Work(ops) + Left(op.phase)
  {
    assert (ops + [op])[..|ops|] == ops;
  }

  lemma {:induction false} WorkAbandoned(ops: seq<Op>)
    ensures Work(Abandoned(ops)) == 0
  {
    if ops != [] {
      assert Abandoned(ops)[..|ops| - 1] == Abandoned(ops[..|ops| - 1]);
      WorkAbandoned(ops[..|ops| - 1]);
    }
  }

  lemma TurnShrinks(codec: Codec, w: Writer, step: Step)
    requires Enabled(w, step) && InsideStep(step)
    ensures var t := Taken(codec, w, step);
      Left(t.phase) + (if step.WritePart? then 0 else 1) <= Left(w.ops[step.op].phase)
  {
  }

  /** The calls a step queues. */
  function Calls(w: Writer, step: Step): nat
    requires Enabled(w, step)
  {
    if step.Call? && step.path !in HeldBy(w, step.parent) then 1 else 0
  }

  lemma WorkTurn(codec: Codec, w: Writer, step: Step)
    requires Enabled(w, step) && InsideStep(step)
    ensures Work(Next(codec, w, step).ops) + (if step.WritePart? then 0 else 1) <= Work(w.ops)
  {
    TurnShrinks(codec, w, step);
    WorkUpdate(w.ops, step.op, w.ops[step.op].(phase := Taken(codec, w, step).phase));
  }

  lemma WorkCall(codec: Codec, w: Writer, step: Step)
    requires Enabled(w, step) && step.Call?
    ensures Work(Next(codec, w, step).ops) == Work(w.ops) + 6 * Calls(w, step)
  {
    if Calls(w, step) == 1 { WorkSnoc(w.ops, Next(codec, w, step).ops[|w.ops|]); }
  }

  lemma WorkStep(codec: Codec, w: Writer, step: Step)
    requires Enabled(w, step)
    ensures Work(Next(codec, w, step).ops) + (if Progresses(step) then 1 else 0) <= Work(w.ops) + 6 * Calls(w, step)
  {
    if step.Call? {
      WorkCall(codec, w, step);
    } else if step.Enter? {
      WorkUpdate(w.ops, step.op, w.ops[step.op].(phase := Entered));
    } else if InsideStep(step) {
      WorkTurn(codec, w, step);
    } else if step.Crash? || step.CrashInSync? {
      WorkAbandoned(w.ops);
    }
  }

  function Turns(steps: seq<Step>): nat {
    if steps == [] then 0 else (if Progresses(steps[0]) then 1 else 0) + Turns(steps[1..])
  }

  ghost predicate Goes(codec: Codec, w: Writer, steps: seq<Step>, final: Writer)
    decreases |steps|
  {
    if steps == [] then final == w
    else Enabled(w, steps[0]) && Goes(codec, Next(codec, w, steps[0]), steps[1..], final)
  }

  ghost function Queues(codec: Codec, w: Writer, steps: seq<Step>, final: Writer): nat
    requires Goes(codec, w, steps, final)
    decreases |steps|
  {
    if steps == [] then 0
    else Calls(w, steps[0]) + Queues(codec, Next(codec, w, steps[0]), steps[1..], final)
  }

  predicate AllSettled(w: Writer) { forall i :: 0 <= i < |w.ops| ==> w.ops[i].phase.Settled? }

  /** A callback waiting for a write it called. */
  predicate Awaits(w: Writer, i: nat) {
    exists j :: 0 <= j < |w.ops| && w.ops[j].parent == Some(i) && !w.ops[j].phase.Settled?
  }

  /** The step moves an operation on, without a failure and without a callback returning before what it called. */
  predicate MovesOn(w: Writer, step: Step) {
    Enabled(w, step) && Progresses(step) && !step.Fail? && (step.Mutate? ==> !Awaits(w, step.op))
  }

  ghost predicate CanProgress(w: Writer) { exists step :: MovesOn(w, step) }

  /** Nested calls go up some ranking of the records. */
  ghost predicate Climbs(w: Writer, rank: string -> nat) {
    forall i :: 0 <= i < |w.ops| && w.ops[i].parent.Some? ==>
      w.ops[i].parent.value < |w.ops| && rank(w.ops[w.ops[i].parent.value].path) < rank(w.ops[i].path)
  }

  /** The step an operation takes next, when nothing is in its way. */
  function NextOf(w: Writer, i: nat): Step
    requires i < |w.ops| && !w.ops[i].phase.Settled?
  {
    match w.ops[i].phase
    case Waiting => Enter(i)
    case Entered => Look(i)
    case Mutating(_) => Mutate(i)
    case Writing(_, _) => FinishTemp(i)
    case Written(_, _) => Rename(i)
    case Published(_) => ReadBack(i)
  }

  /** `i` waits for `j`: the one before it on its record, or one its callback called. */
  predicate WaitsFor(w: Writer, i: nat, j: nat) {
    && i < |w.ops| && j < |w.ops| && !w.ops[j].phase.Settled?
    && ((w.ops[i].phase.Waiting? && w.ops[i].prev == Some(j)) || (w.ops[i].phase.Mutating? && w.ops[j].parent == Some(i)))
  }

  ghost predicate Held(w: Writer, i: nat) { exists j :: WaitsFor(w, i, j) }

  /** An unsettled operation that waits for none. */
  ghost predicate Free(w: Writer, i: nat) { i < |w.ops| && !w.ops[i].phase.Settled? && !Held(w, i) }

  lemma FreeMoves(codec: Codec, w: Writer, i: nat)
    requires Sound(codec, w) && i < |w.ops| && !w.ops[i].phase.Settled?
    ensures MovesOn(w, NextOf(w, i)) <==> !Held(w, i)
  {
    assert PhaseSound(codec, w.ops[i], i, w.files, w.initial, w.versions);
    assert LinkedAt(w.ops, i);
    if w.ops[i].phase.Waiting? {
      if w.ops[i].prev.Some? && !w.ops[w.ops[i].prev.value].phase.Settled? { assert WaitsFor(w, i, w.ops[i].prev.value); }
    } else if w.ops[i].phase.Mutating? && Awaits(w, i) {
      var j :| 0 <= j < |w.ops| && w.ops[j].parent == Some(i) && !w.ops[j].phase.Settled?;
      assert WaitsFor(w, i, j);
    }
  }

  lemma MoverIsNext(w: Writer, step: Step)
    requires MovesOn(w, step)
    ensures step.op < |w.ops| && !w.ops[step.op].phase.Settled? && step == NextOf(w, step.op)
  {
  }

  /** Some operation can move on if and only if some unsettled one waits for no other. */
  lemma StuckExactly(codec: Codec, w: Writer)
    requires Sound(codec, w)
    ensures CanProgress(w) <==> exists i :: Free(w, i)
  {
    if step :| MovesOn(w, step) {
      MoverIsNext(w, step);
      FreeMoves(codec, w, step.op);
      assert Free(w, step.op);
    }
    if i :| Free(w, i) { FreeMoves(codec, w, i); }
  }

  /** What an operation waits for is one it called, or earlier on its record. */
  ghost predicate WaitsBelow(w: Writer) {
    forall i: nat, j: nat :: WaitsFor(w, i, j) ==> w.ops[j].parent == Some(i) || (j < i && w.ops[j].path == w.ops[i].path)
  }

  lemma AllWaitBelow(codec: Codec, w: Writer)
    requires Sound(codec, w)
    ensures WaitsBelow(w)
  {
    forall i: nat, j: nat | WaitsFor(w, i, j)
      ensures w.ops[j].parent == Some(i) || (j < i && w.ops[j].path == w.ops[i].path)
    {
      assert LinkedAt(w.ops, i);
    }
  }

  /** Such waits lead somewhere: up the ranking, or back along a record. */
  lemma {:induction false} SomeoneFree(w: Writer, rank: string -> nat, top: nat, i: nat)
    requires WaitsBelow(w) && Climbs(w, rank)
    requires forall j :: 0 <= j < |w.ops| ==> rank(w.ops[j].path) <= top
    requires i < |w.ops| && !w.ops[i].phase.Settled?
    ensures exists j :: Free(w, j)
    decreases top - rank(w.ops[i].path), i
  {
    if j :| WaitsFor(w, i, j) {
      SomeoneFree(w, rank, top, j);
    } else {
      assert Free(w, i);
    }
  }

  lemma {:induction false} Ranked(ops: seq<Op>, rank: string -> nat) returns (top: nat)
    ensures forall j :: 0 <= j < |ops| ==> rank(ops[j].path) <= top
  {
    if ops == [] {
      top := 0;
    } else {
      var rest := Ranked(ops[1..], rank);
      top := if rest < rank(ops[0].path) then rank(ops[0].path) else rest;
      assert forall j :: 0 < j < |ops| ==> ops[j] == ops[1..][j - 1];
    }
  }

  /**
    Whatever is interleaved — calls, synchronous writes, failures of the disk, crashes — the steps
    that move operations on, and the work left, never exceed the work there was and six steps for
    each call queued since. While nested calls go up one ranking of the records and an operation is
    unsettled, some operation can move on, even if every callback waits for what it called. So each
    schedule that goes on moving settles them all.
   */
  lemma {:induction false} EveryScheduleSettles(codec: Codec, w: Writer, steps: seq<Step>, final: Writer)
    requires Sound(codec, w) && Goes(codec, w, steps, final)
    ensures Turns(steps) + Work(final.ops) <= Work(w.ops) + 6 * Queues(codec, w, steps, final)
    ensures Sound(codec, final)
    ensures forall rank: string -> nat :: Climbs(final, rank) ==> AllSettled(final) || CanProgress(final)
    decreases |steps|
  {
    if steps == [] {
      forall rank: string -> nat | Climbs(final, rank) ensures AllSettled(final) || CanProgress(final) {
        if i :| 0 <= i < |w.ops| && !w.ops[i].phase.Settled? {
          var top := Ranked(w.ops, rank);
          AllWaitBelow(codec, w);
          SomeoneFree(w, rank, top, i);
          StuckExactly(codec, w);
        }
      }
    } else {
      SoundStep(codec, w, steps[0]);
      WorkStep(codec, w, steps[0]);
      EveryScheduleSettles(codec, Next(codec, w, steps[0]), steps[1..], final);
    }
  }

  // ---- Which operations can still settle --------------------------------------------------------------------

  /** No failure, no crash, and no callback returning before what it called; anything else may happen. */
  predicate Patient(w: Writer, step: Step) {
    Enabled(w, step) && !step.Fail? && !step.Crash? && !step.CrashInSync? && (step.Mutate? ==> !Awaits(w, step.op))
  }

  ghost predicate GoesPatiently(codec: Codec, w: Writer, steps: seq<Step>, final: Writer)
    decreases |steps|
  {
    if steps == [] then final == w
    else Patient(w, steps[0]) && GoesPatiently(codec, Next(codec, w, steps[0]), steps[1..], final)
  }

  ghost predicate WaitsWithin(w: Writer, i: nat, s: set<nat>) { exists j: nat :: j in s && WaitsFor(w, i, j) }

  /** Operations each of which waits for another of them. */
  ghost predicate Deadlock(w: Writer, s: set<nat>) {
    forall i: nat :: i in s ==> i < |w.ops| && !w.ops[i].phase.Settled? && WaitsWithin(w, i, s)
  }

  /** The operation's waits lead into a deadlock. */
  ghost predicate Doomed(w: Writer, i: nat) { exists s: set<nat> :: i in s && Deadlock(w, s) }

  /** The step moves the operation itself. */
  predicate MovesIt(step: Step, i: nat) { (step.Enter? || InsideStep(step)) && step.op == i }

  lemma NotItsTurn(w: Writer, step: Step, i: nat, j: nat)
    requires Patient(w, step) && WaitsFor(w, i, j)
    ensures !MovesIt(step, i)
  {
  }

  lemma OthersRest(codec: Codec, w: Writer, step: Step, i: nat)
    requires Patient(w, step) && i < |w.ops| && !MovesIt(step, i)
    ensures |w.ops| <= |Next(codec, w, step).ops| && Next(codec, w, step).ops[i] == w.ops[i]
  {
  }

  lemma DeadlockRests(codec: Codec, w: Writer, step: Step, s: set<nat>, i: nat)
    requires Patient(w, step) && Deadlock(w, s) && i in s
    ensures i < |w.ops| <= |Next(codec, w, step).ops| && Next(codec, w, step).ops[i] == w.ops[i]
  {
    assert WaitsWithin(w, i, s);
    var j: nat :| j in s && WaitsFor(w, i, j);
    NotItsTurn(w, step, i, j);
    OthersRest(codec, w, step, i);
  }

  lemma DeadlockStep(codec: Codec, w: Writer, step: Step, s: set<nat>)
    requires Patient(w, step) && Deadlock(w, s)
    ensures Deadlock(Next(codec, w, step), s)
  {
    var w' := Next(codec, w, step);
    forall i: nat | i in s ensures i < |w'.ops| && !w'.ops[i].phase.Settled? && WaitsWithin(w', i, s) {
      DeadlockRests(codec, w, step, s, i);
      var j: nat :| j in s && WaitsFor(w, i, j);
      DeadlockRests(codec, w, step, s, j);
      assert WaitsFor(w', i, j);
    }
  }

  /** Whatever happens patiently, a deadlock stays as it is. */
  lemma {:induction false} DeadlockStays(codec: Codec, w: Writer, steps: seq<Step>, final: Writer, s: set<nat>)
    requires GoesPatiently(codec, w, steps, final) && Deadlock(w, s)
    ensures Deadlock(final, s)
    ensures forall i: nat :: i in s ==> i < |w.ops| <= |final.ops| && final.ops[i] == w.ops[i]
    decreases |steps|
  {
    if steps != [] {
      var w' := Next(codec, w, steps[0]);
      DeadlockStep(codec, w, steps[0], s);
      DeadlockStays(codec, w', steps[1..], final, s);
      forall i: nat | i in s ensures i < |w.ops| <= |final.ops| && final.ops[i] == w.ops[i] {
        DeadlockRests(codec, w, steps[0], s, i);
      }
    }
  }

  ghost predicate StayIn(w: Writer, later: Writer, s: set<nat>) {
    forall i: nat :: i in s ==> i < |w.ops| <= |later.ops| && later.ops[i] == w.ops[i] && !later.ops[i].phase.Settled?
  }

  lemma DeadlockForever(codec: Codec, w: Writer, s: set<nat>)
    requires Deadlock(w, s)
    ensures forall steps: seq<Step>, later: Writer :: GoesPatiently(codec, w, steps, later) ==> StayIn(w, later, s)
  {
    forall steps: seq<Step>, later: Writer | GoesPatiently(codec, w, steps, later) ensures StayIn(w, later, s) {
      DeadlockStays(codec, w, steps, later, s);
    }
  }

  /** An operation was called from inside another only once that one was past its first look. */
  predicate Begun(phase: Phase) { !phase.Waiting? && !phase.Entered? }

  ghost predicate ParentsBegun(w: Writer) {
    forall i :: 0 <= i < |w.ops| && w.ops[i].parent.Some? && !w.ops[i].phase.Settled? ==>
      w.ops[i].parent.value < |w.ops| && Begun(w.ops[w.ops[i].parent.value].phase)
  }

  /** An operation stays begun, and keeps its caller. */
  predicate Ages(op: Op, op': Op) {
    op'.parent == op.parent && (Begun(op.phase) ==> Begun(op'.phase)) && (op.phase.Settled? ==> op'.phase.Settled?)
  }

  lemma AllAge(codec: Codec, w: Writer, step: Step, i: nat)
    requires Enabled(w, step) && i < |w.ops|
    ensures i < |Next(codec, w, step).ops| && Ages(w.ops[i], Next(codec, w, step).ops[i])
  {
    if InsideStep(step) { StaysBegun(codec, w, step); }
  }

  lemma NewCall(codec: Codec, w: Writer, step: Step)
    requires Enabled(w, step)
    ensures var ops' := Next(codec, w, step).ops;
      |ops'| == |w.ops| || (step.Call? && |ops'| == |w.ops| + 1 && ops'[|w.ops|].parent == step.parent)
  {
  }

  /** That is so as long as calls come from inside sections under way, or after them. */
  lemma ParentsBegunStep(codec: Codec, w: Writer, step: Step)
    requires Enabled(w, step) && ParentsBegun(w)
    requires step.Call? && step.parent.Some? ==> Begun(w.ops[step.parent.value].phase)
    ensures ParentsBegun(Next(codec, w, step))
  {
    NewCall(codec, w, step);
    forall i: nat | i < |w.ops| ensures Ages(w.ops[i], Next(codec, w, step).ops[i]) { AllAge(codec, w, step, i); }
    AgedBegun(w, Next(codec, w, step), step);
  }

  lemma AgedBegun(w: Writer, w': Writer, step: Step)
    requires ParentsBegun(w) && |w.ops| <= |w'.ops| && forall i: nat :: i < |w.ops| ==> Ages(w.ops[i], w'.ops[i])
    requires |w'.ops| == |w.ops|
      || (step.Call? && |w'.ops| == |w.ops| + 1 && w'.ops[|w.ops|].parent == step.parent
          && (step.parent.Some? ==> step.parent.value < |w.ops| && Begun(w.ops[step.parent.value].phase)))
    ensures ParentsBegun(w')
  {
  }

  lemma StaysBegun(codec: Codec, w: Writer, step: Step)
    requires Enabled(w, step) && InsideStep(step)
    ensures Begun(Taken(codec, w, step).phase)
  {
  }

  /** Only operations whose waits lead nowhere can be waited out. */
  lemma SomeFree(w: Writer, i: nat)
    requires i < |w.ops| && !w.ops[i].phase.Settled? && !Doomed(w, i)
    ensures exists f :: Free(w, f)
  {
    if forall f :: !Free(w, f) {
      var s: set<nat> := set j: nat | j < |w.ops| && !w.ops[j].phase.Settled?;
      forall k: nat | k in s ensures k < |w.ops| && !w.ops[k].phase.Settled? && WaitsWithin(w, k, s) {
        assert !Free(w, k);
        var j: nat :| WaitsFor(w, k, j);
        assert j in s;
      }
      assert Deadlock(w, s) && i in s;
    }
  }

  lemma DeadlockBefore(codec: Codec, w: Writer, f: nat, s: set<nat>)
    requires ParentsBegun(w) && Free(w, f) && MovesOn(w, NextOf(w, f))
    requires Deadlock(Next(codec, w, NextOf(w, f)), s)
    ensures Deadlock(w, s)
  {
    FreeStaysFree(codec, w, f, s);
    forall k: nat | k in s ensures k < |w.ops| && !w.ops[k].phase.Settled? && WaitsWithin(w, k, s) {
      WaitedBefore(codec, w, f, s, k);
    }
  }

  /** A free operation's step brings no other into a deadlock. */
  lemma NotDoomedStep(codec: Codec, w: Writer, f: nat, i: nat)
    requires ParentsBegun(w) && Free(w, f) && MovesOn(w, NextOf(w, f))
    requires i < |w.ops| && !Doomed(w, i)
    ensures !Doomed(Next(codec, w, NextOf(w, f)), i)
  {
    forall s: set<nat> | i in s ensures !Deadlock(Next(codec, w, NextOf(w, f)), s) {
      if Deadlock(Next(codec, w, NextOf(w, f)), s) { DeadlockBefore(codec, w, f, s); }
    }
  }

  lemma WaitedBefore(codec: Codec, w: Writer, f: nat, s: set<nat>, k: nat)
    requires f < |w.ops| && !w.ops[f].phase.Settled? && MovesOn(w, NextOf(w, f))
    requires Deadlock(Next(codec, w, NextOf(w, f)), s) && f !in s && k in s
    ensures k < |w.ops| && !w.ops[k].phase.Settled? && WaitsWithin(w, k, s)
  {
    var w' := Next(codec, w, NextOf(w, f));
    assert WaitsWithin(w', k, s);
    var j: nat :| j in s && WaitsFor(w', k, j);
    OthersSame(codec, w, f, k);
    OthersSame(codec, w, f, j);
    assert WaitsFor(w, k, j);
  }

  lemma OthersSame(codec: Codec, w: Writer, f: nat, k: nat)
    requires f < |w.ops| && !w.ops[f].phase.Settled? && MovesOn(w, NextOf(w, f)) && k != f
    ensures |Next(codec, w, NextOf(w, f)).ops| == |w.ops|
    ensures k < |w.ops| ==> Next(codec, w, NextOf(w, f)).ops[k] == w.ops[k]
  {
  }

  lemma FreeStaysFree(codec: Codec, w: Writer, f: nat, s: set<nat>)
    requires ParentsBegun(w) && Free(w, f) && MovesOn(w, NextOf(w, f))
    requires Deadlock(Next(codec, w, NextOf(w, f)), s)
    ensures f !in s
  {
    if f in s {
      assert WaitsWithin(Next(codec, w, NextOf(w, f)), f, s);
      var j: nat :| j in s && WaitsFor(Next(codec, w, NextOf(w, f)), f, j);
      WaitsForNone(codec, w, f, j);
    }
  }

  lemma WaitsForNone(codec: Codec, w: Writer, f: nat, j: nat)
    requires ParentsBegun(w) && Free(w, f) && MovesOn(w, NextOf(w, f))
    ensures !WaitsFor(Next(codec, w, NextOf(w, f)), f, j)
  {
    if WaitsFor(Next(codec, w, NextOf(w, f)), f, j) {
      OthersSame(codec, w, f, j);
      NoLongerWaiting(codec, w, f);
    }
  }

  /** After its step an operation waits for none before it, and is in its callback only if it has just looked. */
  lemma NoLongerWaiting(codec: Codec, w: Writer, f: nat)
    requires f < |w.ops| && !w.ops[f].phase.Settled? && MovesOn(w, NextOf(w, f))
    ensures var op' := Next(codec, w, NextOf(w, f)).ops[f];
      !op'.phase.Waiting? && (op'.phase.Mutating? ==> w.ops[f].phase.Entered?) && op'.parent == w.ops[f].parent
  {
    if InsideStep(NextOf(w, f)) { TurnTaken(codec, w, NextOf(w, f)); }
  }

  lemma TurnTaken(codec: Codec, w: Writer, step: Step)
    requires Enabled(w, step) && InsideStep(step)
    ensures var phase := Taken(codec, w, step).phase; !phase.Waiting? && (phase.Mutating? ==> step.Look?)
    ensures Next(codec, w, step).ops[step.op] == w.ops[step.op].(phase := Taken(codec, w, step).phase)
  {
  }

  /** One step on, with all that the next needs. */
  lemma FreeStep(codec: Codec, w: Writer, i: nat) returns (step: Step)
    requires Sound(codec, w) && ParentsBegun(w)
    requires i < |w.ops| && !w.ops[i].phase.Settled? && !Doomed(w, i)
    ensures Patient(w, step)
    ensures var w' := Next(codec, w, step);
      Sound(codec, w') && ParentsBegun(w') && i < |w'.ops| && !Doomed(w', i) && Work(w'.ops) < Work(w.ops)
  {
    SomeFree(w, i);
    var f: nat :| Free(w, f);
    FreeMoves(codec, w, f);
    step := NextOf(w, f);
    SoundStep(codec, w, step);
    WorkStep(codec, w, step);
    NotDoomedStep(codec, w, f, i);
    ParentsBegunStep(codec, w, step);
    OthersSame(codec, w, f, |w.ops|);
  }

  lemma {:induction false} CanSettle(codec: Codec, w: Writer, i: nat) returns (steps: seq<Step>, final: Writer)
    requires Sound(codec, w) && ParentsBegun(w)
    requires i < |w.ops| && !w.ops[i].phase.Settled? && !Doomed(w, i)
    ensures GoesPatiently(codec, w, steps, final) && i < |final.ops| && final.ops[i].phase.Settled?
    decreases Work(w.ops)
  {
    var step := FreeStep(codec, w, i);
    var w' := Next(codec, w, step);
    steps, final := [], w';
    if !w'.ops[i].phase.Settled? {
      steps, final := CanSettle(codec, w', i);
    }
    Patiently(codec, w, step, steps, final);
    steps := [step] + steps;
  }

  lemma Patiently(codec: Codec, w: Writer, step: Step, steps: seq<Step>, final: Writer)
    requires Patient(w, step) && GoesPatiently(codec, Next(codec, w, step), steps, final)
    ensures GoesPatiently(codec, w, [step] + steps, final)
  {
    assert ([step] + steps)[1..] == steps;
  }

  /** With patience the operation can still come to settle. */
  ghost predicate Settles(codec: Codec, w: Writer, i: nat) {
    exists steps: seq<Step>, final: Writer ::
      GoesPatiently(codec, w, steps, final) && i < |final.ops| && final.ops[i].phase.Settled?
  }

  /** That is so if and only if its waits lead into no deadlock. */
  lemma SettlesExactly(codec: Codec, w: Writer, i: nat)
    requires Sound(codec, w) && ParentsBegun(w) && i < |w.ops| && !w.ops[i].phase.Settled?
    ensures Settles(codec, w, i) <==> !Doomed(w, i)
  {
    if Doomed(w, i) {
      DoomedNever(codec, w, i);
    } else {
      var steps, final := CanSettle(codec, w, i);
      assert GoesPatiently(codec, w, steps, final);
    }
  }

  lemma DoomedNever(codec: Codec, w: Writer, i: nat)
    requires Doomed(w, i)
    ensures !Settles(codec, w, i)
  {
    var s: set<nat> :| i in s && Deadlock(w, s);
    forall steps: seq<Step>, final: Writer | GoesPatiently(codec, w, steps, final)
      ensures i < |final.ops| && !final.ops[i].phase.Settled?
    {
      DeadlockStays(codec, w, steps, final, s);
    }
  }

  const AS_IT_IS: Request := Update((v: Json) => Some(v))

  lemma Then(codec: Codec, w: Writer, step: Step, steps: seq<Step>, final: Writer)
    requires Enabled(w, step) && Goes(codec, Next(codec, w, step), steps, final)
    ensures Goes(codec, w, [step] + steps, final)
  {
    assert ([step] + steps)[1..] == steps;
  }

  /** A writer of an empty store with these operations under way. */
  function During(ops: seq<Op>, tails: map<string, nat>, active: set<string>): Writer {
    Writer(map[], 0, ops, tails, active, map[], [])
  }

  function OnA(phase: Phase): Op { Op("a", AS_IT_IS, None, {"a"}, None, phase) }

  function OnB(phase: Phase): Op { Op("b", AS_IT_IS, None, {"b"}, None, phase) }

  const TO_B: Op := Op("b", AS_IT_IS, Some(0), {"a", "b"}, Some(1), Waiting)
  const TO_A: Op := Op("a", AS_IT_IS, Some(1), {"b", "a"}, Some(0), Waiting)

  const BOTH: Writer := During([OnA(Mutating(Null)), OnB(Mutating(Null))], map["a" := 0, "b" := 1], {"a", "b"})
  const CROSSED: Writer :=
    During([OnA(Mutating(Null)), OnB(Mutating(Null)), TO_B, TO_A], map["a" := 3, "b" := 2], {"a", "b"})

  lemma FirstIsCalled(codec: Codec)
    ensures Next(codec, Boot(map[]), Call(None, "a", AS_IT_IS)) == During([OnA(Waiting)], map["a" := 0], {})
  {
    var none: set<string> := {};
    assert none + {"a"} == {"a"};
    assert Boot(map[]) == During([], map[], {});
    assert Next(codec, During([], map[], {}), Call(None, "a", AS_IT_IS)).ops == [OnA(Waiting)];
  }

  lemma FirstEnters(codec: Codec)
    ensures Goes(codec, During([OnA(Waiting)], map["a" := 0], {}), [Enter(0), Look(0)],
                 During([OnA(Mutating(Null))], map["a" := 0], {"a"}))
  {
    var called, entered := During([OnA(Waiting)], map["a" := 0], {}), During([OnA(Entered)], map["a" := 0], {"a"});
    var looked := During([OnA(Mutating(Null))], map["a" := 0], {"a"});
    assert Next(codec, called, Enter(0)) == entered;
    assert Next(codec, entered, Look(0)) == looked;
    Then(codec, entered, Look(0), [], looked);
    Then(codec, called, Enter(0), [Look(0)], looked);
    assert [Enter(0)] + [Look(0)] == [Enter(0), Look(0)];
  }

  lemma FirstIsIn(codec: Codec)
    ensures Goes(codec, Boot(map[]), [Call(None, "a", AS_IT_IS)] + [Enter(0), Look(0)],
                 During([OnA(Mutating(Null))], map["a" := 0], {"a"}))
  {
    FirstIsCalled(codec);
    FirstEnters(codec);
    Then(codec, Boot(map[]), Call(None, "a", AS_IT_IS), [Enter(0), Look(0)],
         During([OnA(Mutating(Null))], map["a" := 0], {"a"}));
  }

  lemma SecondIsIn(codec: Codec)
    ensures Goes(codec, During([OnA(Mutating(Null))], map["a" := 0], {"a"}),
                 [Call(None, "b", AS_IT_IS), Enter(1), Look(1)], BOTH)
  {
    var before := During([OnA(Mutating(Null))], map["a" := 0], {"a"});
    var called := During([OnA(Mutating(Null)), OnB(Waiting)], map["a" := 0, "b" := 1], {"a"});
    var entered := During([OnA(Mutating(Null)), OnB(Entered)], map["a" := 0, "b" := 1], {"a", "b"});
    var none: set<string> := {};
    assert none + {"b"} == {"b"};
    assert Next(codec, before, Call(None, "b", AS_IT_IS)).ops == called.ops;
    assert Next(codec, before, Call(None, "b", AS_IT_IS)) == called;
    assert Next(codec, called, Enter(1)) == entered;
    assert Next(codec, entered, Look(1)) == BOTH;
    Then(codec, entered, Look(1), [], BOTH);
    Then(codec, called, Enter(1), [Look(1)], BOTH);
    Then(codec, before, Call(None, "b", AS_IT_IS), [Enter(1)] + [Look(1)], BOTH);
    assert [Call(None, "b", AS_IT_IS)] + ([Enter(1)] + [Look(1)]) == [Call(None, "b", AS_IT_IS), Enter(1), Look(1)];
  }

  lemma EachCallsTheOther(codec: Codec)
    ensures Goes(codec, BOTH, [Call(Some(0), "b", AS_IT_IS), Call(Some(1), "a", AS_IT_IS)], CROSSED)
  {
    var first, second := Call(Some(0), "b", AS_IT_IS), Call(Some(1), "a", AS_IT_IS);
    var one := During([OnA(Mutating(Null)), OnB(Mutating(Null)), TO_B], map["a" := 0, "b" := 2], {"a", "b"});
    assert {"a"} + {"b"} == {"a", "b"} && {"b"} + {"a"} == {"b", "a"};
    assert Next(codec, BOTH, first).ops == one.ops;
    assert Next(codec, one, second).ops == CROSSED.ops;
    assert Next(codec, BOTH, first) == one;
    assert Next(codec, one, second) == CROSSED;
    Then(codec, one, second, [], CROSSED);
    Then(codec, BOTH, first, [second], CROSSED);
    assert [first] + [second] == [first, second];
  }

  lemma {:induction false} GoesOn(codec: Codec, w: Writer, a: seq<Step>, mid: Writer, b: seq<Step>, final: Writer)
    requires Goes(codec, w, a, mid) && Goes(codec, mid, b, final)
    ensures Goes(codec, w, a + b, final)
    decreases |a|
  {
    if a == [] {
      assert a + b == b;
    } else {
      assert (a + b)[0] == a[0] && (a + b)[1..] == a[1..] + b;
      GoesOn(codec, Next(codec, w, a[0]), a[1..], mid, b, final);
    }
  }

  lemma AllWait()
    ensures Deadlock(CROSSED, {0, 1, 2, 3})
  {
    assert CROSSED.ops[0] == OnA(Mutating(Null)) && CROSSED.ops[1] == OnB(Mutating(Null));
    assert CROSSED.ops[2] == TO_B && CROSSED.ops[3] == TO_A;
    assert WaitsFor(CROSSED, 0, 2) && WaitsFor(CROSSED, 1, 3) && WaitsFor(CROSSED, 2, 1) && WaitsFor(CROSSED, 3, 0);
    assert WaitsWithin(CROSSED, 0, {0, 1, 2, 3}) && WaitsWithin(CROSSED, 1, {0, 1, 2, 3});
    assert WaitsWithin(CROSSED, 2, {0, 1, 2, 3}) && WaitsWithin(CROSSED, 3, {0, 1, 2, 3});
  }

  /**
    Two updates whose callbacks each write the other's record and wait for it: whatever happens
    after that, short of a failure, a crash or a callback that does not wait, neither they nor
    the writes they called ever move again.
   */
  lemma CrossedCallsStick(codec: Codec)
    ensures Goes(codec, Boot(map[]),
                 [Call(None, "a", AS_IT_IS)] + [Enter(0), Look(0)] + [Call(None, "b", AS_IT_IS), Enter(1), Look(1)]
                 + [Call(Some(0), "b", AS_IT_IS), Call(Some(1), "a", AS_IT_IS)], CROSSED)
    ensures |CROSSED.ops| == 4
    ensures forall steps: seq<Step>, later: Writer ::
      GoesPatiently(codec, CROSSED, steps, later) ==> StayIn(CROSSED, later, {0, 1, 2, 3})
  {
    var first, second := [Call(None, "a", AS_IT_IS)] + [Enter(0), Look(0)], [Call(None, "b", AS_IT_IS), Enter(1), Look(1)];
    FirstIsIn(codec);
    SecondIsIn(codec);
    GoesOn(codec, Boot(map[]), first, During([OnA(Mutating(Null))], map["a" := 0], {"a"}), second, BOTH);
    EachCallsTheOther(codec);
    GoesOn(codec, Boot(map[]), first + second, BOTH, [Call(Some(0), "b", AS_IT_IS), Call(Some(1), "a", AS_IT_IS)], CROSSED);
    AllWait();
    DeadlockForever(codec, CROSSED, {0, 1, 2, 3});
  }

  // ---- The names of temporary files ----------------------------------------------------------------------

  predicate Drafts(op: Op) { op.phase.Writing? || op.phase.Written? }

  /** Every temporary file, left behind or being written, has a name handed out before, and no two operations share one. */
  ghost predicate NamesDistinct(w: Writer) {
    && (forall p: string, n: nat :: Temp(p, n) in w.files ==> n < w.nonce)
    && (forall i :: 0 <= i < |w.ops| && Drafts(w.ops[i]) ==> w.ops[i].phase.nonce < w.nonce)
    && (forall i, j :: 0 <= i < j < |w.ops| && Drafts(w.ops[i]) && Drafts(w.ops[j]) ==>
          w.ops[i].phase.nonce != w.ops[j].phase.nonce)
  }

  /** The turn drafts under the name it had, or under the next one. */
  lemma TurnNames(codec: Codec, w: Writer, step: Step)
    requires Enabled(w, step) && InsideStep(step) && NamesDistinct(w)
    ensures var t := Taken(codec, w, step); var op := w.ops[step.op];
      && w.nonce <= t.nonce
      && (forall p: string, n: nat :: Temp(p, n) in t.files ==> n < t.nonce)
      && (t.phase.Writing? || t.phase.Written? ==>
            t.phase.nonce < t.nonce
            && (t.phase.nonce == w.nonce || (Drafts(op) && t.phase.nonce == op.phase.nonce)))
  {
  }

  lemma AdvanceNames(w: Writer, i: nat, t: Turn)
    requires i < |w.ops| && NamesDistinct(w) && w.nonce <= t.nonce
    requires forall p: string, n: nat :: Temp(p, n) in t.files ==> n < t.nonce
    requires t.phase.Writing? || t.phase.Written? ==>
      t.phase.nonce < t.nonce
      && (t.phase.nonce == w.nonce || (Drafts(w.ops[i]) && t.phase.nonce == w.ops[i].phase.nonce))
    ensures NamesDistinct(Advance(w, i, t))
  {
  }

  lemma NamesLost(w: Writer)
    requires NamesDistinct(w)
    ensures NamesDistinct(Restarted(w))
  {
  }

  lemma NamesInSync(codec: Codec, w: Writer, step: Step)
    requires Enabled(w, step) && NamesDistinct(w) && (step.SyncWrite? || step.SyncFail? || step.CrashInSync?)
    ensures NamesDistinct(Next(codec, w, step))
  {
    if step.CrashInSync? { NamesLost(w); }
  }

  lemma NamesStep(codec: Codec, w: Writer, step: Step)
    requires Enabled(w, step) && NamesDistinct(w)
    ensures NamesDistinct(Next(codec, w, step))
  {
    if InsideStep(step) {
      TurnNames(codec, w, step);
      AdvanceNames(w, step.op, Taken(codec, w, step));
    } else if step.SyncWrite? || step.SyncFail? || step.CrashInSync? {
      NamesInSync(codec, w, step);
    } else if step.Crash? {
      NamesLost(w);
    }
  }

  /** In every run, over every crash, temporary names are never shared and never come again. */
  lemma {:induction false} NamesAlwaysDistinct(codec: Codec, records: map<string, string>, steps: seq<Step>)
    requires Happens(codec, records, steps)
    ensures NamesDistinct(Reached(codec, records, steps))
    decreases |steps|
  {
    if steps != [] {
      var n := |steps| - 1;
      NamesAlwaysDistinct(codec, records, steps[..n]);
      NamesStep(codec, Reached(codec, records, steps[..n]), steps[n]);
    }
  }
}
