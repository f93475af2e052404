/** What every reachable state of the commit protocol satisfies. */
module CommitLaws {
  import opened Prelude
  import opened Json
  import opened Commit

  // ---- One critical section per path, in call order ------------------------------------------------

  /** Past the queue, every earlier operation on the same record has settled. */
  ghost predicate InOrder(ops: seq<Op>) {
    forall i, j :: 0 <= i < j < |ops| && ops[i].path == ops[j].path && !ops[j].phase.Waiting? ==> ops[i].phase.Settled?
  }

  /** `prev` is the operation just before on the same record, or none that has not settled. */
  ghost predicate Linked(ops: seq<Op>) {
    forall j :: 0 <= j < |ops| ==> LinkedAt(ops, j)
  }

  ghost predicate LinkedAt(ops: seq<Op>, j: nat)
    requires j < |ops|
  {
    match ops[j].prev
    case None => forall i :: 0 <= i < j && ops[i].path == ops[j].path ==> ops[i].phase.Settled?
    case Some(p) =>
      && p < j && ops[p].path == ops[j].path
      && forall i :: p < i < j ==> ops[i].path != ops[j].path || ops[i].phase.Settled?
  }

  ghost predicate LastOn(ops: seq<Op>, path: string, i: nat) {
    i < |ops| && ops[i].path == path && forall j :: i < j < |ops| ==> ops[j].path != path
  }

  ghost predicate TailsSound(ops: seq<Op>, tails: map<string, nat>) {
    && (forall p :: p in tails ==> LastOn(ops, p, tails[p]))
    && (forall i :: 0 <= i < |ops| && ops[i].path !in tails ==> ops[i].phase.Settled?)
  }

  ghost predicate Owns(ops: seq<Op>, path: string) {
    exists i :: 0 <= i < |ops| && ops[i].path == path && InSection(ops[i])
  }

  ghost predicate ActiveExact(ops: seq<Op>, active: set<string>) {
    forall p :: p in active <==> Owns(ops, p)
  }

  ghost predicate Queued(w: Writer) {
    InOrder(w.ops) && Linked(w.ops) && TailsSound(w.ops, w.tails) && ActiveExact(w.ops, w.active)
  }

  /** At most one operation per record is inside its critical section. */
  lemma Exclusive(w: Writer, i: nat, j: nat)
    requires Queued(w) && i < |w.ops| && j < |w.ops|
    requires InSection(w.ops[i]) && InSection(w.ops[j]) && w.ops[i].path == w.ops[j].path
    ensures i == j
  {
  }

  lemma TurnIsFirst(ops: seq<Op>, i: nat)
    requires InOrder(ops) && Linked(ops) && i < |ops| && ops[i].phase.Waiting?
    requires ops[i].prev.Some? ==> ops[i].prev.value < |ops| && ops[ops[i].prev.value].phase.Settled?
    ensures forall k :: 0 <= k < i && ops[k].path == ops[i].path ==> ops[k].phase.Settled?
  {
    assert LinkedAt(ops, i);
  }

  /** Moving one operation forward keeps the queue, if it was its turn. */
  lemma QueuedMove(ops: seq<Op>, tails: map<string, nat>, active: set<string>, i: nat, phase: Phase)
    requires InOrder(ops) && Linked(ops) && TailsSound(ops, tails) && ActiveExact(ops, active)
    requires i < |ops| && !ops[i].phase.Settled? && !phase.Waiting?
    requires forall k :: 0 <= k < i && ops[k].path == ops[i].path ==> ops[k].phase.Settled?
    ensures var ops' := ops[i := ops[i].(phase := phase)];
      && InOrder(ops') && Linked(ops') && TailsSound(ops', tails)
      && ActiveExact(ops', if phase.Settled? then active - {ops[i].path} else active + {ops[i].path})
  {
    var ops' := ops[i := ops[i].(phase := phase)];
    forall j | 0 <= j < |ops'| ensures LinkedAt(ops', j) { assert LinkedAt(ops, j); }
    var path := ops[i].path;
    forall p ensures p in (if phase.Settled? then active - {path} else active + {path}) <==> Owns(ops', p) {
      if p != path {
        if Owns(ops, p) {
          var k :| 0 <= k < |ops| && ops[k].path == p && InSection(ops[k]);
          assert ops'[k].path == p && InSection(ops'[k]);
        }
        if Owns(ops', p) {
          var k :| 0 <= k < |ops'| && ops'[k].path == p && InSection(ops'[k]);
          assert ops[k].path == p && InSection(ops[k]);
        }
      } else if phase.Settled? {
        forall k | 0 <= k < |ops'| && ops'[k].path == p ensures !InSection(ops'[k]) {}
      } else {
        assert ops'[i].path == p && InSection(ops'[i]);
      }
    }
  }

  lemma QueuedCall(w: Writer, op: Op)
    requires Queued(w) && op.phase.Waiting?
    requires op.prev == if op.path in w.tails then Some(w.tails[op.path]) else None
    ensures InOrder(w.ops + [op]) && Linked(w.ops + [op])
    ensures TailsSound(w.ops + [op], w.tails[op.path := |w.ops|]) && ActiveExact(w.ops + [op], w.active)
  {
    var ops' := w.ops + [op];
    forall j | 0 <= j < |ops'| ensures LinkedAt(ops', j) {
      if j < |w.ops| { assert LinkedAt(w.ops, j); }
    }
    forall p ensures p in w.active <==> Owns(ops', p) {
      if Owns(w.ops, p) {
        var k :| 0 <= k < |w.ops| && w.ops[k].path == p && InSection(w.ops[k]);
        assert ops'[k].path == p && InSection(ops'[k]);
      }
      if Owns(ops', p) {
        var k :| 0 <= k < |ops'| && ops'[k].path == p && InSection(ops'[k]);
        assert k < |w.ops| && w.ops[k] == ops'[k];
      }
    }
  }

  lemma QueuedCrash(w: Writer)
    requires Queued(w)
    ensures Queued(Restarted(w))
  {
    var ops' := Abandoned(w.ops);
    forall j | 0 <= j < |ops'| ensures LinkedAt(ops', j) { assert LinkedAt(w.ops, j); }
  }

  lemma QueuedStep(codec: Codec, w: Writer, step: Step)
    requires Enabled(w, step) && Queued(w)
    ensures Queued(Next(codec, w, step))
  {
    match step
    case Call(parent, path, request) =>
      if path !in HeldBy(w, parent) {
        var prev := if path in w.tails then Some(w.tails[path]) else None;
        QueuedCall(w, Op(path, request, parent, HeldBy(w, parent) + {path}, prev, Waiting));
      }
    case Cleanup(path) =>
      var tail := w.tails[path];
      assert forall i :: 0 <= i < tail && w.ops[i].path == path ==> w.ops[i].phase.Settled?;
    case Enter(i) =>
      TurnIsFirst(w.ops, i);
      QueuedMove(w.ops, w.tails, w.active, i, Entered);
    case SyncWrite(_, _) =>
    case SyncFail(_) =>
    case Crash => QueuedCrash(w);
    case CrashInSync(_, _, _) => QueuedCrash(w);
    case _ => QueuedInside(codec, w, step);
  }

  lemma TakenPhase(codec: Codec, w: Writer, step: Step)
    requires Enabled(w, step) && InsideStep(step)
    ensures InSection(w.ops[step.op]) && !Taken(codec, w, step).phase.Waiting?
  {
  }

  /** A step of an operation inside its section. */
  lemma QueuedInside(codec: Codec, w: Writer, step: Step)
    requires Enabled(w, step) && InsideStep(step) && Queued(w)
    ensures Queued(Next(codec, w, step))
  {
    TakenPhase(codec, w, step);
    var i, t := step.op, Taken(codec, w, step);
    assert Owns(w.ops, w.ops[i].path);
    assert w.active + {w.ops[i].path} == w.active;
    QueuedMove(w.ops, w.tails, w.active, i, t.phase);
    assert Next(codec, w, step) == Advance(w, i, t);
  }
}
