/** What the invariant of the Run engine means to its callers. */
module RunEngineTheorems {
  import opened Prelude
  import opened RunRecords
  import opened Timeline
  import opened TimelineLaws
  import opened RunStories
  import opened RunEngine
  import opened RunRecordsKept
  import opened RunEngineLaws

  // ---- Status, log and timeline ----------------------------------------------------------------

  /** What the log of a Run lacks after the moves: the events a dying process never appended. */
  ghost function OwedTo<I>(m: ShellModule<I>, moves: seq<Move<I>>, r: string): Log
    requires Happens(m, moves)
  {
    if r in Histories(m, moves) then Tell(Histories(m, moves)[r]).owed else []
  }

  /** The Run's own record, with what its log lacks. */
  ghost function RecordOf<I>(m: ShellModule<I>, moves: seq<Move<I>>, r: string): Record
    requires Happens(m, moves) && Recordable(Reached(m, moves).disk, r)
  {
    Record(Reached(m, moves).disk[r], OwedTo(m, moves, r))
  }

  /** It is where the Run's own history leads. */
  lemma RecordTold<I>(m: ShellModule<I>, moves: seq<Move<I>>, r: string)
    requires Happens(m, moves) && Recordable(Reached(m, moves).disk, r)
    ensures r in Histories(m, moves) && Tell(Histories(m, moves)[r]) == RecordOf(m, moves, r)
    ensures Histories(m, moves)[r].id == r
  {
    HistoriesTell(m, moves);
    assert ToldOn(Histories(m, moves), Reached(m, moves).disk, r);
  }

  // ---- The log lags by at most one move -----------------------------------------------------------

  /** The process died inside this write of the Run, and `owed` is what its log never received of it. */
  ghost predicate CutIn(disk: Disk, w: Write, at: int, k: nat, r: string, owed: Log) {
    match w
    case Make(id, _) => id == r && k > 0 && owed == [CreatedEvent(at)]
    case Do(id, op) =>
      id == r && r in disk && Possible(disk[r], Interrupted(op, at, k)) && owed == Emitted(disk[r], op, at)[k..]
    case Remove(_) => false
  }

  ghost predicate CutShort<I>(e: Engine<I>, m: ShellModule<I>, move: Move<I>, r: string, owed: Log) {
    && CanMove(e, m, move) && move.Dies?
    && var ws := WritesOf(e, m, move.step);
       move.n < |ws| && CutIn(PlayWrites(e.disk, ws[..move.n], move.at), ws[move.n], move.at, move.k, r, owed)
  }

  /** Move `n` was cut short inside a write of the Run, and its log has lacked exactly that ever since. */
  ghost predicate LackingSince<I>(m: ShellModule<I>, moves: seq<Move<I>>, n: nat, r: string, owed: Log)
    requires Happens(m, moves)
    decreases |moves|
  {
    && n < |moves| && OwedTo(m, moves, r) == owed
    && var earlier := moves[..|moves| - 1];
       if n == |moves| - 1 then CutShort(Reached(m, earlier), m, moves[n], r, owed)
       else LackingSince(m, earlier, n, r, owed)
  }

  ghost function DebtIn(c: Chronicle, r: string): Log { if r in c then Tell(c[r]).owed else [] }

  /** A write that completes leaves a debt as it was, or clears it. */
  lemma {:induction false} WritesIncurNone(c: Chronicle, ws: seq<Write>, at: int, r: string)
    ensures DebtIn(NoteWrites(c, ws, at), r) in {[], DebtIn(c, r)}
    decreases |ws|
  {
    if ws != [] { WritesIncurNone(NoteWrite(c, ws[0], at), ws[1..], at, r); }
  }

  lemma PartIncurs(c: Chronicle, disk: Disk, w: Write, at: int, k: nat, r: string)
    requires Tells(c, disk)
    ensures var owed := DebtIn(NotePart(c, w, at, k), r);
      owed == [] || owed == DebtIn(c, r) || CutIn(disk, w, at, k, r, owed)
  {
    assert ToldOn(c, disk, r);
  }

  lemma MoveIncurs<I>(e: Engine<I>, c: Chronicle, m: ShellModule<I>, move: Move<I>, r: string)
    requires CanMove(e, m, move) && Tells(c, e.disk)
    ensures var owed := DebtIn(NoteMove(e, c, m, move), r);
      owed == [] || owed == DebtIn(c, r) || CutShort(e, m, move, r, owed)
  {
    var ws := WritesOf(e, m, move.step);
    if move.Lives? {
      WritesIncurNone(c, ws, move.at, r);
    } else {
      WritesIncurNone(c, ws[..move.n], move.at, r);
      WritesTold(c, e.disk, ws[..move.n], move.at);
      if move.n < |ws| {
        PartIncurs(NoteWrites(c, ws[..move.n], move.at), PlayWrites(e.disk, ws[..move.n], move.at), ws[move.n], move.at, move.k, r);
      }
    }
  }

  /** Whatever a log lacks, it has lacked since one move in which the process died inside a write of that Run. */
  lemma {:induction false} LagIsOneMove<I>(m: ShellModule<I>, moves: seq<Move<I>>, r: string)
    requires Happens(m, moves) && OwedTo(m, moves, r) != []
    ensures exists n: nat :: LackingSince(m, moves, n, r, OwedTo(m, moves, r))
    decreases |moves|
  {
    var n := |moves| - 1;
    var owed := OwedTo(m, moves, r);
    HistoriesTell(m, moves[..n]);
    MoveIncurs(Reached(m, moves[..n]), Histories(m, moves[..n]), m, moves[n], r);
    if OwedTo(m, moves[..n], r) == owed {
      LagIsOneMove(m, moves[..n], r);
      var i: nat :| LackingSince(m, moves[..n], i, r, owed);
      assert i < |moves[..n]|;
      assert LackingSince(m, moves, i, r, owed);
    } else {
      assert LackingSince(m, moves, n, r, owed);
    }
  }

  // ---- Agreement ---------------------------------------------------------------------------------------

  /** `owed` is what one interrupted transition, or the creation, did not append, and no transition followed it. */
  ghost predicate OneTransitionShort(s: Story, owed: Log)
    requires WellTold(s)
  {
    || owed == []
    || (!s.logged && owed == [CreatedEvent(s.at)] && QuietFrom(s, 0))
    || exists n: nat :: DiedIn(s, n, owed) && QuietFrom(s, n + 1)
  }

  /**
    After faithful moves, crashes included, the status of every readable Run is the one replayed
    from its log and what the log lacks, and so is its timeline. What it lacks is the tail of one
    transition into that status, since one move the process died in; no transition has completed
    on the Run since.
   */
  lemma EveryRunAgrees<I>(m: ShellModule<I>, moves: seq<Move<I>>, r: string)
    requires Happens(m, moves) && FaithfulMoves(m, moves)
    requires Recordable(Reached(m, moves).disk, r)
    ensures Reached(m, moves).disk[r].meta.value.id == r
    ensures AgreeAt(RecordOf(m, moves, r)) && Trails(RecordOf(m, moves, r))
    ensures OwedTo(m, moves, r) != [] ==> exists n: nat :: LackingSince(m, moves, n, r, OwedTo(m, moves, r))
    ensures r in Histories(m, moves) && OneTransitionShort(Histories(m, moves)[r], OwedTo(m, moves, r))
  {
    RecordTold(m, moves, r);
    HistoriesFaithful(m, moves, false);
    var s := Histories(m, moves)[r];
    StatusAndTimelineAgree(s);
    StoryTrails(s);
    if OwedTo(m, moves, r) != [] {
      LagIsOneMove(m, moves, r);
      LagIsOneTransition(s);
    }
  }

  ghost predicate AllAgree(disk: Disk) {
    forall r :: Recordable(disk, r) ==> Agrees(disk[r].meta.value, disk[r].log)
  }

  lemma NothingOwed<I>(m: ShellModule<I>, moves: seq<Move<I>>, r: string)
    requires Happens(m, moves) && Reached(m, moves).crashes == 0
    ensures OwedTo(m, moves, r) == []
  {
    CrashFreeHistories(m, moves);
    if r in Histories(m, moves) { CrashFreeOwesNothing(Histories(m, moves)[r]); }
  }

  /** While the process has not died, faithful moves keep status, log and timeline of every Run in exact agreement. */
  lemma CrashFreeRunsAgree<I>(m: ShellModule<I>, moves: seq<Move<I>>)
    requires Happens(m, moves) && FaithfulMoves(m, moves) && Reached(m, moves).crashes == 0
    ensures AllAgree(Reached(m, moves).disk)
  {
    var disk := Reached(m, moves).disk;
    forall r | Recordable(disk, r) ensures Agrees(disk[r].meta.value, disk[r].log) {
      EveryRunAgrees(m, moves, r);
      NothingOwed(m, moves, r);
      assert disk[r].log + [] == disk[r].log;
    }
  }

  /** If the moves were orderly too, a pending Run that still shows a Stage running was left so by a recovery. */
  lemma LeftoverFromRecovery<I>(m: ShellModule<I>, moves: seq<Move<I>>, r: string)
    requires Happens(m, moves) && FaithfulMoves(m, moves) && OrderlyMoves(m, moves) && Reached(m, moves).crashes == 0
    requires Recordable(Reached(m, moves).disk, r)
    ensures LeftoverExplained(Reached(m, moves).disk[r])
  {
    RecordTold(m, moves, r);
    HistoriesFaithful(m, moves, true);
    CrashFreeHistories(m, moves);
    PendingLeftover(Histories(m, moves)[r]);
  }

  // ---- Exactly when ------------------------------------------------------------------------------------

  ghost predicate AllAgreeOwing(c: Chronicle) {
    forall r :: r in c ==> AgreeAt(Tell(c[r]))
  }

  /** All Runs agree after every move, with what their logs lack. */
  ghost predicate AgreesThroughMoves<I>(m: ShellModule<I>, moves: seq<Move<I>>)
    requires Happens(m, moves)
    decreases |moves|
  {
    AllAgreeOwing(Histories(m, moves)) && (moves != [] ==> AgreesThroughMoves(m, moves[..|moves| - 1]))
  }

  /** An unfaithful operation, whole or cut short, shows at once. */
  lemma UnfaithfulShows(s: Tale, h: Happening)
    requires AgreeAt(Tell(s)) && Possible(Tell(s).dir, h) && !Faithful(Tell(s), h.op)
    ensures !AgreeAt(Tell(Continued(s, h)))
  {
    StoryTrails(s);
    AgreementExactly(Tell(s), h);
  }

  /** Only a step of one operation can be unfaithful. */
  lemma UnfaithfulWrite<I>(e: Engine<I>, c: Chronicle, m: ShellModule<I>, step: Step<I>) returns (w: Write)
    requires Enabled(e, m, step) && !FaithfulStep(e, c, step)
    ensures WritesOf(e, m, step) == [w] && w.Do? && w.id in c && !Faithful(Tell(c[w.id]), w.op)
  {
    w := WritesOf(e, m, step)[0];
  }

  lemma UnfaithfulMove<I>(e: Engine<I>, c: Chronicle, m: ShellModule<I>, move: Move<I>)
    requires CanMove(e, m, move) && AllAgreeOwing(c) && !FaithfulStep(e, c, move.step)
    ensures !AllAgreeOwing(NoteMove(e, c, m, move))
  {
    var w := UnfaithfulWrite(e, c, m, move.step);
    var h := if move.Lives? || move.n == 1 then Did(w.op, move.at) else Cut(Tell(c[w.id]).dir, w.op, move.at, move.k);
    OneNoted(e, c, m, move, w, h);
    UnfaithfulShows(c[w.id], h);
    Disagrees(c, w.id, Continued(c[w.id], h));
  }

  lemma Disagrees(c: Chronicle, r: string, s: Tale)
    requires !AgreeAt(Tell(s))
    ensures !AllAgreeOwing(c[r := s])
  {
    assert c[r := s][r] == s;
  }

  lemma OneNoted<I>(e: Engine<I>, c: Chronicle, m: ShellModule<I>, move: Move<I>, w: Write, h: Happening)
    requires CanMove(e, m, move) && WritesOf(e, m, move.step) == [w] && w.Do? && w.id in c
    requires h == if move.Lives? || move.n == 1 then Did(w.op, move.at) else Cut(Tell(c[w.id]).dir, w.op, move.at, move.k)
    ensures NoteMove(e, c, m, move) == c[w.id := Continued(c[w.id], h)]
  {
    NoteOne(c, w, move.at);
    if move.Dies? {
      assert [w][..1] == [w] && [w][..0] == [];
    }
  }

  lemma NoteOne(c: Chronicle, w: Write, at: int)
    ensures NoteWrites(c, [w], at) == NoteWrite(c, w, at)
  {
    assert [w][1..] == [];
    assert NoteWrites(NoteWrite(c, w, at), [], at) == NoteWrite(c, w, at);
  }

  /**
    Over every sequence of moves, the process dying wherever it does: status, log, what the log
    lacks and timeline of every Run agree after every move if and only if every move was
    faithful, under any interleaving of Stages, retry, resume, re-entry, recovery, deletion and hosts.
   */
  lemma {:induction false} AgreementOverMoves<I>(m: ShellModule<I>, moves: seq<Move<I>>)
    requires Happens(m, moves)
    ensures AgreesThroughMoves(m, moves) <==> FaithfulMoves(m, moves)
    decreases |moves|
  {
    if moves != [] {
      var n := |moves| - 1;
      AgreementOverMoves(m, moves[..n]);
      var e, c := Reached(m, moves[..n]), Histories(m, moves[..n]);
      if FaithfulMoves(m, moves) { FaithfulAgree(m, moves); }
      if AgreesThroughMoves(m, moves) && !FaithfulStep(e, c, moves[n].step) { UnfaithfulMove(e, c, m, moves[n]); }
    }
  }

  lemma FaithfulAgree<I>(m: ShellModule<I>, moves: seq<Move<I>>)
    requires Happens(m, moves) && FaithfulMoves(m, moves)
    ensures AllAgreeOwing(Histories(m, moves))
  {
    HistoriesFaithful(m, moves, false);
    forall r | r in Histories(m, moves) ensures AgreeAt(Tell(Histories(m, moves)[r])) {
      StatusAndTimelineAgree(Histories(m, moves)[r]);
    }
  }

  /** All Runs agree after every move with their logs as they are. */
  ghost predicate AgreesAlways<I>(m: ShellModule<I>, moves: seq<Move<I>>)
    requires Happens(m, moves)
    decreases |moves|
  {
    AllAgree(Reached(m, moves).disk) && (moves != [] ==> AgreesAlways(m, moves[..|moves| - 1]))
  }

  /** While the process has not died that is agreement of the logs as they are. */
  lemma {:induction false} CrashFreeExactly<I>(m: ShellModule<I>, moves: seq<Move<I>>)
    requires Happens(m, moves) && Reached(m, moves).crashes == 0
    ensures AgreesAlways(m, moves) <==> FaithfulMoves(m, moves)
  {
    SameWithoutCrash(m, moves);
    AgreementOverMoves(m, moves);
  }

  lemma {:induction false} SameWithoutCrash<I>(m: ShellModule<I>, moves: seq<Move<I>>)
    requires Happens(m, moves) && Reached(m, moves).crashes == 0
    ensures AgreesAlways(m, moves) <==> AgreesThroughMoves(m, moves)
    decreases |moves|
  {
    if moves != [] { SameWithoutCrash(m, moves[..|moves| - 1]); }
    var c, disk := Histories(m, moves), Reached(m, moves).disk;
    HistoriesTell(m, moves);
    forall r ensures Recordable(disk, r) && Agrees(disk[r].meta.value, disk[r].log) <==> r in c && AgreeAt(Tell(c[r])) {
      assert ToldOn(c, disk, r);
      NothingOwed(m, moves, r);
      if r in c { assert disk[r].log + [] == disk[r].log; }
    }
    forall r ensures r in c <==> Recordable(disk, r) { assert ToldOn(c, disk, r); }
  }

  // ---- The serial queue --------------------------------------------------------------------------

  function Jobs<I>(links: seq<Link<I>>): seq<(string, I)> {
    seq(|links|, i requires 0 <= i < |links| => (links[i].run, links[i].input))
  }

  /** The links started since the process came up, in the order of their starts. */
  function BeginsSince<I>(moves: seq<Move<I>>): seq<nat> {
    if moves == [] then []
    else
      var last := moves[|moves| - 1];
      if last.Dies? then []
      else BeginsSince(moves[..|moves| - 1]) + if last.step.Begin? then [last.step.link] else []
  }

  /** What the queue has accepted since then, in the order of acceptance. */
  ghost function TakenSince<I>(m: ShellModule<I>, moves: seq<Move<I>>): seq<(string, I)>
    requires Happens(m, moves)
    decreases |moves|
  {
    if moves == [] then []
    else
      var before, last := moves[..|moves| - 1], moves[|moves| - 1];
      if last.Dies? then []
      else
        var e := Reached(m, before);
        TakenSince(m, before) + Jobs(Admitted(e.active, Requests(e, m, last.step)))
  }

  ghost predicate StartedUpTo<I>(chain: seq<Link<I>>, n: nat) {
    n <= |chain| && forall i :: 0 <= i < |chain| ==> (chain[i].phase != Queued <==> i < n)
  }

  /**
    Every accepted Run is executed in the order of acceptance and never twice: the starts
    are links 0, 1, 2, … of the chain, and the chain is exactly what was accepted.
   */
  lemma {:induction false} ExecutedInOrder<I>(m: ShellModule<I>, moves: seq<Move<I>>)
    requires Happens(m, moves)
    ensures var chain := Reached(m, moves).chain; var begins := BeginsSince(moves);
      && begins == seq(|begins|, i => i)
      && StartedUpTo(chain, |begins|)
      && Jobs(chain) == TakenSince(m, moves)
    decreases |moves|
  {
    if moves != [] {
      var n := |moves| - 1;
      var before, last := moves[..n], moves[n];
      ExecutedInOrder(m, before);
      if last.Lives? {
        var e := Reached(m, before);
        RequestsQueued(e, m, last.step);
        AdmittedFresh(e.active, Requests(e, m, last.step));
        TurnStep(e, m, last.step, last.at, BeginsSince(before));
      }
    }
  }

  lemma TurnStep<I>(e: Engine<I>, m: ShellModule<I>, step: Step<I>, at: int, begins: seq<nat>)
    requires Enabled(e, m, step)
    requires begins == seq(|begins|, i => i) && StartedUpTo(e.chain, |begins|)
    requires Fresh(Admitted(e.active, Requests(e, m, step)), e.active)
    ensures var chain' := Next(e, m, step, at).chain;
      var begins' := begins + if step.Begin? then [step.link] else [];
      && begins' == seq(|begins'|, i => i)
      && StartedUpTo(chain', |begins'|)
      && Jobs(chain') == Jobs(e.chain) + Jobs(Admitted(e.active, Requests(e, m, step)))
  {
    var taken := Admitted(e.active, Requests(e, m, step));
    TurnAdvances(e.chain, step, |begins|);
    JobsConcat(Advance(e.chain, step), taken);
    if step.Begin? {
      assert begins + [step.link] == seq(|begins| + 1, i => i);
    }
  }

  lemma JobsConcat<I>(a: seq<Link<I>>, b: seq<Link<I>>)
    ensures Jobs(a + b) == Jobs(a) + Jobs(b)
  {
  }

  /** Only the next link in line can start, and no link changes hands. */
  lemma TurnAdvances<I>(chain: seq<Link<I>>, step: Step<I>, n: nat)
    requires StartedUpTo(chain, n)
    requires match step
      case Begin(_, i) => i < |chain| && chain[i].phase == Queued && (i > 0 ==> chain[i - 1].phase == Settled)
      case Settle(i, _) => i < |chain| && chain[i].phase == Executing
      case _ => true
    ensures step.Begin? ==> step.link == n
    ensures StartedUpTo(Advance(chain, step), if step.Begin? then n + 1 else n)
    ensures Jobs(Advance(chain, step)) == Jobs(chain)
  {
  }

  /** Turns left: two for a queued execution, one for the one under way. */
  function Work<I>(chain: seq<Link<I>>): nat {
    if chain == [] then 0
    else Work(chain[1..]) + match chain[0].phase case Queued => 2 case Executing => 1 case Settled => 0
  }

  lemma {:induction false} WorkLess<I>(chain: seq<Link<I>>, i: nat, phase: Phase)
    requires i < |chain|
    requires (chain[i].phase == Queued && phase != Queued) || (chain[i].phase == Executing && phase == Settled)
    ensures Work(chain[i := chain[i].(phase := phase)]) < Work(chain)
  {
    var chain' := chain[i := chain[i].(phase := phase)];
    if i > 0 {
      assert chain'[1..] == chain[1..][i - 1 := chain[1..][i - 1].(phase := phase)];
      WorkLess(chain[1..], i - 1, phase);
    } else {
      assert chain'[1..] == chain[1..];
    }
  }

  ghost predicate Idle<I>(e: Engine<I>) {
    e.active == {} && forall i :: 0 <= i < |e.chain| ==> e.chain[i].phase == Settled
  }

  lemma AllSettledIdle<I>(e: Engine<I>)
    requires QueueSound(e.chain, e.active) && forall j :: 0 <= j < |e.chain| ==> e.chain[j].phase == Settled
    ensures Idle(e)
  {
    forall r ensures r !in e.active {
      assert !Waits(e.chain, r);
    }
  }

  /** The first link that has not settled can always move: start, or settle with any verdict at all. */
  lemma NeverStuck<I>(e: Engine<I>, m: ShellModule<I>) returns (i: nat)
    requires QueueSound(e.chain, e.active) && !Idle(e)
    ensures i < |e.chain|
    ensures e.chain[i].phase == Queued ==> forall ready :: Enabled(e, m, Begin(ready, i))
    ensures e.chain[i].phase != Queued ==> forall v :: Enabled(e, m, Settle(i, v))
  {
    if forall j :: 0 <= j < |e.chain| ==> e.chain[j].phase == Settled {
      AllSettledIdle(e);
      assert false;
    }
    i := 0;
    while e.chain[i].phase == Settled
      invariant i < |e.chain|
      invariant forall j :: 0 <= j < i ==> e.chain[j].phase == Settled
      decreases |e.chain| - i
    {
      i := i + 1;
    }
  }

  lemma TurnKeepsChain<I>(e: Engine<I>, m: ShellModule<I>, step: Step<I>, at: int)
    requires Enabled(e, m, step) && (step.Begin? || step.Settle?)
    ensures Next(e, m, step, at).chain == Advance(e.chain, step)
    ensures Jobs(Next(e, m, step, at).chain) == Jobs(e.chain)
  {
    assert Requests(e, m, step) == [];
    assert Advance(e.chain, step) + [] == Advance(e.chain, step);
  }

  /**
    The queue always drains: whatever each execution does — end, throw, find its record gone,
    find the setup not ready — the chain goes on to the next, until everything accepted has
    settled and nothing is active.
   */
  lemma {:induction false} Drains<I>(
    e: Engine<I>, m: ShellModule<I>, ready: nat -> bool, verdict: nat -> Verdict, at: int)
    returns (steps: seq<Step<I>>, final: Engine<I>)
    requires QueueSound(e.chain, e.active)
    ensures |steps| <= Work(e.chain)
    ensures Leads(e, m, steps, at, final)
    ensures Idle(final) && Jobs(final.chain) == Jobs(e.chain)
    decreases Work(e.chain)
  {
    if Idle(e) {
      return [], e;
    }
    var i := NeverStuck(e, m);
    var step := if e.chain[i].phase == Queued then Begin(ready(i), i) else Settle(i, verdict(i));
    TurnKeepsChain(e, m, step, at);
    QueueStep(e, m, step, at);
    WorkLess(e.chain, i, if step.Begin? && step.ready then Executing else Settled);
    var rest, last := Drains(Next(e, m, step, at), m, ready, verdict, at);
    assert ([step] + rest)[1..] == rest;
    return [step] + rest, last;
  }

  ghost predicate Leads<I>(e: Engine<I>, m: ShellModule<I>, steps: seq<Step<I>>, at: int, final: Engine<I>)
    decreases |steps|
  {
    if steps == [] then final == e
    else Enabled(e, m, steps[0]) && Leads(Next(e, m, steps[0], at), m, steps[1..], at, final)
  }

  // ---- Every schedule -------------------------------------------------------------------------------

  /** Turns of the queue among the moves: starts and ends of executions. */
  function Turns<I>(moves: seq<Move<I>>): nat {
    if moves == [] then 0
    else (if moves[0].step.Begin? || moves[0].step.Settle? then 1 else 0) + Turns(moves[1..])
  }

  ghost predicate LivesThrough<I>(e: Engine<I>, m: ShellModule<I>, moves: seq<Move<I>>, final: Engine<I>)
    decreases |moves|
  {
    if moves == [] then final == e
    else moves[0].Lives? && Enabled(e, m, moves[0].step)
         && LivesThrough(Next(e, m, moves[0].step, moves[0].at), m, moves[1..], final)
  }

  /** How much the queue accepts along the way. */
  ghost function Accepted<I>(e: Engine<I>, m: ShellModule<I>, moves: seq<Move<I>>, final: Engine<I>): nat
    requires LivesThrough(e, m, moves, final)
    decreases |moves|
  {
    if moves == [] then 0
    else |Admitted(e.active, Requests(e, m, moves[0].step))|
         + Accepted(Next(e, m, moves[0].step, moves[0].at), m, moves[1..], final)
  }

  lemma {:induction false} WorkConcat<I>(a: seq<Link<I>>, b: seq<Link<I>>)
    ensures Work(a + b) == Work(a) + Work(b)
  {
    if a == [] {
      assert a + b == b;
    } else {
      assert (a + b)[1..] == a[1..] + b;
      WorkConcat(a[1..], b);
    }
  }

  lemma {:induction false} WorkQueued<I>(links: seq<Link<I>>)
    requires forall l :: l in links ==> l.phase == Queued
    ensures Work(links) == 2 * |links|
  {
    if links != [] {
      assert links[0] in links && forall l :: l in links[1..] ==> l in links;
      WorkQueued(links[1..]);
    }
  }

  /** A turn takes from the work left; nothing else adds to it but what the queue accepts, two turns each. */
  lemma WorkStep<I>(e: Engine<I>, m: ShellModule<I>, step: Step<I>, at: int)
    requires Enabled(e, m, step)
    ensures var taken := Admitted(e.active, Requests(e, m, step));
      Work(Next(e, m, step, at).chain) + (if step.Begin? || step.Settle? then 1 else 0) <= Work(e.chain) + 2 * |taken|
  {
    var taken := Admitted(e.active, Requests(e, m, step));
    RequestsQueued(e, m, step);
    AdmittedFresh(e.active, Requests(e, m, step));
    WorkConcat(Advance(e.chain, step), taken);
    WorkQueued(taken);
    if step.Begin? {
      WorkLess(e.chain, step.link, if step.ready then Executing else Settled);
    } else if step.Settle? {
      WorkLess(e.chain, step.link, Settled);
    }
  }

  /**
    Whatever is interleaved with them — Stages, calls, sweeps, hosts — the turns taken and the
    work left never exceed the work there was and two turns for each Run accepted since; and as
    long as the queue is not idle some turn can be taken. So every schedule that goes on taking
    turns drains the queue.
   */
  lemma {:induction false} EveryScheduleDrains<I>(e: Engine<I>, m: ShellModule<I>, moves: seq<Move<I>>, final: Engine<I>)
    requires QueueSound(e.chain, e.active) && LivesThrough(e, m, moves, final)
    ensures Turns(moves) + Work(final.chain) <= Work(e.chain) + 2 * Accepted(e, m, moves, final)
    ensures QueueSound(final.chain, final.active)
    ensures Idle(final) || exists i :: CanTurn(final, m, i)
    decreases |moves|
  {
    if moves == [] {
      if !Idle(e) {
        var i := NeverStuck(e, m);
        assert CanTurn(e, m, i);
      }
    } else {
      QueueStep(e, m, moves[0].step, moves[0].at);
      WorkStep(e, m, moves[0].step, moves[0].at);
      EveryScheduleDrains(Next(e, m, moves[0].step, moves[0].at), m, moves[1..], final);
    }
  }

  /** Link `i` can start, or settle with any verdict. */
  ghost predicate CanTurn<I>(e: Engine<I>, m: ShellModule<I>, i: nat) {
    i < |e.chain|
    && (e.chain[i].phase == Queued ==> forall ready :: Enabled(e, m, Begin(ready, i)))
    && (e.chain[i].phase != Queued ==> forall v :: Enabled(e, m, Settle(i, v)))
  }

  // ---- Retry -------------------------------------------------------------------------------------------

  lemma SilentApply(dir: RunDir, op: RunOp, at: int)
    requires op.DeletedFile? || (op.ResetAttempts? && dir.meta.Some?)
    requires op.DeletedFile? ==> ValidFileName(op.name)
    ensures Apply(dir, op, at) == RunDir(if dir.meta.Some? then Some(Change(dir.meta.value, op)) else None, dir.log,
                                         ChangeFiles(dir.files, op))
  {
    assert Emitted(dir, op, at) == [];
    assert dir.log + [] == dir.log;
  }

  lemma {:induction false} DeletionsPlay(disk: Disk, id: string, names: seq<string>, at: int)
    requires id in disk && forall n :: n in names ==> ValidFileName(n)
    ensures PlayWrites(disk, Deletions(id, names), at) == disk[id := disk[id].(files := disk[id].files - Names(names))]
    decreases |names|
  {
    if names == [] {
      assert disk[id].files - Names(names) == disk[id].files;
      assert disk[id := disk[id].(files := disk[id].files)] == disk;
    } else {
      var dir := disk[id].(files := disk[id].files - {names[0]});
      SilentApply(disk[id], DeletedFile(names[0]), at);
      assert Deletions(id, names)[1..] == Deletions(id, names[1..]);
      assert names[0] in names && forall n :: n in names[1..] ==> n in names;
      DeletionsPlay(disk[id := dir], id, names[1..], at);
      NamesCons(disk[id].files, names);
    }
  }

  function Names(names: seq<string>): set<string> { set n | n in names }

  lemma NamesCons(files: map<string, string>, names: seq<string>)
    requires names != []
    ensures files - {names[0]} - Names(names[1..]) == files - Names(names)
  {
    assert forall n :: n in names <==> n == names[0] || n in names[1..];
  }

  lemma {:induction false} DiscardableValid(names: seq<string>)
    ensures forall n :: n in Discardable(names) ==> ValidFileName(n)
  {
    if names != [] && ValidFileName(names[0]) { DiscardableValid(names[1..]); }
  }

  /** The Run after the reset and the discards, before it is reopened. */
  function Prepared<I>(dir: RunDir, plan: RetryPlan<I>): RunDir
    requires dir.meta.Some?
  {
    RunDir(Some(if plan.resetAttempts then dir.meta.value.(attempts := 0) else dir.meta.value),
           dir.log,
           dir.files - Names(Discardable(plan.discard)))
  }

  lemma ResetPlays(disk: Disk, id: string, names: seq<string>, at: int)
    requires Recordable(disk, id) && forall n :: n in names ==> ValidFileName(n)
    ensures PlayWrites(disk, [Do(id, ResetAttempts)] + Deletions(id, names), at)
         == disk[id := RunDir(Some(disk[id].meta.value.(attempts := 0)), disk[id].log, disk[id].files - Names(names))]
  {
    var reset := Do(id, ResetAttempts);
    SilentApply(disk[id], ResetAttempts, at);
    PlayConcat(disk, [reset], Deletions(id, names), at);
    PlayOne(disk, reset, at);
    DeletionsPlay(PlayWrite(disk, reset, at), id, names, at);
  }

  lemma PreparationPlays<I>(disk: Disk, id: string, plan: RetryPlan<I>, at: int)
    requires Recordable(disk, id)
    ensures PlayWrites(disk, Preparation(plan, id), at) == disk[id := Prepared(disk[id], plan)]
  {
    var names := Discardable(plan.discard);
    DiscardableValid(plan.discard);
    if plan.resetAttempts {
      ResetPlays(disk, id, names, at);
    } else {
      assert [] + Deletions(id, names) == Deletions(id, names);
      DeletionsPlay(disk, id, names, at);
    }
  }

  /** The Run as it was, with one more event that no reader takes for anything. */
  ghost predicate OnlyNoted(dir: RunDir, dir': RunDir) {
    && dir'.meta == dir.meta && dir'.files == dir.files && dir.log <= dir'.log && |dir'.log| == |dir.log| + 1
    && Replayed(dir'.log) == Replayed(dir.log) && Replay(dir'.log) == Replay(dir.log)
  }

  lemma RefusalNotes(dir: RunDir, condition: string, at: int)
    requires dir.meta.Some?
    ensures OnlyNoted(dir, Apply(dir, Refusal(dir.meta.value, condition), at))
  {
    var op := Refusal(dir.meta.value, condition);
    var event := Event(Some(at), op.kind, op.detail);
    assert Emitted(dir, op, at) == [event] && [event][..1] == [event];
    ReplayedSnoc(dir.log, event);
    ReplayStep(dir.log, event);
  }

  /** A refused retry leaves one event behind, and moves nothing. */
  lemma RetryRefusedSilently<I>(e: Engine<I>, m: ShellModule<I>, ready: bool, id: string, at: int)
    requires DecideRetry(e, m, ready, id).Refuse?
    ensures var e' := Next(e, m, Step.RetryRun(ready, id), at);
      && id in e'.disk && e'.disk == e.disk[id := e'.disk[id]] && OnlyNoted(e.disk[id], e'.disk[id])
      && e'.chain == e.chain && e'.active == e.active
  {
    var op := Refusal(e.disk[id].meta.value, DecideRetry(e, m, ready, id).condition);
    PlayOne(e.disk, Do(id, op), at);
    RefusalNotes(e.disk[id], DecideRetry(e, m, ready, id).condition, at);
    QueueRests(e, m, Step.RetryRun(ready, id), at);
  }

  lemma QueueRests<I>(e: Engine<I>, m: ShellModule<I>, step: Step<I>, at: int)
    requires Enabled(e, m, step) && Requests(e, m, step) == [] && !step.Begin? && !step.Settle?
    ensures Next(e, m, step, at).chain == e.chain && Next(e, m, step, at).active == e.active
  {
    assert e.chain + [] == e.chain;
    assert Runs<I>([]) == {};
  }

  lemma RetryPlays<I>(disk: Disk, id: string, plan: RetryPlan<I>, at: int)
    requires Recordable(disk, id) && Carried(plan)
    ensures var reopened := Apply(Prepared(disk[id], plan), Reopened(plan.fromStage, plan.reason), at);
      PlayWrites(disk, Preparation(plan, id) + Reopening(plan, id), at) == disk[id := reopened]
      && reopened.meta.Some? && reopened.meta.value.status == Pending
  {
    var last := Do(id, Reopened(plan.fromStage, plan.reason));
    PreparationPlays(disk, id, plan, at);
    PlayConcat(disk, Preparation(plan, id), [last], at);
    PlayOne(disk[id := Prepared(disk[id], plan)], last, at);
  }

  /** An accepted retry: prepared, reopened, pending, and queued unless it already was. */
  lemma RetryGoes<I>(e: Engine<I>, m: ShellModule<I>, ready: bool, id: string, at: int)
    requires var d := DecideRetry(e, m, ready, id); d.GoAhead? && Carried(d.plan)
    ensures var plan := DecideRetry(e, m, ready, id).plan;
      var reopened := Apply(Prepared(e.disk[id], plan), Reopened(plan.fromStage, plan.reason), at);
      Next(e, m, Step.RetryRun(ready, id), at).disk == e.disk[id := reopened]
      && reopened.meta.Some? && reopened.meta.value.status == Pending
  {
    RetryPlays(e.disk, id, DecideRetry(e, m, ready, id).plan, at);
  }

  /** A name that is not a file's stops it half way. */
  lemma RetryStops<I>(e: Engine<I>, m: ShellModule<I>, ready: bool, id: string, at: int)
    requires var d := DecideRetry(e, m, ready, id); d.GoAhead? && !Carried(d.plan)
    ensures var e' := Next(e, m, Step.RetryRun(ready, id), at);
      e'.disk == e.disk[id := Prepared(e.disk[id], DecideRetry(e, m, ready, id).plan)]
      && e'.chain == e.chain && e'.active == e.active
  {
    var plan := DecideRetry(e, m, ready, id).plan;
    assert Preparation(plan, id) + [] == Preparation(plan, id);
    PreparationPlays(e.disk, id, plan, at);
    QueueRests(e, m, Step.RetryRun(ready, id), at);
  }

  ghost predicate RetriedTo<I>(e: Engine<I>, id: string, d: RetryDecision<I>, e': Engine<I>, at: int)
    requires !d.Unknown? ==> Recordable(e.disk, id)
  {
    match d
    case Unknown => e'.disk == e.disk && e'.chain == e.chain && e'.active == e.active
    case Refuse(_) =>
      && id in e'.disk && e'.disk == e.disk[id := e'.disk[id]] && OnlyNoted(e.disk[id], e'.disk[id])
      && e'.chain == e.chain && e'.active == e.active
    case GoAhead(plan) =>
      var prepared := Prepared(e.disk[id], plan);
      var reopened := Apply(prepared, Reopened(plan.fromStage, plan.reason), at);
      if Carried(plan)
      then e'.disk == e.disk[id := reopened] && reopened.meta.Some? && reopened.meta.value.status == Pending
           && e'.chain == e.chain + (if id in e.active then [] else [Link(id, plan.input, Queued)])
           && e'.active == e.active + {id}
      else e'.disk == e.disk[id := prepared] && e'.chain == e.chain && e'.active == e.active
  }

  /**
    A retry, in full. A Run that is unknown, or has nothing to retry, or whose Module declines,
    keeps its record, files and timeline. An accepted one loses the files the plan discards and,
    if the plan says so, its attempts; it is then reopened and queued, once — unless a name that
    is not a file's stops it half way, with its status as it was.
   */
  lemma RetryEffect<I>(e: Engine<I>, m: ShellModule<I>, ready: bool, id: string, at: int)
    ensures RetriedTo(e, id, DecideRetry(e, m, ready, id), Next(e, m, Step.RetryRun(ready, id), at), at)
  {
    var d := DecideRetry(e, m, ready, id);
    if d.Unknown? {
      QueueRests(e, m, Step.RetryRun(ready, id), at);
    } else if d.Refuse? {
      RetryRefusedSilently(e, m, ready, id, at);
    } else if Carried(d.plan) {
      RetryGoes(e, m, ready, id, at);
      RetryTaken(e, m, ready, id, at);
    } else {
      RetryStops(e, m, ready, id, at);
    }
  }

  lemma RetryTaken<I>(e: Engine<I>, m: ShellModule<I>, ready: bool, id: string, at: int)
    requires var d := DecideRetry(e, m, ready, id); d.GoAhead? && Carried(d.plan)
    ensures var e' := Next(e, m, Step.RetryRun(ready, id), at); var l := Link(id, DecideRetry(e, m, ready, id).plan.input, Queued);
      e'.chain == e.chain + (if id in e.active then [] else [l]) && e'.active == e.active + {id}
  {
    var l := Link(id, DecideRetry(e, m, ready, id).plan.input, Queued);
    assert [l][1..] == [];
    assert Admitted(e.active, [l]) == if id in e.active then [] else [l];
    assert Runs([l]) == {id} by { assert [l][0].run == id; }
    assert Runs<I>([]) == {};
  }

  // ---- Recovery --------------------------------------------------------------------------------------

  ghost predicate Salvaged<I>(e: Engine<I>, m: ShellModule<I>, now: int, damaged: set<string>, ids: seq<string>, r: string) {
    r in ids && Salvage(e, m, now, damaged, r).Some?
  }

  lemma {:induction false} SweepWritesEach<I>(
    e: Engine<I>, m: ShellModule<I>, now: int, damaged: set<string>, ids: seq<string>, disk: Disk, at: int, r: string)
    requires forall i, j :: 0 <= i < j < |ids| ==> ids[i] != ids[j]
    requires r in e.disk && r in disk && disk[r] == e.disk[r]
    ensures var disk' := PlayWrites(disk, SalvageWrites(e, m, now, damaged, ids), at);
      && r in disk'
      && disk'[r] == if Salvaged(e, m, now, damaged, ids, r)
                     then Apply(e.disk[r], Salvage(e, m, now, damaged, r).value.0, at) else e.disk[r]
    decreases |ids|
  {
    if ids != [] {
      var s := Salvage(e, m, now, damaged, ids[0]);
      var rest := SalvageWrites(e, m, now, damaged, ids[1..]);
      if s.None? {
        assert [] + rest == rest;
        SweepWritesEach(e, m, now, damaged, ids[1..], disk, at, r);
      } else {
        var w := Do(ids[0], s.value.0);
        assert ([w] + rest)[1..] == rest;
        if ids[0] == r {
          SalvageTouches(e, m, now, damaged, ids[1..]);
          forall i | 0 <= i < |rest| ensures rest[i].id != r { assert rest[i] in rest; }
          PlayFrame(PlayWrite(disk, w, at), rest, at, r);
        } else {
          SweepWritesEach(e, m, now, damaged, ids[1..], PlayWrite(disk, w, at), at, r);
        }
      }
    }
  }

  lemma {:induction false} SalvageTouches<I>(
    e: Engine<I>, m: ShellModule<I>, now: int, damaged: set<string>, ids: seq<string>)
    ensures forall w :: w in SalvageWrites(e, m, now, damaged, ids) ==> w.id in ids
    decreases |ids|
  {
    if ids != [] { SalvageTouches(e, m, now, damaged, ids[1..]); }
  }

  /** The links a sweep asks for: one for each salvaged Run, in listing order, and all of them admitted. */
  lemma {:induction false} SweepLinks<I>(
    e: Engine<I>, m: ShellModule<I>, now: int, damaged: set<string>, ids: seq<string>, active: set<string>)
    requires forall i, j :: 0 <= i < j < |ids| ==> ids[i] != ids[j]
    requires forall r :: r in ids && r in active ==> r in e.active
    ensures Admitted(active, SalvageLinks(e, m, now, damaged, ids)) == SalvageLinks(e, m, now, damaged, ids)
    ensures Runs(SalvageLinks(e, m, now, damaged, ids)) == set r | r in ids && Salvage(e, m, now, damaged, r).Some?
    decreases |ids|
  {
    if ids != [] {
      var s := Salvage(e, m, now, damaged, ids[0]);
      var rest := SalvageLinks(e, m, now, damaged, ids[1..]);
      if s.None? {
        assert [] + rest == rest;
        SweepLinks(e, m, now, damaged, ids[1..], active);
      } else {
        var l := Link(ids[0], s.value.1, Queued);
        assert ([l] + rest)[1..] == rest;
        SweepLinks(e, m, now, damaged, ids[1..], active + {ids[0]});
        RunsCons(l, rest);
      }
    }
  }

  lemma RunsCons<I>(l: Link<I>, rest: seq<Link<I>>)
    ensures Runs([l] + rest) == {l.run} + Runs(rest)
  {
    var all := [l] + rest;
    assert all[0] == l;
    forall i | 0 <= i < |rest| ensures all[i + 1] == rest[i] {}
    forall r | r in Runs(rest) ensures r in Runs(all) {
      var i :| 0 <= i < |rest| && rest[i].run == r;
      assert all[i + 1].run == r;
    }
  }

  /** A Run's directory after the sweep, by the decision made on it. */
  function Swept<I>(e: Engine<I>, m: ShellModule<I>, step: Step<I>, at: int, r: string): RunDir
    requires step.RecoverRuns? && r in e.disk
  {
    var s := Salvage(e, m, step.now, step.damaged, r);
    if r in step.listing && s.Some? then Apply(e.disk[r], s.value.0, at) else e.disk[r]
  }

  /** A recovery sweep, in full: each Run of the listing decided on the state the sweep found. */
  lemma SweepEffect<I>(e: Engine<I>, m: ShellModule<I>, step: Step<I>, at: int)
    requires Enabled(e, m, step) && step.RecoverRuns? && step.ready
    ensures var e' := Next(e, m, step, at);
      && e'.disk.Keys == e.disk.Keys
      && (forall r :: r in e.disk ==> e'.disk[r] == Swept(e, m, step, at, r))
      && e'.chain == e.chain + SalvageLinks(e, m, step.now, step.damaged, step.listing)
      && (forall r :: r in e'.active <==> r in e.active || Salvaged(e, m, step.now, step.damaged, step.listing, r))
      && e'.contexts == e.contexts
  {
    SweepLinks(e, m, step.now, step.damaged, step.listing, e.active);
    SalvageWritesDo(e, m, step.now, step.damaged, step.listing);
    var e' := Next(e, m, step, at);
    forall r | r in e.disk ensures r in e'.disk && e'.disk[r] == Swept(e, m, step, at, r) {
      SweepWritesEach(e, m, step.now, step.damaged, step.listing, e.disk, at, r);
    }
    forall r | r in e'.disk ensures r in e.disk {
      DiskKeys(e.disk, WritesOf(e, m, step), at, r);
    }
  }

  /** The sweep leaves every active Run, and every wait that is indefinite or still ahead, exactly as it was. */
  lemma SweepSpares<I>(e: Engine<I>, m: ShellModule<I>, step: Step<I>, at: int, r: string)
    requires Enabled(e, m, step) && step.RecoverRuns? && r in e.disk && e.disk[r].meta.Some?
    requires var meta := e.disk[r].meta.value;
      || r in e.active
      || meta.status in {Failed, Done, Skipped}
      || (meta.status == Blocked && (meta.wait.None? || !Due(meta.wait.value.timeout, step.now)))
    ensures r in Next(e, m, step, at).disk && Next(e, m, step, at).disk[r] == e.disk[r]
    ensures r in Next(e, m, step, at).active <==> r in e.active
  {
    if step.ready {
      SweepEffect(e, m, step, at);
      SalvageSpares(e, m, step.now, step.damaged, r);
    } else {
      assert Requests(e, m, step) == [];
      assert Runs<I>([]) == {};
    }
  }

  lemma SalvageSpares<I>(e: Engine<I>, m: ShellModule<I>, now: int, damaged: set<string>, r: string)
    requires r in e.disk && e.disk[r].meta.Some?
    requires var meta := e.disk[r].meta.value;
      || r in e.active
      || meta.status in {Failed, Done, Skipped}
      || (meta.status == Blocked && (meta.wait.None? || !Due(meta.wait.value.timeout, now)))
    ensures Salvage(e, m, now, damaged, r).None?
  {
  }

  lemma SalvagePending<I>(e: Engine<I>, m: ShellModule<I>, now: int, damaged: set<string>, r: string, at: int)
    requires Salvage(e, m, now, damaged, r).Some?
    ensures r in e.disk
    ensures var dir := Apply(e.disk[r], Salvage(e, m, now, damaged, r).value.0, at);
      dir.meta.Some? && dir.meta.value.status == Pending
  {
    SalvageSafe(e, m, now, damaged, r);
    MoveParts(Record(e.disk[r], []), Did(Salvage(e, m, now, damaged, r).value.0, at));
  }

  /** A sweep repeated at once, with the same plans and the same clock, recovers nothing and changes nothing. */
  lemma SecondSweepIdle<I>(e: Engine<I>, m: ShellModule<I>, first: Step<I>, at: int, second: Step<I>, at': int)
    requires Enabled(e, m, first) && first.RecoverRuns? && first.ready
    requires Enabled(Next(e, m, first, at), m, second) && second.RecoverRuns?
    requires second.now == first.now && second.damaged == first.damaged
    ensures var e' := Next(e, m, first, at);
      && SalvageLinks(e', m, second.now, second.damaged, second.listing) == []
      && Next(e', m, second, at') == e'
  {
    var e' := Next(e, m, first, at);
    forall r | r in second.listing ensures Salvage(e', m, second.now, second.damaged, r).None? {
      NothingLeft(e, m, first, at, second.listing, r);
    }
    SweepNothing(e', m, second.now, second.damaged, second.listing);
    IdleSweep(e', m, second, at');
  }

  /** What a sweep salvaged is active after it, and what it did not is decided as before. */
  lemma NothingLeft<I>(e: Engine<I>, m: ShellModule<I>, first: Step<I>, at: int, listing: seq<string>, r: string)
    requires Enabled(e, m, first) && first.RecoverRuns? && first.ready
    requires IsListing(Next(e, m, first, at).disk, m.id, listing) && r in listing
    ensures Salvage(Next(e, m, first, at), m, first.now, first.damaged, r).None?
  {
    SweepEffect(e, m, first, at);
    if Salvaged(e, m, first.now, first.damaged, first.listing, r) {
      assert r in Next(e, m, first, at).active;
    } else {
      assert r in e.disk && Next(e, m, first, at).disk[r] == e.disk[r];
    }
  }

  lemma IdleSweep<I>(e: Engine<I>, m: ShellModule<I>, step: Step<I>, at: int)
    requires Enabled(e, m, step) && step.RecoverRuns?
    requires SalvageWrites(e, m, step.now, step.damaged, step.listing) == []
    requires SalvageLinks(e, m, step.now, step.damaged, step.listing) == []
    ensures Next(e, m, step, at) == e
  {
    assert e.chain + [] == e.chain;
    assert Runs<I>([]) == {};
  }

  lemma {:induction false} SweepNothing<I>(
    e: Engine<I>, m: ShellModule<I>, now: int, damaged: set<string>, ids: seq<string>)
    requires forall r :: r in ids ==> Salvage(e, m, now, damaged, r).None?
    ensures SalvageWrites(e, m, now, damaged, ids) == [] && SalvageLinks(e, m, now, damaged, ids) == []
    decreases |ids|
  {
    if ids != [] {
      assert ids[0] in ids && forall r :: r in ids[1..] ==> r in ids;
      SweepNothing(e, m, now, damaged, ids[1..]);
    }
  }
}
