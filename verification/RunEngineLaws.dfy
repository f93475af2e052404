/** What every reachable state of the Run engine satisfies, under every interleaving and every crash. */
module RunEngineLaws {
  import opened RunRecords
  import opened RunEngine
  import opened RunRecordsKept

  // ---- The serial queue ------------------------------------------------------------------------

  ghost predicate Ordered<I>(chain: seq<Link<I>>) {
    forall i, j :: 0 <= i < j < |chain| && chain[j].phase != Queued ==> chain[i].phase == Settled
  }

  predicate Unsettled<I>(chain: seq<Link<I>>, i: int) {
    0 <= i < |chain| && chain[i].phase != Settled
  }

  ghost predicate OnceEach<I>(chain: seq<Link<I>>) {
    forall i, j :: Unsettled(chain, i) && Unsettled(chain, j) && chain[i].run == chain[j].run ==> i == j
  }

  ghost predicate Waits<I>(chain: seq<Link<I>>, r: string) {
    exists i :: Unsettled(chain, i) && chain[i].run == r
  }

  /** `active` is exactly the Runs queued or executing, and none of them is there twice. */
  ghost predicate QueueSound<I>(chain: seq<Link<I>>, active: set<string>) {
    Ordered(chain) && OnceEach(chain) && forall r :: r in active <==> Waits(chain, r)
  }

  /** Newly queued links, of different Runs, none of them in `active`. */
  ghost predicate Fresh<I>(links: seq<Link<I>>, active: set<string>) {
    && (forall i :: 0 <= i < |links| ==> links[i].phase == Queued && links[i].run !in active)
    && (forall i, j :: 0 <= i < j < |links| ==> links[i].run != links[j].run)
  }

  lemma FreshCons<I>(first: Link<I>, rest: seq<Link<I>>, active: set<string>)
    requires first.phase == Queued && first.run !in active && Fresh(rest, active + {first.run})
    ensures Fresh([first] + rest, active)
  {
  }

  lemma {:induction false} AdmittedFresh<I>(active: set<string>, links: seq<Link<I>>)
    requires forall l :: l in links ==> l.phase == Queued
    ensures Fresh(Admitted(active, links), active)
    ensures forall l :: l in Admitted(active, links) ==> l in links
    decreases |links|
  {
    if links != [] {
      assert links[0] in links && forall l :: l in links[1..] ==> l in links;
      if links[0].run in active {
        AdmittedFresh(active, links[1..]);
      } else {
        AdmittedFresh(active + {links[0].run}, links[1..]);
        FreshCons(links[0], Admitted(active + {links[0].run}, links[1..]), active);
      }
    }
  }

  lemma QueueGrows<I>(chain: seq<Link<I>>, active: set<string>, taken: seq<Link<I>>)
    requires QueueSound(chain, active)
    requires Fresh(taken, active)
    ensures QueueSound(chain + taken, active + Runs(taken))
  {
    var chain' := chain + taken;
    forall i | Unsettled(chain', i) && i < |chain|
      ensures Unsettled(chain, i) && chain'[i].run in active
    {
      assert Unsettled(chain, i) && Waits(chain, chain[i].run);
    }
    forall r ensures r in active + Runs(taken) <==> Waits(chain', r) {
      if r in active {
        var i :| Unsettled(chain, i) && chain[i].run == r;
        assert Unsettled(chain', i) && chain'[i].run == r;
      } else if r in Runs(taken) {
        var i :| 0 <= i < |taken| && taken[i].run == r;
        assert Unsettled(chain', |chain| + i) && chain'[|chain| + i].run == r;
      }
      if i :| Unsettled(chain', i) && chain'[i].run == r {
        if i >= |chain| { assert taken[i - |chain|].run in Runs(taken); }
      }
    }
  }

  /** Starting or settling the link whose turn it is. */
  lemma QueueAdvances<I>(chain: seq<Link<I>>, active: set<string>, i: nat, phase: Phase)
    requires QueueSound(chain, active) && i < |chain|
    requires chain[i].phase == Executing || (chain[i].phase == Queued && (i > 0 ==> chain[i - 1].phase == Settled))
    requires phase != Queued
    ensures var chain' := chain[i := chain[i].(phase := phase)];
      QueueSound(chain', if phase == Settled then active - {chain[i].run} else active)
  {
    var chain' := chain[i := chain[i].(phase := phase)];
    forall j | Unsettled(chain', j) ensures Unsettled(chain, j) && chain[j].run == chain'[j].run {}
    forall r ensures Waits(chain', r) <==> Waits(chain, r) && (phase == Settled ==> r != chain[i].run) {
      if Waits(chain, r) {
        var j :| Unsettled(chain, j) && chain[j].run == r;
        if j != i || phase != Settled { assert Unsettled(chain', j) && chain'[j].run == r; }
      }
      if Waits(chain', r) {
        var j :| Unsettled(chain', j) && chain'[j].run == r;
        assert Unsettled(chain, j) && Unsettled(chain, i);
      }
    }
  }

  lemma {:induction false} SalvageLinksQueued<I>(
    e: Engine<I>, m: ShellModule<I>, now: int, damaged: set<string>, ids: seq<string>)
    ensures forall l :: l in SalvageLinks(e, m, now, damaged, ids) ==> l.phase == Queued && l.run in e.disk
    decreases |ids|
  {
    if ids != [] {
      SalvageLinksQueued(e, m, now, damaged, ids[1..]);
    }
  }

  lemma RequestsQueued<I>(e: Engine<I>, m: ShellModule<I>, step: Step<I>)
    requires Enabled(e, m, step)
    ensures forall l :: l in Requests(e, m, step) ==>
      l.phase == Queued && (l.run in e.disk || (step.StartRun? && step.ready && l.run == step.newId))
  {
    if step.RecoverRuns? { SalvageLinksQueued(e, m, step.now, step.damaged, step.listing); }
  }

  lemma QueueStep<I>(e: Engine<I>, m: ShellModule<I>, step: Step<I>, at: int)
    requires Enabled(e, m, step) && QueueSound(e.chain, e.active)
    ensures QueueSound(Next(e, m, step, at).chain, Next(e, m, step, at).active)
  {
    if step.Begin? {
      QueueAdvances(e.chain, e.active, step.link, if step.ready then Executing else Settled);
    } else if step.Settle? {
      QueueAdvances(e.chain, e.active, step.link, Settled);
    }
    var chain, active := Advance(e.chain, step), e.active - Released(e.chain, step);
    assert QueueSound(chain, active);
    var links := Requests(e, m, step);
    RequestsQueued(e, m, step);
    AdmittedFresh(e.active, links);
    if step.Begin? || step.Settle? { assert links == []; }
    QueueGrows(chain, active, Admitted(e.active, links));
  }

  /** At most one execution, hence at most one `module.run`, is under way. */
  lemma OneAtATime<I>(chain: seq<Link<I>>, active: set<string>, i: nat, j: nat)
    requires QueueSound(chain, active)
    requires i < |chain| && j < |chain| && chain[i].phase == Executing && chain[j].phase == Executing
    ensures i == j
  {
  }

  // ---- The invariant of whole runs -----------------------------------------------------------

  /** The Stage stack is as long as the `stage` calls that have not settled, plus the leaked pushes. */
  ghost predicate StackCounts<I>(c: Context, chain: seq<Link<I>>) {
    |c.stack| == |c.calls| + c.leaked && c.link < |chain| && chain[c.link].run == c.run
  }

  ghost predicate StacksCount<I>(e: Engine<I>) {
    forall c :: 0 <= c < |e.contexts| ==> StackCounts(e.contexts[c], e.chain)
  }

  /** What no Module, host or crash can break. */
  ghost predicate Inv<I>(e: Engine<I>) {
    && QueueSound(e.chain, e.active)
    && StacksCount(e)
    && IdsIssued(e)
    && CallsLogged(e.disk, e.contexts)
  }

  lemma {:induction false} DiskKeys(disk: Disk, ws: seq<Write>, at: int, r: string)
    requires r in PlayWrites(disk, ws, at)
    ensures r in disk || exists w :: w in ws && w.Make? && w.id == r
    decreases |ws|
  {
    if ws != [] {
      DiskKeys(PlayWrite(disk, ws[0], at), ws[1..], at, r);
      assert ws[0] in ws;
    }
  }

  lemma {:induction false} SalvageWritesDo<I>(
    e: Engine<I>, m: ShellModule<I>, now: int, damaged: set<string>, ids: seq<string>)
    ensures forall w :: w in SalvageWrites(e, m, now, damaged, ids) ==> w.Do?
    decreases |ids|
  {
    if ids != [] { SalvageWritesDo(e, m, now, damaged, ids[1..]); }
  }

  lemma OnlyStartMakes<I>(e: Engine<I>, m: ShellModule<I>, step: Step<I>)
    requires Enabled(e, m, step)
    ensures forall w :: w in WritesOf(e, m, step) && w.Make? ==> step.StartRun? && step.ready && w.id == step.newId
  {
    if step.RecoverRuns? { SalvageWritesDo(e, m, step.now, step.damaged, step.listing); }
  }

  lemma IssuedStep<I>(e: Engine<I>, m: ShellModule<I>, step: Step<I>, at: int)
    requires Enabled(e, m, step) && IdsIssued(e) && StacksCount(e)
    ensures IdsIssued(Next(e, m, step, at))
  {
    var e' := Next(e, m, step, at);
    OnlyStartMakes(e, m, step);
    forall r | r in e'.disk ensures r in e'.issued {
      DiskKeys(e.disk, WritesOf(e, m, step), at, r);
    }
    RequestsQueued(e, m, step);
    var links := Requests(e, m, step);
    AdmittedFresh(e.active, links);
    var taken := Admitted(e.active, links);
    forall i | 0 <= i < |taken| ensures taken[i].run in e'.issued {
      assert taken[i] in taken;
    }
    assert |Advance(e.chain, step)| == |e.chain|;
    forall i | 0 <= i < |e'.chain| ensures e'.chain[i].run in e'.issued {
      if i < |e.chain| { assert Advance(e.chain, step)[i].run == e.chain[i].run; }
    }
  }

  /** Where a context comes from: an execution that begins, or itself before the step. */
  lemma ContextAfter<I>(e: Engine<I>, m: ShellModule<I>, step: Step<I>, c: nat)
    requires Enabled(e, m, step) && c < |ContextsOf(e, m, step)|
    ensures var now := ContextsOf(e, m, step)[c];
      if c < |e.contexts| then
        var was := e.contexts[c];
        && now.run == was.run && now.link == was.link
        && (|was.stack| == |was.calls| + was.leaked ==> |now.stack| == |now.calls| + now.leaked)
        && (forall name :: name in now.calls ==> name in was.calls || Opens(e, step, c, name))
      else step.Begin? && now == Context(step.link, e.chain[step.link].run, [], [], 0, false)
  {
  }

  /** The step opens this Stage in this context, and its start is recorded. */
  predicate Opens<I>(e: Engine<I>, step: Step<I>, c: nat, name: string) {
    step.OpenStage? && step.ctx == c && step.name == name && !step.refused
    && c < |e.contexts| && Recordable(e.disk, e.contexts[c].run)
  }

  /** Links keep their places and their Runs. */
  lemma ChainKept<I>(e: Engine<I>, m: ShellModule<I>, step: Step<I>, at: int, i: nat)
    requires Enabled(e, m, step) && i < |e.chain|
    ensures var chain' := Next(e, m, step, at).chain;
      i < |chain'| && chain'[i].run == e.chain[i].run
  {
    assert |Advance(e.chain, step)| == |e.chain|;
    assert Next(e, m, step, at).chain[i] == Advance(e.chain, step)[i];
  }

  lemma StacksStep<I>(e: Engine<I>, m: ShellModule<I>, step: Step<I>, at: int)
    requires Enabled(e, m, step) && StacksCount(e)
    ensures StacksCount(Next(e, m, step, at))
  {
    var e' := Next(e, m, step, at);
    forall c | 0 <= c < |e'.contexts| ensures StackCounts(e'.contexts[c], e'.chain) {
      ContextAfter(e, m, step, c);
      if c < |e.contexts| { assert StackCounts(e.contexts[c], e.chain); }
      ChainKept(e, m, step, at, e'.contexts[c].link);
    }
  }

  lemma CallsStep<I>(e: Engine<I>, m: ShellModule<I>, step: Step<I>, at: int)
    requires Enabled(e, m, step) && CallsLogged(e.disk, e.contexts) && IdsIssued(e)
    ensures CallsLogged(Next(e, m, step, at).disk, Next(e, m, step, at).contexts)
  {
    var e' := Next(e, m, step, at);
    forall c, k | 0 <= c < |e'.contexts| && 0 <= k < |e'.contexts[c].calls| && e'.contexts[c].run in e'.disk
      ensures HasStarted(e'.disk[e'.contexts[c].run].log, e'.contexts[c].calls[k])
    {
      CallLogged(e, m, step, at, c, e'.contexts[c].calls[k]);
    }
  }

  lemma CallLogged<I>(e: Engine<I>, m: ShellModule<I>, step: Step<I>, at: int, c: nat, name: string)
    requires Enabled(e, m, step) && CallsLogged(e.disk, e.contexts) && IdsIssued(e)
    requires c < |ContextsOf(e, m, step)| && name in ContextsOf(e, m, step)[c].calls
    ensures var run := ContextsOf(e, m, step)[c].run; var disk' := Next(e, m, step, at).disk;
      run in disk' ==> HasStarted(disk'[run].log, name)
  {
    var run, disk' := ContextsOf(e, m, step)[c].run, Next(e, m, step, at).disk;
    ContextAfter(e, m, step, c);
    if Opens(e, step, c, name) {
      OpenLogs(e, m, step, at);
    } else if run in disk' {
      OnlyStartMakes(e, m, step);
      WritesGrow(e.disk, WritesOf(e, m, step), at, run);
      var k :| 0 <= k < |e.contexts[c].calls| && e.contexts[c].calls[k] == name;
      HasStartedGrows(e.disk[run].log, disk'[run].log, name);
    }
  }

  lemma OpenLogs<I>(e: Engine<I>, m: ShellModule<I>, step: Step<I>, at: int)
    requires Enabled(e, m, step) && step.OpenStage? && !step.refused && Recordable(e.disk, e.contexts[step.ctx].run)
    ensures var run := e.contexts[step.ctx].run;
      run in Next(e, m, step, at).disk && HasStarted(Next(e, m, step, at).disk[run].log, step.name)
  {
    var run := e.contexts[step.ctx].run;
    var ws := WritesOf(e, m, step);
    assert ws == [Do(run, Started(step.name))];
    PlayOne(e.disk, ws[0], at);
    var dir := Apply(e.disk[run], Started(step.name), at);
    assert Next(e, m, step, at).disk[run] == dir;
    var started := EventsOf(e.disk[run].meta.value, Started(step.name), at)[0];
    assert Starts(started, step.name) && started == dir.log[|e.disk[run].log|];
  }

  lemma IssuedDead<I>(e: Engine<I>, m: ShellModule<I>, move: Move<I>)
    requires CanMove(e, m, move) && move.Dies? && IdsIssued(e)
    ensures IdsIssued(Moved(e, m, move))
  {
    var ws, e' := WritesOf(e, m, move.step), Moved(e, m, move);
    OnlyStartMakes(e, m, move.step);
    forall r | r in e'.disk ensures r in e'.issued {
      if r in PlayWrites(e.disk, ws[..move.n], move.at) {
        DiskKeys(e.disk, ws[..move.n], move.at, r);
      }
    }
  }

  lemma InvMove<I>(e: Engine<I>, m: ShellModule<I>, move: Move<I>)
    requires CanMove(e, m, move) && Inv(e)
    ensures Inv(Moved(e, m, move))
  {
    if move.Lives? {
      QueueStep(e, m, move.step, move.at);
      StacksStep(e, m, move.step, move.at);
      IssuedStep(e, m, move.step, move.at);
      CallsStep(e, m, move.step, move.at);
    } else {
      IssuedDead(e, m, move);
    }
  }

  /** The invariant holds after every sequence of moves, whatever the Module does and wherever the process dies. */
  lemma {:induction false} EngineKeeps<I>(m: ShellModule<I>, moves: seq<Move<I>>)
    requires Happens(m, moves)
    ensures Inv(Reached(m, moves))
    decreases |moves|
  {
    if moves != [] {
      var n := |moves| - 1;
      EngineKeeps(m, moves[..n]);
      InvMove(Reached(m, moves[..n]), m, moves[n]);
    }
  }

  // ---- The histories of what is on disk ------------------------------------------------------------

  lemma HistoriesStep<I>(e: Engine<I>, c: Chronicle, m: ShellModule<I>, move: Move<I>, orderly: bool)
    requires CanMove(e, m, move) && CallsLogged(e.disk, e.contexts) && Tells(c, e.disk) && AllFaithful(c, orderly)
    requires FaithfulStep(e, c, move.step) && (orderly ==> OrderlyStep(e, move.step))
    ensures AllFaithful(NoteMove(e, c, m, move), orderly)
  {
    var ws := WritesOf(e, m, move.step);
    StepFaithful(e, c, m, move.step, move.at, orderly);
    if move.Lives? {
      assert ws[..|ws|] == ws;
      NotesKeepFaith(c, ws, move.at, |ws|, orderly);
    } else {
      NotesKeepFaith(c, ws, move.at, move.n, orderly);
      if move.n < |ws| { PartKeepsFaith(NoteWrites(c, ws[..move.n], move.at), ws[move.n], move.at, move.k, orderly); }
    }
  }

  /** Faithful moves make faithful histories, and orderly ones if they were orderly. */
  lemma {:induction false} HistoriesFaithful<I>(m: ShellModule<I>, moves: seq<Move<I>>, orderly: bool)
    requires Happens(m, moves) && FaithfulMoves(m, moves) && (orderly ==> OrderlyMoves(m, moves))
    ensures AllFaithful(Histories(m, moves), orderly)
    decreases |moves|
  {
    if moves != [] {
      var n := |moves| - 1;
      HistoriesFaithful(m, moves[..n], orderly);
      EngineKeeps(m, moves[..n]);
      HistoriesTell(m, moves[..n]);
      HistoriesStep(Reached(m, moves[..n]), Histories(m, moves[..n]), m, moves[n], orderly);
    }
  }
}
