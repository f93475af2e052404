/**
  Every readable Run on the engine's disk is told by its own history: the story that the moves,
  crashes included, made up as they happened.
 */
module RunRecordsKept {
  import opened RunRecords
  import opened RunEngine

  // ---- Histories -----------------------------------------------------------------------------

  type Tale = s: Story | WellTold(s) witness Story("", "", 0, true, [])

  /** Of each readable Run, what has happened to it since it was made. */
  type Chronicle = map<string, Tale>

  lemma Continue(s: Tale, h: Happening)
    requires Possible(Tell(s).dir, h)
    ensures var s' := s.(happenings := s.happenings + [h]);
      && WellTold(s') && Tell(s') == After(Tell(s), h)
      && (FaithfulThroughout(s') <==> FaithfulThroughout(s) && Faithful(Tell(s), h.op))
      && (OrderlyThroughout(s') <==> OrderlyThroughout(s) && Orderly(Tell(s).dir, h.op))
  {
    var s' := s.(happenings := s.happenings + [h]);
    assert Chapter(s', |s.happenings|) == s;
  }

  ghost function Continued(s: Tale, h: Happening): (s': Tale)
    requires Possible(Tell(s).dir, h)
    ensures Tell(s') == After(Tell(s), h) && s'.id == s.id && s'.happenings == s.happenings + [h] && s'.logged == s.logged
  {
    Continue(s, h);
    s.(happenings := s.happenings + [h])
  }

  ghost function NoteWrite(c: Chronicle, w: Write, at: int): Chronicle {
    match w
    case Make(id, owner) => c[id := Story(id, owner, at, true, [])]
    case Do(id, op) => if id in c then c[id := Continued(c[id], Did(op, at))] else c
    case Remove(id) => c - {id}
  }

  ghost function NoteWrites(c: Chronicle, ws: seq<Write>, at: int): Chronicle
    decreases |ws|
  {
    if ws == [] then c else NoteWrites(NoteWrite(c, ws[0], at), ws[1..], at)
  }

  /** How the process dying `k` parts into the operation is told; an operation of one part is whole. */
  ghost function Cut(dir: RunDir, op: RunOp, at: int, k: nat): (h: Happening)
    ensures Possible(dir, h) && h.op == op && h.at == at
  {
    if Possible(dir, Interrupted(op, at, k)) then Interrupted(op, at, k) else Did(op, at)
  }

  ghost function NotePart(c: Chronicle, w: Write, at: int, k: nat): Chronicle {
    match w
    case Make(id, owner) => if k == 0 then c - {id} else c[id := Story(id, owner, at, false, [])]
    case Do(id, op) => if id in c then c[id := Continued(c[id], Cut(Tell(c[id]).dir, op, at, k))] else c
    case Remove(id) => c - {id}
  }

  ghost function NoteMove<I>(e: Engine<I>, c: Chronicle, m: ShellModule<I>, move: Move<I>): Chronicle
    requires CanMove(e, m, move)
  {
    var ws := WritesOf(e, m, move.step);
    match move
    case Lives(_, at) => NoteWrites(c, ws, at)
    case Dies(_, at, n, k) =>
      var c' := NoteWrites(c, ws[..n], at);
      if n < |ws| then NotePart(c', ws[n], at, k) else c'
  }

  /** The histories the moves have made. */
  ghost function Histories<I>(m: ShellModule<I>, moves: seq<Move<I>>): Chronicle
    requires Happens(m, moves)
    decreases |moves|
  {
    if moves == [] then map[]
    else
      var earlier := moves[..|moves| - 1];
      NoteMove(Reached(m, earlier), Histories(m, earlier), m, moves[|moves| - 1])
  }

  // ---- They are the histories of what is on disk ---------------------------------------------

  ghost predicate ToldOn(c: Chronicle, disk: Disk, r: string) {
    && (r in c <==> Recordable(disk, r))
    && (r in c ==> Tell(c[r]).dir == disk[r] && c[r].id == r)
  }

  /** The readable Runs are those with a history, and each is as its own history leaves it. */
  ghost predicate Tells(c: Chronicle, disk: Disk) {
    forall r :: ToldOn(c, disk, r)
  }

  lemma MetaStays(dir: RunDir, op: RunOp, at: int)
    ensures Apply(dir, op, at).meta.Some? <==> dir.meta.Some?
  {
  }

  lemma PartHasMeta(dir: RunDir, op: RunOp, at: int, k: nat)
    requires Possible(dir, Interrupted(op, at, k))
    ensures ApplyPart(dir, op, at, k).meta.Some? <==> dir.meta.Some?
  {
  }

  lemma WriteTold(c: Chronicle, disk: Disk, w: Write, at: int)
    requires Tells(c, disk)
    ensures Tells(NoteWrite(c, w, at), PlayWrite(disk, w, at))
  {
    forall r ensures ToldOn(NoteWrite(c, w, at), PlayWrite(disk, w, at), r) {
      assert ToldOn(c, disk, r);
      if w.Do? && r == w.id && r in disk { MetaStays(disk[r], w.op, at); }
    }
  }

  lemma CutTold(c: Chronicle, disk: Disk, id: string, op: RunOp, at: int, k: nat)
    requires ToldOn(c, disk, id) && id in disk
    ensures ToldOn(NotePart(c, Do(id, op), at, k), PartWrite(disk, Do(id, op), at, k), id)
  {
    MetaStays(disk[id], op, at);
    if Possible(disk[id], Interrupted(op, at, k)) { PartHasMeta(disk[id], op, at, k); }
  }

  lemma PartTold(c: Chronicle, disk: Disk, w: Write, at: int, k: nat)
    requires Tells(c, disk)
    ensures Tells(NotePart(c, w, at, k), PartWrite(disk, w, at, k))
  {
    forall r ensures ToldOn(NotePart(c, w, at, k), PartWrite(disk, w, at, k), r) {
      assert ToldOn(c, disk, r);
      if w.Do? && r == w.id && r in disk { CutTold(c, disk, w.id, w.op, at, k); }
    }
  }

  lemma {:induction false} WritesTold(c: Chronicle, disk: Disk, ws: seq<Write>, at: int)
    requires Tells(c, disk)
    ensures Tells(NoteWrites(c, ws, at), PlayWrites(disk, ws, at))
    decreases |ws|
  {
    if ws != [] {
      WriteTold(c, disk, ws[0], at);
      WritesTold(NoteWrite(c, ws[0], at), PlayWrite(disk, ws[0], at), ws[1..], at);
    }
  }

  lemma MoveTold<I>(e: Engine<I>, c: Chronicle, m: ShellModule<I>, move: Move<I>)
    requires CanMove(e, m, move) && Tells(c, e.disk)
    ensures Tells(NoteMove(e, c, m, move), Moved(e, m, move).disk)
  {
    var ws := WritesOf(e, m, move.step);
    if move.Lives? {
      WritesTold(c, e.disk, ws, move.at);
    } else {
      WritesTold(c, e.disk, ws[..move.n], move.at);
      if move.n < |ws| {
        PartTold(NoteWrites(c, ws[..move.n], move.at), PlayWrites(e.disk, ws[..move.n], move.at), ws[move.n], move.at, move.k);
      }
    }
  }

  /** After every sequence of moves, crashes included, each readable Run is exactly as its own history leaves it. */
  lemma {:induction false} HistoriesTell<I>(m: ShellModule<I>, moves: seq<Move<I>>)
    requires Happens(m, moves)
    ensures Tells(Histories(m, moves), Reached(m, moves).disk)
    decreases |moves|
  {
    if moves != [] {
      var n := |moves| - 1;
      HistoriesTell(m, moves[..n]);
      MoveTold(Reached(m, moves[..n]), Histories(m, moves[..n]), m, moves[n]);
    }
  }

  // ---- Without a crash -------------------------------------------------------------------------

  ghost predicate AllCrashFree(c: Chronicle) { forall r :: r in c ==> CrashFree(c[r]) }

  lemma {:induction false} WritesCrashFree(c: Chronicle, ws: seq<Write>, at: int)
    requires AllCrashFree(c)
    ensures AllCrashFree(NoteWrites(c, ws, at))
    decreases |ws|
  {
    if ws != [] { WritesCrashFree(NoteWrite(c, ws[0], at), ws[1..], at); }
  }

  lemma {:induction false} CrashFreeHistories<I>(m: ShellModule<I>, moves: seq<Move<I>>)
    requires Happens(m, moves) && Reached(m, moves).crashes == 0
    ensures AllCrashFree(Histories(m, moves))
    decreases |moves|
  {
    if moves != [] {
      var n := |moves| - 1;
      CrashFreeHistories(m, moves[..n]);
      WritesCrashFree(Histories(m, moves[..n]), WritesOf(Reached(m, moves[..n]), m, moves[n].step), moves[n].at);
    }
  }

  // ---- Faithful moves --------------------------------------------------------------------------

  ghost predicate FaithfulOn(c: Chronicle, run: string, op: RunOp) {
    run in c ==> Faithful(Tell(c[run]), op)
  }

  /**
    The step does nothing unfaithful to a Run as it finds it, with what its log still lacks: a
    Module's event, an outcome's detail and a host's own operation are all that can be.
   */
  ghost predicate FaithfulStep<I>(e: Engine<I>, c: Chronicle, step: Step<I>) {
    match step
    case EmitEvent(i, name, detail) =>
      i < |e.contexts| && InStage(e.contexts[i]) ==> FaithfulOn(c, e.contexts[i].run, Appended(KindOf(name), detail))
    case Settle(i, Returned(outcome)) => i < |e.chain| ==> FaithfulOn(c, e.chain[i].run, Finished(outcome))
    case HostDoes(id, op) => FaithfulOn(c, id, op)
    case _ => true
  }

  ghost predicate FaithfulMoves<I>(m: ShellModule<I>, moves: seq<Move<I>>)
    requires Happens(m, moves)
    decreases |moves|
  {
    moves == [] ||
    (var earlier := moves[..|moves| - 1];
     FaithfulMoves(m, earlier)
     && FaithfulStep(Reached(m, earlier), Histories(m, earlier), moves[|moves| - 1].step))
  }

  /** What is faithful to a directory by itself is faithful with any debt its log may have. */
  lemma FaithfulOwing(r: Record, op: RunOp)
    requires Faithful(Record(r.dir, []), op)
    ensures Faithful(r, op)
  {
  }

  /** Faithful histories; `orderly`: orderly ones too. */
  ghost predicate AllFaithful(c: Chronicle, orderly: bool) {
    forall r :: r in c ==> FaithfulThroughout(c[r]) && (orderly ==> OrderlyThroughout(c[r]))
  }

  ghost predicate FaithfulWrite(c: Chronicle, w: Write, orderly: bool) {
    w.Do? && w.id in c ==> Faithful(Tell(c[w.id]), w.op) && (orderly ==> Orderly(Tell(c[w.id]).dir, w.op))
  }

  ghost predicate FaithfulWrites(c: Chronicle, ws: seq<Write>, at: int, orderly: bool)
    decreases |ws|
  {
    ws == [] || (FaithfulWrite(c, ws[0], orderly) && FaithfulWrites(NoteWrite(c, ws[0], at), ws[1..], at, orderly))
  }

  lemma NoteKeepsFaith(c: Chronicle, w: Write, at: int, orderly: bool)
    requires AllFaithful(c, orderly) && FaithfulWrite(c, w, orderly)
    ensures AllFaithful(NoteWrite(c, w, at), orderly)
  {
    if w.Do? && w.id in c { Continue(c[w.id], Did(w.op, at)); }
  }

  lemma PartKeepsFaith(c: Chronicle, w: Write, at: int, k: nat, orderly: bool)
    requires AllFaithful(c, orderly) && FaithfulWrite(c, w, orderly)
    ensures AllFaithful(NotePart(c, w, at, k), orderly)
  {
    if w.Do? && w.id in c { Continue(c[w.id], Cut(Tell(c[w.id]).dir, w.op, at, k)); }
  }

  lemma {:induction false} NotesKeepFaith(c: Chronicle, ws: seq<Write>, at: int, n: nat, orderly: bool)
    requires AllFaithful(c, orderly) && FaithfulWrites(c, ws, at, orderly) && n <= |ws|
    ensures AllFaithful(NoteWrites(c, ws[..n], at), orderly)
    ensures n < |ws| ==> FaithfulWrite(NoteWrites(c, ws[..n], at), ws[n], orderly)
    decreases |ws|
  {
    if n > 0 {
      NoteKeepsFaith(c, ws[0], at, orderly);
      NotesKeepFaith(NoteWrite(c, ws[0], at), ws[1..], at, n - 1, orderly);
      assert ws[..n][0] == ws[0] && ws[..n][1..] == ws[1..][..n - 1];
    }
  }

  lemma {:induction false} PlayConcat(disk: Disk, a: seq<Write>, b: seq<Write>, at: int)
    ensures PlayWrites(disk, a + b, at) == PlayWrites(PlayWrites(disk, a, at), b, at)
    decreases |a|
  {
    if a == [] {
      assert a + b == b;
    } else {
      assert (a + b)[1..] == a[1..] + b;
      PlayConcat(PlayWrite(disk, a[0], at), a[1..], b, at);
    }
  }

  lemma PlayOne(disk: Disk, w: Write, at: int)
    ensures PlayWrites(disk, [w], at) == PlayWrite(disk, w, at)
  {
    assert [w][1..] == [];
    assert PlayWrites(PlayWrite(disk, w, at), [], at) == PlayWrite(disk, w, at);
  }

  lemma {:induction false} PlayFrame(disk: Disk, ws: seq<Write>, at: int, r: string)
    requires forall i :: 0 <= i < |ws| ==> ws[i].id != r
    ensures r in PlayWrites(disk, ws, at) <==> r in disk
    ensures r in disk ==> PlayWrites(disk, ws, at)[r] == disk[r]
    decreases |ws|
  {
    if ws != [] {
      assert ws[0].id != r;
      PlayFrame(PlayWrite(disk, ws[0], at), ws[1..], at, r);
    }
  }

  // ---- The log only grows ---------------------------------------------------------------------

  lemma ApplyGrows(dir: RunDir, op: RunOp, at: int)
    ensures dir.log <= Apply(dir, op, at).log
  {
  }

  lemma {:induction false} WritesGrow(disk: Disk, ws: seq<Write>, at: int, r: string)
    requires forall i :: 0 <= i < |ws| && ws[i].Make? ==> ws[i].id != r
    ensures r in PlayWrites(disk, ws, at) ==> r in disk && disk[r].log <= PlayWrites(disk, ws, at)[r].log
    decreases |ws|
  {
    if ws != [] {
      assert ws[0].Make? ==> ws[0].id != r;
      var disk' := PlayWrite(disk, ws[0], at);
      if ws[0].Do? && ws[0].id == r && r in disk { ApplyGrows(disk[r], ws[0].op, at); }
      WritesGrow(disk', ws[1..], at, r);
    }
  }

  lemma HasStartedGrows(a: Log, b: Log, stage: string)
    requires a <= b && HasStarted(a, stage)
    ensures HasStarted(b, stage)
  {
    var e :| e in a && Starts(e, stage);
    var i :| 0 <= i < |a| && a[i] == e;
    assert b[i] == e;
  }

  // ---- Writes that are faithful whatever the log may lack -----------------------------------------

  ghost predicate SafeWrite(disk: Disk, w: Write) {
    w.Do? && Recordable(disk, w.id) ==> Faithful(Record(disk[w.id], []), w.op) && Orderly(disk[w.id], w.op)
  }

  ghost predicate SafeWrites(disk: Disk, ws: seq<Write>, at: int)
    decreases |ws|
  {
    ws == [] || (SafeWrite(disk, ws[0]) && SafeWrites(PlayWrite(disk, ws[0], at), ws[1..], at))
  }

  lemma SafeIsFaithful(c: Chronicle, disk: Disk, w: Write, orderly: bool)
    requires Tells(c, disk) && SafeWrite(disk, w)
    ensures FaithfulWrite(c, w, orderly)
  {
    if w.Do? && w.id in c {
      assert ToldOn(c, disk, w.id);
      FaithfulOwing(Tell(c[w.id]), w.op);
    }
  }

  lemma {:induction false} SafeAreFaithful(c: Chronicle, disk: Disk, ws: seq<Write>, at: int, orderly: bool)
    requires Tells(c, disk) && SafeWrites(disk, ws, at)
    ensures FaithfulWrites(c, ws, at, orderly)
    decreases |ws|
  {
    if ws != [] {
      SafeIsFaithful(c, disk, ws[0], orderly);
      WriteTold(c, disk, ws[0], at);
      SafeAreFaithful(NoteWrite(c, ws[0], at), PlayWrite(disk, ws[0], at), ws[1..], at, orderly);
    }
  }

  lemma {:induction false} SafeConcat(disk: Disk, a: seq<Write>, b: seq<Write>, at: int)
    ensures SafeWrites(disk, a + b, at) <==> SafeWrites(disk, a, at) && SafeWrites(PlayWrites(disk, a, at), b, at)
    decreases |a|
  {
    if a == [] {
      assert a + b == b;
    } else {
      assert (a + b)[1..] == a[1..] + b;
      SafeConcat(PlayWrite(disk, a[0], at), a[1..], b, at);
    }
  }

  lemma SafeOne(disk: Disk, w: Write, at: int)
    requires SafeWrite(disk, w)
    ensures SafeWrites(disk, [w], at)
  {
    assert [w][1..] == [];
  }

  /** Writes that touch one Run and leave its status alone. */
  ghost predicate Housekeeping(ws: seq<Write>, id: string) {
    forall i :: 0 <= i < |ws| ==> ws[i].Do? && ws[i].id == id && (ws[i].op.ResetAttempts? || ws[i].op.DeletedFile?)
  }

  lemma {:induction false} HousekeepingKeeps(disk: Disk, ws: seq<Write>, at: int, id: string)
    requires Housekeeping(ws, id) && id in disk && disk[id].meta.Some?
    ensures var disk' := PlayWrites(disk, ws, at);
      id in disk' && disk'[id].meta.Some? && disk'[id].meta.value.status == disk[id].meta.value.status
    decreases |ws|
  {
    if ws != [] {
      assert ws[0].Do? && ws[0].id == id;
      HousekeepingKeeps(PlayWrite(disk, ws[0], at), ws[1..], at, id);
    }
  }

  lemma {:induction false} HousekeepingSafe(disk: Disk, ws: seq<Write>, at: int, id: string)
    requires Housekeeping(ws, id)
    ensures SafeWrites(disk, ws, at)
    decreases |ws|
  {
    if ws != [] {
      assert ws[0].Do? && ws[0].id == id;
      HousekeepingSafe(PlayWrite(disk, ws[0], at), ws[1..], at, id);
    }
  }

  lemma RetrySafe<I>(e: Engine<I>, m: ShellModule<I>, ready: bool, id: string, at: int)
    ensures SafeWrites(e.disk, RetryWrites(e, DecideRetry(e, m, ready, id), id), at)
  {
    var d := DecideRetry(e, m, ready, id);
    if d.GoAhead? {
      var prep := Preparation(d.plan, id);
      HousekeepingKeeps(e.disk, prep, at, id);
      HousekeepingSafe(e.disk, prep, at, id);
      SafeConcat(e.disk, prep, Reopening(d.plan, id), at);
      if Carried(d.plan) {
        SafeOne(PlayWrites(e.disk, prep, at), Do(id, Reopened(d.plan.fromStage, d.plan.reason)), at);
      }
    } else if d.Refuse? {
      SafeOne(e.disk, Do(id, Refusal(e.disk[id].meta.value, d.condition)), at);
    }
  }

  lemma SalvageSafe<I>(e: Engine<I>, m: ShellModule<I>, now: int, damaged: set<string>, id: string)
    requires Salvage(e, m, now, damaged, id).Some?
    ensures id in e.disk && e.disk[id].meta.Some?
    ensures var op := Salvage(e, m, now, damaged, id).value.0;
      Faithful(Record(e.disk[id], []), op) && Orderly(e.disk[id], op) && Moves(op)
  {
  }

  lemma {:induction false} SweepSafe<I>(
    e: Engine<I>, m: ShellModule<I>, now: int, damaged: set<string>, ids: seq<string>, disk: Disk, at: int)
    requires forall i, j :: 0 <= i < j < |ids| ==> ids[i] != ids[j]
    requires forall i :: 0 <= i < |ids| && ids[i] in e.disk ==> ids[i] in disk && disk[ids[i]] == e.disk[ids[i]]
    ensures SafeWrites(disk, SalvageWrites(e, m, now, damaged, ids), at)
    decreases |ids|
  {
    if ids != [] {
      var s := Salvage(e, m, now, damaged, ids[0]);
      var rest := SalvageWrites(e, m, now, damaged, ids[1..]);
      if s.Some? {
        SalvageSafe(e, m, now, damaged, ids[0]);
        var disk' := PlayWrite(disk, Do(ids[0], s.value.0), at);
        assert ids[0] in disk && disk[ids[0]] == e.disk[ids[0]];
        forall i | 0 <= i < |ids[1..]| && ids[1..][i] in e.disk
          ensures ids[1..][i] in disk' && disk'[ids[1..][i]] == e.disk[ids[1..][i]]
        {
          assert ids[1..][i] == ids[i + 1] && ids[i + 1] != ids[0];
        }
        SweepSafe(e, m, now, damaged, ids[1..], disk', at);
        var first := Do(ids[0], s.value.0);
        assert ([first] + rest)[1..] == rest;
      } else {
        SweepSafe(e, m, now, damaged, ids[1..], disk, at);
        assert [] + rest == rest;
      }
    }
  }

  /** Each open `stage` call's start is on its Run's log, as long as the Run is on disk. */
  ghost predicate CallsLogged(disk: Disk, contexts: seq<Context>) {
    forall c, k :: 0 <= c < |contexts| && 0 <= k < |contexts[c].calls| && contexts[c].run in disk ==>
      HasStarted(disk[contexts[c].run].log, contexts[c].calls[k])
  }

  ghost predicate IdsIssued<I>(e: Engine<I>) {
    && (forall r :: r in e.disk ==> r in e.issued)
    && (forall i :: 0 <= i < |e.chain| ==> e.chain[i].run in e.issued)
    && (forall c :: 0 <= c < |e.contexts| ==> e.contexts[c].run in e.issued)
  }

  /** The writes of a faithful step are faithful, one after the other, and those of an orderly one orderly. */
  lemma StepFaithful<I>(e: Engine<I>, c: Chronicle, m: ShellModule<I>, step: Step<I>, at: int, orderly: bool)
    requires Enabled(e, m, step) && Tells(c, e.disk) && CallsLogged(e.disk, e.contexts)
    requires FaithfulStep(e, c, step) && (orderly ==> OrderlyStep(e, step))
    ensures FaithfulWrites(c, WritesOf(e, m, step), at, orderly)
  {
    if step.RetryRun? {
      RetrySafe(e, m, step.ready, step.id, at);
      SafeAreFaithful(c, e.disk, WritesOf(e, m, step), at, orderly);
    } else if step.RecoverRuns? {
      if step.ready { SweepSafe(e, m, step.now, step.damaged, step.listing, e.disk, at); }
      SafeAreFaithful(c, e.disk, WritesOf(e, m, step), at, orderly);
    } else {
      AtMostOne(e, m, step);
      if WritesOf(e, m, step) != [] { SingleFaithful(e, c, m, step, orderly); }
    }
  }

  lemma AtMostOne<I>(e: Engine<I>, m: ShellModule<I>, step: Step<I>)
    requires Enabled(e, m, step) && !step.RetryRun? && !step.RecoverRuns?
    ensures |WritesOf(e, m, step)| <= 1
  {
  }

  lemma SingleFaithful<I>(e: Engine<I>, c: Chronicle, m: ShellModule<I>, step: Step<I>, orderly: bool)
    requires Enabled(e, m, step) && Tells(c, e.disk) && CallsLogged(e.disk, e.contexts)
    requires FaithfulStep(e, c, step) && (orderly ==> OrderlyStep(e, step))
    requires !step.RetryRun? && !step.RecoverRuns? && WritesOf(e, m, step) != []
    ensures FaithfulWrite(c, WritesOf(e, m, step)[0], orderly)
  {
    var w := WritesOf(e, m, step)[0];
    if step.EmitEvent? || step.Settle? || step.HostDoes? {
      assert ToldOn(c, e.disk, w.id);
    } else {
      SingleSafe(e, m, step);
      SafeIsFaithful(c, e.disk, w, orderly);
    }
  }

  lemma SingleSafe<I>(e: Engine<I>, m: ShellModule<I>, step: Step<I>)
    requires Enabled(e, m, step) && CallsLogged(e.disk, e.contexts)
    requires !step.RetryRun? && !step.RecoverRuns? && !step.EmitEvent? && !step.Settle? && !step.HostDoes?
    requires WritesOf(e, m, step) != []
    ensures SafeWrite(e.disk, WritesOf(e, m, step)[0])
  {
  }
}
