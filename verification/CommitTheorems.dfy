/** What the commit protocol promises its callers. */
module CommitTheorems {
  import opened Prelude
  import opened Json
  import opened Commit
  import opened CommitLaws
  import opened CommitHistory

  // ---- Atomicity ---------------------------------------------------------------------------------

  /**
    Whatever step is taken, and whether or not it is the process's last, a record keeps its
    old bytes or holds the complete bytes of one new version.
   */
  lemma OldOrNew(codec: Codec, records: map<string, string>, steps: seq<Step>, path: string)
    requires Happens(codec, records, steps) && steps != []
    ensures var before := Reached(codec, records, steps[..|steps| - 1]);
      var after := Reached(codec, records, steps);
      || (Content(after.files, path) == Content(before.files, path))
      || (exists v: Version :: after.versions == before.versions + [v] && v.path == path
            && Content(after.files, path) == Some(v.bytes))
  {
    var n := |steps| - 1;
    var before, after := Reached(codec, records, steps[..n]), Reached(codec, records, steps);
    ProtocolKeeps(codec, records, steps[..n]);
    ProtocolKeeps(codec, records, steps);
    VersionsGrow(codec, before, steps[n]);
    if after.versions != before.versions {
      var v := after.versions[|before.versions|];
      assert after.versions == before.versions + [v];
      LatestSnoc(records, before.versions, v, path);
    }
  }

  lemma VersionsGrow(codec: Codec, w: Writer, step: Step)
    requires Enabled(w, step)
    ensures var w' := Next(codec, w, step);
      w.versions <= w'.versions && |w'.versions| <= |w.versions| + 1
  {
  }

  /** A record holds at every moment, inside a commit and after a crash alike, exactly its latest version. */
  lemma RecordIsLatestVersion(codec: Codec, records: map<string, string>, steps: seq<Step>, path: string)
    requires Happens(codec, records, steps)
    ensures var w := Reached(codec, records, steps);
      Content(w.files, path) == Latest(records, w.versions, path)
  {
    ProtocolKeeps(codec, records, steps);
  }

  /** Reading back what was just published always finds the committed bytes. */
  lemma ReadBackMatches(codec: Codec, records: map<string, string>, steps: seq<Step>, i: nat)
    requires Happens(codec, records, steps) && Enabled(Reached(codec, records, steps), ReadBack(i))
    ensures Next(codec, Reached(codec, records, steps), ReadBack(i)).ops[i].phase == Settled(Wrote)
  {
    ProtocolKeeps(codec, records, steps);
    var w := Reached(codec, records, steps);
    assert PhaseSound(codec, w.ops[i], i, w.files, w.initial, w.versions);
  }

  // ---- No lost update ------------------------------------------------------------------------------

  /** Operation `i` published version `k`: its request applied to the version just before. */
  ghost predicate Published(codec: Codec, records: map<string, string>, w: Writer, i: nat, k: nat) {
    && i < |w.ops| && k < |w.versions|
    && w.versions[k].writer == Some(i) && w.versions[k].path == w.ops[i].path
    && Effect(codec, w.ops[i].request, Latest(records, w.versions[..k], w.ops[i].path)) == Some(w.versions[k].bytes)
  }

  /** Every write that resolved is in the record's history exactly once, applied to the version just before it. */
  lemma NothingLost(codec: Codec, records: map<string, string>, steps: seq<Step>, i: nat)
    requires Happens(codec, records, steps) && i < |Reached(codec, records, steps).ops|
    requires Reached(codec, records, steps).ops[i].phase == Settled(Wrote)
    ensures var w := Reached(codec, records, steps);
      && (exists k: nat :: Published(codec, records, w, i, k))
      && (forall k: nat, l: nat :: Published(codec, records, w, i, k) && Published(codec, records, w, i, l) ==> k == l)
  {
    ProtocolKeeps(codec, records, steps);
    var w := Reached(codec, records, steps);
    assert PhaseSound(codec, w.ops[i], i, w.files, w.initial, w.versions);
    var k :| 0 <= k < |w.versions| && w.versions[k].writer == Some(i);
    assert VersionSound(codec, w.ops, w.initial, w.versions, k);
    assert Published(codec, records, w, i, k);
    forall k: nat, l: nat | k < l && Published(codec, records, w, i, k) && Published(codec, records, w, i, l)
      ensures false
    {
      assert SamePathWriters(w.versions[k], w.versions[l]);
    }
  }

  /** Turns follow call order. */
  lemma TurnsFollowCalls(codec: Codec, records: map<string, string>, steps: seq<Step>)
    requires Happens(codec, records, steps)
    ensures InCallOrder(Reached(codec, records, steps).versions)
    ensures InOrder(Reached(codec, records, steps).ops)
  {
    ProtocolKeeps(codec, records, steps);
  }

  /** While an operation is inside its section, a synchronous write of that record is refused and changes nothing. */
  lemma SyncWriterRefused(codec: Codec, records: map<string, string>, steps: seq<Step>, i: nat, bytes: string)
    requires Happens(codec, records, steps)
    requires i < |Reached(codec, records, steps).ops| && InSection(Reached(codec, records, steps).ops[i])
    ensures var w := Reached(codec, records, steps);
      Next(codec, w, SyncWrite(w.ops[i].path, bytes)) == w
  {
    ProtocolKeeps(codec, records, steps);
    var w := Reached(codec, records, steps);
    assert Owns(w.ops, w.ops[i].path);
  }

  // ---- Immutable identities ------------------------------------------------------------------------

  /** Only immutable writes name this record. */
  ghost predicate KeptOnly(w: Writer, path: string) {
    && (forall i :: 0 <= i < |w.ops| && w.ops[i].path == path ==> w.ops[i].request.Keep?)
    && (forall k :: 0 <= k < |w.versions| && w.versions[k].path == path ==> w.versions[k].writer.Some?)
  }

  lemma {:induction false} KeptSince(codec: Codec, w: Writer, path: string, k: nat, l: nat)
    requires Sound(codec, w) && KeptOnly(w, path) && k <= l <= |w.versions|
    requires Latest(w.initial, w.versions[..k], path).Some?
    ensures Latest(w.initial, w.versions[..l], path) == Latest(w.initial, w.versions[..k], path)
    decreases l - k
  {
    if k < l {
      KeptSince(codec, w, path, k, l - 1);
      var v := w.versions[l - 1];
      assert w.versions[..l] == w.versions[..l - 1] + [v];
      LatestSnoc(w.initial, w.versions[..l - 1], v, path);
      assert VersionSound(codec, w.ops, w.initial, w.versions, l - 1);
    }
  }

  /** An immutable record's bytes never change, whatever happens between two moments of a run. */
  lemma ImmutableForever(codec: Codec, records: map<string, string>, steps: seq<Step>, n: nat, path: string)
    requires Happens(codec, records, steps) && n <= |steps| && KeptOnly(Reached(codec, records, steps), path)
    ensures Happens(codec, records, steps[..n])
    ensures Content(Reached(codec, records, steps[..n]).files, path).Some? ==>
      Content(Reached(codec, records, steps).files, path) == Content(Reached(codec, records, steps[..n]).files, path)
  {
    HistoryIsPrefix(codec, records, steps, n);
    ProtocolKeeps(codec, records, steps[..n]);
    ProtocolKeeps(codec, records, steps);
    StaysKept(codec, Reached(codec, records, steps), Reached(codec, records, steps[..n]).versions, path);
    RecordIsLatestVersion(codec, records, steps[..n], path);
    RecordIsLatestVersion(codec, records, steps, path);
  }

  lemma StaysKept(codec: Codec, w: Writer, early: seq<Version>, path: string)
    requires Sound(codec, w) && KeptOnly(w, path) && early <= w.versions
    ensures Latest(w.initial, early, path).Some? ==>
      Latest(w.initial, w.versions, path) == Latest(w.initial, early, path)
  {
    assert w.versions[..|early|] == early && w.versions[..|w.versions|] == w.versions;
    if Latest(w.initial, early, path).Some? {
      KeptSince(codec, w, path, |early|, |w.versions|);
    }
  }

  lemma {:induction false} HistoryIsPrefix(codec: Codec, records: map<string, string>, steps: seq<Step>, n: nat)
    requires Happens(codec, records, steps) && n <= |steps|
    ensures Happens(codec, records, steps[..n])
    ensures Reached(codec, records, steps[..n]).versions <= Reached(codec, records, steps).versions
    decreases |steps|
  {
    if n == |steps| {
      assert steps[..n] == steps;
    } else {
      var last := |steps| - 1;
      HistoryIsPrefix(codec, records, steps[..last], n);
      assert steps[..last][..n] == steps[..n];
      VersionsGrow(codec, Reached(codec, records, steps[..last]), steps[last]);
    }
  }

  /** An immutable write that settles without an I/O failure: written, replayed on the same bytes, or refused on others. */
  lemma ImmutableVerdict(codec: Codec, records: map<string, string>, steps: seq<Step>, i: nat)
    requires Happens(codec, records, steps) && i < |Reached(codec, records, steps).ops|
    requires Reached(codec, records, steps).ops[i].request.Keep?
    ensures var w := Reached(codec, records, steps); var op := w.ops[i];
      match op.phase
      case Settled(Replayed(k)) => k <= |w.versions| && Latest(records, w.versions[..k], op.path) == Some(op.request.bytes)
      case Settled(Refused(k)) =>
        k <= |w.versions|
        && Latest(records, w.versions[..k], op.path).Some?
        && Latest(records, w.versions[..k], op.path) != Some(op.request.bytes)
      case Settled(Wrote) =>
        exists k: nat :: Published(codec, records, w, i, k) && w.versions[k].bytes == op.request.bytes
                         && Latest(records, w.versions[..k], op.path).None?
      case _ => true
  {
    ProtocolKeeps(codec, records, steps);
    var w := Reached(codec, records, steps);
    assert PhaseSound(codec, w.ops[i], i, w.files, w.initial, w.versions);
    if w.ops[i].phase == Settled(Wrote) {
      NothingLost(codec, records, steps, i);
      var k: nat :| Published(codec, records, w, i, k);
      assert w.versions[k].bytes == w.ops[i].request.bytes;
    }
  }

  // ---- Generation compare-and-swap ------------------------------------------------------------------

  /** Every writer of the record replaces generation `g`, and writes a record of another generation. */
  ghost predicate AllReplace(codec: Codec, w: Writer, path: string, g: int) {
    && (forall i :: 0 <= i < |w.ops| && w.ops[i].path == path ==>
          w.ops[i].request.Replace? && w.ops[i].request.expected == g
          && RoundTrips(codec, w.ops[i].request.next) && GenerationOf(w.ops[i].request.next) != Some(g))
    && (forall k :: 0 <= k < |w.versions| && w.versions[k].path == path ==> w.versions[k].writer.Some?)
  }

  /** After the first replacement the record no longer carries the expected generation, so there is no second. */
  lemma {:induction false} ReplacedOnce(codec: Codec, w: Writer, path: string, g: int, k: nat, l: nat)
    requires Sound(codec, w) && AllReplace(codec, w, path, g) && k < l <= |w.versions| && w.versions[k].path == path
    ensures Latest(w.initial, w.versions[..l], path) == Some(w.versions[k].bytes)
    ensures forall j :: k < j < l ==> w.versions[j].path != path
    decreases l
  {
    var v := w.versions[l - 1];
    assert w.versions[..l] == w.versions[..l - 1] + [v];
    LatestSnoc(w.initial, w.versions[..l - 1], v, path);
    if l - 1 > k {
      ReplacedOnce(codec, w, path, g, k, l - 1);
      assert VersionSound(codec, w.ops, w.initial, w.versions, k);
      assert VersionSound(codec, w.ops, w.initial, w.versions, l - 1);
    }
  }

  lemma {:induction false} UntouchedLatest(initial: map<string, string>, versions: seq<Version>, path: string, k: nat)
    requires k <= |versions| && forall j :: 0 <= j < |versions| ==> versions[j].path != path
    ensures Latest(initial, versions[..k], path) == Latest(initial, [], path)
    decreases k
  {
    if k > 0 {
      assert versions[..k] == versions[..k - 1] + [versions[k - 1]];
      LatestSnoc(initial, versions[..k - 1], versions[k - 1], path);
      UntouchedLatest(initial, versions, path, k - 1);
    } else {
      assert versions[..0] == [];
    }
  }

  ghost predicate Won(w: Writer, path: string, i: nat) {
    i < |w.ops| && w.ops[i].path == path && w.ops[i].phase == Settled(Wrote)
  }

  /**
    Of any number of concurrent replacements of one generation, each writing another, at most one
    ever succeeds, whatever becomes of the others.
   */
  lemma AtMostOneReplaces(codec: Codec, records: map<string, string>, steps: seq<Step>, path: string, g: int, i: nat, j: nat)
    requires Happens(codec, records, steps) && AllReplace(codec, Reached(codec, records, steps), path, g)
    requires Won(Reached(codec, records, steps), path, i) && Won(Reached(codec, records, steps), path, j)
    ensures i == j
  {
    ProtocolKeeps(codec, records, steps);
    var w := Reached(codec, records, steps);
    var k := VersionOf(codec, w, path, i);
    var l := VersionOf(codec, w, path, j);
    if k < l { ReplacedOnce(codec, w, path, g, k, |w.versions|); }
    if l < k { ReplacedOnce(codec, w, path, g, l, |w.versions|); }
  }

  lemma VersionOf(codec: Codec, w: Writer, path: string, i: nat) returns (k: nat)
    requires Sound(codec, w) && Won(w, path, i)
    ensures k < |w.versions| && w.versions[k].writer == Some(i) && w.versions[k].path == path
  {
    assert PhaseSound(codec, w.ops[i], i, w.files, w.initial, w.versions);
    k :| 0 <= k < |w.versions| && w.versions[k].writer == Some(i);
    assert VersionSound(codec, w.ops, w.initial, w.versions, k);
  }

  /**
    Any number of concurrent replacements of one generation, each writing another: if all
    of them have settled, none lost to a failure of the disk or of the process, exactly one
    succeeded.
   */
  lemma ExactlyOneReplaces(codec: Codec, records: map<string, string>, steps: seq<Step>, path: string, g: int)
    returns (winner: nat)
    requires Happens(codec, records, steps)
    requires var w := Reached(codec, records, steps);
      && AllReplace(codec, w, path, g)
      && (exists i :: 0 <= i < |w.ops| && w.ops[i].path == path)
      && (forall i :: 0 <= i < |w.ops| && w.ops[i].path == path ==>
            w.ops[i].phase.Settled? && !w.ops[i].phase.outcome.Broken? && !w.ops[i].phase.outcome.Lost?)
    requires ParsedOrNull(codec, Latest(records, [], path)).Some?
    requires GenerationOf(ParsedOrNull(codec, Latest(records, [], path)).value) == Some(g)
    ensures Won(Reached(codec, records, steps), path, winner)
    ensures forall i: nat :: Won(Reached(codec, records, steps), path, i) ==> i == winner
  {
    ProtocolKeeps(codec, records, steps);
    var w := Reached(codec, records, steps);
    var k := FirstReplacement(codec, w, path, g);
    assert VersionSound(codec, w.ops, w.initial, w.versions, k);
    winner := w.versions[k].writer.value;
    assert PublishedBy(w.versions, winner);
    assert PhaseSound(codec, w.ops[winner], winner, w.files, w.initial, w.versions);
    ReplacedOnce(codec, w, path, g, k, |w.versions|);
    forall i: nat | Won(w, path, i) ensures i == winner {
      assert PhaseSound(codec, w.ops[i], i, w.files, w.initial, w.versions);
      var l :| 0 <= l < |w.versions| && w.versions[l].writer == Some(i);
      assert VersionSound(codec, w.ops, w.initial, w.versions, l);
      if l < k { ReplacedOnce(codec, w, path, g, l, |w.versions|); }
    }
  }

  lemma FirstReplacement(codec: Codec, w: Writer, path: string, g: int) returns (k: nat)
    requires Sound(codec, w) && AllReplace(codec, w, path, g)
    requires exists i :: 0 <= i < |w.ops| && w.ops[i].path == path
    requires forall i :: 0 <= i < |w.ops| && w.ops[i].path == path ==>
      w.ops[i].phase.Settled? && !w.ops[i].phase.outcome.Broken? && !w.ops[i].phase.outcome.Lost?
    requires ParsedOrNull(codec, Latest(w.initial, [], path)).Some?
    requires GenerationOf(ParsedOrNull(codec, Latest(w.initial, [], path)).value) == Some(g)
    ensures k < |w.versions| && w.versions[k].path == path
  {
    var i :| 0 <= i < |w.ops| && w.ops[i].path == path;
    assert PhaseSound(codec, w.ops[i], i, w.files, w.initial, w.versions);
    if w.ops[i].phase == Settled(Wrote) {
      k :| 0 <= k < |w.versions| && w.versions[k].writer == Some(i);
      assert VersionSound(codec, w.ops, w.initial, w.versions, k);
    } else if j :| 0 <= j < |w.versions| && w.versions[j].path == path {
      k := j;
    } else {
      var version := w.ops[i].phase.outcome.version;
      UntouchedLatest(w.initial, w.versions, path, version);
      assert false;
    }
  }

  // ---- Re-entry and progress -------------------------------------------------------------------------

  /** `held` follows the asynchronous ancestry, and no operation shares a record with an ancestor. */
  ghost predicate Family(ops: seq<Op>, i: nat)
    requires i < |ops|
  {
    match ops[i].parent
    case None => ops[i].ancestry == {ops[i].path}
    case Some(a) => a < i && ops[i].path !in ops[a].ancestry && ops[i].ancestry == ops[a].ancestry + {ops[i].path}
  }

  ghost predicate Families(ops: seq<Op>) {
    forall i :: 0 <= i < |ops| ==> Family(ops, i)
  }

  lemma {:induction false} FamiliesKept(codec: Codec, records: map<string, string>, steps: seq<Step>)
    requires Happens(codec, records, steps)
    ensures Families(Reached(codec, records, steps).ops)
    decreases |steps|
  {
    if steps != [] {
      var n := |steps| - 1;
      FamiliesKept(codec, records, steps[..n]);
      FamilyStep(codec, Reached(codec, records, steps[..n]), steps[n]);
    }
  }

  lemma StaysKin(codec: Codec, w: Writer, step: Step)
    requires Enabled(w, step)
    ensures var ops' := Next(codec, w, step).ops;
      && |w.ops| <= |ops'| <= |w.ops| + 1 && (|w.ops| < |ops'| ==> step.Call?)
      && forall i :: 0 <= i < |w.ops| ==> Kin(w.ops[i], ops'[i])
  {
    if InsideStep(step) { assert Next(codec, w, step) == Advance(w, step.op, Taken(codec, w, step)); }
  }

  lemma Joins(codec: Codec, w: Writer, step: Step)
    requires Enabled(w, step) && step.Call? && |w.ops| < |Next(codec, w, step).ops|
    ensures Family(Next(codec, w, step).ops, |w.ops|)
  {
  }

  lemma FamilyStep(codec: Codec, w: Writer, step: Step)
    requires Enabled(w, step) && Families(w.ops)
    ensures Families(Next(codec, w, step).ops)
  {
    var ops' := Next(codec, w, step).ops;
    StaysKin(codec, w, step);
    if step.Call? && |w.ops| < |ops'| { Joins(codec, w, step); }
    SameFamilies(w.ops, ops');
  }

  /** The same call, whatever its phase. */
  predicate Kin(op: Op, op': Op) {
    op.path == op'.path && op.parent == op'.parent && op.ancestry == op'.ancestry
  }

  lemma SameFamilies(ops: seq<Op>, ops': seq<Op>)
    requires Families(ops) && |ops| <= |ops'| && forall i :: 0 <= i < |ops| ==> Kin(ops[i], ops'[i])
    requires |ops'| <= |ops| + 1 && (|ops| < |ops'| ==> Family(ops', |ops|))
    ensures Families(ops')
  {
    forall i | 0 <= i < |ops'| ensures Family(ops', i) {
      if i < |ops| { assert Family(ops, i); }
    }
  }

  ghost predicate Ancestor(ops: seq<Op>, a: nat, i: nat)
    requires i < |ops| && Families(ops)
    decreases i
  {
    ops[i].parent.Some? && (
      assert Family(ops, i);
      ops[i].parent.value == a || Ancestor(ops, a, ops[i].parent.value))
  }

  lemma {:induction false} AncestorsHold(ops: seq<Op>, a: nat, i: nat)
    requires i < |ops| && Families(ops) && Ancestor(ops, a, i)
    ensures a < i && ops[a].path in ops[i].ancestry && ops[a].path != ops[i].path
    decreases i
  {
    assert Family(ops, i);
    var p := ops[i].parent.value;
    if p == a {
      assert Family(ops, a);
    } else {
      AncestorsHold(ops, a, p);
    }
  }

  /** No operation ever waits for the record its own ancestor holds: the nested write is refused instead. */
  lemma NeverBehindAncestor(codec: Codec, records: map<string, string>, steps: seq<Step>, a: nat, i: nat)
    requires Happens(codec, records, steps) && i < |Reached(codec, records, steps).ops|
    ensures Families(Reached(codec, records, steps).ops)
    ensures var ops := Reached(codec, records, steps).ops;
      Ancestor(ops, a, i) ==> a < i && ops[a].path != ops[i].path
  {
    FamiliesKept(codec, records, steps);
    if Ancestor(Reached(codec, records, steps).ops, a, i) {
      AncestorsHold(Reached(codec, records, steps).ops, a, i);
    }
  }

  /** A call nested inside a section of the same record is refused, and so is a deeper one. */
  lemma NestedCallRefused(
    codec: Codec, records: map<string, string>, steps: seq<Step>, a: nat, i: nat, request: Request)
    requires Happens(codec, records, steps) && i < |Reached(codec, records, steps).ops|
    requires Families(Reached(codec, records, steps).ops)
    requires a == i || Ancestor(Reached(codec, records, steps).ops, a, i)
    ensures a < |Reached(codec, records, steps).ops|
    ensures var w := Reached(codec, records, steps);
      Next(codec, w, Call(Some(i), w.ops[a].path, request)) == w
  {
    var ops := Reached(codec, records, steps).ops;
    if a == i {
      assert Family(ops, i);
    } else {
      AncestorsHold(ops, a, i);
    }
  }

  /** The first unsettled operation on a record can always take its next step. */
  lemma FirstCanMove(codec: Codec, records: map<string, string>, steps: seq<Step>, i: nat) returns (step: Step)
    requires Happens(codec, records, steps)
    requires var w := Reached(codec, records, steps);
      && i < |w.ops| && !w.ops[i].phase.Settled?
      && forall j :: 0 <= j < i && w.ops[j].path == w.ops[i].path ==> w.ops[j].phase.Settled?
    ensures Enabled(Reached(codec, records, steps), step)
    ensures Next(codec, Reached(codec, records, steps), step).ops[i].phase != Reached(codec, records, steps).ops[i].phase
  {
    ProtocolKeeps(codec, records, steps);
    var w := Reached(codec, records, steps);
    assert PhaseSound(codec, w.ops[i], i, w.files, w.initial, w.versions);
    assert LinkedAt(w.ops, i);
    match w.ops[i].phase
    case Waiting => step := Enter(i);
    case Entered => step := Look(i);
    case Mutating(_) => step := Mutate(i);
    case Writing(_, _) => step := FinishTemp(i);
    case Written(_, _) => step := Rename(i);
    case Published(_) => step := ReadBack(i);
  }
}
