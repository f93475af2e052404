/** The commit protocol as it runs: shared maps and files updated at each turn of an operation. */
module WorkspaceWriters {
  import opened Prelude
  import opened Json
  import opened Commit
  import opened CommitProgress
  import opened CommitAnswers

  class WorkspaceWriter {
    const codec: Codec
    var files: map<File, string>
    var nonce: nat
    var ops: seq<Op>
    /** Per path, the operation whose settling the next one waits for. */
    var chains: map<string, nat>
    var active: set<string>
    ghost var initial: map<string, string>
    /** Every publication so far: a history the code itself does not keep. */
    var versions: seq<Version>

    ghost function View(): Writer
      reads this
    {
      Writer(files, nonce, ops, chains, active, initial, versions)
    }

    constructor (codec: Codec, records: map<string, string>)
      ensures this.codec == codec && View() == Boot(records)
    {
      this.codec := codec;
      files := map p | p in records :: Record(p) := records[p];
      nonce, ops, chains, active := 0, [], map[], {};
      initial, versions := records, [];
    }

    /** Queue behind the previous operation on the record; refuse a call from inside its own section. */
    method Serialize(parent: Option<nat>, path: string, request: Request) returns (accepted: bool)
      requires Enabled(View(), Call(parent, path, request))
      modifies this
      ensures View() == Next(codec, old(View()), Call(parent, path, request))
      ensures accepted <==> path !in HeldBy(old(View()), parent)
    {
      var held: set<string> := if parent.Some? then ops[parent.value].ancestry else {};
      if path in held {
        return false;
      }
      var previous := if path in chains then Some(chains[path]) else None;
      ops := ops + [Op(path, request, parent, held + {path}, previous, Waiting)];
      chains := chains[path := |ops| - 1];
      return true;
    }

    /** A tail that has settled and is still the last is dropped from the map. */
    method ForgetTail(path: string)
      requires Enabled(View(), Cleanup(path))
      modifies this
      ensures View() == Next(codec, old(View()), Cleanup(path))
    {
      chains := chains - {path};
    }

    method SetPhase(i: nat, phase: Phase)
      requires i < |ops|
      modifies this`ops
      ensures ops == old(ops)[i := old(ops)[i].(phase := phase)]
    {
      ops := ops[i := ops[i].(phase := phase)];
    }

    /** The operation ends, whatever its outcome, and its record is released. */
    method Release(i: nat, outcome: Outcome)
      requires i < |ops|
      modifies this`ops, this`active
      ensures ops == old(ops)[i := old(ops)[i].(phase := Settled(outcome))]
      ensures active == old(active) - {old(ops)[i].path}
    {
      active := active - {ops[i].path};
      SetPhase(i, Settled(outcome));
    }

    method EnterSection(i: nat)
      requires Enabled(View(), Enter(i))
      modifies this
      ensures View() == Next(codec, old(View()), Enter(i))
    {
      active := active + {ops[i].path};
      SetPhase(i, Entered);
    }

    /** Start a commit of `bytes` under a temporary name that no file has and no other operation drafts under. */
    method StartCommit(i: nat, bytes: string)
      requires i < |ops| && NamesDistinct(View())
      modifies this`ops, this`nonce
      ensures ops == old(ops)[i := old(ops)[i].(phase := Writing(bytes, old(nonce)))]
      ensures nonce == old(nonce) + 1
      ensures Temp(ops[i].path, ops[i].phase.nonce) !in files
      ensures forall j :: 0 <= j < |ops| && j != i && Drafts(ops[j]) ==> ops[j].phase.nonce != ops[i].phase.nonce
      ensures NamesDistinct(View())
    {
      SetPhase(i, Writing(bytes, nonce));
      nonce := nonce + 1;
    }

    method LookAtRecord(i: nat)
      requires Enabled(View(), Look(i)) && NamesDistinct(View())
      modifies this
      ensures View() == Next(codec, old(View()), Look(i)) && NamesDistinct(View())
      ensures |ops| == |old(ops)| && LookedRight(codec, old(View()), i, View())
    {
      LookExactly(codec, View(), i);
      NamesStep(codec, View(), Look(i));
      var op := ops[i];
      var content := Content(files, op.path);
      match op.request {
        case Put(bytes) => StartCommit(i, bytes);
        case Keep(bytes) =>
          if content.Some? {
            Release(i, if content.value == bytes then Replayed(|versions|) else Refused(|versions|));
          } else {
            StartCommit(i, bytes);
          }
        case Update(_) =>
          var current := ParsedOrNull(codec, content);
          if current.None? {
            Release(i, Refused(|versions|));
          } else {
            SetPhase(i, Mutating(current.value));
          }
        case Replace(expected, next) =>
          var current := ParsedOrNull(codec, content);
          if current.None? || GenerationOf(current.value) != Some(expected) {
            Release(i, Refused(|versions|));
          } else {
            StartCommit(i, codec.render(next));
          }
      }
    }

    method MutateRecord(i: nat)
      requires Enabled(View(), Mutate(i)) && NamesDistinct(View())
      modifies this
      ensures View() == Next(codec, old(View()), Mutate(i)) && NamesDistinct(View())
      ensures |ops| == |old(ops)| && MutatedRight(codec, old(View()), i, View())
    {
      MutateExactly(codec, View(), i);
      NamesStep(codec, View(), Mutate(i));
      var next := ops[i].request.mutate(ops[i].phase.current);
      if next.None? {
        Release(i, Refused(|versions|));
      } else {
        StartCommit(i, codec.render(next.value));
      }
    }

    /** The temporary file so far; a crash here leaves it behind. */
    method WriteTempPart(i: nat, k: nat)
      requires Enabled(View(), WritePart(i, k))
      modifies this
      ensures View() == Next(codec, old(View()), WritePart(i, k))
    {
      files := files[Temp(ops[i].path, ops[i].phase.nonce) := ops[i].phase.bytes[..k]];
      assert ops[i := ops[i].(phase := ops[i].phase)] == ops;
    }

    method FinishTempFile(i: nat)
      requires Enabled(View(), FinishTemp(i))
      modifies this
      ensures View() == Next(codec, old(View()), FinishTemp(i))
    {
      var phase := ops[i].phase;
      files := files[Temp(ops[i].path, phase.nonce) := phase.bytes];
      SetPhase(i, Written(phase.bytes, phase.nonce));
    }

    method RenameOverTarget(i: nat)
      requires Enabled(View(), Rename(i))
      modifies this
      ensures View() == Next(codec, old(View()), Rename(i))
    {
      var op := ops[i];
      var temp := Temp(op.path, op.phase.nonce);
      versions := versions + [Version(op.path, Some(i), files[temp])];
      files := (files - {temp})[Record(op.path) := files[temp]];
      SetPhase(i, Phase.Published(op.phase.bytes));
    }

    method VerifyPublished(i: nat)
      requires Enabled(View(), ReadBack(i))
      modifies this
      ensures View() == Next(codec, old(View()), ReadBack(i))
    {
      var published := Content(files, ops[i].path);
      Release(i, if published == Some(ops[i].phase.bytes) then Wrote else Broken);
    }

    /** An I/O error: the temporary file is removed and the error goes to the caller. */
    method GiveUp(i: nat)
      requires Enabled(View(), Fail(i))
      modifies this
      ensures View() == Next(codec, old(View()), Fail(i))
    {
      var op := ops[i];
      if op.phase.Writing? || op.phase.Written? {
        files := files - {Temp(op.path, op.phase.nonce)};
      }
      Release(i, Broken);
    }

    /**
      A synchronous caller cannot wait: it is refused before any effect while the record has an owner.
      A disk that fails leaves the record alone, and the temporary file is removed.
     */
    method WriteFileVerifiedSync(path: string, bytes: string, diskFails: bool) returns (written: bool)
      requires NamesDistinct(View())
      modifies this
      ensures written <==> path !in old(active) && !diskFails
      ensures forall p :: Content(files, p) == if written && p == path then Some(bytes) else Content(old(files), p)
      ensures versions == if written then old(versions) + [Version(path, None, bytes)] else old(versions)
      ensures View() == Next(codec, old(View()), if diskFails then SyncFail(path) else SyncWrite(path, bytes))
      ensures NamesDistinct(View())
    {
      NamesInSync(codec, View(), if diskFails then SyncFail(path) else SyncWrite(path, bytes));
      if path in active {
        return false;
      }
      var temp := Temp(path, nonce);
      nonce := nonce + 1;
      files := files[temp := bytes];
      if diskFails {
        files := files - {temp};
        assert files == old(files);
        return false;
      }
      files := (files - {temp})[Record(path) := files[temp]];
      versions := versions + [Version(path, None, bytes)];
      var published := Content(files, path);
      written := published == Some(bytes);
    }
  }
}
