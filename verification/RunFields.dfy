/** What a Run's record and its events hold, from what has happened to it. */
module RunFields {
  import opened Prelude
  import opened RunRecords

  /** The last happening's operation of a kind; an interrupted one has committed its metadata. */
  function Last(happenings: seq<Happening>, kind: RunOp -> bool): Option<RunOp> {
    if happenings == [] then None
    else if kind(happenings[|happenings| - 1].op) then Some(happenings[|happenings| - 1].op)
    else Last(happenings[..|happenings| - 1], kind)
  }

  predicate PutsBack(op: RunOp) { op.Resumed? || op.Recovered? || op.Reopened? }

  predicate EndsDone(op: RunOp) { op.Finished? && op.outcome.EndDone? }

  predicate EndsSkipped(op: RunOp) { op.Finished? && op.outcome.EndSkipped? }

  /** The attempts counted since they were last reset. */
  function Attempts(happenings: seq<Happening>): nat {
    if happenings == [] then 0
    else
      var n := |happenings| - 1;
      match happenings[n].op
      case ResetAttempts => 0
      case AttemptStarted => Attempts(happenings[..n]) + 1
      case _ => Attempts(happenings[..n])
  }

  /** The file's text: the last one written under that name since it was last deleted. */
  function FileText(happenings: seq<Happening>, name: string): Option<string> {
    match Last(happenings, (op: RunOp) => OnFile(op, name))
    case Some(WroteFile(_, text)) => Some(text)
    case _ => None
  }

  predicate MovesWait(op: RunOp) { Moves(op) && !op.Started? }

  predicate MovesHint(op: RunOp) { op.FailedIn? || PutsBack(op) }

  predicate MovesStage(op: RunOp) { op.FailedIn? || PutsBack(op) || EndsDone(op) }

  predicate MovesSkip(op: RunOp) { EndsSkipped(op) || op.Reopened? }

  predicate MovesConnection(op: RunOp) { op.FailedIn? || op.Reopened? }

  function StatusAfter(last: Option<RunOp>): Status {
    match last
    case Some(Started(_)) => Running
    case Some(FailedIn(_, _, _, _, _)) => Failed
    case Some(BlockedOn(_)) => Blocked
    case Some(Finished(EndDone(_, _))) => Done
    case Some(Finished(EndSkipped(_))) => Skipped
    case _ => Pending
  }

  ghost predicate RemembersStatus(h: seq<Happening>, meta: Meta) {
    && meta.status == StatusAfter(Last(h, Moves))
    && meta.attempts == Attempts(h)
    && meta.wait == (match Last(h, MovesWait) case Some(BlockedOn(wait)) => Some(wait) case _ => None)
  }

  ghost predicate RemembersFailure(h: seq<Happening>, meta: Meta) {
    && meta.failureHint == (match Last(h, MovesHint) case Some(FailedIn(_, _, hint, _, _)) => Some(hint) case _ => None)
    && meta.failedStage == (match Last(h, MovesStage) case Some(FailedIn(stage, _, _, _, _)) => Some(stage) case _ => None)
    && meta.connectionState == (match Last(h, MovesConnection) case Some(FailedIn(_, _, _, state, _)) => state case _ => None)
  }

  ghost predicate RemembersEnd(h: seq<Happening>, meta: Meta) {
    && meta.skipReason == (match Last(h, MovesSkip) case Some(Finished(EndSkipped(reason))) => reason case _ => None)
    && meta.summary == (match Last(h, EndsDone) case Some(Finished(EndDone(summary, _))) => summary case _ => None)
  }

  lemma LastSnoc(h: seq<Happening>, x: Happening, kind: RunOp -> bool)
    ensures Last(h + [x], kind) == if kind(x.op) then Some(x.op) else Last(h, kind)
  {
    assert (h + [x])[..|h|] == h;
  }

  lemma StatusRemembered(h: seq<Happening>, x: Happening, meta: Meta)
    requires RemembersStatus(h, meta)
    ensures RemembersStatus(h + [x], Change(meta, x.op))
  {
    LastSnoc(h, x, Moves);
    LastSnoc(h, x, MovesWait);
    assert (h + [x])[..|h|] == h;
  }

  lemma FailureRemembered(h: seq<Happening>, x: Happening, meta: Meta)
    requires RemembersFailure(h, meta)
    ensures RemembersFailure(h + [x], Change(meta, x.op))
  {
    LastSnoc(h, x, MovesHint);
    LastSnoc(h, x, MovesStage);
    LastSnoc(h, x, MovesConnection);
  }

  lemma EndRemembered(h: seq<Happening>, x: Happening, meta: Meta)
    requires RemembersEnd(h, meta)
    ensures RemembersEnd(h + [x], Change(meta, x.op))
  {
    LastSnoc(h, x, MovesSkip);
    LastSnoc(h, x, EndsDone);
  }

  /** The last write or deletion of that name, if it was allowed. */
  predicate OnFile(op: RunOp, name: string) {
    (op.WroteFile? || op.DeletedFile?) && op.name == name && ValidFileName(name)
  }

  lemma FileRemembered(h: seq<Happening>, x: Happening, files: map<string, string>, name: string)
    requires FileText(h, name) == if name in files then Some(files[name]) else None
    ensures var files' := if OnFile(x.op, name) || !(x.op.WroteFile? || x.op.DeletedFile?) || ValidFileName(x.op.name)
                          then ChangeFiles(files, x.op) else files;
      FileText(h + [x], name) == if name in files' then Some(files'[name]) else None
  {
    LastSnoc(h, x, (op: RunOp) => OnFile(op, name));
  }

  /** A file operation on a name that is not a file's is refused; all others change record and files. */
  lemma AfterChanges(r: Record, h: Happening)
    requires r.dir.meta.Some? && Possible(r.dir, h)
    ensures var dir' := After(r, h).dir;
      && dir'.meta == Some(Change(r.dir.meta.value, h.op))
      && dir'.files == if (h.op.WroteFile? || h.op.DeletedFile?) && !ValidFileName(h.op.name) then r.dir.files
                       else ChangeFiles(r.dir.files, h.op)
  {
  }

  /** All of that, of a Run's directory and one of its files. */
  ghost predicate Remembers(s: Story, dir: RunDir, name: string) {
    && dir.meta.Some? && dir.meta.value.id == s.id && dir.meta.value.owner == s.owner
    && RemembersStatus(s.happenings, dir.meta.value)
    && RemembersFailure(s.happenings, dir.meta.value)
    && RemembersEnd(s.happenings, dir.meta.value)
    && FileText(s.happenings, name) == if name in dir.files then Some(dir.files[name]) else None
  }

  lemma RemembersNext(s: Story, r: Record, h: Happening, name: string)
    requires Remembers(s, r.dir, name) && Possible(r.dir, h)
    ensures Remembers(s.(happenings := s.happenings + [h]), After(r, h).dir, name)
  {
    AfterChanges(r, h);
    var meta := r.dir.meta.value;
    StatusRemembered(s.happenings, h, meta);
    FailureRemembered(s.happenings, h, meta);
    EndRemembered(s.happenings, h, meta);
    FileRemembered(s.happenings, h, r.dir.files, name);
    IdentityStays(meta, h.op);
  }

  lemma IdentityStays(meta: Meta, op: RunOp)
    ensures Change(meta, op).id == meta.id && Change(meta, op).owner == meta.owner
  {
  }

  /**
    The record remembers exactly what the operations said last: each field is what the last
    operation that concerns it left, the attempts are those counted since the last reset, and each
    file holds the last text written to it. Nothing else touches them, a crash included.
   */
  lemma {:induction false} RecordRemembers(s: Story, name: string)
    requires WellTold(s)
    ensures Remembers(s, Tell(s).dir, name)
    decreases |s.happenings|
  {
    if s.happenings == [] {
      Untouched(s, name);
    } else {
      var n := |s.happenings| - 1;
      var earlier, h := Chapter(s, n), s.happenings[n];
      RecordRemembers(earlier, name);
      RemembersNext(earlier, Tell(earlier), h, name);
      assert s == earlier.(happenings := earlier.happenings + [h]);
    }
  }

  lemma Untouched(s: Story, name: string)
    requires s.happenings == []
    ensures Remembers(s, Birth(s.id, s.owner, s.at, s.logged).dir, name)
  {
  }

  // ---- What its events say -------------------------------------------------------------------------------

  ghost predicate Says(e: Event, key: string, text: string) {
    e.detail.Some? && key in e.detail.value && e.detail.value[key] == Text(text)
  }

  /** The failure's own words stand in both its events, whatever detail came with it, and the rest of that detail is kept. */
  lemma FailureSpeaks(meta: Meta, stage: string, reason: string, hint: string, connection: Option<string>, extra: Detail, at: int)
    ensures var events := EventsOf(meta, FailedIn(stage, reason, hint, connection, extra), at);
      && |events| == 2 && events[0].kind == StageFailed && events[1].kind == RunFailed
      && Says(events[0], "stage", stage) && Says(events[0], "error", reason)
      && Says(events[1], "stage", stage) && Says(events[1], "reason", reason)
      && (forall k :: k in extra && k != "stage" && k != "error" ==>
            k in events[0].detail.value && events[0].detail.value[k] == extra[k])
      && (forall k :: k in extra && k != "stage" && k != "reason" ==>
            k in events[1].detail.value && events[1].detail.value[k] == extra[k])
  {
    assert "stage" != "error" && "stage" != "reason" by { assert "stage"[0] == 's' && "error"[0] == 'e'; }
  }

  /** The end's own detail stands over the word it would be logged with. */
  lemma EndSpeaks(meta: Meta, summary: Option<string>, detail: Detail, at: int)
    ensures var events := EventsOf(meta, Finished(EndDone(summary, detail)), at);
      && |events| == 1 && events[0].kind == RunDone && events[0].detail.Some?
      && (forall k :: k in detail ==> k in events[0].detail.value && events[0].detail.value[k] == detail[k])
      && ("status" !in detail ==> Says(events[0], "status", "done"))
  {
  }

  /** A start names its Stage, a wait its Stage, reason and timeout, and a skip its reason and then the end as skipped. */
  lemma StartWaitAndSkipSpeak(meta: Meta, stage: string, wait: Wait, reason: Option<string>, at: int)
    ensures var started := EventsOf(meta, Started(stage), at);
      |started| == 1 && Starts(started[0], stage) && started[0].at == Some(at)
    ensures var waits := EventsOf(meta, BlockedOn(wait), at);
      && |waits| == 1 && waits[0].kind == RunBlocked && waits[0].at == Some(at)
      && Says(waits[0], "stage", wait.stage) && Says(waits[0], "reason", wait.reason)
      && "timeout" in waits[0].detail.value && waits[0].detail.value["timeout"] == Deadline(wait.timeout)
    ensures var skips := EventsOf(meta, Finished(EndSkipped(reason)), at);
      && |skips| == 2 && skips[0].kind == ClassifySkipped && skips[1].kind == RunDone
      && (reason.Some? ==> Says(skips[0], "skipReason", reason.value)) && Says(skips[1], "status", "skipped")
  {
    assert "stage"[0] == 's' && "reason"[0] == 'r' && "timeout"[0] == 't';
  }
}
