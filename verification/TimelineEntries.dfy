/** What each entry of the timeline shows, said about the log alone, Stage by Stage. */
module TimelineEntries {
  import opened Prelude
  import opened RunRecords
  import opened Timeline
  import opened TimelineLaws

  // ---- How long a Stage ran ---------------------------------------------------------------------------

  /** `j` is the first event after `i` that closed, failed or replaced the Stage open at `i`. */
  ghost predicate EndsAt(log: Log, i: nat, j: nat) {
    i < j < |log| && !Quiet(log, j) && forall k :: i < k < j ==> Quiet(log, k)
  }

  /** The time from one event to a later one; nothing where a timestamp does not parse or time runs backwards. */
  function Between(first: Event, last: Event): int {
    if first.at.None? || last.at.None? || last.at.value < first.at.value then 0 else last.at.value - first.at.value
  }

  /** How long what started at `i` ran: up to its end, and nothing while it has none. */
  ghost function Ran(log: Log, i: nat): int
    requires i < |log|
  {
    if exists j: nat :: EndsAt(log, i, j) then (var j: nat :| EndsAt(log, i, j); Between(log[i], log[j])) else 0
  }

  /** The sum over the starts of the Stage among the first `n` events. */
  ghost function TimeIn(log: Log, stage: string, n: nat): int
    requires n <= |log|
  {
    if n == 0 then 0
    else TimeIn(log, stage, n - 1) + if Starts(log[n - 1], stage) then Ran(log, n - 1) else 0
  }

  lemma EndIsUnique(log: Log, i: nat, j: nat, k: nat)
    requires EndsAt(log, i, j) && EndsAt(log, i, k)
    ensures j == k
  {
  }

  lemma RanTo(log: Log, i: nat, j: nat)
    requires EndsAt(log, i, j)
    ensures Ran(log, i) == Between(log[i], log[j])
  {
    var k: nat :| EndsAt(log, i, k) && Ran(log, i) == Between(log[i], log[k]);
    EndIsUnique(log, i, j, k);
  }

  /** What has no end yet has seen nothing but quiet events. */
  lemma {:induction false} EndlessIsQuiet(log: Log, i: nat, n: nat)
    requires n <= |log| && !exists j: nat :: EndsAt(log, i, j)
    ensures forall k :: i < k < n ==> Quiet(log, k)
  {
    if n > 0 {
      EndlessIsQuiet(log, i, n - 1);
      if i < n - 1 && !Quiet(log, n - 1) { assert EndsAt(log, i, n - 1); }
    }
  }

  /** One more event gives an end to what had none, if it is not a quiet one. */
  lemma RanSnoc(log: Log, e: Event, i: nat)
    requires i < |log|
    ensures Ran(log + [e], i)
         == if !(exists j: nat :: EndsAt(log, i, j)) && !Quiet(log + [e], |log|) then Between(log[i], e) else Ran(log, i)
  {
    var log' := log + [e];
    forall k: nat | k < |log| ensures Quiet(log', k) == Quiet(log, k) { QuietSnoc(log, e, k); }
    if j: nat :| EndsAt(log, i, j) {
      assert EndsAt(log', i, j);
      RanTo(log, i, j);
      RanTo(log', i, j);
    } else {
      EndlessIsQuiet(log, i, |log|);
      if !Quiet(log', |log|) {
        assert EndsAt(log', i, |log|);
        RanTo(log', i, |log|);
      }
    }
  }

  lemma StartHasNoEnd(log: Log, i: nat, stage: string)
    requires i < |log| && Starts(log[i], stage)
    ensures OpenSince(log, i, stage) <==> !exists j: nat :: EndsAt(log, i, j)
  {
    if !exists j: nat :: EndsAt(log, i, j) { EndlessIsQuiet(log, i, |log|); }
  }

  /** At most one start of a Stage is open. */
  lemma OpenIsUnique(log: Log, i: nat, k: nat, stage: string)
    requires OpenSince(log, i, stage) && OpenSince(log, k, stage)
    ensures i == k
  {
    assert (i < k ==> Quiet(log, k)) && (k < i ==> Quiet(log, i));
  }

  /** What an event that is not quiet adds: the time the Stage has been open, to the Stage that is. */
  lemma {:induction false} TimeSnoc(log: Log, e: Event, stage: string, n: nat, since: Option<nat>)
    requires n <= |log|
    requires if since.Some? then OpenSince(log, since.value, stage) else !IsOpen(log, stage)
    ensures TimeIn(log + [e], stage, n)
         == TimeIn(log, stage, n)
            + if since.Some? && since.value < n && !Quiet(log + [e], |log|) then Between(log[since.value], e) else 0
  {
    if n > 0 {
      TimeSnoc(log, e, stage, n - 1, since);
      if Starts(log[n - 1], stage) {
        RanSnoc(log, e, n - 1);
        StartHasNoEnd(log, n - 1, stage);
        if OpenSince(log, n - 1, stage) {
          if since.Some? { OpenIsUnique(log, since.value, n - 1, stage); }
        }
      }
    }
  }

  lemma TimeWhole(log: Log, e: Event, stage: string, since: Option<nat>)
    requires if since.Some? then OpenSince(log, since.value, stage) else !IsOpen(log, stage)
    ensures TimeIn(log + [e], stage, |log| + 1)
         == TimeIn(log, stage, |log|)
            + if since.Some? && !Quiet(log + [e], |log|) then Between(log[since.value], e) else 0
  {
    var log' := log + [e];
    TimeSnoc(log, e, stage, |log|, since);
  }

  // ---- The replay keeps that time -----------------------------------------------------------------------

  function ChargedTo(r: Replayer, stage: string): int {
    if stage in r.accs then r.accs[stage].duration else 0
  }

  /** An event is quiet for the replay exactly if it leaves what is open, and every charge, alone. */
  lemma StepCharges(r: Replayer, e: Event, stage: string, quiet: bool)
    requires Consistent(r)
    requires quiet <==> !(e.kind.StageStarted? && StageKey(e).Some?) && !Closes(e.kind)
                        && !(e.kind.StageFailed? && StageKey(e).Some? && StageKey(e).value in r.accs)
    ensures var r' := Step(r, e);
      && ChargedTo(r', stage)
         == ChargedTo(r, stage)
            + (if !quiet && r.open == Some(stage) then Between(Event(r.accs[stage].startedAt, e.kind, None), e) else 0)
      && (quiet ==> r'.open == r.open && (r.open == Some(stage) ==> r'.accs[stage].startedAt == r.accs[stage].startedAt))
      && (r'.open == Some(stage) && !quiet ==> Starts(e, stage) && r'.accs[stage].startedAt == e.at)
  {
  }

  lemma QuietForReplay(log: Log, e: Event)
    ensures Quiet(log + [e], |log|) <==>
            !(e.kind.StageStarted? && StageKey(e).Some?) && !Closes(e.kind)
            && !(e.kind.StageFailed? && StageKey(e).Some? && StageKey(e).value in Replay(log).accs)
  {
    assert (log + [e])[..|log|] == log;
    if StageKey(e).Some? { EntryMeaning(log, StageKey(e).value); }
  }

  ghost predicate ChargesTime(log: Log, stage: string) {
    && ChargedTo(Replay(log), stage) == TimeIn(log, stage, |log|)
    && (forall i: nat :: OpenSince(log, i, stage) ==>
          Replay(log).open == Some(stage) && Replay(log).accs[stage].startedAt == log[i].at)
  }

  lemma {:induction false} ReplayCharges(log: Log, stage: string)
    ensures ChargesTime(log, stage)
  {
    if log != [] {
      var n := |log| - 1;
      var before, e := log[..n], log[n];
      assert log == before + [e];
      ReplayCharges(before, stage);
      ChargeStep(before, e, stage);
    }
  }

  lemma ChargeStep(log: Log, e: Event, stage: string)
    requires ChargesTime(log, stage)
    ensures ChargesTime(log + [e], stage)
  {
    var r, log' := Replay(log), log + [e];
    ReplayStep(log, e);
    QuietForReplay(log, e);
    StepCharges(r, e, stage, Quiet(log', |log|));
    EntryMeaning(log, stage);
    EntryMeaning(log', stage);
    if i: nat :| OpenSince(log, i, stage) {
      TimeWhole(log, e, stage, Some(i));
    } else {
      TimeWhole(log, e, stage, None);
    }
    forall i: nat | OpenSince(log', i, stage)
      ensures Replay(log').open == Some(stage) && Replay(log').accs[stage].startedAt == log'[i].at
    {
      OpenStays(log, e, i, stage);
    }
  }

  lemma OpenStays(log: Log, e: Event, i: nat, stage: string)
    requires OpenSince(log + [e], i, stage)
    ensures IsOpen(log + [e], stage)
    ensures i == |log| || (OpenSince(log, i, stage) && Quiet(log + [e], |log|))
  {
    forall k: nat | k < |log| ensures Quiet(log + [e], k) == Quiet(log, k) { QuietSnoc(log, e, k); }
  }

  // ---- Why it failed ---------------------------------------------------------------------------------------

  /** The last failure of the Stage, since its last start. */
  ghost predicate LastFailure(log: Log, i: nat, stage: string) {
    FailedSince(log, i, stage) && forall j :: i < j < |log| ==> !(log[j].kind.StageFailed? && StageKey(log[j]) == Some(stage))
  }

  /** The detail the Stage's accumulator holds is that of its last failure, or none. */
  ghost predicate Explains(log: Log, stage: string) {
    stage in Replay(log).accs ==>
      var shown := Replay(log).accs[stage].failureDetail;
      if IsFailed(log, stage) then exists i: nat :: LastFailure(log, i, stage) && shown == log[i].detail else shown.None?
  }

  lemma {:induction false} ReplayExplains(log: Log, stage: string)
    ensures Explains(log, stage)
  {
    if log != [] {
      var n := |log| - 1;
      var before, e := log[..n], log[n];
      assert log == before + [e];
      ReplayExplains(before, stage);
      ExplainStep(before, e, stage);
    }
  }

  lemma StepExplains(r: Replayer, e: Event, stage: string)
    requires Consistent(r) && stage in Step(r, e).accs
    ensures Step(r, e).accs[stage].failureDetail
         == if Starts(e, stage) then None
            else if e.kind.StageFailed? && StageKey(e) == Some(stage) then e.detail
            else r.accs[stage].failureDetail
  {
  }

  lemma FailureStays(log: Log, e: Event, i: nat, stage: string)
    requires LastFailure(log, i, stage) && !Starts(e, stage) && !(e.kind.StageFailed? && StageKey(e) == Some(stage))
    ensures LastFailure(log + [e], i, stage)
  {
    assert (log + [e])[..i] == log[..i];
  }

  lemma ExplainStep(log: Log, e: Event, stage: string)
    requires Explains(log, stage)
    ensures Explains(log + [e], stage)
  {
    var log' := log + [e];
    assert log'[..|log|] == log;
    ReplayStep(log, e);
    EntryMeaning(log, stage);
    EntryMeaning(log', stage);
    IsFailedSnoc(log, e, stage);
    if stage in Replay(log').accs {
      StepExplains(Replay(log), e, stage);
      if IsFailed(log', stage) {
        if e.kind.StageFailed? && StageKey(e) == Some(stage) {
          assert LastFailure(log', |log|, stage);
        } else {
          var i: nat :| LastFailure(log, i, stage) && Replay(log).accs[stage].failureDetail == log[i].detail;
          FailureStays(log, e, i, stage);
        }
      }
    }
  }

  // ---- The entries ---------------------------------------------------------------------------------------------

  /** What a reader is shown of a Stage, from the log alone. */
  ghost predicate Shows(log: Log, entry: Entry) {
    var time := TimeIn(log, entry.stage, |log|);
    && HasStarted(log, entry.stage)
    && entry.state == (if IsFailed(log, entry.stage) then EntryFailed
                       else if IsOpen(log, entry.stage) then EntryRunning else EntryDone)
    && entry.duration == (if IsOpen(log, entry.stage) || time == 0 then None else Some(time))
    && (if IsFailed(log, entry.stage)
        then exists i: nat :: LastFailure(log, i, entry.stage) && entry.failureDetail == log[i].detail
        else entry.failureDetail.None?)
  }

  predicate HasEntry(entries: seq<Entry>, stage: string) { exists k :: 0 <= k < |entries| && entries[k].stage == stage }

  /**
    The timeline has exactly one entry for each Stage that started. It reads failed, running or
    done, shows how long all runs of that Stage lasted, from each start to the first event that
    closed or replaced it, unless the Stage is open or no time was measured, and explains a
    failure by the last one since the Stage last started.
   */
  lemma EntriesShow(log: Log)
    ensures var entries := Render(Replay(log));
      && (forall k :: 0 <= k < |entries| ==> Shows(log, entries[k]))
      && (forall stage :: HasStarted(log, stage) ==> HasEntry(entries, stage))
      && (forall k, l :: 0 <= k < l < |entries| ==> entries[k].stage != entries[l].stage)
  {
    var r := Replay(log);
    var entries := Render(r);
    forall k | 0 <= k < |entries| ensures Shows(log, entries[k]) { EntryShows(log, k); }
    forall stage | HasStarted(log, stage) ensures HasEntry(entries, stage) { StartedHasEntry(log, stage); }
  }

  lemma StartedHasEntry(log: Log, stage: string)
    requires HasStarted(log, stage)
    ensures HasEntry(Render(Replay(log)), stage)
  {
    var r := Replay(log);
    EntryMeaning(log, stage);
    var k :| 0 <= k < |r.order| && r.order[k] == stage;
    assert Render(r)[k].stage == stage;
  }

  lemma EntryShows(log: Log, k: nat)
    requires k < |Render(Replay(log))|
    ensures Shows(log, Render(Replay(log))[k])
  {
    var r := Replay(log);
    var stage := r.order[k];
    assert stage in r.order;
    EntryMeaning(log, stage);
    ReplayCharges(log, stage);
    ReplayExplains(log, stage);
  }
}
