/** What the replayed timeline means, said about the log alone. */
module TimelineLaws {
  import opened Prelude
  import opened RunRecords
  import opened Timeline

  lemma ReplayStep(log: Log, e: Event)
    ensures Replay(log + [e]) == Step(Replay(log), e)
  {
    assert (log + [e])[..|log|] == log;
  }

  /** Event `j` neither opens a Stage nor closes the one that is open. */
  ghost predicate Quiet(log: Log, j: nat)
    requires j < |log|
  {
    var stage := StageKey(log[j]);
    && !(log[j].kind.StageStarted? && stage.Some?)
    && !Closes(log[j].kind)
    && !(log[j].kind.StageFailed? && stage.Some? && HasStarted(log[..j], stage.value))
  }

  /** `stage` started at `i` and nothing after that closed or replaced it. */
  ghost predicate OpenSince(log: Log, i: nat, stage: string) {
    && i < |log| && Starts(log[i], stage)
    && forall j :: i < j < |log| ==> Quiet(log, j)
  }

  /** `stage` failed at `i`, after starting, and did not start again. */
  ghost predicate FailedSince(log: Log, i: nat, stage: string) {
    && i < |log| && log[i].kind.StageFailed? && StageKey(log[i]) == Some(stage) && HasStarted(log[..i], stage)
    && forall j :: i < j < |log| ==> !Starts(log[j], stage)
  }

  ghost predicate IsOpen(log: Log, stage: string) { exists i: nat :: OpenSince(log, i, stage) }

  ghost predicate IsFailed(log: Log, stage: string) { exists i: nat :: FailedSince(log, i, stage) }

  lemma HasStartedSnoc(log: Log, e: Event, stage: string)
    ensures HasStarted(log + [e], stage) <==> HasStarted(log, stage) || Starts(e, stage)
  {
    if HasStarted(log, stage) {
      var x :| x in log && Starts(x, stage);
      assert x in log + [e];
    }
    if Starts(e, stage) {
      assert e in log + [e];
    }
  }

  lemma QuietSnoc(log: Log, e: Event, j: nat)
    requires j < |log|
    ensures Quiet(log + [e], j) == Quiet(log, j)
  {
    assert (log + [e])[..j] == log[..j];
  }

  lemma IsOpenSnoc(log: Log, e: Event, stage: string)
    ensures IsOpen(log + [e], stage) <==> Starts(e, stage) || (IsOpen(log, stage) && Quiet(log + [e], |log|))
  {
    var log' := log + [e];
    forall j: nat | j < |log| ensures Quiet(log', j) == Quiet(log, j) { QuietSnoc(log, e, j); }
    if Starts(e, stage) {
      assert OpenSince(log', |log|, stage);
    } else if IsOpen(log, stage) && Quiet(log', |log|) {
      var i: nat :| OpenSince(log, i, stage);
      assert OpenSince(log', i, stage);
    }
    if IsOpen(log', stage) && !Starts(e, stage) {
      var i: nat :| OpenSince(log', i, stage);
      assert OpenSince(log, i, stage);
    }
  }

  lemma IsFailedSnoc(log: Log, e: Event, stage: string)
    ensures IsFailed(log + [e], stage) <==>
            !Starts(e, stage) &&
            (IsFailed(log, stage) || (e.kind.StageFailed? && StageKey(e) == Some(stage) && HasStarted(log, stage)))
  {
    var log' := log + [e];
    assert log'[..|log|] == log;
    if !Starts(e, stage) && IsFailed(log, stage) {
      var i: nat :| FailedSince(log, i, stage);
      assert log'[..i] == log[..i];
      assert FailedSince(log', i, stage);
    } else if e.kind.StageFailed? && StageKey(e) == Some(stage) && HasStarted(log, stage) {
      assert FailedSince(log', |log|, stage);
    }
    if IsFailed(log', stage) {
      var i: nat :| FailedSince(log', i, stage);
      assert log'[|log|] == e;
      if i < |log| {
        assert log'[..i] == log[..i];
        assert FailedSince(log, i, stage);
      }
    }
  }

  lemma StepEntry(r: Replayer, e: Event, stage: string)
    requires Consistent(r)
    ensures stage in Step(r, e).accs <==> stage in r.accs || Starts(e, stage)
    ensures stage in Step(r, e).accs ==>
            (Step(r, e).accs[stage].failed <==>
             !Starts(e, stage) &&
             (r.accs[stage].failed || (e.kind.StageFailed? && StageKey(e) == Some(stage) && stage in r.accs)))
  {
  }

  lemma StepOpen(r: Replayer, e: Event, stage: string)
    requires Consistent(r)
    ensures Step(r, e).open == Some(stage) <==>
            Starts(e, stage) ||
            (r.open == Some(stage)
              && !(e.kind.StageStarted? && StageKey(e).Some?)
              && !Closes(e.kind)
              && !(e.kind.StageFailed? && StageKey(e).Some? && StageKey(e).value in r.accs))
  {
  }

  /** An entry exists exactly for the Stages that started; it reads failed, or is open, exactly as the log says. */
  lemma {:induction false} EntryMeaning(log: Log, stage: string)
    ensures stage in Replay(log).accs <==> HasStarted(log, stage)
    ensures stage in Replay(log).accs ==> (Replay(log).accs[stage].failed <==> IsFailed(log, stage))
    ensures Replay(log).open == Some(stage) <==> IsOpen(log, stage)
  {
    if log == [] {
    } else {
      var n := |log| - 1;
      var before, e := log[..n], log[n];
      assert log == before + [e];
      ReplayStep(before, e);
      StepEntry(Replay(before), e, stage);
      StepOpen(Replay(before), e, stage);
      EntryMeaning(before, stage);
      if StageKey(e).Some? { EntryMeaning(before, StageKey(e).value); }
      HasStartedSnoc(before, e, stage);
      IsOpenSnoc(before, e, stage);
      IsFailedSnoc(before, e, stage);
      assert (before + [e])[..n] == before;
    }
  }

  /** Entries stand in the order in which the Run first met their Stages. */
  ghost predicate MetBefore(log: Log, s: string, t: string) {
    exists i :: 0 <= i < |log| && Starts(log[i], s) && forall j :: 0 <= j <= i ==> !Starts(log[j], t)
  }

  lemma {:induction false} EntryOrder(log: Log, a: nat, b: nat)
    requires a < b < |Replay(log).order|
    ensures MetBefore(log, Replay(log).order[a], Replay(log).order[b])
  {
    var n := |log| - 1;
    var before, e := log[..n], log[n];
    assert log == before + [e];
    var s, t := Replay(log).order[a], Replay(log).order[b];
    if b < |Replay(before).order| {
      EntryOrder(before, a, b);
      MetExtends(before, e, s, t);
    } else {
      assert s in Replay(before).order && t !in Replay(before).accs;
      EntryMeaning(before, s);
      EntryMeaning(before, t);
      MetFirst(before, e, s, t);
    }
  }

  lemma MetExtends(before: Log, e: Event, s: string, t: string)
    requires MetBefore(before, s, t)
    ensures MetBefore(before + [e], s, t)
  {
    var log := before + [e];
    var i :| 0 <= i < |before| && Starts(before[i], s) && forall j :: 0 <= j <= i ==> !Starts(before[j], t);
    assert Starts(log[i], s);
    forall j | 0 <= j <= i ensures !Starts(log[j], t) { assert log[j] == before[j]; }
  }

  lemma MetFirst(before: Log, e: Event, s: string, t: string)
    requires HasStarted(before, s) && !HasStarted(before, t)
    ensures MetBefore(before + [e], s, t)
  {
    var log := before + [e];
    var x :| x in before && Starts(x, s);
    var i :| 0 <= i < |before| && before[i] == x;
    assert Starts(log[i], s);
    forall j | 0 <= j <= i ensures !Starts(log[j], t) { assert log[j] == before[j] && before[j] in before; }
  }

  // ---- Every moment a Stage is open is charged to exactly one Stage ------------------------

  function Sum(accs: map<string, Acc>, order: seq<string>): int
    requires forall s :: s in order ==> s in accs
  {
    if order == [] then 0 else accs[order[0]].duration + Sum(accs, order[1..])
  }

  lemma {:induction false} SumUpdate(accs: map<string, Acc>, order: seq<string>, s: string, acc: Acc)
    requires forall x :: x in order ==> x in accs
    requires forall i, j :: 0 <= i < j < |order| ==> order[i] != order[j]
    ensures Sum(accs[s := acc], order)
         == Sum(accs, order) + if s in order && s in accs then acc.duration - accs[s].duration else 0
  {
    if order != [] {
      SumUpdate(accs, order[1..], s, acc);
    }
  }

  lemma {:induction false} SumSnoc(accs: map<string, Acc>, order: seq<string>, s: string)
    requires s in accs && forall x :: x in order ==> x in accs
    ensures Sum(accs, order + [s]) == Sum(accs, order) + accs[s].duration
  {
    if order == [] {
    } else {
      assert (order + [s])[1..] == order[1..] + [s];
      SumSnoc(accs, order[1..], s);
    }
  }

  /** Every timestamp parses and time does not run backwards. */
  ghost predicate Timed(log: Log) {
    && (forall i :: 0 <= i < |log| ==> log[i].at.Some?)
    && (forall i, j :: 0 <= i <= j < |log| ==> log[i].at.value <= log[j].at.value)
  }

  lemma HeldOpen(log: Log)
    ensures (exists s :: IsOpen(log, s)) <==> Replay(log).open.Some?
  {
    var r := Replay(log);
    if r.open.Some? { EntryMeaning(log, r.open.value); }
    if s :| IsOpen(log, s) { EntryMeaning(log, s); }
  }

  lemma TimedSnoc(before: Log, e: Event)
    requires Timed(before + [e])
    ensures Timed(before) && e.at.Some?
    ensures before != [] ==> before[|before| - 1].at.value <= e.at.value
  {
    var log := before + [e];
    assert log[|before|] == e && forall i :: 0 <= i < |before| ==> log[i] == before[i];
  }

  lemma BusySnoc(before: Log, e: Event)
    requires Timed(before + [e]) && Timed(before) && e.at.Some? && before != []
    ensures Busy(before + [e])
         == Busy(before) + if Replay(before).open.Some? then e.at.value - before[|before| - 1].at.value else 0
  {
    var log := before + [e];
    assert log[..|before|] == before && log[|before| - 1] == before[|before| - 1];
    HeldOpen(before);
  }

  /** The time, between one event and the next, during which the log holds a Stage open. */
  ghost function Busy(log: Log): int
    requires Timed(log)
  {
    if |log| <= 1 then 0
    else
      var n := |log| - 1;
      Busy(log[..n]) +
      if exists s :: IsOpen(log[..n], s) then log[n].at.value - log[n - 1].at.value else 0
  }

  function OpenFor(r: Replayer, now: Option<int>): int
    requires Consistent(r)
  {
    if r.open.None? then 0 else Segment(r.accs[r.open.value].startedAt, now)
  }

  lemma SumCharged(r: Replayer, at: Option<int>)
    requires Consistent(r)
    ensures (forall s :: s in r.order ==> s in Charged(r.accs, r.open, at))
    ensures Sum(Charged(r.accs, r.open, at), r.order) == Sum(r.accs, r.order) + OpenFor(r, at)
  {
    if r.open.Some? {
      var acc := r.accs[r.open.value];
      SumUpdate(r.accs, r.order, r.open.value,
                acc.(duration := acc.duration + Segment(acc.startedAt, at), startedAt := None));
    }
  }

  /** Marking an entry failed moves no time. */
  lemma SumFailed(r: Replayer, s: string, acc: Acc, at: Option<int>)
    requires Consistent(r) && s in r.accs
    requires acc.duration == r.accs[s].duration && acc.startedAt == r.accs[s].startedAt
    ensures var accs := r.accs[s := acc];
      && (forall x :: x in r.order ==> x in Charged(accs, r.open, at))
      && Sum(Charged(accs, r.open, at), r.order) == Sum(r.accs, r.order) + OpenFor(r, at)
  {
    var accs := r.accs[s := acc];
    SumUpdate(r.accs, r.order, s, acc);
    if r.open.Some? {
      var o := accs[r.open.value];
      SumUpdate(accs, r.order, r.open.value,
                o.(duration := o.duration + Segment(o.startedAt, at), startedAt := None));
    }
  }

  lemma SumStep(r: Replayer, e: Event)
    requires Consistent(r)
    ensures var r' := Step(r, e);
      (r'.open == r.open && Sum(r'.accs, r'.order) == Sum(r.accs, r.order)
        && (r.open.Some? ==> r'.accs[r.open.value].startedAt == r.accs[r.open.value].startedAt))
      || (Sum(r'.accs, r'.order) == Sum(r.accs, r.order) + OpenFor(r, e.at)
        && (r'.open.Some? ==> r'.accs[r'.open.value].startedAt == e.at))
  {
    var stage := StageKey(e);
    var r' := Step(r, e);
    if e.kind.StageStarted? && stage.Some? {
      var s := stage.value;
      SumCharged(r, e.at);
      var accs := Charged(r.accs, r.open, e.at);
      SumUpdate(accs, r.order, s, r'.accs[s]);
      if s !in r.accs {
        assert r'.accs[s].duration == 0;
        SumSnoc(r'.accs, r.order, s);
      }
    } else if e.kind.StageFailed? && stage.Some? && stage.value in r.accs {
      SumFailed(r, stage.value, r.accs[stage.value].(failed := true, failureDetail := e.detail), e.at);
    } else if Closes(e.kind) {
      SumCharged(r, e.at);
    }
  }

  /**
    The durations of all Stages, with the open segment so far, add up to exactly the
    time during which some Stage was open: nothing is counted twice and nothing is lost,
    whatever the order of starts, failures, retries and ends.
   */
  lemma {:induction false} DurationsConserved(log: Log)
    requires Timed(log) && log != []
    ensures var r := Replay(log); var now := log[|log| - 1].at;
      && Sum(r.accs, r.order) + OpenFor(r, now) == Busy(log)
      && 0 <= Busy(log) <= now.value - log[0].at.value
      && (r.open.Some? ==> r.accs[r.open.value].startedAt.Some? && r.accs[r.open.value].startedAt.value <= now.value)
  {
    var n := |log| - 1;
    var before, e := log[..n], log[n];
    assert log == before + [e];
    SumStep(Replay(before), e);
    ReplayStep(before, e);
    if before != [] {
      TimedSnoc(before, e);
      BusySnoc(before, e);
      DurationsConserved(before);
    }
  }
}
