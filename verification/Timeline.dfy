/** The human timeline: the event log replayed into one entry per Stage. */
module Timeline {
  import opened Prelude
  import opened RunRecords

  datatype Acc = Acc(startedAt: Option<int>, duration: int, failed: bool, failureDetail: Option<Detail>)

  /** `order` is the insertion order of the accumulator map. */
  datatype Replayer = Replayer(accs: map<string, Acc>, order: seq<string>, open: Option<string>)

  datatype EntryState = EntryRunning | EntryDone | EntryFailed

  datatype Entry = Entry(stage: string, state: EntryState, duration: Option<int>, failureDetail: Option<Detail>)

  ghost predicate Consistent(r: Replayer) {
    && (forall s :: s in r.accs <==> s in r.order)
    && (forall i, j :: 0 <= i < j < |r.order| ==> r.order[i] != r.order[j])
    && (r.open.Some? ==> r.open.value in r.accs && !r.accs[r.open.value].failed)
  }

  /** Both ends known and in order: the segment's length; otherwise nothing is invented. */
  function Segment(from: Option<int>, to: Option<int>): int {
    if from.Some? && to.Some? && to.value >= from.value then to.value - from.value else 0
  }

  /** The open Stage, if there is one, is charged up to `at`. */
  function Charged(accs: map<string, Acc>, open: Option<string>, at: Option<int>): map<string, Acc>
    requires open.Some? ==> open.value in accs
  {
    if open.None? then accs
    else
      var acc := accs[open.value];
      accs[open.value := acc.(duration := acc.duration + Segment(acc.startedAt, at), startedAt := None)]
  }

  function CloseOpen(r: Replayer, at: Option<int>): Replayer
    requires r.open.Some? ==> r.open.value in r.accs
  {
    Replayer(Charged(r.accs, r.open, at), r.order, None)
  }

  const FRESH_ACC := Acc(None, 0, false, None)

  predicate Closes(kind: Kind) {
    kind.ClassifySkipped? || kind.RunBlocked? || kind.RunDone? || kind.RunFailed?
  }

  function Step(r: Replayer, e: Event): (r': Replayer)
    requires Consistent(r)
    ensures Consistent(r')
  {
    var stage := StageKey(e);
    if e.kind.StageStarted? && stage.Some? then
      var s := stage.value;
      var closed := CloseOpen(r, e.at);
      var acc := if s in closed.accs then closed.accs[s] else FRESH_ACC;
      Replayer(closed.accs[s := acc.(failed := false, failureDetail := None, startedAt := e.at)],
               if s in closed.accs then closed.order else closed.order + [s],
               Some(s))
    else if e.kind.StageFailed? && stage.Some? && stage.value in r.accs then
      var s := stage.value;
      CloseOpen(r.(accs := r.accs[s := r.accs[s].(failed := true, failureDetail := e.detail)]), e.at)
    else if Closes(e.kind) then CloseOpen(r, e.at)
    else r
  }

  const NOTHING := Replayer(map[], [], None)

  function Replay(log: Log): (r: Replayer)
    ensures Consistent(r)
  {
    if log == [] then NOTHING else Step(Replay(log[..|log| - 1]), log[|log| - 1])
  }

  function EntryFor(r: Replayer, stage: string): Entry
    requires stage in r.accs
  {
    var acc := r.accs[stage];
    var stillOpen := r.open == Some(stage);
    Entry(stage,
          if acc.failed then EntryFailed else if stillOpen then EntryRunning else EntryDone,
          if stillOpen || acc.duration == 0 then None else Some(acc.duration),
          acc.failureDetail)
  }

  function Render(r: Replayer): seq<Entry>
    requires Consistent(r)
  {
    seq(|r.order|, i requires 0 <= i < |r.order| => assert r.order[i] in r.order; EntryFor(r, r.order[i]))
  }

  /** The replay as it is written: a map of accumulators and the open Stage, updated event by event. */
  method BuildTimeline(events: Log) returns (entries: seq<Entry>)
    ensures entries == Render(Replay(events))
  {
    var accs: map<string, Acc> := map[];
    var order: seq<string> := [];
    var open: Option<string> := None;
    for i := 0 to |events|
      invariant Replayer(accs, order, open) == Replay(events[..i])
    {
      assert events[..i + 1][..i] == events[..i];
      accs, order, open := Observe(accs, order, open, events[i]);
    }
    assert events[..|events|] == events;
    entries := RenderEntries(Replayer(accs, order, open));
  }

  method Observe(accs: map<string, Acc>, order: seq<string>, open: Option<string>, event: Event)
    returns (accs': map<string, Acc>, order': seq<string>, open': Option<string>)
    requires Consistent(Replayer(accs, order, open))
    ensures Replayer(accs', order', open') == Step(Replayer(accs, order, open), event)
  {
    accs', order', open' := accs, order, open;
    var stage := StageKey(event);
    if event.kind.StageStarted? && stage.Some? {
      accs', open' := CloseOpenStage(accs, open, event.at);
      if stage.value !in accs' {
        accs' := accs'[stage.value := FRESH_ACC];
        order' := order' + [stage.value];
      }
      var acc := accs'[stage.value];
      accs' := accs'[stage.value := acc.(failed := false, failureDetail := None, startedAt := event.at)];
      open' := stage;
    } else if event.kind.StageFailed? && stage.Some? && stage.value in accs {
      var acc := accs[stage.value];
      accs' := accs[stage.value := acc.(failed := true, failureDetail := event.detail)];
      accs', open' := CloseOpenStage(accs', open, event.at);
    } else if event.kind.ClassifySkipped? || event.kind.RunBlocked? {
      accs', open' := CloseOpenStage(accs, open, event.at);
    } else if event.kind.RunDone? || event.kind.RunFailed? {
      accs', open' := CloseOpenStage(accs, open, event.at);
    }
  }

  method RenderEntries(r: Replayer) returns (entries: seq<Entry>)
    requires Consistent(r)
    ensures entries == Render(r)
  {
    entries := [];
    for i := 0 to |r.order|
      invariant entries == Render(r)[..i]
    {
      assert r.order[i] in r.order;
      entries := entries + [EntryFor(r, r.order[i])];
    }
  }

  method CloseOpenStage(accs: map<string, Acc>, open: Option<string>, at: Option<int>)
    returns (accs': map<string, Acc>, open': Option<string>)
    requires open.Some? ==> open.value in accs
    ensures accs' == Charged(accs, open, at) && open' == None
  {
    if open.None? {
      return accs, open;
    }
    var acc := accs[open.value];
    if acc.startedAt.Some? && at.Some? && at.value >= acc.startedAt.value {
      acc := acc.(duration := acc.duration + (at.value - acc.startedAt.value));
    }
    accs' := accs[open.value := acc.(startedAt := None)];
    open' := None;
  }
}
