/** Which Runs a recovery sweep puts back, and how, said on their records. */
module RunEngineSweeps {
  import opened Prelude
  import opened RunRecords
  import opened RunEngine
  import opened RunEngineLaws
  import opened RunEngineTheorems

  /** Left behind by an earlier process: neither ended nor waiting, its log is sound, and its Module has a plan. */
  predicate ToRecover<I>(e: Engine<I>, m: ShellModule<I>, damaged: set<string>, r: string) {
    && r !in e.active && Readable(e.disk, r)
    && e.disk[r].meta.value.status in {Pending, Running} && r !in damaged
    && m.planRecovery(e.disk[r].meta.value, e.disk[r].log, e.disk[r].files.Keys).Some?
  }

  /** The wait's timeout is an instant that has come, or one that does not parse. */
  predicate TimeHasCome(timeout: Timeout, now: int) {
    match timeout
    case Never => false
    case At(None) => true
    case At(Some(t)) => t <= now
  }

  /** Waiting for an instant that has come, and its Module has a plan. */
  predicate ToResume<I>(e: Engine<I>, m: ShellModule<I>, now: int, r: string) {
    && r !in e.active && Readable(e.disk, r)
    && e.disk[r].meta.value.status == Blocked && e.disk[r].meta.value.wait.Some?
    && TimeHasCome(e.disk[r].meta.value.wait.value.timeout, now)
    && m.planResume(e.disk[r].meta.value).Some?
  }

  predicate ToPutBack<I>(e: Engine<I>, m: ShellModule<I>, now: int, damaged: set<string>, r: string) {
    ToRecover(e, m, damaged, r) || ToResume(e, m, now, r)
  }

  /** The plan by which it is put back. */
  function PlanFor<I>(e: Engine<I>, m: ShellModule<I>, now: int, damaged: set<string>, r: string): Plan<I>
    requires ToPutBack(e, m, now, damaged, r)
  {
    var dir := e.disk[r];
    if dir.meta.value.status == Blocked then m.planResume(dir.meta.value).value
    else m.planRecovery(dir.meta.value, dir.log, dir.files.Keys).value
  }

  function EventFor<I>(e: Engine<I>, m: ShellModule<I>, now: int, damaged: set<string>, r: string, at: int): Event
    requires ToPutBack(e, m, now, damaged, r)
  {
    var meta, p := e.disk[r].meta.value, PlanFor(e, m, now, damaged, r);
    if meta.status == Blocked then
      Event(Some(at), RunResumed,
            Some(map["fromStage" := Text(p.fromStage), "requestedBy" := Text("clock"), "reason" := Text(p.reason)]))
    else
      Event(Some(at), RunRecovered,
            Some(map["fromStage" := Text(p.fromStage), "previousStatus" := Text(StatusName(meta.status)),
                     "reason" := Text(p.reason)]))
  }

  /** The Runs of the listing that are put back, in its order. */
  function PutBack<I>(e: Engine<I>, m: ShellModule<I>, now: int, damaged: set<string>, ids: seq<string>): (rs: seq<string>)
    ensures forall r :: r in rs <==> r in ids && ToPutBack(e, m, now, damaged, r)
  {
    if ids == [] then []
    else (if ToPutBack(e, m, now, damaged, ids[0]) then [ids[0]] else []) + PutBack(e, m, now, damaged, ids[1..])
  }

  lemma SalvageMeans<I>(e: Engine<I>, m: ShellModule<I>, now: int, damaged: set<string>, r: string, at: int)
    ensures Salvage(e, m, now, damaged, r).Some? <==> ToPutBack(e, m, now, damaged, r)
    ensures ToPutBack(e, m, now, damaged, r) ==>
      var (op, input) := Salvage(e, m, now, damaged, r).value;
      && input == PlanFor(e, m, now, damaged, r).input
      && Apply(e.disk[r], op, at)
         == RunDir(Some(e.disk[r].meta.value.(status := Pending, wait := None, failedStage := None, failureHint := None)),
                   e.disk[r].log + [EventFor(e, m, now, damaged, r, at)], e.disk[r].files)
  {
    if ToPutBack(e, m, now, damaged, r) {
      var event := EventFor(e, m, now, damaged, r, at);
      assert Emitted(e.disk[r], Salvage(e, m, now, damaged, r).value.0, at) == [event] && [event][..1] == [event];
    }
  }

  /** The links of these Runs, each with its plan's input. */
  ghost predicate LinksFor<I>(
    e: Engine<I>, m: ShellModule<I>, now: int, damaged: set<string>, rs: seq<string>, links: seq<Link<I>>)
  {
    && |links| == |rs|
    && forall i :: 0 <= i < |rs| ==>
         ToPutBack(e, m, now, damaged, rs[i]) && links[i] == Link(rs[i], PlanFor(e, m, now, damaged, rs[i]).input, Queued)
  }

  lemma OneMoreLink<I>(
    e: Engine<I>, m: ShellModule<I>, now: int, damaged: set<string>, r: string, rs: seq<string>, links: seq<Link<I>>)
    requires LinksFor(e, m, now, damaged, rs, links) && ToPutBack(e, m, now, damaged, r)
    ensures LinksFor(e, m, now, damaged, [r] + rs, [Link(r, PlanFor(e, m, now, damaged, r).input, Queued)] + links)
  {
  }

  lemma {:induction false} LinksOf<I>(e: Engine<I>, m: ShellModule<I>, now: int, damaged: set<string>, ids: seq<string>)
    ensures LinksFor(e, m, now, damaged, PutBack(e, m, now, damaged, ids), SalvageLinks(e, m, now, damaged, ids))
    decreases |ids|
  {
    if ids != [] {
      var rs, links := PutBack(e, m, now, damaged, ids[1..]), SalvageLinks(e, m, now, damaged, ids[1..]);
      SalvageMeans(e, m, now, damaged, ids[0], 0);
      LinksOf(e, m, now, damaged, ids[1..]);
      if ToPutBack(e, m, now, damaged, ids[0]) {
        OneMoreLink(e, m, now, damaged, ids[0], rs, links);
      } else {
        assert [] + rs == rs && [] + links == links;
      }
    }
  }

  ghost predicate NoneTwice(ids: seq<string>) { forall i, j :: 0 <= i < j < |ids| ==> ids[i] != ids[j] }

  lemma {:induction false} PutBackOnce<I>(
    e: Engine<I>, m: ShellModule<I>, now: int, damaged: set<string>, ids: seq<string>)
    requires NoneTwice(ids)
    ensures NoneTwice(PutBack(e, m, now, damaged, ids))
    decreases |ids|
  {
    if ids != [] {
      var rest := PutBack(e, m, now, damaged, ids[1..]);
      PutBackOnce(e, m, now, damaged, ids[1..]);
      OneMore(ids[0], rest);
      assert [] + rest == rest;
    }
  }

  lemma OneMore(r: string, rest: seq<string>)
    requires NoneTwice(rest) && r !in rest
    ensures NoneTwice([r] + rest)
  {
  }

  /** After a sweep: each Run that was to be put back is, and is newly queued; everything else is as it was. */
  ghost predicate SweptRight<I>(
    e: Engine<I>, m: ShellModule<I>, now: int, damaged: set<string>, ids: seq<string>, e': Engine<I>, at: int)
  {
    var rs := PutBack(e, m, now, damaged, ids);
    && e'.disk.Keys == e.disk.Keys
    && (forall r :: r in e.disk && r !in rs ==> e'.disk[r] == e.disk[r])
    && (forall r :: r in rs ==>
          r in e.disk && e'.disk[r]
            == RunDir(Some(e.disk[r].meta.value.(status := Pending, wait := None, failedStage := None, failureHint := None)),
                      e.disk[r].log + [EventFor(e, m, now, damaged, r, at)], e.disk[r].files))
    && e.chain <= e'.chain && LinksFor(e, m, now, damaged, rs, e'.chain[|e.chain|..])
    && NoneTwice(rs)
    && (forall r :: r in e'.active <==> r in e.active || r in rs)
  }

  /**
    A recovery sweep, on the records it finds. A pending or running Run that is not active, whose log
    is sound and whose Module plans a recovery, and a blocked one whose instant has come and whose
    Module plans a resumption, is pending again with the event that says so last, and is newly queued
    with the plan's input, in the order of the listing. Every other Run is left as it was.
   */
  lemma SweepExactly<I>(e: Engine<I>, m: ShellModule<I>, step: Step<I>, at: int)
    requires Enabled(e, m, step) && step.RecoverRuns? && step.ready
    ensures SweptRight(e, m, step.now, step.damaged, step.listing, Next(e, m, step, at), at)
  {
    var rs, links := PutBack(e, m, step.now, step.damaged, step.listing), SalvageLinks(e, m, step.now, step.damaged, step.listing);
    SweepEffect(e, m, step, at);
    assert (e.chain + links)[|e.chain|..] == links;
    LinksOf(e, m, step.now, step.damaged, step.listing);
    PutBackOnce(e, m, step.now, step.damaged, step.listing);
    forall r ensures Salvaged(e, m, step.now, step.damaged, step.listing, r) <==> r in rs {
      SalvageMeans(e, m, step.now, step.damaged, r, at);
    }
    forall r | r in rs ensures r in e.disk && Next(e, m, step, at).disk[r]
      == RunDir(Some(e.disk[r].meta.value.(status := Pending, wait := None, failedStage := None, failureHint := None)),
                e.disk[r].log + [EventFor(e, m, step.now, step.damaged, r, at)], e.disk[r].files)
    {
      SalvageMeans(e, m, step.now, step.damaged, r, at);
    }
  }

  ghost predicate NewlyLinked<I>(chain: seq<Link<I>>, chain': seq<Link<I>>, l: Link<I>) {
    exists i :: |chain| <= i < |chain'| && chain'[i] == l
  }

  lemma PutBackIsLinked<I>(
    e: Engine<I>, m: ShellModule<I>, now: int, damaged: set<string>, ids: seq<string>, e': Engine<I>, at: int, r: string)
    requires SweptRight(e, m, now, damaged, ids, e', at) && r in ids && ToPutBack(e, m, now, damaged, r)
    ensures NewlyLinked(e.chain, e'.chain, Link(r, PlanFor(e, m, now, damaged, r).input, Queued))
    ensures r in e'.disk && e'.disk[r].meta.Some? && e'.disk[r].meta.value.status == Pending
  {
    var rs := PutBack(e, m, now, damaged, ids);
    var i :| 0 <= i < |rs| && rs[i] == r;
    assert e'.chain[|e.chain|..][i] == e'.chain[|e.chain| + i];
  }

  /** Each Run it puts back is on the chain once, whatever was queued or executing before. */
  lemma SweepQueuesOnce<I>(e: Engine<I>, m: ShellModule<I>, step: Step<I>, at: int, r: string)
    requires Enabled(e, m, step) && step.RecoverRuns? && step.ready && QueueSound(e.chain, e.active)
    requires r in step.listing && ToPutBack(e, m, step.now, step.damaged, r)
    ensures var e' := Next(e, m, step, at);
      && OnceEach(e'.chain)
      && NewlyLinked(e.chain, e'.chain, Link(r, PlanFor(e, m, step.now, step.damaged, r).input, Queued))
      && r in e'.disk && e'.disk[r].meta.Some? && e'.disk[r].meta.value.status == Pending
  {
    SweepExactly(e, m, step, at);
    QueueStep(e, m, step, at);
    PutBackIsLinked(e, m, step.now, step.damaged, step.listing, Next(e, m, step, at), at, r);
  }
}
