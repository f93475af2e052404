/** The FIFO work limiter: a semaphore that hands a freed slot straight to whoever waited longest. */
module WorkLimiters {
  import opened Prelude

  /** Where a `run` call stands. `Granted`: its promise is resolved and its work not yet resumed. */
  datatype Phase = InLine | Granted | Working | Finished

  /** `waiting` holds the resolvers in the order they were pushed, each named by its call. */
  datatype Limiter = Limiter(capacity: int, running: int, waiting: seq<nat>, calls: seq<Phase>)

  datatype Step =
    | Arrive
    | Resume(call: nat)
    | Finish(call: nat, threw: bool)

  predicate Enabled(l: Limiter, step: Step) {
    match step
    case Arrive => true
    case Resume(i) => i < |l.calls| && l.calls[i].Granted?
    case Finish(i, _) => i < |l.calls| && l.calls[i].Working? && (l.waiting != [] ==> l.waiting[0] < |l.calls|)
  }

  function Next(l: Limiter, step: Step): Limiter
    requires Enabled(l, step)
  {
    match step
    case Arrive =>
      if l.running >= l.capacity
      then l.(waiting := l.waiting + [|l.calls|], calls := l.calls + [InLine])
      else l.(running := l.running + 1, calls := l.calls + [Working])
    case Resume(i) => l.(calls := l.calls[i := Working])
    case Finish(i, _) =>
      var done := l.calls[i := Finished];
      if l.waiting != [] then l.(waiting := l.waiting[1..], calls := done[l.waiting[0] := Granted])
      else l.(running := l.running - 1, calls := done)
  }

  function InFlight(calls: seq<Phase>): nat {
    if calls == [] then 0
    else InFlight(calls[..|calls| - 1]) + if calls[|calls| - 1] in {Granted, Working} then 1 else 0
  }

  /** How many calls have been let in; the rest wait behind them. */
  function Front(l: Limiter): int { |l.calls| - |l.waiting| }

  ghost predicate Sound(l: Limiter) {
    && l.capacity >= 1
    && l.running == InFlight(l.calls)
    && l.running <= l.capacity
    && (l.waiting != [] ==> l.running == l.capacity)
    && Front(l) >= 0
    && (forall k :: 0 <= k < |l.waiting| ==> l.waiting[k] == Front(l) + k)
    && (forall i :: 0 <= i < |l.calls| ==> (l.calls[i].InLine? <==> i >= Front(l)))
  }

  lemma {:induction false} InFlightUpdate(calls: seq<Phase>, i: nat, p: Phase)
    requires i < |calls|
    ensures InFlight(calls[i := p])
         == InFlight(calls) - (if calls[i] in {Granted, Working} then 1 else 0) + (if p in {Granted, Working} then 1 else 0)
  {
    var last := |calls| - 1;
    if i == last {
      assert calls[i := p][..last] == calls[..last];
    } else {
      assert calls[i := p][..last] == calls[..last][i := p];
      InFlightUpdate(calls[..last], i, p);
    }
  }

  lemma InFlightSnoc(calls: seq<Phase>, p: Phase)
    ensures InFlight(calls + [p]) == InFlight(calls) + if p in {Granted, Working} then 1 else 0
  {
    assert (calls + [p])[..|calls|] == calls;
  }

  lemma SoundArrive(l: Limiter)
    requires Sound(l)
    ensures Sound(Next(l, Arrive))
  {
    InFlightSnoc(l.calls, InLine);
    InFlightSnoc(l.calls, Working);
  }

  lemma SoundFinish(l: Limiter, step: Step)
    requires Sound(l) && Enabled(l, step) && step.Finish?
    ensures Sound(Next(l, step))
  {
    var calls := l.calls[step.call := Finished];
    InFlightUpdate(l.calls, step.call, Finished);
    if l.waiting != [] { InFlightUpdate(calls, l.waiting[0], Granted); }
  }

  lemma SoundStep(l: Limiter, step: Step)
    requires Sound(l) && Enabled(l, step)
    ensures Sound(Next(l, step))
  {
    match step
    case Arrive => SoundArrive(l);
    case Resume(i) => InFlightUpdate(l.calls, i, Working);
    case Finish(_, _) => SoundFinish(l, step);
  }

  // ---- Whole runs --------------------------------------------------------------------------------

  ghost predicate Runs(from: Limiter, steps: seq<Step>, to: Limiter)
    decreases |steps|
  {
    if steps == [] then to == from
    else Enabled(from, steps[0]) && Runs(Next(from, steps[0]), steps[1..], to)
  }

  /**
    `running` always counts the bodies at work and the waiters already let in, never exceeds
    the capacity, equals it whenever anyone waits, and the waiters are exactly the last calls
    in the order of their arrival: nobody barges.
   */
  lemma {:induction false} AlwaysSound(from: Limiter, steps: seq<Step>, to: Limiter)
    requires Sound(from) && Runs(from, steps, to)
    ensures Sound(to) && to.capacity == from.capacity
    decreases |steps|
  {
    if steps != [] {
      SoundStep(from, steps[0]);
      AlwaysSound(Next(from, steps[0]), steps[1..], to);
    }
  }

  function Releases(steps: seq<Step>): nat {
    if steps == [] then 0 else (if steps[0].Finish? then 1 else 0) + Releases(steps[1..])
  }

  /** A call that waits behind `k` others is let in by the release number `k + 1`, and not before. */
  lemma {:induction false} GrantedAfterItsTurn(from: Limiter, steps: seq<Step>, to: Limiter, k: nat)
    requires Sound(from) && Runs(from, steps, to) && k < |from.waiting|
    ensures from.waiting[k] < |to.calls|
    ensures !to.calls[from.waiting[k]].InLine? <==> Releases(steps) > k
    decreases |steps|
  {
    var call := from.waiting[k];
    if steps != [] {
      var mid := Next(from, steps[0]);
      SoundStep(from, steps[0]);
      if steps[0].Finish? {
        if k == 0 {
          StaysIn(mid, steps[1..], to, call);
        } else {
          assert mid.waiting[k - 1] == call;
          GrantedAfterItsTurn(mid, steps[1..], to, k - 1);
        }
      } else {
        assert mid.waiting[k] == call;
        GrantedAfterItsTurn(mid, steps[1..], to, k);
      }
    }
  }

  lemma {:induction false} StaysIn(from: Limiter, steps: seq<Step>, to: Limiter, call: nat)
    requires Sound(from) && Runs(from, steps, to) && call < |from.calls| && !from.calls[call].InLine?
    ensures call < |to.calls| && !to.calls[call].InLine?
    decreases |steps|
  {
    if steps != [] {
      SoundStep(from, steps[0]);
      StaysIn(Next(from, steps[0]), steps[1..], to, call);
    }
  }

  // ---- The object -----------------------------------------------------------------------------------

  class WorkLimiter {
    const capacity: int
    var running: int
    var waiting: seq<nat>
    var calls: seq<Phase>

    ghost function View(): Limiter
      reads this
    {
      Limiter(capacity, running, waiting, calls)
    }

    constructor (capacity: int)
      requires capacity >= 1
      ensures View() == Limiter(capacity, 0, [], []) && Sound(View())
    {
      this.capacity := capacity;
      running, waiting, calls := 0, [], [];
    }

    /** A capacity below one is refused. */
    static method Create(capacity: int) returns (r: Option<WorkLimiter>)
      ensures r.Some? <==> capacity >= 1
      ensures r.Some? ==> fresh(r.value) && r.value.View() == Limiter(capacity, 0, [], [])
    {
      if capacity < 1 {
        return None;
      }
      var l := new WorkLimiter(capacity);
      return Some(l);
    }

    /** The entry half of `run`: wait in line at capacity, otherwise start at once. */
    method Enter() returns (call: nat)
      requires Sound(View())
      modifies this
      ensures View() == Next(old(View()), Arrive) && Sound(View())
      ensures call == |old(calls)| && (calls[call].Working? <==> old(running) < capacity)
    {
      SoundStep(View(), Arrive);
      call := |calls|;
      if running >= capacity {
        waiting := waiting + [call];
        calls := calls + [InLine];
      } else {
        running := running + 1;
        calls := calls + [Working];
      }
    }

    /** A granted waiter's continuation runs. */
    method Continue(call: nat)
      requires Sound(View()) && Enabled(View(), Resume(call))
      modifies this
      ensures View() == Next(old(View()), Resume(call)) && Sound(View())
    {
      SoundStep(View(), Resume(call));
      calls := calls[call := Working];
    }

    /** The `finally` half of `run`, whether the work returned or threw. */
    method Leave(call: nat, threw: bool)
      requires Sound(View()) && Enabled(View(), Finish(call, threw))
      modifies this
      ensures View() == Next(old(View()), Finish(call, threw)) && Sound(View())
      ensures running == old(running) - if old(waiting) == [] then 1 else 0
    {
      SoundStep(View(), Finish(call, threw));
      calls := calls[call := Finished];
      if waiting != [] {
        var next := waiting[0];
        waiting := waiting[1..];
        calls := calls[next := Granted];
      } else {
        running := running - 1;
      }
    }
  }
}
