/** At a fixed clock the listing is a simple filter, and acknowledging is conservation. */
module RelayPending {
  import opened Sorting
  import opened Relay
  import opened RelayLaws

  function Always(now: int): Clock { (t: nat) => now }

  predicate Live(m: Message, installation: string, now: int) {
    m.installation == installation && !m.ack && now < m.expiresAt
  }

  /** The plain reading: all messages, in the order of the map, kept if they are the installation's and live. */
  function Filtered(order: seq<string>, messages: map<string, Message>, installation: string, now: int): seq<Message> {
    if order == [] then []
    else
      (if order[0] in messages && Live(messages[order[0]], installation, now) then [messages[order[0]]] else [])
      + Filtered(order[1..], messages, installation, now)
  }

  /** `gone` holds exactly the expired keys of `order`. */
  ghost predicate ExactlyExpired(order: seq<string>, messages: map<string, Message>, gone: set<string>, now: int) {
    forall k :: k in order && k in messages ==> (k in gone <==> messages[k].expiresAt <= now)
  }

  lemma FreshCons(messages: map<string, Message>, k: string, keys: seq<string>, now: int, t: nat, u: nat)
    requires Fresh(messages, keys, Always(now), t) == Fresh(messages, keys, Always(now), u)
    requires Fresh(messages, keys, Always(now), t + 1) == Fresh(messages, keys, Always(now), u)
    ensures Fresh(messages, [k] + keys, Always(now), t)
         == (if k in messages && !messages[k].ack && now < messages[k].expiresAt then [messages[k]] else [])
            + Fresh(messages, keys, Always(now), u)
  {
    assert ([k] + keys)[1..] == keys;
  }

  lemma {:induction false} FreshAnyTime(messages: map<string, Message>, keys: seq<string>, now: int, t: nat, u: nat)
    ensures Fresh(messages, keys, Always(now), t) == Fresh(messages, keys, Always(now), u)
  {
    if keys != [] {
      FreshAnyTime(messages, keys[1..], now, t, u);
      FreshAnyTime(messages, keys[1..], now, t + 1, u + 1);
    }
  }

  lemma {:induction false} FreshIsFiltered(
    order: seq<string>, messages: map<string, Message>, gone: set<string>, i: string, now: int, t: nat)
    requires ExactlyExpired(order, messages, gone, now)
    ensures Fresh(messages - gone, Without(OfInstallation(order, messages, i), gone), Always(now), t)
         == Filtered(order, messages, i, now)
  {
    if order != [] {
      var k, rest := order[0], OfInstallation(order[1..], messages, i);
      var kept := Without(rest, gone);
      assert k in order;
      FreshIsFiltered(order[1..], messages, gone, i, now, t);
      WithoutCons(k, rest, gone);
      FreshAnyTime(messages - gone, kept, now, t, t + 1);
      FreshCons(messages - gone, k, kept, now, t, t);
      assert [] + rest == rest && [] + kept == kept;
      assert [] + Filtered(order[1..], messages, i, now) == Filtered(order[1..], messages, i, now);
    }
  }

  lemma ArrivalOrder(env: Env)
    ensures TotalPreorder(ByArrival(env))
  {
  }

  /**
    What an installation is shown at a given time: all messages of the store filtered by
    installation, acknowledgement and expiry, ordered by arrival and then by number.
   */
  lemma PendingIsFilter(env: Env, s: Store, installation: string, now: int)
    requires Sound(s)
    ensures Pending(env, s, installation, Always(now))
         == Sort(Filtered(s.order, s.messages, installation, now), ByArrival(env))
    ensures Ordered(Pending(env, s, installation, Always(now)), ByArrival(env))
  {
    var gone := Expired(s, Always(now));
    assert IndexOf(s, installation) == OfInstallation(s.order, s.messages, installation);
    assert IndexOf(Pruned(s, Always(now)), installation) == Without(IndexOf(s, installation), gone);
    FreshIsFiltered(s.order, s.messages, gone, installation, now, |s.order|);
    ArrivalOrder(env);
    SortOrders(Filtered(s.order, s.messages, installation, now), ByArrival(env));
  }

  // ---- Acknowledging -----------------------------------------------------------------------------------

  lemma {:induction false} FilteredWithout(
    order: seq<string>, messages: map<string, Message>, gone: set<string>, i: string, now: int)
    requires ExactlyExpired(order, messages, gone, now)
    ensures Filtered(Without(order, gone), messages - gone, i, now) == Filtered(order, messages, i, now)
  {
    if order != [] {
      var k, kept := order[0], Without(order[1..], gone);
      assert k in order;
      FilteredWithout(order[1..], messages, gone, i, now);
      assert ([k] + kept)[1..] == kept && [] + kept == kept;
      assert [] + Filtered(order[1..], messages, i, now) == Filtered(order[1..], messages, i, now);
    }
  }

  lemma {:induction false} FilteredFrame(
    order: seq<string>, a: map<string, Message>, b: map<string, Message>, i: string, now: int)
    requires forall k :: k in order && (k in a || k in b) ==>
      k in a && k in b && (Live(a[k], i, now) <==> Live(b[k], i, now)) && (Live(a[k], i, now) ==> a[k] == b[k])
    ensures Filtered(order, a, i, now) == Filtered(order, b, i, now)
  {
    if order != [] {
      assert order[0] in order && forall k :: k in order[1..] ==> k in order;
      FilteredFrame(order[1..], a, b, i, now);
    }
  }

  /** Acknowledging one live message takes exactly it off the list. */
  lemma {:induction false} FilteredAck(order: seq<string>, messages: map<string, Message>, key: string, i: string, now: int)
    requires Distinct(order) && key in order && key in messages && Live(messages[key], i, now)
    ensures |Filtered(order, messages[key := messages[key].(ack := true)], i, now)| == |Filtered(order, messages, i, now)| - 1
  {
    var after := messages[key := messages[key].(ack := true)];
    if order[0] == key {
      FilteredFrame(order[1..], messages, after, i, now);
    } else {
      FilteredAck(order[1..], messages, key, i, now);
    }
  }

  lemma {:induction false} AckedCounts(
    order: seq<string>, messages: map<string, Message>, i: string, acks: seq<Ack>, now: int, t: nat)
    requires Distinct(order) && forall k :: k in order <==> k in messages
    ensures var (after, count) := Acked(messages, i, acks, Always(now), t);
      && |Filtered(order, messages, i, now)| == |Filtered(order, after, i, now)| + count
      && (forall j :: j != i ==> Filtered(order, after, j, now) == Filtered(order, messages, j, now))
      && (forall a :: a in acks ==> !(Mine(after, i, Key(a.0, a.1)) && now < after[Key(a.0, a.1)].expiresAt))
    decreases |acks|
  {
    if acks != [] {
      var key := Key(acks[0].0, acks[0].1);
      if !Mine(messages, i, key) {
        AckedCounts(order, messages, i, acks[1..], now, t);
        AckedSame(messages, i, acks[1..], Always(now), t);
      } else if messages[key].expiresAt <= now {
        AckedCounts(order, messages, i, acks[1..], now, t + 1);
        AckedSame(messages, i, acks[1..], Always(now), t + 1);
      } else {
        var next := messages[key := messages[key].(ack := true)];
        FilteredAck(order, messages, key, i, now);
        AckedCounts(order, next, i, acks[1..], now, t + 1);
        AckedSame(next, i, acks[1..], Always(now), t + 1);
        forall j | j != i ensures Filtered(order, next, j, now) == Filtered(order, messages, j, now) {
          FilteredFrame(order, next, messages, j, now);
        }
      }
    }
  }

  lemma {:induction false} AckedNothing(messages: map<string, Message>, i: string, acks: seq<Ack>, now: int, t: nat)
    requires forall a :: a in acks ==> !(Mine(messages, i, Key(a.0, a.1)) && now < messages[Key(a.0, a.1)].expiresAt)
    ensures Acked(messages, i, acks, Always(now), t) == (messages, 0)
    decreases |acks|
  {
    if acks != [] {
      assert acks[0] in acks && forall a :: a in acks[1..] ==> a in acks;
      AckedNothing(messages, i, acks[1..], now, t);
      AckedNothing(messages, i, acks[1..], now, t + 1);
    }
  }

  lemma NothingExpired(s: Store, now: int)
    requires Sound(s)
    ensures var pruned := Pruned(s, Always(now));
      && Sound(pruned) && Expired(pruned, Always(now)) == {}
      && forall i :: Filtered(pruned.order, pruned.messages, i, now) == Filtered(s.order, s.messages, i, now)
  {
    var gone := Expired(s, Always(now));
    DropSound(s, gone);
    WithoutMembers(s.order, gone);
    forall i ensures Filtered(Without(s.order, gone), s.messages - gone, i, now) == Filtered(s.order, s.messages, i, now) {
      FilteredWithout(s.order, s.messages, gone, i, now);
    }
  }

  /** At a fixed clock, what was pending is what is pending afterwards plus what was acknowledged; nobody else's list moves. */
  lemma AckConserves(env: Env, s: Store, installation: string, acks: seq<Ack>, now: int)
    requires Sound(s)
    ensures var (s', count) := AckMessages(s, installation, acks, Always(now));
      && |Pending(env, s, installation, Always(now))| == |Pending(env, s', installation, Always(now))| + count
      && (forall j :: j != installation ==> Pending(env, s', j, Always(now)) == Pending(env, s, j, Always(now)))
  {
    var pruned := Pruned(s, Always(now));
    var (s', count) := AckMessages(s, installation, acks, Always(now));
    NothingExpired(s, now);
    AckedSame(pruned.messages, installation, acks, Always(now), |s.order|);
    AckSound(pruned, s'.messages);
    AckedCounts(pruned.order, pruned.messages, installation, acks, now, |s.order|);
    forall j ensures Pending(env, s, j, Always(now)) == Sort(Filtered(s.order, s.messages, j, now), ByArrival(env)) {
      PendingIsFilter(env, s, j, now);
    }
    forall j ensures Pending(env, s', j, Always(now)) == Sort(Filtered(s'.order, s'.messages, j, now), ByArrival(env)) {
      PendingIsFilter(env, s', j, now);
    }
  }

  /** Repeating a batch at the same clock acknowledges nothing more and changes nothing. */
  lemma AckIdempotent(s: Store, installation: string, acks: seq<Ack>, now: int)
    requires Sound(s)
    ensures var s' := AckMessages(s, installation, acks, Always(now)).0;
      AckMessages(s', installation, acks, Always(now)) == (s', 0)
  {
    var pruned := Pruned(s, Always(now));
    var s' := AckMessages(s, installation, acks, Always(now)).0;
    NothingExpired(s, now);
    AckedSame(pruned.messages, installation, acks, Always(now), |s.order|);
    AckSound(pruned, s'.messages);
    AckedCounts(pruned.order, pruned.messages, installation, acks, now, |s.order|);
    assert Expired(s', Always(now)) == {} by {
      forall i | 0 <= i < |s'.order| && s'.order[i] in s'.messages ensures now < s'.messages[s'.order[i]].expiresAt {
        var k := s'.order[i];
        assert pruned.order[i] !in Expired(pruned, Always(now));
        assert pruned.messages[k].expiresAt == s'.messages[k].expiresAt;
      }
    }
    DropNothing(s');
    AckedNothing(s'.messages, installation, acks, now, |s'.order|);
  }
}
