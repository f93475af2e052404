/** What the relay store keeps over every sequence of operations. */
module RelayLaws {
  import opened Sorting
  import opened Relay

  // ---- The index is the message map, installation by installation -----------------------------------

  /** The keys of one installation's messages, in the order of the message map. */
  function OfInstallation(order: seq<string>, messages: map<string, Message>, installation: string): seq<string> {
    if order == [] then []
    else
      (if order[0] in messages && messages[order[0]].installation == installation then [order[0]] else [])
      + OfInstallation(order[1..], messages, installation)
  }

  ghost predicate Distinct(keys: seq<string>) {
    forall i, j :: 0 <= i < j < |keys| ==> keys[i] != keys[j]
  }

  ghost predicate MessagesSound(s: Store) {
    && Distinct(s.order)
    && (forall k :: k in s.order <==> k in s.messages)
    && (forall k :: k in s.messages ==>
          var m := s.messages[k];
          && k == Key(m.channel, m.number) && Digits(m.number)
          && m.channel in s.channels && s.channels[m.channel].installation == m.installation)
  }

  ghost predicate IndexSound(s: Store) {
    forall i :: IndexOf(s, i) == OfInstallation(s.order, s.messages, i)
  }

  ghost predicate ChannelsSound(s: Store) {
    && (forall c :: c in s.channels ==> s.channels[c].id == c && s.channels[c].installation in s.installations)
    && s.index.Keys == s.installations.Keys
  }

  ghost predicate Sound(s: Store) {
    MessagesSound(s) && IndexSound(s) && ChannelsSound(s)
  }

  lemma {:induction false} OfInstallationMembers(order: seq<string>, messages: map<string, Message>, i: string)
    ensures forall k :: k in OfInstallation(order, messages, i) <==> k in order && k in messages && messages[k].installation == i
  {
    if order != [] { OfInstallationMembers(order[1..], messages, i); }
  }

  lemma {:induction false} OfInstallationSame(
    order: seq<string>, a: map<string, Message>, b: map<string, Message>, i: string)
    requires forall k :: k in order ==>
      ((k in a && a[k].installation == i) <==> (k in b && b[k].installation == i))
    ensures OfInstallation(order, a, i) == OfInstallation(order, b, i)
  {
    if order != [] {
      assert order[0] in order && forall k :: k in order[1..] ==> k in order;
      OfInstallationSame(order[1..], a, b, i);
    }
  }

  lemma {:induction false} OfInstallationSnoc(order: seq<string>, messages: map<string, Message>, k: string, i: string)
    ensures OfInstallation(order + [k], messages, i)
         == OfInstallation(order, messages, i) + if k in messages && messages[k].installation == i then [k] else []
  {
    if order == [] {
      assert order + [k] == [k] && [k][1..] == [];
    } else {
      assert (order + [k])[1..] == order[1..] + [k];
      OfInstallationSnoc(order[1..], messages, k, i);
    }
  }

  lemma {:induction false} NoneOfInstallation(order: seq<string>, messages: map<string, Message>, i: string)
    requires forall k :: k in order && k in messages ==> messages[k].installation != i
    ensures OfInstallation(order, messages, i) == []
  {
    if order != [] {
      assert order[0] in order;
      NoneOfInstallation(order[1..], messages, i);
    }
  }

  lemma {:induction false} WithoutMembers(keys: seq<string>, gone: set<string>)
    ensures forall k :: k in Without(keys, gone) <==> k in keys && k !in gone
  {
    if keys != [] { WithoutMembers(keys[1..], gone); }
  }

  lemma {:induction false} WithoutDistinct(keys: seq<string>, gone: set<string>)
    requires Distinct(keys)
    ensures Distinct(Without(keys, gone))
  {
    if keys != [] {
      WithoutDistinct(keys[1..], gone);
      WithoutMembers(keys[1..], gone);
      var rest := Without(keys[1..], gone);
      forall j | 0 <= j < |rest| ensures rest[j] != keys[0] { assert rest[j] in rest; }
    }
  }

  lemma WithoutCons(k: string, keys: seq<string>, gone: set<string>)
    ensures Without([k] + keys, gone) == (if k in gone then [] else [k]) + Without(keys, gone)
  {
    assert ([k] + keys)[1..] == keys;
  }

  lemma {:induction false} WithoutNone(keys: seq<string>)
    ensures Without(keys, {}) == keys
  {
    if keys != [] { WithoutNone(keys[1..]); }
  }

  lemma DropNothing(s: Store)
    ensures Drop(s, {}) == s
  {
    WithoutNone(s.order);
    forall i | i in s.index ensures Without(s.index[i], {}) == s.index[i] { WithoutNone(s.index[i]); }
    assert s.messages - {} == s.messages;
    assert (map i | i in s.index :: Without(s.index[i], {})) == s.index;
  }

  lemma OfInstallationCons(k: string, order: seq<string>, messages: map<string, Message>, i: string)
    ensures OfInstallation([k] + order, messages, i)
         == (if k in messages && messages[k].installation == i then [k] else []) + OfInstallation(order, messages, i)
  {
    assert ([k] + order)[1..] == order;
  }

  lemma {:induction false} OfInstallationWithout(
    order: seq<string>, messages: map<string, Message>, gone: set<string>, i: string)
    ensures OfInstallation(Without(order, gone), messages - gone, i) == Without(OfInstallation(order, messages, i), gone)
  {
    if order != [] {
      var k := order[0];
      OfInstallationWithout(order[1..], messages, gone, i);
      OfInstallationCons(k, Without(order[1..], gone), messages - gone, i);
      WithoutCons(k, OfInstallation(order[1..], messages, i), gone);
      assert [] + Without(order[1..], gone) == Without(order[1..], gone);
      assert [] + OfInstallation(order[1..], messages, i) == OfInstallation(order[1..], messages, i);
    }
  }

  lemma DropSound(s: Store, gone: set<string>)
    requires Sound(s)
    ensures Sound(Drop(s, gone))
  {
    var s' := Drop(s, gone);
    WithoutMembers(s.order, gone);
    WithoutDistinct(s.order, gone);
    forall i ensures IndexOf(s', i) == OfInstallation(s'.order, s'.messages, i) {
      OfInstallationWithout(s.order, s.messages, gone, i);
      assert IndexOf(s, i) == OfInstallation(s.order, s.messages, i);
    }
  }

  lemma AppendSound(s: Store, c: Channel, number: string, resource: Resource, clock: Clock)
    requires Sound(s) && c.id in s.channels && s.channels[c.id] == c && Digits(number)
    ensures Sound(AppendMessage(s, c, number, resource, clock))
  {
    var key := Key(c.id, number);
    if key !in s.messages {
      var s' := AppendMessage(s, c, number, resource, clock);
      forall i ensures IndexOf(s', i) == OfInstallation(s'.order, s'.messages, i) {
        OfInstallationSnoc(s.order, s'.messages, key, i);
        OfInstallationSame(s.order, s.messages, s'.messages, i);
        assert IndexOf(s, i) == OfInstallation(s.order, s.messages, i);
      }
    }
  }

  /** The same message but for its acknowledgement. */
  ghost predicate SameButAck(a: map<string, Message>, b: map<string, Message>) {
    a.Keys == b.Keys && forall k :: k in a ==> b[k] == a[k].(ack := b[k].ack) && (a[k].ack ==> b[k].ack)
  }

  lemma {:induction false} AckedSame(messages: map<string, Message>, i: string, acks: seq<Ack>, clock: Clock, t: nat)
    ensures SameButAck(messages, Acked(messages, i, acks, clock, t).0)
    decreases |acks|
  {
    if acks != [] {
      var key := Key(acks[0].0, acks[0].1);
      AckedSame(messages, i, acks[1..], clock, t);
      AckedSame(messages, i, acks[1..], clock, t + 1);
      if Mine(messages, i, key) {
        AckedSame(messages[key := messages[key].(ack := true)], i, acks[1..], clock, t + 1);
      }
    }
  }

  lemma AckSound(s: Store, messages: map<string, Message>)
    requires Sound(s) && SameButAck(s.messages, messages)
    ensures Sound(s.(messages := messages))
  {
    var s' := s.(messages := messages);
    forall i ensures IndexOf(s', i) == OfInstallation(s'.order, s'.messages, i) {
      OfInstallationSame(s.order, s.messages, messages, i);
      assert IndexOf(s, i) == OfInstallation(s.order, s.messages, i);
    }
  }

  lemma InstallationSound(env: Env, s: Store, id: string, verifier: string, now: int)
    requires Sound(s)
    ensures Sound(Kept(s, CreateInstallation(env, s, id, verifier, now)))
  {
    var s' := Kept(s, CreateInstallation(env, s, id, verifier, now));
    if id !in s.installations {
      NoneOfInstallation(s.order, s.messages, id);
      forall i ensures IndexOf(s', i) == OfInstallation(s'.order, s'.messages, i) {
        assert IndexOf(s, i) == OfInstallation(s.order, s.messages, i);
      }
    }
  }

  lemma ChannelSound(s: Store, channels: map<string, Channel>)
    requires Sound(s)
    requires s.channels.Keys <= channels.Keys
    requires forall c :: c in channels ==> channels[c].id == c && channels[c].installation in s.installations
    requires forall c :: c in s.channels ==> channels[c].installation == s.channels[c].installation
    ensures Sound(s.(channels := channels))
  {
    var s' := s.(channels := channels);
    forall i ensures IndexOf(s', i) == OfInstallation(s'.order, s'.messages, i) {
      assert IndexOf(s, i) == OfInstallation(s.order, s.messages, i);
    }
  }

  /** Channels are added and altered, and never change hands. */
  lemma OnlyChannels(env: Env, s: Store, step: Step)
    requires Sound(s) && (step.DoCreateChannel? || step.DoRevoke?)
    ensures var channels := Next(env, s, step).channels;
      && Next(env, s, step) == s.(channels := channels)
      && s.channels.Keys <= channels.Keys
      && (forall c :: c in channels ==> channels[c].id == c && channels[c].installation in s.installations)
      && (forall c :: c in s.channels ==> channels[c].installation == s.channels[c].installation)
  {
  }

  lemma ChannelStepSound(env: Env, s: Store, step: Step)
    requires Sound(s) && (step.DoCreateChannel? || step.DoRevoke?)
    ensures Sound(Next(env, s, step))
  {
    OnlyChannels(env, s, step);
    ChannelSound(s, Next(env, s, step).channels);
  }

  lemma StepSound(env: Env, s: Store, step: Step)
    requires Sound(s)
    ensures Sound(Next(env, s, step))
  {
    match step
    case DoCreateInstallation(id, verifier, now) => InstallationSound(env, s, id, verifier, now);
    case DoCreateChannel(_, _, _, _, _, _) => ChannelStepSound(env, s, step);
    case DoRevoke(_, _, _) => ChannelStepSound(env, s, step);
    case DoPush(channel, token, number, resource, clock) =>
      var r := AuthenticateChannel(env, s, channel, token, clock(0));
      if Digits(number) && r.Success? { AppendSound(s, r.value, number, resource, Later(clock, 1)); }
    case DoPrune(clock) => DropSound(s, Expired(s, clock));
    case DoList(_, clock) => DropSound(s, Expired(s, clock));
    case DoAck(installation, acks, clock) =>
      var pruned := Pruned(s, clock);
      DropSound(s, Expired(s, clock));
      AckedSame(pruned.messages, installation, acks, clock, |s.order|);
      AckSound(pruned, Acked(pruned.messages, installation, acks, clock, |s.order|).0);
  }

  /**
    After every sequence of operations the per-installation index is exactly the message map
    filtered by installation, in the same order, and every message belongs to the
    installation that owns its channel.
   */
  lemma {:induction false} AlwaysSound(env: Env, s: Store, steps: seq<Step>)
    requires Sound(s)
    ensures Sound(Run(env, s, steps))
    decreases |steps|
  {
    if steps != [] {
      StepSound(env, s, steps[0]);
      AlwaysSound(env, Next(env, s, steps[0]), steps[1..]);
    }
  }

  // ---- Keys ---------------------------------------------------------------------------------------------

  /** Keys tell channel and number apart, whatever the channel id, as long as numbers hold no colon. */
  lemma KeyInjective(c: string, n: string, d: string, m: string)
    requires ':' !in n && ':' !in m && Key(c, n) == Key(d, m)
    ensures c == d && n == m
  {
    NotLonger(c, n, d, m);
    NotLonger(d, m, c, n);
    var k := Key(c, n);
    assert c == k[..|c|] && d == k[..|d|];
    assert n == k[|c| + 1..] && m == k[|d| + 1..];
  }

  lemma NotLonger(c: string, n: string, d: string, m: string)
    requires ':' !in n && Key(c, n) == Key(d, m)
    ensures |d| <= |c|
  {
    AfterColon(c, n);
    assert Key(d, m)[|d|] == ':';
  }

  lemma AfterColon(c: string, n: string)
    ensures forall p :: |c| < p < |Key(c, n)| ==> Key(c, n)[p] in n
  {
    forall p | |c| < p < |Key(c, n)| ensures Key(c, n)[p] in n {
      assert Key(c, n)[p] == n[p - |c| - 1];
    }
  }

  lemma DigitsNoColon(n: string)
    requires Digits(n)
    ensures ':' !in n
  {
  }

  /** Without that, two different pairs can share a key. */
  lemma KeyCollision()
    ensures Key("a", "1:2") == Key("a:1", "2")
  {
    assert "a" + ":" + "1:2" == "a:1:2" == "a:1" + ":" + "2";
  }

  /** One message per channel and number. */
  lemma OnePerNumber(s: Store, k: string, l: string)
    requires Sound(s) && k in s.messages && l in s.messages
    requires s.messages[k].channel == s.messages[l].channel && s.messages[k].number == s.messages[l].number
    ensures k == l
  {
  }

  /** A repeated wake-up changes nothing; a new one is stored under its own key, unacknowledged. */
  lemma PushDeduplicates(env: Env, s: Store, channel: string, token: string, number: string, resource: Resource, clock: Clock)
    requires Sound(s) && Push(env, s, channel, token, number, resource, clock).Success?
    ensures var s' := Push(env, s, channel, token, number, resource, clock).value;
      if exists k :: k in s.messages && s.messages[k].channel == channel && s.messages[k].number == number
      then s' == s
      else
        && s'.messages == s.messages[Key(channel, number) := Message(
             s.channels[channel].installation, channel, number, resource, clock(1), clock(2) + RETENTION_MS, false)]
        && Key(channel, number) !in s.messages
  {
    DigitsNoColon(number);
    var key := Key(channel, number);
    if key in s.messages {
      DigitsNoColon(s.messages[key].number);
      KeyInjective(s.messages[key].channel, s.messages[key].number, channel, number);
    }
  }

  // ---- Listing ---------------------------------------------------------------------------------------------

  lemma {:induction false} FreshMembers(messages: map<string, Message>, keys: seq<string>, clock: Clock, t: nat, m: Message)
    requires m in Fresh(messages, keys, clock, t)
    ensures !m.ack && exists k :: k in keys && k in messages && messages[k] == m
  {
    if !(keys[0] in messages && messages[keys[0]] == m && !m.ack) {
      if keys[0] in messages && !messages[keys[0]].ack {
        FreshMembers(messages, keys[1..], clock, t + 1, m);
      } else {
        FreshMembers(messages, keys[1..], clock, t, m);
      }
      assert forall k :: k in keys[1..] ==> k in keys;
    }
  }

  lemma {:induction false} FreshIncludes(messages: map<string, Message>, keys: seq<string>, clock: Clock, t: nat, k: string)
    requires k in keys && k in messages && !messages[k].ack && forall u: nat :: clock(u) < messages[k].expiresAt
    ensures messages[k] in Fresh(messages, keys, clock, t)
  {
    if keys[0] != k {
      if keys[0] in messages && !messages[keys[0]].ack {
        FreshIncludes(messages, keys[1..], clock, t + 1, k);
      } else {
        FreshIncludes(messages, keys[1..], clock, t, k);
      }
    }
  }

  /** Whatever the clock does, an installation is shown its own unacknowledged messages and no others. */
  lemma Isolation(env: Env, s: Store, installation: string, clock: Clock, m: Message)
    requires Sound(s) && m in Pending(env, s, installation, clock)
    ensures m.installation == installation && !m.ack
    ensures exists k :: k in s.messages && s.messages[k] == m
  {
    var pruned := Pruned(s, clock);
    DropSound(s, Expired(s, clock));
    var unread := Fresh(pruned.messages, IndexOf(pruned, installation), clock, |s.order|);
    SameElements(Sort(unread, ByArrival(env)), unread, m);
    FreshMembers(pruned.messages, IndexOf(pruned, installation), clock, |s.order|, m);
    var k :| k in IndexOf(pruned, installation) && k in pruned.messages && pruned.messages[k] == m;
    assert IndexOf(pruned, installation) == OfInstallation(pruned.order, pruned.messages, installation);
    OfInstallationMembers(pruned.order, pruned.messages, installation);
  }

  /** As long as no reading of the clock reaches its expiry, an unacknowledged message is listed. */
  lemma ListsPending(env: Env, s: Store, k: string, clock: Clock)
    requires Sound(s) && k in s.messages && !s.messages[k].ack
    requires forall u: nat :: clock(u) < s.messages[k].expiresAt
    ensures s.messages[k] in Pending(env, s, s.messages[k].installation, clock)
  {
    var m := s.messages[k];
    var pruned := Pruned(s, clock);
    DropSound(s, Expired(s, clock));
    StaysPruned(s, k, clock);
    assert IndexOf(pruned, m.installation) == OfInstallation(pruned.order, pruned.messages, m.installation);
    OfInstallationMembers(pruned.order, pruned.messages, m.installation);
    FreshIncludes(pruned.messages, IndexOf(pruned, m.installation), clock, |s.order|, k);
    var unread := Fresh(pruned.messages, IndexOf(pruned, m.installation), clock, |s.order|);
    SameElements(Sort(unread, ByArrival(env)), unread, m);
  }

  lemma StaysPruned(s: Store, k: string, clock: Clock)
    requires k in s.messages && forall u: nat :: clock(u) < s.messages[k].expiresAt
    ensures k !in Expired(s, clock) && k in Pruned(s, clock).messages && Pruned(s, clock).messages[k] == s.messages[k]
  {
  }

  // ---- Retention -------------------------------------------------------------------------------------------

  predicate Acknowledges(step: Step, installation: string, key: string) {
    step.DoAck? && step.installation == installation
    && exists i :: 0 <= i < |step.acks| && Key(step.acks[i].0, step.acks[i].1) == key
  }

  /** No reading the step makes reaches `instant`. */
  ghost predicate Before(step: Step, instant: int) {
    (step.DoPush? || step.DoPrune? || step.DoList? || step.DoAck?) ==> forall u: nat :: step.clock(u) < instant
  }

  lemma {:induction false} AckedSpares(
    messages: map<string, Message>, i: string, acks: seq<Ack>, clock: Clock, t: nat, k: string)
    requires k in messages
    requires messages[k].installation != i || forall j :: 0 <= j < |acks| ==> Key(acks[j].0, acks[j].1) != k
    ensures k in Acked(messages, i, acks, clock, t).0 && Acked(messages, i, acks, clock, t).0[k] == messages[k]
    decreases |acks|
  {
    if acks != [] {
      var key := Key(acks[0].0, acks[0].1);
      AckedSpares(messages, i, acks[1..], clock, t, k);
      AckedSpares(messages, i, acks[1..], clock, t + 1, k);
      if Mine(messages, i, key) {
        AckedSpares(messages[key := messages[key].(ack := true)], i, acks[1..], clock, t + 1, k);
      }
    }
  }

  lemma StepRetains(env: Env, s: Store, step: Step, k: string)
    requires Sound(s) && k in s.messages && !s.messages[k].ack
    requires Before(step, s.messages[k].expiresAt) && !Acknowledges(step, s.messages[k].installation, k)
    ensures k in Next(env, s, step).messages && Next(env, s, step).messages[k] == s.messages[k]
  {
    match step
    case DoPrune(clock) => StaysPruned(s, k, clock);
    case DoList(_, clock) => StaysPruned(s, k, clock);
    case DoAck(installation, acks, clock) =>
      AckRetains(s, installation, acks, clock, k);
    case DoPush(_, _, _, _, _) => PushRetains(env, s, step, k);
    case _ => MessagesStay(env, s, step);
  }

  lemma AckRetains(s: Store, installation: string, acks: seq<Ack>, clock: Clock, k: string)
    requires Sound(s) && k in s.messages && !s.messages[k].ack
    requires forall u: nat :: clock(u) < s.messages[k].expiresAt
    requires s.messages[k].installation != installation || forall j :: 0 <= j < |acks| ==> Key(acks[j].0, acks[j].1) != k
    ensures var after := Acked(Pruned(s, clock).messages, installation, acks, clock, |s.order|).0;
      k in after && after[k] == s.messages[k]
  {
    StaysPruned(s, k, clock);
    AckedSpares(Pruned(s, clock).messages, installation, acks, clock, |s.order|, k);
  }

  /** A push stores at most one message, under a key that was free. */
  lemma PushRetains(env: Env, s: Store, step: Step, k: string)
    requires step.DoPush? && k in s.messages
    ensures k in Next(env, s, step).messages && Next(env, s, step).messages[k] == s.messages[k]
  {
  }

  lemma MessagesStay(env: Env, s: Store, step: Step)
    requires step.DoCreateInstallation? || step.DoCreateChannel? || step.DoRevoke?
    ensures Next(env, s, step).messages == s.messages
  {
  }

  /**
    A wake-up stays pending for its own installation through every sequence of operations —
    other installations' acknowledgements of its key included — until its owner
    acknowledges it or a reading of the clock reaches its expiry.
   */
  lemma {:induction false} RetainedUntilAcked(env: Env, s: Store, steps: seq<Step>, k: string, clock: Clock)
    requires Sound(s) && k in s.messages && !s.messages[k].ack
    requires forall i :: 0 <= i < |steps| ==>
      Before(steps[i], s.messages[k].expiresAt) && !Acknowledges(steps[i], s.messages[k].installation, k)
    requires forall u: nat :: clock(u) < s.messages[k].expiresAt
    ensures s.messages[k] in Pending(env, Run(env, s, steps), s.messages[k].installation, clock)
    decreases |steps|
  {
    if steps == [] {
      ListsPending(env, s, k, clock);
    } else {
      StepRetains(env, s, steps[0], k);
      StepSound(env, s, steps[0]);
      RetainedUntilAcked(env, Next(env, s, steps[0]), steps[1..], k, clock);
    }
  }

  /** A revoked channel never authenticates again. */
  lemma {:induction false} RevokedForever(env: Env, s: Store, steps: seq<Step>, id: string, token: string, now: int)
    requires id in s.channels && s.channels[id].revokedAt.Some?
    ensures var s' := Run(env, s, steps);
      id in s'.channels && s'.channels[id].revokedAt.Some? && AuthenticateChannel(env, s', id, token, now).Failure?
    decreases |steps|
  {
    if steps != [] {
      RevokedStep(env, s, steps[0], id);
      RevokedForever(env, Next(env, s, steps[0]), steps[1..], id, token, now);
    }
  }

  lemma RevokedStep(env: Env, s: Store, step: Step, id: string)
    requires id in s.channels && s.channels[id].revokedAt.Some?
    ensures id in Next(env, s, step).channels && Next(env, s, step).channels[id].revokedAt.Some?
  {
  }
}
