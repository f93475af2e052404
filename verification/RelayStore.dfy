/** The store object: four maps updated in place. */
module RelayStores {
  import opened Prelude
  import opened Sorting
  import opened Relay
  import opened RelayLaws
  import opened RelayAnswers

  lemma ListingSpec(env: Env, s: Store, pruned: Store, installation: string, clock: Clock, pending: seq<Message>)
    requires pruned == Pruned(s, clock)
    requires pending == Fresh(pruned.messages, IndexOf(pruned, installation), clock, |s.order|)
    ensures Sort(pending, ByArrival(env)) == Relay.Pending(env, s, installation, clock)
    ensures Next(env, s, DoList(installation, clock)) == pruned
  {
  }

  class RelayStore {
    const env: Env
    var installations: map<string, Installation>
    var channels: map<string, Channel>
    var messages: map<string, Message>
    var order: seq<string>
    var messagesByInstallation: map<string, seq<string>>

    ghost function View(): Store
      reads this
    {
      Store(installations, channels, messages, order, messagesByInstallation)
    }

    constructor (env: Env)
      ensures this.env == env && View() == EMPTY && Sound(View())
    {
      this.env := env;
      installations, channels, messages, order, messagesByInstallation := map[], map[], map[], [], map[];
    }

    method CreateInstallation(id: string, verifier: string, now: int) returns (r: Result<Installation, Refusal>)
      modifies this
      ensures View() == Next(env, old(View()), DoCreateInstallation(id, verifier, now))
      ensures InstallationAnswered(env, old(View()), id, verifier, now, View(), r)
    {
      if id in installations {
        if !SameHex(env, installations[id].verifier, verifier) {
          return Failure(Conflict);
        }
        return Success(installations[id]);
      }
      var rec := Installation(id, env.lower(verifier), now);
      installations := installations[id := rec];
      messagesByInstallation := messagesByInstallation[id := []];
      return Success(rec);
    }

    method AuthenticateInstallation(id: string, secret: string) returns (r: Result<Installation, Refusal>)
      ensures r.Success? <==> id in installations && env.unhex(env.hash(secret)) == env.unhex(installations[id].verifier)
      ensures r.Failure? ==> r.error == if id in installations then Unauthorized else NotFound
      ensures r.Success? ==> r.value == installations[id]
    {
      if id !in installations {
        return Failure(NotFound);
      }
      if !SameHex(env, env.hash(secret), installations[id].verifier) {
        return Failure(Unauthorized);
      }
      return Success(installations[id]);
    }

    method CreateChannel(
      installation: string, id: string, verifier: string, expiration: Option<Expiry>, resourceId: Option<string>, now: int)
      returns (r: Result<Channel, Refusal>)
      modifies this`channels
      ensures View() == Next(env, old(View()), DoCreateChannel(installation, id, verifier, expiration, resourceId, now))
      ensures ChannelAnswered(env, old(View()), installation, id, verifier, expiration, resourceId, now, View(), r)
    {
      if installation !in installations {
        return Failure(NotFound);
      }
      if id in channels {
        var existing := channels[id];
        if existing.installation != installation || existing.revokedAt.Some?
           || !SameHex(env, existing.tokenVerifier, verifier) {
          return Failure(Conflict);
        }
        if resourceId.Some? { existing := existing.(resourceId := resourceId); }
        if expiration.Some? { existing := existing.(expiration := expiration); }
        channels := channels[id := existing];
        return Success(existing);
      }
      var rec := Channel(id, installation, env.lower(verifier), resourceId, expiration, None, now);
      channels := channels[id := rec];
      return Success(rec);
    }

    method RevokeChannel(installation: string, id: string, now: int) returns (found: bool)
      modifies this`channels
      ensures View() == Next(env, old(View()), DoRevoke(installation, id, now))
      ensures RevocationAnswered(old(View()), installation, id, now, View(), found)
    {
      if id !in channels || channels[id].installation != installation {
        return false;
      }
      if channels[id].revokedAt.None? {
        channels := channels[id := channels[id].(revokedAt := Some(now))];
      }
      return true;
    }

    /** Walks the message map in insertion order, with a new reading for each message. */
    method PruneExpired(clock: Clock)
      requires Sound(View())
      modifies this
      ensures View() == Pruned(old(View()), clock) && Sound(View())
    {
      ghost var s := View();
      var keys := order;
      WalkStarts(s, clock);
      for i := 0 to |keys|
        invariant View() == Walked(s, clock, i) && Sound(View())
      {
        WalkStep(s, clock, i);
        if messages[keys[i]].expiresAt <= clock(i) {
          DeleteMessage(keys[i]);
        }
      }
      WalkEnds(s, clock);
    }

    method DeleteMessage(key: string)
      requires Sound(View()) && key in messages
      modifies this
      ensures View() == Drop(old(View()), {key}) && Sound(View())
    {
      DropOne(View(), key);
      DropSound(View(), {key});
      var installation := messages[key].installation;
      messages := messages - {key};
      order := Without(order, {key});
      messagesByInstallation :=
        messagesByInstallation[installation := Without(messagesByInstallation[installation], {key})];
    }

    /** Stores a wake-up for any channel record it is handed; a repeated key is left alone. */
    method AppendMessage(c: Channel, number: string, resource: Resource, clock: Clock) returns (created: bool)
      modifies this
      ensures View() == Relay.AppendMessage(old(View()), c, number, resource, clock)
      ensures created <==> Key(c.id, number) !in old(messages)
    {
      var key := Key(c.id, number);
      if key in messages {
        return false;
      }
      var receivedAt := clock(0);
      var expiresAt := clock(1) + RETENTION_MS;
      messages := messages[key := Message(c.installation, c.id, number, resource, receivedAt, expiresAt, false)];
      order := order + [key];
      if c.installation !in messagesByInstallation {
        messagesByInstallation := messagesByInstallation[c.installation := []];
      }
      messagesByInstallation :=
        messagesByInstallation[c.installation := messagesByInstallation[c.installation] + [key]];
      return true;
    }

    /** The push callback: authenticate, then append. */
    method Push(channel: string, token: string, number: string, resource: Resource, clock: Clock)
      returns (r: Result<bool, Refusal>)
      requires Sound(View())
      modifies this
      ensures View() == Next(env, old(View()), DoPush(channel, token, number, resource, clock)) && Sound(View())
      ensures PushAnswered(env, old(View()), channel, token, number, resource, clock, View(), r)
    {
      PushExactly(env, View(), channel, token, number, resource, clock);
      StepSound(env, View(), DoPush(channel, token, number, resource, clock));
      if !Digits(number) {
        return Failure(BadRequest);
      }
      var c := AuthenticateChannel(env, Store(installations, channels, messages, order, messagesByInstallation),
                                   channel, token, clock(0));
      if c.Failure? {
        return Failure(c.error);
      }
      var created := AppendMessage(c.value, number, resource, Later(clock, 1));
      return Success(created);
    }

    /** The unread messages among `keys`, in their order. */
    method Collect(keys: seq<string>, clock: Clock, first: nat) returns (out: seq<Message>)
      ensures out == Fresh(messages, keys, clock, first)
    {
      out := [];
      var t: nat := first;
      assert keys[0..] == keys;
      for i := 0 to |keys|
        invariant Fresh(messages, keys, clock, first) == out + Fresh(messages, keys[i..], clock, t)
      {
        assert keys[i..][1..] == keys[i + 1..];
        if keys[i] in messages && !messages[keys[i]].ack {
          if clock(t) < messages[keys[i]].expiresAt {
            out := out + [messages[keys[i]]];
          }
          t := t + 1;
        }
      }
    }

    method ListPending(installation: string, clock: Clock) returns (out: seq<Message>)
      requires Sound(View())
      modifies this
      ensures out == Pending(env, old(View()), installation, clock) && InOrder(env, out)
      ensures View() == Next(env, old(View()), DoList(installation, clock)) && Sound(View())
    {
      ghost var s := View();
      var pruneReadings := |order|;
      PruneExpired(clock);
      var keys := if installation in messagesByInstallation then messagesByInstallation[installation] else [];
      var pending := Collect(keys, clock, pruneReadings);
      ListingSpec(env, s, View(), installation, clock, pending);
      ListedInOrder(env, s, installation, clock);
      out := Sort(pending, ByArrival(env));
    }

    /** One pass over a batch: what it changes, and how many it newly acknowledged. */
    method MarkAcked(installation: string, acks: seq<Ack>, clock: Clock, first: nat) returns (count: nat)
      modifies this`messages
      ensures (messages, count) == Acked(old(messages), installation, acks, clock, first)
    {
      count := 0;
      var t: nat := first;
      assert acks[0..] == acks;
      for i := 0 to |acks|
        invariant Acked(old(messages), installation, acks, clock, first)
          == (Acked(messages, installation, acks[i..], clock, t).0,
              count + Acked(messages, installation, acks[i..], clock, t).1)
      {
        assert acks[i..][1..] == acks[i + 1..];
        var key := Key(acks[i].0, acks[i].1);
        if key in messages && messages[key].installation == installation && !messages[key].ack {
          if clock(t) < messages[key].expiresAt {
            messages := messages[key := messages[key].(ack := true)];
            count := count + 1;
          }
          t := t + 1;
        }
      }
    }

    method AckMessages(installation: string, acks: seq<Ack>, clock: Clock) returns (count: nat)
      requires Sound(View())
      modifies this
      ensures (View(), count) == Relay.AckMessages(old(View()), installation, acks, clock) && Sound(View())
    {
      StepSound(env, View(), DoAck(installation, acks, clock));
      var pruneReadings := |order|;
      PruneExpired(clock);
      count := MarkAcked(installation, acks, clock, pruneReadings);
    }
  }

  // ---- Deleting expired messages one by one -------------------------------------------------------------

  /** The expired keys among the first `n` of the walk. */
  function ExpiredUpTo(s: Store, clock: Clock, n: nat): set<string>
    requires n <= |s.order|
  {
    set i | 0 <= i < n && s.order[i] in s.messages && s.messages[s.order[i]].expiresAt <= clock(i) :: s.order[i]
  }

  lemma ExpiredNext(s: Store, clock: Clock, n: nat)
    requires n < |s.order| && s.order[n] in s.messages
    ensures ExpiredUpTo(s, clock, n + 1)
         == ExpiredUpTo(s, clock, n) + if s.messages[s.order[n]].expiresAt <= clock(n) then {s.order[n]} else {}
  {
  }

  /** The store after the first `n` messages of the walk. */
  ghost function Walked(s: Store, clock: Clock, n: nat): Store
    requires n <= |s.order|
  {
    Drop(s, ExpiredUpTo(s, clock, n))
  }

  lemma WalkStarts(s: Store, clock: Clock)
    ensures Walked(s, clock, 0) == s
  {
    assert ExpiredUpTo(s, clock, 0) == {};
    DropNothing(s);
  }

  lemma WalkEnds(s: Store, clock: Clock)
    ensures Walked(s, clock, |s.order|) == Pruned(s, clock)
  {
    assert ExpiredUpTo(s, clock, |s.order|) == Expired(s, clock);
  }

  /** The next message is still stored, and deleting it or not is the next step of the walk. */
  lemma WalkStep(s: Store, clock: Clock, n: nat)
    requires Sound(s) && n < |s.order|
    ensures var s' := Walked(s, clock, n); var key := s.order[n];
      && key in s'.messages
      && Walked(s, clock, n + 1) == if s'.messages[key].expiresAt <= clock(n) then Drop(s', {key}) else s'
  {
    assert s.order[n] in s.order;
    NotYetExpired(s, clock, n);
    ExpiredNext(s, clock, n);
    DropTwice(s, ExpiredUpTo(s, clock, n), {s.order[n]});
    assert ExpiredUpTo(s, clock, n) + {} == ExpiredUpTo(s, clock, n);
  }

  lemma NotYetExpired(s: Store, clock: Clock, n: nat)
    requires MessagesSound(s) && n < |s.order|
    ensures s.order[n] !in ExpiredUpTo(s, clock, n)
  {
  }

  lemma {:induction false} WithoutAbsent(keys: seq<string>, key: string)
    requires key !in keys
    ensures Without(keys, {key}) == keys
  {
    if keys != [] { WithoutAbsent(keys[1..], key); }
  }

  /** Dropping one message only touches its own installation's set. */
  lemma DropOne(s: Store, key: string)
    requires Sound(s) && key in s.messages
    ensures var i := s.messages[key].installation;
      && i in s.index
      && Drop(s, {key}) == s.(messages := s.messages - {key}, order := Without(s.order, {key}),
                              index := s.index[i := Without(s.index[i], {key})])
  {
    var i := s.messages[key].installation;
    forall j | j in s.index && j != i ensures Without(s.index[j], {key}) == s.index[j] {
      assert IndexOf(s, j) == OfInstallation(s.order, s.messages, j);
      OfInstallationMembers(s.order, s.messages, j);
      WithoutAbsent(s.index[j], key);
    }
  }

  lemma {:induction false} WithoutTwice(keys: seq<string>, a: set<string>, b: set<string>)
    ensures Without(Without(keys, a), b) == Without(keys, a + b)
  {
    if keys != [] {
      WithoutTwice(keys[1..], a, b);
      WithoutCons(keys[0], Without(keys[1..], a), b);
      assert [] + Without(keys[1..], a) == Without(keys[1..], a);
    }
  }

  lemma DropTwice(s: Store, a: set<string>, b: set<string>)
    ensures Drop(Drop(s, a), b) == Drop(s, a + b)
  {
    WithoutTwice(s.order, a, b);
    forall i | i in s.index ensures Without(Without(s.index[i], a), b) == Without(s.index[i], a + b) {
      WithoutTwice(s.index[i], a, b);
    }
  }
}
