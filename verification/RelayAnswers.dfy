/** How the relay answers each call, said on the fields of its records. */
module RelayAnswers {
  import opened Prelude
  import opened Sorting
  import opened Relay
  import opened RelayLaws
  import opened RelayPending

  // ---- Installations and channels --------------------------------------------------------------------

  /** Known under the same verifier, or new under this one; another verifier is a conflict. */
  ghost predicate InstallationAnswered(
    env: Env, s: Store, id: string, verifier: string, now: int, s': Store, r: Result<Installation, Refusal>)
  {
    if id !in s.installations then
      var rec := Installation(id, env.lower(verifier), now);
      r == Success(rec) && s' == s.(installations := s.installations[id := rec], index := s.index[id := []])
    else
      s' == s
      && r == if env.unhex(s.installations[id].verifier) == env.unhex(verifier)
              then Success(s.installations[id]) else Failure(Conflict)
  }

  /** A channel is the installation's own and never revoked, and keeps the verifier it was registered with. */
  ghost predicate ChannelAnswered(
    env: Env, s: Store, installation: string, id: string, verifier: string,
    expiration: Option<Expiry>, resourceId: Option<string>, now: int, s': Store, r: Result<Channel, Refusal>)
  {
    if installation !in s.installations then s' == s && r == Failure(NotFound)
    else if id !in s.channels then
      var rec := Channel(id, installation, env.lower(verifier), resourceId, expiration, None, now);
      r == Success(rec) && s' == s.(channels := s.channels[id := rec])
    else
      var was := s.channels[id];
      if was.installation == installation && was.revokedAt == None && env.unhex(was.tokenVerifier) == env.unhex(verifier) then
        && r.Success? && s' == s.(channels := s.channels[id := r.value])
        && r.value.resourceId == (if resourceId == None then was.resourceId else resourceId)
        && r.value.expiration == (if expiration == None then was.expiration else expiration)
        && r.value == was.(resourceId := r.value.resourceId, expiration := r.value.expiration)
      else s' == s && r == Failure(Conflict)
  }

  /** The first revocation stands; nobody but its installation revokes a channel. */
  ghost predicate RevocationAnswered(s: Store, installation: string, id: string, now: int, s': Store, found: bool) {
    && (found <==> id in s.channels && s.channels[id].installation == installation)
    && s' == if found && s.channels[id].revokedAt == None
             then s.(channels := s.channels[id := s.channels[id].(revokedAt := Some(now))]) else s
  }

  // ---- Wake-ups ---------------------------------------------------------------------------------------------

  /** The channel's expiration is a date, and it has passed. */
  predicate Lapsed(c: Channel, now: int) {
    match c.expiration
    case Some(At(instant)) => instant < now
    case _ => false
  }

  predicate Standing(s: Store, channel: string) { channel in s.channels && s.channels[channel].revokedAt == None }

  /** What a push is refused with, if it is refused; the first reason that applies is the answer. */
  ghost predicate PushRefused(env: Env, s: Store, channel: string, token: string, number: string, now: int, refusal: Refusal) {
    var numbered := number != "" && forall i :: 0 <= i < |number| ==> '0' <= number[i] <= '9';
    match refusal
    case BadRequest => !numbered
    case NotFound => numbered && !Standing(s, channel)
    case Gone => numbered && Standing(s, channel) && Lapsed(s.channels[channel], now)
    case Unauthorized =>
      numbered && Standing(s, channel) && !Lapsed(s.channels[channel], now)
      && env.unhex(env.hash(token)) != env.unhex(s.channels[channel].tokenVerifier)
    case Conflict => false
  }

  /** The store with the wake-up, if it is not there yet. */
  ghost predicate Stored(s: Store, channel: string, number: string, resource: Resource, clock: Clock, s': Store, created: bool) {
    var key := channel + ":" + number;
    && (created <==> key !in s.messages)
    && if !created then s' == s
       else
         var owner := if channel in s.channels then s.channels[channel].installation else "";
         s' == s.(messages := s.messages[key := Message(owner, channel, number, resource, clock(1),
                                                        clock(2) + 7 * 24 * 60 * 60 * 1000, false)],
                  order := s.order + [key],
                  index := s.index[owner := (if owner in s.index then s.index[owner] else []) + [key]])
  }

  /**
    A push is taken exactly if the number is digits, the channel is known, not revoked and not lapsed,
    and the token's hash is the channel's verifier; otherwise the store is as it was and the first
    reason that applies is given.
   */
  ghost predicate PushAnswered(
    env: Env, s: Store, channel: string, token: string, number: string, resource: Resource, clock: Clock,
    s': Store, r: Result<bool, Refusal>)
  {
    match r
    case Success(created) =>
      && number != "" && (forall i :: 0 <= i < |number| ==> '0' <= number[i] <= '9')
      && Standing(s, channel) && !Lapsed(s.channels[channel], clock(0))
      && env.unhex(env.hash(token)) == env.unhex(s.channels[channel].tokenVerifier)
      && Stored(s, channel, number, resource, clock, s', created)
    case Failure(refusal) => PushRefused(env, s, channel, token, number, clock(0), refusal) && s' == s
  }

  lemma PushExactly(
    env: Env, s: Store, channel: string, token: string, number: string, resource: Resource, clock: Clock)
    requires Sound(s)
    ensures var r := Push(env, s, channel, token, number, resource, clock);
      PushAnswered(env, s, channel, token, number, resource, clock, Next(env, s, DoPush(channel, token, number, resource, clock)),
                   match r case Failure(e) => Failure(e) case Success(_) => Success(Key(channel, number) !in s.messages))
  {
  }

  /** No two answers fit one push. */
  lemma OneRefusal(env: Env, s: Store, channel: string, token: string, number: string, now: int, a: Refusal, b: Refusal)
    requires PushRefused(env, s, channel, token, number, now, a) && PushRefused(env, s, channel, token, number, now, b)
    ensures a == b
  {
  }

  // ---- Listing --------------------------------------------------------------------------------------------------

  /** Earlier arrivals first, and of one instant the lower number. */
  predicate InOrder(env: Env, messages: seq<Message>) {
    forall i, j :: 0 <= i < j < |messages| ==>
      messages[i].receivedAt < messages[j].receivedAt
      || (messages[i].receivedAt == messages[j].receivedAt && env.rank(messages[i].number) <= env.rank(messages[j].number))
  }

  /** Whatever the clock reads, the listing is in order. */
  lemma ListedInOrder(env: Env, s: Store, installation: string, clock: Clock)
    ensures InOrder(env, Pending(env, s, installation, clock))
  {
    var pruned := Pruned(s, clock);
    ArrivalOrder(env);
    SortOrders(Fresh(pruned.messages, IndexOf(pruned, installation), clock, |s.order|), ByArrival(env));
  }
}
