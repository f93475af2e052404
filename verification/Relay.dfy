/** The opaque relay store: installations, their channels, and the wake-ups waiting to be fetched. */
module Relay {
  import opened Prelude
  import opened Sorting

  const RETENTION_MS: int := 7 * 24 * 60 * 60 * 1000

  datatype Installation = Installation(id: string, verifier: string, createdAt: int)

  /** A channel's expiration text: empty, no date, or a date. */
  datatype Expiry = Blank | Garbled(text: string) | At(instant: int)

  datatype Channel = Channel(
    id: string, installation: string, tokenVerifier: string, resourceId: Option<string>,
    expiration: Option<Expiry>, revokedAt: Option<int>, createdAt: int)

  datatype Resource = Resource(id: string, state: string, uri: Option<string>, channelExpiration: Option<string>)

  datatype Message = Message(
    installation: string, channel: string, number: string, resource: Resource,
    receivedAt: int, expiresAt: int, ack: bool)

  /** What the store takes from its platform: the hash, the decoding of hex text, and the order of `Number(text)`. */
  datatype Env = Env(hash: string -> string, unhex: string -> string, lower: string -> string, rank: string -> int)

  /** The clock may move between any two readings of one operation; reading `t` is the `t`-th of the operation. */
  type Clock = nat -> int

  /** `order` is the insertion order of the message map, as `index` holds that of each installation's set. */
  datatype Store = Store(
    installations: map<string, Installation>, channels: map<string, Channel>,
    messages: map<string, Message>, order: seq<string>, index: map<string, seq<string>>)

  const EMPTY := Store(map[], map[], map[], [], map[])

  function Key(channel: string, number: string): string { channel + ":" + number }

  predicate Digits(s: string) {
    s != [] && forall i :: 0 <= i < |s| ==> '0' <= s[i] <= '9'
  }

  predicate SameHex(env: Env, a: string, b: string) { env.unhex(a) == env.unhex(b) }

  // ---- Installations and channels ---------------------------------------------------------------

  /** By the status each is answered with. */
  datatype Refusal = BadRequest | Unauthorized | NotFound | Conflict | Gone

  function CreateInstallation(env: Env, s: Store, id: string, verifier: string, now: int): Result<Store, Refusal> {
    if id in s.installations then
      if SameHex(env, s.installations[id].verifier, verifier) then Success(s) else Failure(Conflict)
    else
      Success(s.(installations := s.installations[id := Installation(id, env.lower(verifier), now)],
                 index := s.index[id := []]))
  }

  function CreateChannel(
    env: Env, s: Store, installation: string, id: string, verifier: string,
    expiration: Option<Expiry>, resourceId: Option<string>, now: int): Result<Store, Refusal>
  {
    if installation !in s.installations then Failure(NotFound)
    else if id in s.channels then
      var c := s.channels[id];
      if c.installation != installation || c.revokedAt.Some? || !SameHex(env, c.tokenVerifier, verifier)
      then Failure(Conflict)
      else Success(s.(channels := s.channels[id :=
        c.(resourceId := if resourceId.Some? then resourceId else c.resourceId,
           expiration := if expiration.Some? then expiration else c.expiration)]))
    else Success(s.(channels := s.channels[id :=
      Channel(id, installation, env.lower(verifier), resourceId, expiration, None, now)]))
  }

  function RevokeChannel(s: Store, installation: string, id: string, now: int): Result<Store, Refusal> {
    if id !in s.channels || s.channels[id].installation != installation then Failure(NotFound)
    else if s.channels[id].revokedAt.Some? then Success(s)
    else Success(s.(channels := s.channels[id := s.channels[id].(revokedAt := Some(now))]))
  }

  function ActiveChannel(s: Store, id: string, now: int): Result<Channel, Refusal> {
    if id !in s.channels || s.channels[id].revokedAt.Some? then Failure(NotFound)
    else
      var c := s.channels[id];
      if c.expiration.Some? && c.expiration.value.At? && now > c.expiration.value.instant then Failure(Gone)
      else Success(c)
  }

  function AuthenticateChannel(env: Env, s: Store, id: string, token: string, now: int): Result<Channel, Refusal> {
    match ActiveChannel(s, id, now)
    case Failure(e) => Failure(e)
    case Success(c) => if SameHex(env, env.hash(token), c.tokenVerifier) then Success(c) else Failure(Unauthorized)
  }

  // ---- Messages ------------------------------------------------------------------------------------

  function IndexOf(s: Store, installation: string): seq<string> {
    if installation in s.index then s.index[installation] else []
  }

  /** A list without the given keys, in order. */
  function Without(keys: seq<string>, gone: set<string>): seq<string> {
    if keys == [] then []
    else (if keys[0] in gone then [] else [keys[0]]) + Without(keys[1..], gone)
  }

  /** The keys whose message has expired by the reading made for it. */
  function Expired(s: Store, clock: Clock): set<string> {
    set i | 0 <= i < |s.order| && s.order[i] in s.messages && s.messages[s.order[i]].expiresAt <= clock(i) :: s.order[i]
  }

  function Drop(s: Store, gone: set<string>): Store {
    s.(messages := s.messages - gone, order := Without(s.order, gone),
       index := map i | i in s.index :: Without(s.index[i], gone))
  }

  function Pruned(s: Store, clock: Clock): Store { Drop(s, Expired(s, clock)) }

  function AppendMessage(s: Store, c: Channel, number: string, resource: Resource, clock: Clock): Store {
    var key := Key(c.id, number);
    if key in s.messages then s
    else
      s.(messages := s.messages[key :=
           Message(c.installation, c.id, number, resource, clock(0), clock(1) + RETENTION_MS, false)],
         order := s.order + [key],
         index := s.index[c.installation := IndexOf(s, c.installation) + [key]])
  }

  function Later(clock: Clock, n: nat): Clock { (t: nat) => clock(t + n) }

  /** The push callback: a digit-only number, an authenticated channel, then the append. */
  function Push(env: Env, s: Store, channel: string, token: string, number: string, resource: Resource, clock: Clock)
    : Result<Store, Refusal>
  {
    if !Digits(number) then Failure(BadRequest)
    else match AuthenticateChannel(env, s, channel, token, clock(0))
      case Failure(e) => Failure(e)
      case Success(c) => Success(AppendMessage(s, c, number, resource, Later(clock, 1)))
  }

  /** The unacknowledged, unexpired messages among `keys`; an acknowledged one costs no reading. */
  function Fresh(messages: map<string, Message>, keys: seq<string>, clock: Clock, t: nat): seq<Message> {
    if keys == [] then []
    else if keys[0] !in messages || messages[keys[0]].ack then Fresh(messages, keys[1..], clock, t)
    else
      (if messages[keys[0]].expiresAt <= clock(t) then [] else [messages[keys[0]]])
      + Fresh(messages, keys[1..], clock, t + 1)
  }

  function ByArrival(env: Env): (Message, Message) -> bool {
    (a: Message, b: Message) =>
      a.receivedAt < b.receivedAt || (a.receivedAt == b.receivedAt && env.rank(a.number) <= env.rank(b.number))
  }

  /** What `listPending` returns; it leaves the store pruned. */
  function Pending(env: Env, s: Store, installation: string, clock: Clock): seq<Message> {
    var pruned := Pruned(s, clock);
    Sort(Fresh(pruned.messages, IndexOf(pruned, installation), clock, |s.order|), ByArrival(env))
  }

  type Ack = (string, string)

  predicate Mine(messages: map<string, Message>, installation: string, key: string) {
    key in messages && messages[key].installation == installation && !messages[key].ack
  }

  /** The messages after a batch of acknowledgements, and how many it newly acknowledged. */
  function Acked(messages: map<string, Message>, installation: string, acks: seq<Ack>, clock: Clock, t: nat)
    : (map<string, Message>, nat)
    decreases |acks|
  {
    if acks == [] then (messages, 0)
    else
      var key := Key(acks[0].0, acks[0].1);
      if !Mine(messages, installation, key) then Acked(messages, installation, acks[1..], clock, t)
      else if messages[key].expiresAt <= clock(t) then Acked(messages, installation, acks[1..], clock, t + 1)
      else
        var (after, count) := Acked(messages[key := messages[key].(ack := true)], installation, acks[1..], clock, t + 1);
        (after, count + 1)
  }

  function AckMessages(s: Store, installation: string, acks: seq<Ack>, clock: Clock): (Store, nat) {
    var pruned := Pruned(s, clock);
    var (messages, count) := Acked(pruned.messages, installation, acks, clock, |s.order|);
    (pruned.(messages := messages), count)
  }

  // ---- Sequences of operations ----------------------------------------------------------------------

  datatype Step =
    | DoCreateInstallation(id: string, verifier: string, now: int)
    | DoCreateChannel(
        installation: string, id: string, verifier: string, expiration: Option<Expiry>, resourceId: Option<string>, now: int)
    | DoRevoke(installation: string, id: string, now: int)
    | DoPush(channel: string, token: string, number: string, resource: Resource, clock: Clock)
    | DoPrune(clock: Clock)
    | DoList(installation: string, clock: Clock)
    | DoAck(installation: string, acks: seq<Ack>, clock: Clock)

  function Kept(s: Store, r: Result<Store, Refusal>): Store {
    match r case Success(s') => s' case Failure(_) => s
  }

  function Next(env: Env, s: Store, step: Step): Store {
    match step
    case DoCreateInstallation(id, verifier, now) => Kept(s, CreateInstallation(env, s, id, verifier, now))
    case DoCreateChannel(installation, id, verifier, expiration, resourceId, now) =>
      Kept(s, CreateChannel(env, s, installation, id, verifier, expiration, resourceId, now))
    case DoRevoke(installation, id, now) => Kept(s, RevokeChannel(s, installation, id, now))
    case DoPush(channel, token, number, resource, clock) =>
      Kept(s, Push(env, s, channel, token, number, resource, clock))
    case DoPrune(clock) => Pruned(s, clock)
    case DoList(_, clock) => Pruned(s, clock)
    case DoAck(installation, acks, clock) => AckMessages(s, installation, acks, clock).0
  }

  function Run(env: Env, s: Store, steps: seq<Step>): Store
    decreases |steps|
  {
    if steps == [] then s else Run(env, Next(env, s, steps[0]), steps[1..])
  }
}
