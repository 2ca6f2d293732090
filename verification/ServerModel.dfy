/** The lobby server as a step machine; the class `Server` refines it method by method. */
module ServerModel {
  import opened Types
  import opened Packet
  import opened Protocol
  import opened Names
  import opened Chat
  import opened Angles
  import opened ClientView

  /** An `ENetPeer*`. ENet reuses the slot, and so the address, after a disconnect. */
  type Peer = nat

  const ZERO_STATE: WireState := PlayerState(Vec3(0, 0, 0), 0, 0, 0, STATE_NONE, 0, 0)

  datatype Player = Player(
    id: PlayerId,
    name: Bytes,
    state: WireState,
    handshaked: bool,
    hasState: bool,
    gameVersion: u32,
    limiter: Limiter)

  const NEW_PLAYER := Player(INVALID_PLAYER_ID, [], ZERO_STATE, false, false, 0, FRESH)

  datatype Mode = Mirror | Orbit

  datatype Bot = Bot(
    id: PlayerId,
    name: Bytes,
    mode: Mode,
    follow: PlayerId,
    hasState: bool,
    state: WireState,
    phase: real)

  /** Configuration, and the float arithmetic of the host: sums, conversions, sine and cosine. */
  datatype Env = Env(
    name: Bytes,
    motd: Bytes,
    tickRate: u32,
    startTime: int,
    floatAdd: (u32, real) -> u32,
    floatOf: real -> u32,
    cos: real -> real,
    sin: real -> real)

  /** Small sums of finite floats stay finite; sine and cosine stay in [-1, 1]. */
  ghost predicate SaneArithmetic(env: Env) {
    && (forall x: u32, d: real {:trigger env.floatAdd(x, d)} ::
          Finite(x) && -BOT_ORBIT_RADIUS <= d <= BOT_ORBIT_RADIUS ==> Finite(env.floatAdd(x, d)))
    && (forall r: real {:trigger env.floatOf(r)} :: 0.0 <= r < TWO_PI ==> Finite(env.floatOf(r)))
    && (forall r: real {:trigger env.cos(r)} :: -1.0 <= env.cos(r) <= 1.0)
    && (forall r: real {:trigger env.sin(r)} :: -1.0 <= env.sin(r) <= 1.0)
  }

  const BOT_UPDATE_INTERVAL := 50_000_000
  const BOT_MIRROR_OFFSET := 200.0
  const BOT_ORBIT_RADIUS := 250.0
  const BOT_ORBIT_SPEED := 0.6

  /** `logs` and `updates` hold what was handed to ENet for each peer's current connection on the
      reliable and on the unreliable channel. ENet drops sends to a `closing` peer. */
  datatype ServerState = ServerState(
    players: map<Peer, Player>,
    bots: seq<Bot>,
    nextId: u32,
    lastBotUpdate: int,
    logs: map<Peer, seq<Msg>>,
    updates: map<Peer, seq<Msg>>,
    closing: set<Peer>)

  const INITIAL := ServerState(map[], [], 1, 0, map[], map[], {})

  // ---- sending ----------------------------------------------------------------------

  predicate Open(s: ServerState, p: Peer) { p in s.logs && p in s.updates && p !in s.closing }

  function Deliver(s: ServerState, p: Peer, ms: seq<Msg>): ServerState {
    if Open(s, p) then s.(logs := s.logs[p := s.logs[p] + ms]) else s
  }

  /** A broadcast leaves out connections without a handshake and one given peer. */
  predicate Hears(s: ServerState, p: Peer, except: Option<Peer>) {
    Open(s, p) && p in s.players && s.players[p].handshaked && Some(p) != except
  }

  function Broadcast(s: ServerState, m: Msg, except: Option<Peer>): ServerState {
    s.(logs := map p | p in s.logs :: if Hears(s, p, except) then s.logs[p] + [m] else s.logs[p])
  }

  function BroadcastUpdate(s: ServerState, m: Msg, except: Option<Peer>): ServerState {
    s.(updates := map p | p in s.updates :: if Hears(s, p, except) then s.updates[p] + [m] else s.updates[p])
  }

  function ServerChat(s: ServerState, text: Bytes): ServerState {
    Broadcast(s, ChatBroadcast(SERVER_ID, text), None)
  }

  function Kick(s: ServerState, p: Peer, reason: Bytes): ServerState {
    var told := Deliver(s, p, [Reject(reason)]);
    told.(closing := told.closing + {p})
  }

  function NowMs(env: Env, now: int): u32 {
    (now - env.startTime) / 1_000_000 % 0x1_0000_0000
  }

  // ---- connections and messages -----------------------------------------------------

  /** `emplace` keeps an existing entry; the logs are those of the new connection. */
  function Connect(s: ServerState, p: Peer): ServerState {
    s.(players := if p in s.players then s.players else s.players[p := NEW_PLAYER],
       logs := s.logs[p := []],
       updates := s.updates[p := []])
  }

  function Disconnect(s: ServerState, p: Peer): ServerState {
    if p !in s.players then s
    else
      var player := s.players[p];
      var gone := s.(players := s.players - {p}, closing := s.closing - {p});
      if !player.handshaked then gone
      else ServerChat(Broadcast(gone, Left(player.id), None), player.name + Ascii(" left the game"))
  }

  /** What a newcomer is told about a player who is already here. */
  function Introduce(id: PlayerId, name: Bytes, hasState: bool, state: WireState, stamp: u32): seq<Msg> {
    [Joined(id, name)] + (if hasState then [StateUpdate(id, stamp, state)] else [])
  }

  function PlayerListing(players: map<Peer, Player>, order: seq<Peer>, stamp: u32): seq<Msg> {
    if order == [] then []
    else
      var q := order[|order| - 1];
      PlayerListing(players, order[..|order| - 1], stamp)
      + (if q in players && players[q].handshaked
         then Introduce(players[q].id, players[q].name, players[q].hasState, players[q].state, stamp) else [])
  }

  function BotListing(bots: seq<Bot>, stamp: u32): seq<Msg> {
    if bots == [] then []
    else
      var b := bots[|bots| - 1];
      BotListing(bots[..|bots| - 1], stamp) + Introduce(b.id, b.name, b.hasState, b.state, stamp)
  }

  function WelcomeFor(env: Env, id: PlayerId): Msg {
    Welcome(id, if env.tickRate < 255 then env.tickRate else 255, env.name, env.motd)
  }

  function Increment(n: u32): u32 { (n + 1) % 0x1_0000_0000 }

  function MismatchText(version: u32): Bytes {
    Ascii("Protocol mismatch (server v") + Decimal(PROTOCOL_VERSION)
    + Ascii(", client v") + Decimal(version) + Ascii(")")
  }

  function HandleHello(env: Env, s: ServerState, p: Peer, hello: Option<Msg>, now: int, order: seq<Peer>): ServerState
    requires p in s.players && (hello.Some? ==> hello.value.Hello?)
  {
    if hello.None? then Kick(s, p, Ascii("Malformed hello"))
    else if hello.value.protocolVersion != PROTOCOL_VERSION then Kick(s, p, MismatchText(hello.value.protocolVersion))
    else if s.players[p].handshaked then s
    else Join(env, s, p, Sanitized(hello.value.name), hello.value.gameVersion, now, order)
  }

  /** The handshake proper; `order` is the order in which the hash map is walked. */
  function Join(env: Env, s: ServerState, p: Peer, name: Bytes, version: u32, now: int, order: seq<Peer>): ServerState
    requires p in s.players
  {
    var id, stamp := s.nextId, NowMs(env, now);
    var joined := s.players[p].(id := id, name := name, gameVersion := version, handshaked := true);
    var s1 := s.(players := s.players[p := joined], nextId := Increment(id));
    var s2 := Deliver(s1, p, Greeting(env, s, id, order, stamp));
    var s3 := Broadcast(s2, Joined(id, name), Some(p));
    ServerChat(s3, name + Ascii(" joined the game"))
  }

  function Greeting(env: Env, s: ServerState, id: PlayerId, order: seq<Peer>, stamp: u32): seq<Msg> {
    [WelcomeFor(env, id)] + PlayerListing(s.players, order, stamp) + BotListing(s.bots, stamp)
  }

  function HandlePlayerState(env: Env, s: ServerState, p: Peer, msg: Option<Msg>, now: int): ServerState
    requires p in s.players && (msg.Some? ==> msg.value.State?)
  {
    if msg.None? || !Plausible(msg.value.state) then s
    else
      var player := s.players[p].(state := msg.value.state, hasState := true);
      BroadcastUpdate(s.(players := s.players[p := player]),
                      StateUpdate(player.id, NowMs(env, now), player.state), Some(p))
  }

  const SLOW_DOWN := Ascii("Slow down.")

  function HandleChat(s: ServerState, p: Peer, msg: Option<Msg>, now: int): ServerState
    requires p in s.players && (msg.Some? ==> msg.value.Chat?)
  {
    if msg.None? then s
    else
      var (limiter, outcome) := ChatStep(s.players[p].limiter, now, msg.value.text);
      var s1 := s.(players := s.players[p := s.players[p].(limiter := limiter)]);
      match outcome
      case Warned => Deliver(s1, p, [ChatBroadcast(SERVER_ID, SLOW_DOWN)])
      case Relayed(text) => Broadcast(s1, ChatBroadcast(s.players[p].id, text), None)
      case _ => s1
  }

  function HandleSetName(s: ServerState, p: Peer, msg: Option<Msg>): ServerState
    requires p in s.players && (msg.Some? ==> msg.value.SetName?)
  {
    if msg.None? then s
    else
      var name := Sanitized(msg.value.name);
      if name == s.players[p].name then s
      else Broadcast(s.(players := s.players[p := s.players[p].(name := name)]), Renamed(s.players[p].id, name), None)
  }

  function HandlePacket(env: Env, s: ServerState, p: Peer, bytes: Bytes, now: int, order: seq<Peer>): ServerState {
    var (id, c) := GetU8(Cursor(bytes, 0, true));
    if p !in s.players || !c.ok then s
    else if !s.players[p].handshaked && id != HELLO then Kick(s, p, Ascii("Expected handshake"))
    else if id == HELLO then HandleHello(env, s, p, ParseBody(id, c).0, now, order)
    else if id == STATE then HandlePlayerState(env, s, p, ParseBody(id, c).0, now)
    else if id == CHAT then HandleChat(s, p, ParseBody(id, c).0, now)
    else if id == SET_NAME then HandleSetName(s, p, ParseBody(id, c).0)
    else s
  }

  // ---- bots -------------------------------------------------------------------------

  function BotName(id: PlayerId, name: Bytes): Bytes {
    Sanitized(if name == [] then Ascii("Bot") + Decimal(id) else name)
  }

  function AddBot(s: ServerState, mode: Mode, name: Bytes): ServerState {
    var bot := Bot(s.nextId, BotName(s.nextId, name), mode, INVALID_PLAYER_ID, false, ZERO_STATE, 0.0);
    var s1 := s.(bots := s.bots + [bot], nextId := Increment(s.nextId));
    ServerChat(Broadcast(s1, Joined(bot.id, bot.name), None), bot.name + Ascii(" joined the game"))
  }

  /** `std::find_if` by id; `|bots|` when there is none. */
  function FindBot(bots: seq<Bot>, id: PlayerId): (i: nat)
    ensures i <= |bots| && (i < |bots| ==> bots[i].id == id)
    ensures forall j | 0 <= j < i :: bots[j].id != id
  {
    if bots == [] then 0 else if bots[0].id == id then 0 else 1 + FindBot(bots[1..], id)
  }

  function RemoveBot(s: ServerState, id: PlayerId): ServerState {
    var i := FindBot(s.bots, id);
    if i == |s.bots| then s
    else
      var bot := s.bots[i];
      var told := ServerChat(Broadcast(s, Left(bot.id), None), bot.name + Ascii(" left the game"));
      told.(bots := s.bots[..i] + s.bots[i + 1..])
  }

  /** "bot remove all": from the back until none is left. */
  function RemoveAllBots(s: ServerState): ServerState
    decreases |s.bots|
  {
    if s.bots == [] then s else RemoveAllBots(RemoveBot(s, s.bots[|s.bots| - 1].id))
  }

  predicate HasId(players: map<Peer, Player>, p: Peer, id: PlayerId) {
    p in players && players[p].handshaked && players[p].id == id
  }

  predicate HasState(players: map<Peer, Player>, p: Peer) {
    p in players && players[p].handshaked && players[p].hasState
  }

  ghost predicate DistinctIds(players: map<Peer, Player>) {
    forall p, q | p in players && q in players && players[p].handshaked && players[q].handshaked && p != q ::
      players[p].id != players[q].id
  }

  /** The handshaked player with this id. */
  ghost function PlayerWithId(players: map<Peer, Player>, id: PlayerId): (r: Option<Peer>)
    ensures r.Some? ==> HasId(players, r.value, id)
    ensures r.None? ==> forall p | p in players :: !HasId(players, p, id)
  {
    if exists p :: p in players && HasId(players, p, id)
    then var p :| p in players && HasId(players, p, id); Some(p)
    else None
  }

  ghost predicate IsFirst(players: map<Peer, Player>, p: Peer) {
    HasState(players, p) && forall q | HasState(players, q) :: players[p].id <= players[q].id
  }

  lemma FirstExists(players: map<Peer, Player>, candidates: set<Peer>) returns (p: Peer)
    requires candidates != {} && forall q | q in candidates :: q in players
    ensures p in candidates && forall q | q in candidates :: players[p].id <= players[q].id
  {
    p :| p in candidates;
    if candidates != {p} {
      assert candidates - {p} != {};
      var rest := FirstExists(players, candidates - {p});
      if players[rest].id < players[p].id {
        p := rest;
      }
    }
  }

  /** The player with a state and the smallest id. */
  ghost function FirstPlayerWithState(players: map<Peer, Player>): (r: Option<Peer>)
    ensures r.Some? ==> IsFirst(players, r.value)
    ensures r.None? ==> forall p | p in players :: !HasState(players, p)
  {
    var candidates := set p | p in players && HasState(players, p);
    if candidates == {} then
      assert forall p | p in players && HasState(players, p) :: p in candidates;
      None
    else
      assert exists p :: p in players && IsFirst(players, p) by {
        var p := FirstExists(players, candidates);
        assert IsFirst(players, p);
      }
      var p :| p in players && IsFirst(players, p); Some(p)
  }

  /** Whom a bot derives its state from: its player while that one has a state, else the first. */
  ghost function Target(players: map<Peer, Player>, bot: Bot): Option<Peer> {
    var followed := PlayerWithId(players, bot.follow);
    if followed.Some? && players[followed.value].hasState then followed else FirstPlayerWithState(players)
  }

  function MirrorState(env: Env, s: WireState): WireState {
    s.(position := s.position.(x := env.floatAdd(s.position.x, BOT_MIRROR_OFFSET)))
  }

  function NextPhase(phase: real, dt: real): real { Fmod(phase + BOT_ORBIT_SPEED * dt) }
  function OrbitYaw(phase: real): real { Fmod(TWO_PI - phase) }

  function OrbitState(env: Env, s: WireState, phase: real): WireState {
    s.(position := Vec3(env.floatAdd(s.position.x, BOT_ORBIT_RADIUS * env.cos(phase)),
                        env.floatAdd(s.position.y, BOT_ORBIT_RADIUS * env.sin(phase)),
                        s.position.z),
       yaw := env.floatOf(OrbitYaw(phase)))
  }

  /** One bot of an update pass that attaches it to `target`. */
  function DriveBot(env: Env, players: map<Peer, Player>, bot: Bot, target: Option<Peer>, dt: real): Bot
    requires target.Some? ==> target.value in players
  {
    if target.None? then bot.(follow := INVALID_PLAYER_ID, hasState := false)
    else
      var player := players[target.value];
      match bot.mode
      case Mirror => bot.(follow := player.id, hasState := true, state := MirrorState(env, player.state))
      case Orbit =>
        var phase := NextPhase(bot.phase, dt);
        bot.(follow := player.id, hasState := true, state := OrbitState(env, player.state, phase), phase := phase)
  }

  ghost function DriveBots(env: Env, s: ServerState, n: nat, dt: real, stamp: u32): (r: ServerState)
    requires n <= |s.bots|
    ensures |r.bots| == |s.bots| && r.players == s.players && r.nextId == s.nextId
    ensures r.logs == s.logs && r.closing == s.closing && r.lastBotUpdate == s.lastBotUpdate
  {
    if n == 0 then s
    else
      var before := DriveBots(env, s, n - 1, dt, stamp);
      var bot := DriveBot(env, s.players, before.bots[n - 1], Target(s.players, before.bots[n - 1]), dt);
      var after := before.(bots := before.bots[n - 1 := bot]);
      if bot.hasState then BroadcastUpdate(after, StateUpdate(bot.id, stamp, bot.state), None) else after
  }

  function BotDt(s: ServerState, now: int): real {
    var dt := (now - s.lastBotUpdate) as real / 1_000_000_000.0;
    if dt > 0.25 then 0.05 else dt
  }

  predicate Skipped(s: ServerState, now: int) { s.bots == [] || now - s.lastBotUpdate < BOT_UPDATE_INTERVAL }

  ghost function UpdateBots(env: Env, s: ServerState, now: int): ServerState {
    if Skipped(s, now) then s
    else DriveBots(env, s.(lastBotUpdate := now), |s.bots|, BotDt(s, now), NowMs(env, now))
  }

  // ---- console ----------------------------------------------------------------------

  ghost function KickCommand(s: ServerState, id: PlayerId, reason: Bytes): ServerState {
    if FindBot(s.bots, id) < |s.bots| then RemoveBot(s, id)
    else
      var p := PlayerWithId(s.players, id);
      if p.None? then s else Kick(s, p.value, reason)
  }

  // ---- the machine ------------------------------------------------------------------

  datatype Event =
    | Connected(peer: Peer)
    | Disconnected(peer: Peer)
    | Received(peer: Peer, bytes: Bytes, now: int, order: seq<Peer>)
    | BotsTick(now: int)
    | BotAdd(mode: Mode, name: Bytes)
    | BotRemove(id: PlayerId)
    | BotRemoveAll
    | Say(text: Bytes)
    | KickId(id: PlayerId, reason: Bytes)
    | LinkLost(peer: Peer)   // ENet gave up on a peer; its disconnect event is still to come

  ghost function Step(env: Env, s: ServerState, e: Event): ServerState {
    match e
    case Connected(p) => Connect(s, p)
    case Disconnected(p) => Disconnect(s, p)
    case Received(p, bytes, now, order) => HandlePacket(env, s, p, bytes, now, order)
    case BotsTick(now) => UpdateBots(env, s, now)
    case BotAdd(mode, name) => AddBot(s, mode, name)
    case BotRemove(id) => RemoveBot(s, id)
    case BotRemoveAll => RemoveAllBots(s)
    case Say(text) => ServerChat(s, text)
    case KickId(id, reason) => KickCommand(s, id, reason)
    case LinkLost(p) => s.(closing := s.closing + {p})
  }

  /** What the environment guarantees: ENet reports a disconnect before it reuses a slot, hash maps
      are walked once per entry, the clock does not run backwards. The last line is the counter bound:
      ids are handed out only while fewer than 2^32 - 2 are. */
  ghost predicate Enabled(s: ServerState, e: Event) {
    && (e.Connected? ==> e.peer !in s.players)
    && (e.Received? ==> IsOrder(e.order, s.players.Keys))
    && (e.BotsTick? ==> e.now >= s.lastBotUpdate)
    && (e.LinkLost? ==> e.peer in s.players)
    && s.nextId < INVALID_PLAYER_ID
  }

  ghost function Run(env: Env, events: seq<Event>): ServerState {
    if events == [] then INITIAL else Step(env, Run(env, events[..|events| - 1]), events[|events| - 1])
  }

  ghost predicate EnabledRun(env: Env, events: seq<Event>) {
    events == [] ||
    (EnabledRun(env, events[..|events| - 1]) && Enabled(Run(env, events[..|events| - 1]), events[|events| - 1]))
  }
}
