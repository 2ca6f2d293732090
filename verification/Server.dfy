/** The lobby server of `Server.cpp`: every handler does what the step machine says. */
module LobbyServer {
  import opened Types
  import opened Packet
  import opened Protocol
  import opened Messages
  import opened Names
  import opened Chat
  import opened Angles
  import opened ClientView
  import opened ServerModel
  import opened Lobby
  import opened LobbySteps
  import M = ServerModel

  datatype Channel = Reliable | Unreliable

  lemma DeliverTwice(s: ServerState, p: Peer, ms: seq<Msg>, ns: seq<Msg>)
    ensures Deliver(Deliver(s, p, ms), p, ns) == Deliver(s, p, ms + ns)
  {
    if Open(s, p) {
      assert s.logs[p] + ms + ns == s.logs[p] + (ms + ns);
    }
  }

  /** `m` appended to the log of everyone in `done` who hears it. */
  ghost function Spread(s: ServerState, logs: map<Peer, seq<Msg>>, m: Msg, except: Option<Peer>,
                        done: set<Peer>): map<Peer, seq<Msg>>
  {
    map q | q in logs :: if q in done && Hears(s, q, except) then logs[q] + [m] else logs[q]
  }

  /** One packet handed to ENet. */
  ghost function Sent(s: ServerState, p: Peer, channel: Channel, m: Msg): ServerState {
    if channel.Reliable? then Deliver(s, p, [m])
    else if Open(s, p) then s.(updates := s.updates[p := s.updates[p] + [m]])
    else s
  }

  /** A broadcast that has got to the peers in `done`. */
  ghost function Partly(s: ServerState, channel: Channel, m: Msg, except: Option<Peer>, done: set<Peer>): ServerState {
    if channel.Reliable? then s.(logs := Spread(s, s.logs, m, except, done))
    else s.(updates := Spread(s, s.updates, m, except, done))
  }

  ghost function Whole(s: ServerState, channel: Channel, m: Msg, except: Option<Peer>): ServerState {
    if channel.Reliable? then M.Broadcast(s, m, except) else BroadcastUpdate(s, m, except)
  }

  lemma PartlyEnds(s: ServerState, channel: Channel, m: Msg, except: Option<Peer>)
    ensures Partly(s, channel, m, except, {}) == s
    ensures Partly(s, channel, m, except, s.players.Keys) == Whole(s, channel, m, except)
  {
    hide Hears;
    SpreadEnds(s, s.logs, m, except);
    SpreadEnds(s, s.updates, m, except);
  }

  lemma SpreadEnds(s: ServerState, logs: map<Peer, seq<Msg>>, m: Msg, except: Option<Peer>)
    ensures Spread(s, logs, m, except, {}) == logs
    ensures Spread(s, logs, m, except, s.players.Keys)
         == map q | q in logs :: if Hears(s, q, except) then logs[q] + [m] else logs[q]
  {
    hide Open;
    forall q | q in logs
      ensures q in s.players.Keys && Hears(s, q, except) <==> Hears(s, q, except)
    {
    }
  }

  lemma SpreadStep(s: ServerState, logs: map<Peer, seq<Msg>>, m: Msg, except: Option<Peer>, done: set<Peer>, p: Peer)
    requires p !in done
    ensures var before := Spread(s, logs, m, except, done);
            Spread(s, logs, m, except, done + {p}) ==
              if Hears(s, p, except) && p in logs then before[p := before[p] + [m]] else before
  {
    hide Hears;
  }

  lemma PartlyStep(s: ServerState, channel: Channel, m: Msg, except: Option<Peer>, done: set<Peer>, p: Peer)
    requires p !in done && p in s.players
    ensures Partly(s, channel, m, except, done + {p})
         == if s.players[p].handshaked && Some(p) != except
           then Sent(Partly(s, channel, m, except, done), p, channel, m)
            else Partly(s, channel, m, except, done)
  {
    hide Spread;
    SpreadStep(s, if channel.Reliable? then s.logs else s.updates, m, except, done, p);
    SpreadKeys(s, if channel.Reliable? then s.logs else s.updates, m, except, done);
  }

  lemma SpreadKeys(s: ServerState, logs: map<Peer, seq<Msg>>, m: Msg, except: Option<Peer>, done: set<Peer>)
    ensures Spread(s, logs, m, except, done).Keys == logs.Keys
  {}

  class Server {
    const env: Env
    var players: map<Peer, Player>
    var bots: seq<Bot>
    var nextId: u32
    var lastBotUpdate: int
    ghost var logs: map<Peer, seq<Msg>>
    ghost var updates: map<Peer, seq<Msg>>
    ghost var closing: set<Peer>

    ghost function State(): ServerState
      reads this
    {
      ServerState(players, bots, nextId, lastBotUpdate, logs, updates, closing)
    }

    constructor (env: Env)
      ensures State() == INITIAL && this.env == env
    {
      this.env := env;
      players, bots, nextId, lastBotUpdate := map[], [], 1, 0;
      logs, updates, closing := map[], map[], {};
    }

    // ---- sending --------------------------------------------------------------------

    /** ENet takes the packet unless the connection is closing. */
    method Send(p: Peer, channel: Channel, bytes: Bytes, ghost m: Msg)
      requires bytes == EncodeBytes(m)
      modifies this`logs, this`updates
      ensures State() == Sent(old(State()), p, channel, m)
    {
      if Open(State(), p) {
        if channel.Reliable? {
          logs := logs[p := logs[p] + [m]];
        } else {
          updates := updates[p := updates[p] + [m]];
        }
      }
    }

    /** Walks the hash map in whatever order; nobody's log depends on it. */
    method Broadcast(channel: Channel, bytes: Bytes, except: Option<Peer>, ghost m: Msg)
      requires bytes == EncodeBytes(m)
      modifies this`logs, this`updates
      ensures State() == Whole(old(State()), channel, m, except)
    {
      hide Partly, Sent, Whole;
      ghost var s := State();
      PartlyEnds(s, channel, m, except);
      var todo := players.Keys;
      ghost var done := {};
      while todo != {}
        invariant todo !! done && todo + done == players.Keys && players == s.players
        invariant State() == Partly(s, channel, m, except, done)
      {
        var p :| p in todo;
        PartlyStep(s, channel, m, except, done, p);
        todo := todo - {p};
        done := done + {p};
        if players[p].handshaked && Some(p) != except {
          Send(p, channel, bytes, m);
        }
      }
      assert done == players.Keys;
    }

    method ServerChat(text: Bytes)
      modifies this`logs, this`updates
      ensures State() == M.ServerChat(old(State()), text)
    {
      var bytes := Encode(ChatBroadcast(SERVER_ID, text));
      Broadcast(Reliable, bytes, None, ChatBroadcast(SERVER_ID, text));
    }

    method Kick(p: Peer, reason: Bytes)
      modifies this`logs, this`updates, this`closing
      ensures State() == M.Kick(old(State()), p, reason)
    {
      var bytes := Encode(Reject(reason));
      Send(p, Reliable, bytes, Reject(reason));
      closing := closing + {p};
    }

    // ---- connection lifecycle -------------------------------------------------------

    method HandleConnect(p: Peer)
      modifies this
      ensures State() == Connect(old(State()), p)
    {
      if p !in players {
        players := players[p := NEW_PLAYER];
      }
      logs, updates := logs[p := []], updates[p := []];
    }

    method HandleDisconnect(p: Peer)
      modifies this
      ensures State() == Disconnect(old(State()), p)
    {
      if p !in players {
        return;
      }
      var player := players[p];
      players := players - {p};
      closing := closing - {p};
      if player.handshaked {
        var bytes := Encode(Left(player.id));
        Broadcast(Reliable, bytes, None, Left(player.id));
        ServerChat(player.name + Ascii(" left the game"));
      }
    }

    method HandlePacket(p: Peer, bytes: Bytes, now: int) returns (ghost order: seq<Peer>)
      modifies this
      ensures IsOrder(order, old(players).Keys)
      ensures State() == M.HandlePacket(env, old(State()), p, bytes, now, order)
    {
      order := OrderExists(players.Keys);
      if p !in players {
        return;
      }
      var reader := new Reader(bytes);
      var ok, id := ReadHeader(reader);
      if !ok {
        return;
      }
      if !players[p].handshaked && id != HELLO {
        Kick(p, Ascii("Expected handshake"));
        return;
      }
      if id == HELLO {
        order := HandleHello(p, reader, now);
      } else if id == STATE {
        HandlePlayerState(p, reader, now);
      } else if id == CHAT {
        HandleChat(p, reader, now);
      } else if id == SET_NAME {
        HandleSetName(p, reader);
      }
    }

    // ---- message handlers -----------------------------------------------------------

    method HandleHello(p: Peer, reader: Reader, now: int) returns (ghost order: seq<Peer>)
      requires p in players && reader.Valid()
      modifies this, reader
      ensures IsOrder(order, old(players).Keys)
      ensures State() == M.HandleHello(env, old(State()), p, ParseBody(HELLO, old(reader.View())).0, now, order)
    {
      hide ParseBody;
      order := OrderExists(players.Keys);
      var hello := ReadBody(HELLO, reader);
      if hello.None? {
        Kick(p, Ascii("Malformed hello"));
        return;
      }
      var version := hello.value.protocolVersion;
      if version != PROTOCOL_VERSION {
        Kick(p, MismatchText(version));
        return;
      }
      if players[p].handshaked {
        return;
      }
      var name := SanitizeName(hello.value.name);
      order := Admit(p, name, hello.value.gameVersion, now);
    }

    /** The successful end of `HandleHello`. */
    method Admit(p: Peer, name: Bytes, version: u32, now: int) returns (ghost order: seq<Peer>)
      requires p in players && !players[p].handshaked
      modifies this
      ensures IsOrder(order, old(players).Keys)
      ensures State() == Join(env, old(State()), p, name, version, now, order)
    {
      hide Deliver, M.Broadcast, PlayerListing, BotListing, EncodeBytes;
      ghost var s := State();
      var id := nextId;
      nextId := (nextId + 1) % 0x1_0000_0000;
      players := players[p := players[p].(id := id, name := name, gameVersion := version, handshaked := true)];
      ghost var s1 := State();
      var stamp := NowMs(env, now);

      var welcome := WelcomeFor(env, id);
      var bytes := Encode(welcome);
      Send(p, Reliable, bytes, welcome);
      order := SendPlayers(p, stamp, s1, [welcome], s.players);
      SendBots(p, stamp, s1, [welcome] + PlayerListing(s.players, order, stamp));

      bytes := Encode(Joined(id, name));
      Broadcast(Reliable, bytes, Some(p), Joined(id, name));
      ServerChat(name + Ascii(" joined the game"));
    }

    /** Tells `p` about one player or bot that is already here. */
    method SendIntroduction(p: Peer, id: PlayerId, name: Bytes, hasState: bool, state: WireState, stamp: u32)
      modifies this`logs, this`updates
      ensures State() == Deliver(old(State()), p, Introduce(id, name, hasState, state, stamp))
    {
      var bytes := Encode(Joined(id, name));
      Send(p, Reliable, bytes, Joined(id, name));
      if hasState {
        bytes := Encode(StateUpdate(id, stamp, state));
        Send(p, Reliable, bytes, StateUpdate(id, stamp, state));
      }
      DeliverTwice(old(State()), p, [Joined(id, name)], [StateUpdate(id, stamp, state)]);
      assert [Joined(id, name)] + [] == [Joined(id, name)];
    }

    method SendPlayers(p: Peer, stamp: u32, ghost s1: ServerState, ghost sent: seq<Msg>,
                       ghost before: map<Peer, Player>)
      returns (ghost order: seq<Peer>)
      requires State() == Deliver(s1, p, sent)
      requires p in before && p in players && !before[p].handshaked && players == before[p := players[p]]
      modifies this`logs, this`updates
      ensures IsOrder(order, before.Keys)
      ensures State() == Deliver(s1, p, sent + PlayerListing(before, order, stamp))
    {
      order := [];
      assert sent + [] == sent;
      var todo := players.Keys;
      while todo != {}
        invariant todo <= players.Keys && players == old(players)
        invariant IsOrder(order, players.Keys - todo)
        invariant State() == Deliver(s1, p, sent + PlayerListing(before, order, stamp))
      {
        ghost var told := PlayerListing(before, order, stamp);
        var q :| q in todo;
        todo := todo - {q};
        assert (order + [q])[..|order|] == order;
        order := order + [q];
        var other := players[q];
        if other.handshaked && q != p {
          SendIntroduction(p, other.id, other.name, other.hasState, other.state, stamp);
          ghost var more := Introduce(other.id, other.name, other.hasState, other.state, stamp);
          DeliverTwice(s1, p, sent + told, more);
          assert sent + told + more == sent + (told + more);
        } else {
          assert told + [] == told;
        }
      }
    }

    method SendBots(p: Peer, stamp: u32, ghost s1: ServerState, ghost sent: seq<Msg>)
      requires State() == Deliver(s1, p, sent)
      modifies this`logs, this`updates
      ensures State() == Deliver(s1, p, sent + BotListing(bots, stamp))
    {
      assert sent + [] == sent;
      for i := 0 to |bots|
        invariant bots == old(bots)
        invariant State() == Deliver(s1, p, sent + BotListing(bots[..i], stamp))
      {
        var bot := bots[i];
        SendIntroduction(p, bot.id, bot.name, bot.hasState, bot.state, stamp);
        ghost var told := BotListing(bots[..i], stamp);
        ghost var more := Introduce(bot.id, bot.name, bot.hasState, bot.state, stamp);
        DeliverTwice(s1, p, sent + told, more);
        assert sent + told + more == sent + (told + more);
        assert bots[..i + 1][..i] == bots[..i];
      }
      assert bots[..|bots|] == bots;
    }

    method HandlePlayerState(p: Peer, reader: Reader, now: int)
      requires p in players && reader.Valid()
      modifies this, reader
      ensures State() == M.HandlePlayerState(env, old(State()), p, ParseBody(STATE, old(reader.View())).0, now)
    {
      hide ParseBody, Plausible;
      var msg := ReadBody(STATE, reader);
      if msg.None? || !Plausible(msg.value.state) {
        return;
      }
      var state := msg.value.state;
      players := players[p := players[p].(state := state, hasState := true)];
      var update := StateUpdate(players[p].id, NowMs(env, now), state);
      var bytes := Encode(update);
      Broadcast(Unreliable, bytes, Some(p), update);
    }

    method HandleChat(p: Peer, reader: Reader, now: int)
      requires p in players && reader.Valid()
      modifies this, reader
      ensures State() == M.HandleChat(old(State()), p, ParseBody(CHAT, old(reader.View())).0, now)
    {
      hide ParseBody, Deliver, M.Broadcast, StripControl, CutChat, EncodeBytes;
      var msg := ReadBody(CHAT, reader);
      assert players == players[p := players[p]];
      if msg.None? || msg.value.text == [] {
        return;
      }
      var limiter := players[p].limiter;
      if now - limiter.start >= CHAT_WINDOW {
        limiter := Limiter(now, 0);
      }
      limiter := limiter.(count := (limiter.count + 1) % 0x1_0000_0000);
      players := players[p := players[p].(limiter := limiter)];
      if limiter.count > CHAT_BURST {
        if limiter.count == CHAT_BURST + 1 {
          var bytes := Encode(ChatBroadcast(SERVER_ID, SLOW_DOWN));
          Send(p, Reliable, bytes, ChatBroadcast(SERVER_ID, SLOW_DOWN));
        }
        return;
      }
      var text := CleanChat(msg.value.text);
      if text == [] {
        return;
      }
      var bytes := Encode(ChatBroadcast(players[p].id, text));
      Broadcast(Reliable, bytes, None, ChatBroadcast(players[p].id, text));
    }

    method HandleSetName(p: Peer, reader: Reader)
      requires p in players && reader.Valid()
      modifies this, reader
      ensures State() == M.HandleSetName(old(State()), p, ParseBody(SET_NAME, old(reader.View())).0)
    {
      hide ParseBody;
      var msg := ReadBody(SET_NAME, reader);
      if msg.None? {
        return;
      }
      var name := SanitizeName(msg.value.name);
      if name == players[p].name {
        return;
      }
      players := players[p := players[p].(name := name)];
      var bytes := Encode(Renamed(players[p].id, name));
      Broadcast(Reliable, bytes, None, Renamed(players[p].id, name));
    }

    // ---- looking players up ---------------------------------------------------------

    method FindPlayer(id: PlayerId) returns (r: Option<Peer>)
      requires DistinctIds(players)
      ensures r == PlayerWithId(players, id)
    {
      var todo := players.Keys;
      while todo != {}
        invariant todo <= players.Keys
        invariant forall p | p in players && p !in todo :: !HasId(players, p, id)
      {
        var p :| p in todo;
        todo := todo - {p};
        if players[p].handshaked && players[p].id == id {
          assert HasId(players, p, id);
          return Some(p);
        }
      }
      return None;
    }

    method FindFirstWithState() returns (best: Option<Peer>)
      requires DistinctIds(players)
      ensures best == FirstPlayerWithState(players)
    {
      best := None;
      var todo := players.Keys;
      while todo != {}
        invariant todo <= players.Keys
        invariant best.None? ==> forall q | q in players && q !in todo :: !HasState(players, q)
        invariant best.Some? ==> HasState(players, best.value) && best.value !in todo
        invariant best.Some? ==>
                    forall q | q in players && q !in todo && HasState(players, q) ::
                      players[best.value].id <= players[q].id
      {
        var p :| p in todo;
        todo := todo - {p};
        if players[p].handshaked && players[p].hasState && (best.None? || players[p].id < players[best.value].id) {
          best := Some(p);
        }
      }
      if best.Some? {
        assert IsFirst(players, best.value);
      }
    }

    // ---- bots -----------------------------------------------------------------------

    method AddBot(mode: Mode, raw: Bytes) returns (id: PlayerId)
      modifies this
      ensures id == old(nextId) && State() == M.AddBot(old(State()), mode, raw)
    {
      hide M.Broadcast, EncodeBytes, Sanitized, Decimal, Ascii;
      id := nextId;
      nextId := (nextId + 1) % 0x1_0000_0000;
      var name := SanitizeName(if raw == [] then Ascii("Bot") + Decimal(id) else raw);
      bots := bots + [Bot(id, name, mode, INVALID_PLAYER_ID, false, ZERO_STATE, 0.0)];
      var bytes := Encode(Joined(id, name));
      Broadcast(Reliable, bytes, None, Joined(id, name));
      ServerChat(name + Ascii(" joined the game"));
    }

    method RemoveBot(id: PlayerId) returns (found: bool)
      modifies this
      ensures State() == M.RemoveBot(old(State()), id)
      ensures found <==> FindBot(old(bots), id) < |old(bots)|
    {
      var i := 0;
      while i < |bots| && bots[i].id != id
        invariant i <= |bots| && forall j | 0 <= j < i :: bots[j].id != id
      {
        i := i + 1;
      }
      assert i == FindBot(bots, id);
      if i == |bots| {
        return false;
      }
      var bytes := Encode(Left(bots[i].id));
      Broadcast(Reliable, bytes, None, Left(bots[i].id));
      ServerChat(bots[i].name + Ascii(" left the game"));
      bots := bots[..i] + bots[i + 1..];
      return true;
    }

    method RemoveAllBots()
      modifies this
      ensures State() == M.RemoveAllBots(old(State()))
    {
      while bots != []
        invariant M.RemoveAllBots(State()) == M.RemoveAllBots(old(State()))
        decreases |bots|
      {
        var _ := RemoveBot(bots[|bots| - 1].id);
      }
    }

    method UpdateBots(now: int)
      requires DistinctIds(players)
      modifies this
      ensures State() == M.UpdateBots(env, old(State()), now)
    {
      hide PlayerWithId, FirstPlayerWithState, DriveBot, DriveBots, BroadcastUpdate, EncodeBytes;
      if bots == [] || now - lastBotUpdate < BOT_UPDATE_INTERVAL {
        return;
      }
      var dt := (now - lastBotUpdate) as real / 1_000_000_000.0;
      if dt > 0.25 {
        dt := 0.05;
      }
      lastBotUpdate := now;
      var stamp := NowMs(env, now);
      ghost var s := State();
      NoneDriven(env, s, dt, stamp);
      for i := 0 to |bots|
        invariant |bots| == |s.bots| && players == s.players
        invariant forall j | i <= j < |bots| :: bots[j] == s.bots[j]
        invariant State() == DriveBots(env, s, i, dt, stamp)
      {
        OneMoreDriven(env, s, i, dt, stamp);
        UpdateBot(i, dt, stamp);
      }
    }

    /** One bot of the pass: re-attached if need be, driven, and its state relayed. */
    method UpdateBot(i: nat, dt: real, stamp: u32)
      requires i < |bots| && DistinctIds(players)
      modifies this`bots, this`logs, this`updates
      ensures bots == old(bots)[i := DriveBot(env, players, old(bots)[i], Target(players, old(bots)[i]), dt)]
      ensures var bot := DriveBot(env, players, old(bots)[i], Target(players, old(bots)[i]), dt);
              var after := old(State()).(bots := old(bots)[i := bot]);
              State() ==
                if bot.hasState then BroadcastUpdate(after, StateUpdate(bot.id, stamp, bot.state), None) else after
    {
      hide PlayerWithId, FirstPlayerWithState, DriveBot, BroadcastUpdate, EncodeBytes;
      var target := FindPlayer(bots[i].follow);
      if target.None? || !players[target.value].hasState {
        target := FindFirstWithState();
      }
      assert target == Target(players, bots[i]);
      Drive(i, target, dt);
      if bots[i].hasState {
        var update := StateUpdate(bots[i].id, stamp, bots[i].state);
        var bytes := Encode(update);
        Broadcast(Unreliable, bytes, None, update);
      }
    }

    /** Attaches bot `i` to its target and derives its state. */
    method Drive(i: nat, target: Option<Peer>, dt: real)
      requires i < |bots| && (target.Some? ==> target.value in players)
      modifies this`bots
      ensures bots == old(bots)[i := DriveBot(env, players, old(bots)[i], target, dt)]
    {
      if target.None? {
        bots := bots[i := bots[i].(follow := INVALID_PLAYER_ID, hasState := false)];
        return;
      }
      var player := players[target.value];
      var bot := bots[i].(follow := player.id);
      var s := player.state;
      match bot.mode {
        case Mirror =>
          s := s.(position := s.position.(x := env.floatAdd(s.position.x, BOT_MIRROR_OFFSET)));
        case Orbit =>
          bot := bot.(phase := Fmod(bot.phase + BOT_ORBIT_SPEED * dt));
          s := s.(position := s.position.(x := env.floatAdd(s.position.x, BOT_ORBIT_RADIUS * env.cos(bot.phase))));
          s := s.(position := s.position.(y := env.floatAdd(s.position.y, BOT_ORBIT_RADIUS * env.sin(bot.phase))));
          s := s.(yaw := env.floatOf(Fmod(TWO_PI - bot.phase)));
      }
      bots := bots[i := bot.(state := s, hasState := true)];
    }

    // ---- console --------------------------------------------------------------------

    method KickCommand(id: PlayerId, reason: Bytes)
      requires DistinctIds(players)
      modifies this
      ensures State() == M.KickCommand(old(State()), id, reason)
    {
      var wasBot := RemoveBot(id);
      if wasBot {
        return;
      }
      var p := FindPlayer(id);
      if p.Some? {
        Kick(p.value, reason);
      }
    }

    method Say(text: Bytes)
      modifies this
      ensures State() == M.ServerChat(old(State()), text)
    {
      ServerChat(text);
    }

    // ---- any event ------------------------------------------------------------------

    /** Whatever happens next, the server takes that step of the machine and keeps the invariant.
        `done` is the event with the order in which the hash map was walked. */
    method Handle(e: Event) returns (ghost done: Event)
      requires SaneArithmetic(env) && Inv(State()) && Enabled(State(), e)
      modifies this
      ensures if e.Received? then done.Received? && done == e.(order := done.order) else done == e
      ensures Enabled(old(State()), done) && State() == Step(env, old(State()), done) && Inv(State())
    {
      hide Inv, M.HandlePacket, M.UpdateBots, M.AddBot, M.RemoveBot, M.RemoveAllBots, M.KickCommand, M.ServerChat,
           Connect, Disconnect;
      DistinctInside(State());
      ghost var s := State();
      done := e;
      match e {
        case Connected(p) => HandleConnect(p);
        case Disconnected(p) => HandleDisconnect(p);
        case Received(p, bytes, now, _) =>
          ghost var order := HandlePacket(p, bytes, now);
          done := Received(p, bytes, now, order);
        case BotsTick(now) => UpdateBots(now);
        case BotAdd(mode, name) => var _ := AddBot(mode, name);
        case BotRemove(id) => var _ := RemoveBot(id);
        case BotRemoveAll => RemoveAllBots();
        case Say(text) => Say(text);
        case KickId(id, reason) => KickCommand(id, reason);
        case LinkLost(p) => closing := closing + {p};
      }
      StepKeeps(env, s, done);
    }
  }

  lemma NoneDriven(env: Env, s: ServerState, dt: real, stamp: u32)
    ensures DriveBots(env, s, 0, dt, stamp) == s
  {}

  lemma OneMoreDriven(env: Env, s: ServerState, i: nat, dt: real, stamp: u32)
    requires i < |s.bots|
    ensures var before := DriveBots(env, s, i, dt, stamp);
            var bot := DriveBot(env, s.players, before.bots[i], Target(s.players, before.bots[i]), dt);
            var after := before.(bots := before.bots[i := bot]);
            DriveBots(env, s, i + 1, dt, stamp) ==
              if bot.hasState then BroadcastUpdate(after, StateUpdate(bot.id, stamp, bot.state), None) else after
  {
    hide DriveBot, BroadcastUpdate, Target;
  }

  lemma DistinctInside(s: ServerState)
    requires Inv(s)
    ensures DistinctIds(s.players)
  {}
}
