/** Where the states in the server's logs come from, and under which stamp they go out. */
module LobbyStates {
  import opened Types
  import opened Packet
  import opened Protocol
  import opened Chat
  import opened Names
  import opened ClientView
  import opened ServerModel
  import opened Lobby
  import opened LobbySteps
  import opened LobbyRuns

  /** A player or bot with this id has this state. */
  ghost predicate HeldState(s: ServerState, id: PlayerId, state: WireState) {
    || (exists p :: p in s.players && Located(s.players[p], id) && s.players[p].state == state)
    || (exists b :: b in s.bots && b.hasState && b.id == id && b.state == state)
  }

  /** An update that may go out in `u` under this stamp. */
  ghost predicate Current(u: ServerState, stamp: Option<u32>, m: Msg) {
    m.StateUpdate? ==> stamp == Some(m.timeMs) && HeldState(u, m.id, m.state)
  }

  /** Every update in `t` was in `s` already or may go out in `u`. */
  ghost predicate Grounded(s: ServerState, t: ServerState, u: ServerState, stamp: Option<u32>) {
    && (forall p, m | p in t.logs && m in t.logs[p] :: (p in s.logs && m in s.logs[p]) || Current(u, stamp, m))
    && (forall p, m | p in t.updates && m in t.updates[p] ::
        (p in s.updates && m in s.updates[p]) || Current(u, stamp, m))
  }

  lemma SameGrounded(s: ServerState, t: ServerState, t1: ServerState, u: ServerState, stamp: Option<u32>)
    requires Grounded(s, t, u, stamp) && t1.logs == t.logs && t1.updates == t.updates
    ensures Grounded(s, t1, u, stamp)
  {
    hide Current;
  }

  lemma NothingNew(s: ServerState, u: ServerState, stamp: Option<u32>)
    ensures Grounded(s, s, u, stamp)
  {}

  lemma DeliverGrounded(s: ServerState, t: ServerState, u: ServerState, stamp: Option<u32>, p: Peer, ms: seq<Msg>)
    requires Grounded(s, t, u, stamp) && forall m | m in ms :: Current(u, stamp, m)
    ensures Grounded(s, Deliver(t, p, ms), u, stamp)
  {
    hide Current;
  }

  lemma BroadcastGrounded(s: ServerState, t: ServerState, u: ServerState, stamp: Option<u32>, m: Msg,
                          except: Option<Peer>)
    requires Grounded(s, t, u, stamp) && Current(u, stamp, m)
    ensures Grounded(s, Broadcast(t, m, except), u, stamp)
    ensures Grounded(s, BroadcastUpdate(t, m, except), u, stamp)
  {
    hide Current, Hears;
  }

  lemma AnnounceGrounded(s: ServerState, t: ServerState, u: ServerState, stamp: Option<u32>, m: Msg,
                         except: Option<Peer>, text: Bytes)
    requires Grounded(s, t, u, stamp) && !m.StateUpdate?
    ensures Grounded(s, ServerChat(Broadcast(t, m, except), text), u, stamp)
  {
    hide Grounded, Broadcast;
    BroadcastGrounded(s, t, u, stamp, m, except);
    BroadcastGrounded(s, Broadcast(t, m, except), u, stamp, ChatBroadcast(SERVER_ID, text), None);
  }

  // ---- packets ----------------------------------------------------------------------

  lemma KickGrounded(s: ServerState, u: ServerState, stamp: Option<u32>, p: Peer, reason: Bytes)
    ensures Grounded(s, Kick(s, p, reason), u, stamp)
  {
    hide Grounded, Deliver;
    NothingNew(s, u, stamp);
    DeliverGrounded(s, s, u, stamp, p, [Reject(reason)]);
    SameGrounded(s, Deliver(s, p, [Reject(reason)]), Kick(s, p, reason), u, stamp);
  }

  lemma GreetingCurrent(env: Env, s: ServerState, t: ServerState, p: Peer, order: seq<Peer>, stamp: u32)
    requires IdsOk(s) && IsOrder(order, s.players.Keys) && p in s.players && !s.players[p].handshaked
    requires p in t.players && t.players == s.players[p := t.players[p]] && t.bots == s.bots
    ensures forall m | m in Greeting(env, s, s.nextId, order, stamp) :: Current(t, Some(stamp), m)
  {
    hide Greeting, CountUpdates, IdsOk, IsOrder;
    forall m | m in Greeting(env, s, s.nextId, order, stamp)
      ensures Current(t, Some(stamp), m)
    {
      if m.StateUpdate? {
        GreetingTellsStates(env, s, s.nextId, order, stamp, m);
        if q :| q in s.players && PlayerUpdate(s.players[q], m, stamp) {
          assert t.players[q] == s.players[q];
        }
      }
    }
  }

  lemma JoinGrounded(env: Env, s: ServerState, p: Peer, name: Bytes, version: u32, now: int, order: seq<Peer>)
    requires IdsOk(s) && IsOrder(order, s.players.Keys) && p in s.players && !s.players[p].handshaked
    ensures var t := Join(env, s, p, name, version, now, order); Grounded(s, t, t, Some(NowMs(env, now)))
  {
    hide Greeting, Deliver, Broadcast, Grounded, Current, IdsOk, IsOrder, Increment, Ascii;
    var id, stamp := s.nextId, NowMs(env, now);
    var joined := s.players[p].(id := id, name := name, gameVersion := version, handshaked := true);
    var s1 := s.(players := s.players[p := joined], nextId := Increment(id));
    var t := Join(env, s, p, name, version, now, order);
    JoinPlayers(env, s, p, name, version, now, order);
    GreetingCurrent(env, s, t, p, order, stamp);
    NothingNew(s, t, Some(stamp));
    SameGrounded(s, s, s1, t, Some(stamp));
    var greeting := Greeting(env, s, id, order, stamp);
    DeliverGrounded(s, s1, t, Some(stamp), p, greeting);
    AnnounceGrounded(s, Deliver(s1, p, greeting), t, Some(stamp), Joined(id, name), Some(p),
      name + Ascii(" joined the game"));
  }

  lemma JoinPlayers(env: Env, s: ServerState, p: Peer, name: Bytes, version: u32, now: int, order: seq<Peer>)
    requires p in s.players
    ensures var t := Join(env, s, p, name, version, now, order);
            p in t.players && t.players == s.players[p := t.players[p]] && t.bots == s.bots
    ensures var x := Join(env, s, p, name, version, now, order).players[p];
            x.state == s.players[p].state && x.hasState == s.players[p].hasState
  {
    hide Greeting, Ascii, Increment;
  }

  lemma HelloGrounded(env: Env, s: ServerState, p: Peer, hello: Option<Msg>, now: int, order: seq<Peer>)
    requires IdsOk(s) && IsOrder(order, s.players.Keys) && p in s.players && (hello.Some? ==> hello.value.Hello?)
    ensures var t := HandleHello(env, s, p, hello, now, order); Grounded(s, t, t, Some(NowMs(env, now)))
  {
    hide Join, Kick, Grounded, Sanitized, IdsOk, IsOrder, MismatchText, Ascii;
    var stamp := Some(NowMs(env, now));
    var t := HandleHello(env, s, p, hello, now, order);
    NothingNew(s, t, stamp);
    KickGrounded(s, t, stamp, p, Ascii("Malformed hello"));
    if hello.Some? {
      KickGrounded(s, t, stamp, p, MismatchText(hello.value.protocolVersion));
      if !s.players[p].handshaked {
        JoinGrounded(env, s, p, Sanitized(hello.value.name), hello.value.gameVersion, now, order);
      }
    }
  }

  lemma StateGrounded(env: Env, s: ServerState, p: Peer, msg: Option<Msg>, now: int)
    requires p in s.players && s.players[p].handshaked && (msg.Some? ==> msg.value.State?)
    ensures var t := HandlePlayerState(env, s, p, msg, now); Grounded(s, t, t, Some(NowMs(env, now)))
  {
    hide Grounded, Plausible, BroadcastUpdate;
    var stamp := Some(NowMs(env, now));
    var t := HandlePlayerState(env, s, p, msg, now);
    NothingNew(s, t, stamp);
    if msg.Some? && Plausible(msg.value.state) {
      var s1 := s.(players := s.players[p := s.players[p].(state := msg.value.state, hasState := true)]);
      SameGrounded(s, s, s1, t, stamp);
      UpdatePlayers(s1, StateUpdate(s.players[p].id, NowMs(env, now), msg.value.state), Some(p));
      assert Located(t.players[p], s.players[p].id) && t.players[p].state == msg.value.state;
      BroadcastGrounded(s, s1, t, stamp, StateUpdate(s.players[p].id, NowMs(env, now), msg.value.state), Some(p));
    }
  }

  lemma UpdatePlayers(s: ServerState, m: Msg, except: Option<Peer>)
    ensures BroadcastUpdate(s, m, except).players == s.players
  {}

  lemma ChatGrounded(s: ServerState, u: ServerState, stamp: Option<u32>, p: Peer, msg: Option<Msg>, now: int)
    requires p in s.players && (msg.Some? ==> msg.value.Chat?)
    ensures Grounded(s, HandleChat(s, p, msg, now), u, stamp)
  {
    hide Grounded, Deliver, Broadcast, ChatStep;
    NothingNew(s, u, stamp);
    if msg.Some? {
      var (limiter, outcome) := ChatStep(s.players[p].limiter, now, msg.value.text);
      var s1 := s.(players := s.players[p := s.players[p].(limiter := limiter)]);
      SameGrounded(s, s, s1, u, stamp);
      DeliverGrounded(s, s1, u, stamp, p, [ChatBroadcast(SERVER_ID, SLOW_DOWN)]);
      if outcome.Relayed? {
        BroadcastGrounded(s, s1, u, stamp, ChatBroadcast(s.players[p].id, outcome.text), None);
      }
    }
  }

  lemma SetNameGrounded(s: ServerState, u: ServerState, stamp: Option<u32>, p: Peer, msg: Option<Msg>)
    requires p in s.players && (msg.Some? ==> msg.value.SetName?)
    ensures Grounded(s, HandleSetName(s, p, msg), u, stamp)
  {
    hide Grounded, Broadcast, Sanitized;
    NothingNew(s, u, stamp);
    if msg.Some? {
      var name := Sanitized(msg.value.name);
      var s1 := s.(players := s.players[p := s.players[p].(name := name)]);
      SameGrounded(s, s, s1, u, stamp);
      BroadcastGrounded(s, s1, u, stamp, Renamed(s.players[p].id, name), None);
    }
  }

  lemma PacketGrounded(env: Env, s: ServerState, e: Event)
    requires IdsOk(s) && e.Received? && Enabled(s, e)
    ensures var t := Step(env, s, e); Grounded(s, t, t, Some(NowMs(env, e.now)))
  {
    hide HandleHello, HandlePlayerState, HandleChat, HandleSetName, Kick, ParseBody, Grounded, IdsOk, IsOrder, Ascii;
    var (id, c) := GetU8(Cursor(e.bytes, 0, true));
    var body, t, p := ParseBody(id, c).0, Step(env, s, e), e.peer;
    var stamp := Some(NowMs(env, e.now));
    NothingNew(s, t, stamp);
    if p in s.players && c.ok {
      KickGrounded(s, t, stamp, p, Ascii("Expected handshake"));
      HelloGrounded(env, s, p, if id == HELLO then body else None, e.now, e.order);
      ChatGrounded(s, t, stamp, p, if id == CHAT then body else None, e.now);
      SetNameGrounded(s, t, stamp, p, if id == SET_NAME then body else None);
      if s.players[p].handshaked {
        StateGrounded(env, s, p, if id == STATE then body else None, e.now);
      }
    }
  }

  // ---- other events -----------------------------------------------------------------

  lemma {:induction false} DriveGrounded(env: Env, s: ServerState, n: nat, dt: real, stamp: u32, u: ServerState)
    requires n <= |s.bots| && u.bots == DriveBots(env, s, |s.bots|, dt, stamp).bots
    ensures Grounded(s, DriveBots(env, s, n, dt, stamp), u, Some(stamp))
  {
    hide Grounded, DriveBot, BroadcastUpdate, PlayerWithId, FirstPlayerWithState;
    if n == 0 {
      NothingNew(s, u, Some(stamp));
    } else {
      DriveGrounded(env, s, n - 1, dt, stamp, u);
      var before := DriveBots(env, s, n - 1, dt, stamp);
      DrivenBots(env, s, n - 1, dt, stamp);
      DrivenBots(env, s, |s.bots|, dt, stamp);
      var bot := DriveBot(env, s.players, before.bots[n - 1], Target(s.players, before.bots[n - 1]), dt);
      assert u.bots[n - 1] == bot && bot in u.bots;
      var after := before.(bots := before.bots[n - 1 := bot]);
      SameGrounded(s, before, after, u, Some(stamp));
      if bot.hasState {
        BroadcastGrounded(s, after, u, Some(stamp), StateUpdate(bot.id, stamp, bot.state), None);
      }
    }
  }

  lemma BotsTickGrounded(env: Env, s: ServerState, now: int)
    ensures var t := UpdateBots(env, s, now); Grounded(s, t, t, Some(NowMs(env, now)))
  {
    hide Grounded, DriveBots;
    var t := UpdateBots(env, s, now);
    NothingNew(s, t, Some(NowMs(env, now)));
    if !Skipped(s, now) {
      var s1 := s.(lastBotUpdate := now);
      DriveGrounded(env, s1, |s.bots|, BotDt(s, now), NowMs(env, now), t);
      GroundedFrom(s, s1, t, t, Some(NowMs(env, now)));
    }
  }

  lemma GroundedFrom(s: ServerState, s1: ServerState, t: ServerState, u: ServerState, stamp: Option<u32>)
    requires Grounded(s1, t, u, stamp) && s1.logs == s.logs && s1.updates == s.updates
    ensures Grounded(s, t, u, stamp)
  {
    hide Current;
  }

  lemma RemoveBotGrounded(s: ServerState, bot: PlayerId, u: ServerState, stamp: Option<u32>)
    ensures Grounded(s, RemoveBot(s, bot), u, stamp)
  {
    hide Grounded, Broadcast, ServerChat, Ascii;
    NothingNew(s, u, stamp);
    var i := FindBot(s.bots, bot);
    if i < |s.bots| {
      var told := ServerChat(Broadcast(s, Left(s.bots[i].id), None), s.bots[i].name + Ascii(" left the game"));
      AnnounceGrounded(s, s, u, stamp, Left(s.bots[i].id), None, s.bots[i].name + Ascii(" left the game"));
      SameGrounded(s, told, RemoveBot(s, bot), u, stamp);
    }
  }

  lemma {:induction false} RemoveAllGrounded(s: ServerState, u: ServerState, stamp: Option<u32>)
    ensures Grounded(s, RemoveAllBots(s), u, stamp)
    decreases |s.bots|
  {
    hide Grounded, RemoveBot;
    NothingNew(s, u, stamp);
    if s.bots != [] {
      var t := RemoveBot(s, s.bots[|s.bots| - 1].id);
      RemoveBotGrounded(s, s.bots[|s.bots| - 1].id, u, stamp);
      OneBotFewer(s);
      RemoveAllGrounded(t, u, stamp);
      GroundedThen(s, t, RemoveAllBots(t), u, stamp);
    }
  }

  lemma OneBotFewer(s: ServerState)
    requires s.bots != []
    ensures |RemoveBot(s, s.bots[|s.bots| - 1].id).bots| < |s.bots|
  {}

  lemma GroundedThen(s: ServerState, t: ServerState, v: ServerState, u: ServerState, stamp: Option<u32>)
    requires Grounded(s, t, u, stamp) && Grounded(t, v, u, stamp)
    ensures Grounded(s, v, u, stamp)
  {
    hide Current;
  }

  lemma AddBotGrounded(s: ServerState, mode: Mode, name: Bytes, u: ServerState, stamp: Option<u32>)
    ensures Grounded(s, AddBot(s, mode, name), u, stamp)
  {
    hide Grounded, Broadcast, ServerChat, BotName, Ascii, Increment;
    var bot := Bot(s.nextId, BotName(s.nextId, name), mode, INVALID_PLAYER_ID, false, ZERO_STATE, 0.0);
    var s1 := s.(bots := s.bots + [bot], nextId := Increment(s.nextId));
    NothingNew(s, u, stamp);
    SameGrounded(s, s, s1, u, stamp);
    AnnounceGrounded(s, s1, u, stamp, Joined(bot.id, bot.name), None, bot.name + Ascii(" joined the game"));
  }

  lemma DisconnectGrounded(s: ServerState, p: Peer, u: ServerState, stamp: Option<u32>)
    ensures Grounded(s, Disconnect(s, p), u, stamp)
  {
    hide Grounded, Broadcast, ServerChat, Ascii;
    NothingNew(s, u, stamp);
    if p in s.players {
      var player := s.players[p];
      var gone := s.(players := s.players - {p}, closing := s.closing - {p});
      SameGrounded(s, s, gone, u, stamp);
      AnnounceGrounded(s, gone, u, stamp, Left(player.id), None, player.name + Ascii(" left the game"));
    }
  }

  lemma ConnectGrounded(s: ServerState, p: Peer, u: ServerState, stamp: Option<u32>)
    ensures Grounded(s, Connect(s, p), u, stamp)
  {
    hide Current;
  }

  lemma KickCommandGrounded(s: ServerState, who: PlayerId, reason: Bytes, u: ServerState, stamp: Option<u32>)
    ensures Grounded(s, KickCommand(s, who, reason), u, stamp)
  {
    hide Grounded, RemoveBot, Kick;
    NothingNew(s, u, stamp);
    RemoveBotGrounded(s, who, u, stamp);
    var p := PlayerWithId(s.players, who);
    if p.Some? {
      KickGrounded(s, u, stamp, p.value, reason);
    }
  }

  /** The events that read the clock for a stamp. */
  predicate Timed(e: Event) { e.Received? || e.BotsTick? }

  lemma StepGrounded(env: Env, s: ServerState, e: Event)
    requires IdsOk(s) && Enabled(s, e)
    ensures var t := Step(env, s, e); Grounded(s, t, t, if Timed(e) then Some(NowMs(env, e.now)) else None)
  {
    hide Grounded, Connect, Disconnect, HandlePacket, UpdateBots, AddBot, RemoveBot, RemoveAllBots, KickCommand,
         ServerChat, IdsOk;
    var t := Step(env, s, e);
    match e {
      case Received(_, _, _, _) => PacketGrounded(env, s, e);
      case BotsTick(now) => BotsTickGrounded(env, s, now);
      case Connected(p) => ConnectGrounded(s, p, t, None);
      case Disconnected(p) => DisconnectGrounded(s, p, t, None);
      case BotAdd(mode, name) => AddBotGrounded(s, mode, name, t, None);
      case BotRemove(id) => RemoveBotGrounded(s, id, t, None);
      case BotRemoveAll => RemoveAllGrounded(s, t, None);
      case Say(text) => SayGrounded(s, text, t);
      case KickId(id, reason) => KickCommandGrounded(s, id, reason, t, None);
      case LinkLost(p) =>
        NothingNew(s, t, None);
        SameGrounded(s, s, t, t, None);
    }
  }

  lemma SayGrounded(s: ServerState, text: Bytes, u: ServerState)
    ensures Grounded(s, ServerChat(s, text), u, None)
  {
    hide Grounded, Broadcast;
    NothingNew(s, u, None);
    BroadcastGrounded(s, s, u, None, ChatBroadcast(SERVER_ID, text), None);
  }

  // ---- whole runs -------------------------------------------------------------------

  /** At some moment of the run this state was the state of the player or bot with this id, and that moment has this
      time in milliseconds since the start of the server. */
  ghost predicate WasState(env: Env, events: seq<Event>, id: PlayerId, state: WireState, time: int) {
    exists k :: 0 <= k < |events| && Timed(events[k]) && Millis(env, events[k].now) == time
             && HeldState(Run(env, events[..k + 1]), id, state)
  }

  function Millis(env: Env, now: int): int { (now - env.startTime) / 1_000_000 }

  /** An update that was true when it was stamped. */
  ghost predicate TrueUpdate(env: Env, events: seq<Event>, m: Msg)
    requires m.StateUpdate?
  {
    exists time :: WasState(env, events, m.id, m.state, time) && m.timeMs == time % 0x1_0000_0000
  }

  lemma StateAtLater(env: Env, events: seq<Event>, m: Msg)
    requires events != [] && m.StateUpdate? && TrueUpdate(env, events[..|events| - 1], m)
    ensures TrueUpdate(env, events, m)
  {
    hide Run, HeldState;
    var before := events[..|events| - 1];
    var time :| WasState(env, before, m.id, m.state, time) && m.timeMs == time % 0x1_0000_0000;
    var k :| 0 <= k < |before| && Timed(before[k]) && Millis(env, before[k].now) == time
          && HeldState(Run(env, before[..k + 1]), m.id, m.state);
    assert before[..k + 1] == events[..k + 1] && before[k] == events[k];
    assert WasState(env, events, m.id, m.state, time);
  }

  lemma StateAtNow(env: Env, events: seq<Event>, m: Msg)
    requires events != [] && m.StateUpdate?
    requires Timed(events[|events| - 1]) && m.timeMs == NowMs(env, events[|events| - 1].now)
    requires HeldState(Run(env, events), m.id, m.state)
    ensures TrueUpdate(env, events, m)
  {
    hide Run, HeldState;
    var n := |events| - 1;
    assert events[..n + 1] == events;
    assert WasState(env, events, m.id, m.state, Millis(env, events[n].now));
  }

  /** In every run, every state update in any log was true when it was stamped: at that very millisecond of the
      server the player or bot it names had that state. */
  lemma {:induction false} UpdatesAreTrue(env: Env, events: seq<Event>, p: Peer, m: Msg)
    requires SaneArithmetic(env) && EnabledRun(env, events) && m.StateUpdate?
    requires var s := Run(env, events); (p in s.logs && m in s.logs[p]) || (p in s.updates && m in s.updates[p])
    ensures TrueUpdate(env, events, m)
  {
    hide Step, Enabled, TrueUpdate, Inv, IdsOk, HeldState;
    if events != [] {
      var before, e := events[..|events| - 1], events[|events| - 1];
      var s, t := Run(env, before), Run(env, events);
      Reachable(env, before);
      InvIds(s);
      StepGrounded(env, s, e);
      if (p in s.logs && m in s.logs[p]) || (p in s.updates && m in s.updates[p]) {
        UpdatesAreTrue(env, before, p, m);
        StateAtLater(env, events, m);
      } else {
        NewIsCurrent(s, t, t, if Timed(e) then Some(NowMs(env, e.now)) else None, p, m);
        StateAtNow(env, events, m);
      }
    }
  }

  lemma NewIsCurrent(s: ServerState, t: ServerState, u: ServerState, stamp: Option<u32>, p: Peer, m: Msg)
    requires Grounded(s, t, u, stamp) && m.StateUpdate?
    requires (p in t.logs && m in t.logs[p]) || (p in t.updates && m in t.updates[p])
    requires !(p in s.logs && m in s.logs[p]) && !(p in s.updates && m in s.updates[p])
    ensures stamp == Some(m.timeMs) && HeldState(u, m.id, m.state)
  {
    hide HeldState;
    if p in t.logs && m in t.logs[p] {
      assert Current(u, stamp, m);
    } else {
      assert p in t.updates && m in t.updates[p];
      assert Current(u, stamp, m);
    }
  }

  lemma InvIds(s: ServerState)
    requires Inv(s)
    ensures IdsOk(s)
  {}

  // ---- where a player's state comes from --------------------------------------------

  /** The packet carries this state. */
  predicate Carrying(bytes: Bytes, state: WireState) { Decode(bytes).Some? && Decode(bytes).value.0 == State(state) }

  lemma PacketState(env: Env, s: ServerState, e: Event)
    requires e.Received? && e.peer in s.players
    ensures e.peer in Step(env, s, e).players
    ensures var x, y := s.players[e.peer], Step(env, s, e).players[e.peer];
            (y.hasState == x.hasState && y.state == x.state) || (y.hasState && Carrying(e.bytes, y.state))
  {
    hide Join, Kick, HandleChat, HandleSetName, ParseBody, Decode, Plausible, Sanitized, Ascii, MismatchText;
    var (id, c) := GetU8(Cursor(e.bytes, 0, true));
    var body, p := ParseBody(id, c).0, e.peer;
    DecodeIs(e.bytes);
    KickPlayers(s, p, Ascii("Expected handshake"));
    if c.ok && (s.players[p].handshaked || id == HELLO) {
      if id == HELLO {
        KickPlayers(s, p, Ascii("Malformed hello"));
        if body.Some? {
          KickPlayers(s, p, MismatchText(body.value.protocolVersion));
          JoinPlayers(env, s, p, Sanitized(body.value.name), body.value.gameVersion, e.now, e.order);
        }
      } else if id == CHAT {
        ChatState(s, p, body, e.now);
      } else if id == SET_NAME {
        SetNameState(s, p, body);
      }
    }
  }

  lemma KickPlayers(s: ServerState, p: Peer, reason: Bytes)
    ensures Kick(s, p, reason).players == s.players
  {}

  lemma ChatState(s: ServerState, p: Peer, msg: Option<Msg>, now: int)
    requires p in s.players && (msg.Some? ==> msg.value.Chat?)
    ensures p in HandleChat(s, p, msg, now).players
    ensures var x := HandleChat(s, p, msg, now).players[p];
            x.state == s.players[p].state && x.hasState == s.players[p].hasState
  {
    hide ChatStep;
  }

  lemma SetNameState(s: ServerState, p: Peer, msg: Option<Msg>)
    requires p in s.players && (msg.Some? ==> msg.value.SetName?)
    ensures p in HandleSetName(s, p, msg).players
    ensures var x := HandleSetName(s, p, msg).players[p];
            x.state == s.players[p].state && x.hasState == s.players[p].hasState
  {
    hide Sanitized;
  }

  /** Event `k` brought this state in on the present connection of `p`. */
  ghost predicate StateIn(events: seq<Event>, p: Peer, k: int, state: WireState) {
    && 0 <= k < |events| && events[k].Received? && events[k].peer == p && Carrying(events[k].bytes, state)
    && SameConnection(events, p, k)
  }

  lemma StateEarlier(events: seq<Event>, p: Peer, k: int, state: WireState)
    requires events != [] && StateIn(events[..|events| - 1], p, k, state)
    requires var e := events[|events| - 1]; !((e.Connected? || e.Disconnected?) && e.peer == p)
    ensures StateIn(events, p, k, state)
  {
    hide Carrying;
    var before := events[..|events| - 1];
    assert forall j | 0 <= j < |before| :: before[j] == events[j];
  }

  /** In every run, a player's state is one that came in a packet of that player's present connection. */
  lemma {:induction false} StateCameIn(env: Env, events: seq<Event>, p: Peer) returns (k: int)
    requires EnabledRun(env, events) && p in Run(env, events).players && Run(env, events).players[p].hasState
    ensures StateIn(events, p, k, Run(env, events).players[p].state)
  {
    hide Step, Enabled, Carrying, StateIn;
    var n := |events| - 1;
    var before, e := events[..n], events[n];
    var s := Run(env, before);
    k := n;
    if p in s.players && s.players[p].hasState && s.players[p].state == Run(env, events).players[p].state {
      k := StateCameIn(env, before, p);
      NotReconnected(env, s, e, p);
      StateEarlier(events, p, k, s.players[p].state);
    } else if e.Received? && e.peer in s.players {
      PacketChanges(env, s, e);
      PacketState(env, s, e);
      StateNow(events, p, Run(env, events).players[p].state);
    } else if e.Received? {
      IgnoredPacket(env, s, e);
    } else {
      StepEffect(env, s, e);
    }
  }

  lemma StateNow(events: seq<Event>, p: Peer, state: WireState)
    requires events != [] && events[|events| - 1].Received? && events[|events| - 1].peer == p
    requires Carrying(events[|events| - 1].bytes, state)
    ensures StateIn(events, p, |events| - 1, state)
  {
    hide Carrying;
  }

  /** A packet that carries a plausible state puts that state into the player's record. */
  lemma SentStateIsStored(env: Env, s: ServerState, p: Peer, state: WireState, now: int, order: seq<Peer>)
    requires p in s.players && s.players[p].handshaked && Plausible(state)
    ensures var t := Step(env, s, Received(p, EncodeBytes(State(state)), now, order));
            p in t.players && t.players[p] == s.players[p].(state := state, hasState := true)
  {
    hide ParseBody, Decode, EncodeBytes, Plausible;
    var bytes := EncodeBytes(State(state));
    DecodeEncode(State(state), []);
    assert bytes + [] == bytes;
    DecodeIs(bytes);
  }
}
