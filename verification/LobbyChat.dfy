/** Chat over whole runs of the lobby server: what reaches the logs, and how much of it. */
module LobbyChat {
  import opened Types
  import opened Packet
  import opened Protocol
  import opened Names
  import opened Chat
  import opened ClientView
  import opened ServerModel
  import opened Lobby
  import opened LobbySteps
  import opened LobbyRuns

  // ---- chat -------------------------------------------------------------------------

  /** The chat messages of `p`'s current connection, in order. */
  ghost function Arrivals(env: Env, events: seq<Event>, p: Peer): seq<Arrival> {
    if events == [] then []
    else
      var before, e := events[..|events| - 1], events[|events| - 1];
      if (e.Connected? || e.Disconnected?) && e.peer == p then []
      else
        var chat := ChatFrom(Run(env, before), e, p);
        Arrivals(env, before, p) + (if chat.Some? then [chat.value] else [])
  }

  lemma ChatOnlyMovesLimiter(env: Env, s: ServerState, e: Event, p: Peer)
    requires Enabled(s, e) && p in Step(env, s, e).players && p in s.players
    ensures Step(env, s, e).players[p].limiter == Moved(s, e, p)
  {
    hide Step, ChatStep, ParseBody, BotIds;
    if !e.Received? {
      StepEffect(env, s, e);
    } else if e.peer in s.players {
      PacketChanges(env, s, e);
    } else {
      IgnoredPacket(env, s, e);
    }
  }

  lemma NewPeersAreFresh(env: Env, s: ServerState, e: Event, p: Peer)
    requires Enabled(s, e) && p in Step(env, s, e).players && p !in s.players
    ensures e == Connected(p) && Step(env, s, e).players[p] == NEW_PLAYER
  {
    hide Step, BotIds;
    if !e.Received? {
      StepEffect(env, s, e);
    } else if e.peer in s.players {
      PacketChanges(env, s, e);
    } else {
      IgnoredPacket(env, s, e);
    }
  }

  /** In every reachable state a player's limiter is where its own chat messages have brought it. */
  lemma {:induction false} LimiterFollowsChat(env: Env, events: seq<Event>, p: Peer)
    requires EnabledRun(env, events) && p in Run(env, events).players
    ensures Run(env, events).players[p].limiter == ChatRun(FRESH, Arrivals(env, events, p)).0
  {
    hide Step, Enabled, ChatFrom, ChatStep;
    var before, e := events[..|events| - 1], events[|events| - 1];
    var s := Run(env, before);
    if p !in s.players {
      NewPeersAreFresh(env, s, e, p);
    } else {
      LimiterFollowsChat(env, before, p);
      ChatOnlyMovesLimiter(env, s, e, p);
      NotReconnected(env, s, e, p);
      var chat := ChatFrom(s, e, p);
      if chat.Some? {
        var arrivals := Arrivals(env, events, p);
        assert arrivals[..|arrivals| - 1] == Arrivals(env, before, p);
        RunStep(FRESH, arrivals);
      } else {
        assert Arrivals(env, events, p) == Arrivals(env, before, p);
      }
    }
  }

  /** A chat message is broadcast, under its sender's id, exactly when the limiter relays it; only the sender is
      warned. */
  lemma RelayedIffVerdict(env: Env, s: ServerState, e: Event, p: Peer, q: Peer)
    requires p in s.players && ChatFrom(s, e, p).Some? && q in s.logs && Hears(s, q, None)
    ensures q in Step(env, s, e).logs
    ensures Step(env, s, e).logs[q] == s.logs[q] +
              match ChatStep(s.players[p].limiter, e.now, ChatFrom(s, e, p).value.text).1
              case Relayed(text) => [ChatBroadcast(s.players[p].id, text)]
              case Warned => if q == p then [ChatBroadcast(SERVER_ID, SLOW_DOWN)] else []
              case _ => []
  {
    hide ParseBody, ChatStep;
  }

  /** In every run, what a player's chat message puts into the log of anyone who hears is decided by the run of that
      player's own messages: the line if its verdict there is to relay, one warning to the sender if it is to warn. */
  lemma AnswerFollowsRun(env: Env, events: seq<Event>, p: Peer, q: Peer)
    requires events != [] && EnabledRun(env, events)
    requires var s := Run(env, events[..|events| - 1]);
             p in s.players && ChatFrom(s, events[|events| - 1], p).Some? && q in s.logs && Hears(s, q, None)
    ensures var s, vs := Run(env, events[..|events| - 1]), ChatRun(FRESH, Arrivals(env, events, p)).1;
            && vs != [] && q in Run(env, events).logs
            && Run(env, events).logs[q] == s.logs[q] +
                 match vs[|vs| - 1].outcome
                 case Relayed(text) => [ChatBroadcast(s.players[p].id, text)]
                 case Warned => if q == p then [ChatBroadcast(SERVER_ID, SLOW_DOWN)] else []
                 case _ => []
  {
    hide Step, Enabled, ChatFrom, ChatStep, Hears;
    var before, e := events[..|events| - 1], events[|events| - 1];
    var s := Run(env, before);
    RelayedIffVerdict(env, s, e, p, q);
    LimiterFollowsChat(env, before, p);
    ChatFromIsNow(s, e, p);
    var arrivals := Arrivals(env, events, p);
    assert arrivals[..|arrivals| - 1] == Arrivals(env, before, p);
    RunStep(FRESH, arrivals);
  }

  /** The server's clock starts at its epoch and never runs backwards. */
  ghost predicate ClockOk(events: seq<Event>) {
    && (forall i | 0 <= i < |events| && events[i].Received? :: events[i].now >= 0)
    && (forall i, j | 0 <= i < j < |events| && events[i].Received? && events[j].Received? ::
        events[i].now <= events[j].now)
  }

  lemma {:induction false} ArrivalsOrdered(env: Env, events: seq<Event>, p: Peer, now: int)
    requires ClockOk(events) && forall i | 0 <= i < |events| && events[i].Received? :: events[i].now <= now
    ensures Ordered(Arrivals(env, events, p)) && forall a | a in Arrivals(env, events, p) :: a.now <= now
  {
    hide Run, ChatFrom, ClockOk, Ordered;
    if events == [] {
      NoneOrdered();
    } else {
      var before, e := events[..|events| - 1], events[|events| - 1];
      var latest := if e.Received? then e.now else now;
      ClockBefore(events, now);
      ArrivalsOrdered(env, before, p, latest);
      ChatFromIsNow(Run(env, before), e, p);
      var chat := ChatFrom(Run(env, before), e, p);
      NoneOrdered();
      if chat.Some? {
        OneMoreOrdered(Arrivals(env, before, p), chat.value);
      }
      assert Arrivals(env, before, p) + [] == Arrivals(env, before, p);
    }
  }

  lemma NoneOrdered()
    ensures Ordered([])
  {}

  lemma OneMoreOrdered(xs: seq<Arrival>, a: Arrival)
    requires Ordered(xs) && a.now >= 0 && forall x | x in xs :: x.now <= a.now
    ensures Ordered(xs + [a])
  {}

  lemma ClockBefore(events: seq<Event>, now: int)
    requires events != [] && ClockOk(events) && forall i | 0 <= i < |events| && events[i].Received? ::
        events[i].now <= now
    ensures var before, e := events[..|events| - 1], events[|events| - 1];
            var latest := if e.Received? then e.now else now;
            && ClockOk(before) && (forall i | 0 <= i < |before| && before[i].Received? :: before[i].now <= latest)
            && (e.Received? ==> 0 <= e.now <= now)
  {}

  lemma ChatFromIsNow(s: ServerState, e: Event, p: Peer)
    ensures ChatFrom(s, e, p).Some? ==> e.Received? && ChatFrom(s, e, p).value.now == e.now
  {}

  // ---- what players are heard to say ------------------------------------------------

  predicate Says(m: Msg, id: PlayerId) { m.ChatBroadcast? && m.from == id }

  /** What `id` says in a log, in order. */
  function Chats(log: seq<Msg>, id: PlayerId): seq<Bytes> {
    if log == [] then []
    else Chats(log[..|log| - 1], id) + if Says(log[|log| - 1], id) then [log[|log| - 1].text] else []
  }

  /** What an event put into `q`'s log. */
  ghost function News(s: ServerState, t: ServerState, q: Peer): seq<Msg> {
    if q !in t.logs then []
    else if q in s.logs && s.logs[q] <= t.logs[q] then t.logs[q][|s.logs[q]|..]
    else t.logs[q]
  }

  /** `q`'s log goes on without a word of `id`. */
  ghost predicate Quiet(s: ServerState, t: ServerState, q: Peer, id: PlayerId) {
    if q in s.logs then
      && q in t.logs && s.logs[q] <= t.logs[q]
      && forall i | |s.logs[q]| <= i < |t.logs[q]| :: !Says(t.logs[q][i], id)
    else q !in t.logs
  }

  lemma {:induction false} NobodySays(log: seq<Msg>, id: PlayerId)
    requires forall i | 0 <= i < |log| :: !Says(log[i], id)
    ensures Chats(log, id) == []
  {
    if log != [] {
      NobodySays(log[..|log| - 1], id);
    }
  }

  lemma QuietNews(s: ServerState, t: ServerState, q: Peer, id: PlayerId)
    requires Quiet(s, t, q, id)
    ensures Chats(News(s, t, q), id) == []
  {
    hide Says, Chats;
    NobodySays(News(s, t, q), id);
  }

  lemma QuietThen(s: ServerState, t: ServerState, u: ServerState, q: Peer, id: PlayerId)
    requires Quiet(s, t, q, id) && Quiet(t, u, q, id)
    ensures Quiet(s, u, q, id)
  {
    hide Says;
    if q in s.logs {
      assert forall i | |s.logs[q]| <= i < |t.logs[q]| :: u.logs[q][i] == t.logs[q][i];
    }
  }

  lemma DeliverQuiet(s: ServerState, p: Peer, ms: seq<Msg>, q: Peer, id: PlayerId)
    requires forall i | 0 <= i < |ms| :: !Says(ms[i], id)
    ensures Quiet(s, Deliver(s, p, ms), q, id)
  {
    hide Says;
  }

  lemma BroadcastQuiet(s: ServerState, m: Msg, except: Option<Peer>, q: Peer, id: PlayerId)
    requires !Says(m, id)
    ensures Quiet(s, Broadcast(s, m, except), q, id)
  {
    hide Says, Hears;
  }

  /** The server announces something and then says so in chat. */
  lemma AnnounceQuiet(s: ServerState, t: ServerState, m: Msg, except: Option<Peer>, text: Bytes, q: Peer, id: PlayerId)
    requires Quiet(s, t, q, id) && !m.ChatBroadcast? && id != SERVER_ID
    ensures Quiet(s, ServerChat(Broadcast(t, m, except), text), q, id)
  {
    hide Quiet, Broadcast;
    var u := Broadcast(t, m, except);
    BroadcastQuiet(t, m, except, q, id);
    BroadcastQuiet(u, ChatBroadcast(SERVER_ID, text), None, q, id);
    QuietThen(s, t, u, q, id);
    QuietThen(s, u, ServerChat(u, text), q, id);
  }

  lemma SameQuiet(s: ServerState, t: ServerState, q: Peer, id: PlayerId)
    requires t.logs == s.logs
    ensures Quiet(s, t, q, id)
  {}

  lemma {:induction false} ListingSaysNothing(players: map<Peer, Player>, order: seq<Peer>, stamp: u32)
    ensures forall m | m in PlayerListing(players, order, stamp) :: !m.ChatBroadcast?
  {
    if order != [] {
      ListingSaysNothing(players, order[..|order| - 1], stamp);
    }
  }

  lemma {:induction false} BotListingSaysNothing(bots: seq<Bot>, stamp: u32)
    ensures forall m | m in BotListing(bots, stamp) :: !m.ChatBroadcast?
  {
    if bots != [] {
      BotListingSaysNothing(bots[..|bots| - 1], stamp);
    }
  }

  lemma GreetingSaysNothing(env: Env, s: ServerState, own: PlayerId, order: seq<Peer>, stamp: u32, id: PlayerId)
    ensures var g := Greeting(env, s, own, order, stamp); forall i | 0 <= i < |g| :: !Says(g[i], id)
  {
    hide PlayerListing, BotListing;
    ListingSaysNothing(s.players, order, stamp);
    BotListingSaysNothing(s.bots, stamp);
    var g := Greeting(env, s, own, order, stamp);
    assert forall i | 0 <= i < |g| :: g[i] in g && !g[i].ChatBroadcast?;
  }

  lemma JoinQuiet(env: Env, s: ServerState, p: Peer, name: Bytes, version: u32, now: int, order: seq<Peer>, q: Peer,
                  id: PlayerId)
    requires p in s.players && id != SERVER_ID
    ensures Quiet(s, Join(env, s, p, name, version, now, order), q, id)
  {
    hide Greeting, Deliver, Broadcast, ServerChat, Quiet, Increment, Ascii, Says;
    var own, stamp := s.nextId, NowMs(env, now);
    var joined := s.players[p].(id := own, name := name, gameVersion := version, handshaked := true);
    var s1 := s.(players := s.players[p := joined], nextId := Increment(own));
    var greeting := Greeting(env, s, own, order, stamp);
    GreetingSaysNothing(env, s, own, order, stamp, id);
    SameQuiet(s, s1, q, id);
    DeliverQuiet(s1, p, greeting, q, id);
    QuietThen(s, s1, Deliver(s1, p, greeting), q, id);
    AnnounceQuiet(s, Deliver(s1, p, greeting), Joined(own, name), Some(p), name + Ascii(" joined the game"), q, id);
  }

  lemma KickQuiet(s: ServerState, p: Peer, reason: Bytes, q: Peer, id: PlayerId)
    ensures Quiet(s, Kick(s, p, reason), q, id)
  {
    DeliverQuiet(s, p, [Reject(reason)], q, id);
  }

  lemma HelloQuiet(env: Env, s: ServerState, p: Peer, hello: Option<Msg>, now: int, order: seq<Peer>, q: Peer,
                   id: PlayerId)
    requires p in s.players && (hello.Some? ==> hello.value.Hello?) && id != SERVER_ID
    ensures Quiet(s, HandleHello(env, s, p, hello, now, order), q, id)
  {
    hide Join, Kick, Quiet, Sanitized;
    SameQuiet(s, s, q, id);
    KickQuiet(s, p, Ascii("Malformed hello"), q, id);
    if hello.Some? {
      KickQuiet(s, p, MismatchText(hello.value.protocolVersion), q, id);
      JoinQuiet(env, s, p, Sanitized(hello.value.name), hello.value.gameVersion, now, order, q, id);
    }
  }

  lemma SetNameQuiet(s: ServerState, p: Peer, msg: Option<Msg>, q: Peer, id: PlayerId)
    requires p in s.players && (msg.Some? ==> msg.value.SetName?)
    ensures Quiet(s, HandleSetName(s, p, msg), q, id)
  {
    hide Broadcast, Quiet, Sanitized;
    SameQuiet(s, s, q, id);
    if msg.Some? {
      var name := Sanitized(msg.value.name);
      var s1 := s.(players := s.players[p := s.players[p].(name := name)]);
      SameQuiet(s, s1, q, id);
      BroadcastQuiet(s1, Renamed(s.players[p].id, name), None, q, id);
      QuietThen(s, s1, Broadcast(s1, Renamed(s.players[p].id, name), None), q, id);
    }
  }

  lemma StateQuiet(env: Env, s: ServerState, p: Peer, msg: Option<Msg>, now: int, q: Peer, id: PlayerId)
    requires p in s.players && (msg.Some? ==> msg.value.State?)
    ensures Quiet(s, HandlePlayerState(env, s, p, msg, now), q, id)
  {
    hide Quiet, Plausible, Hears;
    SameQuiet(s, HandlePlayerState(env, s, p, msg, now), q, id);
  }

  lemma AddBotQuiet(s: ServerState, mode: Mode, name: Bytes, q: Peer, id: PlayerId)
    requires id != SERVER_ID
    ensures Quiet(s, AddBot(s, mode, name), q, id)
  {
    hide Quiet, Broadcast, ServerChat, BotName, Ascii, Increment;
    var bot := Bot(s.nextId, BotName(s.nextId, name), mode, INVALID_PLAYER_ID, false, ZERO_STATE, 0.0);
    var s1 := s.(bots := s.bots + [bot], nextId := Increment(s.nextId));
    SameQuiet(s, s1, q, id);
    AnnounceQuiet(s, s1, Joined(bot.id, bot.name), None, bot.name + Ascii(" joined the game"), q, id);
  }

  lemma RemoveBotQuiet(s: ServerState, bot: PlayerId, q: Peer, id: PlayerId)
    requires id != SERVER_ID
    ensures Quiet(s, RemoveBot(s, bot), q, id)
  {
    hide Quiet, Broadcast, ServerChat, Ascii;
    SameQuiet(s, s, q, id);
    var i := FindBot(s.bots, bot);
    if i < |s.bots| {
      var told := ServerChat(Broadcast(s, Left(s.bots[i].id), None), s.bots[i].name + Ascii(" left the game"));
      AnnounceQuiet(s, s, Left(s.bots[i].id), None, s.bots[i].name + Ascii(" left the game"), q, id);
      SameQuiet(told, RemoveBot(s, bot), q, id);
      QuietThen(s, told, RemoveBot(s, bot), q, id);
    }
  }

  lemma {:induction false} RemoveAllQuiet(s: ServerState, q: Peer, id: PlayerId)
    requires id != SERVER_ID
    ensures Quiet(s, RemoveAllBots(s), q, id)
    decreases |s.bots|
  {
    hide Quiet, RemoveBot;
    SameQuiet(s, s, q, id);
    if s.bots != [] {
      var t := RemoveBot(s, s.bots[|s.bots| - 1].id);
      RemoveBotQuiet(s, s.bots[|s.bots| - 1].id, q, id);
      RemoveAllShrinks(s);
      RemoveAllQuiet(t, q, id);
      QuietThen(s, t, RemoveAllBots(t), q, id);
    }
  }

  lemma RemoveAllShrinks(s: ServerState)
    requires s.bots != []
    ensures |RemoveBot(s, s.bots[|s.bots| - 1].id).bots| < |s.bots|
  {}

  lemma DisconnectQuiet(s: ServerState, p: Peer, q: Peer, id: PlayerId)
    requires id != SERVER_ID
    ensures Quiet(s, Disconnect(s, p), q, id)
  {
    hide Quiet, Broadcast, ServerChat, Ascii;
    SameQuiet(s, s, q, id);
    if p in s.players {
      var player := s.players[p];
      var gone := s.(players := s.players - {p}, closing := s.closing - {p});
      SameQuiet(s, gone, q, id);
      AnnounceQuiet(s, gone, Left(player.id), None, player.name + Ascii(" left the game"), q, id);
    }
  }

  /** The line a chat message gets through: under the sender's id, if the limiter relays it and `q` hears. */
  ghost function Line(s: ServerState, p: Peer, text: Bytes, now: int, q: Peer, id: PlayerId): seq<Bytes>
    requires p in s.players
  {
    var o := ChatStep(s.players[p].limiter, now, text).1;
    if o.Relayed? && s.players[p].id == id && q in s.logs && Hears(s, q, None) then [o.text] else []
  }

  lemma ChatNews(s: ServerState, p: Peer, msg: Option<Msg>, now: int, q: Peer, id: PlayerId)
    requires p in s.players && (msg.Some? ==> msg.value.Chat?) && id != SERVER_ID
    ensures Chats(News(s, HandleChat(s, p, msg, now), q), id) ==
              if msg.Some? then Line(s, p, msg.value.text, now, q, id) else []
  {
    hide ChatStep, Quiet, Chats;
    SameQuiet(s, s, q, id);
    QuietNews(s, s, q, id);
    if msg.Some? {
      var (limiter, outcome) := ChatStep(s.players[p].limiter, now, msg.value.text);
      var s1 := s.(players := s.players[p := s.players[p].(limiter := limiter)]);
      SameQuiet(s, s1, q, id);
      QuietNews(s, s1, q, id);
      match outcome {
        case Warned =>
          DeliverQuiet(s1, p, [ChatBroadcast(SERVER_ID, SLOW_DOWN)], q, id);
          QuietThen(s, s1, Deliver(s1, p, [ChatBroadcast(SERVER_ID, SLOW_DOWN)]), q, id);
          QuietNews(s, Deliver(s1, p, [ChatBroadcast(SERVER_ID, SLOW_DOWN)]), q, id);
        case Relayed(text) => LineNews(s, s1, ChatBroadcast(s.players[p].id, text), q, id);
        case _ =>
      }
    }
  }

  lemma LineNews(s: ServerState, s1: ServerState, m: Msg, q: Peer, id: PlayerId)
    requires s1.logs == s.logs && m.ChatBroadcast? && Hears(s1, q, None) == Hears(s, q, None)
    ensures Chats(News(s, Broadcast(s1, m, None), q), id) ==
            if Says(m, id) && q in s.logs && Hears(s, q, None) then [m.text] else []
  {
    hide Hears;
    var t := Broadcast(s1, m, None);
    if q in s.logs {
      assert News(s, t, q) == if Hears(s, q, None) then [m] else [];
      assert [m][..0] == [];
    }
  }

  /** The chat line a player's packet gets through, if it does. */
  ghost predicate GetsThrough(s: ServerState, e: Event, id: PlayerId) {
    exists p :: p in s.players && s.players[p].id == id && ChatFrom(s, e, p).Some? && e.Received?
             && ChatStep(s.players[p].limiter, e.now, ChatFrom(s, e, p).value.text).1.Relayed?
  }

  /** What a packet makes `q` hear of a player: the line of a chat message of that player, and nothing else. */
  lemma PacketNews(env: Env, s: ServerState, e: Event, q: Peer, id: PlayerId)
    requires e.Received? && id != SERVER_ID
    ensures Chats(News(s, Step(env, s, e), q), id) ==
              if e.peer in s.players && ChatFrom(s, e, e.peer).Some?
              then Line(s, e.peer, ChatFrom(s, e, e.peer).value.text, e.now, q, id)
              else []
  {
    hide HandleHello, HandlePlayerState, HandleChat, HandleSetName, Kick, ParseBody, Quiet, Chats, Line, News;
    var (h, c) := GetU8(Cursor(e.bytes, 0, true));
    var body, t := ParseBody(h, c).0, Step(env, s, e);
    var p := e.peer;
    SameQuiet(s, s, q, id);
    if p !in s.players || !c.ok {
      QuietNews(s, t, q, id);
    } else if s.players[p].handshaked && h == CHAT {
      ChatNews(s, p, body, e.now, q, id);
      assert body.Some? ==> ChatFrom(s, e, p) == Some(Arrival(e.now, body.value.text));
    } else {
      KickQuiet(s, p, Ascii("Expected handshake"), q, id);
      HelloQuiet(env, s, p, if h == HELLO then body else None, e.now, e.order, q, id);
      StateQuiet(env, s, p, if h == STATE then body else None, e.now, q, id);
      SetNameQuiet(s, p, if h == SET_NAME then body else None, q, id);
      QuietNews(s, t, q, id);
    }
  }

  /** What anybody hears of a player after a packet is that player's own text: its first 512 bytes without exactly
      the control characters, in order; a short text without any is heard as it was sent. */
  lemma HeardText(env: Env, s: ServerState, e: Event, q: Peer, id: PlayerId)
    requires e.Received? && id != SERVER_ID && Chats(News(s, Step(env, s, e), q), id) != []
    ensures var heard := Chats(News(s, Step(env, s, e), q), id);
            && |heard| == 1 && e.peer in s.players && s.players[e.peer].id == id
            && Decode(e.bytes).Some? && Decode(e.bytes).value.0.Chat?
            && IsUtterance(Decode(e.bytes).value.0.text, heard[0])
  {
    hide Step, Chats, News, ParseBody, Decode, IsUtterance;
    PacketNews(env, s, e, q, id);
    var p := e.peer;
    var chat := ChatFrom(s, e, p);
    DecodeIs(e.bytes);
    LineIs(s, p, chat.value.text, e.now, q, id);
  }

  ghost predicate IsUtterance(text: Bytes, heard: Bytes) {
    && IsPick(Uttered(text), heard, Sayable)
    && (forall i | 0 <= i < |heard| :: 0x20 <= heard[i] && heard[i] != 0x7F)
    && (|text| <= 512 && (forall i | 0 <= i < |text| :: 0x20 <= text[i] && text[i] != 0x7F) ==> heard == text)
  }

  lemma LineIs(s: ServerState, p: Peer, text: Bytes, now: int, q: Peer, id: PlayerId)
    requires p in s.players && Line(s, p, text, now, q, id) != []
    ensures var line := Line(s, p, text, now, q, id);
            |line| == 1 && s.players[p].id == id && IsUtterance(text, line[0])
  {
    hide Hears, IsPick, StripControl, CutChat;
    StrippedText(text);
  }

  lemma OtherNews(env: Env, s: ServerState, e: Event, q: Peer, id: PlayerId)
    requires !e.Received? && id != SERVER_ID
    ensures Chats(News(s, Step(env, s, e), q), id) == []
  {
    hide Disconnect, UpdateBots, AddBot, RemoveBot, RemoveAllBots, KickCommand, ServerChat, Quiet, Chats;
    var t := Step(env, s, e);
    match e {
      case Connected(p) =>
        if q == p {
          assert News(s, t, q) == [];
          NobodySays([], id);
        } else {
          QuietElsewhere(s, t, q, id);
          QuietNews(s, t, q, id);
        }
      case Disconnected(p) =>
        DisconnectQuiet(s, p, q, id);
        QuietNews(s, t, q, id);
      case BotsTick(now) =>
        BotsTickLogs(env, s, now);
        SameQuiet(s, t, q, id);
        QuietNews(s, t, q, id);
      case BotAdd(mode, name) =>
        AddBotQuiet(s, mode, name, q, id);
        QuietNews(s, t, q, id);
      case BotRemove(bot) =>
        RemoveBotQuiet(s, bot, q, id);
        QuietNews(s, t, q, id);
      case BotRemoveAll =>
        RemoveAllQuiet(s, q, id);
        QuietNews(s, t, q, id);
      case Say(text) =>
        SayQuiet(s, text, q, id);
        QuietNews(s, t, q, id);
      case KickId(bot, reason) =>
        KickCommandQuiet(s, bot, reason, q, id);
        QuietNews(s, t, q, id);
      case LinkLost(p) =>
        SameQuiet(s, t, q, id);
        QuietNews(s, t, q, id);
    }
  }

  lemma QuietElsewhere(s: ServerState, t: ServerState, q: Peer, id: PlayerId)
    requires if q in s.logs then q in t.logs && t.logs[q] == s.logs[q] else q !in t.logs
    ensures Quiet(s, t, q, id)
  {}

  lemma BotsTickLogs(env: Env, s: ServerState, now: int)
    ensures UpdateBots(env, s, now).logs == s.logs
  {}

  lemma SayQuiet(s: ServerState, text: Bytes, q: Peer, id: PlayerId)
    requires id != SERVER_ID
    ensures Quiet(s, ServerChat(s, text), q, id)
  {
    BroadcastQuiet(s, ChatBroadcast(SERVER_ID, text), None, q, id);
  }

  lemma KickCommandQuiet(s: ServerState, who: PlayerId, reason: Bytes, q: Peer, id: PlayerId)
    requires id != SERVER_ID
    ensures Quiet(s, KickCommand(s, who, reason), q, id)
  {
    hide Quiet, RemoveBot, Kick;
    SameQuiet(s, s, q, id);
    RemoveBotQuiet(s, who, q, id);
    var p := PlayerWithId(s.players, who);
    if p.Some? {
      KickQuiet(s, p.value, reason, q, id);
    }
  }

  // ---- how much is heard of one player ----------------------------------------------

  /** How many chat lines of `id` got into `q`'s log from time `a` to time `b`. Lines that an event without a time
      of its own put there would all count. */
  ghost function HeardBetween(env: Env, events: seq<Event>, id: PlayerId, q: Peer, a: int, b: int): nat {
    if events == [] then 0
    else
      var before, e := events[..|events| - 1], events[|events| - 1];
      var s := Run(env, before);
      HeardBetween(env, before, id, q, a, b)
      + if !e.Received? || a <= e.now <= b then |Chats(News(s, Step(env, s, e), q), id)| else 0
  }

  /** No player of the run floods a window with 2^32 messages. */
  ghost predicate NoCounterWraps(env: Env, events: seq<Event>) {
    forall k, p | 0 <= k <= |events| :: NoWrap(FRESH, Arrivals(env, events[..k], p))
  }

  lemma ChatPacket(s: ServerState, p: Peer, text: Bytes, now: int, order: seq<Peer>)
    requires p in s.players && s.players[p].handshaked && |text| <= 4096
    ensures ChatFrom(s, Received(p, EncodeBytes(Protocol.Msg.Chat(text)), now, order), p) == Some(Arrival(now, text))
  {
    hide ParseBody, Decode, EncodeBytes;
    var bytes := EncodeBytes(Protocol.Msg.Chat(text));
    DecodeEncode(Protocol.Msg.Chat(text), []);
    assert bytes + [] == bytes;
    DecodeIs(bytes);
  }

  /** In every run, a chat packet of a handshaked player is answered in the log of everyone who hears by the law of
      the limiter over that player's own messages: with fewer than six counted in the window, the stripped text under
      the player's id if anything is left; at the seventh one warning to the sender; after that nothing. */
  lemma ChatAnswered(env: Env, events: seq<Event>, p: Peer, q: Peer, text: Bytes, now: int, order: seq<Peer>)
    requires var s := Run(env, events);
             p in s.players && s.players[p].handshaked && q in s.logs && Hears(s, q, None) && 1 <= |text| <= 4096
    requires var all := events + [Received(p, EncodeBytes(Protocol.Msg.Chat(text)), now, order)];
             EnabledRun(env, all) && ClockOk(all) && NoWrap(FRESH, Arrivals(env, all, p))
    ensures var s, all := Run(env, events), events + [Received(p, EncodeBytes(Protocol.Msg.Chat(text)), now, order)];
            var before := ChatRun(FRESH, Arrivals(env, events, p)).1;
            var earlier := if now - LastWindow(before) < CHAT_WINDOW then Counted(before, LastWindow(before)) else 0;
            && q in Run(env, all).logs
            && Run(env, all).logs[q] == s.logs[q] +
                 match Answer(StripControl(CutChat(text)), earlier)
                 case Relayed(line) => [ChatBroadcast(s.players[p].id, line)]
                 case Warned => if q == p then [ChatBroadcast(SERVER_ID, SLOW_DOWN)] else []
                 case _ => []
  {
    hide Run, EnabledRun, Hears, NoWrap, ClockOk, ChatFrom, EncodeBytes, StripControl, CutChat, Ordered, Counted,
         LastWindow;
    var s := Run(env, events);
    var e := Received(p, EncodeBytes(Protocol.Msg.Chat(text)), now, order);
    var all := events + [e];
    assert all[..|all| - 1] == events && all[|all| - 1] == e;
    ChatPacket(s, p, text, now, order);
    AnswerFollowsRun(env, all, p, q);
    ArrivalsOrdered(env, all, p, LatestTime(all));
    var arrivals := Arrivals(env, all, p);
    assert arrivals == Arrivals(env, events, p) + [Arrival(now, text)];
    assert arrivals[..|arrivals| - 1] == Arrivals(env, events, p);
    RunStep(FRESH, arrivals);
    VerdictByCount(arrivals);
    var vs := ChatRun(FRESH, arrivals).1;
    assert vs[..|vs| - 1] == ChatRun(FRESH, Arrivals(env, events, p)).1;
  }

  /** What the server has relayed of the connection of `p`, by its limiter. */
  ghost function Granted(env: Env, events: seq<Event>, p: Peer, a: int, b: int): nat {
    RelayedBetween(ChatRun(FRESH, Arrivals(env, events, p)).1, a, b)
  }

  lemma GrantedStep(env: Env, events: seq<Event>, p: Peer, a: int, b: int)
    requires events != [] && EnabledRun(env, events)
    requires p in Run(env, events[..|events| - 1]).players && p in Run(env, events).players
    ensures var before, e := events[..|events| - 1], events[|events| - 1];
            var s := Run(env, before);
            var chat := ChatFrom(s, e, p);
            Granted(env, events, p, a, b) == Granted(env, before, p, a, b) +
              if chat.Some? && ChatStep(s.players[p].limiter, e.now, chat.value.text).1.Relayed? && a <= e.now <= b
              then 1 else 0
  {
    hide Step, Enabled, ChatFrom, ChatStep, RelayedBetween;
    var before, e := events[..|events| - 1], events[|events| - 1];
    var s := Run(env, before);
    NotReconnected(env, s, e, p);
    LimiterFollowsChat(env, before, p);
    var chat, arrivals := ChatFrom(s, e, p), Arrivals(env, events, p);
    ChatFromIsNow(s, e, p);
    if chat.Some? {
      assert arrivals[..|arrivals| - 1] == Arrivals(env, before, p);
      RunStep(FRESH, arrivals);
      var (l0, vs0) := ChatRun(FRESH, Arrivals(env, before, p));
      var (l1, o) := ChatStep(l0, e.now, chat.value.text);
      CountsStep(vs0, Verdict(e.now, l1.start, o), 0, a, b);
    } else {
      assert arrivals == Arrivals(env, before, p);
    }
  }

  /** What an event adds to what is heard: at most one line, of a player it comes from and whose limiter grants it. */
  lemma EventNews(env: Env, s: ServerState, e: Event, q: Peer, id: PlayerId)
    requires id != SERVER_ID
    ensures var n := Chats(News(s, Step(env, s, e), q), id);
            |n| <= 1 && (n != [] ==> e.Received? && GetsThrough(s, e, id))
  {
    hide Step, Chats, News, Hears, ChatFrom, ChatStep;
    if e.Received? {
      PacketNews(env, s, e, q, id);
    } else {
      OtherNews(env, s, e, q, id);
    }
  }

  /** How things stand with `id` in a run: unheard before it is given out, within what its holder was granted. */
  ghost predicate WithinGrant(env: Env, events: seq<Event>, id: PlayerId, q: Peer, a: int, b: int)
    requires a <= b
  {
    var s, heard := Run(env, events), HeardBetween(env, events, id, q, a, b);
    && (id >= s.nextId ==> heard == 0)
    && (forall p | HasId(s.players, p, id) :: heard <= Granted(env, events, p, a, b))
    && heard <= IntervalBound(b - a)
  }

  /** Who got a line through still holds the id and is connected. */
  lemma SpeakerStays(env: Env, s: ServerState, e: Event, id: PlayerId, p: Peer)
    requires IdsOk(s) && e.Received? && p in s.players && s.players[p].id == id && ChatFrom(s, e, p).Some?
    ensures HasId(s.players, p, id) && HasId(Step(env, s, e).players, p, id) && id < s.nextId
    ensures forall o | HasId(Step(env, s, e).players, o, id) :: o == p
  {
    hide Step, ParseBody, ChatStep;
    PacketChanges(env, s, e);
  }

  lemma GrantStep(env: Env, events: seq<Event>, id: PlayerId, q: Peer, a: int, b: int)
    requires SaneArithmetic(env) && events != [] && EnabledRun(env, events) && id != SERVER_ID && a <= b
    requires WithinGrant(env, events[..|events| - 1], id, q, a, b)
    requires forall p :: Granted(env, events, p, a, b) <= IntervalBound(b - a)
    ensures WithinGrant(env, events, id, q, a, b)
  {
    hide Step, Enabled, Chats, News, Granted, IntervalBound, GetsThrough, ChatFrom, ChatStep;
    var before, e := events[..|events| - 1], events[|events| - 1];
    var s, t := Run(env, before), Run(env, events);
    EventNews(env, s, e, q, id);
    Reachable(env, before);
    StepIds(env, s, e);
    forall p | HasId(t.players, p, id)
      ensures HeardBetween(env, events, id, q, a, b) <= Granted(env, events, p, a, b)
    {
      if HasId(s.players, p, id) {
        GrantedStep(env, events, p, a, b);
        HeardOf(s, e, id, p);
      } else {
        NotHeardOf(s, e, id);
      }
    }
    if HeardBetween(env, events, id, q, a, b) > HeardBetween(env, before, id, q, a, b) {
      var p := Speaker(s, e, id);
      SpeakerStays(env, s, e, id, p);
    }
  }

  lemma Speaker(s: ServerState, e: Event, id: PlayerId) returns (p: Peer)
    requires GetsThrough(s, e, id)
    ensures HasId(s.players, p, id) && ChatFrom(s, e, p).Some? && e.Received?
    ensures ChatStep(s.players[p].limiter, e.now, ChatFrom(s, e, p).value.text).1.Relayed?
  {
    hide ParseBody, ChatStep;
    p :| p in s.players && s.players[p].id == id && ChatFrom(s, e, p).Some? && e.Received?
      && ChatStep(s.players[p].limiter, e.now, ChatFrom(s, e, p).value.text).1.Relayed?;
  }

  /** A line of `id` that gets through is one of its holder's. */
  lemma HeardOf(s: ServerState, e: Event, id: PlayerId, p: Peer)
    requires IdsOk(s) && HasId(s.players, p, id)
    ensures GetsThrough(s, e, id) ==>
              ChatFrom(s, e, p).Some? && ChatStep(s.players[p].limiter, e.now, ChatFrom(s, e, p).value.text).1.Relayed?
  {
    hide ChatStep, ParseBody;
    if GetsThrough(s, e, id) {
      var o := Speaker(s, e, id);
      assert o == p;
    }
  }

  /** Nobody speaks under an id that is not given out. */
  lemma NotHeardOf(s: ServerState, e: Event, id: PlayerId)
    requires IdsOk(s) && id >= s.nextId
    ensures !GetsThrough(s, e, id)
  {
    hide ChatStep, ParseBody;
    if GetsThrough(s, e, id) {
      var _ := Speaker(s, e, id);
    }
  }

  lemma {:induction false} HeardWithinGrant(env: Env, events: seq<Event>, id: PlayerId, q: Peer, a: int, b: int)
    requires SaneArithmetic(env) && EnabledRun(env, events) && ClockOk(events) && NoCounterWraps(env, events)
    requires id != SERVER_ID && a <= b
    ensures WithinGrant(env, events, id, q, a, b)
  {
    hide Run, Enabled, EnabledRun, WithinGrant, ClockOk, NoCounterWraps, Granted, IntervalBound;
    if events == [] {
      NothingGranted(env, id, q, a, b);
    } else {
      var before := events[..|events| - 1];
      FewerEvents(env, events);
      HeardWithinGrant(env, before, id, q, a, b);
      forall p
        ensures Granted(env, events, p, a, b) <= IntervalBound(b - a)
      {
        GrantBounded(env, events, p, a, b);
      }
      GrantStep(env, events, id, q, a, b);
    }
  }

  lemma NothingGranted(env: Env, id: PlayerId, q: Peer, a: int, b: int)
    requires a <= b
    ensures WithinGrant(env, [], id, q, a, b)
  {
    BoundIsNatural(b - a);
  }

  lemma FewerEvents(env: Env, events: seq<Event>)
    requires events != [] && ClockOk(events) && NoCounterWraps(env, events) && EnabledRun(env, events)
    ensures var before := events[..|events| - 1];
            ClockOk(before) && NoCounterWraps(env, before) && EnabledRun(env, before)
  {
    hide NoWrap, Arrivals, Enabled, Run;
    var before := events[..|events| - 1];
    assert forall k | 0 <= k <= |before| :: events[..k] == before[..k];
  }

  lemma GrantBounded(env: Env, events: seq<Event>, p: Peer, a: int, b: int)
    requires ClockOk(events) && NoCounterWraps(env, events) && a <= b
    ensures Granted(env, events, p, a, b) <= IntervalBound(b - a)
  {
    hide NoWrap, Arrivals, ClockOk, RelayedBetween, ChatRun, IntervalBound;
    assert events[..|events|] == events;
    ArrivalsOrdered(env, events, p, LatestTime(events));
    RelayedInInterval(Arrivals(env, events, p), a, b);
  }

  /** Over any run of the server, in any stretch of time, at most 6 * (ceil(length / 5 s) + 1) chat lines of one
      player get into anybody's log. */
  lemma ChatFlood(env: Env, events: seq<Event>, id: PlayerId, q: Peer, a: int, b: int)
    requires SaneArithmetic(env) && EnabledRun(env, events) && ClockOk(events) && NoCounterWraps(env, events)
    requires id != SERVER_ID && a <= b
    ensures HeardBetween(env, events, id, q, a, b) <= IntervalBound(b - a)
    ensures b - a == CHAT_WINDOW ==> HeardBetween(env, events, id, q, a, b) <= 12
  {
    hide Run, HeardBetween, NoCounterWraps, ClockOk, Granted;
    HeardWithinGrant(env, events, id, q, a, b);
  }

  ghost function LatestTime(events: seq<Event>): (now: int)
    ensures forall i | 0 <= i < |events| && events[i].Received? :: events[i].now <= now
  {
    if events == [] then 0
    else
      var before, e := LatestTime(events[..|events| - 1]), events[|events| - 1];
      if e.Received? && e.now > before then e.now else before
  }
}
