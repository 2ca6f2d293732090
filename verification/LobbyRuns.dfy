/** Ids, bots, names and chat over whole runs of the lobby server. */
module LobbyRuns {
  import opened Types
  import opened Packet
  import opened Protocol
  import opened Names
  import opened Chat
  import opened ClientView
  import opened ServerModel
  import opened Lobby
  import opened LobbySteps
  import opened Angles

  // ---- ids --------------------------------------------------------------------------

  /** Ids of players and bots are distinct, handed out and never the reserved ones. */
  lemma IdentityInEveryRun(env: Env, events: seq<Event>)
    requires SaneArithmetic(env) && EnabledRun(env, events)
    ensures var s := Run(env, events);
            && (forall p | p in s.players ::
                  if s.players[p].handshaked then 1 <= s.players[p].id < s.nextId <= INVALID_PLAYER_ID
                  else s.players[p].id == INVALID_PLAYER_ID && !s.players[p].hasState)
            && (forall p, q | && p in s.players && q in s.players && p != q
                              && s.players[p].handshaked && s.players[q].handshaked ::
                  s.players[p].id != s.players[q].id)
            && (forall i, j | 0 <= i < j < |s.bots| :: s.bots[i].id != s.bots[j].id)
            && (forall p, b | p in s.players && b in s.bots && s.players[p].handshaked :: s.players[p].id != b.id)
            && (forall b | b in s.bots :: 1 <= b.id < s.nextId)
  {
    hide Run, LogsOk, BotsOk, GoodName, Plausible;
    Reachable(env, events);
  }

  /** Everyone's name passes the sanitiser unchanged, and every stored state is finite. */
  lemma NamesAndStatesInEveryRun(env: Env, events: seq<Event>)
    requires SaneArithmetic(env) && EnabledRun(env, events)
    ensures var s := Run(env, events);
            && (forall p | p in s.players && s.players[p].handshaked ::
                  && Sanitized(s.players[p].name) == s.players[p].name
                  && (s.players[p].hasState ==> Plausible(s.players[p].state)))
            && (forall b | b in s.bots :: Sanitized(b.name) == b.name && (b.hasState ==> Plausible(b.state)))
            && (forall p, m | p in s.players && p in s.updates && m in s.updates[p] ::
                m.StateUpdate? && Plausible(m.state))
  {
    hide Run, Sanitized, GoodName, Plausible, IdsHold, Fold, Roster;
    Reachable(env, events);
    var s := Run(env, events);
    forall n
      ensures Sanitized(n) == n <==> GoodName(n)
    {
      FixedPointIffGood(n);
    }
    forall p, m | p in s.players && p in s.updates && m in s.updates[p]
      ensures UpdateOk(m)
    {
      assert LogOk(s, p);
    }
  }

  ghost function BotIds(bots: seq<Bot>): set<PlayerId> { set b | b in bots :: b.id }

  /** Whoever holds an id after an event held it before, or just got it from the counter. */
  ghost predicate IdsKept(s: ServerState, t: ServerState) {
    && s.nextId <= t.nextId
    && (forall p: Peer, id: PlayerId | HasId(t.players, p, id) :: HasId(s.players, p, id) || s.nextId <= id < t.nextId)
    && (forall id | id in BotIds(t.bots) :: id in BotIds(s.bots) || s.nextId <= id < t.nextId)
  }

  /** The chat message an event carries from `p`, if `p` may chat. */
  function ChatFrom(s: ServerState, e: Event, p: Peer): Option<Arrival> {
    if e.Received? && e.peer == p && p in s.players && s.players[p].handshaked then
      var (id, c) := GetU8(Cursor(e.bytes, 0, true));
      if c.ok && id == CHAT && ParseBody(id, c).0.Some?
      then Some(Arrival(e.now, ParseBody(id, c).0.value.text))
      else None
    else None
  }

  /** Where an event leaves the limiter of `p`. */
  function Moved(s: ServerState, e: Event, p: Peer): Limiter
    requires p in s.players
  {
    var chat := ChatFrom(s, e, p);
    if chat.Some? then ChatStep(s.players[p].limiter, chat.value.now, chat.value.text).0 else s.players[p].limiter
  }

  /** What a packet of `p` may do to the state: change `p`'s own record, and the id and handshake of
      that only by a hello. */
  ghost predicate PacketEffect(s: ServerState, t: ServerState, p: Peer) {
    && t.bots == s.bots
    && p in t.players && p in s.players && t.players == s.players[p := t.players[p]]
    && (if t.players[p].handshaked == s.players[p].handshaked
        then t.players[p].id == s.players[p].id && t.nextId == s.nextId
        else t.players[p].id == s.nextId && t.nextId == Increment(s.nextId) && t.players[p].handshaked)
  }

  lemma KickEffect(s: ServerState, p: Peer, reason: Bytes)
    requires p in s.players
    ensures PacketEffect(s, Kick(s, p, reason), p) && Kick(s, p, reason).players == s.players
  {}

  lemma JoinEffect(env: Env, s: ServerState, p: Peer, name: Bytes, version: u32, now: int, order: seq<Peer>)
    requires p in s.players && !s.players[p].handshaked
    ensures PacketEffect(s, Join(env, s, p, name, version, now, order), p)
    ensures Join(env, s, p, name, version, now, order).players[p].limiter == s.players[p].limiter
  {
    hide Greeting, Increment;
  }

  lemma StateEffect(env: Env, s: ServerState, p: Peer, msg: Option<Msg>, now: int)
    requires p in s.players && (msg.Some? ==> msg.value.State?)
    ensures PacketEffect(s, HandlePlayerState(env, s, p, msg, now), p)
    ensures HandlePlayerState(env, s, p, msg, now).players[p].limiter == s.players[p].limiter
  {
    hide Plausible;
    assert s.players == s.players[p := s.players[p]];
  }

  lemma ChatEffect(s: ServerState, p: Peer, msg: Option<Msg>, now: int)
    requires p in s.players && (msg.Some? ==> msg.value.Chat?)
    ensures PacketEffect(s, HandleChat(s, p, msg, now), p)
    ensures HandleChat(s, p, msg, now).players[p].limiter
         == if msg.Some? then ChatStep(s.players[p].limiter, now, msg.value.text).0 else s.players[p].limiter
  {
    hide ChatStep;
    assert s.players == s.players[p := s.players[p]];
  }

  lemma SetNameEffect(s: ServerState, p: Peer, msg: Option<Msg>)
    requires p in s.players && (msg.Some? ==> msg.value.SetName?)
    ensures PacketEffect(s, HandleSetName(s, p, msg), p)
    ensures HandleSetName(s, p, msg).players[p].limiter == s.players[p].limiter
  {
    hide Sanitized;
    assert s.players == s.players[p := s.players[p]];
  }

  lemma HelloEffect(env: Env, s: ServerState, p: Peer, hello: Option<Msg>, now: int, order: seq<Peer>)
    requires p in s.players && (hello.Some? ==> hello.value.Hello?)
    ensures PacketEffect(s, HandleHello(env, s, p, hello, now, order), p)
    ensures HandleHello(env, s, p, hello, now, order).players[p].limiter == s.players[p].limiter
  {
    hide Join, Kick, Sanitized;
    KickEffect(s, p, Ascii("Malformed hello"));
    assert s.players == s.players[p := s.players[p]];
    if hello.Some? {
      KickEffect(s, p, MismatchText(hello.value.protocolVersion));
      if !s.players[p].handshaked {
        JoinEffect(env, s, p, Sanitized(hello.value.name), hello.value.gameVersion, now, order);
      }
    }
  }

  lemma PacketChanges(env: Env, s: ServerState, e: Event)
    requires e.Received? && e.peer in s.players
    ensures PacketEffect(s, Step(env, s, e), e.peer)
    ensures Step(env, s, e).players[e.peer].limiter == Moved(s, e, e.peer)
  {
    hide HandleHello, HandlePlayerState, HandleChat, HandleSetName, Kick, ParseBody, ChatStep;
    var (id, c) := GetU8(Cursor(e.bytes, 0, true));
    var body := ParseBody(id, c).0;
    KickEffect(s, e.peer, Ascii("Expected handshake"));
    assert s.players == s.players[e.peer := s.players[e.peer]];
    if id == HELLO {
      HelloEffect(env, s, e.peer, body, e.now, e.order);
    } else if id == STATE {
      StateEffect(env, s, e.peer, body, e.now);
    } else if id == CHAT {
      ChatEffect(s, e.peer, body, e.now);
    } else if id == SET_NAME {
      SetNameEffect(s, e.peer, body);
    }
  }

  lemma {:induction false} RemoveAllIds(s: ServerState)
    ensures RemoveAllBots(s).players == s.players && RemoveAllBots(s).nextId == s.nextId && RemoveAllBots(s).bots == []
    decreases |s.bots|
  {
    if s.bots != [] {
      RemoveAllIds(RemoveBot(s, s.bots[|s.bots| - 1].id));
    }
  }

  lemma RemoveBotIds(s: ServerState, id: PlayerId)
    ensures RemoveBot(s, id).players == s.players && RemoveBot(s, id).nextId == s.nextId
    ensures BotIds(RemoveBot(s, id).bots) <= BotIds(s.bots)
  {}

  lemma {:induction false} DrivenBots(env: Env, s: ServerState, n: nat, dt: real, stamp: u32)
    requires n <= |s.bots|
    ensures var bots := DriveBots(env, s, n, dt, stamp).bots;
            && (forall i | 0 <= i < n ::
                  bots[i] == DriveBot(env, s.players, s.bots[i], Target(s.players, s.bots[i]), dt))
            && (forall i | n <= i < |bots| :: bots[i] == s.bots[i])
  {
    hide DriveBot, Target;
    if n > 0 {
      DrivenBots(env, s, n - 1, dt, stamp);
    }
  }

  lemma UpdateBotsIds(env: Env, s: ServerState, now: int)
    ensures UpdateBots(env, s, now).players == s.players && UpdateBots(env, s, now).nextId == s.nextId
    ensures BotIds(UpdateBots(env, s, now).bots) <= BotIds(s.bots)
  {
    if !Skipped(s, now) {
      var s1 := s.(lastBotUpdate := now);
      var t := UpdateBots(env, s, now);
      DrivenBots(env, s1, |s.bots|, BotDt(s, now), NowMs(env, now));
      forall b | b in t.bots
        ensures b.id in BotIds(s.bots)
      {
        var i :| 0 <= i < |t.bots| && t.bots[i] == b;
        DrivenSame(env, s.players, s.bots[i], Target(s.players, s.bots[i]), BotDt(s, now));
        assert s.bots[i] in s.bots && s.bots[i].id == b.id;
      }
    }
  }

  lemma AddBotIds(s: ServerState, mode: Mode, name: Bytes)
    ensures AddBot(s, mode, name).players == s.players && AddBot(s, mode, name).nextId == Increment(s.nextId)
    ensures BotIds(AddBot(s, mode, name).bots) <= BotIds(s.bots) + {s.nextId}
  {}

  /** What any other event does to the players and to the ids of the bots. */
  lemma StepEffect(env: Env, s: ServerState, e: Event)
    requires Enabled(s, e) && !e.Received?
    ensures Step(env, s, e).players == match e
              case Connected(p) => s.players[p := NEW_PLAYER]
              case Disconnected(p) => s.players - {p}
              case _ => s.players
    ensures Step(env, s, e).nextId == if e.BotAdd? then Increment(s.nextId) else s.nextId
    ensures BotIds(Step(env, s, e).bots) <= BotIds(s.bots) + (if e.BotAdd? then {s.nextId} else {})
  {
    hide RemoveBot, RemoveAllBots, UpdateBots, AddBot, Increment, BotIds;
    assert BotIds([]) == {} by { NoBotIds(); }
    match e {
      case BotsTick(now) => UpdateBotsIds(env, s, now);
      case BotAdd(mode, name) => AddBotIds(s, mode, name);
      case BotRemove(id) => RemoveBotIds(s, id);
      case BotRemoveAll => RemoveAllIds(s);
      case KickId(id, _) => RemoveBotIds(s, id);
      case _ =>
    }
  }

  lemma NoBotIds()
    ensures BotIds([]) == {}
  {}

  lemma StepIds(env: Env, s: ServerState, e: Event)
    requires Enabled(s, e)
    ensures IdsKept(s, Step(env, s, e))
  {
    hide Step, BotIds;
    if !e.Received? {
      StepEffect(env, s, e);
    } else if e.peer in s.players {
      PacketChanges(env, s, e);
    } else {
      IgnoredPacket(env, s, e);
    }
  }

  lemma IgnoredPacket(env: Env, s: ServerState, e: Event)
    requires e.Received? && e.peer !in s.players
    ensures Step(env, s, e) == s
  {}

  ghost predicate Held(s: ServerState, id: PlayerId) {
    (exists p :: p in s.players && HasId(s.players, p, id)) || id in BotIds(s.bots)
  }

  /** An id that was handed out and is no longer held is never held again. So a bot's stale follow id
      never comes to mean another player. */
  lemma {:induction false} NeverReused(env: Env, events: seq<Event>, more: seq<Event>, id: PlayerId)
    requires EnabledRun(env, events + more)
    requires id < Run(env, events).nextId && !Held(Run(env, events), id)
    ensures id < Run(env, events + more).nextId && !Held(Run(env, events + more), id)
  {
    hide Step, Enabled, BotIds;
    var all := events + more;
    if more == [] {
      assert all == events;
    } else {
      var before := more[..|more| - 1];
      assert all[..|all| - 1] == events + before;
      NeverReused(env, events, before, id);
      StepIds(env, Run(env, events + before), more[|more| - 1]);
    }
  }

  /** `p` neither connected nor disconnected after event `k`. */
  ghost predicate SameConnection(events: seq<Event>, p: Peer, k: int)
    requires 0 <= k < |events|
  {
    forall j | k < j < |events| :: !((events[j].Connected? || events[j].Disconnected?) && events[j].peer == p)
  }

  lemma NotReconnected(env: Env, s: ServerState, e: Event, p: Peer)
    requires Enabled(s, e) && p in s.players && p in Step(env, s, e).players
    ensures !((e.Connected? || e.Disconnected?) && e.peer == p)
  {}

  // ---- states -----------------------------------------------------------------------

  predicate PlayerUpdate(x: Player, m: Msg, stamp: u32) {
    x.handshaked && x.hasState && m == StateUpdate(x.id, stamp, x.state)
  }

  predicate BotUpdate(b: Bot, m: Msg, stamp: u32) { b.hasState && m == StateUpdate(b.id, stamp, b.state) }

  lemma {:induction false} PlayerUpdatesListed(players: map<Peer, Player>, order: seq<Peer>, m: Msg, stamp: u32)
    requires m.StateUpdate?
    ensures m in PlayerListing(players, order, stamp) <==>
              exists q :: q in order && q in players && PlayerUpdate(players[q], m, stamp)
  {
    if order != [] {
      var n := |order| - 1;
      PlayerUpdatesListed(players, order[..n], m, stamp);
      assert forall q :: q in order <==> q in order[..n] || q == order[n];
    }
  }

  lemma {:induction false} BotUpdatesListed(bots: seq<Bot>, m: Msg, stamp: u32)
    requires m.StateUpdate?
    ensures m in BotListing(bots, stamp) <==> exists b :: b in bots && BotUpdate(b, m, stamp)
  {
    if bots != [] {
      var n := |bots| - 1;
      BotUpdatesListed(bots[..n], m, stamp);
      assert bots == bots[..n] + [bots[n]];
      assert m in BotListing(bots, stamp) <==> m in BotListing(bots[..n], stamp) || BotUpdate(bots[n], m, stamp);
    }
  }

  /** Every update comes after the join of its id. */
  ghost predicate Led(log: seq<Msg>) {
    forall i | 0 <= i < |log| && log[i].StateUpdate? ::
      exists j :: 0 <= j < i && log[j].Joined? && log[j].id == log[i].id
  }

  lemma LedAppend(log: seq<Msg>, more: seq<Msg>)
    requires Led(log) && Led(more)
    ensures Led(log + more)
  {
    var all := log + more;
    forall i | 0 <= i < |all| && all[i].StateUpdate?
      ensures exists j :: 0 <= j < i && all[j].Joined? && all[j].id == all[i].id
    {
      if i < |log| {
        assert all[i] == log[i];
        var j :| 0 <= j < i && log[j].Joined? && log[j].id == log[i].id;
        assert all[j] == log[j];
      } else {
        var k := i - |log|;
        assert all[i] == more[k];
        var j :| 0 <= j < k && more[j].Joined? && more[j].id == more[k].id;
        assert all[|log| + j] == more[j];
      }
    }
  }

  lemma IntroduceLed(id: PlayerId, name: Bytes, hasState: bool, state: WireState, stamp: u32)
    ensures Led(Introduce(id, name, hasState, state, stamp)) && Led([])
  {
    var ms := Introduce(id, name, hasState, state, stamp);
    assert ms[0] == Joined(id, name);
  }

  lemma {:induction false} PlayersLed(players: map<Peer, Player>, order: seq<Peer>, stamp: u32)
    ensures Led(PlayerListing(players, order, stamp))
  {
    hide Led, Introduce;
    IntroduceLed(0, [], false, ZERO_STATE, stamp);
    if order != [] {
      var n, q := |order| - 1, order[|order| - 1];
      PlayersLed(players, order[..n], stamp);
      if q in players && players[q].handshaked {
        var x := players[q];
        IntroduceLed(x.id, x.name, x.hasState, x.state, stamp);
        LedAppend(PlayerListing(players, order[..n], stamp), Introduce(x.id, x.name, x.hasState, x.state, stamp));
      } else {
        assert PlayerListing(players, order, stamp) == PlayerListing(players, order[..n], stamp);
      }
    }
  }

  lemma {:induction false} BotsLed(bots: seq<Bot>, stamp: u32)
    ensures Led(BotListing(bots, stamp))
  {
    hide Led, Introduce;
    IntroduceLed(0, [], false, ZERO_STATE, stamp);
    if bots != [] {
      var n, b := |bots| - 1, bots[|bots| - 1];
      BotsLed(bots[..n], stamp);
      IntroduceLed(b.id, b.name, b.hasState, b.state, stamp);
      LedAppend(BotListing(bots[..n], stamp), Introduce(b.id, b.name, b.hasState, b.state, stamp));
    }
  }

  /** In the greeting nobody's state comes before the join: no placeholder is ever needed for it. */
  lemma JoinedBeforeState(env: Env, s: ServerState, id: PlayerId, order: seq<Peer>, stamp: u32)
    ensures Led(Greeting(env, s, id, order, stamp))
  {
    hide Led, PlayerListing, BotListing;
    PlayersLed(s.players, order, stamp);
    BotsLed(s.bots, stamp);
    WelcomeLed(env, id);
    LedAppend([WelcomeFor(env, id)], PlayerListing(s.players, order, stamp));
    LedAppend([WelcomeFor(env, id)] + PlayerListing(s.players, order, stamp), BotListing(s.bots, stamp));
  }

  lemma WelcomeLed(env: Env, id: PlayerId)
    ensures Led([WelcomeFor(env, id)])
  {}

  /** How many updates of `id` a log holds. */
  function CountUpdates(log: seq<Msg>, id: PlayerId): nat {
    if log == [] then 0
    else CountUpdates(log[..|log| - 1], id) + if log[|log| - 1].StateUpdate? && log[|log| - 1].id == id then 1 else 0
  }

  lemma {:induction false} CountAppend(log: seq<Msg>, more: seq<Msg>, id: PlayerId)
    ensures CountUpdates(log + more, id) == CountUpdates(log, id) + CountUpdates(more, id)
  {
    if more == [] {
      assert log + more == log;
    } else {
      var n := |more| - 1;
      CountAppend(log, more[..n], id);
      assert (log + more)[..|log + more| - 1] == log + more[..n];
    }
  }

  lemma CountIntroduce(who: PlayerId, name: Bytes, hasState: bool, state: WireState, stamp: u32, id: PlayerId)
    ensures CountUpdates(Introduce(who, name, hasState, state, stamp), id) == if hasState && who == id then 1 else 0
  {
    var one, two := [Joined(who, name)], [StateUpdate(who, stamp, state)];
    CountAppend([], one, id);
    assert one[..0] == [] && two[..0] == [];
    CountAppend(one, two, id);
  }

  predicate Located(x: Player, id: PlayerId) { x.handshaked && x.hasState && x.id == id }

  lemma {:induction false} PlayersCounted(players: map<Peer, Player>, order: seq<Peer>, stamp: u32, id: PlayerId)
    requires DistinctIds(players) && Distinct(order)
    ensures CountUpdates(PlayerListing(players, order, stamp), id) ==
              if exists q :: q in order && q in players && Located(players[q], id) then 1 else 0
  {
    hide CountUpdates, Introduce;
    if order == [] {
      NothingCounted(id);
    } else {
      var n, q := |order| - 1, order[|order| - 1];
      PlayersCounted(players, order[..n], stamp, id);
      assert forall p :: p in order <==> p in order[..n] || p == q;
      assert q !in order[..n];
      if q in players && players[q].handshaked {
        var x := players[q];
        CountAppend(PlayerListing(players, order[..n], stamp), Introduce(x.id, x.name, x.hasState, x.state, stamp), id);
        CountIntroduce(x.id, x.name, x.hasState, x.state, stamp, id);
      } else {
        assert PlayerListing(players, order, stamp) == PlayerListing(players, order[..n], stamp);
      }
    }
  }

  lemma NothingCounted(id: PlayerId)
    ensures CountUpdates([], id) == 0
  {}

  lemma {:induction false} BotsCounted(bots: seq<Bot>, stamp: u32, id: PlayerId)
    requires forall i, j | 0 <= i < j < |bots| :: bots[i].id != bots[j].id
    ensures CountUpdates(BotListing(bots, stamp), id) ==
            if exists b :: b in bots && b.hasState && b.id == id then 1 else 0
  {
    hide CountUpdates, Introduce;
    if bots == [] {
      NothingCounted(id);
    } else {
      var n, b := |bots| - 1, bots[|bots| - 1];
      BotsCounted(bots[..n], stamp, id);
      assert bots == bots[..n] + [b];
      CountAppend(BotListing(bots[..n], stamp), Introduce(b.id, b.name, b.hasState, b.state, stamp), id);
      CountIntroduce(b.id, b.name, b.hasState, b.state, stamp, id);
    }
  }

  /** The greeting tells a newcomer where everyone is who has been somewhere: an update is in it exactly if it is
      the state of a player or bot under the one stamp, and then it is the only one of its id. */
  lemma GreetingTellsStates(env: Env, s: ServerState, id: PlayerId, order: seq<Peer>, stamp: u32, m: Msg)
    requires IdsOk(s) && IsOrder(order, s.players.Keys) && m.StateUpdate?
    ensures m in Greeting(env, s, id, order, stamp) <==>
              || (exists q :: q in s.players && PlayerUpdate(s.players[q], m, stamp))
              || (exists b :: b in s.bots && BotUpdate(b, m, stamp))
    ensures m in Greeting(env, s, id, order, stamp) ==> CountUpdates(Greeting(env, s, id, order, stamp), m.id) == 1
  {
    hide CountUpdates, PlayerListing, BotListing;
    PlayerUpdatesListed(s.players, order, m, stamp);
    BotUpdatesListed(s.bots, m, stamp);
    if q :| q in s.players && PlayerUpdate(s.players[q], m, stamp) {
      assert q in order && Located(s.players[q], m.id);
    }
    var first := [WelcomeFor(env, id)];
    var players, bots := PlayerListing(s.players, order, stamp), BotListing(s.bots, stamp);
    PlayersCounted(s.players, order, stamp, m.id);
    BotsCounted(s.bots, stamp, m.id);
    CountAppend(first + players, bots, m.id);
    CountAppend(first, players, m.id);
    WelcomeCounted(env, id, m.id);
  }

  lemma WelcomeCounted(env: Env, own: PlayerId, id: PlayerId)
    ensures CountUpdates([WelcomeFor(env, own)], id) == 0
  {}

  /** A plausible state reaches every other open, handshaked connection once and nobody else; an implausible
      one changes nothing. */
  lemma StateRelayed(env: Env, s: ServerState, p: Peer, msg: Msg, now: int, q: Peer)
    requires DistinctIds(s.players) && p in s.players && s.players[p].handshaked && msg.State? && q in s.updates
    ensures var t := HandlePlayerState(env, s, p, Some(msg), now);
            var update := StateUpdate(s.players[p].id, NowMs(env, now), msg.state);
            && t.logs == s.logs && q in t.updates
            && (!Plausible(msg.state) ==> t == s)
            && (Plausible(msg.state) ==>
                  && (t.updates[q] == s.updates[q] + [update] <==> Hears(s, q, Some(p)))
                  && (t.updates[q] == s.updates[q] <==> !Hears(s, q, Some(p)))
                  && PlayerWithId(t.players, s.players[p].id) == Some(p) && t.players[p].hasState
                  && t.players[p].state == msg.state)
  {
    hide Plausible;
    var t := HandlePlayerState(env, s, p, Some(msg), now);
    if Plausible(msg.state) {
      assert HasId(t.players, p, s.players[p].id);
      assert DistinctIds(t.players);
    }
  }

  // ---- bots -------------------------------------------------------------------------

  /** There are bots, and the last pass is 50 ms ago or more. */
  predicate PassDue(s: ServerState, now: int) { s.bots != [] && now - s.lastBotUpdate >= 50_000_000 }

  /** A pass is noted when it is due, and otherwise nothing happens at all: passes are 50 ms apart at least. */
  lemma PassesApart(env: Env, s: ServerState, now: int)
    ensures var t := UpdateBots(env, s, now);
            if PassDue(s, now) then t.lastBotUpdate == now && t.players == s.players && t.logs == s.logs else t == s
  {
    hide DriveBots;
    if PassDue(s, now) {
      var t := DriveBots(env, s.(lastBotUpdate := now), |s.bots|, BotDt(s, now), NowMs(env, now));
    }
  }

  /** After an update pass every bot follows a player with a state, or nobody and has none itself.
      It stays with its player while it can and otherwise takes the one with the smallest id. */
  lemma PassAttaches(env: Env, s: ServerState, now: int, i: nat)
    requires DistinctIds(s.players) && PassDue(s, now) && i < |s.bots|
    ensures i < |UpdateBots(env, s, now).bots|
    ensures var before, after := s.bots[i], UpdateBots(env, s, now).bots[i];
            if exists p :: HasState(s.players, p) && s.players[p].id == before.follow then
              after.hasState && after.follow == before.follow
            else if exists p :: HasState(s.players, p) then
              after.hasState && exists p :: IsFirst(s.players, p) && s.players[p].id == after.follow
            else !after.hasState && after.follow == INVALID_PLAYER_ID
  {
    var s1 := s.(lastBotUpdate := now);
    DrivenBots(env, s1, |s.bots|, BotDt(s, now), NowMs(env, now));
    var before := s.bots[i];
    var followed := PlayerWithId(s.players, before.follow);
    if p :| HasState(s.players, p) && s.players[p].id == before.follow {
      assert HasId(s.players, p, before.follow);
      assert followed == Some(p);
    }
  }

  /** A mirror bot stands `BOT_MIRROR_OFFSET` east of its player and copies everything else. */
  lemma MirrorCopies(env: Env, s: ServerState, now: int, i: nat, p: Peer)
    requires DistinctIds(s.players) && PassDue(s, now) && i < |s.bots| && s.bots[i].mode == Mirror
    requires i < |UpdateBots(env, s, now).bots|
    requires HasId(s.players, p, UpdateBots(env, s, now).bots[i].follow) && UpdateBots(env, s, now).bots[i].hasState
    ensures var lead := s.players[p].state;
            UpdateBots(env, s, now).bots[i].state ==
              lead.(position := lead.position.(x := env.floatAdd(lead.position.x, BOT_MIRROR_OFFSET)))
  {
    var s1 := s.(lastBotUpdate := now);
    DrivenBots(env, s1, |s.bots|, BotDt(s, now), NowMs(env, now));
    var t := Target(s.players, s.bots[i]);
    assert t == Some(p);
  }

  /** An orbit bot walks on by its speed times the time of the pass, up to whole turns, stays on the
      circle around its player, at the same height and in the same space, and faces the way it goes. */
  lemma OrbitTurns(env: Env, s: ServerState, now: int, i: nat, p: Peer)
    requires DistinctIds(s.players) && PassDue(s, now) && i < |s.bots| && s.bots[i].mode == Orbit
    requires i < |UpdateBots(env, s, now).bots|
    requires HasId(s.players, p, UpdateBots(env, s, now).bots[i].follow) && UpdateBots(env, s, now).bots[i].hasState
    ensures var before, after, lead := s.bots[i], UpdateBots(env, s, now).bots[i], s.players[p].state;
            var elapsed := (now - s.lastBotUpdate) as real / 1_000_000_000.0;
            && Congruent(after.phase, before.phase + BOT_ORBIT_SPEED * if elapsed > 0.25 then 0.05 else elapsed)
            && Congruent(OrbitYaw(after.phase), -after.phase) && after.state.yaw == env.floatOf(OrbitYaw(after.phase))
            && after.state.position.x == env.floatAdd(lead.position.x, BOT_ORBIT_RADIUS * env.cos(after.phase))
            && after.state.position.y == env.floatAdd(lead.position.y, BOT_ORBIT_RADIUS * env.sin(after.phase))
            && after.state == lead.(position := after.state.position, yaw := after.state.yaw)
            && after.state.position.z == lead.position.z
  {
    hide Fmod, DriveBot, PlayerWithId, FirstPlayerWithState, Congruent;
    var s1, dt := s.(lastBotUpdate := now), BotDt(s, now);
    DrivenBots(env, s1, |s.bots|, dt, NowMs(env, now));
    var t := Target(s.players, s.bots[i]);
    DrivenFollows(env, s.players, s.bots[i], t, dt, p);
    OneOrbit(env, s.players, s.bots[i], p, dt);
  }

  /** Whoever a driven bot follows is the player it was driven by. */
  lemma DrivenFollows(env: Env, players: map<Peer, Player>, bot: Bot, target: Option<Peer>, dt: real, p: Peer)
    requires DistinctIds(players) && (target.Some? ==> HasState(players, target.value))
    requires var after := DriveBot(env, players, bot, target, dt);
             after.hasState && HasId(players, p, after.follow)
    ensures target == Some(p)
  {
    hide MirrorState, OrbitState, NextPhase;
  }

  lemma OneOrbit(env: Env, players: map<Peer, Player>, bot: Bot, p: Peer, dt: real)
    requires p in players && bot.mode == Orbit
    ensures var after, lead := DriveBot(env, players, bot, Some(p), dt), players[p].state;
            && Congruent(after.phase, bot.phase + BOT_ORBIT_SPEED * dt)
            && Congruent(OrbitYaw(after.phase), -after.phase) && after.state.yaw == env.floatOf(OrbitYaw(after.phase))
            && after.state.position.x == env.floatAdd(lead.position.x, BOT_ORBIT_RADIUS * env.cos(after.phase))
            && after.state.position.y == env.floatAdd(lead.position.y, BOT_ORBIT_RADIUS * env.sin(after.phase))
            && after.state == lead.(position := after.state.position, yaw := after.state.yaw)
            && after.state.position.z == lead.position.z
  {
    hide Fmod, Congruent;
    FmodCongruent(bot.phase + BOT_ORBIT_SPEED * dt);
    var phase := NextPhase(bot.phase, dt);
    FmodCongruent(TWO_PI - phase);
    OneTurnMore(OrbitYaw(phase), -phase);
  }

  lemma FmodCongruent(x: real)
    ensures Congruent(Fmod(x), x)
  {
    CongruentBy(Fmod(x), x, -Trunc(x / TWO_PI));
  }

  lemma OneTurnMore(a: real, b: real)
    requires Congruent(a, TWO_PI + b)
    ensures Congruent(a, b)
  {
    var k: int :| a == TWO_PI + b + Turns(k);
    CongruentBy(a, b, k + 1);
  }

  /** In every run every bot's phase, and the yaw made of it, stays in [0, 2 pi). */
  lemma OrbitInEveryRun(env: Env, events: seq<Event>)
    requires SaneArithmetic(env) && EnabledRun(env, events)
    ensures forall b | b in Run(env, events).bots :: 0.0 <= b.phase < TWO_PI && 0.0 <= OrbitYaw(b.phase) < TWO_PI
  {
    hide Run, Fmod, LogsOk, PlayersOk, GoodName, Plausible, IdsHold;
    Reachable(env, events);
    forall b | b in Run(env, events).bots
      ensures 0.0 <= b.phase < TWO_PI && 0.0 <= OrbitYaw(b.phase) < TWO_PI
    {
      assert BotOk(b, Run(env, events).nextId);
      FmodRange(TWO_PI - b.phase);
    }
  }

  /** The farewells of "bot remove all", from the last bot to the first. */
  function Farewells(bots: seq<Bot>): seq<Msg> {
    if bots == [] then []
    else
      var b := bots[|bots| - 1];
      [Left(b.id), ChatBroadcast(SERVER_ID, b.name + Ascii(" left the game"))] + Farewells(bots[..|bots| - 1])
  }

  function CountLeft(ms: seq<Msg>): nat {
    if ms == [] then 0 else (if ms[0].Left? then 1 else 0) + CountLeft(ms[1..])
  }

  lemma LastBotFound(s: ServerState)
    requires s.bots != [] && forall i, j | 0 <= i < j < |s.bots| :: s.bots[i].id != s.bots[j].id
    ensures FindBot(s.bots, s.bots[|s.bots| - 1].id) == |s.bots| - 1
    ensures RemoveBot(s, s.bots[|s.bots| - 1].id).bots == s.bots[..|s.bots| - 1]
  {
    var id := s.bots[|s.bots| - 1].id;
    var i := FindBot(s.bots, id);
    assert i == |s.bots| - 1;
  }

  /** "bot remove all" ends with no bot; everyone hears exactly one PlayerLeft per bot. */
  lemma {:induction false} RemoveAllTells(s: ServerState, q: Peer)
    requires forall i, j | 0 <= i < j < |s.bots| :: s.bots[i].id != s.bots[j].id
    requires Hears(s, q, None)
    ensures RemoveAllBots(s).bots == [] && Hears(RemoveAllBots(s), q, None)
    ensures RemoveAllBots(s).logs[q] == s.logs[q] + Farewells(s.bots)
    ensures CountLeft(Farewells(s.bots)) == |s.bots|
    decreases |s.bots|
  {
    hide Hears, RemoveBot, CountLeft, Ascii, FindBot;
    HearsLog(s, q);
    if s.bots == [] {
      assert s.logs[q] + [] == s.logs[q];
      assert CountLeft([]) == 0 by { CountNone(); }
    } else {
      var b := s.bots[|s.bots| - 1];
      LastBotFound(s);
      OneFarewell(s, q);
      var t := RemoveBot(s, b.id);
      RemoveAllTells(t, q);
      FarewellsSplit(s.bots, s.logs[q]);
    }
  }

  lemma HearsLog(s: ServerState, q: Peer)
    requires Hears(s, q, None)
    ensures q in s.logs
  {}

  lemma CountNone()
    ensures CountLeft([]) == 0
  {}

  lemma FarewellsSplit(bots: seq<Bot>, log: seq<Msg>)
    requires bots != []
    ensures var b, rest := bots[|bots| - 1], Farewells(bots[..|bots| - 1]);
            log + [Left(b.id)] + [ChatBroadcast(SERVER_ID, b.name + Ascii(" left the game"))] + rest ==
              log + Farewells(bots)
    ensures CountLeft(Farewells(bots)) == 1 + CountLeft(Farewells(bots[..|bots| - 1]))
  {
    hide Ascii;
    var b, rest := bots[|bots| - 1], Farewells(bots[..|bots| - 1]);
    TwoThenRest(log, Left(b.id), ChatBroadcast(SERVER_ID, b.name + Ascii(" left the game")), rest);
  }

  lemma TwoThenRest(log: seq<Msg>, m: Msg, n: Msg, rest: seq<Msg>)
    requires m.Left? && !n.Left?
    ensures log + [m] + [n] + rest == log + ([m, n] + rest)
    ensures CountLeft([m, n] + rest) == 1 + CountLeft(rest)
  {
    var all := [m, n] + rest;
    assert all[1..] == [n] + rest;
    assert all[1..][1..] == rest;
  }

  lemma OneFarewell(s: ServerState, q: Peer)
    requires s.bots != [] && Hears(s, q, None) && FindBot(s.bots, s.bots[|s.bots| - 1].id) == |s.bots| - 1
    ensures var b := s.bots[|s.bots| - 1];
            && q in RemoveBot(s, b.id).logs
            && RemoveBot(s, b.id).logs[q] ==
                 s.logs[q] + [Left(b.id)] + [ChatBroadcast(SERVER_ID, b.name + Ascii(" left the game"))]
            && Hears(RemoveBot(s, b.id), q, None)
  {}

  // ---- names ------------------------------------------------------------------------

  /** A bot that is given no name is called "Bot" and its id; the sanitiser leaves that alone. */
  lemma DefaultBotName(id: PlayerId)
    ensures var name := BotName(id, []);
            && GoodName(name) && |name| > 3 && name[..3] == [0x42, 0x6F, 0x74]
            && Digits(name[3..]) && DecimalValue(name[3..]) == id
  {
    hide Sanitized, GoodName, Decimal, Digits, DecimalValue;
    assert Ascii("Bot") == [0x42, 0x6F, 0x74];
    DecimalIs(id);
    assert (Ascii("Bot") + Decimal(id))[3..] == Decimal(id);
    BotNameIsGood(id);
    FixedPointIffGood(Ascii("Bot") + Decimal(id));
  }

  /** `p` asks for the same name again and again. */
  function AskAgain(s: ServerState, p: Peer, raw: Bytes, times: nat): ServerState
    requires p in s.players
    ensures p in AskAgain(s, p, raw, times).players
  {
    if times == 0 then s
    else
      var t := AskAgain(s, p, raw, times - 1);
      SecondRenameIsSilent(t, p, SetName(raw));
      HandleSetName(t, p, Some(SetName(raw)))
  }

  /** However often the same raw text is asked for, only the first time changes or sends anything; and not even that
      if it is the text the player said hello with. */
  lemma {:induction false} AskingAgainIsSilent(env: Env, s: ServerState, p: Peer, raw: Bytes, version: u32, now: int,
                                               order: seq<Peer>, times: nat)
    requires p in s.players
    ensures times >= 1 ==> AskAgain(s, p, raw, times) == AskAgain(s, p, raw, 1)
    ensures var t := Join(env, s, p, Sanitized(raw), version, now, order);
            p in t.players && AskAgain(t, p, raw, times) == t
  {
    hide HandleSetName, Join, Sanitized;
    HelloNameIsKept(env, s, p, raw, version, now, order);
    if times >= 1 {
      AskingAgainIsSilent(env, s, p, raw, version, now, order, times - 1);
      if times >= 2 {
        SecondRenameIsSilent(s, p, SetName(raw));
      }
    }
  }

  /** In every run, a player who asks for the name it is listed under changes and sends nothing. */
  lemma ListedNameIsSilent(env: Env, events: seq<Event>, p: Peer)
    requires SaneArithmetic(env) && EnabledRun(env, events)
    requires p in Run(env, events).players && Run(env, events).players[p].handshaked
    ensures var s := Run(env, events); HandleSetName(s, p, Some(SetName(s.players[p].name))) == s
  {
    hide Run, Sanitized;
    NamesAndStatesInEveryRun(env, events);
  }

  /** Repeating a SetName with the same raw text changes and sends nothing more. */
  lemma SecondRenameIsSilent(s: ServerState, p: Peer, msg: Msg)
    requires p in s.players && msg.SetName?
    ensures p in HandleSetName(s, p, Some(msg)).players
    ensures HandleSetName(HandleSetName(s, p, Some(msg)), p, Some(msg)) == HandleSetName(s, p, Some(msg))
  {
    hide Sanitized;
  }

  /** Nor does a SetName with the text the player said hello with. */
  lemma HelloNameIsKept(env: Env, s: ServerState, p: Peer, raw: Bytes, version: u32, now: int, order: seq<Peer>)
    requires p in s.players
    ensures var t := Join(env, s, p, Sanitized(raw), version, now, order);
            p in t.players && HandleSetName(t, p, Some(SetName(raw))) == t
  {
    hide Sanitized, Greeting;
  }
}
