/** What the server answers: to a hello, to a new name, to the first packet of a stranger, and to the console. */
module LobbyAnswers {
  import opened Types
  import opened Packet
  import opened Protocol
  import opened Names
  import opened Chat
  import opened ClientView
  import opened ServerModel
  import opened Lobby
  import opened LobbySteps
  import opened LobbyRuns

  // ---- who hears what ---------------------------------------------------------------

  /** Everyone who hears in `h` hears exactly `ms`, nobody else anything. */
  ghost predicate EveryoneHears(h: ServerState, s: ServerState, t: ServerState, except: Option<Peer>, ms: seq<Msg>) {
    t.logs.Keys == s.logs.Keys &&
    forall q | q in s.logs :: t.logs[q] == s.logs[q] + if Hears(h, q, except) then ms else []
  }

  /** The same peers hear in both. */
  ghost predicate SameHearers(s: ServerState, t: ServerState) {
    forall q, except: Option<Peer> :: Hears(s, q, except) <==> Hears(t, q, except)
  }

  lemma BroadcastHeard(h: ServerState, s: ServerState, m: Msg, except: Option<Peer>)
    requires forall q :: Hears(h, q, except) <==> Hears(s, q, except)
    ensures EveryoneHears(h, s, Broadcast(s, m, except), except, [m])
    ensures SameHearers(s, Broadcast(s, m, except))
  {}

  lemma HeardThen(h: ServerState, s: ServerState, t: ServerState, u: ServerState, except: Option<Peer>, ms: seq<Msg>,
                  ns: seq<Msg>)
    requires EveryoneHears(h, s, t, except, ms) && EveryoneHears(h, t, u, except, ns)
    ensures EveryoneHears(h, s, u, except, ms + ns)
  {
    hide Hears;
    forall q | q in s.logs
      ensures u.logs[q] == s.logs[q] + if Hears(h, q, except) then ms + ns else []
    {
      assert s.logs[q] + ms + ns == s.logs[q] + (ms + ns);
    }
  }

  /** `m` and then a line of server chat. */
  lemma AnnouncedHeard(h: ServerState, s: ServerState, m: Msg, text: Bytes)
    requires SameHearers(h, s)
    ensures EveryoneHears(h, s, ServerChat(Broadcast(s, m, None), text), None, [m, ChatBroadcast(SERVER_ID, text)])
  {
    hide Hears, Broadcast, EveryoneHears;
    var t := Broadcast(s, m, None);
    BroadcastHeard(h, s, m, None);
    BroadcastHeard(h, t, ChatBroadcast(SERVER_ID, text), None);
    HeardThen(h, s, t, ServerChat(t, text), None, [m], [ChatBroadcast(SERVER_ID, text)]);
    assert [m] + [ChatBroadcast(SERVER_ID, text)] == [m, ChatBroadcast(SERVER_ID, text)];
  }

  lemma NothingHeard(h: ServerState, s: ServerState, except: Option<Peer>)
    ensures EveryoneHears(h, s, s, except, [])
  {}

  // ---- packets ----------------------------------------------------------------------

  /** A packet of a client's own messages is handled as that message, strings cut. */
  lemma PacketOf(env: Env, s: ServerState, p: Peer, m: Msg, now: int, order: seq<Peer>)
    requires p in s.players && (m.Hello? || s.players[p].handshaked)
    ensures var t, cut := Step(env, s, Received(p, EncodeBytes(m), now, order)), ClampMsg(m);
            && (m.Hello? ==> t == HandleHello(env, s, p, Some(cut), now, order))
            && (m.State? ==> t == HandlePlayerState(env, s, p, Some(cut), now))
            && (m.Chat? ==> t == HandleChat(s, p, Some(cut), now))
            && (m.SetName? ==> t == HandleSetName(s, p, Some(cut)))
  {
    hide ParseBody, Decode, EncodeBytes, HandleHello, HandlePlayerState, HandleChat, HandleSetName;
    var bytes := EncodeBytes(m);
    DecodeEncode(m, []);
    assert bytes + [] == bytes;
    DecodeIs(bytes);
  }

  // ---- the hello --------------------------------------------------------------------

  /** An open connection that has not said hello. */
  ghost predicate Waiting(s: ServerState, p: Peer) { p in s.players && !s.players[p].handshaked && p !in s.closing }

  /** Nobody but `p` is affected. */
  ghost predicate OthersSame(s: ServerState, t: ServerState, p: Peer) {
    && t.players.Keys == s.players.Keys && t.bots == s.bots
    && (forall q | q in s.players && q != p :: t.players[q] == s.players[q])
    && (forall q :: q in t.closing && q != p <==> q in s.closing && q != p)
  }

  /** `p` gets a Reject as its last message, is closed, stays without a handshake, and nothing else happens. */
  ghost predicate Refused(s: ServerState, t: ServerState, p: Peer, reason: Bytes) {
    && t.players == s.players && t.bots == s.bots && t.nextId == s.nextId && t.updates == s.updates
    && t.closing == s.closing + {p} && Roster(t) == Roster(s)
    && p in s.logs && t.logs == s.logs[p := s.logs[p] + [Reject(reason)]]
  }

  lemma KickRefuses(s: ServerState, p: Peer, reason: Bytes)
    requires p in s.logs && p in s.updates && p !in s.closing
    ensures Refused(s, Kick(s, p, reason), p, reason)
  {
    hide Members, AsMap;
  }

  /** What a hello of the right version brings about. */
  ghost predicate Admits(env: Env, s: ServerState, t: ServerState, p: Peer, name: Bytes, gameVersion: u32) {
    var id := s.nextId;
    && OthersSame(s, t, p) && t.closing == s.closing && t.nextId == id + 1
    && p in t.players && t.players[p].handshaked && t.players[p].id == id
    && t.players[p].name == name && t.players[p].gameVersion == gameVersion && !t.players[p].hasState
    && id !in Roster(s) && Roster(t) == Roster(s)[id := name]
    && p in t.logs && t.logs[p] != []
    && t.logs[p][0] == Welcome(id, if env.tickRate < 255 then env.tickRate else 255, env.name, env.motd)
    && Fold(t.logs[p]) == View(id, Roster(s))
    && (forall q | q in s.logs && q != p ::
          && q in t.logs
          && t.logs[q] == s.logs[q] +
               if Hears(s, q, None)
               then [Joined(id, name), ChatBroadcast(SERVER_ID, name + Ascii(" joined the game"))]
               else [])
  }

  lemma JoinedLogs(env: Env, s: ServerState, p: Peer, name: Bytes, version: u32, now: int, order: seq<Peer>, q: Peer)
    requires Waiting(s, p) && q != p && q in s.logs
    ensures var t := Join(env, s, p, name, version, now, order);
            && q in t.logs
            && t.logs[q] == s.logs[q] +
                 if Hears(s, q, None)
                 then [Joined(s.nextId, name), ChatBroadcast(SERVER_ID, name + Ascii(" joined the game"))]
                 else []
  {
    hide Greeting, Increment, Ascii;
    var joined, chat := Joined(s.nextId, name), ChatBroadcast(SERVER_ID, name + Ascii(" joined the game"));
    assert s.logs[q] + [joined] + [chat] == s.logs[q] + [joined, chat];
    assert s.logs[q] + [] == s.logs[q];
  }

  lemma JoinedSelf(env: Env, s: ServerState, p: Peer, name: Bytes, version: u32, now: int, order: seq<Peer>)
    requires Waiting(s, p) && p in s.logs && p in s.updates && s.logs[p] == []
    ensures var t := Join(env, s, p, name, version, now, order);
            && p in t.logs && t.closing == s.closing && t.bots == s.bots && t.nextId == Increment(s.nextId)
            && t.players == s.players[p := s.players[p].(id := s.nextId, name := name, gameVersion := version,
                handshaked := true)]
            && Greeting(env, s, s.nextId, order, NowMs(env, now)) <= t.logs[p]
  {
    hide Greeting, Ascii;
  }

  lemma GreetingOpens(env: Env, s: ServerState, id: PlayerId, order: seq<Peer>, stamp: u32)
    ensures var g := Greeting(env, s, id, order, stamp); g != [] && g[0] == WelcomeFor(env, id)
  {}

  lemma WaitingLog(s: ServerState, p: Peer)
    requires Inv(s) && Waiting(s, p)
    ensures p in s.logs && p in s.updates && s.logs[p] == [] && s.players[p] == NEW_PLAYER
  {
    assert LogOk(s, p) && PlayerOk(s.players[p]);
  }

  lemma AgreedLog(t: ServerState, p: Peer)
    requires Inv(t) && p in t.players && t.players[p].handshaked && p !in t.closing
    ensures p in t.logs && Fold(t.logs[p]) == View(t.players[p].id, Roster(t) - {t.players[p].id})
  {
    hide Fold, GoodLog, Roster, JoinedIds;
    assert LogOk(t, p);
  }

  lemma JoinAdmits(env: Env, s: ServerState, p: Peer, raw: Bytes, version: u32, now: int, order: seq<Peer>)
    requires Inv(s) && s.nextId < INVALID_PLAYER_ID && IsOrder(order, s.players.Keys) && Waiting(s, p)
    ensures Admits(env, s, Join(env, s, p, Sanitized(raw), version, now, order), p, Sanitized(raw), version)
  {
    hide Inv, Join, Sanitized, Greeting, Roster, Fold, Hears, Ascii;
    var name := Sanitized(raw);
    var t := Join(env, s, p, name, version, now, order);
    WaitingLog(s, p);
    JoinedSelf(env, s, p, name, version, now, order);
    GreetingOpens(env, s, s.nextId, order, NowMs(env, now));
    JoinKeeps(env, s, p, raw, version, now, order);
    AgreedLog(t, p);
    InvParts(s);
    JoinedRoster(s, t, p);
    forall q | q in s.logs && q != p
      ensures q in t.logs
      ensures t.logs[q] == s.logs[q] +
                if Hears(s, q, None)
                then [Joined(s.nextId, name), ChatBroadcast(SERVER_ID, name + Ascii(" joined the game"))]
                else []
    {
      JoinedLogs(env, s, p, name, version, now, order, q);
    }
  }

  lemma InvParts(s: ServerState)
    requires Inv(s)
    ensures IdsOk(s) && PlayersOk(s.players) && BotsOk(s.bots, s.nextId)
  {}

  lemma JoinedRoster(s: ServerState, t: ServerState, p: Peer)
    requires IdsOk(s) && p in s.players && !s.players[p].handshaked && p in t.players
    requires t.players == s.players[p := t.players[p]] && t.bots == s.bots
    requires t.players[p].handshaked && t.players[p].id == s.nextId
    ensures s.nextId !in Roster(s) && Roster(t) == Roster(s)[s.nextId := t.players[p].name]
    ensures Roster(t) - {s.nextId} == Roster(s)
  {
    hide Members, AsMap, IdsOk;
    AdmittedRoster(s, p, t.players[p]);
  }

  /** A hello of version 3 on an open, waiting connection admits the player under the next id: everyone is told, the
      newcomer is welcomed and told the whole roster, and nobody else changes. A hello of any other version is
      refused. */
  lemma HelloAnswered(env: Env, s: ServerState, p: Peer, version: u32, gameVersion: u32, raw: Bytes, now: int,
                      order: seq<Peer>)
    requires Inv(s) && Waiting(s, p)
    requires Enabled(s, Received(p, EncodeBytes(Hello(version, gameVersion, raw)), now, order))
    ensures var t := Step(env, s, Received(p, EncodeBytes(Hello(version, gameVersion, raw)), now, order));
            && (version == 3 ==> Admits(env, s, t, p, Sanitized(Clamped(raw)), gameVersion))
            && (version != 3 ==> Refused(s, t, p, MismatchText(version)))
  {
    hide Inv, Join, Kick, Admits, Refused, Sanitized, MismatchText, EncodeBytes, Step;
    PacketOf(env, s, p, Hello(version, gameVersion, raw), now, order);
    WaitingLog(s, p);
    if version == 3 {
      JoinAdmits(env, s, p, Clamped(raw), gameVersion, now, order);
    } else {
      KickRefuses(s, p, MismatchText(version));
    }
  }

  /** A player already admitted who says hello again is left alone, or kicked if the version is another now; it stays
      listed until its connection is gone. */
  lemma HelloAgain(env: Env, s: ServerState, p: Peer, version: u32, gameVersion: u32, raw: Bytes, now: int,
                   order: seq<Peer>)
    requires Inv(s) && p in s.players && s.players[p].handshaked && p !in s.closing
    ensures var t := Step(env, s, Received(p, EncodeBytes(Hello(version, gameVersion, raw)), now, order));
            if version == 3 then t == s else Refused(s, t, p, MismatchText(version))
  {
    hide Inv, Join, Kick, Refused, Sanitized, MismatchText, EncodeBytes, Step;
    PacketOf(env, s, p, Hello(version, gameVersion, raw), now, order);
    PresentLog(s, p);
    KickRefuses(s, p, MismatchText(version));
  }

  lemma PresentLog(s: ServerState, p: Peer)
    requires Inv(s) && p in s.players
    ensures p in s.logs && p in s.updates
  {
    hide Fold, GoodLog, Roster, JoinedIds;
    assert LogOk(s, p);
  }

  /** Any other packet on a waiting connection: nothing if it is empty, else a refusal. */
  lemma StrangerRefused(env: Env, s: ServerState, p: Peer, bytes: Bytes, now: int, order: seq<Peer>)
    requires Inv(s) && Waiting(s, p) && (Decode(bytes).None? || !Decode(bytes).value.0.Hello?)
    ensures var t := Step(env, s, Received(p, bytes, now, order));
            if bytes == [] then t == s
            else Refused(s, t, p, Ascii(if bytes[0] == 1 then "Malformed hello" else "Expected handshake"))
  {
    hide Inv, Kick, Refused, ParseBody, Ascii, Join;
    WaitingLog(s, p);
    DecodeIs(bytes);
    KickRefuses(s, p, Ascii("Malformed hello"));
    KickRefuses(s, p, Ascii("Expected handshake"));
    HelloIdOnly(bytes);
  }

  lemma HelloIdOnly(bytes: Bytes)
    ensures Decode(bytes).Some? && bytes != [] && bytes[0] == 1 ==> Decode(bytes).value.0.Hello?
  {
    hide ParseBody;
    DecodeIs(bytes);
  }

  // ---- every handshake came of a hello ----------------------------------------------

  /** Event `k` is a hello of version 3 of `p` on its present connection. */
  ghost predicate HelloAt(events: seq<Event>, p: Peer, k: int, gameVersion: u32) {
    && 0 <= k < |events| && events[k].Received? && events[k].peer == p
    && Decode(events[k].bytes).Some?
    && (var m := Decode(events[k].bytes).value.0; m.Hello? && m.protocolVersion == 3 && m.gameVersion == gameVersion)
    && SameConnection(events, p, k)
  }

  lemma HelloEarlier(events: seq<Event>, p: Peer, k: int, gameVersion: u32)
    requires events != [] && HelloAt(events[..|events| - 1], p, k, gameVersion)
    requires var e := events[|events| - 1]; !((e.Connected? || e.Disconnected?) && e.peer == p)
    ensures HelloAt(events, p, k, gameVersion)
  {
    hide Decode;
    var before := events[..|events| - 1];
    assert forall j | 0 <= j < |before| :: before[j] == events[j];
  }

  /** Only a hello of version 3 makes a handshake. */
  lemma HandshakeByHello(env: Env, s: ServerState, e: Event)
    requires e.Received? && e.peer in s.players && e.peer in Step(env, s, e).players
    ensures var x, y := s.players[e.peer], Step(env, s, e).players[e.peer];
            (y.handshaked == x.handshaked && y.gameVersion == x.gameVersion)
            || (Decode(e.bytes).Some? &&
                (var m := Decode(e.bytes).value.0;
                 m.Hello? && m.protocolVersion == 3 && m.gameVersion == y.gameVersion))
  {
    hide Kick, ParseBody, Decode, Plausible, Sanitized, Ascii, MismatchText, Join, ChatStep, Deliver, Broadcast,
         BroadcastUpdate;
    var (id, c) := GetU8(Cursor(e.bytes, 0, true));
    var body, p := ParseBody(id, c).0, e.peer;
    DecodeIs(e.bytes);
    KeptByKick(s, p, Ascii("Expected handshake"));
    KeptByKick(s, p, Ascii("Malformed hello"));
    if id == HELLO && body.Some? {
      KeptByKick(s, p, MismatchText(body.value.protocolVersion));
      JoinedVersion(env, s, p, Sanitized(body.value.name), body.value.gameVersion, e.now, e.order);
    }
    SendingKeeps(s);
  }

  lemma KeptByKick(s: ServerState, p: Peer, reason: Bytes)
    ensures Kick(s, p, reason).players == s.players
  {}

  lemma JoinedVersion(env: Env, s: ServerState, p: Peer, name: Bytes, version: u32, now: int, order: seq<Peer>)
    requires p in s.players
    ensures var t := Join(env, s, p, name, version, now, order); p in t.players && t.players[p].gameVersion == version
  {
    hide Greeting, Ascii;
  }

  lemma SendingKeeps(s: ServerState)
    ensures forall t: ServerState, p, ms :: Deliver(t, p, ms).players == t.players
    ensures forall t: ServerState, m, except :: Broadcast(t, m, except).players == t.players
    ensures forall t: ServerState, m, except :: BroadcastUpdate(t, m, except).players == t.players
  {}

  /** In every run, every handshaked player's present connection carried a hello of version 3. */
  lemma {:induction false} HelloCameIn(env: Env, events: seq<Event>, p: Peer) returns (k: int)
    requires EnabledRun(env, events) && p in Run(env, events).players && Run(env, events).players[p].handshaked
    ensures HelloAt(events, p, k, Run(env, events).players[p].gameVersion)
  {
    hide Step, Enabled, HelloAt, Decode;
    var n := |events| - 1;
    var before, e := events[..n], events[n];
    var s := Run(env, before);
    k := n;
    if p in s.players && s.players[p].handshaked &&
      s.players[p].gameVersion == Run(env, events).players[p].gameVersion {
      k := HelloCameIn(env, before, p);
      NotReconnected(env, s, e, p);
      HelloEarlier(events, p, k, s.players[p].gameVersion);
    } else if e.Received? && e.peer in s.players {
      PacketChanges(env, s, e);
      HandshakeByHello(env, s, e);
      HelloNow(events, p, Run(env, events).players[p].gameVersion);
    } else if e.Received? {
      IgnoredPacket(env, s, e);
    } else {
      StepEffect(env, s, e);
    }
  }

  lemma HelloNow(events: seq<Event>, p: Peer, gameVersion: u32)
    requires events != [] && events[|events| - 1].Received? && events[|events| - 1].peer == p
    requires var d := Decode(events[|events| - 1].bytes);
             d.Some? && d.value.0.Hello? && d.value.0.protocolVersion == 3 && d.value.0.gameVersion == gameVersion
    ensures HelloAt(events, p, |events| - 1, gameVersion)
  {
    hide Decode;
  }

  // ---- states -----------------------------------------------------------------------

  /** Neither infinite nor a NaN. */
  predicate Number(pattern: u32) { pattern % 0x8000_0000 < 0x7F80_0000 }

  predicate AllNumbers(s: WireState) {
    && Number(s.position.x) && Number(s.position.y) && Number(s.position.z)
    && Number(s.yaw) && Number(s.health) && Number(s.maxHealth)
  }

  lemma PlausibleIff(s: WireState)
    ensures Plausible(s) <==> AllNumbers(s)
  {
    FiniteIff(s.position.x);
    FiniteIff(s.position.y);
    FiniteIff(s.position.z);
    FiniteIff(s.yaw);
    FiniteIff(s.health);
    FiniteIff(s.maxHealth);
  }

  lemma FiniteIff(pattern: u32)
    ensures Finite(pattern) <==> Number(pattern)
  {
    var e, f := pattern / 0x80_0000, pattern % 0x80_0000;
    assert pattern == e * 0x80_0000 + f;
    assert pattern % 0x8000_0000 == (e % 0x100) * 0x80_0000 + f;
  }

  /** A state made of numbers is stored as it is and goes once, under the present millisecond, to everyone else who
      hears and to nobody else; any other changes nothing. */
  lemma StateAnswered(env: Env, s: ServerState, p: Peer, state: WireState, now: int, order: seq<Peer>)
    requires p in s.players && s.players[p].handshaked
    ensures var t, x := Step(env, s, Received(p, EncodeBytes(Msg.State(state)), now, order)), s.players[p];
            if AllNumbers(state) then
              && t == s.(players := s.players[p := x.(state := state, hasState := true)], updates := t.updates)
              && t.updates.Keys == s.updates.Keys
              && forall q | q in s.updates ::
                   t.updates[q] == s.updates[q] +
                     if Hears(s, q, Some(p))
                     then [StateUpdate(x.id, (now - env.startTime) / 1_000_000 % 0x1_0000_0000, state)]
                     else []
            else t == s
  {
    hide Plausible, AllNumbers, EncodeBytes, Step, HandlePacket;
    PlausibleIff(state);
    PacketOf(env, s, p, Msg.State(state), now, order);
  }

  // ---- names ------------------------------------------------------------------------

  /** A new name takes effect under its sanitised form, everyone who hears, the player included, is told it once, and
      nobody else changes; the name one has already does nothing. */
  lemma RenameAnswered(env: Env, s: ServerState, p: Peer, raw: Bytes, now: int, order: seq<Peer>)
    requires Inv(s) && p in s.players && s.players[p].handshaked && |raw| <= 4096
    ensures var t, x, name := Step(env, s, Received(p, EncodeBytes(SetName(raw)), now, order)), s.players[p],
        Sanitized(raw);
            && t.players == s.players[p := x.(name := name)]
            && t.bots == s.bots && t.nextId == s.nextId && t.closing == s.closing && t.updates == s.updates
            && Roster(t) == Roster(s)[x.id := name]
            && EveryoneHears(s, s, t, None, if name != x.name then [Renamed(x.id, name)] else [])
  {
    hide Inv, Step, EncodeBytes, Sanitized, Roster, EveryoneHears, Hears, Broadcast;
    PacketOf(env, s, p, SetName(raw), now, order);
    InvParts(s);
    var x, name := s.players[p], Sanitized(raw);
    var s1 := s.(players := s.players[p := x.(name := name)]);
    RenamedRoster(s, p, name);
    NothingHeard(s, s, None);
    RenamedHearers(s, p, name);
    BroadcastHeard(s, s1, Renamed(x.id, name), None);
    BroadcastOnlyLogs(s1, Renamed(x.id, name), None);
    SameLogsHeard(s, s1, Broadcast(s1, Renamed(x.id, name), None), None, [Renamed(x.id, name)]);
    assert name == x.name ==> s1 == s;
  }

  lemma BroadcastOnlyLogs(s: ServerState, m: Msg, except: Option<Peer>)
    ensures Broadcast(s, m, except) == s.(logs := Broadcast(s, m, except).logs)
    ensures Roster(Broadcast(s, m, except)) == Roster(s)
  {
    hide Members, AsMap;
  }

  lemma SameLogsHeard(s: ServerState, s1: ServerState, t: ServerState, except: Option<Peer>, ms: seq<Msg>)
    requires s1.logs == s.logs && EveryoneHears(s, s1, t, except, ms)
    ensures EveryoneHears(s, s, t, except, ms)
  {
    hide Hears;
  }

  lemma RenamedHearers(s: ServerState, p: Peer, name: Bytes)
    requires p in s.players
    ensures var s1 := s.(players := s.players[p := s.players[p].(name := name)]);
            SameHearers(s, s1) && s1.logs == s.logs
    ensures var s1 := s.(players := s.players[p := s.players[p].(name := name)]);
            forall q :: Hears(s, q, None) <==> Hears(s1, q, None)
  {}

  lemma RenamedRoster(s: ServerState, p: Peer, name: Bytes)
    requires IdsOk(s) && p in s.players && s.players[p].handshaked
    ensures Roster(s.(players := s.players[p := s.players[p].(name := name)])) == Roster(s)[s.players[p].id := name]
  {
    hide Roster, IdsOk;
    RenamingRoster(s, p, name);
  }

  // ---- bots and the console ---------------------------------------------------------

  /** A new bot: the next id, its name listed, everyone told, nobody else changed. */
  lemma BotJoins(s: ServerState, mode: Mode, raw: Bytes)
    requires Inv(s) && s.nextId < INVALID_PLAYER_ID
    ensures var t, id, name := AddBot(s, mode, raw), s.nextId, BotName(s.nextId, raw);
            && t.players == s.players && t.closing == s.closing && t.updates == s.updates && t.nextId == id + 1
            && t.bots == s.bots + [Bot(id, name, mode, INVALID_PLAYER_ID, false, ZERO_STATE, 0.0)]
            && id !in Roster(s) && Roster(t) == Roster(s)[id := name]
            && EveryoneHears(s, s, t, None, [Joined(id, name),
                ChatBroadcast(SERVER_ID, name + Ascii(" joined the game"))])
  {
    hide Inv, Roster, EveryoneHears, Hears, Broadcast, BotName, Ascii;
    InvParts(s);
    var bot := Bot(s.nextId, BotName(s.nextId, raw), mode, INVALID_PLAYER_ID, false, ZERO_STATE, 0.0);
    var s1 := WithBot(s, bot);
    WithBotRoster(s, bot);
    BotHearers(s, s1);
    AnnouncedHeard(s, s1, Joined(bot.id, bot.name), bot.name + Ascii(" joined the game"));
    SameLogsHeard(s, s1, AddBot(s, mode, raw), None,
                  [Joined(bot.id, bot.name), ChatBroadcast(SERVER_ID, bot.name + Ascii(" joined the game"))]);
    BroadcastOnlyLogs(s1, Joined(bot.id, bot.name), None);
    BroadcastOnlyLogs(Broadcast(s1, Joined(bot.id, bot.name), None),
                      ChatBroadcast(SERVER_ID, bot.name + Ascii(" joined the game")), None);
  }

  lemma BotHearers(s: ServerState, s1: ServerState)
    requires s1.players == s.players && s1.logs == s.logs && s1.updates == s.updates && s1.closing == s.closing
    ensures SameHearers(s, s1)
  {}

  /** Removing a bot: exactly that bot goes, everyone is told; an id no bot has changes nothing. */
  lemma BotLeaves(s: ServerState, id: PlayerId)
    requires Inv(s)
    ensures (forall i | 0 <= i < |s.bots| :: s.bots[i].id != id) ==> RemoveBot(s, id) == s
    ensures forall i | 0 <= i < |s.bots| && s.bots[i].id == id ::
              var t, name := RemoveBot(s, id), s.bots[i].name;
              && t.players == s.players && t.closing == s.closing && t.updates == s.updates && t.nextId == s.nextId
              && t.bots == s.bots[..i] + s.bots[i + 1..] && Roster(t) == Roster(s) - {id}
              && EveryoneHears(s, s, t, None, [Left(id), ChatBroadcast(SERVER_ID, name + Ascii(" left the game"))])
  {
    hide Inv, Roster, EveryoneHears, Hears, Broadcast, Ascii;
    InvParts(s);
    forall i | 0 <= i < |s.bots| && s.bots[i].id == id
      ensures var t, name := RemoveBot(s, id), s.bots[i].name;
              && t.players == s.players && t.closing == s.closing && t.updates == s.updates && t.nextId == s.nextId
              && t.bots == s.bots[..i] + s.bots[i + 1..] && Roster(t) == Roster(s) - {id}
              && EveryoneHears(s, s, t, None, [Left(id), ChatBroadcast(SERVER_ID, name + Ascii(" left the game"))])
    {
      BotLeavesAt(s, i);
    }
  }

  lemma BotLeavesAt(s: ServerState, i: nat)
    requires IdsOk(s) && i < |s.bots|
    ensures var id, name := s.bots[i].id, s.bots[i].name;
            var t := RemoveBot(s, id);
            && t.players == s.players && t.closing == s.closing && t.updates == s.updates && t.nextId == s.nextId
            && t.bots == s.bots[..i] + s.bots[i + 1..] && Roster(t) == Roster(s) - {id}
            && EveryoneHears(s, s, t, None, [Left(id), ChatBroadcast(SERVER_ID, name + Ascii(" left the game"))])
  {
    hide Roster, EveryoneHears, Hears, Broadcast, Ascii;
    var id, text := s.bots[i].id, s.bots[i].name + Ascii(" left the game");
    OnlyBotWithId(s, i);
    RosterWithoutBot(s, i);
    SelfHearers(s);
    AnnouncedHeard(s, s, Left(id), text);
    BroadcastOnlyLogs(s, Left(id), None);
    BroadcastOnlyLogs(Broadcast(s, Left(id), None), ChatBroadcast(SERVER_ID, text), None);
    var told := ServerChat(Broadcast(s, Left(id), None), text);
    RosterOfParts(RemoveBot(s, id), WithoutBot(s, i));
    HeardSameLogs(s, s, told, RemoveBot(s, id), None, [Left(id), ChatBroadcast(SERVER_ID, text)]);
  }

  lemma OnlyBotWithId(s: ServerState, i: nat)
    requires IdsOk(s) && i < |s.bots|
    ensures FindBot(s.bots, s.bots[i].id) == i
  {}

  lemma SelfHearers(s: ServerState)
    ensures SameHearers(s, s)
  {}

  lemma RosterOfParts(s: ServerState, t: ServerState)
    requires s.players == t.players && s.bots == t.bots
    ensures Roster(s) == Roster(t)
  {}

  lemma HeardSameLogs(h: ServerState, s: ServerState, t: ServerState, t1: ServerState, except: Option<Peer>,
                      ms: seq<Msg>)
    requires EveryoneHears(h, s, t, except, ms) && t1.logs == t.logs
    ensures EveryoneHears(h, s, t1, except, ms)
  {
    hide Hears;
  }

  /** The kick command: a bot with the id is removed; else the player with the id gets a Reject as its last message
      and is closed; else nothing happens. */
  lemma KickAnswered(s: ServerState, id: PlayerId, reason: Bytes)
    requires Inv(s)
    ensures var t := KickCommand(s, id, reason);
            && ((exists i :: 0 <= i < |s.bots| && s.bots[i].id == id) ==> t == RemoveBot(s, id))
            && (forall p | HasId(s.players, p, id) ::
                  && t.players == s.players && t.bots == s.bots && t.nextId == s.nextId && t.closing == s.closing + {p}
                  && p in s.logs
                  && t.logs == if p in s.closing then s.logs else s.logs[p := s.logs[p] + [Reject(reason)]])
            && ((forall i | 0 <= i < |s.bots| :: s.bots[i].id != id) && (forall p :: !HasId(s.players, p, id)) ==>
                t == s)
  {
    hide Roster, Fold, GoodLog, GoodOrRejected, Agrees, Announced, BotsOk, PlayersOk;
    forall p | HasId(s.players, p, id)
      ensures p in s.logs && p in s.updates && PlayerWithId(s.players, id) == Some(p) && FindBot(s.bots, id) == |s.bots|
    {
      assert LogOk(s, p);
      OnlyPlayerWithId(s, p, id);
    }
  }

  lemma OnlyPlayerWithId(s: ServerState, p: Peer, id: PlayerId)
    requires IdsOk(s) && HasId(s.players, p, id)
    ensures PlayerWithId(s.players, id) == Some(p) && FindBot(s.bots, id) == |s.bots|
  {
    assert forall i | 0 <= i < |s.bots| :: s.bots[i] in s.bots;
  }

  /** What the console says everyone hears once. */
  lemma SayHeard(s: ServerState, text: Bytes)
    ensures EveryoneHears(s, s, ServerChat(s, text), None, [ChatBroadcast(SERVER_ID, text)])
    ensures ServerChat(s, text) == s.(logs := ServerChat(s, text).logs)
  {
    hide EveryoneHears, Hears, Broadcast;
    SelfHearers(s);
    BroadcastHeard(s, s, ChatBroadcast(SERVER_ID, text), None);
    BroadcastOnlyLogs(s, ChatBroadcast(SERVER_ID, text), None);
  }

  /** When a player's connection ends, everyone else who hears is told, and it is off the roster. */
  lemma LeaveAnswered(s: ServerState, p: Peer)
    requires Inv(s) && p in s.players && s.players[p].handshaked
    ensures var t, x := Disconnect(s, p), s.players[p];
            && t.players == s.players - {p} && t.bots == s.bots && t.closing == s.closing - {p}
            && Roster(t) == Roster(s) - {x.id}
            && EveryoneHears(s, s, t, Some(p), [Left(x.id), ChatBroadcast(SERVER_ID, x.name + Ascii(" left the game"))])
  {
    hide Inv, Roster, EveryoneHears, Hears, Broadcast, Ascii;
    InvParts(s);
    var x, gone := s.players[p], Gone(s, p);
    var ms := [Left(x.id), ChatBroadcast(SERVER_ID, x.name + Ascii(" left the game"))];
    GoneRoster(s, p);
    SelfHearers(gone);
    AnnouncedHeard(gone, gone, Left(x.id), x.name + Ascii(" left the game"));
    BroadcastOnlyLogs(gone, Left(x.id), None);
    BroadcastOnlyLogs(Broadcast(gone, Left(x.id), None), ms[1], None);
    GoneHearers(s, p, Disconnect(s, p), ms);
  }

  lemma GoneHearers(s: ServerState, p: Peer, t: ServerState, ms: seq<Msg>)
    requires p in s.players && EveryoneHears(Gone(s, p), Gone(s, p), t, None, ms)
    ensures EveryoneHears(s, s, t, Some(p), ms)
  {}

  // ---- the bots' pass ---------------------------------------------------------------

  function PassUpdates(bots: seq<Bot>, stamp: u32): seq<Msg> {
    if bots == [] then []
    else
      var b := bots[|bots| - 1];
      PassUpdates(bots[..|bots| - 1], stamp) + if b.hasState then [StateUpdate(b.id, stamp, b.state)] else []
  }

  /** A pass sends everyone who hears one update of every bot that has a state after it, in order. */
  lemma PassTells(env: Env, s: ServerState, now: int, q: Peer)
    requires PassDue(s, now) && q in s.updates
    ensures var t := UpdateBots(env, s, now);
            && q in t.updates
            && t.updates[q] == s.updates[q] + if Hears(s, q, None) then PassUpdates(t.bots, NowMs(env, now)) else []
  {
    hide Hears, DriveBots;
    var s1 := s.(lastBotUpdate := now);
    PartPassTells(env, s1, |s.bots|, BotDt(s, now), NowMs(env, now), q);
    SameHearing(s, s1, q);
    var t := UpdateBots(env, s, now);
    assert t.bots[..|s.bots|] == t.bots;
  }

  lemma SameHearing(s: ServerState, t: ServerState, q: Peer)
    requires t.players == s.players && t.closing == s.closing && q in s.updates && q in t.updates && t.logs == s.logs
    ensures Hears(s, q, None) == Hears(t, q, None)
  {}

  lemma {:induction false} PartPassTells(env: Env, s: ServerState, n: nat, dt: real, stamp: u32, q: Peer)
    requires n <= |s.bots| && q in s.updates
    ensures var t := DriveBots(env, s, n, dt, stamp);
            && q in t.updates
            && t.updates[q] == s.updates[q] + if Hears(s, q, None) then PassUpdates(t.bots[..n], stamp) else []
  {
    hide Hears, DriveBot, Target, BroadcastUpdate, PassUpdates;
    if n == 0 {
      NoUpdates(stamp);
    } else {
      PartPassTells(env, s, n - 1, dt, stamp, q);
      var before, t := DriveBots(env, s, n - 1, dt, stamp), DriveBots(env, s, n, dt, stamp);
      DrivenBots(env, s, n - 1, dt, stamp);
      DrivenBots(env, s, n, dt, stamp);
      var bot := t.bots[n - 1];
      var after := before.(bots := before.bots[n - 1 := bot]);
      SameHearing(s, after, q);
      assert t.bots[..n] == before.bots[..n - 1] + [bot];
      OneBotMore(before.bots[..n - 1], bot, stamp, s.updates[q]);
      if bot.hasState {
        UpdateHeard(after, StateUpdate(bot.id, stamp, bot.state), q);
      }
    }
  }

  lemma NoUpdates(stamp: u32)
    ensures PassUpdates([], stamp) == []
  {}

  lemma OneBotMore(bots: seq<Bot>, bot: Bot, stamp: u32, log: seq<Msg>)
    ensures log + PassUpdates(bots + [bot], stamp) ==
              if bot.hasState then log + PassUpdates(bots, stamp) + [StateUpdate(bot.id, stamp, bot.state)]
              else log + PassUpdates(bots, stamp)
  {
    assert (bots + [bot])[..|bots|] == bots;
  }

  lemma UpdateHeard(s: ServerState, m: Msg, q: Peer)
    requires q in s.updates
    ensures var t := BroadcastUpdate(s, m, None);
            && q in t.updates && t.bots == s.bots
            && t.updates[q] == if Hears(s, q, None) then s.updates[q] + [m] else s.updates[q]
  {
    hide Hears;
  }
}
