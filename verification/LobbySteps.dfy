/** Every event of the lobby server keeps the invariant. */
module LobbySteps {
  import opened Types
  import opened Packet
  import opened Protocol
  import opened Names
  import opened Chat
  import opened Angles
  import opened ClientView
  import opened ServerModel
  import opened Lobby

  // ---- members after a change -------------------------------------------------------

  lemma SamePlayerMembers(s: ServerState, p: Peer, player: Player)
    requires p in s.players && IdsOk(s)
    requires player.handshaked == s.players[p].handshaked && player.id == s.players[p].id
    requires player.handshaked ==> player.name == s.players[p].name
    ensures Members(s.players[p := player], s.bots) == Members(s.players, s.bots)
  {
    var after := s.players[p := player];
    forall x | x in Members(s.players, s.bots)
      ensures x in Members(after, s.bots)
    {
      if q :| q in s.players && s.players[q].handshaked && x == Member(s.players[q].id, s.players[q].name) {
        assert q in after && after[q].handshaked && x == Member(after[q].id, after[q].name);
      }
    }
    forall x | x in Members(after, s.bots)
      ensures x in Members(s.players, s.bots)
    {
      if q :| q in after && after[q].handshaked && x == Member(after[q].id, after[q].name) {
        assert q in s.players && s.players[q].handshaked && x == Member(s.players[q].id, s.players[q].name);
      }
    }
  }

  lemma SameBotMembers(s: ServerState, i: nat, bot: Bot)
    requires i < |s.bots| && bot.id == s.bots[i].id && bot.name == s.bots[i].name
    ensures Members(s.players, s.bots[i := bot]) == Members(s.players, s.bots)
  {
    var after := s.bots[i := bot];
    forall x | x in Members(s.players, s.bots)
      ensures x in Members(s.players, after)
    {
      if j :| 0 <= j < |s.bots| && x == Member(s.bots[j].id, s.bots[j].name) {
        assert after[j] in after && x == Member(after[j].id, after[j].name);
      }
    }
    forall x | x in Members(s.players, after)
      ensures x in Members(s.players, s.bots)
    {
      if j :| 0 <= j < |after| && x == Member(after[j].id, after[j].name) {
        assert s.bots[j] in s.bots && x == Member(s.bots[j].id, s.bots[j].name);
      }
    }
  }

  lemma MembersWithout(s: ServerState, p: Peer)
    requires p in s.players && IdsOk(s)
    ensures Members(s.players - {p}, s.bots)
         == if s.players[p].handshaked then Members(s.players, s.bots) - {Member(s.players[p].id, s.players[p].name)}
            else Members(s.players, s.bots)
  {
    var after := s.players - {p};
    forall x | x in Members(s.players, s.bots) &&
      !(s.players[p].handshaked && x == Member(s.players[p].id, s.players[p].name))
      ensures x in Members(after, s.bots)
    {
      if q :| q in s.players && s.players[q].handshaked && x == Member(s.players[q].id, s.players[q].name) {
        assert q in after && after[q].handshaked && x == Member(after[q].id, after[q].name);
      }
    }
  }

  lemma MembersWith(s: ServerState, p: Peer, player: Player)
    requires p in s.players ==> !s.players[p].handshaked
    ensures Members(s.players[p := player], s.bots)
         == if player.handshaked then Members(s.players, s.bots) + {Member(player.id, player.name)}
            else Members(s.players, s.bots)
  {
    var after := s.players[p := player];
    assert after[p] == player;
    forall x | x in Members(s.players, s.bots)
      ensures x in Members(after, s.bots)
    {
      if q :| q in s.players && s.players[q].handshaked && x == Member(s.players[q].id, s.players[q].name) {
        assert q in after && after[q].handshaked && x == Member(after[q].id, after[q].name);
      }
    }
  }

  lemma MembersWithoutBot(s: ServerState, i: nat)
    requires i < |s.bots| && IdsOk(s)
    ensures Members(s.players, s.bots[..i] + s.bots[i + 1..]) ==
        Members(s.players, s.bots) - {Member(s.bots[i].id, s.bots[i].name)}
  {
    var after := s.bots[..i] + s.bots[i + 1..];
    assert forall b | b in after :: b in s.bots && b.id != s.bots[i].id;
    assert forall b | b in s.bots :: b == s.bots[i] || b in after;
    forall x | x in Members(s.players, s.bots) && x != Member(s.bots[i].id, s.bots[i].name)
      ensures x in Members(s.players, after)
    {
      if b :| b in s.bots && x == Member(b.id, b.name) {
        assert b in after;
      }
    }
  }

  // ---- connections ------------------------------------------------------------------

  lemma InitialInv()
    ensures Inv(INITIAL)
  {}

  lemma ConnectedParts(s: ServerState, p: Peer)
    requires IdsOk(s) && PlayersOk(s.players) && p !in s.players
    ensures IdsOk(Connect(s, p)) && PlayersOk(Connect(s, p).players) && Roster(Connect(s, p)) == Roster(s)
  {
    hide Members, AsMap;
    MembersWith(s, p, NEW_PLAYER);
  }

  lemma ConnectKeeps(s: ServerState, p: Peer)
    requires Inv(s) && p !in s.players
    ensures Inv(Connect(s, p))
  {
    hide IdsHold, PlayersOk, BotsOk, Roster, Fold, JoinedIds, Agrees, Announced;
    var s1 := Connect(s, p);
    ConnectedParts(s, p);
    forall q | q in s1.players
      ensures LogOk(s1, q)
    {
      if q != p {
        assert LogOk(s, q);
      } else {
        assert GoodLog([]);
      }
    }
  }

  lemma LinkLostKeeps(s: ServerState, p: Peer)
    requires Inv(s) && p in s.players
    ensures Inv(s.(closing := s.closing + {p}))
  {
    var s1 := s.(closing := s.closing + {p});
    forall q | q in s1.players
      ensures LogOk(s1, q)
    {
      assert LogOk(s, q);
    }
  }

  lemma KickKeeps(s: ServerState, p: Peer, reason: Bytes)
    requires Inv(s) && p in s.players
    ensures Inv(Kick(s, p, reason))
  {
    var s1 := Kick(s, p, reason);
    forall q | q in s1.players
      ensures LogOk(s1, q)
    {
      assert LogOk(s, q);
      if q == p && Open(s, p) {
        assert GoodLog(s.logs[p]);
        assert (s.logs[p] + [Reject(reason)])[..|s.logs[p]|] == s.logs[p];
      }
    }
  }

  function Gone(s: ServerState, p: Peer): ServerState {
    s.(players := s.players - {p}, closing := s.closing - {p})
  }

  lemma GoneParts(s: ServerState, p: Peer)
    requires IdsOk(s) && PlayersOk(s.players) && p in s.players
    ensures IdsOk(Gone(s, p)) && PlayersOk(Gone(s, p).players)
    ensures Roster(Gone(s, p)) == if s.players[p].handshaked then Roster(s) - {s.players[p].id} else Roster(s)
    ensures forall q | q in Gone(s, p).players && s.players[q].handshaked && s.players[p].handshaked ::
        s.players[q].id != s.players[p].id
  {
    GoneRoster(s, p);
  }

  lemma GoneRoster(s: ServerState, p: Peer)
    requires IdsOk(s) && p in s.players
    ensures Roster(Gone(s, p)) == if s.players[p].handshaked then Roster(s) - {s.players[p].id} else Roster(s)
  {
    hide Members, AsMap, Functional;
    MembersWithout(s, p);
    if s.players[p].handshaked {
      MembersFunctional(s);
      IsMember(s, p);
      AsMapRemove(Members(s.players, s.bots), Member(s.players[p].id, s.players[p].name));
    }
  }

  lemma IsMember(s: ServerState, p: Peer)
    requires p in s.players && s.players[p].handshaked
    ensures Member(s.players[p].id, s.players[p].name) in Members(s.players, s.bots)
    ensures s.players[p].id in Roster(s)
  {}

  lemma DisconnectKeeps(s: ServerState, p: Peer)
    requires Inv(s)
    ensures Inv(Disconnect(s, p))
  {
    hide IdsHold, PlayersOk, BotsOk, Roster, Fold, JoinedIds, GoodLog, Agrees, Announced;
    if p in s.players {
      var gone := Gone(s, p);
      var id := s.players[p].id;
      GoneParts(s, p);
      forall q | q in gone.players
        ensures SameFor(s, gone, q)
      {
        assert LogOk(s, q);
      }
      if s.players[p].handshaked {
        IsMember(s, p);
        ToldKeeps(s, gone, Left(id), None);
        ChatKeepsLogs(Broadcast(gone, Left(id), None), SERVER_ID, s.players[p].name + Ascii(" left the game"));
      } else {
        forall q | q in gone.players
          ensures LogOk(gone, q)
        {
          assert LogOk(s, q);
        }
      }
    }
  }

  // ---- the handshake ----------------------------------------------------------------

  /** A log under construction for a newcomer: everyone listed so far is `listed`. */
  ghost predicate Greets(log: seq<Msg>, own: PlayerId, names: map<PlayerId, Bytes>) {
    log != [] && GoodLog(log) && Fold(log) == View(own, names) && JoinedIds(log) == names.Keys
  }

  lemma IntroduceStep(log: seq<Msg>, own: PlayerId, names: map<PlayerId, Bytes>, id: PlayerId, name: Bytes,
                      hasState: bool, state: WireState, stamp: u32)
    requires Greets(log, own, names) && id != own && id !in names
    requires GoodName(name) && (hasState ==> Plausible(state))
    ensures Greets(log + Introduce(id, name, hasState, state, stamp), own, names[id := name])
  {
    Snoc(log, Joined(id, name));
    var one := log + [Joined(id, name)];
    if hasState {
      Snoc(one, StateUpdate(id, stamp, state));
      assert log + Introduce(id, name, hasState, state, stamp) == one + [StateUpdate(id, stamp, state)];
    } else {
      assert log + Introduce(id, name, hasState, state, stamp) == one;
    }
  }

  /** The members met on the first part of a walk over the players. */
  ghost function MembersMet(players: map<Peer, Player>, order: seq<Peer>): set<Member> {
    set q | q in order && q in players && players[q].handshaked :: Member(players[q].id, players[q].name)
  }

  lemma {:induction false} PlayersListed(s: ServerState, log: seq<Msg>, own: PlayerId, order: seq<Peer>, stamp: u32)
    returns (names: map<PlayerId, Bytes>)
    requires IdsOk(s) && PlayersOk(s.players)
    requires Greets(log, own, map[]) && own == s.nextId
    requires forall i, j | 0 <= i < j < |order| :: order[i] != order[j]
    ensures Greets(log + PlayerListing(s.players, order, stamp), own, names)
    ensures Lists(names, MembersMet(s.players, order))
  {
    hide Greets, Lists, MembersMet, IdsOk, PlayersOk, Introduce;
    if order == [] {
      names := map[];
      assert log + [] == log;
      NoneMet(s.players);
    } else {
      var n := |order| - 1;
      var q := order[n];
      var before := PlayersListed(s, log, own, order[..n], stamp);
      var told := log + PlayerListing(s.players, order[..n], stamp);
      if q in s.players && s.players[q].handshaked {
        var x := s.players[q];
        names := before[x.id := x.name];
        NotMetYet(s, order, before, x);
        IntroduceStep(told, own, before, x.id, x.name, x.hasState, x.state, stamp);
        assert told + Introduce(x.id, x.name, x.hasState, x.state, stamp) ==
          log + PlayerListing(s.players, order, stamp);
        MetOneMore(s.players, order, before, x);
      } else {
        names := before;
        assert told == log + PlayerListing(s.players, order, stamp);
        MetNoMore(s.players, order);
      }
    }
  }

  lemma NoneMet(players: map<Peer, Player>)
    ensures Lists(map[], MembersMet(players, []))
  {}

  lemma MetNoMore(players: map<Peer, Player>, order: seq<Peer>)
    requires order != [] && !(order[|order| - 1] in players && players[order[|order| - 1]].handshaked)
    ensures MembersMet(players, order) == MembersMet(players, order[..|order| - 1])
  {
    assert forall q | q in order :: q in order[..|order| - 1] || q == order[|order| - 1];
    assert forall q | q in order[..|order| - 1] :: q in order;
  }

  lemma NotMetYet(s: ServerState, order: seq<Peer>, before: map<PlayerId, Bytes>, x: Player)
    requires IdsOk(s) && PlayersOk(s.players)
    requires order != [] && order[|order| - 1] in s.players && x == s.players[order[|order| - 1]] && x.handshaked
    requires forall i, j | 0 <= i < j < |order| :: order[i] != order[j]
    requires Lists(before, MembersMet(s.players, order[..|order| - 1]))
    ensures x.id !in before && x.id != s.nextId && GoodName(x.name) && (x.hasState ==> Plausible(x.state))
  {
    var q := order[|order| - 1];
    assert forall p | p in order[..|order| - 1] :: p in order && p != q;
  }

  lemma MetOneMore(players: map<Peer, Player>, order: seq<Peer>, before: map<PlayerId, Bytes>, x: Player)
    requires order != [] && order[|order| - 1] in players && x == players[order[|order| - 1]] && x.handshaked
    requires Lists(before, MembersMet(players, order[..|order| - 1])) && x.id !in before
    ensures Lists(before[x.id := x.name], MembersMet(players, order))
  {
    var n := |order| - 1;
    assert order[n] in order;
    assert forall q | q in order[..n] :: q in order;
    assert forall q | q in order :: q in order[..n] || q == order[n];
    assert MembersMet(players, order) == MembersMet(players, order[..n]) + {Member(x.id, x.name)};
  }

  lemma {:induction false} BotsListed(s: ServerState, log: seq<Msg>, own: PlayerId, names: map<PlayerId, Bytes>,
                                      n: nat, stamp: u32)
    returns (all: map<PlayerId, Bytes>)
    requires IdsOk(s) && BotsOk(s.bots, s.nextId) && n <= |s.bots|
    requires Greets(log, own, names) && own == s.nextId
    requires Lists(names, Members(s.players, []))
    ensures Greets(log + BotListing(s.bots[..n], stamp), own, all)
    ensures Lists(all, Members(s.players, s.bots[..n]))
  {
    hide Greets, Lists, Members, IdsOk, BotsOk, Introduce;
    if n == 0 {
      all := names;
      assert log + [] == log;
    } else {
      var b := s.bots[n - 1];
      var before := BotsListed(s, log, own, names, n - 1, stamp);
      assert s.bots[..n][..n - 1] == s.bots[..n - 1];
      var told := log + BotListing(s.bots[..n - 1], stamp);
      all := before[b.id := b.name];
      GoodBot(s, n - 1);
      BotIsNew(s, n, before);
      IntroduceStep(told, own, before, b.id, b.name, b.hasState, b.state, stamp);
      assert told + Introduce(b.id, b.name, b.hasState, b.state, stamp) == log + BotListing(s.bots[..n], stamp);
    }
  }

  lemma GoodBot(s: ServerState, i: nat)
    requires IdsOk(s) && BotsOk(s.bots, s.nextId) && i < |s.bots|
    ensures var b := s.bots[i]; b.id != s.nextId && GoodName(b.name) && (b.hasState ==> Plausible(b.state))
  {
    assert s.bots[i] in s.bots;
  }

  lemma BotIsNew(s: ServerState, n: nat, before: map<PlayerId, Bytes>)
    requires IdsOk(s) && 1 <= n <= |s.bots| && Lists(before, Members(s.players, s.bots[..n - 1]))
    ensures s.bots[n - 1].id !in before
    ensures Lists(before[s.bots[n - 1].id := s.bots[n - 1].name], Members(s.players, s.bots[..n]))
  {
    hide Members, IdsHold;
    NotAmongEarlier(s, n);
    assert s.bots[..n] == s.bots[..n - 1] + [s.bots[n - 1]];
    MembersWithBot(s.players, s.bots[..n - 1], s.bots[n - 1]);
  }

  lemma NotAmongEarlier(s: ServerState, n: nat)
    requires IdsOk(s) && 1 <= n <= |s.bots|
    ensures forall x | x in Members(s.players, s.bots[..n - 1]) :: x.id != s.bots[n - 1].id
  {
    assert s.bots[n - 1] in s.bots;
    assert forall i | 0 <= i < n - 1 :: s.bots[..n - 1][i] == s.bots[i] && s.bots[i].id != s.bots[n - 1].id;
  }

  lemma MembersWithBot(players: map<Peer, Player>, bots: seq<Bot>, bot: Bot)
    ensures Members(players, bots + [bot]) == Members(players, bots) + {Member(bot.id, bot.name)}
  {
    var after := bots + [bot];
    assert bot in after;
    assert forall b | b in bots :: b in after;
    assert forall b | b in after :: b in bots || b == bot;
  }

  /** Whatever the walk over the hash map, the greeting tells a newcomer exactly the roster. */
  lemma GreetingTellsRoster(env: Env, s: ServerState, order: seq<Peer>, stamp: u32)
    requires IdsOk(s) && PlayersOk(s.players) && BotsOk(s.bots, s.nextId)
    requires IsOrder(order, s.players.Keys)
    ensures Greets(Greeting(env, s, s.nextId, order, stamp), s.nextId, Roster(s))
  {
    var own := s.nextId;
    var first := [WelcomeFor(env, own)];
    Snoc([], WelcomeFor(env, own));
    assert [] + first == first;
    var names := PlayersListed(s, first, own, order, stamp);
    assert MembersMet(s.players, order) == Members(s.players, []);
    var all := BotsListed(s, first + PlayerListing(s.players, order, stamp), own, names, |s.bots|, stamp);
    assert s.bots[..|s.bots|] == s.bots;
    AsMapIs(Members(s.players, s.bots), all);
  }

  /** The state after the counter and the newcomer's record changed, before anything is sent. */
  function Admitted(s: ServerState, p: Peer, joined: Player): ServerState {
    s.(players := s.players[p := joined], nextId := Increment(s.nextId))
  }

  lemma AdmittedParts(s: ServerState, p: Peer, joined: Player)
    requires IdsOk(s) && PlayersOk(s.players) && BotsOk(s.bots, s.nextId) && PlayerOk(joined)
    requires p in s.players && !s.players[p].handshaked && s.nextId < INVALID_PLAYER_ID
    requires joined.handshaked && joined.id == s.nextId
    ensures var s1 := Admitted(s, p, joined);
            IdsOk(s1) && PlayersOk(s1.players) && BotsOk(s1.bots, s1.nextId)
  {
    hide GoodName, Plausible, BotsOk, IdsHold;
    AdmittedIds(s, p, joined);
    BotsStillOk(s);
  }

  lemma AdmittedIds(s: ServerState, p: Peer, joined: Player)
    requires IdsOk(s) && p in s.players && !s.players[p].handshaked && s.nextId < INVALID_PLAYER_ID
    requires joined.handshaked && joined.id == s.nextId
    ensures IdsOk(Admitted(s, p, joined))
  {}

  lemma BotsStillOk(s: ServerState)
    requires BotsOk(s.bots, s.nextId) && s.nextId < INVALID_PLAYER_ID
    ensures BotsOk(s.bots, Increment(s.nextId))
  {
    hide GoodName, Plausible;
  }

  lemma AdmittedRoster(s: ServerState, p: Peer, joined: Player)
    requires IdsOk(s) && p in s.players && !s.players[p].handshaked
    requires joined.handshaked && joined.id == s.nextId
    ensures Roster(Admitted(s, p, joined)) == Roster(s)[joined.id := joined.name]
    ensures joined.id !in Roster(s) && Roster(s)[joined.id := joined.name] - {joined.id} == Roster(s)
  {
    hide Members, AsMap, Functional, IdsHold;
    MembersFunctional(s);
    RosterIds(s);
    assert joined.id !in Roster(s);
    MembersWith(s, p, joined);
    AsMapAdd(Members(s.players, s.bots), Member(joined.id, joined.name));
  }

  lemma JoinKeeps(env: Env, s: ServerState, p: Peer, raw: Bytes, version: u32, now: int, order: seq<Peer>)
    requires Inv(s) && p in s.players && !s.players[p].handshaked && s.nextId < INVALID_PLAYER_ID
    requires IsOrder(order, s.players.Keys)
    ensures Inv(Join(env, s, p, Sanitized(raw), version, now, order))
  {
    hide Sanitized, GoodName, Roster, IdsHold, PlayersOk, BotsOk, LogOk, Greeting, Fold, JoinedIds;
    SanitizedIsGood(raw);
    var name := Sanitized(raw);
    var id := s.nextId;
    var joined := s.players[p].(id := id, name := name, gameVersion := version, handshaked := true);
    var greeting := Greeting(env, s, id, order, NowMs(env, now));
    FreshPlayer(s, p);
    AdmittedParts(s, p, joined);
    AdmittedRoster(s, p, joined);
    GreetingTellsRoster(env, s, order, NowMs(env, now));
    JoinSent(s, p, joined, greeting);
    ChatKeepsLogs(Broadcast(Deliver(Admitted(s, p, joined), p, greeting), Joined(id, name), Some(p)),
                  SERVER_ID, name + Ascii(" joined the game"));
  }

  lemma FreshPlayer(s: ServerState, p: Peer)
    requires PlayersOk(s.players) && p in s.players && !s.players[p].handshaked
    ensures s.players[p] == NEW_PLAYER
  {}

  lemma JoinSent(s: ServerState, p: Peer, joined: Player, greeting: seq<Msg>)
    requires Inv(s) && p in s.players && !s.players[p].handshaked && s.nextId < INVALID_PLAYER_ID
    requires joined.handshaked && joined.id == s.nextId && GoodName(joined.name)
    requires var s1 := Admitted(s, p, joined);
             && IdsOk(s1) && PlayersOk(s1.players) && BotsOk(s1.bots, s1.nextId)
             && Roster(s1) == Roster(s)[joined.id := joined.name]
    requires Roster(s)[joined.id := joined.name] - {joined.id} == Roster(s) && joined.id !in Roster(s)
    requires Greets(greeting, joined.id, Roster(s))
    ensures Inv(Broadcast(Deliver(Admitted(s, p, joined), p, greeting), Joined(joined.id, joined.name), Some(p)))
  {
    hide IdsHold, PlayersOk, BotsOk, Fold, JoinedIds, GoodName, Members, AsMap, GoodLog, LogOk;
    var s2 := Deliver(Admitted(s, p, joined), p, greeting);
    var m := Joined(joined.id, joined.name);
    forall q | q in s2.players && q != p
      ensures SameFor(s, s2, q)
    {
      assert LogOk(s, q);
      HasLogs(s, q);
    }
    NewcomerLog(s, p, joined, greeting);
    ToldKeeps(s, s2, m, Some(p));
  }

  lemma HasLogs(s: ServerState, q: Peer)
    requires q in s.players && LogOk(s, q)
    ensures q in s.logs && q in s.updates
  {}

  lemma NewcomerLog(s: ServerState, p: Peer, joined: Player, greeting: seq<Msg>)
    requires Inv(s) && p in s.players && !s.players[p].handshaked && s.nextId < INVALID_PLAYER_ID
    requires joined.handshaked && joined.id == s.nextId
    requires Roster(Admitted(s, p, joined)) == Roster(s)[joined.id := joined.name]
    requires Roster(s)[joined.id := joined.name] - {joined.id} == Roster(s)
    requires Greets(greeting, joined.id, Roster(s))
    ensures LogOk(Broadcast(Deliver(Admitted(s, p, joined), p, greeting), Joined(joined.id, joined.name), Some(p)), p)
  {
    hide PlayersOk, BotsOk, Fold, JoinedIds, Members, AsMap, GoodLog;
    assert LogOk(s, p);
    RosterIds(s);
    assert [] + greeting == greeting;
  }

  // ---- messages of a connected player -----------------------------------------------

  lemma PlayerChangeParts(s: ServerState, p: Peer, player: Player)
    requires IdsOk(s) && PlayersOk(s.players) && p in s.players && s.players[p].handshaked && PlayerOk(player)
    requires player.handshaked && player.id == s.players[p].id
    ensures IdsOk(s.(players := s.players[p := player])) && PlayersOk(s.players[p := player])
  {}

  lemma PlayerChangeKeeps(s: ServerState, p: Peer, player: Player)
    requires Inv(s) && p in s.players && s.players[p].handshaked && PlayerOk(player)
    requires player.handshaked && player.id == s.players[p].id && player.name == s.players[p].name
    ensures Inv(s.(players := s.players[p := player])) && Roster(s.(players := s.players[p := player])) == Roster(s)
  {
    hide IdsHold, PlayersOk, BotsOk, Members, AsMap, Fold, JoinedIds, GoodLog, Agrees, Announced;
    var s1 := s.(players := s.players[p := player]);
    SamePlayerMembers(s, p, player);
    PlayerChangeParts(s, p, player);
    forall q | q in s1.players
      ensures LogOk(s1, q)
    {
      assert LogOk(s, q);
    }
  }

  lemma PlayerStateKeeps(env: Env, s: ServerState, p: Peer, msg: Option<Msg>, now: int)
    requires Inv(s) && p in s.players && s.players[p].handshaked && (msg.Some? ==> msg.value.State?)
    ensures Inv(HandlePlayerState(env, s, p, msg, now))
  {
    if msg.Some? && Plausible(msg.value.state) {
      var player := s.players[p].(state := msg.value.state, hasState := true);
      var s1 := s.(players := s.players[p := player]);
      PlayerChangeKeeps(s, p, player);
      IsMember(s1, p);
      UpdateKeepsLogs(s1, player.id, NowMs(env, now), player.state, Some(p));
    }
  }

  lemma ChatMessageKeeps(s: ServerState, p: Peer, msg: Option<Msg>, now: int)
    requires Inv(s) && p in s.players && s.players[p].handshaked && (msg.Some? ==> msg.value.Chat?)
    ensures Inv(HandleChat(s, p, msg, now))
  {
    if msg.Some? {
      var (limiter, outcome) := ChatStep(s.players[p].limiter, now, msg.value.text);
      var player := s.players[p].(limiter := limiter);
      var s1 := s.(players := s.players[p := player]);
      PlayerChangeKeeps(s, p, player);
      match outcome {
        case Warned =>
          var warning := ChatBroadcast(SERVER_ID, SLOW_DOWN);
          WarningKeeps(s1, p, warning);
        case Relayed(text) =>
          ChatKeepsLogs(s1, s.players[p].id, text);
        case _ =>
      }
    }
  }

  lemma WarningKeeps(s: ServerState, p: Peer, warning: Msg)
    requires Inv(s) && p in s.players && s.players[p].handshaked
    requires warning.ChatBroadcast? && warning.from == SERVER_ID
    ensures Inv(Deliver(s, p, [warning]))
  {
    hide IdsHold, PlayersOk, BotsOk, AsMap, Members, Fold, GoodLog, JoinedIds, Announced;
    var s1 := Deliver(s, p, [warning]);
    forall q | q in s1.players
      ensures LogOk(s1, q)
    {
      assert LogOk(s, q);
      if q == p && Open(s, p) {
        WarnedLog(s, p, warning);
      }
    }
  }

  lemma WarnedLog(s: ServerState, p: Peer, warning: Msg)
    requires IdsOk(s) && p in s.players && s.players[p].handshaked && LogOk(s, p) && p !in s.closing
    requires warning.ChatBroadcast? && warning.from == SERVER_ID
    ensures Agrees(s.logs[p] + [warning], s.players[p].id, Roster(s))
    ensures Announced(s.logs[p] + [warning], s.updates[p], s.nextId)
  {
    hide Roster, Fold, JoinedIds;
    AppendAgrees(s.logs[p], s.players[p].id, warning, Roster(s), Roster(s), s.nextId);
  }

  function Renaming(s: ServerState, p: Peer, name: Bytes): ServerState
    requires p in s.players
  {
    s.(players := s.players[p := s.players[p].(name := name)])
  }

  lemma RenamingParts(s: ServerState, p: Peer, name: Bytes)
    requires IdsOk(s) && PlayersOk(s.players) && p in s.players && s.players[p].handshaked && GoodName(name)
    ensures IdsOk(Renaming(s, p, name)) && PlayersOk(Renaming(s, p, name).players)
  {
    hide GoodName;
  }

  lemma RenamingRoster(s: ServerState, p: Peer, name: Bytes)
    requires IdsOk(s) && p in s.players && s.players[p].handshaked
    ensures Roster(Renaming(s, p, name)) == Roster(s)[s.players[p].id := name]
  {
    hide Members, AsMap, Functional, IdsHold;
    MembersFunctional(s);
    RenamedMembers(s, p, name);
    AsMapRename(Members(s.players, s.bots), Member(s.players[p].id, s.players[p].name), name);
  }

  lemma SetNameKeeps(s: ServerState, p: Peer, msg: Option<Msg>)
    requires Inv(s) && p in s.players && s.players[p].handshaked && (msg.Some? ==> msg.value.SetName?)
    ensures Inv(HandleSetName(s, p, msg))
  {
    hide IdsHold, PlayersOk, BotsOk, Roster, GoodName, Sanitized, LogOk;
    if msg.Some? && Sanitized(msg.value.name) != s.players[p].name {
      var name, id := Sanitized(msg.value.name), s.players[p].id;
      SanitizedIsGood(msg.value.name);
      var s1 := Renaming(s, p, name);
      RenamingParts(s, p, name);
      RenamingRoster(s, p, name);
      IsMember(s, p);
      forall q | q in s1.players
        ensures SameFor(s, s1, q)
      {
        assert LogOk(s, q);
        HasLogs(s, q);
      }
      ToldKeeps(s, s1, Renamed(id, name), None);
    }
  }

  lemma RenamedMembers(s: ServerState, p: Peer, name: Bytes)
    requires IdsOk(s) && p in s.players && s.players[p].handshaked
    ensures Members(s.players[p := s.players[p].(name := name)], s.bots)
         == Members(s.players, s.bots) - {Member(s.players[p].id, s.players[p].name)} + {Member(s.players[p].id, name)}
    ensures Member(s.players[p].id, s.players[p].name) in Members(s.players, s.bots)
  {
    var player := s.players[p];
    var without := s.(players := s.players - {p});
    MembersWithout(s, p);
    MembersWith(without, p, player.(name := name));
    assert without.players[p := player.(name := name)] == s.players[p := player.(name := name)];
  }

  lemma PacketKeeps(env: Env, s: ServerState, p: Peer, bytes: Bytes, now: int, order: seq<Peer>)
    requires Inv(s) && s.nextId < INVALID_PLAYER_ID && IsOrder(order, s.players.Keys)
    ensures Inv(HandlePacket(env, s, p, bytes, now, order))
  {
    hide HandlePlayerState, HandleChat, HandleSetName, Inv, ParseBody, Kick, Join;
    var (id, c) := GetU8(Cursor(bytes, 0, true));
    if p in s.players && c.ok {
      var body := ParseBody(id, c).0;
      if !s.players[p].handshaked && id != HELLO {
        KickKeeps(s, p, Ascii("Expected handshake"));
      } else if id == HELLO {
        if body.None? {
          KickKeeps(s, p, Ascii("Malformed hello"));
        } else if body.value.protocolVersion != PROTOCOL_VERSION {
          KickKeeps(s, p, MismatchText(body.value.protocolVersion));
        } else if !s.players[p].handshaked {
          JoinKeeps(env, s, p, body.value.name, body.value.gameVersion, now, order);
        }
      } else if id == STATE {
        PlayerStateKeeps(env, s, p, body, now);
      } else if id == CHAT {
        ChatMessageKeeps(s, p, body, now);
      } else if id == SET_NAME {
        SetNameKeeps(s, p, body);
      }
    }
  }

  // ---- bots -------------------------------------------------------------------------

  function WithBot(s: ServerState, bot: Bot): ServerState {
    s.(bots := s.bots + [bot], nextId := Increment(s.nextId))
  }

  lemma WithBotParts(s: ServerState, bot: Bot)
    requires IdsOk(s) && BotsOk(s.bots, s.nextId) && bot.id == s.nextId < INVALID_PLAYER_ID && BotOk(bot, s.nextId)
    ensures IdsOk(WithBot(s, bot)) && BotsOk(WithBot(s, bot).bots, WithBot(s, bot).nextId)
  {
    hide BotOk;
    var t := WithBot(s, bot);
    forall b | b in t.bots
      ensures b in s.bots || b == bot
    {
    }
    LaterBotsOk(s.bots, s.nextId);
    LaterBotOk(bot, s.nextId);
    assert forall i | 0 <= i < |s.bots| :: t.bots[i] == s.bots[i] && s.bots[i] in s.bots;
  }

  lemma LaterBotOk(bot: Bot, nextId: u32)
    requires BotOk(bot, nextId) && nextId < INVALID_PLAYER_ID
    ensures BotOk(bot, Increment(nextId))
  {
    hide GoodName, Plausible;
  }

  lemma LaterBotsOk(bots: seq<Bot>, nextId: u32)
    requires BotsOk(bots, nextId) && nextId < INVALID_PLAYER_ID
    ensures BotsOk(bots, Increment(nextId))
  {
    hide BotOk;
    forall b | b in bots
      ensures BotOk(b, Increment(nextId))
    {
      LaterBotOk(b, nextId);
    }
  }

  lemma WithBotRoster(s: ServerState, bot: Bot)
    requires IdsOk(s) && bot.id == s.nextId
    ensures Roster(WithBot(s, bot)) == Roster(s)[bot.id := bot.name] && bot.id !in Roster(s)
  {
    hide Members, AsMap, Functional, IdsHold;
    MembersFunctional(s);
    RosterIds(s);
    assert bot.id !in Roster(s);
    MembersWithBot(s.players, s.bots, bot);
    AsMapAdd(Members(s.players, s.bots), Member(bot.id, bot.name));
  }

  lemma AddBotKeeps(s: ServerState, mode: Mode, raw: Bytes)
    requires Inv(s) && s.nextId < INVALID_PLAYER_ID
    ensures Inv(AddBot(s, mode, raw))
  {
    hide IdsHold, PlayersOk, BotsOk, Roster, GoodName, Sanitized, LogOk;
    SanitizedIsGood(if raw == [] then Ascii("Bot") + Decimal(s.nextId) else raw);
    var bot := Bot(s.nextId, BotName(s.nextId, raw), mode, INVALID_PLAYER_ID, false, ZERO_STATE, 0.0);
    var s1 := WithBot(s, bot);
    WithBotParts(s, bot);
    WithBotRoster(s, bot);
    forall q | q in s1.players
      ensures SameFor(s, s1, q)
    {
      assert LogOk(s, q);
      HasLogs(s, q);
    }
    AtLeastOne(s);
    ToldKeeps(s, s1, Joined(bot.id, bot.name), None);
    ChatKeepsLogs(Broadcast(s1, Joined(bot.id, bot.name), None), SERVER_ID, bot.name + Ascii(" joined the game"));
  }

  lemma AtLeastOne(s: ServerState)
    requires IdsOk(s)
    ensures s.nextId >= 1
  {}

  function WithoutBot(s: ServerState, i: nat): ServerState
    requires i < |s.bots|
  {
    s.(bots := s.bots[..i] + s.bots[i + 1..])
  }

  lemma RemoveBotKeeps(s: ServerState, id: PlayerId)
    requires Inv(s)
    ensures Inv(RemoveBot(s, id))
  {
    hide IdsHold, PlayersOk, BotsOk, Roster, LogOk, Broadcast, RemoveBot, WithoutBot, SameFor, Ascii;
    var i := FindBot(s.bots, id);
    RemoveBotIs(s, id);
    if i < |s.bots| {
      var gone := WithoutBot(s, i);
      BotListed(s, i);
      RosterWithoutBot(s, i);
      WithoutBotIds(s, i);
      BotsOkWithout(s, i);
      WithoutBotSame(s, i);
      ToldKeeps(s, gone, Left(id), None);
      ChatKeepsLogs(Broadcast(gone, Left(id), None), SERVER_ID, s.bots[i].name + Ascii(" left the game"));
    }
  }

  lemma RemoveBotIs(s: ServerState, id: PlayerId)
    ensures var i := FindBot(s.bots, id);
            RemoveBot(s, id) ==
              if i == |s.bots| then s
              else ServerChat(Broadcast(WithoutBot(s, i), Left(id), None), s.bots[i].name + Ascii(" left the game"))
  {
    hide Ascii, Broadcast;
    var i := FindBot(s.bots, id);
    if i < |s.bots| {
      var rest := s.bots[..i] + s.bots[i + 1..];
      var m := ChatBroadcast(SERVER_ID, s.bots[i].name + Ascii(" left the game"));
      BroadcastBots(s, Left(id), rest);
      BroadcastBots(Broadcast(s, Left(id), None), m, rest);
    }
  }

  lemma BroadcastBots(s: ServerState, m: Msg, bots: seq<Bot>)
    ensures Broadcast(s.(bots := bots), m, None) == Broadcast(s, m, None).(bots := bots)
  {}

  lemma WithoutBotSame(s: ServerState, i: nat)
    requires Inv(s) && i < |s.bots|
    ensures var gone := WithoutBot(s, i);
            && gone.players == s.players && gone.nextId == s.nextId && gone.closing == s.closing
            && forall q | q in gone.players :: SameFor(s, gone, q)
  {
    hide IdsOk, PlayersOk, BotsOk, Roster, LogOk;
    var gone := WithoutBot(s, i);
    forall q | q in gone.players
      ensures SameFor(s, gone, q)
    {
      assert LogOk(s, q);
      HasLogs(s, q);
    }
  }

  lemma BotsOkWithout(s: ServerState, i: nat)
    requires i < |s.bots| && BotsOk(s.bots, s.nextId)
    ensures BotsOk(WithoutBot(s, i).bots, s.nextId)
  {
    assert forall b | b in WithoutBot(s, i).bots :: b in s.bots;
  }

  lemma RosterWithoutBot(s: ServerState, i: nat)
    requires i < |s.bots| && IdsOk(s)
    ensures Roster(WithoutBot(s, i)) == Roster(s) - {s.bots[i].id}
  {
    hide Members, AsMap, Functional, IdsHold;
    IsBotMember(s, i);
    MembersFunctional(s);
    MembersWithoutBot(s, i);
    AsMapRemove(Members(s.players, s.bots), Member(s.bots[i].id, s.bots[i].name));
  }

  lemma IsBotMember(s: ServerState, i: nat)
    requires i < |s.bots|
    ensures Member(s.bots[i].id, s.bots[i].name) in Members(s.players, s.bots)
  {
    assert s.bots[i] in s.bots;
  }

  lemma WithoutBotIds(s: ServerState, i: nat)
    requires i < |s.bots| && IdsOk(s)
    ensures IdsOk(WithoutBot(s, i))
  {
    var after := s.bots[..i] + s.bots[i + 1..];
    assert forall j | 0 <= j < |after| :: after[j] == s.bots[if j < i then j else j + 1];
  }

  lemma {:induction false} RemoveAllKeeps(s: ServerState)
    requires Inv(s)
    ensures Inv(RemoveAllBots(s)) && RemoveAllBots(s).bots == []
    decreases |s.bots|
  {
    if s.bots != [] {
      var id := s.bots[|s.bots| - 1].id;
      RemoveBotKeeps(s, id);
      RemoveAllKeeps(RemoveBot(s, id));
    }
  }

  lemma DriveBotOk(env: Env, s: ServerState, bot: Bot, target: Option<Peer>, dt: real)
    requires SaneArithmetic(env) && Inv(s) && BotOk(bot, s.nextId) && dt >= 0.0
    requires target.Some? ==> HasState(s.players, target.value)
    ensures BotOk(DriveBot(env, s.players, bot, target, dt), s.nextId)
  {
    if target.Some? {
      assert PlayerOk(s.players[target.value]);
      FmodRange(bot.phase + BOT_ORBIT_SPEED * dt);
      var phase := NextPhase(bot.phase, dt);
      FmodRange(TWO_PI - phase);
    }
  }

  lemma {:induction false} DriveBotsKeep(env: Env, s: ServerState, n: nat, dt: real, stamp: u32)
    requires SaneArithmetic(env) && Inv(s) && n <= |s.bots| && dt >= 0.0
    ensures Inv(DriveBots(env, s, n, dt, stamp))
  {
    hide SaneArithmetic, Inv, DriveBot, BroadcastUpdate, Target;
    if n > 0 {
      DriveBotsKeep(env, s, n - 1, dt, stamp);
      var before := DriveBots(env, s, n - 1, dt, stamp);
      DriveOneKeeps(env, before, n - 1, dt, stamp);
    }
  }

  lemma DriveOneKeeps(env: Env, s: ServerState, i: nat, dt: real, stamp: u32)
    requires SaneArithmetic(env) && Inv(s) && i < |s.bots| && dt >= 0.0
    ensures var bot := DriveBot(env, s.players, s.bots[i], Target(s.players, s.bots[i]), dt);
            var after := s.(bots := s.bots[i := bot]);
            Inv(if bot.hasState then BroadcastUpdate(after, StateUpdate(bot.id, stamp, bot.state), None) else after)
  {
    hide SaneArithmetic, Inv, DriveBot, BroadcastUpdate, Target, Roster, BotOk, IdsOk;
    var target := Target(s.players, s.bots[i]);
    TargetHasState(s.players, s.bots[i]);
    var bot := DriveBot(env, s.players, s.bots[i], target, dt);
    InvBots(s, i);
    DriveBotOk(env, s, s.bots[i], target, dt);
    DrivenSame(env, s.players, s.bots[i], target, dt);
    var after := s.(bots := s.bots[i := bot]);
    BotChangeKeeps(s, i, bot);
    if bot.hasState {
      InvBots(after, i);
      BotListed(after, i);
      BotStatePlausible(bot, s.nextId);
      UpdateKeepsLogs(after, bot.id, stamp, bot.state, None);
    }
  }

  lemma TargetHasState(players: map<Peer, Player>, bot: Bot)
    ensures var t := Target(players, bot); t.Some? ==> t.value in players && HasState(players, t.value)
  {}

  lemma InvBots(s: ServerState, i: nat)
    requires Inv(s) && i < |s.bots|
    ensures BotOk(s.bots[i], s.nextId) && IdsOk(s)
  {
    hide IdsHold, PlayersOk, LogsOk, BotOk;
    assert s.bots[i] in s.bots;
  }

  lemma BotStatePlausible(bot: Bot, nextId: u32)
    requires BotOk(bot, nextId) && bot.hasState
    ensures Plausible(bot.state)
  {}

  lemma DrivenSame(env: Env, players: map<Peer, Player>, bot: Bot, target: Option<Peer>, dt: real)
    requires target.Some? ==> target.value in players
    ensures var after := DriveBot(env, players, bot, target, dt);
            after.id == bot.id && after.name == bot.name && after.mode == bot.mode
  {}

  lemma BotListed(s: ServerState, i: nat)
    requires i < |s.bots| && IdsOk(s)
    ensures s.bots[i].id in Roster(s)
    ensures forall p | p in s.players && s.players[p].handshaked :: s.players[p].id != s.bots[i].id
  {
    assert s.bots[i] in s.bots;
    assert Member(s.bots[i].id, s.bots[i].name) in Members(s.players, s.bots);
  }

  lemma BotChangeParts(s: ServerState, i: nat, bot: Bot)
    requires IdsOk(s) && BotsOk(s.bots, s.nextId) && i < |s.bots| && BotOk(bot, s.nextId) && bot.id == s.bots[i].id
    ensures IdsOk(s.(bots := s.bots[i := bot])) && BotsOk(s.bots[i := bot], s.nextId)
  {
    var after := s.bots[i := bot];
    assert forall j | 0 <= j < |after| :: after[j].id == s.bots[j].id && s.bots[j] in s.bots;
    assert forall b | b in after :: b == bot || b in s.bots;
  }

  lemma BotChangeKeeps(s: ServerState, i: nat, bot: Bot)
    requires Inv(s) && i < |s.bots| && BotOk(bot, s.nextId) && bot.id == s.bots[i].id && bot.name == s.bots[i].name
    ensures Inv(s.(bots := s.bots[i := bot]))
  {
    hide IdsHold, PlayersOk, BotsOk, Members, AsMap, Fold, JoinedIds, GoodLog, Agrees, Announced;
    var s1 := s.(bots := s.bots[i := bot]);
    SameBotMembers(s, i, bot);
    BotChangeParts(s, i, bot);
    forall q | q in s1.players
      ensures LogOk(s1, q)
    {
      assert LogOk(s, q);
    }
  }

  lemma UpdateBotsKeeps(env: Env, s: ServerState, now: int)
    requires SaneArithmetic(env) && Inv(s) && now >= s.lastBotUpdate
    ensures Inv(UpdateBots(env, s, now))
  {
    if !Skipped(s, now) {
      var s1 := s.(lastBotUpdate := now);
      forall q | q in s1.players
        ensures LogOk(s1, q)
      {
        assert LogOk(s, q);
      }
      DriveBotsKeep(env, s1, |s1.bots|, BotDt(s, now), NowMs(env, now));
      assert UpdateBots(env, s, now) == DriveBots(env, s1, |s1.bots|, BotDt(s, now), NowMs(env, now));
    }
  }

  // ---- any event, any run -----------------------------------------------------------

  lemma StepKeeps(env: Env, s: ServerState, e: Event)
    requires SaneArithmetic(env) && Inv(s) && Enabled(s, e)
    ensures Inv(Step(env, s, e))
  {
    hide Inv, HandlePacket, UpdateBots, AddBot, RemoveBot, RemoveAllBots, Kick, Broadcast, Disconnect, Connect;
    match e {
      case Connected(p) => ConnectKeeps(s, p);
      case Disconnected(p) => DisconnectKeeps(s, p);
      case Received(p, bytes, now, order) => PacketKeeps(env, s, p, bytes, now, order);
      case BotsTick(now) => UpdateBotsKeeps(env, s, now);
      case BotAdd(mode, name) => AddBotKeeps(s, mode, name);
      case BotRemove(id) => RemoveBotKeeps(s, id);
      case BotRemoveAll => RemoveAllKeeps(s);
      case Say(text) => ChatKeepsLogs(s, SERVER_ID, text);
      case KickId(id, reason) =>
        RemoveBotKeeps(s, id);
        var p := PlayerWithId(s.players, id);
        if p.Some? {
          KickKeeps(s, p.value, reason);
        }
      case LinkLost(p) => LinkLostKeeps(s, p);
    }
  }

  /** The invariant holds in every reachable state. */
  lemma {:induction false} Reachable(env: Env, events: seq<Event>)
    requires SaneArithmetic(env) && EnabledRun(env, events)
    ensures Inv(Run(env, events))
  {
    if events == [] {
      InitialInv();
    } else {
      Reachable(env, events[..|events| - 1]);
      StepKeeps(env, Run(env, events[..|events| - 1]), events[|events| - 1]);
    }
  }
}
