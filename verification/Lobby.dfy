/** What every reachable state of the lobby server keeps. */
module Lobby {
  import opened Types
  import opened Protocol
  import opened Names
  import opened Chat
  import opened Angles
  import opened ClientView
  import opened ServerModel

  // ---- the server's own roster ------------------------------------------------------

  datatype Member = Member(id: PlayerId, name: Bytes)

  /** Id and name of every handshaked player and every bot. */
  ghost function Members(players: map<Peer, Player>, bots: seq<Bot>): set<Member> {
    (set p | p in players && players[p].handshaked :: Member(players[p].id, players[p].name))
    + (set b | b in bots :: Member(b.id, b.name))
  }

  ghost predicate Functional(ms: set<Member>) {
    forall x, y | x in ms && y in ms && x.id == y.id :: x == y
  }

  ghost function NameIn(ms: set<Member>, id: PlayerId): (name: Bytes)
    requires exists x :: x in ms && x.id == id
    ensures Member(id, name) in ms
  {
    var x :| x in ms && x.id == id;
    x.name
  }

  ghost function AsMap(ms: set<Member>): (r: map<PlayerId, Bytes>)
    ensures forall x | x in ms :: x.id in r
    ensures forall id | id in r :: Member(id, r[id]) in ms
  {
    map id | id in (set x | x in ms :: x.id) :: NameIn(ms, id)
  }

  ghost function Roster(s: ServerState): map<PlayerId, Bytes> { AsMap(Members(s.players, s.bots)) }

  /** `r` lists exactly the members. */
  ghost predicate Lists(r: map<PlayerId, Bytes>, ms: set<Member>) {
    && (forall x | x in ms :: x.id in r && r[x.id] == x.name)
    && (forall id | id in r :: Member(id, r[id]) in ms)
  }

  lemma AsMapLists(ms: set<Member>)
    requires Functional(ms)
    ensures Lists(AsMap(ms), ms)
  {
    forall x | x in ms
      ensures AsMap(ms)[x.id] == x.name
    {
      assert Member(x.id, AsMap(ms)[x.id]) in ms;
    }
  }

  lemma ListsUnique(r: map<PlayerId, Bytes>, t: map<PlayerId, Bytes>, ms: set<Member>)
    requires Lists(r, ms) && Lists(t, ms)
    ensures r == t
  {}

  lemma AsMapIs(ms: set<Member>, r: map<PlayerId, Bytes>)
    requires Lists(r, ms)
    ensures Functional(ms) && AsMap(ms) == r
  {
    AsMapLists(ms);
    ListsUnique(AsMap(ms), r, ms);
  }

  lemma AsMapAdd(ms: set<Member>, x: Member)
    requires Functional(ms) && x.id !in AsMap(ms)
    ensures AsMap(ms + {x}) == AsMap(ms)[x.id := x.name]
  {
    AsMapLists(ms);
    AsMapIs(ms + {x}, AsMap(ms)[x.id := x.name]);
  }

  lemma AsMapRemove(ms: set<Member>, x: Member)
    requires Functional(ms) && x in ms
    ensures Functional(ms - {x}) && AsMap(ms - {x}) == AsMap(ms) - {x.id}
  {
    AsMapLists(ms);
    AsMapIs(ms - {x}, AsMap(ms) - {x.id});
  }

  lemma AsMapRename(ms: set<Member>, x: Member, name: Bytes)
    requires Functional(ms) && x in ms
    ensures AsMap(ms - {x} + {Member(x.id, name)}) == AsMap(ms)[x.id := name]
  {
    AsMapLists(ms);
    AsMapIs(ms - {x} + {Member(x.id, name)}, AsMap(ms)[x.id := name]);
  }

  // ---- the invariant ----------------------------------------------------------------

  /** Ids of handshaked players and bots are pairwise distinct and were handed out by the counter. */
  ghost predicate IdsHold(players: map<Peer, Player>, bots: seq<Bot>, nextId: u32) {
    && 1 <= nextId
    && (forall p | p in players && players[p].handshaked :: 1 <= players[p].id < nextId)
    && (forall b | b in bots :: 1 <= b.id < nextId)
    && DistinctIds(players)
    && (forall i, j | 0 <= i < j < |bots| :: bots[i].id != bots[j].id)
    && (forall p, b | p in players && b in bots && players[p].handshaked :: players[p].id != b.id)
  }

  ghost predicate IdsOk(s: ServerState) { IdsHold(s.players, s.bots, s.nextId) }

  /** Before the handshake a connection holds the invalid id and no state. */
  ghost predicate PlayerOk(p: Player) {
    if p.handshaked then GoodName(p.name) && (p.hasState ==> Plausible(p.state))
    else p == NEW_PLAYER
  }

  /** A bot without a state follows nobody. */
  ghost predicate BotOk(b: Bot, nextId: u32) {
    && GoodName(b.name) && 0.0 <= b.phase < TWO_PI
    && (if b.hasState then Plausible(b.state) && 1 <= b.follow < nextId else b.follow == INVALID_PLAYER_ID)
  }

  ghost predicate UpdateOk(m: Msg) { m.StateUpdate? && Plausible(m.state) }

  /** The client on the other end of `log`, with id `own`, agrees with the roster. */
  ghost predicate Agrees(log: seq<Msg>, own: PlayerId, roster: map<PlayerId, Bytes>) {
    log != [] && GoodLog(log) && Fold(log) == View(own, roster - {own})
  }

  ghost predicate Announced(log: seq<Msg>, updates: seq<Msg>, nextId: u32) {
    && (forall id | id in JoinedIds(log) :: id < nextId)
    && (forall m | m in updates :: UpdateOk(m) && m.id in JoinedIds(log))
  }

  /** A log is good, or a good one closed by a Reject. */
  ghost predicate GoodOrRejected(log: seq<Msg>) {
    GoodLog(log) || (log != [] && log[|log| - 1].Reject? && GoodLog(log[..|log| - 1]))
  }

  ghost predicate LogOk(s: ServerState, p: Peer)
    requires p in s.players
  {
    && p in s.logs && p in s.updates
    && GoodOrRejected(s.logs[p])
    && (forall m | m in s.updates[p] :: UpdateOk(m))
    && (p !in s.closing ==>
          if s.players[p].handshaked then
            Agrees(s.logs[p], s.players[p].id, Roster(s)) && Announced(s.logs[p], s.updates[p], s.nextId)
          else s.logs[p] == [] && s.updates[p] == [])
  }

  ghost predicate PlayersOk(players: map<Peer, Player>) { forall p | p in players :: PlayerOk(players[p]) }
  ghost predicate BotsOk(bots: seq<Bot>, nextId: u32) { forall b | b in bots :: BotOk(b, nextId) }
  ghost predicate LogsOk(s: ServerState) { forall p | p in s.players :: LogOk(s, p) }

  ghost predicate Inv(s: ServerState) {
    && IdsOk(s) && PlayersOk(s.players) && BotsOk(s.bots, s.nextId) && LogsOk(s)
    && s.closing <= s.players.Keys
  }

  lemma MembersFunctional(s: ServerState)
    requires IdsOk(s)
    ensures Functional(Members(s.players, s.bots))
  {}

  lemma RosterIds(s: ServerState)
    requires IdsOk(s)
    ensures forall id | id in Roster(s) :: 1 <= id < s.nextId
  {}

  // ---- what a broadcast does to one log ---------------------------------------------

  /** `m` tells the roster change from `before` to `after`. */
  ghost predicate Tells(m: Msg, before: map<PlayerId, Bytes>, after: map<PlayerId, Bytes>, nextId: u32) {
    GoodContent(m) &&
    match m
    case Joined(id, name) => id >= nextId && id !in before && after == before[id := name]
    case Left(id) => id in before && after == before - {id}
    case Renamed(id, name) => id in before && after == before[id := name]
    case ChatBroadcast(_, _) => after == before
    case _ => false
  }

  lemma AppendAgrees(log: seq<Msg>, own: PlayerId, m: Msg, before: map<PlayerId, Bytes>, after: map<PlayerId, Bytes>,
                     nextId: u32)
    requires Agrees(log, own, before) && Tells(m, before, after, nextId)
    requires own < nextId && forall id | id in JoinedIds(log) :: id < nextId
    requires m.Left? ==> m.id != own
    ensures Agrees(log + [m], own, after)
    ensures JoinedIds(log + [m]) == JoinedIds(log) + if m.Joined? then {m.id} else {}
  {
    Snoc(log, m);
    assert Apply(View(own, before - {own}), m).names == after - {own};
  }

  /** `s1` is `s0` after a change of players or bots that `m` tells; `q` is unaffected by it itself. */
  ghost predicate SameFor(s0: ServerState, s1: ServerState, q: Peer) {
    && q in s0.players && q in s1.players
    && s0.players[q].handshaked == s1.players[q].handshaked && s0.players[q].id == s1.players[q].id
    && (q in s0.closing <==> q in s1.closing)
    && q in s0.logs && q in s1.logs && s0.logs[q] == s1.logs[q]
    && q in s0.updates && q in s1.updates && s0.updates[q] == s1.updates[q]
  }

  lemma BroadcastKeepsLog(s0: ServerState, s1: ServerState, m: Msg, except: Option<Peer>, q: Peer)
    requires IdsOk(s0) && SameFor(s0, s1, q) && LogOk(s0, q) && Some(q) != except
    requires Tells(m, Roster(s0), Roster(s1), s0.nextId) && s0.nextId <= s1.nextId
    requires m.Joined? ==> m.id < s1.nextId
    requires m.Left? && s0.players[q].handshaked ==> m.id != s0.players[q].id
    ensures LogOk(Broadcast(s1, m, except), q)
    ensures SameFor(s1, Broadcast(s1, m, except).(logs := s1.logs), q)
  {
    var s2 := Broadcast(s1, m, except);
    if q !in s1.closing && s1.players[q].handshaked {
      AppendAgrees(s0.logs[q], s0.players[q].id, m, Roster(s0), Roster(s1), s0.nextId);
    }
  }

  /** After a change that `m` tells everyone but `except`, whose own log is taken care of. */
  lemma ToldKeeps(s: ServerState, s1: ServerState, m: Msg, except: Option<Peer>)
    requires Inv(s) && IdsOk(s1) && PlayersOk(s1.players) && BotsOk(s1.bots, s1.nextId)
    requires s1.closing <= s1.players.Keys && s.nextId <= s1.nextId
    requires forall q | q in s1.players && Some(q) != except :: SameFor(s, s1, q)
    requires except.Some? && except.value in s1.players ==> LogOk(Broadcast(s1, m, except), except.value)
    requires Tells(m, Roster(s), Roster(s1), s.nextId) && (m.Joined? ==> m.id < s1.nextId)
    requires m.Left? ==> forall q | q in s1.players && q in s.players && s.players[q].handshaked ::
        s.players[q].id != m.id
    ensures Inv(Broadcast(s1, m, except)) && Roster(Broadcast(s1, m, except)) == Roster(s1)
  {
    hide IdsHold, PlayersOk, BotsOk, LogOk, Tells, Members, AsMap;
    var s2 := Broadcast(s1, m, except);
    forall q | q in s2.players
      ensures LogOk(s2, q)
    {
      if Some(q) != except {
        assert LogOk(s, q);
        BroadcastKeepsLog(s, s1, m, except, q);
      }
    }
  }

  /** A chat line to everyone. */
  lemma ChatKeepsLogs(s: ServerState, from: PlayerId, text: Bytes)
    requires Inv(s) && (from == SERVER_ID || CleanText(text))
    ensures Inv(Broadcast(s, ChatBroadcast(from, text), None))
  {
    hide IdsHold, PlayersOk, BotsOk, Members, AsMap, Fold, GoodLog, JoinedIds;
    forall q | q in s.players
      ensures SameFor(s, s, q)
    {
      assert LogOk(s, q);
    }
    ToldKeeps(s, s, ChatBroadcast(from, text), None);
  }

  lemma UpdateKeepsLogs(s: ServerState, id: PlayerId, stamp: u32, state: WireState, except: Option<Peer>)
    requires Inv(s) && Plausible(state) && id in Roster(s)
    requires forall p | p in s.players && s.players[p].handshaked && s.players[p].id == id :: Some(p) == except
    ensures Inv(BroadcastUpdate(s, StateUpdate(id, stamp, state), except))
  {
    hide Fold, GoodLog, JoinedIds, AsMap, Members, Plausible;
    var m := StateUpdate(id, stamp, state);
    var s2 := BroadcastUpdate(s, m, except);
    forall q | q in s2.players
      ensures LogOk(s2, q)
    {
      assert LogOk(s, q);
      if Hears(s, q, except) {
        JoinedOrLeft(s.logs[q]);
        assert id in Fold(s.logs[q]).names;
      }
    }
  }
}
