/** Clients agree with the server: from messages, from bytes, and across both channels. */
module Agreement {
  import opened Types
  import opened Packet
  import opened Protocol
  import opened Names
  import opened ClientView
  import opened ServerModel
  import opened Lobby
  import opened LobbySteps

  // ---- the reliable channel ---------------------------------------------------------

  /** One packet as the client handles it: undecodable bytes are ignored. */
  function ApplyBytes(v: View, bytes: Bytes): View {
    var d := Decode(bytes);
    if d.Some? then Apply(v, d.value.0) else v
  }

  function FoldBytes(packets: seq<Bytes>): View {
    if packets == [] then START else ApplyBytes(FoldBytes(packets[..|packets| - 1]), packets[|packets| - 1])
  }

  function EncodeAll(log: seq<Msg>): (r: seq<Bytes>)
    ensures |r| == |log|
  {
    if log == [] then [] else EncodeAll(log[..|log| - 1]) + [EncodeBytes(log[|log| - 1])]
  }

  lemma GoodNameUncut(n: Bytes)
    requires GoodName(n)
    ensures Clamped(n) == n
  {}

  /** Encoding and decoding a message of a good log changes nothing the client makes of it. */
  lemma ApplyEncoded(v: View, m: Msg)
    requires GoodContent(m)
    ensures ApplyBytes(v, EncodeBytes(m)) == Apply(v, m)
  {
    hide EncodeBytes, Decode, GoodName, Clamped;
    DecodeEncode(m, []);
    assert EncodeBytes(m) + [] == EncodeBytes(m);
    if m.Joined? || m.Renamed? {
      GoodNameUncut(m.name);
    }
  }

  lemma {:induction false} FoldGood(ms: seq<Msg>)
    requires forall m | m in ms :: GoodContent(m)
    ensures FoldBytes(EncodeAll(ms)) == Fold(ms)
  {
    hide ApplyBytes, Apply, GoodContent, EncodeBytes;
    if ms != [] {
      var before, m := ms[..|ms| - 1], ms[|ms| - 1];
      FoldGood(before);
      ApplyEncoded(Fold(before), m);
      assert EncodeAll(ms)[..|ms| - 1] == EncodeAll(before);
    }
  }

  lemma FoldEncoded(log: seq<Msg>)
    requires GoodLog(log)
    ensures FoldBytes(EncodeAll(log)) == Fold(log)
  {
    hide GoodLog, GoodContent, FoldBytes, EncodeAll, Fold;
    GoodLogShape(log);
    FoldGood(log);
  }

  /** In every reachable state, every handshaked client whose connection ENet has not given up, and that
      was not kicked, makes of the packets sent to it exactly the other players and the bots. */
  lemma RosterAgreement(env: Env, events: seq<Event>, p: Peer)
    requires SaneArithmetic(env) && EnabledRun(env, events)
    requires var s := Run(env, events);
             p in s.players && s.players[p].handshaked && p !in s.closing
    ensures var s := Run(env, events);
            p in s.logs && FoldBytes(EncodeAll(s.logs[p])).myId == s.players[p].id
    ensures var s := Run(env, events);
            p in s.logs && Lists(FoldBytes(EncodeAll(s.logs[p])).names, Members(s.players - {p}, s.bots))
  {
    hide Run, Fold, GoodLog, FoldBytes, EncodeAll, Members, AsMap, JoinedIds;
    var s := Run(env, events);
    Reachable(env, events);
    assert LogOk(s, p);
    FoldEncoded(s.logs[p]);
    OthersListed(s, p);
  }

  lemma OthersListed(s: ServerState, p: Peer)
    requires IdsOk(s) && p in s.players && s.players[p].handshaked
    ensures Lists(Roster(s) - {s.players[p].id}, Members(s.players - {p}, s.bots))
  {
    hide Members, AsMap, Functional, IdsHold;
    MembersFunctional(s);
    MembersWithout(s, p);
    IsMember(s, p);
    AsMapRemove(Members(s.players, s.bots), Member(s.players[p].id, s.players[p].name));
    AsMapLists(Members(s.players, s.bots) - {Member(s.players[p].id, s.players[p].name)});
  }

  /** Each connection's log: nothing, or a Welcome and what follows it; a Reject can only close it. */
  lemma LogShape(env: Env, events: seq<Event>, p: Peer)
    requires SaneArithmetic(env) && EnabledRun(env, events) && p in Run(env, events).players
    ensures var s := Run(env, events);
            p in s.logs && forall i | 0 <= i < |s.logs[p]| ::
              && (s.logs[p][i].Welcome? ==> i == 0)
              && (s.logs[p][i].Reject? ==> i == |s.logs[p]| - 1 && p in s.closing)
              && (i == 0 ==> s.logs[p][i].Welcome? || s.logs[p][i].Reject?)
              && GoodContent(s.logs[p][i])
    ensures var s := Run(env, events);
            p !in s.closing && !s.players[p].handshaked ==> s.logs[p] == []
  {
    hide Run, Fold, JoinedIds, GoodLog, GoodContent, Members, AsMap;
    var s := Run(env, events);
    Reachable(env, events);
    assert LogOk(s, p);
    ShapeOf(s.logs[p]);
    if p !in s.closing {
      UnkickedIsGood(s, p);
      GoodLogShape(s.logs[p]);
    }
  }

  lemma UnkickedIsGood(s: ServerState, p: Peer)
    requires p in s.players && LogOk(s, p) && p !in s.closing
    ensures GoodLog(s.logs[p])
  {}

  lemma ShapeOf(log: seq<Msg>)
    requires GoodOrRejected(log)
    ensures forall i | 0 <= i < |log| ::
              && (log[i].Welcome? ==> i == 0)
              && (log[i].Reject? ==> i == |log| - 1)
              && (i == 0 ==> log[i].Welcome? || log[i].Reject?)
              && GoodContent(log[i])
  {
    if GoodLog(log) {
      GoodLogShape(log);
    } else {
      GoodLogShape(log[..|log| - 1]);
      assert forall i | 0 <= i < |log| - 1 :: log[i] == log[..|log| - 1][i];
    }
  }

  // ---- both channels ----------------------------------------------------------------

  /** What reaches the client next: the next message of the reliable log, or some state update. */
  datatype Delivery = Next | Early(update: Msg)

  function Play(log: seq<Msg>, schedule: seq<Delivery>): (r: (View, nat))
    ensures r.1 <= |log|
  {
    if schedule == [] then (START, 0)
    else
      var (v, k) := Play(log, schedule[..|schedule| - 1]);
      match schedule[|schedule| - 1]
      case Next => if k < |log| then (Apply(v, log[k]), k + 1) else (v, k)
      case Early(m) => (Apply(v, m), k)
  }

  /** Updates may be lost, repeated, reordered and arbitrarily early; they come from the server. */
  ghost predicate Sourced(updates: seq<Msg>, schedule: seq<Delivery>) {
    forall d | d in schedule && d.Early? :: d.update in updates
  }

  /** None for a player comes after that player's PlayerLeft. */
  ghost predicate Allowed(log: seq<Msg>, schedule: seq<Delivery>) {
    schedule == [] ||
    var before, d := schedule[..|schedule| - 1], schedule[|schedule| - 1];
    Allowed(log, before) && (d.Early? && d.update.StateUpdate? ==> d.update.id !in LeftIds(log[..Play(log, before).1]))
  }

  ghost predicate AllJoined(updates: seq<Msg>, log: seq<Msg>) {
    forall m | m in updates :: m.StateUpdate? && m.id in JoinedIds(log)
  }

  /** `v` is `f` with some placeholders more, for players yet to be announced. */
  ghost predicate AheadOf(v: View, f: View, announced: set<PlayerId>, all: set<PlayerId>) {
    && v.myId == f.myId
    && (forall id | id in f.names :: id in v.names && v.names[id] == f.names[id])
    && (forall id | id in v.names && id !in f.names :: id !in announced && id in all)
  }

  /** The client after `k` reliable messages: the fold of those plus some placeholders. */
  ghost predicate Ahead(v: View, log: seq<Msg>, k: nat)
    requires k <= |log|
  {
    AheadOf(v, Fold(log[..k]), JoinedIds(log[..k]), JoinedIds(log))
  }

  lemma {:induction false} GoodPrefix(log: seq<Msg>, k: nat)
    requires GoodLog(log) && k <= |log|
    ensures GoodLog(log[..k]) && JoinedIds(log[..k]) <= JoinedIds(log)
    ensures k < |log| ==> GoodNext(log[..k], log[k])
  {
    if k < |log| {
      GoodPrefix(log[..|log| - 1], k);
      assert log[..|log| - 1][..k] == log[..k];
    } else {
      assert log[..k] == log;
    }
  }

  lemma JoinedAhead(v: View, f: View, m: Msg, announced: set<PlayerId>, all: set<PlayerId>)
    requires AheadOf(v, f, announced, all) && m.Joined? && m.id != f.myId
    ensures AheadOf(Apply(v, m), Apply(f, m), announced + {m.id}, all)
  {}

  lemma LeftAhead(v: View, f: View, m: Msg, announced: set<PlayerId>, all: set<PlayerId>)
    requires AheadOf(v, f, announced, all) && m.Left? && m.id in f.names
    ensures AheadOf(Apply(v, m), Apply(f, m), announced, all)
  {}

  lemma OtherAhead(v: View, f: View, m: Msg, announced: set<PlayerId>, all: set<PlayerId>)
    requires AheadOf(v, f, announced, all) && !m.Joined? && !m.Left?
    requires m.Renamed? ==> m.id == f.myId || m.id in f.names
    requires m.StateUpdate? ==> m.id in f.names
    ensures AheadOf(Apply(v, m), Apply(f, m), announced, all)
  {
    hide Placeholder;
  }

  lemma NextKeepsAhead(v: View, log: seq<Msg>, k: nat)
    requires GoodLog(log) && k < |log| && Ahead(v, log, k)
    ensures Ahead(Apply(v, log[k]), log, k + 1)
  {
    hide GoodLog, Fold, JoinedIds, AheadOf, Apply;
    GoodPrefix(log, k);
    assert log[..k + 1] == log[..k] + [log[k]];
    Snoc(log[..k], log[k]);
    var f, m, announced := Fold(log[..k]), log[k], JoinedIds(log[..k]);
    if m.Joined? {
      JoinedAhead(v, f, m, announced, JoinedIds(log));
    } else {
      assert announced + {} == announced;
      if m.Left? {
        LeftAhead(v, f, m, announced, JoinedIds(log));
      } else {
        OtherAhead(v, f, m, announced, JoinedIds(log));
      }
    }
  }

  lemma PlaceholderAhead(v: View, f: View, m: Msg, announced: set<PlayerId>, all: set<PlayerId>)
    requires AheadOf(v, f, announced, all) && m.StateUpdate?
    requires m.id in all && (m.id in announced ==> m.id in f.names)
    ensures AheadOf(Apply(v, m), f, announced, all)
  {
    hide Placeholder;
  }

  lemma EarlyKeepsAhead(v: View, log: seq<Msg>, k: nat, m: Msg)
    requires GoodLog(log) && k <= |log| && Ahead(v, log, k)
    requires m.StateUpdate? && m.id in JoinedIds(log) && m.id !in LeftIds(log[..k])
    ensures Ahead(Apply(v, m), log, k)
  {
    hide GoodLog, Fold, JoinedIds, LeftIds, AheadOf, Apply;
    GoodPrefix(log, k);
    JoinedOrLeft(log[..k]);
    PlaceholderAhead(v, Fold(log[..k]), m, JoinedIds(log[..k]), JoinedIds(log));
  }

  lemma SourcedBefore(updates: seq<Msg>, schedule: seq<Delivery>)
    requires schedule != [] && Sourced(updates, schedule)
    ensures var before, d := schedule[..|schedule| - 1], schedule[|schedule| - 1];
            Sourced(updates, before) && (d.Early? ==> d.update in updates)
  {}

  lemma {:induction false} PlayAhead(log: seq<Msg>, updates: seq<Msg>, schedule: seq<Delivery>)
    requires GoodLog(log) && AllJoined(updates, log) && Sourced(updates, schedule) && Allowed(log, schedule)
    ensures Ahead(Play(log, schedule).0, log, Play(log, schedule).1)
  {
    hide GoodLog, JoinedIds, LeftIds, Sourced;
    if schedule == [] {
      assert log[..0] == [];
    } else {
      var before := schedule[..|schedule| - 1];
      SourcedBefore(updates, schedule);
      PlayAhead(log, updates, before);
      var (v, k) := Play(log, before);
      match schedule[|schedule| - 1] {
        case Next =>
          if k < |log| {
            NextKeepsAhead(v, log, k);
          }
        case Early(m) =>
          EarlyKeepsAhead(v, log, k, m);
      }
    }
  }

  /** Someone who has left is listed again. */
  ghost predicate Ghost(v: View, log: seq<Msg>, k: nat)
    requires k <= |log|
  {
    exists id :: id in v.names && id in LeftIds(log[..k])
  }

  lemma NextKeepsGhost(v: View, log: seq<Msg>, k: nat)
    requires GoodLog(log) && k < |log| && Ghost(v, log, k)
    ensures Ghost(Apply(v, log[k]), log, k + 1)
  {
    hide GoodLog, Fold, JoinedIds, LeftIds;
    var id :| id in v.names && id in LeftIds(log[..k]);
    GoodPrefix(log, k);
    assert log[..k + 1] == log[..k] + [log[k]];
    Snoc(log[..k], log[k]);
    JoinedOrLeft(log[..k]);
    assert id in Apply(v, log[k]).names && id in LeftIds(log[..k + 1]);
  }

  lemma EarlyKeepsGhost(v: View, log: seq<Msg>, k: nat, m: Msg)
    requires k <= |log| && m.StateUpdate? && Ghost(v, log, k)
    ensures Ghost(Apply(v, m), log, k)
  {
    hide LeftIds;
    var id :| id in v.names && id in LeftIds(log[..k]);
    assert id in Apply(v, m).names;
  }

  lemma LateMakesGhost(v: View, log: seq<Msg>, k: nat, m: Msg)
    requires GoodLog(log) && k <= |log| && m.StateUpdate? && m.id in LeftIds(log[..k]) && v.myId == Fold(log[..k]).myId
    ensures Ghost(Apply(v, m), log, k)
  {
    hide GoodLog, LeftIds, Fold;
    GoodPrefix(log, k);
    JoinedOrLeft(log[..k]);
    NobodyLeft();
    assert log[..k] != [];
    assert m.id in Apply(v, m).names;
  }

  lemma NobodyLeft()
    ensures LeftIds([]) == {}
  {}

  lemma {:induction false} PlayKnowsSelf(log: seq<Msg>, updates: seq<Msg>, schedule: seq<Delivery>)
    requires AllJoined(updates, log) && Sourced(updates, schedule)
    ensures Play(log, schedule).0.myId == Fold(log[..Play(log, schedule).1]).myId
  {
    hide Sourced;
    if schedule == [] {
      assert log[..0] == [];
    } else {
      var before := schedule[..|schedule| - 1];
      SourcedBefore(updates, schedule);
      PlayKnowsSelf(log, updates, before);
      var k := Play(log, before).1;
      if schedule[|schedule| - 1].Next? && k < |log| {
        assert log[..k + 1][..k] == log[..k];
      }
    }
  }

  lemma {:induction false} LateLeavesGhost(log: seq<Msg>, updates: seq<Msg>, schedule: seq<Delivery>)
    requires GoodLog(log) && AllJoined(updates, log) && Sourced(updates, schedule) && !Allowed(log, schedule)
    ensures Ghost(Play(log, schedule).0, log, Play(log, schedule).1)
  {
    hide GoodLog, JoinedIds, LeftIds, Sourced, Ghost, Apply, Fold;
    var before := schedule[..|schedule| - 1];
    SourcedBefore(updates, schedule);
    var (v, k) := Play(log, before);
    if !Allowed(log, before) {
      LateLeavesGhost(log, updates, before);
      match schedule[|schedule| - 1] {
        case Next =>
          if k < |log| {
            NextKeepsGhost(v, log, k);
          }
        case Early(m) => EarlyKeepsGhost(v, log, k, m);
      }
    } else {
      PlayKnowsSelf(log, updates, before);
      LateMakesGhost(v, log, k, schedule[|schedule| - 1].update);
    }
  }

  /** Once the reliable log is through, the client is where the log alone would have brought it if and only if
      no update came after its player's PlayerLeft. */
  lemma AgreesIffAllowed(log: seq<Msg>, updates: seq<Msg>, schedule: seq<Delivery>)
    requires GoodLog(log) && AllJoined(updates, log) && Sourced(updates, schedule) && Play(log, schedule).1 == |log|
    ensures Allowed(log, schedule) <==> Play(log, schedule).0.names == Fold(log).names
    ensures Play(log, schedule).0.myId == Fold(log).myId
  {
    hide GoodLog, LeftIds, JoinedIds, Play, Allowed, Fold, Sourced, AllJoined;
    assert log[..|log|] == log;
    PlayKnowsSelf(log, updates, schedule);
    JoinedOrLeft(log);
    if Allowed(log, schedule) {
      PlayAhead(log, updates, schedule);
      assert Play(log, schedule).0.names == Fold(log).names;
    } else {
      LateLeavesGhost(log, updates, schedule);
    }
  }

  /** However the unreliable channel interleaves, once the reliable log is through the client lists exactly the
      other players and the bots, if and only if no update came after its player's PlayerLeft. */
  lemma CrossChannelAgreement(env: Env, events: seq<Event>, p: Peer, schedule: seq<Delivery>)
    requires SaneArithmetic(env) && EnabledRun(env, events)
    requires InSession(Run(env, events), p) && CaughtUp(Run(env, events), p, schedule)
    ensures var s := Run(env, events);
            var v := Play(s.logs[p], schedule).0;
            && v.myId == s.players[p].id
            && (Lists(v.names, Members(s.players - {p}, s.bots)) <==> Allowed(s.logs[p], schedule))
  {
    hide Run, Fold, GoodLog, Members, AsMap, JoinedIds, Play, Allowed, GoodContent, Sourced;
    var s := Run(env, events);
    Reachable(env, events);
    assert LogOk(s, p);
    AgreesIffAllowed(s.logs[p], s.updates[p], schedule);
    var v := Play(s.logs[p], schedule).0;
    OthersListed(s, p);
    if Lists(v.names, Members(s.players - {p}, s.bots)) {
      ListsUnique(v.names, Fold(s.logs[p]).names, Members(s.players - {p}, s.bots));
    }
  }

  /** Handshaked, on a connection that is not being closed. */
  ghost predicate InSession(s: ServerState, p: Peer) {
    p in s.players && s.players[p].handshaked && p !in s.closing && p in s.logs && p in s.updates
  }

  /** Everything on the reliable channel has arrived, and some of what is on the other one. */
  ghost predicate CaughtUp(s: ServerState, p: Peer, schedule: seq<Delivery>)
    requires InSession(s, p)
  {
    Sourced(s.updates[p], schedule) && Play(s.logs[p], schedule).1 == |s.logs[p]|
  }

  /** The condition on late updates is needed: one update after a PlayerLeft leaves a ghost behind. */
  lemma LateUpdateLeavesGhost(log: seq<Msg>, m: Msg)
    requires GoodLog(log) && m.StateUpdate? && m.id in LeftIds(log) && m.id != Fold(log).myId
    ensures m.id !in Fold(log).names && Apply(Fold(log), m).names == Fold(log).names[m.id := Placeholder(m.id)]
  {
    JoinedOrLeft(log);
  }
}
