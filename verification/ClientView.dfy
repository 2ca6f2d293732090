/** What `Session::HandlePacket` makes of the server's messages: own id and the names of the others. */
module ClientView {
  import opened Types
  import opened Protocol
  import opened Names
  import opened Chat

  /** `_myId`, and the id and name of every entry of `RemotePlayers::_players`. */
  datatype View = View(myId: PlayerId, names: map<PlayerId, Bytes>)

  const START := View(INVALID_PLAYER_ID, map[])

  /** The name of an entry created by a state update: "#" and the id. */
  function Placeholder(id: PlayerId): Bytes { [0x23] + Decimal(id) }

  function Apply(v: View, m: Msg): View {
    match m
    case Welcome(id, _, _, _) => v.(myId := id)
    case Joined(id, name) => if id != v.myId then v.(names := v.names[id := name]) else v
    case Left(id) => v.(names := v.names - {id})
    case Renamed(id, name) => if id != v.myId then v.(names := v.names[id := name]) else v
    case StateUpdate(id, _, _) =>
      if id != v.myId && id !in v.names then v.(names := v.names[id := Placeholder(id)]) else v
    case _ => v
  }

  function Fold(log: seq<Msg>): View {
    if log == [] then START else Apply(Fold(log[..|log| - 1]), log[|log| - 1])
  }

  /** The ids a log ever announced with PlayerJoined. */
  ghost function JoinedIds(log: seq<Msg>): set<PlayerId> {
    if log == [] then {}
    else JoinedIds(log[..|log| - 1]) + (if log[|log| - 1].Joined? then {log[|log| - 1].id} else {})
  }

  ghost function LeftIds(log: seq<Msg>): set<PlayerId> {
    if log == [] then {}
    else LeftIds(log[..|log| - 1]) + (if log[|log| - 1].Left? then {log[|log| - 1].id} else {})
  }

  // ---- well-formed logs -------------------------------------------------------------

  /** An IEEE-754 single that is neither infinite nor NaN. */
  predicate Finite(pattern: u32) { pattern / 0x80_0000 % 0x100 != 0xFF }

  predicate Plausible(s: WireState) {
    && Finite(s.position.x) && Finite(s.position.y) && Finite(s.position.z)
    && Finite(s.yaw) && Finite(s.health) && Finite(s.maxHealth)
  }

  /** What a message may carry: good names, finite states, clean player chat. */
  ghost predicate GoodContent(m: Msg) {
    match m
    case Joined(_, name) => GoodName(name)
    case Renamed(_, name) => GoodName(name)
    case StateUpdate(_, _, state) => Plausible(state)
    case ChatBroadcast(from, text) => from != SERVER_ID ==> CleanText(text)
    case _ => true
  }

  /** `m` may follow `log` on the reliable channel of a healthy connection. */
  ghost predicate GoodNext(log: seq<Msg>, m: Msg) {
    var v := Fold(log);
    GoodContent(m) &&
    match m
    case Welcome(_, _, _, _) => log == []
    case Joined(id, _) => log != [] && id != v.myId && id !in JoinedIds(log)
    case Left(id) => id in v.names
    case Renamed(id, _) => log != [] && (id == v.myId || id in v.names)
    case StateUpdate(id, _, _) => id in v.names
    case ChatBroadcast(_, _) => log != []
    case _ => false
  }

  ghost predicate GoodLog(log: seq<Msg>) {
    log == [] || (GoodLog(log[..|log| - 1]) && GoodNext(log[..|log| - 1], log[|log| - 1]))
  }

  lemma Snoc(log: seq<Msg>, m: Msg)
    ensures Fold(log + [m]) == Apply(Fold(log), m)
    ensures JoinedIds(log + [m]) == JoinedIds(log) + (if m.Joined? then {m.id} else {})
    ensures LeftIds(log + [m]) == LeftIds(log) + (if m.Left? then {m.id} else {})
    ensures GoodLog(log + [m]) <==> GoodLog(log) && GoodNext(log, m)
  {
    assert (log + [m])[..|log|] == log;
  }

  /** A healthy log opens with the Welcome and holds no second one and no Reject. */
  lemma {:induction false} GoodLogShape(log: seq<Msg>)
    requires GoodLog(log)
    ensures forall i | 0 <= i < |log| :: (log[i].Welcome? <==> i == 0) && !log[i].Reject? && GoodContent(log[i])
  {
    if log != [] {
      var n := |log| - 1;
      GoodLogShape(log[..n]);
      forall i | 0 <= i < n
        ensures (log[i].Welcome? <==> i == 0) && !log[i].Reject? && GoodContent(log[i])
      {
        assert log[i] == log[..n][i];
      }
      assert n == 0 ==> Fold(log[..0]).names == map[];
    }
  }

  /** Who was announced is either still listed or was announced to have left; nobody is both. */
  lemma {:induction false} JoinedOrLeft(log: seq<Msg>)
    requires GoodLog(log)
    ensures JoinedIds(log) == Fold(log).names.Keys + LeftIds(log)
    ensures Fold(log).names.Keys !! LeftIds(log)
    ensures log != [] ==> Fold(log).myId !in JoinedIds(log) && log[0].Welcome? && Fold(log).myId == log[0].id
  {
    if log != [] {
      var before, m := log[..|log| - 1], log[|log| - 1];
      JoinedOrLeft(before);
      GoodLogShape(log);
      if before != [] {
        assert log[0] == before[0];
      }
    }
  }
}
