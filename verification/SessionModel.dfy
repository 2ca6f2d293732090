/** The client's session: what packets, frames and the loss of the connection make of it. */
module SessionModel {
  import opened Types
  import opened Angles
  import opened Protocol
  import opened ClientView
  import opened Agreement
  import S = ServerModel
  import L = Lobby
  import LobbySteps
  import C = CloneModel
  import CF = CloneFrames
  import I = Interp
  import T = Timeline

  // ---- numbers from the wire --------------------------------------------------------

  function Pow2(n: int): real
    decreases if n < 0 then -n else n
  {
    if n == 0 then 1.0 else if n > 0 then 2.0 * Pow2(n - 1) else Pow2(n + 1) / 2.0
  }

  /** The value of a finite IEEE-754 single. */
  function FloatValue(pattern: u32): real {
    var exponent, fraction := pattern / 0x80_0000 % 0x100, pattern % 0x80_0000;
    var size :=
      if exponent == 0 then fraction as real * Pow2(-149)
      else (0x80_0000 + fraction) as real * Pow2(exponent - 150);
    if pattern >= 0x8000_0000 then -size else size
  }

  function RealVec(v: Vec3<u32>): Vec3<real> { Vec3(FloatValue(v.x), FloatValue(v.y), FloatValue(v.z)) }

  function ToReal(s: WireState): RealState {
    PlayerState(RealVec(s.position), FloatValue(s.yaw), s.worldspaceId, s.cellId, s.flags,
                FloatValue(s.health), FloatValue(s.maxHealth))
  }

  /** The real state says what the singles of the wire state say, field by field. */
  predicate Reads(r: RealState, s: WireState) {
    && r.position.x == FloatValue(s.position.x) && r.position.y == FloatValue(s.position.y)
    && r.position.z == FloatValue(s.position.z) && r.yaw == FloatValue(s.yaw)
    && r.health == FloatValue(s.health) && r.maxHealth == FloatValue(s.maxHealth)
    && r.worldspaceId == s.worldspaceId && r.cellId == s.cellId && r.flags == s.flags
  }

  lemma {:induction false} Pow2Steps(n: int)
    ensures Pow2(n + 1) == 2.0 * Pow2(n) && Pow2(n) > 0.0
    decreases if n < 0 then -n else n
  {
    if n > 0 {
      Pow2Steps(n - 1);
    } else if n < 0 {
      Pow2Steps(n + 1);
    }
  }

  /** The unit in the last place: `2^-149` among the smallest patterns, doubling with every exponent from the
      second on. */
  function Ulp(pattern: u32): real { Pow2((if pattern < 0x80_0000 then 1 else pattern / 0x80_0000) - 150) }

  /** This is all there is to it: zero is zero, from each pattern to the next it is one unit in the last place, and
      the top bit turns the sign. */
  lemma FloatSteps(pattern: u32)
    requires pattern + 1 < 0x7F80_0000
    ensures FloatValue(0) == 0.0
    ensures FloatValue(pattern + 1) == FloatValue(pattern) + Ulp(pattern)
    ensures FloatValue(pattern + 0x8000_0000) == -FloatValue(pattern)
  {
    hide Pow2;
    var e := pattern / 0x80_0000;
    Pow2Steps(e - 150);
    assert e < 0x100 && (pattern + 1) / 0x80_0000 < 0x100;
    assert (pattern + 0x8000_0000) / 0x80_0000 == e + 0x100;
    assert (pattern + 0x8000_0000) % 0x80_0000 == pattern % 0x80_0000;
    if pattern % 0x80_0000 == 0x7F_FFFF {
      assert (pattern + 1) / 0x80_0000 == e + 1 && (pattern + 1) % 0x80_0000 == 0;
    } else {
      assert (pattern + 1) / 0x80_0000 == e && (pattern + 1) % 0x80_0000 == pattern % 0x80_0000 + 1;
    }
  }

  /** So larger patterns are larger values. */
  lemma {:induction false} FloatIncreasing(a: u32, b: u32)
    requires a < b < 0x7F80_0000
    ensures FloatValue(a) < FloatValue(b)
    decreases b
  {
    hide FloatValue, Pow2;
    FloatSteps(b - 1);
    Pow2Steps((if b - 1 < 0x80_0000 then 1 else (b - 1) / 0x80_0000) - 150);
    if a < b - 1 {
      FloatIncreasing(a, b - 1);
    }
  }

  /** The angle unit of the timeline is the single the source calls pi. */
  lemma PiPattern()
    ensures FloatValue(0x4049_0FDB) == PI
  {
    assert Pow2(-6) == 1.0 / 64.0;
    Eighth(-6);
    Eighth(-14);
  }

  /** Eight halvings. */
  lemma Eighth(n: int)
    requires n <= 0
    ensures Pow2(n - 8) == Pow2(n) / 256.0
  {
    assert Pow2(n - 2) == Pow2(n) / 4.0;
    assert Pow2(n - 4) == Pow2(n - 2) / 4.0;
    assert Pow2(n - 6) == Pow2(n - 4) / 4.0;
    assert Pow2(n - 8) == Pow2(n - 6) / 4.0;
  }

  // ---- sending one's own state ------------------------------------------------------

  const HEARTBEAT_MS := 1000.0
  const MOVE_EPSILON := 0.5
  const YAW_EPSILON := 0.005
  const HEALTH_EPSILON := 0.5

  predicate Differs(a: RealState, b: RealState) {
    || C.DistanceSquared(a.position, b.position) > MOVE_EPSILON * MOVE_EPSILON
    || Abs(a.yaw - b.yaw) > YAW_EPSILON
    || a.worldspaceId != b.worldspaceId || a.cellId != b.cellId || a.flags != b.flags
    || Abs(a.health - b.health) > HEALTH_EPSILON
  }

  predicate Changed(a: WireState, b: WireState) { Differs(ToReal(a), ToReal(b)) }

  /** `_hasLastSent`, `_lastSent` and `_lastSend`. */
  datatype Pacer = Pacer(hasLast: bool, last: WireState, at: real)

  const IDLE := Pacer(false, S.ZERO_STATE, 0.0)

  /** One call of `SendState`: what the local player is like, if known, and when. */
  datatype Attempt = Attempt(force: bool, sampled: Option<WireState>, now: real)

  /** What the last packet may be out by: half a unit of distance and of health, and a two-hundredth of a radian.
      The maximum of health is never looked at. */
  predicate Tolerated(a: RealState, b: RealState) {
    var dx, dy, dz := a.position.x - b.position.x, a.position.y - b.position.y, a.position.z - b.position.z;
    && dx * dx + dy * dy + dz * dz <= 0.25 && -0.005 <= a.yaw - b.yaw <= 0.005
    && a.worldspaceId == b.worldspaceId && a.cellId == b.cellId && a.flags == b.flags
    && -0.5 <= a.health - b.health <= 0.5
  }

  lemma ChangedIff(a: WireState, b: WireState)
    ensures Changed(a, b) <==> !Tolerated(ToReal(a), ToReal(b))
    ensures !Changed(a, a)
  {
    hide ToReal;
    DiffersIff(ToReal(a), ToReal(b));
    var z := ToReal(a);
    assert C.DistanceSquared(z.position, z.position) == 0.0;
  }

  lemma DiffersIff(a: RealState, b: RealState)
    ensures Differs(a, b) <==> !Tolerated(a, b)
  {
    var dx, dy, dz := a.position.x - b.position.x, a.position.y - b.position.y, a.position.z - b.position.z;
    assert C.DistanceSquared(a.position, b.position) == dx * dx + dy * dy + dz * dz;
    assert MOVE_EPSILON * MOVE_EPSILON == 0.25;
  }

  function Interval(rate: u32): real { (1000 / if rate < 1 then 1 else rate) as real }

  /** The interval is the largest whole number of milliseconds that leaves room for `rate` packets a second; without
      a rate it is the whole second. */
  lemma IntervalIs(rate: u32) returns (k: nat)
    ensures Interval(rate) == k as real
    ensures if rate == 0 then k == 1000 else k * rate <= 1000 < (k + 1) * rate
  {
    k := 1000 / if rate < 1 then 1 else rate;
  }

  predicate Sends(p: Pacer, a: Attempt, rate: u32) {
    && a.sampled.Some?
    && (a.force ||
        (a.now - p.at >= Interval(rate)
         && (a.now - p.at >= HEARTBEAT_MS || !p.hasLast || Changed(a.sampled.value, p.last))))
  }

  function Paced(p: Pacer, a: Attempt, rate: u32): Pacer {
    if Sends(p, a, rate) then Pacer(true, a.sampled.value, a.now) else p
  }

  function PaceAll(p: Pacer, attempts: seq<Attempt>, rate: u32): Pacer {
    if attempts == [] then p else Paced(PaceAll(p, attempts[..|attempts| - 1], rate), attempts[|attempts| - 1], rate)
  }

  /** The attempts that sent something. */
  ghost function Sent(p: Pacer, attempts: seq<Attempt>, rate: u32): seq<Attempt> {
    if attempts == [] then []
    else
      var before, a := attempts[..|attempts| - 1], attempts[|attempts| - 1];
      Sent(p, before, rate) + if Sends(PaceAll(p, before, rate), a, rate) then [a] else []
  }

  /** Every unforced packet leaves an interval after the one before. */
  ghost predicate SpacedOut(out: seq<Attempt>, rate: u32) {
    forall i | 0 < i < |out| && !out[i].force :: out[i].now - out[i - 1].now >= Interval(rate)
  }

  /** And it leaves because a second is over or because the last one no longer tells the truth. */
  ghost predicate ForAReason(out: seq<Attempt>) {
    forall i | 0 < i < |out| && !out[i].force && out[i].sampled.Some? && out[i - 1].sampled.Some? ::
      || out[i].now - out[i - 1].now >= 1000.0
      || !Tolerated(ToReal(out[i].sampled.value), ToReal(out[i - 1].sampled.value))
  }

  /** The pacer knows the last packet, or is as it was. */
  ghost predicate Remembers(q: Pacer, p: Pacer, out: seq<Attempt>) {
    if out == [] then q == p
    else var last := out[|out| - 1]; last.sampled.Some? && q == Pacer(true, last.sampled.value, last.now)
  }

  lemma OneMoreSent(p: Pacer, q: Pacer, out: seq<Attempt>, a: Attempt, rate: u32)
    requires SpacedOut(out, rate) && ForAReason(out) && Remembers(q, p, out) && Sends(q, a, rate)
    ensures SpacedOut(out + [a], rate) && ForAReason(out + [a]) && Remembers(Paced(q, a, rate), p, out + [a])
  {
    hide Changed, Tolerated, ToReal, Interval;
    if out != [] {
      ChangedIff(a.sampled.value, q.last);
    }
  }

  /** Whatever was sent before, an unforced packet leaves at least one interval after it and never without a reason,
      and what was sent last is what the pacer remembers. */
  lemma {:induction false} SendsApart(p: Pacer, attempts: seq<Attempt>, rate: u32)
    ensures SpacedOut(Sent(p, attempts, rate), rate) && ForAReason(Sent(p, attempts, rate))
    ensures Remembers(PaceAll(p, attempts, rate), p, Sent(p, attempts, rate))
  {
    hide SpacedOut, ForAReason, Remembers, Sends;
    if attempts == [] {
      NothingSent(p, rate);
    } else {
      var before, a := attempts[..|attempts| - 1], attempts[|attempts| - 1];
      SendsApart(p, before, rate);
      assert Sent(p, before, rate) + [] == Sent(p, before, rate);
      if Sends(PaceAll(p, before, rate), a, rate) {
        OneMoreSent(p, PaceAll(p, before, rate), Sent(p, before, rate), a, rate);
      }
    }
  }

  lemma NothingSent(p: Pacer, rate: u32)
    ensures SpacedOut([], rate) && ForAReason([]) && Remembers(p, p, [])
  {}

  /** Once an attempt has gone by, with an interval since the last packet, the last packet tells the truth up
      to the tolerances; and with a heartbeat gone by, or nothing remembered, it is the present state. */
  lemma NothingWithheld(p: Pacer, a: Attempt, rate: u32)
    requires a.sampled.Some? && (a.force || a.now - p.at >= Interval(rate))
    ensures var q := Paced(p, a, rate);
            && q.hasLast && Tolerated(ToReal(a.sampled.value), ToReal(q.last))
            && (a.force || a.now - p.at >= 1000.0 || !p.hasLast ==> q == Pacer(true, a.sampled.value, a.now))
  {
    hide Changed, ToReal, Interval;
    ChangedIff(a.sampled.value, a.sampled.value);
    ChangedIff(a.sampled.value, p.last);
  }

  /** In every run of attempts: one that is forced, or comes an interval or more after the last packet, leaves the
      server with the present state up to the tolerances, and if forced or after a heartbeat exactly. */
  lemma SentIsCurrent(p: Pacer, attempts: seq<Attempt>, a: Attempt, rate: u32)
    requires a.sampled.Some? && Sent(p, attempts, rate) != []
    requires var out := Sent(p, attempts, rate); a.force || a.now - out[|out| - 1].now >= Interval(rate)
    ensures var out, later := Sent(p, attempts, rate), Sent(p, attempts + [a], rate);
            var last := out[|out| - 1];
            && later != [] && later[|later| - 1].sampled.Some?
            && Tolerated(ToReal(a.sampled.value), ToReal(later[|later| - 1].sampled.value))
            && (a.force || a.now - last.now >= 1000.0 ==> later == out + [a])
  {
    hide Changed, Interval, Tolerated, ToReal;
    SendsApart(p, attempts, rate);
    NothingWithheld(PaceAll(p, attempts, rate), a, rate);
    assert (attempts + [a])[..|attempts|] == attempts;
    assert Sent(p, attempts, rate) + [] == Sent(p, attempts, rate);
  }

  // ---- the session ------------------------------------------------------------------

  datatype Client = Client(myId: PlayerId, welcomed: bool, serverName: Bytes, pacer: Pacer, remotes: C.Remotes)

  function NameList(r: C.Remotes): (names: map<PlayerId, Bytes>)
    ensures names.Keys == r.players.Keys
  {
    map id | id in r.players :: r.players[id].name
  }

  function ViewOf(c: Client): View { View(c.myId, NameList(c.remotes)) }

  /** What is read off the clocks and the local player while a packet is handled. */
  datatype Readings = Readings(localMs: real, attempt: Attempt, rate: u32)

  function HandleMsg(c: Client, m: Msg, r: Readings): Client {
    match m
    case Welcome(id, _, name, _) =>
      c.(myId := id, serverName := name, welcomed := true, pacer := Paced(c.pacer, r.attempt.(force := true), r.rate))
    case Joined(id, name) => if id != c.myId then c.(remotes := C.Add(c.remotes, id, name)) else c
    case Left(id) => c.(remotes := C.Remove(c.remotes, id))
    case Renamed(id, name) => if id != c.myId then c.(remotes := C.Rename(c.remotes, id, name)) else c
    case StateUpdate(id, stamp, state) =>
      if id != c.myId then c.(remotes := C.ApplyState(c.remotes, id, ToReal(state), stamp, r.localMs)) else c
    case _ => c
  }

  function HandleBytes(c: Client, bytes: Bytes, r: Readings): Client {
    var d := Decode(bytes);
    if d.Some? then HandleMsg(c, d.value.0, r) else c
  }

  ghost function Disconnected(c: Client): Client {
    Client(INVALID_PLAYER_ID, false, [], c.pacer.(hasLast := false), C.Clear(c.remotes))
  }

  function EnteredWorld(c: Client): Client {
    c.(remotes := C.ForgetActors(c.remotes), pacer := c.pacer.(hasLast := false))
  }

  lemma NameAdded(r: C.Remotes, id: PlayerId, name: Bytes)
    ensures NameList(C.Add(r, id, name)) == NameList(r)[id := name]
    ensures NameList(C.Rename(r, id, name)) == NameList(r)[id := name]
    ensures NameList(C.Remove(r, id)) == NameList(r) - {id}
  {
    hide C.Resolve, C.IsClone;
    assert C.Rename(r, id, name).players.Keys == C.Add(r, id, name).players.Keys;
  }

  lemma NameApplied(r: C.Remotes, id: PlayerId, state: RealState, stamp: u32, localMs: real)
    ensures NameList(C.ApplyState(r, id, state, stamp, localMs))
         == if id in r.players then NameList(r) else NameList(r)[id := Placeholder(id)]
  {
    hide T.Stored, T.Filtered, I.Unwrapped, Placeholder;
  }

  lemma HandleMsgView(c: Client, m: Msg, r: Readings)
    ensures ViewOf(HandleMsg(c, m, r)) == Apply(ViewOf(c), m)
  {
    hide C.Add, C.Rename, C.Remove, C.ApplyState, ToReal, Placeholder, NameList, Paced;
    match m {
      case Joined(id, name) => NameAdded(c.remotes, id, name);
      case Left(id) => NameAdded(c.remotes, id, []);
      case Renamed(id, name) => NameAdded(c.remotes, id, name);
      case StateUpdate(id, stamp, state) =>
        NameApplied(c.remotes, id, ToReal(state), stamp, r.localMs);
        ListedNames(c.remotes, id);
      case _ =>
    }
  }

  lemma ListedNames(r: C.Remotes, id: PlayerId)
    ensures id in NameList(r) <==> id in r.players
  {}

  /** A packet does to names and ids what the fold says, whatever else it does. */
  lemma HandleBytesView(c: Client, bytes: Bytes, r: Readings)
    ensures ViewOf(HandleBytes(c, bytes, r)) == ApplyBytes(ViewOf(c), bytes)
  {
    hide Decode, HandleMsg, Apply, ViewOf;
    var d := Decode(bytes);
    if d.Some? {
      HandleMsgView(c, d.value.0, r);
    }
  }

  // ---- whole sessions ---------------------------------------------------------------

  /** What happens to a client: packets, the end of the connection, and everything local. */
  datatype ClientEvent =
    | Packet(bytes: Bytes, readings: Readings)
    | Lost
    | Local(event: C.Event)
    | Tick(attempt: Attempt, rate: u32)
    | WorldEntered

  /** Frames, saves, loads, options and the engine; the roster is left to packets. */
  predicate IsLocal(e: C.Event) {
    e.FrameDone? || e.BeforeSave? || e.Reconfigured? || e.Switched? || e.WorldChanged? || e.EngineActs?
  }

  ghost predicate Possible(c: Client, e: ClientEvent) {
    e.Local? ==> IsLocal(e.event) && C.Enabled(c.remotes, e.event)
  }

  ghost function StepClient(c: Client, e: ClientEvent): Client
    requires Possible(c, e)
  {
    match e
    case Packet(bytes, readings) => HandleBytes(c, bytes, readings)
    case Lost => Disconnected(c)
    case Local(event) => c.(remotes := C.Step(c.remotes, event))
    case Tick(a, rate) => c.(pacer := Paced(c.pacer, a.(force := false), rate))
    case WorldEntered => EnteredWorld(c)
  }

  ghost predicate PossibleRun(c: Client, es: seq<ClientEvent>)
    decreases |es|, 0
  {
    es == [] ||
    var before := es[..|es| - 1];
    PossibleRun(c, before) && Possible(RunClient(c, before), es[|es| - 1])
  }

  ghost function RunClient(c: Client, es: seq<ClientEvent>): Client
    requires PossibleRun(c, es)
    decreases |es|, 1
  {
    if es == [] then c else StepClient(RunClient(c, es[..|es| - 1]), es[|es| - 1])
  }

  /** The packets since the connection was last lost. */
  function PacketsOf(es: seq<ClientEvent>): seq<Bytes> {
    if es == [] then []
    else
      var before := PacketsOf(es[..|es| - 1]);
      match es[|es| - 1]
      case Packet(bytes, _) => before + [bytes]
      case Lost => []
      case _ => before
  }

  lemma FrameNames(r: C.Remotes, order: seq<PlayerId>, f: C.Scene, luck: PlayerId -> C.Luck)
    requires C.InPlayers(order, r)
    ensures NameList(C.UpdateInOrder(r, order, f, luck)) == NameList(r)
  {
    if order != [] {
      var n := |order| - 1;
      FrameNames(r, order[..n], f, luck);
      FrameName(C.UpdateInOrder(r, order[..n], f, luck), order[n], f, luck(order[n]));
    }
  }

  lemma FrameName(r: C.Remotes, id: PlayerId, f: C.Scene, luck: C.Luck)
    requires id in r.players
    ensures NameList(C.Touch(r, id, f, luck)) == NameList(r)
  {
    hide C.UpdateOne;
    CF.FrameKeepsName(r.players[id], r.world, f, luck);
  }

  lemma ForgottenNames(r: C.Remotes)
    ensures NameList(C.ForgetActors(r)) == NameList(r)
  {}

  lemma DespawnedNames(r: C.Remotes, opts: C.Options)
    ensures NameList(C.DespawnAll(r)) == NameList(r) && NameList(C.Respawn(r, opts)) == NameList(r)
  {
    hide C.WithoutClones, C.ActorsIn;
  }

  lemma SamePlayersNames(r: C.Remotes, r1: C.Remotes)
    requires r1.players == r.players
    ensures NameList(r1) == NameList(r)
  {}

  lemma LocalNames(r: C.Remotes, e: C.Event)
    requires IsLocal(e) && C.Enabled(r, e)
    ensures NameList(C.Step(r, e)) == NameList(r)
  {
    hide C.UpdateInOrder, C.DespawnAll, C.Respawn, C.ForgetActors, NameList;
    if e.FrameDone? {
      if e.space.Some? {
        FrameNames(r, e.order, C.SceneOf(r, e.space.value, e.now, e.localMs), e.luck);
      }
    } else if e.BeforeSave? || e.Reconfigured? {
      DespawnedNames(r, if e.Reconfigured? then e.opts else r.opts);
    } else if e.WorldChanged? {
      ForgottenNames(r);
    } else {
      SamePlayersNames(r, C.Step(r, e));
    }
  }

  lemma LostView(c: Client)
    ensures ViewOf(Disconnected(c)) == START
  {}

  /** Between packets nothing touches the roster; what it is follows from the packets of this connection. */
  lemma {:induction false} SessionFollowsPackets(c: Client, es: seq<ClientEvent>)
    requires ViewOf(c) == START && PossibleRun(c, es)
    ensures ViewOf(RunClient(c, es)) == FoldBytes(PacketsOf(es))
  {
    hide HandleBytes, ApplyBytes, Disconnected, ViewOf, Paced, C.Step, C.Enabled;
    if es != [] {
      var before, e := es[..|es| - 1], es[|es| - 1];
      var d := RunClient(c, before);
      SessionFollowsPackets(c, before);
      match e {
        case Packet(bytes, readings) =>
          HandleBytesView(d, bytes, readings);
          assert PacketsOf(es)[..|PacketsOf(es)| - 1] == PacketsOf(before);
        case Lost => LostView(d);
        case Local(event) => LocalView(d, e);
        case Tick(_, _) => LocalView(d, e);
        case WorldEntered => LocalView(d, e);
      }
    }
  }

  /** The name in the last Welcome among some packets. */
  function WelcomeName(packets: seq<Bytes>): Option<Bytes> {
    if packets == [] then None
    else
      var d := Decode(packets[|packets| - 1]);
      if d.Some? && d.value.0.Welcome? then Some(d.value.0.serverName) else WelcomeName(packets[..|packets| - 1])
  }

  /** In every run the session is welcomed exactly if this connection has brought a Welcome, and shows the name in
      the last of them. */
  lemma {:induction false} WelcomedInEveryRun(c: Client, es: seq<ClientEvent>)
    requires !c.welcomed && c.serverName == [] && PossibleRun(c, es)
    ensures var d, name := RunClient(c, es), WelcomeName(PacketsOf(es));
            d.welcomed == name.Some? && d.serverName == if name.Some? then name.value else []
  {
    hide Decode, StepClient, Possible;
    if es != [] {
      var before, e := es[..|es| - 1], es[|es| - 1];
      WelcomedInEveryRun(c, before);
      StepWelcomed(RunClient(c, before), e);
      if e.Packet? {
        assert PacketsOf(es)[..|PacketsOf(es)| - 1] == PacketsOf(before);
      }
    }
  }

  lemma StepWelcomed(c: Client, e: ClientEvent)
    requires Possible(c, e)
    ensures var d := StepClient(c, e);
            match e
            case Packet(bytes, _) =>
              var m := Decode(bytes);
              if m.Some? && m.value.0.Welcome? then d.welcomed && d.serverName == m.value.0.serverName
              else d.welcomed == c.welcomed && d.serverName == c.serverName
            case Lost => !d.welcomed && d.serverName == []
            case _ => d.welcomed == c.welcomed && d.serverName == c.serverName
  {
    hide Decode, Paced, C.Step, C.Enabled, C.Add, C.Remove, C.Rename, C.ApplyState, C.Clear, ToReal;
  }

  /** A Welcome makes the client tell its state at once, whatever was sent when, if it knows it; and so does the next
      due tick after entering a world or losing the connection. */
  lemma WelcomeTellsState(c: Client, m: Msg, r: Readings, tick: Attempt)
    requires m.Welcome? && r.attempt.sampled.Some?
    requires tick.sampled.Some? && tick.now - c.pacer.at >= Interval(r.rate)
    ensures HandleBytes(c, EncodeBytes(m), r).pacer == Pacer(true, r.attempt.sampled.value, r.attempt.now)
    ensures Paced(EnteredWorld(c).pacer, tick, r.rate) == Pacer(true, tick.sampled.value, tick.now)
    ensures Paced(Disconnected(c).pacer, tick, r.rate) == Pacer(true, tick.sampled.value, tick.now)
  {
    hide Decode, EncodeBytes, Interval, Changed, C.Clear;
    DecodeEncode(m, []);
    assert EncodeBytes(m) + [] == EncodeBytes(m);
  }

  lemma LocalView(c: Client, e: ClientEvent)
    requires Possible(c, e) && (e.Local? || e.Tick? || e.WorldEntered?)
    ensures ViewOf(StepClient(c, e)) == ViewOf(c)
  {
    hide Paced, C.Step, C.Enabled, C.ForgetActors;
    if e.Local? {
      LocalNames(c.remotes, e.event);
    } else {
      ForgottenNames(c.remotes);
    }
  }

  // ---- client and server ------------------------------------------------------------

  /** The messages a schedule hands over, in order. */
  function Delivered(log: seq<Msg>, schedule: seq<Delivery>): seq<Msg> {
    if schedule == [] then []
    else
      var before := schedule[..|schedule| - 1];
      match schedule[|schedule| - 1]
      case Next => var k := Play(log, before).1; Delivered(log, before) + if k < |log| then [log[k]] else []
      case Early(m) => Delivered(log, before) + [m]
  }

  lemma {:induction false} DeliveredPlays(log: seq<Msg>, schedule: seq<Delivery>)
    ensures Fold(Delivered(log, schedule)) == Play(log, schedule).0
  {
    hide Apply;
    if schedule != [] {
      var before := schedule[..|schedule| - 1];
      DeliveredPlays(log, before);
      var k := Play(log, before).1;
      match schedule[|schedule| - 1] {
        case Next =>
          if k < |log| {
            Snoc(Delivered(log, before), log[k]);
          } else {
            assert Delivered(log, schedule) == Delivered(log, before);
          }
        case Early(m) => Snoc(Delivered(log, before), m);
      }
    }
  }

  lemma {:induction false} DeliveredGood(log: seq<Msg>, updates: seq<Msg>, schedule: seq<Delivery>)
    requires Sourced(updates, schedule)
    requires (forall m | m in log :: GoodContent(m)) && (forall m | m in updates :: GoodContent(m))
    ensures forall m | m in Delivered(log, schedule) :: GoodContent(m)
  {
    hide GoodContent, Play, Sourced;
    if schedule != [] {
      SourcedBefore(updates, schedule);
      DeliveredGood(log, updates, schedule[..|schedule| - 1]);
    }
  }

  /** End to end. After any run of the server, a client whose connection is open, whose reliable packets have
      all arrived with any selection of state updates in between, and to which anything local has happened
      meanwhile, lists exactly the other players and the bots, if and only if no update reached it after its
      player's PlayerLeft. */
  lemma ReplicaAgrees(env: S.Env, events: seq<S.Event>, p: S.Peer, schedule: seq<Delivery>, c: Client,
                      es: seq<ClientEvent>)
    requires S.SaneArithmetic(env) && S.EnabledRun(env, events)
    requires InSession(S.Run(env, events), p) && CaughtUp(S.Run(env, events), p, schedule)
    requires PacketsOf(es) == EncodeAll(Delivered(S.Run(env, events).logs[p], schedule))
    requires ViewOf(c) == START && PossibleRun(c, es)
    ensures var s, v := S.Run(env, events), ViewOf(RunClient(c, es));
            && v.myId == s.players[p].id
            && (L.Lists(v.names, L.Members(s.players - {p}, s.bots)) <==> Allowed(s.logs[p], schedule))
  {
    hide S.Run, Play, Allowed, Sourced, Delivered, EncodeAll, FoldBytes, Fold, GoodLog, GoodContent, L.Members,
         JoinedIds, RunClient, ViewOf;
    var s := S.Run(env, events);
    CrossChannelAgreement(env, events, p, schedule);
    SessionFollowsPackets(c, es);
    GoodContents(env, events, p);
    DeliveredGood(s.logs[p], s.updates[p], schedule);
    FoldGood(Delivered(s.logs[p], schedule));
    DeliveredPlays(s.logs[p], schedule);
  }

  lemma GoodContents(env: S.Env, events: seq<S.Event>, p: S.Peer)
    requires S.SaneArithmetic(env) && S.EnabledRun(env, events)
    requires InSession(S.Run(env, events), p)
    ensures forall m | m in S.Run(env, events).logs[p] :: GoodContent(m)
    ensures forall m | m in S.Run(env, events).updates[p] :: GoodContent(m)
  {
    hide S.Run, Fold, GoodLog, GoodContent, L.Members, JoinedIds;
    var s := S.Run(env, events);
    LogShape(env, events, p);
    LobbySteps.Reachable(env, events);
    assert L.LogOk(s, p);
    UpdatesGood(s, p);
  }

  lemma UpdatesGood(s: S.ServerState, p: S.Peer)
    requires p in s.players && L.LogOk(s, p)
    ensures forall m | m in s.updates[p] :: GoodContent(m)
  {}
}
