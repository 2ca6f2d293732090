/** The clones of `RemotePlayers.cpp` as a step machine over the player list and the engine's references. */
module CloneModel {
  import opened Types
  import opened Interp
  import opened Timeline
  import V = ClientView

  const SPAWN_RETRY_MS := 1000.0
  const SNAP_DISTANCE := 250.0

  type Handle = nat

  datatype Space = Space(worldspaceId: u32, cellId: u32, interior: bool)

  const NOWHERE := Space(0, 0, false)

  function SpaceFromState(s: RealState): Space { Space(s.worldspaceId, s.cellId, s.worldspaceId == 0) }

  /** Interiors are told apart by their cell, exteriors by their worldspace. */
  predicate SameArea(a: Space, b: Space) {
    a.interior == b.interior && if a.interior then a.cellId == b.cellId else a.worldspaceId == b.worldspaceId
  }

  // ---- the engine -------------------------------------------------------------------

  /** What the engine holds of an actor. `shown` is the display name set on the reference itself. */
  datatype Body = Body(
    dead: bool,
    sneaking: bool,
    weapon: bool,
    sprinting: bool,
    shown: Option<Bytes>,
    position: Vec3<real>,
    yaw: real,
    look: Look)

  /** Transparency and animation: what the locomotion variables of the graph hold, and whether clips may move the
      actor. */
  datatype Look = Look(alpha: real, gait: Option<Gait>, rootMotion: bool)
  datatype Gait = Gait(speed: real, running: bool, sprinting: bool)

  const STOP_SPEED := 8.0
  const RUN_SPEED := 260.0
  const MAX_SPEED := 900.0

  /** What `SetLocomotion` writes. */
  function Locomotion(speed: real, sprinting: bool): Gait {
    var capped := if speed < 0.0 then 0.0 else if speed > MAX_SPEED then MAX_SPEED else speed;
    var shown := if capped < STOP_SPEED then 0.0 else capped;
    Gait(shown, shown >= RUN_SPEED, sprinting && shown > 0.0)
  }

  datatype Target = Self | Clone(body: Body)

  /** What the handles resolve to, and the local player's own actor. */
  datatype World = World(targets: map<Handle, Target>, self: Body)

  function Resolve(w: World, actor: Option<Handle>): Option<Target> {
    if actor.Some? && actor.value in w.targets then Some(w.targets[actor.value]) else None
  }

  predicate IsClone(w: World, actor: Option<Handle>) {
    actor.Some? && actor.value in w.targets && w.targets[actor.value].Clone?
  }

  function Rewrite(w: World, h: Handle, body: Body): World
    requires h in w.targets
  {
    if w.targets[h].Self? then w.(self := body) else w.(targets := w.targets[h := Clone(body)])
  }

  function BodyOf(w: World, h: Handle): Body
    requires h in w.targets
  {
    if w.targets[h].Self? then w.self else w.targets[h].body
  }

  /** Disables and deletes the reference unless it is the local player. */
  function Despawned(w: World, actor: Option<Handle>): World {
    if IsClone(w, actor) then w.(targets := w.targets - {actor.value}) else w
  }

  function WithDead(b: Body, dead: bool): Body { b.(dead := dead) }

  /** `ApplyStateFlags`: only the bits that differ from `previous` are pushed. */
  function WithFlags(b: Body, flags: byte, previous: byte): Body {
    b.(sneaking := if Sneaking(flags) != Sneaking(previous) then Sneaking(flags) else b.sneaking,
       weapon := if WeaponDrawn(flags) != WeaponDrawn(previous) then WeaponDrawn(flags) else b.weapon,
       sprinting := if Sprinting(flags) != Sprinting(previous) then Sprinting(flags) else b.sprinting)
  }

  function DistanceSquared(a: Vec3<real>, b: Vec3<real>): real {
    (a.x - b.x) * (a.x - b.x) + (a.y - b.y) * (a.y - b.y) + (a.z - b.z) * (a.z - b.z)
  }

  /** A new actor as the engine places it: fully transparent, free to be moved by its clips. */
  function Placed(at: RealState): Body {
    Body(false, false, false, false, None, at.position, at.yaw, Look(0.0, None, true))
  }

  // ---- one remote player ------------------------------------------------------------

  /** What the walk animation is driven by. */
  datatype Stride = Stride(locomotionInit: bool, speed: real, lastRenderPos: Vec3<real>)

  const ORIGIN := Vec3(0.0, 0.0, 0.0)
  const AT_REST := Stride(false, 0.0, ORIGIN)

  /** `base` is the private copy of the NPC record: the name it carries. */
  datatype RemotePlayer = RemotePlayer(
    name: Bytes,
    snapshots: seq<TimedState>,
    base: Option<Bytes>,
    baseFailed: bool,
    actor: Option<Handle>,
    actorSpace: Space,
    actorDead: bool,
    actorPacified: bool,
    appliedFlags: byte,
    lastSpawnAttempt: real,
    hasLastRender: bool,
    lastRenderTime: real,
    stride: Stride)
  {
    function Latest(): RealState
      requires snapshots != []
    {
      snapshots[|snapshots| - 1].state
    }
  }

  const BLANK := RemotePlayer([], [], None, false, None, NOWHERE, false, false, STATE_NONE, 0.0, false, 0.0, AT_REST)

  datatype Options = Options(drive: bool, pacify: bool, cloak: bool, duplicate: bool, move: bool, baseForm: u32)

  const DEFAULTS := Options(true, true, true, false, false, 7)

  /** What the engine answers when asked this frame. `distance` is the square root the library takes of the squared
      horizontal distance from the last rendered position. */
  datatype Luck = Luck(baseAvailable: bool, spawned: Option<Handle>, pacified: bool, moved: Vec3<real>, distance: real)

  /** What a frame works with: where the local player is, the two clock readings. */
  datatype Scene = Scene(space: Space, now: real, renderMs: real, opts: Options)

  function ResetActor(p: RemotePlayer): RemotePlayer {
    p.(actor := None, actorDead := false, actorPacified := false, hasLastRender := false, appliedFlags := STATE_NONE,
       stride := p.stride.(locomotionInit := false, speed := 0.0))
  }

  /** Drops a handle to the local player, and a clone that should not be seen. */
  function TornDown(p: RemotePlayer, w: World, f: Scene): (r: (RemotePlayer, World))
    requires p.snapshots != []
    ensures r.0.snapshots == p.snapshots
  {
    var target := SpaceFromState(p.Latest());
    match Resolve(w, p.actor)
    case None => (p, w)
    case Some(Self) => (p.(actor := None), w)
    case Some(Clone(_)) =>
      if SameArea(target, f.space) && SameArea(p.actorSpace, target) then (p, w)
      else (p.(actor := None), Despawned(w, p.actor))
  }

  /** Makes or finds the base record; the flag says whether there is one. */
  function Based(p: RemotePlayer, f: Scene, luck: Luck): (RemotePlayer, bool) {
    if f.opts.duplicate then
      if p.base.None? && !p.baseFailed then
        (if luck.baseAvailable then p.(base := Some(p.name)) else p.(baseFailed := true), luck.baseAvailable)
      else (p, p.base.Some?)
    else (if luck.baseAvailable then p else p.(baseFailed := true), luck.baseAvailable)
  }

  /** A player without an actor: tries to place one, at most once per retry interval. */
  function Spawned(p: RemotePlayer, w: World, f: Scene, luck: Luck): (r: (RemotePlayer, World))
    requires p.snapshots != []
    ensures r.0.snapshots == p.snapshots
  {
    var latest := p.Latest();
    var target := SpaceFromState(latest);
    if !SameArea(target, f.space) || f.now - p.lastSpawnAttempt < SPAWN_RETRY_MS then (p, w)
    else
      var (q, hasBase) := Based(p.(lastSpawnAttempt := f.now), f, luck);
      if !hasBase then (q, w)
      else if luck.spawned.None? then (q.(actor := None), w)
      else
        var shown := if f.opts.duplicate then None else Some(q.name);
        (ResetActor(q).(actor := luck.spawned, actorSpace := target),
         w.(targets := w.targets[luck.spawned.value := Clone(Placed(latest).(shown := shown))]))
  }

  /** `DriveClone` or, experimentally, `DriveCloneByMove`. */
  function PutAt(b: Body, p: RemotePlayer, f: Scene, sample: RealState, luck: Luck): Body {
    var still := !p.hasLastRender || f.now - p.lastRenderTime <= 0.0;
    var near := DistanceSquared(sample.position, b.position) <= SNAP_DISTANCE * SNAP_DISTANCE;
    var byMove := f.opts.move && !still && near;
    b.(yaw := sample.yaw, position := if byMove then luck.moved else sample.position)
  }

  /** The flags without the dead bit. */
  function LiveFlags(flags: byte): byte { if Dead(flags) then flags - 4 else flags }

  function Opaque(b: Body): Body { if b.look.alpha < 1.0 then b.(look := b.look.(alpha := 1.0)) else b }

  /** The share of the new speed in the smoothed one, after `dt` seconds. */
  function Share(dt: real): real { Clamp01(dt * 12.0) }

  /** The speed of the rendered motion, smoothed. */
  function Smoothed(p: RemotePlayer, f: Scene, luck: Luck): real {
    var dt := (f.now - p.lastRenderTime) / 1000.0;
    if p.hasLastRender && dt > 0.0 then p.stride.speed + (luck.distance / dt - p.stride.speed) * Share(dt)
    else p.stride.speed
  }

  function Strode(p: RemotePlayer, f: Scene, sample: RealState, luck: Luck): Stride {
    p.stride.(speed := Smoothed(p, f, luck), lastRenderPos := sample.position)
  }

  function WithGait(b: Body, speed: real, sprinting: bool, first: bool): Body {
    b.(look := b.look.(gait := Some(Locomotion(speed, sprinting)), rootMotion := b.look.rootMotion && !first))
  }

  /** The clone is put where the sample says, and the rendered motion is remembered. */
  function Rendered(p: RemotePlayer, b: Body, f: Scene, sample: RealState, luck: Luck): (RemotePlayer, Body) {
    (p.(hasLastRender := true, lastRenderTime := f.now, stride := Strode(p, f, sample, luck)),
     PutAt(b, p, f, sample, luck))
  }

  /** Its dead bit is brought up to date, and while it lives its flags and gait. */
  function Acted(p: RemotePlayer, b: Body, flags: byte): (RemotePlayer, Body) {
    var q := p.(actorDead := Dead(flags));
    var c := if Dead(flags) != p.actorDead then WithDead(b, Dead(flags)) else b;
    if Dead(flags) then (q, c)
    else
      (q.(appliedFlags := LiveFlags(flags), stride := p.stride.(locomotionInit := true)),
       WithGait(WithFlags(c, LiveFlags(flags), p.appliedFlags), p.stride.speed, Sprinting(flags),
                !p.stride.locomotionInit))
  }

  /** A player with an actor: pacified and made opaque, and if driven at all rendered and acted out. */
  function Driven(p: RemotePlayer, b: Body, f: Scene, luck: Luck): (RemotePlayer, Body)
    requires p.snapshots != []
  {
    var q := if f.opts.pacify && !p.actorPacified then p.(actorPacified := luck.pacified) else p;
    if !f.opts.drive then (q, Opaque(b))
    else
      var (q1, b1) := Rendered(q, Opaque(b), f, Sample(p.snapshots, f.renderMs), luck);
      Acted(q1, b1, p.Latest().flags)
  }

  function DrivenIn(p: RemotePlayer, w: World, f: Scene, luck: Luck): (RemotePlayer, World)
    requires p.snapshots != []
  {
    if p.actor.Some? && p.actor.value in w.targets then
      var (q, b) := Driven(p, BodyOf(w, p.actor.value), f, luck);
      (q, Rewrite(w, p.actor.value, b))
    else (p, w)
  }

  function SpawnedIfMissing(p: RemotePlayer, w: World, f: Scene, luck: Luck): (r: (RemotePlayer, World))
    requires p.snapshots != []
    ensures r.0.snapshots == p.snapshots
  {
    if Resolve(w, p.actor).Some? then (p, w) else Spawned(p, w, f, luck)
  }

  function UpdateOne(p: RemotePlayer, w: World, f: Scene, luck: Luck): (RemotePlayer, World) {
    if p.snapshots == [] then (p, w)
    else
      var (p1, w1) := TornDown(p.(snapshots := Pruned(p.snapshots, f.renderMs)), w, f);
      var (p2, w2) := SpawnedIfMissing(p1, w1, f, luck);
      DrivenIn(p2, w2, f, luck)
  }

  // ---- all of them ------------------------------------------------------------------

  datatype Remotes = Remotes(
    players: map<PlayerId, RemotePlayer>,
    opts: Options,
    interpDelayMs: real,
    hasOffset: bool,
    offsetMs: real,
    clock: ClockState,
    world: World)

  function Add(s: Remotes, id: PlayerId, name: Bytes): Remotes {
    var p := if id in s.players then s.players[id] else BLANK;
    s.(players := s.players[id := p.(name := name, base := if p.base.Some? then Some(name) else None)])
  }

  function Rename(s: Remotes, id: PlayerId, name: Bytes): Remotes {
    if id !in s.players then Add(s, id, name)
    else
      var p, w := s.players[id], s.world;
      var q := p.(name := name, base := if p.base.Some? then Some(name) else None);
      s.(players := s.players[id := q],
         world := if Resolve(w, p.actor).Some?
                  then Rewrite(w, p.actor.value, BodyOf(w, p.actor.value).(shown := Some(name))) else w)
  }

  function Remove(s: Remotes, id: PlayerId): Remotes {
    if id !in s.players then s
    else s.(players := s.players - {id}, world := Despawned(s.world, s.players[id].actor))
  }

  function NoteServerTime(s: Remotes, serverMs: int, localMs: real): Remotes {
    s.(hasOffset := true,
       offsetMs := Filtered(if s.hasOffset then Some(s.offsetMs) else None, localMs - serverMs as real))
  }

  function ApplyState(s: Remotes, id: PlayerId, state: RealState, stamp: u32, localMs: real): Remotes {
    var s1 := if id in s.players then s else Add(s, id, V.Placeholder(id));
    var s2 := s1.(clock := Unwrapped(s1.clock, stamp));
    var s3 := NoteServerTime(s2, s2.clock.now, localMs);
    var p := s3.players[id];
    s3.(players := s3.players[id := p.(snapshots := Stored(p.snapshots, TimedState(state, s3.clock.now)))])
  }

  function Touch(s: Remotes, id: PlayerId, f: Scene, luck: Luck): Remotes
    requires id in s.players
  {
    var (p, w) := UpdateOne(s.players[id], s.world, f, luck);
    s.(players := s.players[id := p], world := w)
  }

  predicate InPlayers(order: seq<PlayerId>, s: Remotes) { forall id | id in order :: id in s.players }

  function UpdateInOrder(s: Remotes, order: seq<PlayerId>, f: Scene, luck: PlayerId -> Luck): (r: Remotes)
    requires InPlayers(order, s)
    ensures r.players.Keys == s.players.Keys
    ensures r == s.(players := r.players, world := r.world)
  {
    if order == [] then s
    else
      var n := |order| - 1;
      Touch(UpdateInOrder(s, order[..n], f, luck), order[n], f, luck(order[n]))
  }

  function SceneOf(s: Remotes, space: Space, now: real, localMs: real): Scene {
    Scene(space, now, localMs - s.offsetMs - s.interpDelayMs, s.opts)
  }

  function Update(s: Remotes, space: Option<Space>, now: real, localMs: real, luck: PlayerId -> Luck,
                  order: seq<PlayerId>): Remotes
    requires InPlayers(order, s)
  {
    if space.None? then s else UpdateInOrder(s, order, SceneOf(s, space.value, now, localMs), luck)
  }

  ghost function ActorsIn(s: Remotes, ids: set<PlayerId>): set<Handle> {
    set id | id in ids && id in s.players && s.players[id].actor.Some? :: s.players[id].actor.value
  }

  ghost function ActorsOf(s: Remotes): set<Handle> { ActorsIn(s, s.players.Keys) }

  /** The engine without the clones anybody holds. */
  ghost function WithoutClones(w: World, actors: set<Handle>): World {
    w.(targets := map h | h in w.targets && (h !in actors || w.targets[h].Self?) :: w.targets[h])
  }

  ghost function DespawnAll(s: Remotes): Remotes {
    s.(players := map id | id in s.players :: s.players[id].(actor := None),
       world := WithoutClones(s.world, ActorsOf(s)))
  }

  function Afresh(p: RemotePlayer): RemotePlayer { ResetActor(p).(base := None, baseFailed := false) }

  ghost function Respawn(s: Remotes, opts: Options): Remotes {
    DespawnAll(s).(players := map id | id in s.players :: Afresh(s.players[id]).(lastSpawnAttempt := 0.0), opts := opts)
  }

  function ForgetActors(s: Remotes): Remotes {
    s.(players := map id | id in s.players :: Afresh(s.players[id]))
  }

  ghost function Clear(s: Remotes): Remotes {
    DespawnAll(s).(players := map[], hasOffset := false, clock := UNSET)
  }

  // ---- events -----------------------------------------------------------------------

  datatype Event =
    | Joined(id: PlayerId, name: Bytes)
    | Renamed(id: PlayerId, name: Bytes)
    | Left(id: PlayerId)
    | Moved(id: PlayerId, state: RealState, stamp: u32, localMs: real)
    | FrameDone(space: Option<Space>, now: real, localMs: real, luck: PlayerId -> Luck, order: seq<PlayerId>)
    | BeforeSave
    | Reconfigured(opts: Options)
    | Switched(drive: bool, move: bool)
    | WorldChanged
    | Offline
    | EngineActs(world: World)

  predicate SameButMoved(b: Body, b1: Body) {
    b1 == b.(position := b1.position, yaw := b1.yaw, look := b1.look) && b1.look.rootMotion == b.look.rootMotion
  }

  /** The engine may move and animate clones, delete them, and let a handle resolve to the local player; it brings
      no deleted clone back and leaves their names, flags, deaths and the switch for root motion alone. */
  ghost predicate EngineMay(w: World, w1: World) {
    forall h | h in w1.targets && w1.targets[h].Clone? ::
      && h in w.targets && w.targets[h].Clone?
      && SameButMoved(w.targets[h].body, w1.targets[h].body)
  }

  /** A new reference gets a handle nobody holds. */
  ghost predicate FreshLuck(s: Remotes, luck: PlayerId -> Luck) {
    && (forall id: PlayerId | luck(id).spawned.Some? ::
          luck(id).spawned.value !in s.world.targets && luck(id).spawned.value !in ActorsOf(s))
    && (forall id1: PlayerId, id2: PlayerId | id1 != id2 && luck(id1).spawned.Some? ::
          luck(id1).spawned != luck(id2).spawned)
  }

  ghost predicate Enabled(s: Remotes, e: Event) {
    match e
    case FrameDone(_, _, _, luck, order) => IsOrder(order, s.players.Keys) && FreshLuck(s, luck)
    case EngineActs(world) => EngineMay(s.world, world)
    case Reconfigured(opts) => opts.drive == s.opts.drive && opts.move == s.opts.move
    case _ => true
  }

  ghost function Step(s: Remotes, e: Event): Remotes
    requires Enabled(s, e)
  {
    match e
    case Joined(id, name) => Add(s, id, name)
    case Renamed(id, name) => Rename(s, id, name)
    case Left(id) => Remove(s, id)
    case Moved(id, state, stamp, localMs) => ApplyState(s, id, state, stamp, localMs)
    case FrameDone(space, now, localMs, luck, order) => Update(s, space, now, localMs, luck, order)
    case BeforeSave => DespawnAll(s)
    case Reconfigured(opts) => Respawn(s, opts)
    case Switched(drive, move) => s.(opts := s.opts.(drive := drive, move := move))
    case WorldChanged => ForgetActors(s)
    case Offline => Clear(s)
    case EngineActs(world) => s.(world := world)
  }

  ghost function Start(delay: real, w: World): Remotes { Remotes(map[], DEFAULTS, delay, false, 0.0, UNSET, w) }

  ghost predicate EnabledRun(delay: real, w: World, es: seq<Event>)
    decreases |es|, 0
  {
    es == [] ||
    var before := es[..|es| - 1];
    EnabledRun(delay, w, before) && Enabled(Run(delay, w, before), es[|es| - 1])
  }

  ghost function Run(delay: real, w: World, es: seq<Event>): Remotes
    requires EnabledRun(delay, w, es)
    decreases |es|, 1
  {
    if es == [] then Start(delay, w) else Step(Run(delay, w, es[..|es| - 1]), es[|es| - 1])
  }
}
