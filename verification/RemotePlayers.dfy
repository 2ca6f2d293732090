/** The `RemotePlayers` object: every method does what the step machine says. */
module ReplicaSet {
  import opened Types
  import opened Interp
  import opened Timeline
  import opened CloneModel
  import opened CloneFrames
  import M = CloneModel
  import V = ClientView

  class RemotePlayers {
    var players: map<PlayerId, RemotePlayer>
    var interpDelayMs: real
    var baseFormId: u32
    var drive: bool
    var pacify: bool
    var cloak: bool       // `_ghost`
    var duplicate: bool
    var move: bool
    var hasOffset: bool
    var offsetMs: real
    const serverClock: ServerClock
    var world: World      // the engine, changed by the calls made here and by the engine itself

    function Opts(): Options
      reads this
    {
      Options(drive, pacify, cloak, duplicate, move, baseFormId)
    }

    ghost function State(): Remotes
      reads this, serverClock
    {
      Remotes(players, Opts(), interpDelayMs, hasOffset, offsetMs, serverClock.View(), world)
    }

    constructor (delay: real, w: World)
      ensures State() == Start(delay, w) && fresh(serverClock)
    {
      players, interpDelayMs, baseFormId := map[], delay, 7;
      drive, pacify, cloak, duplicate, move := true, true, true, false, false;
      hasOffset, offsetMs, world := false, 0.0, w;
      serverClock := new ServerClock();
    }

    // ---- bookkeeping ----------------------------------------------------------------

    method Add(id: PlayerId, name: Bytes)
      modifies this`players
      ensures State() == M.Add(old(State()), id, name)
    {
      var p := if id in players then players[id] else BLANK;
      p := p.(name := name);
      if p.base.Some? {
        p := p.(base := Some(name));
      }
      players := players[id := p];
    }

    method Rename(id: PlayerId, name: Bytes)
      modifies this`players, this`world
      ensures State() == M.Rename(old(State()), id, name)
    {
      hide Rewrite, BodyOf, Resolve;
      if id !in players {
        Add(id, name);
        return;
      }
      var p := players[id].(name := name);
      if p.base.Some? {
        p := p.(base := Some(name));
      }
      players := players[id := p];
      ResolvesSome(world, p.actor);
      if Resolve(world, p.actor).Some? {
        world := Rewrite(world, p.actor.value, BodyOf(world, p.actor.value).(shown := Some(name)));
      }
    }

    method Remove(id: PlayerId)
      modifies this`players, this`world
      ensures State() == M.Remove(old(State()), id)
    {
      if id !in players {
        return;
      }
      world := Despawned(world, players[id].actor);
      players := players - {id};
    }

    method ApplyState(id: PlayerId, state: RealState, stamp: u32, localMs: real)
      modifies this`players, this`hasOffset, this`offsetMs, serverClock
      ensures State() == M.ApplyState(old(State()), id, state, stamp, localMs)
    {
      hide Stored, Filtered, Unwrapped, V.Placeholder;
      if id !in players {
        Add(id, V.Placeholder(id));
      }
      var timeMs := serverClock.Unwrap(stamp);
      NoteServerTime(timeMs, localMs);
      Store(id, TimedState(state, timeMs));
    }

    /** A stale snapshot is dropped; beyond the bound the oldest ones go. */
    method Store(id: PlayerId, x: TimedState)
      requires id in players
      modifies this`players
      ensures players == old(players)[id := old(players)[id].(snapshots := Stored(old(players)[id].snapshots, x))]
    {
      var snapshots := players[id].snapshots;
      if snapshots != [] && x.timeMs <= snapshots[|snapshots| - 1].timeMs {
        assert players == players[id := players[id].(snapshots := snapshots)];
        return;
      }
      snapshots := snapshots + [x];
      if |snapshots| > MAX_SNAPSHOTS {
        snapshots := snapshots[|snapshots| - MAX_SNAPSHOTS..];
      }
      players := players[id := players[id].(snapshots := snapshots)];
    }

    method NoteServerTime(serverMs: int, localMs: real)
      modifies this`hasOffset, this`offsetMs
      ensures State() == M.NoteServerTime(old(State()), serverMs, localMs)
    {
      var sample := localMs - serverMs as real;
      if !hasOffset {
        hasOffset := true;
        offsetMs := sample;
      } else if sample < offsetMs {
        offsetMs := sample;
      } else {
        offsetMs := offsetMs + (sample - offsetMs) * 0.02;
      }
    }

    // ---- per frame ------------------------------------------------------------------

    /** One frame. `order` is the order in which the hash map was walked; no order gives another result. */
    method Update(space: Option<Space>, now: real, localMs: real, luck: PlayerId -> Luck)
        returns (ghost order: seq<PlayerId>)
      modifies this`players, this`world
      ensures IsOrder(order, old(players).Keys)
      ensures State() == M.Update(old(State()), space, now, localMs, luck, order)
    {
      hide UpdateInOrder, Touch, M.UpdateOne;
      if space.None? {
        order := OrderExists(players.Keys);
        return;
      }
      var f := Scene(space.value, now, localMs - offsetMs - interpDelayMs, Opts());
      ghost var s := State();
      NothingTouched(s, f, luck);
      order := [];
      var rest := players.Keys;
      while rest != {}
        invariant rest <= players.Keys && players.Keys == s.players.Keys
        invariant forall id :: id in order <==> id in s.players && id !in rest
        invariant Distinct(order)
        invariant State() == UpdateInOrder(s, order, f, luck)
      {
        var id :| id in rest;
        OneMoreTouched(s, order, id, f, luck);
        TouchOne(id, f, luck(id));
        rest := rest - {id};
        order := order + [id];
      }
    }

    method TouchOne(id: PlayerId, f: Scene, luck: Luck)
      requires id in players
      modifies this`players, this`world
      ensures State() == Touch(old(State()), id, f, luck)
    {
      hide M.UpdateOne;
      var p := UpdateOne(players[id], f, luck);
      players := players[id := p];
    }

    /** The frame of one player, who is written back by the caller. */
    method UpdateOne(p: RemotePlayer, f: Scene, luck: Luck) returns (q: RemotePlayer)
      modifies this`world
      ensures (q, world) == M.UpdateOne(p, old(world), f, luck)
    {
      q := p;
      if q.snapshots == [] {
        return;
      }
      var snapshots := Prune(q.snapshots, f.renderMs);
      q := q.(snapshots := snapshots);
      q := TearDown(q, f);
      if Resolve(world, q.actor).None? {
        q := Spawn(q, f, luck);
        if Resolve(world, q.actor).None? {
          return;
        }
      }
      q := Drive(q, f, luck);
    }

    method TearDown(p: RemotePlayer, f: Scene) returns (q: RemotePlayer)
      requires p.snapshots != []
      modifies this`world
      ensures (q, world) == TornDown(p, old(world), f)
    {
      q := p;
      var target := SpaceFromState(q.Latest());
      var actor := Resolve(world, q.actor);
      if actor == Some(Self) {
        q := q.(actor := None);
        actor := None;
      }
      if actor.Some? && (!SameArea(target, f.space) || !SameArea(q.actorSpace, target)) {
        world := Despawned(world, q.actor);
        q := q.(actor := None);
      }
    }

    method Spawn(p: RemotePlayer, f: Scene, luck: Luck) returns (q: RemotePlayer)
      requires p.snapshots != []
      modifies this`world
      ensures (q, world) == Spawned(p, old(world), f, luck)
    {
      q := p;
      var latest := q.Latest();
      var target := SpaceFromState(latest);
      if !SameArea(target, f.space) || f.now - q.lastSpawnAttempt < SPAWN_RETRY_MS {
        return;
      }
      q := q.(lastSpawnAttempt := f.now);
      var hasBase: bool;
      if f.opts.duplicate {
        if q.base.None? && !q.baseFailed {
          if luck.baseAvailable {
            q := q.(base := Some(q.name));
          }
          q := q.(baseFailed := q.base.None?);
        }
        hasBase := q.base.Some?;
      } else {
        hasBase := luck.baseAvailable;
        if !hasBase && !q.baseFailed {
          q := q.(baseFailed := true);
        }
      }
      if !hasBase {
        return;
      }
      q := q.(actor := luck.spawned);
      if q.actor.None? {
        return;
      }
      var body := Placed(latest);
      if !f.opts.duplicate {
        body := body.(shown := Some(q.name));
      }
      world := world.(targets := world.targets[q.actor.value := Clone(body)]);
      q := q.(actorSpace := target, actorDead := false, actorPacified := false, hasLastRender := false,
              appliedFlags := STATE_NONE, stride := q.stride.(locomotionInit := false, speed := 0.0));
    }

    method Drive(p: RemotePlayer, f: Scene, luck: Luck) returns (q: RemotePlayer)
      requires p.snapshots != [] && Resolve(world, p.actor).Some?
      modifies this`world
      ensures (q, world) == DrivenIn(p, old(world), f, luck)
    {
      hide Sample, Rendered, Acted;
      var h := p.actor.value;
      q := p;
      if f.opts.pacify && !q.actorPacified {
        q := q.(actorPacified := luck.pacified);
      }
      var body := BodyOf(world, h);
      if body.look.alpha < 1.0 {
        body := body.(look := body.look.(alpha := 1.0));
      }
      if !f.opts.drive {
        world := Rewrite(world, h, body);
        return;
      }
      var sample := SampleAt(q.snapshots, f.renderMs);
      q, body := Render(q, body, f, sample, luck);
      q, body := Act(q, body, p.Latest().flags);
      world := Rewrite(world, h, body);
    }

    // ---- lifecycle ------------------------------------------------------------------

    method DespawnAll()
      modifies this`players, this`world
      ensures State() == M.DespawnAll(old(State()))
    {
      hide WithoutClones, ActorsIn, Despawned, M.DespawnAll;
      var rest := players.Keys;
      ghost var s := State();
      ghost var done: set<PlayerId> := {};
      NothingDespawned(s);
      while rest != {}
        invariant done !! rest && done + rest == players.Keys == s.players.Keys
        invariant forall id | id in players ::
                    players[id] == if id in done then s.players[id].(actor := None) else s.players[id]
        invariant world == WithoutClones(s.world, ActorsIn(s, done))
      {
        var id :| id in rest;
        OneMoreDespawned(s, done, id);
        DespawnOne(id);
        rest := rest - {id};
        done := done + {id};
      }
      assert done == s.players.Keys;
      AllDespawned(s, players);
    }

    method DespawnOne(id: PlayerId)
      requires id in players
      modifies this`players, this`world
      ensures world == Despawned(old(world), old(players)[id].actor)
      ensures players == old(players)[id := old(players)[id].(actor := None)]
    {
      world := Despawned(world, players[id].actor);
      players := players[id := players[id].(actor := None)];
    }

    method Respawn()
      modifies this`players, this`world
      ensures State() == M.Respawn(old(State()), old(Opts()))
    {
      hide M.DespawnAll, M.Respawn, Renewed;
      ghost var s := State();
      DespawnAll();
      DespawnedPlayers(s);
      RenewAll();
      AllRenewed(s, players);
    }

    method RenewAll()
      modifies this`players
      ensures players.Keys == old(players.Keys)
      ensures forall id | id in players :: players[id] == Renewed(old(players)[id])
    {
      var rest := players.Keys;
      while rest != {}
        invariant rest <= players.Keys && players.Keys == old(players.Keys)
        invariant forall id | id in players ::
                    players[id] == if id in rest then old(players)[id] else Renewed(old(players)[id])
      {
        var id :| id in rest;
        var p := Renew(players[id]);
        players := players[id := p];
        rest := rest - {id};
      }
    }

    method SetCloneBase(formId: u32)
      modifies this`players, this`world, this`baseFormId
      ensures State() == M.Respawn(old(State()), old(Opts()).(baseForm := formId))
    {
      baseFormId := formId;
      Respawn();
    }

    method SetPacify(on: bool)
      modifies this`players, this`world, this`pacify
      ensures State() == M.Respawn(old(State()), old(Opts()).(pacify := on))
    {
      pacify := on;
      Respawn();
    }

    method SetGhost(on: bool)
      modifies this`players, this`world, this`cloak
      ensures State() == M.Respawn(old(State()), old(Opts()).(cloak := on))
    {
      cloak := on;
      Respawn();
    }

    method SetDuplicate(on: bool)
      modifies this`players, this`world, this`duplicate
      ensures State() == M.Respawn(old(State()), old(Opts()).(duplicate := on))
    {
      duplicate := on;
      Respawn();
    }

    method ForgetActors()
      modifies this`players
      ensures State() == M.ForgetActors(old(State()))
    {
      var rest := players.Keys;
      ghost var s := State();
      while rest != {}
        invariant rest <= players.Keys && players.Keys == s.players.Keys
        invariant forall id | id in players ::
                    players[id] == if id in rest then s.players[id] else Afresh(s.players[id])
      {
        var id :| id in rest;
        players := players[id := players[id].(actor := None, actorDead := false, actorPacified := false,
          hasLastRender := false,
                                              appliedFlags := STATE_NONE, base := None, baseFailed := false,
                                              stride := players[id].stride.(locomotionInit := false, speed := 0.0))];
        rest := rest - {id};
      }
      assert players == M.ForgetActors(s).players;
    }

    method Clear()
      modifies this`players, this`world, this`hasOffset, serverClock
      ensures State() == M.Clear(old(State()))
    {
      DespawnAll();
      players := map[];
      hasOffset := false;
      serverClock.Reset();
    }
  }

  method Render(p: RemotePlayer, b: Body, f: Scene, sample: RealState, luck: Luck) returns (q: RemotePlayer, body: Body)
    ensures (q, body) == Rendered(p, b, f, sample, luck)
  {
    hide PutAt, Smoothed;
    body := PutAt(b, p, f, sample, luck);
    var speed := Smooth(p, f, luck);
    q := p.(stride := p.stride.(speed := speed, lastRenderPos := sample.position), lastRenderTime := f.now,
      hasLastRender := true);
  }

  /** The speed that drives the walk, smoothed over about a twelfth of a second. */
  method Smooth(p: RemotePlayer, f: Scene, luck: Luck) returns (speed: real)
    ensures speed == Smoothed(p, f, luck)
  {
    hide Share;
    speed := p.stride.speed;
    if p.hasLastRender {
      var dt := (f.now - p.lastRenderTime) / 1000.0;
      if dt > 0.0 {
        var instant := luck.distance / dt;
        speed := speed + (instant - speed) * Share(dt);
      }
    }
  }

  /** Kills, resurrects, and while alive pushes flags and locomotion. */
  method Act(p: RemotePlayer, b: Body, latest: byte) returns (q: RemotePlayer, body: Body)
    ensures (q, body) == Acted(p, b, latest)
  {
    hide WithFlags, Locomotion;
    q, body := p, b;
    var dead := Dead(latest);
    if dead != q.actorDead {
      body := WithDead(body, dead);
      q := q.(actorDead := dead);
    }
    if !dead {
      var flags := LiveFlags(latest);
      body := ApplyStateFlags(body, flags, q.appliedFlags);
      q := q.(appliedFlags := flags);
      body := WithGait(body, q.stride.speed, Sprinting(flags), !q.stride.locomotionInit);
      q := q.(stride := q.stride.(locomotionInit := true));
    }
  }

  /** Pushes every bit that differs from `previous`. */
  method ApplyStateFlags(body: Body, flags: byte, previous: byte) returns (r: Body)
    ensures r == WithFlags(body, flags, previous)
    ensures FlagsAgree(body, previous) ==> FlagsAgree(r, flags)
  {
    r := body;
    if Sneaking(flags) != Sneaking(previous) {
      r := r.(sneaking := Sneaking(flags));
    }
    if WeaponDrawn(flags) != WeaponDrawn(previous) {
      r := r.(weapon := WeaponDrawn(flags));
    }
    if Sprinting(flags) != Sprinting(previous) {
      r := r.(sprinting := Sprinting(flags));
    }
  }

  lemma NothingTouched(s: Remotes, f: Scene, luck: PlayerId -> Luck)
    ensures UpdateInOrder(s, [], f, luck) == s
  {}

  lemma OneMoreTouched(s: Remotes, order: seq<PlayerId>, id: PlayerId, f: Scene, luck: PlayerId -> Luck)
    requires InPlayers(order, s) && id in s.players
    ensures UpdateInOrder(s, order + [id], f, luck) == Touch(UpdateInOrder(s, order, f, luck), id, f, luck(id))
  {
    hide Touch;
    assert (order + [id])[..|order|] == order;
  }

  lemma NothingDespawned(s: Remotes)
    ensures WithoutClones(s.world, ActorsIn(s, {})) == s.world
  {
    assert WithoutClones(s.world, ActorsIn(s, {})).targets == s.world.targets;
  }

  lemma OneMoreDespawned(s: Remotes, done: set<PlayerId>, id: PlayerId)
    requires id in s.players
    ensures Despawned(WithoutClones(s.world, ActorsIn(s, done)), s.players[id].actor)
         == WithoutClones(s.world, ActorsIn(s, done + {id}))
  {
    hide ActorsIn;
    var a := s.players[id].actor;
    OneMoreActor(s, done, id);
    assert Despawned(WithoutClones(s.world, ActorsIn(s, done)), a).targets
        == WithoutClones(s.world, ActorsIn(s, done + {id})).targets;
  }

  lemma OneMoreActor(s: Remotes, done: set<PlayerId>, id: PlayerId)
    requires id in s.players
    ensures forall h: Handle :: h in ActorsIn(s, done + {id}) <==>
        h in ActorsIn(s, done) || s.players[id].actor == Some(h)
  {}

  function Renewed(p: RemotePlayer): RemotePlayer { Afresh(p).(lastSpawnAttempt := 0.0) }

  method Renew(p: RemotePlayer) returns (q: RemotePlayer)
    ensures q == Renewed(p)
  {
    q := p.(actor := None, base := None, baseFailed := false, actorDead := false, actorPacified := false,
            hasLastRender := false, appliedFlags := STATE_NONE, lastSpawnAttempt := 0.0,
            stride := p.stride.(locomotionInit := false, speed := 0.0));
  }

  lemma AllDespawned(s: Remotes, players: map<PlayerId, RemotePlayer>)
    requires players.Keys == s.players.Keys && forall id | id in players :: players[id] == s.players[id].(actor := None)
    ensures M.DespawnAll(s) == s.(players := players, world := WithoutClones(s.world, ActorsIn(s, s.players.Keys)))
  {
    hide WithoutClones, ActorsIn;
    assert M.DespawnAll(s).players == players;
  }

  lemma DespawnedPlayers(s: Remotes)
    ensures M.DespawnAll(s).players.Keys == s.players.Keys
    ensures forall id | id in s.players :: M.DespawnAll(s).players[id] == s.players[id].(actor := None)
    ensures M.DespawnAll(s) == s.(players := M.DespawnAll(s).players, world := M.DespawnAll(s).world)
  {}

  lemma AllRenewed(s: Remotes, players: map<PlayerId, RemotePlayer>)
    requires players.Keys == s.players.Keys
    requires forall id | id in players :: players[id] == Renewed(M.DespawnAll(s).players[id])
    ensures M.Respawn(s, s.opts) == M.DespawnAll(s).(players := players)
  {
    hide M.DespawnAll;
    DespawnedPlayers(s);
    assert M.Respawn(s, s.opts).players == players;
  }

  lemma ResolvesSome(w: World, actor: Option<Handle>)
    ensures Resolve(w, actor).Some? <==> actor.Some? && actor.value in w.targets
  {}
}
