/** What one frame does to one clone, and to all of them in whatever order they come. */
module CloneFrames {
  import opened Types
  import opened Interp
  import opened Sampling
  import opened Timeline
  import opened CloneModel

  predicate FlagsAgree(b: Body, flags: byte) {
    b.sneaking == Sneaking(flags) && b.weapon == WeaponDrawn(flags) && b.sprinting == Sprinting(flags)
  }

  /** Death and flags as cached, and no root motion once the locomotion is set up. */
  predicate BodyOk(p: RemotePlayer, b: Body) {
    b.dead == p.actorDead && FlagsAgree(b, p.appliedFlags) && (p.stride.locomotionInit ==> !b.look.rootMotion)
  }

  /** What is cached of the clone behind a living handle is the engine's own. */
  predicate CloneOk(p: RemotePlayer, w: World) {
    IsClone(w, p.actor) ==>
      BodyOk(p, w.targets[p.actor.value].body)
  }

  /** A driven clone does what the latest snapshot and the timeline say. */
  predicate Mirrors(b: Body, p: RemotePlayer, f: Scene)
    requires p.snapshots != []
  {
    var flags, sample := p.Latest().flags, Sample(p.snapshots, f.renderMs);
    && b.dead == Dead(flags)
    && (!Dead(flags) ==>
          && FlagsAgree(b, flags) && !b.look.rootMotion
          && b.look.gait == Some(Locomotion(p.stride.speed, Sprinting(flags))))
    && b.yaw == sample.yaw
    && (!f.opts.move ==> b.position == sample.position)
  }

  /** Both inside the same cell, or both outside in the same worldspace. */
  predicate Together(latest: RealState, here: Space) {
    || (latest.worldspaceId == 0 && here.interior && latest.cellId == here.cellId)
    || (latest.worldspaceId != 0 && !here.interior && latest.worldspaceId == here.worldspaceId)
  }

  lemma TogetherIs(latest: RealState, here: Space)
    ensures SameArea(SpaceFromState(latest), here) == Together(latest, here)
    ensures SameArea(here, SpaceFromState(latest)) == Together(latest, here)
    ensures Together(latest, SpaceFromState(latest))
  {}

  /** After a frame: never the local player; a clone only where both can see each other, and driven. */
  predicate AsWanted(p: RemotePlayer, w: World, f: Scene)
    requires p.snapshots != []
  {
    && Resolve(w, p.actor) != Some(Self)
    && (IsClone(w, p.actor) ==>
          && Together(p.Latest(), f.space) && Together(p.Latest(), p.actorSpace)
          && w.targets[p.actor.value].body.look.alpha >= 1.0
          && (f.opts.drive ==> Mirrors(w.targets[p.actor.value].body, p, f)))
  }

  /** Only the handles of this player differ, and no clone of its own is left without it. */
  ghost predicate OnlyOwn(p: RemotePlayer, w: World, q: RemotePlayer, v: World, luck: Luck) {
    && q.name == p.name && v.self == w.self
    && (q.actor == p.actor || q.actor == None || (q.actor == luck.spawned && luck.spawned.Some?))
    && (forall h: Handle | Some(h) != p.actor && Some(h) != luck.spawned :: Resolve(v, Some(h)) == Resolve(w, Some(h)))
    && (forall h: Handle | IsClone(v, Some(h)) && Some(h) != q.actor :: Some(h) != p.actor && IsClone(w, Some(h)))
  }

  // ---- the stages -------------------------------------------------------------------

  lemma TornDownFacts(p: RemotePlayer, w: World, f: Scene)
    requires p.snapshots != [] && CloneOk(p, w)
    ensures var (q, v) := TornDown(p, w, f);
            && CloneOk(q, v) && q == p.(actor := q.actor)
            && Resolve(v, q.actor) != Some(Self)
            && (IsClone(v, q.actor) <==>
                  IsClone(w, p.actor) && Sees(p, f) && Together(p.Latest(), p.actorSpace))
            && (IsClone(v, q.actor) ==> q == p && v == w)
            && OnlyOwn(p, w, q, v, NO_LUCK)
  {
    hide FlagsAgree;
  }

  const NO_LUCK := Luck(false, None, false, ORIGIN, 0.0)

  predicate Sees(p: RemotePlayer, f: Scene)
    requires p.snapshots != []
  {
    Together(p.Latest(), f.space)
  }

  /** There is something to make an actor of: the shared record, or the player's own copy of it, which is asked for
      only until that has failed once. */
  predicate HasBase(p: RemotePlayer, f: Scene, luck: Luck) {
    if f.opts.duplicate then p.base.Some? || (!p.baseFailed && luck.baseAvailable) else luck.baseAvailable
  }

  /** An attempt to place an actor is due, and works out. */
  predicate Places(p: RemotePlayer, f: Scene, luck: Luck)
    requires p.snapshots != []
  {
    && Sees(p, f) && f.now - p.lastSpawnAttempt >= SPAWN_RETRY_MS
    && luck.spawned.Some? && HasBase(p, f, luck)
  }

  lemma BasedFacts(p: RemotePlayer, f: Scene, luck: Luck, at: real)
    ensures var (q, has) := Based(p, f, luck);
            && q == p.(base := q.base, baseFailed := q.baseFailed) && has == HasBase(p, f, luck)
            && (p.base.Some? ==> q.base == p.base) && (q.base.Some? ==> q.base == p.base || q.base.value == p.name)
            && Based(p.(lastSpawnAttempt := at), f, luck) == (q.(lastSpawnAttempt := at), has)
  {}

  lemma SpawnedFacts(p: RemotePlayer, w: World, f: Scene, luck: Luck)
    requires p.snapshots != [] && Resolve(w, p.actor).None?
    ensures var (q, v) := Spawned(p, w, f, luck);
            && CloneOk(q, v) && Resolve(v, q.actor) != Some(Self)
            && (IsClone(v, q.actor) <==> Places(p, f, luck))
            && (IsClone(v, q.actor) ==> Sees(q, f) && Together(q.Latest(), q.actorSpace))
            && OnlyOwn(p, w, q, v, luck)
  {
    hide Together, Spawned, Places, SameArea, SpaceFromState, FlagsAgree;
    if Places(p, f, luck) {
      SpawnedSome(p, w, f, luck);
      NewFlags(Placed(p.Latest()));
      PlacesSees(p, f, luck);
      TogetherIs(p.Latest(), f.space);
    } else {
      SpawnedNone(p, w, f, luck);
    }
  }

  lemma PlacesSees(p: RemotePlayer, f: Scene, luck: Luck)
    requires p.snapshots != [] && Places(p, f, luck)
    ensures Sees(p, f) && luck.spawned.Some?
  {}

  lemma NewFlags(b: Body)
    requires !b.sneaking && !b.weapon && !b.sprinting
    ensures FlagsAgree(b, STATE_NONE) && forall shown :: FlagsAgree(b.(shown := shown), STATE_NONE)
  {}

  /** The actor that an attempt places: alive, with no flags set, where the latest snapshot is. */
  lemma SpawnedSome(p: RemotePlayer, w: World, f: Scene, luck: Luck)
    requires p.snapshots != [] && Places(p, f, luck)
    ensures var (q, v) := Spawned(p, w, f, luck);
            var shown := if f.opts.duplicate then None else Some(p.name);
            && luck.spawned.Some?
            && v == w.(targets := w.targets[luck.spawned.value := Clone(Placed(p.Latest()).(shown := shown))])
            && q.name == p.name && q.snapshots == p.snapshots && q.actor == luck.spawned && !q.actorDead
            && q.appliedFlags == STATE_NONE
            && q.stride == p.stride.(locomotionInit := false, speed := 0.0) && !q.hasLastRender && !q.actorPacified
            && q.actorSpace == SpaceFromState(p.Latest())
            && (!f.opts.duplicate ==> q.base == p.base)
            && (f.opts.duplicate ==> q.base == if p.base.Some? then p.base else Some(p.name))
  {
    hide SameArea, SpaceFromState, Placed;
    TogetherIs(p.Latest(), f.space);
  }

  lemma SpawnedNone(p: RemotePlayer, w: World, f: Scene, luck: Luck)
    requires p.snapshots != [] && !Places(p, f, luck)
    ensures var (q, v) := Spawned(p, w, f, luck);
            && v == w && q.name == p.name && (q.actor == p.actor || q.actor == None)
            && (p.base.Some? ==> q.base == p.base) && (q.base.Some? ==> q.base == p.base || q.base.value == p.name)
  {
    hide SameArea, SpaceFromState, Placed, Based;
    TogetherIs(p.Latest(), f.space);
    BasedFacts(p, f, luck, f.now);
  }

  lemma LiveFlagsSame(flags: byte)
    requires !Dead(flags)
    ensures LiveFlags(flags) == flags
  {}

  lemma WithFlagsAgree(b: Body, flags: byte, previous: byte)
    requires FlagsAgree(b, previous)
    ensures FlagsAgree(WithFlags(b, flags, previous), flags)
    ensures var r := WithFlags(b, flags, previous);
            r == b.(sneaking := r.sneaking, weapon := r.weapon, sprinting := r.sprinting)
  {}

  lemma PutAtFacts(b: Body, p: RemotePlayer, f: Scene, sample: RealState, luck: Luck)
    ensures var r := PutAt(b, p, f, sample, luck);
            && r == b.(position := r.position, yaw := sample.yaw)
            && (!f.opts.move ==> r.position == sample.position)
  {}

  lemma DrivenKeeps(p: RemotePlayer, b: Body, f: Scene, luck: Luck)
    requires p.snapshots != []
    ensures var (q, c) := Driven(p, b, f, luck);
            && c.shown == b.shown
            && q == p.(actorPacified := q.actorPacified, actorDead := q.actorDead, appliedFlags := q.appliedFlags,
                       hasLastRender := q.hasLastRender, lastRenderTime := q.lastRenderTime, stride := q.stride)
  {
    hide Sample, Rendered, Acted;
    var q := if f.opts.pacify && !p.actorPacified then p.(actorPacified := luck.pacified) else p;
    var sample := Sample(p.snapshots, f.renderMs);
    RenderedKeeps(q, Opaque(b), f, sample, luck);
    var (q1, b1) := Rendered(q, Opaque(b), f, sample, luck);
    ActedKeeps(q1, b1, p.Latest().flags);
  }

  lemma RenderedKeeps(p: RemotePlayer, b: Body, f: Scene, sample: RealState, luck: Luck)
    ensures var (q, c) := Rendered(p, b, f, sample, luck);
            && c.shown == b.shown
            && q == p.(hasLastRender := q.hasLastRender, lastRenderTime := q.lastRenderTime, stride := q.stride)
  {
    hide Smoothed, DistanceSquared;
  }

  lemma ActedKeeps(p: RemotePlayer, b: Body, flags: byte)
    ensures var (q, c) := Acted(p, b, flags);
            && c.shown == b.shown
            && q == p.(actorDead := q.actorDead, appliedFlags := q.appliedFlags, stride := q.stride)
  {
    hide Sneaking, WeaponDrawn, Sprinting, Dead, LiveFlags, Locomotion;
  }

  lemma DrivenInKeeps(p: RemotePlayer, w: World, f: Scene, luck: Luck)
    requires p.snapshots != []
    ensures var q := DrivenIn(p, w, f, luck).0;
            q == p.(actorPacified := q.actorPacified, actorDead := q.actorDead, appliedFlags := q.appliedFlags,
                    hasLastRender := q.hasLastRender, lastRenderTime := q.lastRenderTime, stride := q.stride)
  {
    hide Driven;
    if p.actor.Some? && p.actor.value in w.targets {
      DrivenKeeps(p, BodyOf(w, p.actor.value), f, luck);
    }
  }

  lemma RenderedFacts(p: RemotePlayer, b: Body, f: Scene, sample: RealState, luck: Luck)
    requires BodyOk(p, b)
    ensures var (q, c) := Rendered(p, b, f, sample, luck);
            && BodyOk(q, c) && c.yaw == sample.yaw && (!f.opts.move ==> c.position == sample.position)
            && c == b.(position := c.position, yaw := c.yaw)
            && q == p.(hasLastRender := q.hasLastRender, lastRenderTime := q.lastRenderTime, stride := q.stride)
  {
    hide PutAt, Sneaking, WeaponDrawn, Sprinting, Smoothed;
    PutAtFacts(b, p, f, sample, luck);
  }

  lemma ActedFacts(p: RemotePlayer, b: Body, flags: byte)
    requires BodyOk(p, b)
    ensures var (q, c) := Acted(p, b, flags);
            && BodyOk(q, c) && c.dead == Dead(flags)
            && (!Dead(flags) ==>
                  && FlagsAgree(c, flags) && !c.look.rootMotion
                  && c.look.gait == Some(Locomotion(q.stride.speed, Sprinting(flags))))
            && c.position == b.position && c.yaw == b.yaw && c.look.alpha == b.look.alpha && c.shown == b.shown
            && q == p.(actorDead := q.actorDead, appliedFlags := q.appliedFlags, stride := q.stride)
  {
    hide WithFlags, Sneaking, WeaponDrawn, Sprinting, Dead, LiveFlags, Locomotion;
    var c := if Dead(flags) != p.actorDead then WithDead(b, Dead(flags)) else b;
    if !Dead(flags) {
      LiveFlagsSame(flags);
      WithFlagsAgree(c, flags, p.appliedFlags);
    }
  }

  lemma DrivenFacts(p: RemotePlayer, b: Body, f: Scene, luck: Luck)
    requires p.snapshots != [] && BodyOk(p, b)
    ensures var (q, c) := Driven(p, b, f, luck);
            && BodyOk(q, c) && c.look.alpha >= 1.0 && c.shown == b.shown
            && q.snapshots == p.snapshots && q.actor == p.actor && q.actorSpace == p.actorSpace
            && q.name == p.name && q.base == p.base && q.lastSpawnAttempt == p.lastSpawnAttempt
            && (f.opts.drive ==> Mirrors(c, q, f))
  {
    hide Sample, Rendered, Acted, FlagsAgree, Dead, Sprinting, Locomotion;
    var q := if f.opts.pacify && !p.actorPacified then p.(actorPacified := luck.pacified) else p;
    OpaqueOk(p, q, b);
    if f.opts.drive {
      var sample := Sample(p.snapshots, f.renderMs);
      RenderedFacts(q, Opaque(b), f, sample, luck);
      var (q1, b1) := Rendered(q, Opaque(b), f, sample, luck);
      ActedFacts(q1, b1, p.Latest().flags);
    }
  }

  lemma OpaqueOk(p: RemotePlayer, q: RemotePlayer, b: Body)
    requires BodyOk(p, b) && q == p.(actorPacified := q.actorPacified)
    ensures BodyOk(q, Opaque(b)) && Opaque(b).look.alpha >= 1.0 && Opaque(b).shown == b.shown
  {
    hide Sneaking, WeaponDrawn, Sprinting;
  }

  // ---- motion -----------------------------------------------------------------------

  /** The smoothed speed goes towards the speed of the rendered motion, twelve times the elapsed share of a second
      of the way, and never past it. */
  predicate Approaches(next: real, last: real, distance: real, dt: real)
    requires dt > 0.0
  {
    var instant := distance / dt;
    && Within(next, last, instant)
    && if 12.0 * dt >= 1.0 then next == instant else instant - next == (1.0 - 12.0 * dt) * (instant - last)
  }

  lemma SpeedApproaches(p: RemotePlayer, f: Scene, luck: Luck)
    requires p.hasLastRender && f.now > p.lastRenderTime
    ensures f.now - p.lastRenderTime > 0.0
    ensures Approaches(Smoothed(p, f, luck), p.stride.speed, luck.distance, (f.now - p.lastRenderTime) / 1000.0)
  {
    var dt := (f.now - p.lastRenderTime) / 1000.0;
    assert dt > 0.0;
    Approach(p.stride.speed, luck.distance / dt, Share(dt));
  }

  lemma Approach(speed: real, instant: real, share: real)
    requires 0.0 < share <= 1.0
    ensures var next := speed + (instant - speed) * share;
            instant - next == (1.0 - share) * (instant - speed) && Within(next, speed, instant)
  {
    LerpWithin(speed, instant, share);
  }

  /** How a clone is moved on from where it was rendered last: the actor walks there if it may, is close enough and
      time has gone by, and is put there otherwise; its speed follows. */
  predicate MovesOn(p: RemotePlayer, b: Body, q: RemotePlayer, c: Body, f: Scene, sample: RealState, luck: Luck) {
    var clockRan := p.hasLastRender && f.now > p.lastRenderTime;
    var dx, dy, dz :=
      sample.position.x - b.position.x, sample.position.y - b.position.y, sample.position.z - b.position.z;
    && q.hasLastRender && q.lastRenderTime == f.now && q.stride.lastRenderPos == sample.position
    && c.position ==
         (if f.opts.move && clockRan && dx * dx + dy * dy + dz * dz <= 62500.0 then luck.moved else sample.position)
    && (if clockRan then Approaches(q.stride.speed, p.stride.speed, luck.distance, (f.now - p.lastRenderTime) / 1000.0)
        else q.stride.speed == p.stride.speed)
  }

  /** From one frame to the next: pacified until that has worked; without driving nothing but made visible; with it
      moved on, and a corpse keeps whatever it had. */
  predicate GoesOn(p: RemotePlayer, b: Body, q: RemotePlayer, c: Body, f: Scene, luck: Luck)
    requires p.snapshots != []
  {
    var flags := p.Latest().flags;
    && q.actorPacified == (p.actorPacified || (f.opts.pacify && luck.pacified))
    && c.look.alpha == (if b.look.alpha < 1.0 then 1.0 else b.look.alpha)
    && (!f.opts.drive ==> q == p.(actorPacified := q.actorPacified) && c == b.(look := c.look) &&
                          c.look == b.look.(alpha := c.look.alpha))
    && (f.opts.drive ==> MovesOn(p, b, q, c, f, Sample(p.snapshots, f.renderMs), luck))
    && (f.opts.drive && Dead(flags) ==>
          && q.appliedFlags == p.appliedFlags && q.stride.locomotionInit == p.stride.locomotionInit
          && c == b.(dead := c.dead, position := c.position, yaw := c.yaw, look := b.look.(alpha := c.look.alpha)))
  }

  lemma RenderedMoves(p: RemotePlayer, b: Body, f: Scene, sample: RealState, luck: Luck)
    ensures var (q, c) := Rendered(p, b, f, sample, luck); MovesOn(p, b, q, c, f, sample, luck)
    ensures var (q, c) := Rendered(p, b, f, sample, luck);
            && c == b.(position := c.position, yaw := c.yaw)
            && q == p.(hasLastRender := true, lastRenderTime := f.now, stride := q.stride)
            && q.stride.locomotionInit == p.stride.locomotionInit
  {
    hide Smoothed, Approaches;
    if p.hasLastRender && f.now > p.lastRenderTime {
      SpeedApproaches(p, f, luck);
    } else {
      SpeedKept(p, f, luck);
    }
  }

  lemma SpeedKept(p: RemotePlayer, f: Scene, luck: Luck)
    requires !(p.hasLastRender && f.now > p.lastRenderTime)
    ensures Smoothed(p, f, luck) == p.stride.speed
  {}

  lemma ActedKeepsMotion(p: RemotePlayer, b: Body, flags: byte)
    ensures var (q, c) := Acted(p, b, flags);
            && q.stride == p.stride.(locomotionInit := q.stride.locomotionInit)
            && q == p.(actorDead := q.actorDead, appliedFlags := q.appliedFlags, stride := q.stride)
            && c.position == b.position && c.look.alpha == b.look.alpha
            && (Dead(flags) ==> c == b.(dead := c.dead) && q == p.(actorDead := true))
  {
    hide Sneaking, WeaponDrawn, Sprinting, Dead, LiveFlags, Locomotion;
  }

  lemma DrivenGoesOn(p: RemotePlayer, b: Body, f: Scene, luck: Luck)
    requires p.snapshots != []
    ensures var (q, c) := Driven(p, b, f, luck); GoesOn(p, b, q, c, f, luck)
  {
    hide Sample, Rendered, Acted, Dead, MovesOn;
    if f.opts.drive {
      DrivenMoves(p, b, f, luck);
      DrivenCorpse(p, b, f, luck);
      DrivenPacified(p, b, f, luck);
    }
  }

  lemma DrivenPacified(p: RemotePlayer, b: Body, f: Scene, luck: Luck)
    requires p.snapshots != [] && f.opts.drive
    ensures var (q, c) := Driven(p, b, f, luck);
            && q.actorPacified == (p.actorPacified || (f.opts.pacify && luck.pacified))
            && c.look.alpha == (if b.look.alpha < 1.0 then 1.0 else b.look.alpha)
  {
    hide Sample, Rendered, Acted, Dead, MovesOn;
    var p1 := if f.opts.pacify && !p.actorPacified then p.(actorPacified := luck.pacified) else p;
    var sample := Sample(p.snapshots, f.renderMs);
    var (q1, b1) := Rendered(p1, Opaque(b), f, sample, luck);
    RenderedMoves(p1, Opaque(b), f, sample, luck);
    ActedKeepsMotion(q1, b1, p.Latest().flags);
  }

  lemma DrivenCorpse(p: RemotePlayer, b: Body, f: Scene, luck: Luck)
    requires p.snapshots != [] && f.opts.drive
    ensures var (q, c) := Driven(p, b, f, luck);
            (Dead(p.Latest().flags) ==>
                  && q.appliedFlags == p.appliedFlags && q.stride.locomotionInit == p.stride.locomotionInit
                  && c == b.(dead := c.dead, position := c.position, yaw := c.yaw,
                             look := b.look.(alpha := c.look.alpha)))
  {
    hide Sample, Rendered, Acted, Dead, MovesOn;
    var p1 := if f.opts.pacify && !p.actorPacified then p.(actorPacified := luck.pacified) else p;
    var sample := Sample(p.snapshots, f.renderMs);
    var (q1, b1) := Rendered(p1, Opaque(b), f, sample, luck);
    RenderedMoves(p1, Opaque(b), f, sample, luck);
    ActedKeepsMotion(q1, b1, p.Latest().flags);
  }

  lemma DrivenMoves(p: RemotePlayer, b: Body, f: Scene, luck: Luck)
    requires p.snapshots != [] && f.opts.drive
    ensures var (q, c) := Driven(p, b, f, luck);
            && MovesOn(p, b, q, c, f, Sample(p.snapshots, f.renderMs), luck)
  {
    hide Sample, Rendered, Acted, Dead, MovesOn;
    var p1 := if f.opts.pacify && !p.actorPacified then p.(actorPacified := luck.pacified) else p;
    var sample := Sample(p.snapshots, f.renderMs);
    var (q1, b1) := Rendered(p1, Opaque(b), f, sample, luck);
    RenderedMoves(p1, Opaque(b), f, sample, luck);
    ActedKeepsMotion(q1, b1, p.Latest().flags);
    var (q, c) := Acted(q1, b1, p.Latest().flags);
    SameMotion(p1, Opaque(b), q1, b1, p, b, q, c, f, sample, luck);
  }

  lemma SameMotion(p1: RemotePlayer, b1: Body, q1: RemotePlayer, c1: Body, p: RemotePlayer, b: Body, q: RemotePlayer,
                   c: Body, f: Scene, sample: RealState, luck: Luck)
    requires MovesOn(p1, b1, q1, c1, f, sample, luck)
    requires p1 == p.(actorPacified := p1.actorPacified) && b1.position == b.position && c.position == c1.position
    requires q.hasLastRender == q1.hasLastRender && q.lastRenderTime == q1.lastRenderTime
    requires q.stride == q1.stride.(locomotionInit := q.stride.locomotionInit)
    ensures MovesOn(p, b, q, c, f, sample, luck)
  {
    hide Approaches;
  }

  lemma DrivenInFacts(p: RemotePlayer, w: World, f: Scene, luck: Luck)
    requires p.snapshots != [] && CloneOk(p, w) && Resolve(w, p.actor) != Some(Self)
    ensures var (q, v) := DrivenIn(p, w, f, luck);
            && CloneOk(q, v) && (IsClone(v, q.actor) <==> IsClone(w, p.actor))
            && q.snapshots == p.snapshots && q.actor == p.actor && q.actorSpace == p.actorSpace
            && Resolve(v, q.actor) != Some(Self)
            && (IsClone(v, q.actor) ==> v.targets[q.actor.value].body.look.alpha >= 1.0)
            && (IsClone(v, q.actor) && f.opts.drive ==> Mirrors(v.targets[q.actor.value].body, q, f))
            && OnlyOwn(p, w, q, v, NO_LUCK)
  {
    hide Driven, Mirrors, FlagsAgree, BodyOk;
    if IsClone(w, p.actor) {
      DrivenFacts(p, w.targets[p.actor.value].body, f, luck);
    }
  }

  lemma OnlyOwnChain(p: RemotePlayer, w: World, p1: RemotePlayer, w1: World, p2: RemotePlayer, w2: World, luck: Luck)
    requires OnlyOwn(p, w, p1, w1, NO_LUCK) && OnlyOwn(p1, w1, p2, w2, luck)
    ensures OnlyOwn(p, w, p2, w2, luck)
  {}

  lemma OnlyOwnThen(p: RemotePlayer, w: World, p1: RemotePlayer, w1: World, p2: RemotePlayer, w2: World, luck: Luck)
    requires OnlyOwn(p, w, p1, w1, luck) && OnlyOwn(p1, w1, p2, w2, NO_LUCK) && p2.actor == p1.actor
    ensures OnlyOwn(p, w, p2, w2, luck)
  {}

  lemma NothingOwn(p: RemotePlayer, w: World, luck: Luck)
    ensures OnlyOwn(p, w, p, w, luck)
  {}

  /** Slower than 8 units a second is standing, from 260 on it is running, and 900 is as fast as legs go. */
  lemma GaitFollowsSpeed(speed: real, sprinting: bool)
    ensures var g := Locomotion(speed, sprinting);
            && (speed < 8.0 ==> g == Gait(0.0, false, false)) && (8.0 <= speed <= 900.0 ==> g.speed == speed)
            && (speed > 900.0 ==> g.speed == 900.0) && (g.running <==> speed >= 260.0)
            && (g.sprinting <==> sprinting && speed >= 8.0)
  {}

  // ---- one player's frame -----------------------------------------------------------

  /** The clone there was and may stay. */
  predicate Survives(p: RemotePlayer, w: World, f: Scene)
    requires p.snapshots != []
  {
    IsClone(w, p.actor) && Sees(p, f) && Together(p.Latest(), p.actorSpace)
  }

  lemma OneFrame(p: RemotePlayer, w: World, f: Scene, luck: Luck)
    requires CloneOk(p, w)
    ensures var (q, v) := UpdateOne(p, w, f, luck);
            && CloneOk(q, v) && OnlyOwn(p, w, q, v, luck)
            && q.snapshots == Pruned(p.snapshots, f.renderMs)
            && (p.snapshots != [] ==>
                  AsWanted(q, v, f) && (IsClone(v, q.actor) <==> Survives(p, w, f) || Places(p, f, luck)))
  {
    hide TornDown, Spawned, DrivenIn, Pruned, Resolve, CloneOk, OnlyOwn, IsClone, Mirrors, SameArea, SpaceFromState,
         Based, Survives, Places;
    if p.snapshots == [] {
      NothingOwn(p, w, luck);
      PrunedEmpty(f.renderMs);
    } else {
      var p0 := p.(snapshots := Pruned(p.snapshots, f.renderMs));
      var (p1, w1) := TornDown(p0, w, f);
      SamePlayer(p, p0, w, f, luck);
      TornDownFacts(p0, w, f);
      SurvivesIs(p0, w, f);
      SamePlace(p0, p1, f, luck);
      var (p2, w2) := SpawnedIfMissing(p1, w1, f, luck);
      OneSpawn(p1, w1, f, luck);
      OnlyOwnChain(p0, w, p1, w1, p2, w2, luck);
      var (p3, w3) := DrivenIn(p2, w2, f, luck);
      DrivenInFacts(p2, w2, f, luck);
      OnlyOwnThen(p0, w, p2, w2, p3, w3, luck);
      SameOwn(p, p0, w, p3, w3, luck);
    }
  }

  /** An attempt asks for the shared record, or makes the player's own copy if it has none and has not failed to. */
  predicate BaseAsked(p: RemotePlayer, base: Option<Bytes>, failed: bool, due: bool, f: Scene, luck: Luck) {
    var asks := due && (!f.opts.duplicate || (p.base.None? && !p.baseFailed));
    && base == (if asks && f.opts.duplicate && luck.baseAvailable then Some(p.name) else p.base)
    && failed == (p.baseFailed || (asks && !luck.baseAvailable))
  }

  /** Attempts to place an actor are paced: the time noted moves exactly when one is due, is visible and finds
      no clone to keep, and then the interval has gone by. Bases are made and given up on only then. */
  lemma AttemptsPaced(p: RemotePlayer, w: World, f: Scene, luck: Luck)
    requires CloneOk(p, w) && p.snapshots != []
    ensures var due := !Survives(p, w, f) && Sees(p, f) && f.now - p.lastSpawnAttempt >= SPAWN_RETRY_MS;
            var q := UpdateOne(p, w, f, luck).0;
            && q.lastSpawnAttempt == (if due then f.now else p.lastSpawnAttempt)
            && BaseAsked(p, q.base, q.baseFailed, due, f, luck)
  {
    hide TornDown, Spawned, DrivenIn, Pruned, CloneOk, OnlyOwn, SameArea, SpaceFromState, Survives;
    var p0 := p.(snapshots := Pruned(p.snapshots, f.renderMs));
    SamePlayer(p, p0, w, f, luck);
    TornDownFacts(p0, w, f);
    SurvivesIs(p0, w, f);
    var (p1, w1) := TornDown(p0, w, f);
    SpawnedAttempt(p1, w1, f, luck);
    var (p2, w2) := SpawnedIfMissing(p1, w1, f, luck);
    DrivenInKeeps(p2, w2, f, luck);
  }

  lemma SpawnedAttempt(p: RemotePlayer, w: World, f: Scene, luck: Luck)
    requires p.snapshots != []
    ensures var q, due := Spawned(p, w, f, luck).0, Sees(p, f) && f.now - p.lastSpawnAttempt >= SPAWN_RETRY_MS;
            && q.lastSpawnAttempt == (if due then f.now else p.lastSpawnAttempt)
            && BaseAsked(p, q.base, q.baseFailed, due, f, luck)
  {
    hide SameArea, SpaceFromState, Placed, Based, BaseAsked, Together;
    TogetherIs(p.Latest(), f.space);
    BasedAsks(p, f, luck);
  }

  lemma BasedAsks(p: RemotePlayer, f: Scene, luck: Luck)
    ensures var q := Based(p.(lastSpawnAttempt := f.now), f, luck).0;
            && q.lastSpawnAttempt == f.now && BaseAsked(p, q.base, q.baseFailed, true, f, luck)
            && BaseAsked(p, p.base, p.baseFailed, false, f, luck)
  {}

  /** In a frame that leaves a clone: one that was there goes on from what was cached of it, and a new one from a
      clean slate at the latest snapshot, alive, labelled and at rest. */
  lemma CloneGoesOn(p: RemotePlayer, w: World, f: Scene, luck: Luck)
    requires CloneOk(p, w) && p.snapshots != [] && IsClone(UpdateOne(p, w, f, luck).1, UpdateOne(p, w, f, luck).0.actor)
    ensures var (q, v) := UpdateOne(p, w, f, luck);
            var p0, c := p.(snapshots := q.snapshots), v.targets[q.actor.value].body;
            && q.snapshots == Pruned(p.snapshots, f.renderMs)
            && if Survives(p, w, f) then q.actor == p.actor && GoesOn(p0, w.targets[p.actor.value].body, q, c, f, luck)
               else
                 var at, shown := p.Latest(), if f.opts.duplicate then None else Some(p.name);
                 var b := Body(false, false, false, false, shown, at.position, at.yaw, Look(0.0, None, true));
                 && q.actor == luck.spawned
                 && exists p1: RemotePlayer | p1.snapshots == q.snapshots && Rests(p1) :: GoesOn(p1, b, q, c, f, luck)
  {
    hide TornDown, Spawned, DrivenIn, Pruned, CloneOk, SameArea, SpaceFromState, Survives, Places, GoesOn, OnlyOwn,
         Mirrors;
    var p0 := p.(snapshots := Pruned(p.snapshots, f.renderMs));
    SamePlayer(p, p0, w, f, luck);
    TornDownFacts(p0, w, f);
    SurvivesIs(p0, w, f);
    var (p1, w1) := TornDown(p0, w, f);
    SamePlace(p0, p1, f, luck);
    var (p2, w2) := SpawnedIfMissing(p1, w1, f, luck);
    OneSpawn(p1, w1, f, luck);
    DrivenInFacts(p2, w2, f, luck);
    DrivenInGoesOn(p2, w2, f, luck);
    if !Survives(p, w, f) {
      SpawnedSome(p1, w1, f, luck);
    }
  }

  /** What is cached of a clone just placed. */
  predicate Rests(p: RemotePlayer) {
    !p.actorDead && !p.actorPacified && !p.hasLastRender && p.appliedFlags == STATE_NONE
    && !p.stride.locomotionInit && p.stride.speed == 0.0
  }

  lemma DrivenInGoesOn(p: RemotePlayer, w: World, f: Scene, luck: Luck)
    requires p.snapshots != [] && IsClone(w, p.actor)
    ensures var (q, v) := DrivenIn(p, w, f, luck);
            && q.actor == p.actor && IsClone(v, q.actor)
            && GoesOn(p, w.targets[p.actor.value].body, q, v.targets[q.actor.value].body, f, luck)
  {
    hide Driven, GoesOn;
    DrivenGoesOn(p, w.targets[p.actor.value].body, f, luck);
    DrivenKeeps(p, w.targets[p.actor.value].body, f, luck);
  }

  /** A frame leaves the name alone. */
  lemma FrameKeepsName(p: RemotePlayer, w: World, f: Scene, luck: Luck)
    ensures UpdateOne(p, w, f, luck).0.name == p.name
  {
    hide TornDown, Spawned, DrivenIn, Pruned, Resolve;
    if p.snapshots != [] {
      var p0 := p.(snapshots := Pruned(p.snapshots, f.renderMs));
      var (p1, w1) := TornDown(p0, w, f);
      TornDownKeeps(p0, w, f);
      SpawnedKeepsName(p1, w1, f, luck);
      var (p2, w2) := SpawnedIfMissing(p1, w1, f, luck);
      DrivenInKeeps(p2, w2, f, luck);
    }
  }

  lemma TornDownKeeps(p: RemotePlayer, w: World, f: Scene)
    requires p.snapshots != []
    ensures var q := TornDown(p, w, f).0; q == p.(actor := q.actor)
  {
    hide SameArea, SpaceFromState;
  }

  lemma SpawnedKeepsName(p: RemotePlayer, w: World, f: Scene, luck: Luck)
    requires p.snapshots != []
    ensures Spawned(p, w, f, luck).0.name == p.name
  {
    hide SameArea, SpaceFromState, Placed, Based;
    BasedFacts(p, f, luck, f.now);
  }

  lemma SurvivesIs(p: RemotePlayer, w: World, f: Scene)
    requires p.snapshots != []
    ensures Survives(p, w, f) <==>
              IsClone(w, p.actor) && Sees(p, f) && Together(p.Latest(), p.actorSpace)
  {}

  lemma OneSpawn(p: RemotePlayer, w: World, f: Scene, luck: Luck)
    requires p.snapshots != [] && CloneOk(p, w) && Resolve(w, p.actor) != Some(Self)
    requires IsClone(w, p.actor) ==> Sees(p, f) && Together(p.Latest(), p.actorSpace)
    ensures var (q, v) := SpawnedIfMissing(p, w, f, luck);
            && CloneOk(q, v) && Resolve(v, q.actor) != Some(Self) && OnlyOwn(p, w, q, v, luck)
            && (IsClone(v, q.actor) <==> IsClone(w, p.actor) || Places(p, f, luck))
            && (IsClone(v, q.actor) ==> Sees(q, f) && Together(q.Latest(), q.actorSpace))
  {
    hide Spawned, CloneOk, OnlyOwn, Sees, SameArea, SpaceFromState, Places;
    if Resolve(w, p.actor).Some? {
      NothingOwn(p, w, luck);
    } else {
      SpawnedFacts(p, w, f, luck);
    }
  }

  /** Pruning changes nothing else. */
  lemma SamePlayer(p: RemotePlayer, p0: RemotePlayer, w: World, f: Scene, luck: Luck)
    requires p.snapshots != [] && p0 == p.(snapshots := Pruned(p.snapshots, f.renderMs))
    ensures p0.snapshots != [] && p0.Latest() == p.Latest()
    ensures CloneOk(p0, w) == CloneOk(p, w) && Survives(p0, w, f) == Survives(p, w, f)
    ensures Places(p0, f, luck) == Places(p, f, luck)
  {
    hide Pruned, SameArea, FlagsAgree;
  }

  lemma SameOwn(p: RemotePlayer, p0: RemotePlayer, w: World, q: RemotePlayer, v: World, luck: Luck)
    requires OnlyOwn(p0, w, q, v, luck) && p0.actor == p.actor && p0.name == p.name
    ensures OnlyOwn(p, w, q, v, luck)
  {}

  lemma SamePlace(p: RemotePlayer, q: RemotePlayer, f: Scene, luck: Luck)
    requires p.snapshots != [] && q == p.(actor := q.actor)
    ensures Places(q, f, luck) == Places(p, f, luck)
  {}

  lemma PrunedEmpty(renderMs: real)
    ensures Pruned([], renderMs) == []
  {}
}
