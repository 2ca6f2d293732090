/** Whole frames and whole runs of `RemotePlayers`. */
module CloneRuns {
  import opened Types
  import opened Timeline
  import opened CloneModel
  import opened CloneFrames

  // ---- a frame, whatever the order --------------------------------------------------

  /** What a frame makes of a player depends on the rest of the engine not at all. */
  lemma UpdateOneLocal(p: RemotePlayer, w1: World, w2: World, f: Scene, luck: Luck)
    requires Resolve(w1, p.actor) == Resolve(w2, p.actor)
    ensures var (q1, v1) := UpdateOne(p, w1, f, luck);
            var (q2, v2) := UpdateOne(p, w2, f, luck);
            q1 == q2 && Resolve(v1, q1.actor) == Resolve(v2, q2.actor)
  {
    hide TornDown, Spawned, DrivenIn, Pruned, Resolve;
    if p.snapshots != [] {
      var p0 := p.(snapshots := Pruned(p.snapshots, f.renderMs));
      var (p1, u1) := TornDown(p0, w1, f);
      var (p2, u2) := TornDown(p0, w2, f);
      TornDownLocal(p0, w1, w2, f);
      var (q1, v1) := SpawnedIfMissing(p1, u1, f, luck);
      var (q2, v2) := SpawnedIfMissing(p2, u2, f, luck);
      SpawnedLocal(p1, u1, u2, f, luck);
      DrivenInLocal(q1, v1, v2, f, luck);
    }
  }

  lemma TornDownLocal(p: RemotePlayer, w1: World, w2: World, f: Scene)
    requires p.snapshots != [] && Resolve(w1, p.actor) == Resolve(w2, p.actor)
    ensures var (q1, v1) := TornDown(p, w1, f);
            var (q2, v2) := TornDown(p, w2, f);
            q1 == q2 && Resolve(v1, q1.actor) == Resolve(v2, q2.actor) && Resolve(v1, q1.actor) != Some(Self)
  {
    hide SameArea, SpaceFromState;
  }

  lemma SpawnedLocal(p: RemotePlayer, w1: World, w2: World, f: Scene, luck: Luck)
    requires p.snapshots != [] && Resolve(w1, p.actor) == Resolve(w2, p.actor) && Resolve(w1, p.actor) != Some(Self)
    ensures var (q1, v1) := SpawnedIfMissing(p, w1, f, luck);
            var (q2, v2) := SpawnedIfMissing(p, w2, f, luck);
            q1 == q2 && Resolve(v1, q1.actor) == Resolve(v2, q2.actor) && Resolve(v1, q1.actor) != Some(Self)
  {
    hide SameArea, SpaceFromState, Based;
    BasedFacts(p, f, luck, f.now);
  }

  lemma DrivenInLocal(p: RemotePlayer, w1: World, w2: World, f: Scene, luck: Luck)
    requires p.snapshots != [] && Resolve(w1, p.actor) == Resolve(w2, p.actor) && Resolve(w1, p.actor) != Some(Self)
    ensures var (q1, v1) := DrivenIn(p, w1, f, luck);
            var (q2, v2) := DrivenIn(p, w2, f, luck);
            q1 == q2 && Resolve(v1, q1.actor) == Resolve(v2, q2.actor)
  {
    hide Driven;
    if IsClone(w1, p.actor) {
      DrivenKeeps(p, w1.targets[p.actor.value].body, f, luck);
    }
  }

  ghost predicate OwnActors(s: Remotes) {
    forall a, b | a in s.players && b in s.players && a != b && s.players[a].actor.Some? ::
      s.players[a].actor != s.players[b].actor
  }

  ghost predicate ClonesOk(s: Remotes) { forall id | id in s.players :: CloneOk(s.players[id], s.world) }

  /** No handle to be given out is already held. */
  ghost predicate NewHandles(s: Remotes, luck: PlayerId -> Luck) {
    && (forall id: PlayerId, q: PlayerId | luck(id).spawned.Some? && q in s.players ::
          luck(id).spawned != s.players[q].actor)
    && (forall id1: PlayerId, id2: PlayerId | id1 != id2 && luck(id1).spawned.Some? ::
          luck(id1).spawned != luck(id2).spawned)
  }

  lemma FreshIsNew(s: Remotes, luck: PlayerId -> Luck)
    requires FreshLuck(s, luck)
    ensures NewHandles(s, luck)
  {
    forall id: PlayerId, q: PlayerId | luck(id).spawned.Some? && q in s.players
      ensures luck(id).spawned != s.players[q].actor
    {
      assert s.players[q].actor.Some? ==> s.players[q].actor.value in ActorsOf(s);
    }
  }

  /** This player is done as if it had been the only one, or not touched yet. */
  ghost predicate DoneOne(s: Remotes, t: Remotes, id: PlayerId, done: bool, f: Scene, luck: Luck)
    requires id in s.players && id in t.players
  {
    var (q, v) := if done then UpdateOne(s.players[id], s.world, f, luck) else (s.players[id], s.world);
    && t.players[id] == q && Resolve(t.world, q.actor) == Resolve(v, q.actor)
    && (q.actor == s.players[id].actor || q.actor == None || (luck.spawned.Some? && q.actor == luck.spawned))
  }

  ghost predicate DoneFor(s: Remotes, t: Remotes, order: seq<PlayerId>, f: Scene, luck: PlayerId -> Luck) {
    && t.players.Keys == s.players.Keys && t.world.self == s.world.self
    && forall id | id in s.players :: DoneOne(s, t, id, id in order, f, luck(id))
  }

  lemma TouchDone(s: Remotes, t: Remotes, order: seq<PlayerId>, id: PlayerId, f: Scene, luck: PlayerId -> Luck)
    requires OwnActors(s) && ClonesOk(s) && NewHandles(s, luck)
    requires DoneFor(s, t, order, f, luck) && id in s.players && id !in order
    ensures DoneFor(s, Touch(t, id, f, luck(id)), order + [id], f, luck)
  {
    hide DoneOne, Touch, CloneOk;
    assert DoneOne(s, t, id, false, f, luck(id));
    TouchThis(s, t, id, f, luck(id));
    var t1 := Touch(t, id, f, luck(id));
    forall other | other in s.players && other != id
      ensures DoneOne(s, t1, other, other in order, f, luck(other))
    {
      TouchOther(s, t, id, other, other in order, f, luck);
    }
  }

  lemma TouchThis(s: Remotes, t: Remotes, id: PlayerId, f: Scene, luck: Luck)
    requires id in s.players && id in t.players && CloneOk(s.players[id], s.world) && DoneOne(s, t, id, false, f, luck)
    ensures var t1 := Touch(t, id, f, luck);
            && t1.players.Keys == t.players.Keys && t1.world.self == t.world.self
            && DoneOne(s, t1, id, true, f, luck)
  {
    hide UpdateOne, CloneOk, Resolve, OnlyOwn;
    var p := s.players[id];
    var (q, v) := UpdateOne(p, t.world, f, luck);
    UpdateOneLocal(p, s.world, t.world, f, luck);
    CloneOkLocal(p, s.world, t.world);
    OneFrame(p, t.world, f, luck);
    OwnHandles(p, t.world, q, v, luck);
  }

  lemma TouchOther(s: Remotes, t: Remotes, id: PlayerId, other: PlayerId, done: bool, f: Scene, luck: PlayerId -> Luck)
    requires OwnActors(s) && NewHandles(s, luck) && id in s.players && CloneOk(s.players[id], s.world)
    requires other in s.players && other != id && id in t.players && other in t.players
    requires DoneOne(s, t, id, false, f, luck(id)) && DoneOne(s, t, other, done, f, luck(other))
    ensures DoneOne(s, Touch(t, id, f, luck(id)), other, done, f, luck(other))
  {
    hide UpdateOne, CloneOk, Resolve, OnlyOwn;
    var p, a := s.players[id], t.players[other].actor;
    var (q, v) := UpdateOne(p, t.world, f, luck(id));
    CloneOkLocal(p, s.world, t.world);
    OneFrame(p, t.world, f, luck(id));
    if a.Some? {
      SameResolve(p, t.world, q, v, luck(id), a.value);
    } else {
      NoActor(v, t.world);
    }
  }

  lemma NoActor(w1: World, w2: World)
    ensures Resolve(w1, None) == Resolve(w2, None)
  {}

  lemma SameResolve(p: RemotePlayer, w: World, q: RemotePlayer, v: World, luck: Luck, h: Handle)
    requires OnlyOwn(p, w, q, v, luck) && Some(h) != p.actor && Some(h) != luck.spawned
    ensures Resolve(v, Some(h)) == Resolve(w, Some(h))
  {}

  lemma OwnHandles(p: RemotePlayer, w: World, q: RemotePlayer, v: World, luck: Luck)
    requires OnlyOwn(p, w, q, v, luck)
    ensures v.self == w.self
    ensures q.actor == p.actor || q.actor == None || (q.actor == luck.spawned && luck.spawned.Some?)
  {}

  lemma CloneOkLocal(p: RemotePlayer, w1: World, w2: World)
    requires Resolve(w1, p.actor) == Resolve(w2, p.actor)
    ensures CloneOk(p, w1) == CloneOk(p, w2)
  {}

  lemma {:induction false} OrderDone(s: Remotes, order: seq<PlayerId>, f: Scene, luck: PlayerId -> Luck)
    requires OwnActors(s) && ClonesOk(s) && NewHandles(s, luck) && InPlayers(order, s) && Distinct(order)
    ensures DoneFor(s, UpdateInOrder(s, order, f, luck), order, f, luck)
  {
    hide OwnActors, ClonesOk, NewHandles, DoneFor, Touch;
    if order == [] {
      NothingDone(s, f, luck);
    } else {
      var n := |order| - 1;
      assert order[n] !in order[..n];
      OrderDone(s, order[..n], f, luck);
      assert order[..n] + [order[n]] == order;
      TouchDone(s, UpdateInOrder(s, order[..n], f, luck), order[..n], order[n], f, luck);
    }
  }

  lemma NothingDone(s: Remotes, f: Scene, luck: PlayerId -> Luck)
    ensures DoneFor(s, s, [], f, luck)
  {}

  // ---- the engine's table after a frame ---------------------------------------------

  /** What a player's frame makes of any handle depends on that handle and the player's own. */
  lemma UpdateOneAt(p: RemotePlayer, w1: World, w2: World, f: Scene, luck: Luck, h: Handle)
    requires Resolve(w1, p.actor) == Resolve(w2, p.actor) && Resolve(w1, Some(h)) == Resolve(w2, Some(h))
    ensures Resolve(UpdateOne(p, w1, f, luck).1, Some(h)) == Resolve(UpdateOne(p, w2, f, luck).1, Some(h))
  {
    hide TornDown, Spawned, DrivenIn, Pruned, Resolve;
    if p.snapshots != [] {
      var p0 := p.(snapshots := Pruned(p.snapshots, f.renderMs));
      var (p1, u1) := TornDown(p0, w1, f);
      var (p2, u2) := TornDown(p0, w2, f);
      TornDownLocal(p0, w1, w2, f);
      TornDownAt(p0, w1, w2, f, h);
      var (q1, v1) := SpawnedIfMissing(p1, u1, f, luck);
      var (q2, v2) := SpawnedIfMissing(p2, u2, f, luck);
      SpawnedLocal(p1, u1, u2, f, luck);
      SpawnedAt(p1, u1, u2, f, luck, h);
      DrivenInAt(q1, v1, v2, f, luck, h);
    }
  }

  lemma TornDownAt(p: RemotePlayer, w1: World, w2: World, f: Scene, h: Handle)
    requires p.snapshots != [] && Resolve(w1, p.actor) == Resolve(w2, p.actor) &&
        Resolve(w1, Some(h)) == Resolve(w2, Some(h))
    ensures Resolve(TornDown(p, w1, f).1, Some(h)) == Resolve(TornDown(p, w2, f).1, Some(h))
  {
    hide SameArea, SpaceFromState;
  }

  lemma SpawnedAt(p: RemotePlayer, w1: World, w2: World, f: Scene, luck: Luck, h: Handle)
    requires p.snapshots != [] && Resolve(w1, p.actor) == Resolve(w2, p.actor) &&
        Resolve(w1, Some(h)) == Resolve(w2, Some(h))
    ensures Resolve(SpawnedIfMissing(p, w1, f, luck).1, Some(h)) == Resolve(SpawnedIfMissing(p, w2, f, luck).1, Some(h))
  {
    hide SameArea, SpaceFromState, Based, Placed;
  }

  lemma DrivenInAt(p: RemotePlayer, w1: World, w2: World, f: Scene, luck: Luck, h: Handle)
    requires p.snapshots != [] && Resolve(w1, p.actor) == Resolve(w2, p.actor) && Resolve(w1, p.actor) != Some(Self)
    requires Resolve(w1, Some(h)) == Resolve(w2, Some(h))
    ensures Resolve(DrivenIn(p, w1, f, luck).1, Some(h)) == Resolve(DrivenIn(p, w2, f, luck).1, Some(h))
  {
    hide Driven;
  }

  predicate Touches(p: RemotePlayer, luck: Luck, h: Handle) { Some(h) == p.actor || Some(h) == luck.spawned }

  /** The handle is as its one player's frame left it, or as it was. */
  ghost predicate HandleDone(s: Remotes, t: Remotes, order: seq<PlayerId>, f: Scene, luck: PlayerId -> Luck, h: Handle)
    requires InPlayers(order, s)
  {
    && (forall id | id in order && Touches(s.players[id], luck(id), h) ::
          Resolve(t.world, Some(h)) == Resolve(UpdateOne(s.players[id], s.world, f, luck(id)).1, Some(h)))
    && ((forall id | id in order :: !Touches(s.players[id], luck(id), h)) ==>
        Resolve(t.world, Some(h)) == Resolve(s.world, Some(h)))
  }

  lemma OneToucher(s: Remotes, a: PlayerId, b: PlayerId, luck: PlayerId -> Luck, h: Handle)
    requires OwnActors(s) && NewHandles(s, luck) && a in s.players && b in s.players
    requires Touches(s.players[a], luck(a), h) && Touches(s.players[b], luck(b), h)
    ensures a == b
  {}

  lemma TouchHandle(s: Remotes, t: Remotes, order: seq<PlayerId>, id: PlayerId, f: Scene, luck: PlayerId -> Luck,
                    h: Handle)
    requires OwnActors(s) && ClonesOk(s) && NewHandles(s, luck) && InPlayers(order, s)
    requires DoneFor(s, t, order, f, luck) && id in s.players && id !in order && HandleDone(s, t, order, f, luck, h)
    ensures HandleDone(s, Touch(t, id, f, luck(id)), order + [id], f, luck, h)
  {
    hide OwnActors, NewHandles, UpdateOne, CloneOk, Resolve, OnlyOwn, Touches;
    var p := s.players[id];
    var (q, v) := UpdateOne(p, t.world, f, luck(id));
    assert DoneOne(s, t, id, false, f, luck(id));
    CloneOkLocal(p, s.world, t.world);
    OneFrame(p, t.world, f, luck(id));
    if Touches(p, luck(id), h) {
      forall other | other in order
        ensures !Touches(s.players[other], luck(other), h)
      {
        if Touches(s.players[other], luck(other), h) {
          OneToucher(s, id, other, luck, h);
        }
      }
      UpdateOneAt(p, s.world, t.world, f, luck(id), h);
    } else {
      NotTouched(p, luck(id), h);
      SameResolve(p, t.world, q, v, luck(id), h);
    }
  }

  lemma NotTouched(p: RemotePlayer, luck: Luck, h: Handle)
    requires !Touches(p, luck, h)
    ensures Some(h) != p.actor && Some(h) != luck.spawned
  {}

  lemma {:induction false} OrderHandles(s: Remotes, order: seq<PlayerId>, f: Scene, luck: PlayerId -> Luck, h: Handle)
    requires OwnActors(s) && ClonesOk(s) && NewHandles(s, luck) && InPlayers(order, s) && Distinct(order)
    ensures HandleDone(s, UpdateInOrder(s, order, f, luck), order, f, luck, h)
  {
    hide OwnActors, ClonesOk, NewHandles, DoneFor, HandleDone, Touch;
    if order == [] {
      NoHandles(s, f, luck, h);
    } else {
      var n := |order| - 1;
      assert order[n] !in order[..n];
      OrderDone(s, order[..n], f, luck);
      OrderHandles(s, order[..n], f, luck, h);
      assert order[..n] + [order[n]] == order;
      TouchHandle(s, UpdateInOrder(s, order[..n], f, luck), order[..n], order[n], f, luck, h);
    }
  }

  lemma NoHandles(s: Remotes, f: Scene, luck: PlayerId -> Luck, h: Handle)
    ensures HandleDone(s, s, [], f, luck, h)
  {}

  lemma SameHandles(s: Remotes, t1: Remotes, t2: Remotes, order1: seq<PlayerId>, order2: seq<PlayerId>, f: Scene,
                    luck: PlayerId -> Luck, h: Handle)
    requires IsOrder(order1, s.players.Keys) && IsOrder(order2, s.players.Keys)
    requires InPlayers(order1, s) && InPlayers(order2, s)
    requires HandleDone(s, t1, order1, f, luck, h) && HandleDone(s, t2, order2, f, luck, h)
    ensures Resolve(t1.world, Some(h)) == Resolve(t2.world, Some(h))
  {
    hide UpdateOne, Resolve, Touches;
    if id :| id in order1 && Touches(s.players[id], luck(id), h) {
      assert id in order2;
    }
  }

  lemma SameWorlds(w1: World, w2: World)
    requires w1.self == w2.self && forall h: Handle :: Resolve(w1, Some(h)) == Resolve(w2, Some(h))
    ensures w1 == w2
  {
    forall h: Handle
      ensures h in w1.targets <==> h in w2.targets
      ensures h in w1.targets ==> w1.targets[h] == w2.targets[h]
    {
      assert Resolve(w1, Some(h)) == Resolve(w2, Some(h));
    }
    assert w1.targets == w2.targets;
  }

  /** The order in which the map hands out its entries does not matter: every order ends in the same state, of the
      player list and of the whole engine table. */
  lemma OrderDoesNotMatter(s: Remotes, order1: seq<PlayerId>, order2: seq<PlayerId>, f: Scene, luck: PlayerId -> Luck)
    requires OwnActors(s) && ClonesOk(s) && NewHandles(s, luck)
    requires IsOrder(order1, s.players.Keys) && IsOrder(order2, s.players.Keys)
    ensures UpdateInOrder(s, order1, f, luck) == UpdateInOrder(s, order2, f, luck)
  {
    hide UpdateInOrder, OwnActors, ClonesOk, NewHandles, HandleDone, Resolve;
    var t1, t2 := UpdateInOrder(s, order1, f, luck), UpdateInOrder(s, order2, f, luck);
    SamePlayers(s, order1, order2, f, luck);
    forall h: Handle
      ensures Resolve(t1.world, Some(h)) == Resolve(t2.world, Some(h))
    {
      OrderHandles(s, order1, f, luck, h);
      OrderHandles(s, order2, f, luck, h);
      SameHandles(s, t1, t2, order1, order2, f, luck, h);
    }
    SameWorlds(t1.world, t2.world);
  }

  lemma SamePlayers(s: Remotes, order1: seq<PlayerId>, order2: seq<PlayerId>, f: Scene, luck: PlayerId -> Luck)
    requires OwnActors(s) && ClonesOk(s) && NewHandles(s, luck)
    requires IsOrder(order1, s.players.Keys) && IsOrder(order2, s.players.Keys)
    ensures var t1, t2 := UpdateInOrder(s, order1, f, luck), UpdateInOrder(s, order2, f, luck);
            t1.players == t2.players && t1.world.self == t2.world.self
  {
    hide UpdateInOrder, OwnActors, ClonesOk, NewHandles, UpdateOne, Resolve;
    OrderDone(s, order1, f, luck);
    OrderDone(s, order2, f, luck);
  }

  /** After a frame every player with a state is as wanted, and has a clone exactly when one may stay or could
      be placed. */
  lemma FrameAsWanted(s: Remotes, order: seq<PlayerId>, f: Scene, luck: PlayerId -> Luck, id: PlayerId)
    requires OwnActors(s) && ClonesOk(s) && NewHandles(s, luck) && IsOrder(order, s.players.Keys)
    requires id in s.players && s.players[id].snapshots != []
    ensures var t, p := UpdateInOrder(s, order, f, luck), s.players[id];
            var q := t.players[id];
            && q.snapshots == Pruned(p.snapshots, f.renderMs) && q.snapshots != []
            && AsWanted(q, t.world, f)
            && (IsClone(t.world, q.actor) <==> Survives(p, s.world, f) || Places(p, f, luck(id)))
  {
    hide UpdateInOrder, OwnActors, NewHandles, UpdateOne, Pruned, Resolve, AsWanted, Survives, Places, OnlyOwn, CloneOk,
         IsClone;
    OrderDone(s, order, f, luck);
    var (q, v) := UpdateOne(s.players[id], s.world, f, luck(id));
    OneFrame(s.players[id], s.world, f, luck(id));
    WantedLocal(q, v, UpdateInOrder(s, order, f, luck).world, f);
  }

  lemma WantedLocal(p: RemotePlayer, w1: World, w2: World, f: Scene)
    requires p.snapshots != [] && Resolve(w1, p.actor) == Resolve(w2, p.actor)
    ensures AsWanted(p, w1, f) == AsWanted(p, w2, f) && IsClone(w1, p.actor) == IsClone(w2, p.actor)
  {
    hide Mirrors, SameArea, SpaceFromState;
  }
}
