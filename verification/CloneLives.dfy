/** What every run of `RemotePlayers` keeps: actuation, names, handles, clocks and buffers. */
module CloneLives {
  import opened Types
  import opened Interp
  import opened Timeline
  import opened CloneModel
  import opened CloneFrames
  import opened CloneRuns
  import V = ClientView

  /** A player with a state implies a started clock and a known offset. */
  ghost predicate ClockKnown(s: Remotes) {
    forall id | id in s.players && s.players[id].snapshots != [] :: s.hasOffset && s.clock.started
  }

  ghost predicate Inv(s: Remotes) { OwnActors(s) && ClonesOk(s) && ClockKnown(s) }

  // ---- the cached state is the engine's ---------------------------------------------

  lemma RosterKeeps(s: Remotes, e: Event)
    requires Inv(s) && (e.Joined? || e.Renamed? || e.Left?)
    ensures Inv(Step(s, e))
  {
    hide Inv, Add, Rename, Remove;
    match e {
      case Joined(id, name) => AddKeeps(s, id, name);
      case Renamed(id, name) => RenameKeeps(s, id, name);
      case Left(id) => RemoveKeeps(s, id);
      case _ =>
    }
  }

  lemma AddKeeps(s: Remotes, id: PlayerId, name: Bytes)
    requires Inv(s)
    ensures Inv(Add(s, id, name))
  {
    hide FlagsAgree;
    if id in s.players {
      assert CloneOk(s.players[id], s.world);
    }
  }

  lemma RenameKeeps(s: Remotes, id: PlayerId, name: Bytes)
    requires Inv(s)
    ensures Inv(Rename(s, id, name))
  {
    hide CloneOk, Add, Resolve, Rewrite, BodyOf;
    AddKeeps(s, id, name);
    var t := Rename(s, id, name);
    if id in s.players {
      forall other | other in t.players
        ensures CloneOk(t.players[other], t.world)
      {
        assert CloneOk(s.players[other], s.world);
        LabelKeeps(s.players[other], t.players[other], s.world, s.players[id].actor, name);
      }
    }
  }

  /** A new label on a reference changes neither deaths nor flags. */
  lemma LabelKeeps(p: RemotePlayer, q: RemotePlayer, w: World, actor: Option<Handle>, name: Bytes)
    requires CloneOk(p, w) && q == p.(name := q.name, base := q.base)
    ensures Resolve(w, actor).Some? ==>
              CloneOk(q, Rewrite(w, actor.value, BodyOf(w, actor.value).(shown := Some(name))))
    ensures CloneOk(q, w)
  {
    hide Sneaking, WeaponDrawn, Sprinting;
  }

  lemma RemoveKeeps(s: Remotes, id: PlayerId)
    requires Inv(s)
    ensures Inv(Remove(s, id))
  {
    hide FlagsAgree;
    var t := Remove(s, id);
    forall other | other in t.players
      ensures CloneOk(t.players[other], t.world)
    {
      assert CloneOk(s.players[other], s.world);
    }
  }

  lemma ApplyKeeps(s: Remotes, id: PlayerId, state: RealState, stamp: u32, localMs: real)
    requires Inv(s)
    ensures Inv(ApplyState(s, id, state, stamp, localMs))
  {
    hide FlagsAgree, Stored, Filtered, Unwrapped;
    AddKeeps(s, id, V.Placeholder(id));
  }

  /** Neither the roster, nor a state, nor a frame. */
  predicate IsReset(e: Event) {
    e.BeforeSave? || e.Reconfigured? || e.Switched? || e.WorldChanged? || e.Offline? || e.EngineActs?
  }

  lemma ResetKeeps(s: Remotes, e: Event)
    requires Inv(s) && Enabled(s, e) && IsReset(e)
    ensures Inv(Step(s, e))
  {
    hide BodyOk, WithoutClones, ActorsIn, SameButMoved;
    if e.EngineActs? {
      EngineKeeps(s, e.world);
    } else if !e.Switched? {
      NoActors(Step(s, e));
    }
  }

  /** Without actors there is nothing to agree on. */
  lemma NoActors(s: Remotes)
    requires forall id | id in s.players :: s.players[id].actor.None?
    ensures OwnActors(s) && ClonesOk(s)
  {}

  lemma EngineKeeps(s: Remotes, w: World)
    requires ClonesOk(s) && EngineMay(s.world, w)
    ensures ClonesOk(s.(world := w))
  {
    hide BodyOk;
    forall id | id in s.players
      ensures CloneOk(s.players[id], w)
    {
      var p := s.players[id];
      assert CloneOk(p, s.world);
      if IsClone(w, p.actor) {
        MovedBodyOk(p, s.world.targets[p.actor.value].body, w.targets[p.actor.value].body);
      }
    }
  }

  lemma MovedBodyOk(p: RemotePlayer, b: Body, b1: Body)
    requires BodyOk(p, b) && SameButMoved(b, b1)
    ensures BodyOk(p, b1)
  {
    hide Sneaking, WeaponDrawn, Sprinting;
  }

  lemma UpdateKeeps(s: Remotes, order: seq<PlayerId>, f: Scene, luck: PlayerId -> Luck)
    requires Inv(s) && IsOrder(order, s.players.Keys) && NewHandles(s, luck)
    ensures Inv(UpdateInOrder(s, order, f, luck))
  {
    hide UpdateInOrder, UpdateOne, CloneOk, Resolve, OnlyOwn, AsWanted, Survives, Places, IsClone, Pruned;
    var t := UpdateInOrder(s, order, f, luck);
    OrderDone(s, order, f, luck);
    forall id | id in t.players
      ensures CloneOk(t.players[id], t.world)
      ensures t.players[id].snapshots == Pruned(s.players[id].snapshots, f.renderMs)
    {
      assert DoneOne(s, t, id, true, f, luck(id));
      var (q, v) := UpdateOne(s.players[id], s.world, f, luck(id));
      OneFrame(s.players[id], s.world, f, luck(id));
      CloneOkLocal(q, v, t.world);
    }
    PrunedEmpty(f.renderMs);
    OwnActorsDone(s, t, order, f, luck);
  }

  lemma OwnActorsDone(s: Remotes, t: Remotes, order: seq<PlayerId>, f: Scene, luck: PlayerId -> Luck)
    requires OwnActors(s) && NewHandles(s, luck) && DoneFor(s, t, order, f, luck)
    ensures OwnActors(t)
  {
    hide UpdateOne, Resolve;
    forall a, b | a in t.players && b in t.players && a != b && t.players[a].actor.Some?
      ensures t.players[a].actor != t.players[b].actor
    {
      assert DoneOne(s, t, a, a in order, f, luck(a)) && DoneOne(s, t, b, b in order, f, luck(b));
    }
  }

  lemma StepKeeps(s: Remotes, e: Event)
    requires Inv(s) && Enabled(s, e)
    ensures Inv(Step(s, e))
  {
    hide Inv, ApplyState, UpdateInOrder, Add, Rename, Remove, FreshLuck, NewHandles, IsOrder;
    match e {
      case Joined(_, _) => RosterKeeps(s, e);
      case Renamed(_, _) => RosterKeeps(s, e);
      case Left(_) => RosterKeeps(s, e);
      case Moved(id, state, stamp, localMs) => ApplyKeeps(s, id, state, stamp, localMs);
      case FrameDone(space, now, localMs, luck, order) =>
        FreshIsNew(s, luck);
        if space.Some? {
          UpdateKeeps(s, order, SceneOf(s, space.value, now, localMs), luck);
        }
      case _ => ResetKeeps(s, e);
    }
  }

  lemma StartKeeps(delay: real, w: World)
    ensures Inv(Start(delay, w))
  {}

  lemma {:induction false} RunKeeps(delay: real, w: World, es: seq<Event>)
    requires EnabledRun(delay, w, es)
    ensures Inv(Run(delay, w, es))
  {
    hide Inv, Enabled, Step;
    if es == [] {
      StartKeeps(delay, w);
    } else {
      RunKeeps(delay, w, es[..|es| - 1]);
      StepKeeps(Run(delay, w, es[..|es| - 1]), es[|es| - 1]);
    }
  }

  /** After any run and then one more frame: a clone is where its player and the local player can see each
      other, is never the local player, and is as dead, and if alive as sneaking, armed and sprinting, as
      the latest snapshot says. */
  lemma ClonesFollow(delay: real, w: World, es: seq<Event>, frame: Event, id: PlayerId)
    requires EnabledRun(delay, w, es) && Enabled(Run(delay, w, es), frame) && frame.FrameDone? && frame.space.Some?
    requires id in Run(delay, w, es).players && Run(delay, w, es).players[id].snapshots != []
    ensures var s := Run(delay, w, es);
            var f := SceneOf(s, frame.space.value, frame.now, frame.localMs);
            var t := Step(s, frame);
            && id in t.players && t.players[id].snapshots != []
            && AsWanted(t.players[id], t.world, f)
            && (IsClone(t.world, t.players[id].actor) <==>
                  Survives(s.players[id], s.world, f) || Places(s.players[id], f, frame.luck(id)))
            && s.hasOffset && s.clock.started
  {
    hide Run, UpdateInOrder, AsWanted, Survives, Places, IsClone, FreshLuck, NewHandles, IsOrder, OwnActors, ClonesOk;
    var s := Run(delay, w, es);
    RunKeeps(delay, w, es);
    FreshIsNew(s, frame.luck);
    FrameAsWanted(s, frame.order, SceneOf(s, frame.space.value, frame.now, frame.localMs), frame.luck, id);
  }

  /** After a save, new options or a load the clones come back in the next frame: each exactly if its player is in
      sight, the engine hands one out, and an attempt is due, which after new options it is at once. New options and a
      load also forget bases that could not be made; and nobody else's references were touched. */
  lemma ClonesComeBack(s: Remotes, e: Event, frame: Event, id: PlayerId)
    requires Inv(s) && Enabled(s, e) && (e.BeforeSave? || e.Reconfigured? || e.WorldChanged?)
    requires frame.FrameDone? && frame.space.Some? && Enabled(Step(s, e), frame)
    requires id in s.players && s.players[id].snapshots != []
    ensures var p, t, luck := s.players[id], Step(Step(s, e), frame), frame.luck(id);
            var f := SceneOf(Step(s, e), frame.space.value, frame.now, frame.localMs);
            && id in t.players
            && (IsClone(t.world, t.players[id].actor) <==>
                  && Together(p.Latest(), frame.space.value) && luck.spawned.Some?
                  && frame.now - (if e.Reconfigured? then 0.0 else p.lastSpawnAttempt) >= 1000.0
                  && if e.BeforeSave? then HasBase(p, f, luck) else luck.baseAvailable)
    ensures forall h: Handle | h !in ActorsOf(s) || e.WorldChanged? ::
              Resolve(Step(s, e).world, Some(h)) == Resolve(s.world, Some(h))
  {
    hide Step, Enabled, Together, ActorsOf, Resolve, Inv, HasBase, IsClone;
    StepKeeps(s, e);
    AfterReset(s, e, id);
    NextFrame(Step(s, e), frame, id);
    forall h: Handle | h !in ActorsOf(s) || e.WorldChanged?
      ensures Resolve(Step(s, e).world, Some(h)) == Resolve(s.world, Some(h))
    {
      OthersUntouched(s, e, h);
    }
  }

  /** What a save, new options or a load leave of a player. */
  lemma AfterReset(s: Remotes, e: Event, id: PlayerId)
    requires Enabled(s, e) && (e.BeforeSave? || e.Reconfigured? || e.WorldChanged?) && id in s.players
    ensures var s1, p := Step(s, e), s.players[id];
            && id in s1.players
            && (var q := s1.players[id];
                && q.actor.None? && q.snapshots == p.snapshots
                && q.lastSpawnAttempt == (if e.Reconfigured? then 0.0 else p.lastSpawnAttempt)
                && forall f: Scene, luck: Luck :: HasBase(q, f, luck) ==
                     if e.BeforeSave? then HasBase(p, f, luck) else luck.baseAvailable)
  {
    hide WithoutClones, ActorsIn;
  }

  /** A player without an actor has one after a frame exactly if that places it. */
  lemma NextFrame(s: Remotes, frame: Event, id: PlayerId)
    requires Inv(s) && frame.FrameDone? && frame.space.Some? && Enabled(s, frame)
    requires id in s.players && s.players[id].snapshots != [] && s.players[id].actor.None?
    ensures var p, t, luck := s.players[id], Step(s, frame), frame.luck(id);
            && id in t.players
            && (IsClone(t.world, t.players[id].actor) <==>
                  && Together(p.Latest(), frame.space.value) && luck.spawned.Some?
                  && frame.now - p.lastSpawnAttempt >= SPAWN_RETRY_MS
                  && HasBase(p, SceneOf(s, frame.space.value, frame.now, frame.localMs), luck))
  {
    hide UpdateInOrder, AsWanted, FreshLuck, NewHandles, IsOrder, OwnActors, ClonesOk, Together, ClockKnown, HasBase;
    FreshIsNew(s, frame.luck);
    FrameAsWanted(s, frame.order, SceneOf(s, frame.space.value, frame.now, frame.localMs), frame.luck, id);
  }

  lemma OthersUntouched(s: Remotes, e: Event, h: Handle)
    requires Enabled(s, e) && (e.BeforeSave? || e.Reconfigured? || e.WorldChanged?)
    requires h !in ActorsOf(s) || e.WorldChanged?
    ensures Resolve(Step(s, e).world, Some(h)) == Resolve(s.world, Some(h))
  {
    hide ActorsIn;
  }

  // ---- names ------------------------------------------------------------------------

  /** The name on the crosshair is the player's: on the reference if set there, else on its own base. */
  predicate NameShown(p: RemotePlayer, w: World) {
    && (p.base.Some? ==> p.base.value == p.name)
    && (IsClone(w, p.actor) ==>
          (var shown := w.targets[p.actor.value].body.shown;
           if shown.Some? then shown.value == p.name else p.base.Some?))
  }

  ghost predicate NamesShown(s: Remotes) { forall id | id in s.players :: NameShown(s.players[id], s.world) }

  /** A join for a player whose clone already carries another name of its own. */
  predicate JoinsTooLate(s: Remotes, e: Event) {
    && e.Joined? && e.id in s.players && IsClone(s.world, s.players[e.id].actor)
    && (var shown := s.world.targets[s.players[e.id].actor.value].body.shown; shown.Some? && shown.value != e.name)
  }

  lemma RosterNames(s: Remotes, e: Event)
    requires Inv(s) && NamesShown(s) && (e.Joined? || e.Renamed? || e.Left?)
    ensures NamesShown(Step(s, e)) <==> !JoinsTooLate(s, e)
  {
    hide CloneOk;
    if JoinsTooLate(s, e) {
      assert !NameShown(Step(s, e).players[e.id], Step(s, e).world);
    } else if e.Renamed? && e.id in s.players {
      RenameNames(s, e.id, e.name);
    }
  }

  lemma RenameNames(s: Remotes, id: PlayerId, name: Bytes)
    requires OwnActors(s) && NamesShown(s) && id in s.players
    ensures NamesShown(Rename(s, id, name))
  {
    var t := Rename(s, id, name);
    forall other | other in t.players
      ensures NameShown(t.players[other], t.world)
    {
      assert NameShown(s.players[other], s.world);
    }
  }

  lemma OneFrameName(p: RemotePlayer, w: World, f: Scene, luck: Luck)
    requires NameShown(p, w)
    ensures var (q, v) := UpdateOne(p, w, f, luck); NameShown(q, v)
  {
    hide TornDown, Spawned, DrivenIn, Pruned, NameShown, Resolve;
    if p.snapshots != [] {
      var p0 := p.(snapshots := Pruned(p.snapshots, f.renderMs));
      var (p1, w1) := TornDown(p0, w, f);
      PrunedName(p, w, p0);
      TornDownName(p0, w, f);
      var (p2, w2) := SpawnedIfMissing(p1, w1, f, luck);
      if Resolve(w1, p1.actor).None? {
        SpawnedName(p1, w1, f, luck);
      }
      TornDownLocal(p0, w, w, f);
      SpawnedLocal(p1, w1, w1, f, luck);
      DrivenName(p2, w2, f, luck);
    }
  }

  lemma PrunedName(p: RemotePlayer, w: World, p0: RemotePlayer)
    requires NameShown(p, w) && p0 == p.(snapshots := p0.snapshots)
    ensures NameShown(p0, w)
  {}

  lemma TornDownName(p: RemotePlayer, w: World, f: Scene)
    requires p.snapshots != [] && NameShown(p, w)
    ensures var (q, v) := TornDown(p, w, f); NameShown(q, v)
  {
    hide SameArea, SpaceFromState;
  }

  lemma SpawnedName(p: RemotePlayer, w: World, f: Scene, luck: Luck)
    requires p.snapshots != [] && NameShown(p, w) && Resolve(w, p.actor).None?
    ensures var (q, v) := Spawned(p, w, f, luck); NameShown(q, v)
  {
    hide Spawned, Places;
    if Places(p, f, luck) {
      SpawnedSome(p, w, f, luck);
    } else {
      SpawnedNone(p, w, f, luck);
    }
  }

  lemma DrivenName(p: RemotePlayer, w: World, f: Scene, luck: Luck)
    requires p.snapshots != [] && NameShown(p, w) && Resolve(w, p.actor) != Some(Self)
    ensures var (q, v) := DrivenIn(p, w, f, luck); NameShown(q, v)
  {
    hide Driven;
    if IsClone(w, p.actor) {
      DrivenKeeps(p, w.targets[p.actor.value].body, f, luck);
    }
  }

  lemma NameShownLocal(p: RemotePlayer, w1: World, w2: World)
    requires Resolve(w1, p.actor) == Resolve(w2, p.actor)
    ensures NameShown(p, w1) == NameShown(p, w2)
  {}

  lemma UpdateNames(s: Remotes, order: seq<PlayerId>, f: Scene, luck: PlayerId -> Luck)
    requires OwnActors(s) && ClonesOk(s) && NamesShown(s) && IsOrder(order, s.players.Keys) && NewHandles(s, luck)
    ensures NamesShown(UpdateInOrder(s, order, f, luck))
  {
    hide UpdateInOrder, UpdateOne, CloneOk, Resolve, NameShown;
    var t := UpdateInOrder(s, order, f, luck);
    OrderDone(s, order, f, luck);
    forall id | id in t.players
      ensures NameShown(t.players[id], t.world)
    {
      assert DoneOne(s, t, id, true, f, luck(id));
      var (q, v) := UpdateOne(s.players[id], s.world, f, luck(id));
      OneFrameName(s.players[id], s.world, f, luck(id));
      NameShownLocal(q, v, t.world);
    }
  }

  lemma ResetNames(s: Remotes, e: Event)
    requires NamesShown(s) && Enabled(s, e) && IsReset(e)
    ensures NamesShown(Step(s, e))
  {}

  lemma ApplyNames(s: Remotes, id: PlayerId, state: RealState, stamp: u32, localMs: real)
    requires Inv(s) && NamesShown(s)
    ensures NamesShown(ApplyState(s, id, state, stamp, localMs))
  {
    hide Stored, Filtered, Unwrapped, CloneOk;
    if id !in s.players {
      RosterNames(s, Joined(id, V.Placeholder(id)));
    }
  }

  /** Every step keeps the right name over every clone, except exactly a join that comes too late. */
  lemma NamesStep(s: Remotes, e: Event)
    requires Inv(s) && NamesShown(s) && Enabled(s, e)
    ensures NamesShown(Step(s, e)) <==> !JoinsTooLate(s, e)
  {
    hide NamesShown, ClonesOk, OwnActors, ClockKnown, ApplyState, UpdateInOrder, Add, Rename, Remove, FreshLuck,
         NewHandles, IsOrder, IsClone;
    match e {
      case Joined(_, _) => RosterNames(s, e);
      case Renamed(_, _) => RosterNames(s, e);
      case Left(_) => RosterNames(s, e);
      case Moved(id, state, stamp, localMs) => ApplyNames(s, id, state, stamp, localMs);
      case FrameDone(space, now, localMs, luck, order) =>
        FreshIsNew(s, luck);
        if space.Some? {
          UpdateNames(s, order, SceneOf(s, space.value, now, localMs), luck);
        }
      case _ => ResetNames(s, e);
    }
  }

  /** After every run without a join that comes too late, every clone carries its player's name. */
  lemma {:induction false} NamesInEveryRun(delay: real, w: World, es: seq<Event>)
    requires EnabledRun(delay, w, es)
    requires forall k | 0 <= k < |es| :: EnabledRun(delay, w, es[..k]) && !JoinsTooLate(Run(delay, w, es[..k]), es[k])
    ensures NamesShown(Run(delay, w, es))
  {
    hide NamesShown, Inv, Enabled, Step, JoinsTooLate;
    if es == [] {
      NobodyNamed(delay, w);
    } else {
      var n := |es| - 1;
      var before := es[..n];
      forall k | 0 <= k < n
        ensures EnabledRun(delay, w, before[..k]) && !JoinsTooLate(Run(delay, w, before[..k]), before[k])
      {
        assert before[..k] == es[..k] && before[k] == es[k];
      }
      NamesInEveryRun(delay, w, before);
      RunKeeps(delay, w, before);
      NamesStep(Run(delay, w, before), es[n]);
    }
  }

  lemma NobodyNamed(delay: real, w: World)
    ensures NamesShown(Start(delay, w))
  {}

  // ---- the local player and forgotten clones ----------------------------------------

  /** The local player's own actor is left alone by everything but a rename through a handle that has come
      to resolve to it. */
  lemma SelfLeftAlone(s: Remotes, e: Event)
    requires Inv(s) && Enabled(s, e) && !e.EngineActs?
    ensures Step(s, e).world.self == s.world.self <==>
              !(e.Renamed? && e.id in s.players && Resolve(s.world, s.players[e.id].actor) == Some(Self)
                && s.world.self.shown != Some(e.name))
  {
    hide UpdateInOrder, FreshLuck, NewHandles, OwnActors, ClonesOk, DoneOne, Stored, Filtered, Unwrapped, IsClone;
    if e.FrameDone? && e.space.Some? {
      FreshIsNew(s, e.luck);
      OrderDone(s, e.order, SceneOf(s, e.space.value, e.now, e.localMs), e.luck);
    }
  }

  /** Every clone in the world belongs to a listed player. */
  ghost predicate NoOrphans(s: Remotes) {
    forall h: Handle | IsClone(s.world, Some(h)) :: exists id :: id in s.players && s.players[id].actor == Some(h)
  }

  lemma TouchOrphans(s: Remotes, id: PlayerId, f: Scene, luck: Luck)
    requires NoOrphans(s) && id in s.players && CloneOk(s.players[id], s.world)
    ensures NoOrphans(Touch(s, id, f, luck))
  {
    hide UpdateOne, CloneOk, IsClone, AsWanted, Survives, Places, Pruned;
    var (q, v) := UpdateOne(s.players[id], s.world, f, luck);
    OneFrame(s.players[id], s.world, f, luck);
    var t := Touch(s, id, f, luck);
    forall h: Handle | IsClone(t.world, Some(h))
      ensures exists other :: other in t.players && t.players[other].actor == Some(h)
    {
      if Some(h) != q.actor {
        var other :| other in s.players && s.players[other].actor == Some(h);
        assert t.players[other].actor == Some(h);
      } else {
        assert t.players[id].actor == Some(h);
      }
    }
  }

  lemma {:induction false} UpdateOrphans(s: Remotes, order: seq<PlayerId>, f: Scene, luck: PlayerId -> Luck)
    requires OwnActors(s) && ClonesOk(s) && NoOrphans(s) && NewHandles(s, luck)
    requires InPlayers(order, s) && Distinct(order)
    ensures NoOrphans(UpdateInOrder(s, order, f, luck))
  {
    hide NoOrphans, OwnActors, NewHandles, Touch, CloneOk, Resolve, UpdateOne;
    if order != [] {
      var n := |order| - 1;
      UpdateOrphans(s, order[..n], f, luck);
      var t := UpdateInOrder(s, order[..n], f, luck);
      OrderDone(s, order[..n], f, luck);
      assert order[n] !in order[..n];
      assert DoneOne(s, t, order[n], false, f, luck(order[n]));
      CloneOkLocal(s.players[order[n]], s.world, t.world);
      TouchOrphans(t, order[n], f, luck(order[n]));
    }
  }

  lemma RosterOrphans(s: Remotes, e: Event)
    requires NoOrphans(s) && (e.Joined? || e.Renamed? || e.Left? || e.Moved?)
    ensures NoOrphans(Step(s, e))
  {
    hide Stored, Filtered, Unwrapped;
    var t := Step(s, e);
    forall h: Handle | IsClone(t.world, Some(h))
      ensures exists id :: id in t.players && t.players[id].actor == Some(h)
    {
      assert IsClone(s.world, Some(h));
      var id :| id in s.players && s.players[id].actor == Some(h);
      assert id in t.players && t.players[id].actor == Some(h);
    }
  }

  /** Nobody is left to drive a clone nobody lists, until the handles are forgotten. */
  lemma OrphansStep(s: Remotes, e: Event)
    requires Inv(s) && NoOrphans(s) && Enabled(s, e) && !e.WorldChanged?
    ensures NoOrphans(Step(s, e))
    ensures e.BeforeSave? || e.Reconfigured? || e.Offline? ==> forall h: Handle :: !IsClone(Step(s, e).world, Some(h))
  {
    hide NamesShown, ClonesOk, OwnActors, UpdateInOrder, Add, Rename, Remove, ApplyState, FreshLuck, NewHandles;
    match e {
      case Joined(_, _) => RosterOrphans(s, e);
      case Renamed(_, _) => RosterOrphans(s, e);
      case Left(_) => RosterOrphans(s, e);
      case Moved(_, _, _, _) => RosterOrphans(s, e);
      case FrameDone(space, now, localMs, luck, order) =>
        FreshIsNew(s, luck);
        if space.Some? {
          UpdateOrphans(s, order, SceneOf(s, space.value, now, localMs), luck);
        }
      case EngineActs(w) => EngineOrphans(s, w);
      case _ => SweptClean(s, e);
    }
  }

  lemma EngineOrphans(s: Remotes, w: World)
    requires NoOrphans(s) && EngineMay(s.world, w)
    ensures NoOrphans(s.(world := w))
  {
    forall h: Handle | IsClone(w, Some(h))
      ensures exists id :: id in s.players && s.players[id].actor == Some(h)
    {
      assert IsClone(s.world, Some(h));
    }
  }

  lemma SweptClean(s: Remotes, e: Event)
    requires NoOrphans(s) && Enabled(s, e) && (e.BeforeSave? || e.Reconfigured? || e.Offline? || e.Switched?)
    ensures NoOrphans(Step(s, e))
    ensures !e.Switched? ==> forall h: Handle :: !IsClone(Step(s, e).world, Some(h))
  {
    if e.Switched? {
      assert Step(s, e).players == s.players && Step(s, e).world == s.world;
    } else {
      forall h: Handle
        ensures !IsClone(Step(s, e).world, Some(h))
      {
        if IsClone(s.world, Some(h)) {
          var id :| id in s.players && s.players[id].actor == Some(h);
          assert h in ActorsOf(s);
        }
      }
    }
  }

  /** From when the world holds no clone that nobody owns, and until handles are forgotten again, every clone has an
      owner. */
  lemma {:induction false} NoOrphansSince(delay: real, w: World, es: seq<Event>, more: seq<Event>)
    requires EnabledRun(delay, w, es) && EnabledRun(delay, w, es + more)
    requires NoOrphans(Run(delay, w, es)) && forall e | e in more :: !e.WorldChanged?
    ensures NoOrphans(Run(delay, w, es + more))
    ensures more != [] && (var e := more[|more| - 1]; e.BeforeSave? || e.Reconfigured? || e.Offline?) ==>
              forall h: Handle :: !IsClone(Run(delay, w, es + more).world, Some(h))
  {
    hide NoOrphans, Inv, Enabled, Step, IsClone;
    if more == [] {
      assert es + more == es;
    } else {
      var n, all := |more| - 1, es + more;
      assert all[..|all| - 1] == es + more[..n];
      assert forall e | e in more[..n] :: e in more;
      assert more[n] in more && all[|all| - 1] == more[n];
      NoOrphansSince(delay, w, es, more[..n]);
      RunKeeps(delay, w, es + more[..n]);
      OrphansStep(Run(delay, w, es + more[..n]), more[n]);
    }
  }

  /** A world without clones has none that nobody owns; so it is at the start, and after a load. */
  lemma NoClonesNoOrphans(s: Remotes)
    requires forall h: Handle :: !IsClone(s.world, Some(h))
    ensures NoOrphans(s)
  {}

  /** So in every run that starts without clones and never forgets handles, every clone has an owner. */
  lemma NoOrphansInEveryRun(delay: real, w: World, es: seq<Event>)
    requires EnabledRun(delay, w, es) && (forall h: Handle :: !IsClone(w, Some(h)))
    requires forall e | e in es :: !e.WorldChanged?
    ensures NoOrphans(Run(delay, w, es))
  {
    hide NoOrphans, IsClone, Enabled, Step;
    NoClonesNoOrphans(Start(delay, w));
    assert [] + es == es;
    NoOrphansSince(delay, w, [], es);
  }

  // ---- a run that touches the local player ------------------------------------------

  /** The exception of `SelfLeftAlone` is real. Whoever the local player is and whatever another player is renamed
      to: a state arrives, a frame places a clone, the engine lets its handle resolve to the local player, and
      the rename labels the local player. */
  lemma RenameCanReachSelf(delay: real, self: Body, id: PlayerId, state: RealState, name: Bytes)
      returns (es: seq<Event>)
    requires self.shown != Some(name)
    ensures EnabledRun(delay, World(map[], self), es)
    ensures forall e | e in es && e.EngineActs? :: e.world.self == self
    ensures Run(delay, World(map[], self), es).world.self == self.(shown := Some(name))
  {
    hide ApplyState, UpdateInOrder, Rename, Add, IsClone, Placed;
    var w, h := World(map[], self), id as Handle;
    var luck := (i: PlayerId) => Luck(true, Some(i as Handle), true, state.position, 0.0);
    var moved := Moved(id, state, 0, 0.0);
    var frame := FrameDone(Some(SpaceFromState(state)), SPAWN_RETRY_MS, 0.0, luck, [id]);
    var taken := EngineActs(World(map[h := Self], self));
    FirstPlayer(delay, w, moved);
    var s1 := Step(Start(delay, w), moved);
    NobodyHolds(s1, luck, id);
    PlacedFirst(s1, frame, id, state);
    var s3 := Step(Step(s1, frame), taken);
    RenameSelf(s3, id, name);
    es := [moved, frame, taken, Renamed(id, name)];
    FourSteps(delay, w, es);
  }

  lemma NobodyHolds(s: Remotes, luck: PlayerId -> Luck, id: PlayerId)
    requires s.world.targets == map[] && s.players.Keys == {id} && s.players[id].actor.None?
    requires forall i :: luck(i).spawned == Some(i as Handle)
    ensures FreshLuck(s, luck) && IsOrder([id], s.players.Keys)
  {}

  lemma RenameSelf(s: Remotes, id: PlayerId, name: Bytes)
    requires id in s.players && Resolve(s.world, s.players[id].actor) == Some(Self)
    ensures Step(s, Renamed(id, name)).world.self == s.world.self.(shown := Some(name))
  {}

  lemma FirstPlayer(delay: real, w: World, moved: Event)
    requires moved.Moved? && w.targets == map[]
    ensures var s := Step(Start(delay, w), moved);
            && s.world == w && s.players.Keys == {moved.id} && s.opts == DEFAULTS
            && s.players[moved.id] ==
                 BLANK.(name := V.Placeholder(moved.id), snapshots := [TimedState(moved.state, s.clock.now)])
  {
    hide Filtered, Unwrapped;
  }

  lemma PlacedFirst(s: Remotes, frame: Event, id: PlayerId, state: RealState)
    requires frame.FrameDone? && Enabled(s, frame) && frame.order == [id]
    requires s.players.Keys == {id} && s.opts == DEFAULTS
    requires s.players[id].actor.None? && s.players[id].lastSpawnAttempt == 0.0
    requires |s.players[id].snapshots| == 1 && s.players[id].Latest() == state
    requires frame.space == Some(SpaceFromState(state)) && frame.now == SPAWN_RETRY_MS && frame.luck(id).baseAvailable
    requires frame.luck(id).spawned == Some(id as Handle)
    ensures var t := Step(s, frame);
            t.players.Keys == {id} && t.players[id].actor == Some(id as Handle) && t.world.self == s.world.self
  {
    hide UpdateOne;
    var f := SceneOf(s, frame.space.value, frame.now, frame.localMs);
    var p := s.players[id];
    assert frame.order[..0] == [];
    assert UpdateInOrder(s, [], f, frame.luck) == s;
    OneFrame(p, s.world, f, frame.luck(id));
    assert Places(p, f, frame.luck(id));
  }

  lemma FourSteps(delay: real, w: World, es: seq<Event>)
    requires |es| == 4
    requires var s0 := Start(delay, w);
             && Enabled(s0, es[0])
             && Enabled(Step(s0, es[0]), es[1])
             && Enabled(Step(Step(s0, es[0]), es[1]), es[2])
             && Enabled(Step(Step(Step(s0, es[0]), es[1]), es[2]), es[3])
    ensures EnabledRun(delay, w, es)
    ensures Run(delay, w, es) == Step(Step(Step(Step(Start(delay, w), es[0]), es[1]), es[2]), es[3])
  {
    hide Enabled, Step;
    assert es[..3][..2] == es[..2] && es[..2][..1] == es[..1] && es[..1][..0] == [];
    assert EnabledRun(delay, w, es[..1]) && Run(delay, w, es[..1]) == Step(Start(delay, w), es[0]);
    assert EnabledRun(delay, w, es[..2]);
    assert EnabledRun(delay, w, es[..3]);
  }
}
