/** From packets to what is seen: buffers against histories, and the name a clone keeps. */
module CloneHistory {
  import opened Types
  import opened Interp
  import opened Sampling
  import opened Timeline
  import opened CloneModel
  import opened CloneFrames
  import opened CloneRuns
  import opened CloneLives
  import V = ClientView

  // ---- buffers ----------------------------------------------------------------------

  /** Every snapshot accepted for `id` since it was last removed, none forgotten. */
  ghost function HistoryOf(delay: real, w: World, es: seq<Event>, id: PlayerId): seq<TimedState>
    requires EnabledRun(delay, w, es)
  {
    if es == [] then []
    else
      var h := HistoryOf(delay, w, es[..|es| - 1], id);
      match es[|es| - 1]
      case Moved(other, state, stamp, _) =>
        var now := Unwrapped(Run(delay, w, es[..|es| - 1]).clock, stamp).now;
        if other == id then Accepted(h, TimedState(state, now)) else h
      case Left(other) => if other == id then [] else h
      case Offline => []
      case _ => h
  }

  function SnapshotsOf(s: Remotes, id: PlayerId): seq<TimedState> {
    if id in s.players then s.players[id].snapshots else []
  }

  lemma FrameSnapshots(s: Remotes, order: seq<PlayerId>, f: Scene, luck: PlayerId -> Luck, id: PlayerId)
    requires OwnActors(s) && ClonesOk(s) && NewHandles(s, luck) && IsOrder(order, s.players.Keys)
    ensures SnapshotsOf(UpdateInOrder(s, order, f, luck), id) == Pruned(SnapshotsOf(s, id), f.renderMs)
  {
    hide UpdateInOrder, UpdateOne, CloneOk, Resolve, OnlyOwn, AsWanted, Survives, Places, IsClone, Pruned;
    PrunedEmpty(f.renderMs);
    if id in s.players {
      OrderDone(s, order, f, luck);
      assert DoneOne(s, UpdateInOrder(s, order, f, luck), id, true, f, luck(id));
      OneFrame(s.players[id], s.world, f, luck(id));
    }
  }

  lemma MovedSnapshots(s: Remotes, id: PlayerId, state: RealState, stamp: u32, localMs: real, who: PlayerId)
    ensures var t := ApplyState(s, id, state, stamp, localMs);
            t.clock == Unwrapped(s.clock, stamp) &&
            SnapshotsOf(t, who) ==
              if who == id then Stored(SnapshotsOf(s, id), TimedState(state, t.clock.now)) else SnapshotsOf(s, who)
  {
    hide Stored, Filtered, Unwrapped;
  }

  lemma OtherSnapshots(s: Remotes, e: Event, id: PlayerId)
    requires Enabled(s, e) && !e.Moved? && !e.FrameDone?
    ensures SnapshotsOf(Step(s, e), id) == if e.Offline? || (e.Left? && e.id == id) then [] else SnapshotsOf(s, id)
    ensures Step(s, e).clock == if e.Offline? then UNSET else s.clock
  {
    hide IsClone, Resolve;
  }

  /** In every run each buffer is a suffix, within the bound, of everything accepted for that player, and
      never shorter than two unless that is all there ever was. */
  lemma {:induction false} BuffersRefine(delay: real, w: World, es: seq<Event>, id: PlayerId)
    requires EnabledRun(delay, w, es)
    ensures Refines(SnapshotsOf(Run(delay, w, es), id), HistoryOf(delay, w, es, id))
  {
    hide Refines, Stored, Pruned, Accepted, ApplyState, UpdateInOrder, SnapshotsOf, Unwrapped, OwnActors, ClonesOk,
         ClockKnown, NewHandles, FreshLuck, IsOrder, Add, Rename, Remove;
    NothingRefines();
    if es == [] {
      StartSnapshots(delay, w, id);
    } else {
      var before, e := es[..|es| - 1], es[|es| - 1];
      BuffersRefine(delay, w, before, id);
      var s, h := Run(delay, w, before), HistoryOf(delay, w, before, id);
      match e {
        case Moved(other, state, stamp, localMs) =>
          MovedSnapshots(s, other, state, stamp, localMs, id);
          StoredRefines(SnapshotsOf(s, id), h, TimedState(state, Unwrapped(s.clock, stamp).now));
        case FrameDone(space, now, localMs, luck, order) =>
          if space.Some? {
            var f := SceneOf(s, space.value, now, localMs);
            RunKeeps(delay, w, before);
            FreshIsNew(s, luck);
            FrameSnapshots(s, order, f, luck, id);
            PrunedRefines(SnapshotsOf(s, id), h, f.renderMs);
          }
        case _ => OtherSnapshots(s, e, id);
      }
    }
  }

  lemma StartSnapshots(delay: real, w: World, id: PlayerId)
    ensures SnapshotsOf(Start(delay, w), id) == []
  {}

  /** What a driven clone shows after any run and one more frame is the sample of everything ever accepted
      for its player, at any render time after the oldest snapshot still held; up to then, or while it is the only
      one, it is that snapshot. */
  lemma ShownIsSampled(delay: real, w: World, es: seq<Event>, frame: Event, id: PlayerId)
    requires EnabledRun(delay, w, es) && Enabled(Run(delay, w, es), frame) && frame.FrameDone? && frame.space.Some?
    requires id in Run(delay, w, es).players && Run(delay, w, es).players[id].snapshots != []
    requires Run(delay, w, es).opts.drive && !Run(delay, w, es).opts.move
    ensures var s := Run(delay, w, es);
            var f := SceneOf(s, frame.space.value, frame.now, frame.localMs);
            var t, h := Step(s, frame), HistoryOf(delay, w, es, id);
            id in t.players && t.players[id].snapshots != [] && h != []
            && (IsClone(t.world, t.players[id].actor) && f.renderMs > t.players[id].snapshots[0].Time() ==>
                  var b, sample := t.world.targets[t.players[id].actor.value].body, Sample(h, f.renderMs);
                  b.position == sample.position && b.yaw == sample.yaw)
            && (IsClone(t.world, t.players[id].actor) &&
                (f.renderMs <= t.players[id].snapshots[0].Time() || |t.players[id].snapshots| == 1) ==>
                  var b, oldest := t.world.targets[t.players[id].actor.value].body, t.players[id].snapshots[0].state;
                  b.position == oldest.position && b.yaw == oldest.yaw)
  {
    hide Run, Sample, UpdateInOrder, Refines, Survives, Places, FreshLuck, NewHandles, IsOrder, OwnActors, ClonesOk,
         SameArea, SpaceFromState, FlagsAgree, Resolve;
    var s := Run(delay, w, es);
    var f := SceneOf(s, frame.space.value, frame.now, frame.localMs);
    ClonesFollow(delay, w, es, frame, id);
    OneMore(delay, w, es, frame);
    BuffersRefine(delay, w, es + [frame], id);
    assert (es + [frame])[..|es|] == es;
    var t := Step(s, frame);
    RefinesNonempty(SnapshotsOf(t, id), HistoryOf(delay, w, es, id));
    if f.renderMs > t.players[id].snapshots[0].Time() {
      SuffixSamples(t.players[id].snapshots, HistoryOf(delay, w, es, id), f.renderMs);
    }
    if f.renderMs <= t.players[id].snapshots[0].Time() || |t.players[id].snapshots| == 1 {
      HeldAtFront(SnapshotsOf(t, id), HistoryOf(delay, w, es, id), f.renderMs);
    }
  }

  lemma HeldAtFront(buffer: seq<TimedState>, h: seq<TimedState>, renderMs: real)
    requires Refines(buffer, h) && buffer != [] && (renderMs <= buffer[0].Time() || |buffer| == 1)
    ensures Sample(buffer, renderMs) == buffer[0].state
  {
    hide Sample;
    SampleHeld(buffer, renderMs, buffer[0]);
  }

  lemma OneMore(delay: real, w: World, es: seq<Event>, e: Event)
    requires EnabledRun(delay, w, es) && Enabled(Run(delay, w, es), e)
    ensures EnabledRun(delay, w, es + [e]) && Run(delay, w, es + [e]) == Step(Run(delay, w, es), e)
  {
    hide Enabled, Step;
    assert (es + [e])[..|es|] == es;
  }

  lemma RefinesNonempty(buffer: seq<TimedState>, h: seq<TimedState>)
    requires Refines(buffer, h) && buffer != []
    ensures h != []
  {}

  // ---- from the wire ----------------------------------------------------------------

  /** The state updates among `es` since the connection was last lost are `us`: same players and states, stamped with
      their send times. */
  ghost predicate Carries(es: seq<Event>, us: seq<Update>) {
    if es == [] || es[|es| - 1].Offline? then us == []
    else if es[|es| - 1].Moved? then
      us != [] && Carries(es[..|es| - 1], us[..|us| - 1]) &&
      (var e, u := es[|es| - 1], us[|us| - 1]; e.id == u.id && e.state == u.state && e.stamp == Stamp(u.sent))
    else Carries(es[..|es| - 1], us)
  }

  /** Those of them that came after `id` was last removed. */
  ghost function Since(es: seq<Event>, us: seq<Update>, id: PlayerId): seq<Update>
    requires Carries(es, us)
  {
    if us == [] || (es[|es| - 1].Left? && es[|es| - 1].id == id) then []
    else if es[|es| - 1].Moved? then Since(es[..|es| - 1], us[..|us| - 1], id) + [us[|us| - 1]]
    else Since(es[..|es| - 1], us, id)
  }

  /** What separates the client's timeline from the server's. */
  function Shift(us: seq<Update>): int { if us == [] then 0 else Offset(us[0].sent) }

  lemma FrameClock(s: Remotes, e: Event)
    requires Enabled(s, e) && e.FrameDone?
    ensures Step(s, e).clock == s.clock
  {
    hide Touch;
  }

  lemma StepMoved(s: Remotes, e: Event)
    requires Enabled(s, e) && e.Moved?
    ensures Step(s, e).clock == Unwrapped(s.clock, e.stamp)
  {
    MovedSnapshots(s, e.id, e.state, e.stamp, e.localMs, e.id);
  }

  lemma {:induction false} ClockFromWire(delay: real, w: World, es: seq<Event>, us: seq<Update>)
    requires EnabledRun(delay, w, es) && Carries(es, us)
    ensures Run(delay, w, es).clock == Receive(us).0
  {
    hide Accepted, Unwrapped, Stamp, ApplyState, UpdateInOrder, Enabled, Step;
    if es != [] {
      var before, e := es[..|es| - 1], es[|es| - 1];
      var s := Run(delay, w, before);
      assert Enabled(s, e);
      if e.Moved? {
        ClockFromWire(delay, w, before, us[..|us| - 1]);
        StepMoved(s, e);
      } else {
        if !e.Offline? {
          ClockFromWire(delay, w, before, us);
        }
        if e.FrameDone? {
          FrameClock(s, e);
        } else {
          OtherSnapshots(s, e, 0);
        }
      }
    }
  }

  lemma StepsBefore(us: seq<Update>)
    requires us != [] && SmallSteps(SendTimes(us))
    ensures SmallSteps(SendTimes(us[..|us| - 1])) && (|us| > 1 ==> Shift(us[..|us| - 1]) == Shift(us))
  {
    if |us| > 1 {
      FewerSmallSteps(us);
    }
  }

  lemma NothingSince(es: seq<Event>, id: PlayerId, shift: int)
    requires Carries(es, [])
    ensures AcceptAll(Own(Since(es, [], id), id, shift)) == []
  {}

  lemma SinceMoved(es: seq<Event>, us: seq<Update>, id: PlayerId, shift: int)
    requires es != [] && es[|es| - 1].Moved? && Carries(es, us)
    ensures var u := us[|us| - 1];
            var before := AcceptAll(Own(Since(es[..|es| - 1], us[..|us| - 1], id), id, shift));
            AcceptAll(Own(Since(es, us, id), id, shift)) ==
              if u.id == id then Accepted(before, TimedState(u.state, u.sent + shift)) else before
  {
    hide Accepted, AcceptAll, Own;
    var mine := Since(es, us, id);
    assert mine[..|mine| - 1] == Since(es[..|es| - 1], us[..|us| - 1], id);
    OwnOne(mine, id, shift);
  }

  /** With neighbouring send times less than 2^31 ms apart, a player's history is made of the updates since it was
      last removed, at their true send times moved by one constant for everyone. */
  lemma {:induction false} HistoryFromWire(delay: real, w: World, es: seq<Event>, us: seq<Update>, id: PlayerId)
    requires EnabledRun(delay, w, es) && Carries(es, us) && SmallSteps(SendTimes(us))
    ensures HistoryOf(delay, w, es, id) == AcceptAll(Own(Since(es, us, id), id, Shift(us)))
  {
    hide Accepted, Unwrapped, Stamp, Enabled, Step, AcceptAll, Own, SmallSteps, Receive, Shift;
    if us == [] {
      NothingSince(es, id, Shift(us));
    }
    if es != [] {
      var before, e := es[..|es| - 1], es[|es| - 1];
      if e.Moved? {
        var n := |us| - 1;
        StepsBefore(us);
        HistoryFromWire(delay, w, before, us[..n], id);
        if n == 0 {
          NothingSince(before, id, Shift(us));
          NothingSince(before, id, Shift(us[..0]));
        }
        HistoryMoved(delay, w, es, us, id);
        SinceMoved(es, us, id, Shift(us));
      } else if !e.Offline? {
        HistoryFromWire(delay, w, before, us, id);
        NothingOwned(id, Shift(us));
      }
    } else {
      NothingOwned(id, Shift(us));
    }
  }

  lemma NothingOwned(id: PlayerId, shift: int)
    ensures AcceptAll(Own([], id, shift)) == []
  {}

  lemma HistoryMoved(delay: real, w: World, es: seq<Event>, us: seq<Update>, id: PlayerId)
    requires EnabledRun(delay, w, es) && Carries(es, us) && SmallSteps(SendTimes(us)) && es != [] && es[|es| - 1].Moved?
    ensures var h, u := HistoryOf(delay, w, es[..|es| - 1], id), us[|us| - 1];
            HistoryOf(delay, w, es, id) ==
              if u.id == id then Accepted(h, TimedState(u.state, u.sent + Shift(us))) else h
  {
    hide Accepted, Unwrapped, Stamp, Enabled, Step, SmallSteps, Receive, Offset;
    ClockFromWire(delay, w, es[..|es| - 1], us[..|us| - 1]);
    ReceiveNext(us);
    SharedShift(us);
  }

  lemma ReceiveNext(us: seq<Update>)
    requires us != []
    ensures Receive(us).0 == Unwrapped(Receive(us[..|us| - 1]).0, Stamp(us[|us| - 1].sent))
  {
    hide Unwrapped, Stamp, Accepted;
  }

  /** End to end, over any number of connections: each player's buffer is a suffix of the strict running maxima of
      the true send times of its updates since it was last removed, moved by one constant for everyone. */
  lemma WireToBuffer(delay: real, w: World, es: seq<Event>, us: seq<Update>, id: PlayerId)
    requires EnabledRun(delay, w, es) && Carries(es, us) && SmallSteps(SendTimes(us))
    ensures Refines(SnapshotsOf(Run(delay, w, es), id), Maxima(Own(Since(es, us, id), id, Shift(us))))
    ensures Shift(us) % 0x1_0000_0000 == 0
  {
    hide Run, HistoryOf, Carries, SmallSteps, Receive, Own, Maxima, Refines, AcceptAll, Increasing, Since, Offset;
    HistoryFromWire(delay, w, es, us, id);
    BuffersRefine(delay, w, es, id);
    AcceptedAreMaxima(Own(Since(es, us, id), id, Shift(us)));
    if us != [] {
      SharedShift(us);
    }
  }

  // ---- the clock offset -------------------------------------------------------------

  /** Local minus server time of every state update since the connection was made. */
  ghost function SamplesOf(delay: real, w: World, es: seq<Event>): seq<real>
    requires EnabledRun(delay, w, es)
  {
    if es == [] then []
    else
      var before := SamplesOf(delay, w, es[..|es| - 1]);
      match es[|es| - 1]
      case Moved(_, _, stamp, localMs) =>
        before + [localMs - Unwrapped(Run(delay, w, es[..|es| - 1]).clock, stamp).now as real]
      case Offline => []
      case _ => before
  }

  function OffsetOf(s: Remotes): Option<real> { if s.hasOffset then Some(s.offsetMs) else None }

  lemma StepOffset(s: Remotes, e: Event)
    requires Enabled(s, e)
    ensures OffsetOf(Step(s, e)) ==
              if e.Moved? then Some(Filtered(OffsetOf(s), e.localMs - Unwrapped(s.clock, e.stamp).now as real))
              else if e.Offline? then None else OffsetOf(s)
  {
    hide Touch, Stored, Filtered, Unwrapped;
  }

  /** In every run the offset is the filter over the samples of this connection; so it lies between the
      smallest of them and the latest. */
  lemma {:induction false} OffsetIsFiltered(delay: real, w: World, es: seq<Event>, least: real)
    requires EnabledRun(delay, w, es) && forall x | x in SamplesOf(delay, w, es) :: least <= x
    ensures var s, xs := Run(delay, w, es), SamplesOf(delay, w, es);
            && OffsetOf(s) == FilterAll(None, xs) && (s.hasOffset <==> xs != [])
            && (s.hasOffset ==> least <= s.offsetMs <= xs[|xs| - 1])
  {
    hide Run, Filtered;
    OffsetFollows(delay, w, es);
    var xs := SamplesOf(delay, w, es);
    if xs != [] {
      OffsetBetween(xs, least);
    }
  }

  lemma {:induction false} OffsetFollows(delay: real, w: World, es: seq<Event>)
    requires EnabledRun(delay, w, es)
    ensures OffsetOf(Run(delay, w, es)) == FilterAll(None, SamplesOf(delay, w, es))
  {
    hide Step, Enabled, Filtered, Unwrapped;
    if es != [] {
      var before, e := es[..|es| - 1], es[|es| - 1];
      OffsetFollows(delay, w, before);
      assert Enabled(Run(delay, w, before), e);
      StepOffset(Run(delay, w, before), e);
      var xs := SamplesOf(delay, w, es);
      if e.Moved? {
        assert xs[..|xs| - 1] == SamplesOf(delay, w, before);
      }
    }
  }

  /** The state updates among some events. */
  function Updates(es: seq<Event>): nat {
    if es == [] then 0 else Updates(es[..|es| - 1]) + if es[|es| - 1].Moved? then 1 else 0
  }

  lemma {:induction false} SamplesGrow(delay: real, w: World, es: seq<Event>, more: seq<Event>)
    requires EnabledRun(delay, w, es) && EnabledRun(delay, w, es + more) && forall e | e in more :: !e.Offline?
    ensures var xs, ys := SamplesOf(delay, w, es), SamplesOf(delay, w, es + more);
            |ys| == |xs| + Updates(more) && ys[..|xs|] == xs
  {
    hide Run, Enabled, Unwrapped;
    if more == [] {
      assert es + more == es;
    } else {
      var n, all := |more| - 1, es + more;
      assert all[..|all| - 1] == es + more[..n] && all[|all| - 1] == more[n] && more[n] in more;
      assert forall e | e in more[..n] :: e in more;
      SamplesGrow(delay, w, es, more[..n]);
    }
  }

  predicate AtLeast(ys: seq<real>, from: nat, m: real) { forall i | from <= i < |ys| :: m <= ys[i] }

  predicate AllAre(ys: seq<real>, from: nat, m: real) { forall i | from <= i < |ys| :: ys[i] == m }

  lemma RisesFrom(xs: seq<real>, ys: seq<real>, k: nat, v: real, m: real)
    requires |ys| == |xs| + k && ys[..|xs|] == xs && AtLeast(ys, |xs|, m)
    requires FilterAll(None, xs) == Some(v) && v <= m
    ensures FilterAll(None, ys).Some? && FilterAll(None, ys).value >= m - Power98(k) * (m - v)
    ensures AllAre(ys, |xs|, m) ==> FilterAll(None, ys).value == m - Power98(k) * (m - v)
  {
    hide FilterAll, Power98;
    var later := ys[|xs|..];
    assert ys == xs + later;
    FilterOn(None, xs, later);
    OffsetRises(v, m, later);
  }

  /** In every run: from an offset of `v`, later updates on the same connection whose samples are all at least `m`
      bring it up to `m - 0.98^k (m - v)` or higher, and exactly there if they all are `m`. No early packet pins the
      clock for good. */
  lemma OffsetComesBack(delay: real, w: World, es: seq<Event>, more: seq<Event>, m: real)
    requires EnabledRun(delay, w, es) && EnabledRun(delay, w, es + more) && forall e | e in more :: !e.Offline?
    requires Run(delay, w, es).hasOffset && Run(delay, w, es).offsetMs <= m
    requires AtLeast(SamplesOf(delay, w, es + more), |SamplesOf(delay, w, es)|, m)
    ensures var s, t := Run(delay, w, es), Run(delay, w, es + more);
            var least := m - Power98(Updates(more)) * (m - s.offsetMs);
            && t.hasOffset && t.offsetMs >= least
            && (AllAre(SamplesOf(delay, w, es + more), |SamplesOf(delay, w, es)|, m) ==> t.offsetMs == least)
  {
    hide Run, EnabledRun, SamplesOf, FilterAll, AtLeast, AllAre, Power98, Updates;
    OffsetFollows(delay, w, es);
    OffsetFollows(delay, w, es + more);
    SamplesGrow(delay, w, es, more);
    var xs, ys := SamplesOf(delay, w, es), SamplesOf(delay, w, es + more);
    RisesFrom(xs, ys, Updates(more), Run(delay, w, es).offsetMs, m);
  }

  /** When the state updates of this connection arrived, by the local clock. */
  function LocalsOf(es: seq<Event>): seq<real> {
    if es == [] then []
    else
      match es[|es| - 1]
      case Moved(_, _, _, localMs) => LocalsOf(es[..|es| - 1]) + [localMs]
      case Offline => []
      case _ => LocalsOf(es[..|es| - 1])
  }

  lemma {:induction false} SamplesFromWire(delay: real, w: World, es: seq<Event>, us: seq<Update>)
    requires EnabledRun(delay, w, es) && Carries(es, us) && SmallSteps(SendTimes(us))
    ensures |SamplesOf(delay, w, es)| == |us| == |LocalsOf(es)|
    ensures forall i | 0 <= i < |us| :: SamplesOf(delay, w, es)[i] == LocalsOf(es)[i] - (us[i].sent + Shift(us)) as real
  {
    hide Unwrapped, Stamp, Enabled, Step, SmallSteps, Receive, Shift, Run;
    if es != [] {
      var before, e := es[..|es| - 1], es[|es| - 1];
      if e.Moved? {
        StepsBefore(us);
        SamplesFromWire(delay, w, before, us[..|us| - 1]);
        ClockFromWire(delay, w, before, us[..|us| - 1]);
        ReceiveNext(us);
        SharedShift(us);
        ShiftIs(us);
      } else if !e.Offline? {
        SamplesFromWire(delay, w, before, us);
      }
    }
  }

  lemma ShiftIs(us: seq<Update>)
    requires us != []
    ensures Shift(us) == Offset(us[0].sent)
  {}

  /** No update arrives before it was sent; the local clock is `skew` ahead of the server's. */
  ghost predicate NoneEarly(locals: seq<real>, us: seq<Update>, skew: real) {
    |locals| == |us| && forall i | 0 <= i < |us| :: locals[i] - skew - us[i].sent as real >= 0.0
  }

  /** Each update with its time under way, on the client's timeline. */
  function Transits(locals: seq<real>, us: seq<Update>, skew: real): (ts: seq<Transit>)
    requires |locals| == |us|
    ensures |ts| == |us| && forall i | 0 <= i < |us| ::
        ts[i] == Transit(locals[i], locals[i] - skew - us[i].sent as real)
  {
    seq(|us|, i requires 0 <= i < |us| => Transit(locals[i], locals[i] - skew - us[i].sent as real))
  }

  /** In every run of the object, whenever updates have arrived on this connection: from the latest one on, the
      estimated server time `localMs - offsetMs` is no less than the latest send time and no more than the true
      server time, both on the client's timeline. */
  lemma ServerTimeInEveryRun(delay: real, w: World, es: seq<Event>, us: seq<Update>, skew: real, now: real)
    requires EnabledRun(delay, w, es) && Carries(es, us) && SmallSteps(SendTimes(us)) && us != []
    requires NoneEarly(LocalsOf(es), us, skew) && now >= LocalsOf(es)[|us| - 1]
    ensures var s := Run(delay, w, es);
            && s.hasOffset
            && (us[|us| - 1].sent + Shift(us)) as real <= now - s.offsetMs <= now - skew + Shift(us) as real
  {
    hide Run, SamplesOf, Carries, Shift, LocalsOf, FilterAll, SmallSteps;
    SamplesFromWire(delay, w, es, us);
    OffsetFollows(delay, w, es);
    var ts, xs := Transits(LocalsOf(es), us, skew), SamplesOf(delay, w, es);
    var shifted := skew - Shift(us) as real;
    assert Samples(ts, shifted) == xs;
    assert forall t | t in ts :: t.underway >= 0.0;
    ServerTimeSandwiched(ts, shifted, now);
  }

  lemma {:induction false} DelayStays(delay: real, w: World, es: seq<Event>)
    requires EnabledRun(delay, w, es)
    ensures Run(delay, w, es).interpDelayMs == delay
  {
    hide Enabled, Step;
    if es != [] {
      DelayStays(delay, w, es[..|es| - 1]);
      assert Enabled(Run(delay, w, es[..|es| - 1]), es[|es| - 1]);
      StepDelay(Run(delay, w, es[..|es| - 1]), es[|es| - 1]);
    }
  }

  lemma StepDelay(s: Remotes, e: Event)
    requires Enabled(s, e)
    ensures Step(s, e).interpDelayMs == s.interpDelayMs
  {
    hide Touch, Stored, Filtered, Unwrapped;
  }

  /** So a frame renders the past: by the interpolation delay before a time between the latest update and the true
      server time, both on the client's timeline. */
  lemma RenderedInThePast(delay: real, w: World, es: seq<Event>, us: seq<Update>, skew: real, frame: Event)
    requires EnabledRun(delay, w, es) && Carries(es, us) && SmallSteps(SendTimes(us)) && us != []
    requires frame.FrameDone? && frame.space.Some?
    requires NoneEarly(LocalsOf(es), us, skew) && frame.localMs >= LocalsOf(es)[|us| - 1]
    ensures var f := SceneOf(Run(delay, w, es), frame.space.value, frame.now, frame.localMs);
            (us[|us| - 1].sent + Shift(us)) as real - delay <= f.renderMs
              <= frame.localMs - skew + Shift(us) as real - delay
  {
    hide Run, Carries, Shift, LocalsOf, SmallSteps;
    ServerTimeInEveryRun(delay, w, es, us, skew, frame.localMs);
    DelayStays(delay, w, es);
  }

  // ---- the name a clone keeps -------------------------------------------------------

  lemma OneFrameBase(p: RemotePlayer, w: World, f: Scene, luck: Luck)
    requires !f.opts.duplicate
    ensures UpdateOne(p, w, f, luck).0.base == p.base
  {
    hide TornDown, Spawned, DrivenIn, Pruned, Resolve;
    if p.snapshots != [] {
      var p0 := p.(snapshots := Pruned(p.snapshots, f.renderMs));
      var (p1, w1) := TornDown(p0, w, f);
      TornDownKeeps(p0, w, f);
      SpawnedBase(p1, w1, f, luck);
      var (p2, w2) := SpawnedIfMissing(p1, w1, f, luck);
      DrivenInKeeps(p2, w2, f, luck);
    }
  }

  lemma SpawnedBase(p: RemotePlayer, w: World, f: Scene, luck: Luck)
    requires p.snapshots != [] && !f.opts.duplicate
    ensures Spawned(p, w, f, luck).0.base == p.base
  {
    hide SameArea, SpaceFromState;
  }

  /** With shared bases, a state that overtakes the join and a frame in between leave the clone labelled
      with the placeholder, whatever name the join brings. */
  lemma OvertakenJoinHidesName(s: Remotes, moved: Event, frame: Event, name: Bytes)
    requires Inv(s) && NamesShown(s) && !s.opts.duplicate
    requires moved.Moved? && moved.id !in s.players && name != V.Placeholder(moved.id)
    requires frame.FrameDone? && Enabled(Step(s, moved), frame) && frame.space == Some(SpaceFromState(moved.state))
    requires frame.now >= SPAWN_RETRY_MS && frame.luck(moved.id).baseAvailable && frame.luck(moved.id).spawned.Some?
    ensures !NamesShown(Step(Step(Step(s, moved), frame), Joined(moved.id, name)))
  {
    hide UpdateInOrder, UpdateOne, Pruned, FreshLuck, NewHandles, IsOrder, OwnActors, ClonesOk, DoneOne, Resolve,
         AsWanted, Survives, ClockKnown, ApplyState, NamesShown;
    var s1, id := Step(s, moved), moved.id;
    FirstState(s, moved);
    StepKeeps(s, moved);
    NamesStep(s, moved);
    var f := SceneOf(s1, frame.space.value, frame.now, frame.localMs);
    FreshIsNew(s1, frame.luck);
    PlacesFirst(s1.players[id], moved.state, f, frame.luck(id));
    FrameAsWanted(s1, frame.order, f, frame.luck, id);
    StepKeeps(s1, frame);
    NamesStep(s1, frame);
    FrameNameBase(s1, frame.order, f, frame.luck, id);
    var s2 := Step(s1, frame);
    ShownHere(s2, id);
    NamesStep(s2, Joined(id, name));
  }

  lemma ShownHere(s: Remotes, id: PlayerId)
    requires NamesShown(s) && id in s.players
    ensures NameShown(s.players[id], s.world)
  {}

  lemma FirstState(s: Remotes, moved: Event)
    requires moved.Moved? && moved.id !in s.players
    ensures var t := Step(s, moved);
            moved.id in t.players && t.opts == s.opts &&
            t.players[moved.id] ==
              BLANK.(name := V.Placeholder(moved.id), snapshots := [TimedState(moved.state, t.clock.now)])
  {
    hide Filtered, Unwrapped;
  }

  lemma PlacesFirst(p: RemotePlayer, state: RealState, f: Scene, luck: Luck)
    requires p.snapshots != [] && p.Latest() == state && p.lastSpawnAttempt == 0.0 && !f.opts.duplicate
    requires f.space == SpaceFromState(state) && f.now >= SPAWN_RETRY_MS && luck.baseAvailable && luck.spawned.Some?
    ensures Places(p, f, luck)
  {}

  lemma FrameNameBase(s: Remotes, order: seq<PlayerId>, f: Scene, luck: PlayerId -> Luck, id: PlayerId)
    requires OwnActors(s) && ClonesOk(s) && NewHandles(s, luck) && IsOrder(order, s.players.Keys)
    requires id in s.players && !f.opts.duplicate
    ensures var t := UpdateInOrder(s, order, f, luck);
            t.players[id].name == s.players[id].name && t.players[id].base == s.players[id].base
  {
    hide UpdateInOrder, UpdateOne, CloneOk, Resolve, AsWanted, Survives, Places, IsClone, Pruned;
    OrderDone(s, order, f, luck);
    assert DoneOne(s, UpdateInOrder(s, order, f, luck), id, true, f, luck(id));
    OneFrame(s.players[id], s.world, f, luck(id));
    OneFrameBase(s.players[id], s.world, f, luck(id));
  }
}
