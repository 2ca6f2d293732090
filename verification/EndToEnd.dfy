/** From a player's own packet to another client's snapshot buffer. */
module EndToEnd {
  import opened Types
  import opened Interp
  import opened Timeline
  import opened Protocol
  import opened SessionModel
  import opened LobbyStates
  import S = ServerModel
  import C = CloneModel
  import H = CloneHistory

  // ---- a session is a run of its remote players -------------------------------------

  /** What a message is to the remote players. */
  function EventOf(c: Client, m: Msg, localMs: real): seq<C.Event> {
    match m
    case Joined(id, name) => if id != c.myId then [C.Joined(id, name)] else []
    case Left(id) => [C.Left(id)]
    case Renamed(id, name) => if id != c.myId then [C.Renamed(id, name)] else []
    case StateUpdate(id, stamp, state) => if id != c.myId then [C.Moved(id, ToReal(state), stamp, localMs)] else []
    case _ => []
  }

  ghost function Projected(c: Client, es: seq<ClientEvent>): seq<C.Event>
    requires PossibleRun(c, es)
  {
    if es == [] then []
    else
      var before := es[..|es| - 1];
      Projected(c, before) +
      match es[|es| - 1]
      case Packet(bytes, r) =>
        (var d := Decode(bytes); if d.Some? then EventOf(RunClient(c, before), d.value.0, r.localMs) else [])
      case Lost => [C.Offline]
      case Local(event) => [event]
      case Tick(_, _) => []
      case WorldEntered => [C.WorldChanged]
  }

  lemma PacketProjects(c: Client, m: Msg, r: Readings)
    ensures var e := EventOf(c, m, r.localMs);
            && |e| <= 1 && (e != [] ==> C.Enabled(c.remotes, e[0]))
            && HandleMsg(c, m, r).remotes == if e == [] then c.remotes else C.Step(c.remotes, e[0])
  {
    hide C.Add, C.Rename, C.Remove, C.ApplyState, Paced, ToReal;
  }

  lemma OneMoreEvent(delay: real, w: C.World, es: seq<C.Event>, e: C.Event)
    requires C.EnabledRun(delay, w, es) && C.Enabled(C.Run(delay, w, es), e)
    ensures C.EnabledRun(delay, w, es + [e]) && C.Run(delay, w, es + [e]) == C.Step(C.Run(delay, w, es), e)
  {
    H.OneMore(delay, w, es, e);
  }

  /** So whatever holds in every run of the remote players holds in every session. */
  lemma {:induction false} ProjectedRuns(delay: real, w: C.World, c: Client, es: seq<ClientEvent>)
    requires c.remotes == C.Start(delay, w) && PossibleRun(c, es)
    ensures C.EnabledRun(delay, w, Projected(c, es))
    ensures C.Run(delay, w, Projected(c, es)) == RunClient(c, es).remotes
  {
    hide C.Enabled, C.Step, EventOf, HandleMsg, Decode, Paced;
    if es != [] {
      var before, e := es[..|es| - 1], es[|es| - 1];
      ProjectedRuns(delay, w, c, before);
      var d := RunClient(c, before);
      assert Projected(c, before) + [] == Projected(c, before);
      match e {
        case Packet(bytes, r) =>
          if Decode(bytes).Some? {
            PacketProjects(d, Decode(bytes).value.0, r);
            var event := EventOf(d, Decode(bytes).value.0, r.localMs);
            if event != [] {
              assert event == [event[0]];
              OneMoreEvent(delay, w, Projected(c, before), event[0]);
            }
          }
        case Lost =>
          AlwaysEnabled(d.remotes);
          OneMoreEvent(delay, w, Projected(c, before), C.Offline);
        case Local(event) => OneMoreEvent(delay, w, Projected(c, before), event);
        case Tick(_, _) =>
        case WorldEntered =>
          AlwaysEnabled(d.remotes);
          OneMoreEvent(delay, w, Projected(c, before), C.WorldChanged);
      }
    }
  }

  lemma AlwaysEnabled(r: C.Remotes)
    ensures C.Enabled(r, C.Offline) && C.Step(r, C.Offline) == C.Clear(r)
    ensures C.Enabled(r, C.WorldChanged) && C.Step(r, C.WorldChanged) == C.ForgetActors(r)
  {}

  // ---- true send times --------------------------------------------------------------

  /** The update is the state that its player or bot had on the server when the server's clock showed `sent`. */
  ghost predicate TrulySent(env: S.Env, events: seq<S.Event>, u: Update) {
    exists state :: WasState(env, events, u.id, state, u.sent) && Reads(u.state, state)
  }

  /** Every update among the packets was true when stamped. */
  ghost predicate TruePackets(env: S.Env, events: seq<S.Event>, packets: seq<Bytes>) {
    forall bytes | bytes in packets :: TruePacket(env, events, bytes)
  }

  ghost predicate TruePacket(env: S.Env, events: seq<S.Event>, bytes: Bytes) {
    Decode(bytes).Some? && Decode(bytes).value.0.StateUpdate? ==> TrueUpdate(env, events, Decode(bytes).value.0)
  }

  /** The packets are messages the server put into `p`'s logs: any of them, in any order, any number of times. */
  ghost predicate FromLogs(s: S.ServerState, p: S.Peer, packets: seq<Bytes>) {
    forall bytes | bytes in packets :: exists m :: InLogs(s, p, m) && bytes == EncodeBytes(m)
  }

  ghost predicate InLogs(s: S.ServerState, p: S.Peer, m: Msg) {
    (p in s.logs && m in s.logs[p]) || (p in s.updates && m in s.updates[p])
  }

  lemma LogsAreTrue(env: S.Env, events: seq<S.Event>, p: S.Peer, packets: seq<Bytes>)
    requires S.SaneArithmetic(env) && S.EnabledRun(env, events) && FromLogs(S.Run(env, events), p, packets)
    ensures TruePackets(env, events, packets)
  {
    hide S.Run, TrueUpdate, Decode, EncodeBytes;
    forall bytes | bytes in packets
      ensures TruePacket(env, events, bytes)
    {
      var m :| InLogs(S.Run(env, events), p, m) && bytes == EncodeBytes(m);
      UpdateDecodes(m);
      if m.StateUpdate? {
        UpdatesAreTrue(env, events, p, m);
      }
    }
  }

  lemma UpdateDecodes(m: Msg)
    ensures Decode(EncodeBytes(m)).Some?
    ensures var d := Decode(EncodeBytes(m)).value.0; if m.StateUpdate? then d == m else !d.StateUpdate?
  {
    hide Decode, EncodeBytes;
    DecodeEncode(m, []);
    assert EncodeBytes(m) + [] == EncodeBytes(m);
  }

  lemma NoUpdates(es: seq<C.Event>, e: C.Event, us: seq<Update>)
    requires H.Carries(es, us) && !e.Moved? && !e.Offline?
    ensures H.Carries(es + [e], us)
  {
    assert (es + [e])[..|es|] == es;
  }

  lemma OneUpdate(es: seq<C.Event>, e: C.Event, us: seq<Update>, u: Update)
    requires H.Carries(es, us) && e.Moved? && u.id == e.id && u.state == e.state && e.stamp == Stamp(u.sent)
    ensures H.Carries(es + [e], us + [u])
  {
    assert (es + [e])[..|es|] == es && (us + [u])[..|us|] == us;
  }

  lemma CarriesNothing(es: seq<C.Event>)
    ensures H.Carries([], []) && H.Carries(es + [C.Offline], [])
  {
    assert (es + [C.Offline])[|es + [C.Offline]| - 1] == C.Offline;
  }

  /** The update behind a message that moves a remote player. */
  lemma TrueSend(env: S.Env, events: seq<S.Event>, m: Msg) returns (u: Update)
    requires m.StateUpdate? && TrueUpdate(env, events, m)
    ensures u.id == m.id && u.state == ToReal(m.state) && m.timeMs == Stamp(u.sent) && TrulySent(env, events, u)
  {
    hide WasState, FloatValue;
    var time :| WasState(env, events, m.id, m.state, time) && m.timeMs == time % 0x1_0000_0000;
    u := Update(m.id, time, ToReal(m.state));
  }

  lemma {:induction false} SendTimesExist(env: S.Env, events: seq<S.Event>, c: Client, es: seq<ClientEvent>)
      returns (us: seq<Update>)
    requires PossibleRun(c, es) && TruePackets(env, events, PacketsOf(es))
    ensures H.Carries(Projected(c, es), us)
    ensures forall u | u in us :: TrulySent(env, events, u)
  {
    hide C.Enabled, C.Step, HandleMsg, Decode, Paced, TrulySent, TrueUpdate, H.Carries, ToReal, StepClient;
    us := [];
    CarriesNothing([]);
    if es != [] {
      var before, e := es[..|es| - 1], es[|es| - 1];
      var sofar := Projected(c, before);
      assert sofar + [] == sofar;
      if e.Lost? {
        CarriesNothing(sofar);
      } else {
        assert forall bytes | bytes in PacketsOf(before) :: bytes in PacketsOf(es);
        us := SendTimesExist(env, events, c, before);
        if e.Local? {
          NoUpdates(sofar, e.event, us);
        } else if e.WorldEntered? {
          NoUpdates(sofar, C.WorldChanged, us);
        } else if e.Packet? && Decode(e.bytes).Some? {
          var m := Decode(e.bytes).value.0;
          var event := EventOf(RunClient(c, before), m, e.readings.localMs);
          if event != [] && !event[0].Moved? {
            NoUpdates(sofar, event[0], us);
          } else if event != [] {
            assert e.bytes in PacketsOf(es) && TruePacket(env, events, e.bytes);
            var u := TrueSend(env, events, m);
            OneUpdate(sofar, event[0], us, u);
            us := us + [u];
          }
        }
      }
    }
  }

  // ---- the whole way ----------------------------------------------------------------

  /** After any run of the server and any session whose packets come out of the server's logs, lost, repeated and
      reordered as they may be: behind the state updates of the connection there are true send times, and if
      neighbours of these are less than 2^31 ms apart, every player's snapshot buffer is a suffix of the strict
      running maxima of what that player really did on the server, moved by one constant for everyone. */
  lemma StatesReachBuffers(env: S.Env, events: seq<S.Event>, p: S.Peer, delay: real, w: C.World, c: Client,
                           es: seq<ClientEvent>)
    returns (us: seq<Update>)
    requires S.SaneArithmetic(env) && S.EnabledRun(env, events) && FromLogs(S.Run(env, events), p, PacketsOf(es))
    requires c.remotes == C.Start(delay, w) && PossibleRun(c, es)
    ensures H.Carries(Projected(c, es), us)
    ensures forall u | u in us :: TrulySent(env, events, u)
    ensures SmallSteps(SendTimes(us)) ==>
              forall id :: Refines(H.SnapshotsOf(RunClient(c, es).remotes, id),
                                   Maxima(Own(H.Since(Projected(c, es), us, id), id, H.Shift(us))))
  {
    hide S.Run, FromLogs, TruePackets, Projected, H.Carries, SmallSteps, Refines, Maxima, Own, H.Since, H.Shift,
         RunClient, TrulySent;
    LogsAreTrue(env, events, p, PacketsOf(es));
    us := SendTimesExist(env, events, c, es);
    ProjectedRuns(delay, w, c, es);
    if SmallSteps(SendTimes(us)) {
      forall id
        ensures Refines(H.SnapshotsOf(RunClient(c, es).remotes, id),
                        Maxima(Own(H.Since(Projected(c, es), us, id), id, H.Shift(us))))
      {
        H.WireToBuffer(delay, w, Projected(c, es), us, id);
      }
    }
  }
}
