/** The `Session` object: the client's end of the connection. */
module ClientSession {
  import opened Types
  import opened Packet
  import opened Protocol
  import opened Messages
  import opened ClientView
  import opened Agreement
  import opened SessionModel
  import opened ReplicaSet
  import C = CloneModel

  class Session {
    var myId: PlayerId
    var welcomed: bool
    var serverName: Bytes
    var hasLastSent: bool
    var lastSent: WireState
    var lastSend: real
    const sendRate: u32
    const remotes: RemotePlayers

    ghost function State(): Client
      reads this, remotes, remotes.serverClock
    {
      Client(myId, welcomed, serverName, Pacer(hasLastSent, lastSent, lastSend), remotes.State())
    }

    constructor (rate: u32, delay: real, w: C.World)
      ensures State() == Client(INVALID_PLAYER_ID, false, [], IDLE, C.Start(delay, w))
      ensures sendRate == rate && fresh(remotes) && fresh(remotes.serverClock)
    {
      myId, welcomed, serverName := INVALID_PLAYER_ID, false, [];
      hasLastSent, lastSent, lastSend, sendRate := false, IDLE.last, IDLE.at, rate;
      remotes := new RemotePlayers(delay, w);
    }

    // ---- outgoing -------------------------------------------------------------------

    /** Returns the packet handed to the connection, if any. */
    method SendState(a: Attempt) returns (sent: Option<Bytes>)
      modifies this`hasLastSent, this`lastSent, this`lastSend
      ensures Pacer(hasLastSent, lastSent, lastSend) == Paced(old(Pacer(hasLastSent, lastSent, lastSend)), a, sendRate)
      ensures sent == if Sends(old(Pacer(hasLastSent, lastSent, lastSend)), a, sendRate)
                      then Some(EncodeBytes(Msg.State(a.sampled.value))) else None
    {
      hide Changed, EncodeBytes;
      if a.sampled.None? {
        return None;
      }
      var state := a.sampled.value;
      var interval := (1000 / if sendRate < 1 then 1 else sendRate) as real;
      if !a.force && a.now - lastSend < interval {
        return None;
      }
      var heartbeat := a.now - lastSend >= HEARTBEAT_MS;
      if !a.force && !heartbeat && hasLastSent && !Changed(state, lastSent) {
        return None;
      }
      var bytes := Encode(Msg.State(state));
      hasLastSent, lastSent, lastSend := true, state, a.now;
      return Some(bytes);
    }

    // ---- incoming -------------------------------------------------------------------

    method HandlePacket(bytes: Bytes, r: Readings)
      requires r.rate == sendRate
      modifies this, remotes, remotes.serverClock
      ensures State() == HandleBytes(old(State()), bytes, r)
      ensures ViewOf(State()) == ApplyBytes(old(ViewOf(State())), bytes)
    {
      hide ParseBody, GetU8, C.Add, C.Rename, C.Remove, C.ApplyState, Paced, Sends, ToReal, ApplyBytes, NameList;
      HandleBytesView(State(), bytes, r);
      DecodeIs(bytes);
      var reader := new Reader(bytes);
      var ok, id := ReadHeader(reader);
      if !ok {
        return;
      }
      if id !in {WELCOME, REJECT, JOINED, LEFT, RENAMED, STATE_UPDATE, CHAT_BROADCAST} {
        return;
      }
      var m := ReadBody(id, reader);
      if m.Some? {
        HandleMessage(m.value, r);
      }
    }

    /** The cases of the switch. */
    method HandleMessage(m: Msg, r: Readings)
      requires r.rate == sendRate
      modifies this, remotes, remotes.serverClock
      ensures State() == HandleMsg(old(State()), m, r)
    {
      hide C.Add, C.Rename, C.Remove, C.ApplyState, Paced, Sends, ToReal;
      match m {
        case Welcome(id, _, name, _) =>
          myId := id;
          serverName := name;
          welcomed := true;
          var _ := SendState(r.attempt.(force := true));
        case Joined(id, name) =>
          if id != myId {
            remotes.Add(id, name);
          }
        case Left(id) =>
          remotes.Remove(id);
        case Renamed(id, name) =>
          if id != myId {
            remotes.Rename(id, name);
          }
        case StateUpdate(id, stamp, state) =>
          if id != myId {
            remotes.ApplyState(id, ToReal(state), stamp, r.localMs);
          }
        case _ =>
      }
    }

    // ---- lifecycle ------------------------------------------------------------------

    method OnDisconnected()
      modifies this, remotes, remotes.serverClock
      ensures State() == Disconnected(old(State()))
      ensures ViewOf(State()) == START
    {
      ghost var before := State();
      welcomed := false;
      myId := INVALID_PLAYER_ID;
      serverName := [];
      hasLastSent := false;
      remotes.Clear();
      LostView(before);
    }

    method OnEnterWorld()
      modifies this, remotes
      ensures State() == EnteredWorld(old(State()))
    {
      hasLastSent := false;
      remotes.ForgetActors();
    }

    method OnPreSave()
      modifies remotes
      ensures State() == old(State()).(remotes := C.DespawnAll(old(State()).remotes))
    {
      remotes.DespawnAll();
    }
  }
}
