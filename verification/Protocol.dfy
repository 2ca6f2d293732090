/** The eleven wire messages of `Protocol.hpp`. */
module Protocol {
  import opened Types
  import opened Packet

  const PROTOCOL_VERSION: u32 := 3
  const MAX_PLAYER_NAME := 32
  const MAX_CHAT_BYTES := 512

  datatype Msg =
    // client -> server
    | Hello(protocolVersion: u32, gameVersion: u32, name: Bytes)
    | State(state: WireState)
    | Chat(text: Bytes)
    | SetName(name: Bytes)
    // server -> client
    | Welcome(id: PlayerId, tickRate: byte, serverName: Bytes, motd: Bytes)
    | Reject(reason: Bytes)
    | Joined(id: PlayerId, name: Bytes)
    | Left(id: PlayerId)
    | StateUpdate(id: PlayerId, timeMs: u32, state: WireState)
    | ChatBroadcast(from: PlayerId, text: Bytes)
    | Renamed(id: PlayerId, name: Bytes)

  const HELLO: byte := 1
  const STATE: byte := 2
  const CHAT: byte := 3
  const SET_NAME: byte := 4
  const WELCOME: byte := 64
  const REJECT: byte := 65
  const JOINED: byte := 66
  const LEFT: byte := 67
  const STATE_UPDATE: byte := 68
  const CHAT_BROADCAST: byte := 69
  const RENAMED: byte := 70

  function Id(m: Msg): byte {
    match m
    case Hello(_, _, _) => HELLO
    case State(_) => STATE
    case Chat(_) => CHAT
    case SetName(_) => SET_NAME
    case Welcome(_, _, _, _) => WELCOME
    case Reject(_) => REJECT
    case Joined(_, _) => JOINED
    case Left(_) => LEFT
    case StateUpdate(_, _, _) => STATE_UPDATE
    case ChatBroadcast(_, _) => CHAT_BROADCAST
    case Renamed(_, _) => RENAMED
  }

  // ---- layouts ----------------------------------------------------------------------

  const VEC3_KINDS: seq<Kind> := [KU32, KU32, KU32]
  const STATE_KINDS: seq<Kind> := [KU32, KU32, KU32, KU32, KU32, KU32, KU8, KU32, KU32]

  function Layout(id: byte): Option<seq<Kind>> {
    if id == HELLO then Some([KU32, KU32, KStr])
    else if id == STATE then Some(STATE_KINDS)
    else if id == CHAT || id == SET_NAME || id == REJECT then Some([KStr])
    else if id == WELCOME then Some([KU32, KU8, KStr, KStr])
    else if id == JOINED || id == CHAT_BROADCAST || id == RENAMED then Some([KU32, KStr])
    else if id == LEFT then Some([KU32])
    else if id == STATE_UPDATE then Some([KU32, KU32] + STATE_KINDS)
    else None
  }

  function StateFields(s: WireState): (fs: seq<Field>)
    ensures HasKinds(fs, STATE_KINDS)
  {
    [FU32(s.position.x), FU32(s.position.y), FU32(s.position.z), FU32(s.yaw),
     FU32(s.worldspaceId), FU32(s.cellId), FU8(s.flags), FU32(s.health), FU32(s.maxHealth)]
  }

  /** The player state held by nine fields from `i` on. */
  function StateAt(fs: seq<Field>, i: nat): WireState
    requires i + 9 <= |fs| && HasKinds(fs[i..i + 9], STATE_KINDS)
  {
    assert forall j | 0 <= j < 9 :: KindOf(fs[i..i + 9][j]) == STATE_KINDS[j];
    var at := fs[i..i + 9];
    PlayerState(Vec3(at[0].n, at[1].n, at[2].n), at[3].n, at[4].n, at[5].n, at[6].b, at[7].n, at[8].n)
  }

  function Fields(m: Msg): (fs: seq<Field>) {
    match m
    case Hello(v, g, n) => [FU32(v), FU32(g), FStr(n)]
    case State(s) => StateFields(s)
    case Chat(t) => [FStr(t)]
    case SetName(n) => [FStr(n)]
    case Welcome(i, t, s, d) => [FU32(i), FU8(t), FStr(s), FStr(d)]
    case Reject(r) => [FStr(r)]
    case Joined(i, n) => [FU32(i), FStr(n)]
    case Left(i) => [FU32(i)]
    case StateUpdate(i, t, s) => [FU32(i), FU32(t)] + StateFields(s)
    case ChatBroadcast(f, t) => [FU32(f), FStr(t)]
    case Renamed(i, n) => [FU32(i), FStr(n)]
  }

  lemma FieldsHaveLayout(m: Msg)
    ensures Layout(Id(m)).Some? && HasKinds(Fields(m), Layout(Id(m)).value)
  {}

  function FromFields(id: byte, fs: seq<Field>): (m: Msg)
    requires Layout(id).Some? && HasKinds(fs, Layout(id).value)
    ensures Id(m) == id
  {
    if id == HELLO then Hello(fs[0].n, fs[1].n, fs[2].s)
    else if id == STATE then assert fs[0..9] == fs; State(StateAt(fs, 0))
    else if id == CHAT then Chat(fs[0].s)
    else if id == SET_NAME then SetName(fs[0].s)
    else if id == WELCOME then Welcome(fs[0].n, fs[1].b, fs[2].s, fs[3].s)
    else if id == REJECT then Reject(fs[0].s)
    else if id == JOINED then Joined(fs[0].n, fs[1].s)
    else if id == LEFT then Left(fs[0].n)
    else if id == STATE_UPDATE then
      assert forall j | 0 <= j < 9 :: fs[2..11][j] == fs[2 + j];
      StateUpdate(fs[0].n, fs[1].n, StateAt(fs, 2))
    else if id == CHAT_BROADCAST then ChatBroadcast(fs[0].n, fs[1].s)
    else Renamed(fs[0].n, fs[1].s)
  }

  /** The fields of a message determine it. */
  lemma FromFieldsOf(m: Msg)
    ensures Layout(Id(m)).Some? && HasKinds(Fields(m), Layout(Id(m)).value)
    ensures FromFields(Id(m), Fields(m)) == m
  {
    FieldsHaveLayout(m);
    if m.StateUpdate? {
      assert Fields(m)[2..11] == StateFields(m.state);
    } else if m.State? {
      assert Fields(m)[0..9] == StateFields(m.state);
    }
  }

  lemma StateAtFields(fs: seq<Field>, i: nat)
    requires i + 9 <= |fs| && HasKinds(fs[i..i + 9], STATE_KINDS)
    ensures StateFields(StateAt(fs, i)) == fs[i..i + 9]
  {
    assert forall j | 0 <= j < 9 :: KindOf(fs[i..i + 9][j]) == STATE_KINDS[j];
  }

  /** A message built from fields has those fields. */
  lemma FieldsOfFrom(id: byte, fs: seq<Field>)
    requires Layout(id).Some? && HasKinds(fs, Layout(id).value)
    ensures Fields(FromFields(id, fs)) == fs
  {
    hide StateFields, StateAt;
    if id == STATE_UPDATE {
      UpdateKinds(fs);
      StateAtFields(fs, 2);
      assert fs == [fs[0], fs[1]] + fs[2..11];
    } else if id == STATE {
      assert fs[0..9] == fs;
      StateAtFields(fs, 0);
    } else {
      SmallFieldsOfFrom(id, fs);
    }
  }

  lemma UpdateKinds(fs: seq<Field>)
    requires HasKinds(fs, Layout(STATE_UPDATE).value)
    ensures |fs| == 11 && KindOf(fs[0]) == KU32 && KindOf(fs[1]) == KU32 && HasKinds(fs[2..11], STATE_KINDS)
  {
    assert KindOf(fs[0]) == Layout(STATE_UPDATE).value[0] && KindOf(fs[1]) == Layout(STATE_UPDATE).value[1];
    assert forall j | 0 <= j < 9 :: fs[2..11][j] == fs[2 + j];
  }

  lemma SmallFieldsOfFrom(id: byte, fs: seq<Field>)
    requires Layout(id).Some? && HasKinds(fs, Layout(id).value) && id != STATE && id != STATE_UPDATE
    ensures Fields(FromFields(id, fs)) == fs
  {
    assert KindOf(fs[0]) == Layout(id).value[0];
    if |fs| > 1 {
      assert KindOf(fs[1]) == Layout(id).value[1];
    }
    if |fs| > 2 {
      assert KindOf(fs[2]) == Layout(id).value[2];
    }
  }

  /** The message with every string cut to the wire maximum. */
  function ClampMsg(m: Msg): Msg {
    match m
    case Hello(v, g, n) => Hello(v, g, Clamped(n))
    case State(_) => m
    case Chat(t) => Chat(Clamped(t))
    case SetName(n) => SetName(Clamped(n))
    case Welcome(i, t, s, d) => Welcome(i, t, Clamped(s), Clamped(d))
    case Reject(r) => Reject(Clamped(r))
    case Joined(i, n) => Joined(i, Clamped(n))
    case Left(_) => m
    case StateUpdate(_, _, _) => m
    case ChatBroadcast(f, t) => ChatBroadcast(f, Clamped(t))
    case Renamed(i, n) => Renamed(i, Clamped(n))
  }

  function EncodeBytes(m: Msg): Bytes { [Id(m)] + FieldsBytes(Fields(m)) }

  /** A body read: the message if the reader is still healthy, and where the reader stands. */
  function ParseBody(id: byte, c: Cursor): (r: (Option<Msg>, Cursor))
    requires c.Valid()
    ensures r.1.Valid() && (r.0.Some? ==> Id(r.0.value) == id && r.1.ok)
  {
    match Layout(id)
    case None => (None, c)
    case Some(ks) =>
      var (fs, c1) := GetFields(ks, c);
      if !c1.ok then (None, c1)
      else
        FieldsReverse(ks, c);
        (Some(FromFields(id, fs)), c1)
  }

  /** Header and body of one packet; trailing bytes are left unread, as both ends do. */
  function Decode(bytes: Bytes): (r: Option<(Msg, nat)>)
    ensures r.Some? ==> r.value.1 <= |bytes|
  {
    var (id, c) := GetU8(Cursor(bytes, 0, true));
    if !c.ok then None
    else
      var (m, c1) := ParseBody(id, c);
      if m.None? then None
      else
        FieldsStayInside(Layout(id).value, c);
        Some((m.value, c1.pos))
  }

  // ---- theorems ---------------------------------------------------------------------

  lemma ClampFieldsOf(m: Msg)
    ensures ClampsTo(Fields(m), Fields(ClampMsg(m))) && Id(ClampMsg(m)) == Id(m)
  {}

  lemma ClampsToUnique(fs: seq<Field>, gs: seq<Field>, hs: seq<Field>)
    requires ClampsTo(fs, gs) && ClampsTo(fs, hs)
    ensures gs == hs
  {}

  lemma HeaderNext(id: byte, w: Bytes, rest: Bytes)
    ensures GetU8(Cursor([id] + w + rest, 0, true)) == (id, Cursor([id] + w + rest, 1, true))
    ensures Next(w, Cursor([id] + w + rest, 1, true))
  {}

  /** Decoding is reading the header and then the body it names. */
  lemma DecodeIs(bytes: Bytes)
    ensures var (id, c) := GetU8(Cursor(bytes, 0, true));
            Decode(bytes).Some? <==> c.ok && ParseBody(id, c).0.Some?
    ensures var (id, c) := GetU8(Cursor(bytes, 0, true));
            Decode(bytes).Some? ==> Decode(bytes).value.0 == ParseBody(id, c).0.value && Id(Decode(bytes).value.0) == id
  {
    hide ParseBody, GetU8;
  }

  /** Decoding an encoded message, whatever bytes follow, returns it and leaves exactly those bytes. */
  lemma DecodeEncode(m: Msg, rest: Bytes)
    ensures Decode(EncodeBytes(m) + rest) == Some((ClampMsg(m), |EncodeBytes(m)|))
  {
    hide FieldsBytes, GetFields, Fields, FromFields, Layout, HasKinds, ClampsTo, ClampMsg;
    var w := FieldsBytes(Fields(m));
    HeaderNext(Id(m), w, rest);
    FieldsHaveLayout(m);
    var c := Cursor([Id(m)] + w + rest, 1, true);
    FieldsRoundTrip(Fields(m), Layout(Id(m)).value, c);
    ClampFieldsOf(m);
    ClampsToUnique(Fields(m), GetFields(Layout(Id(m)).value, c).0, Fields(ClampMsg(m)));
    FromFieldsOf(ClampMsg(m));
  }

  /** The other direction: an accepted packet is, up to its unread tail, the encoding of the result. */
  lemma EncodeDecode(bytes: Bytes)
    requires Decode(bytes).Some?
    ensures var (m, n) := Decode(bytes).value;
            bytes[..n] == EncodeBytes(m) && ClampMsg(m) == m
  {
    var (id, c) := GetU8(Cursor(bytes, 0, true));
    var ks := Layout(id).value;
    FieldsReverse(ks, c);
    var (fs, c1) := GetFields(ks, c);
    var m := FromFields(id, fs);
    FieldsOfFrom(id, fs);
    assert bytes[..c1.pos] == [bytes[0]] + Consumed(c, c1);
    ClampFieldsOf(m);
    ClampsToUnique(fs, fs, Fields(ClampMsg(m)));
    FromFieldsOf(ClampMsg(m));
    FromFieldsOf(m);
  }

  /** An accepted packet is accepted in the same way whatever is appended to it. */
  lemma DecodeIgnoresTail(bytes: Bytes, tail: Bytes)
    requires Decode(bytes).Some?
    ensures Decode(bytes + tail) == Decode(bytes)
  {
    hide Decode, EncodeBytes, ClampMsg;
    EncodeDecode(bytes);
    var (m, n) := Decode(bytes).value;
    DecodeEncode(m, bytes[n..]);
    DecodeEncode(m, bytes[n..] + tail);
    assert bytes == bytes[..n] + bytes[n..];
    assert bytes + tail == EncodeBytes(m) + (bytes[n..] + tail);
  }

  /** Every strict prefix of an encoding is refused, by the header or by the body. */
  lemma PrefixRejected(m: Msg, cut: Bytes)
    requires cut < EncodeBytes(m)
    ensures Decode(cut).None?
  {
    var e := EncodeBytes(m);
    if Decode(cut).Some? {
      DecodeIgnoresTail(cut, e[|cut|..]);
      assert e == cut + e[|cut|..];
    }
    DecodeEncode(m, []);
    assert e == e + [];
  }

  /** A body is also refused when the reader had already failed, and nothing is consumed. */
  lemma FailedReaderRejects(id: byte, c: Cursor)
    requires c.Valid() && !c.ok
    ensures ParseBody(id, c) == (None, c)
  {
    if Layout(id).Some? {
      FieldsSticky(Layout(id).value, c);
    }
  }
}
