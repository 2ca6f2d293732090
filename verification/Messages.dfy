/** `Write`, `Read`, `Encode` and `ReadHeader` as they drive a `Writer` and a `Reader`. */
module Messages {
  import opened Types
  import opened Packet
  import opened Protocol

  // ---- writing ----------------------------------------------------------------------

  lemma {:induction false} BytesAppend(fs: seq<Field>, gs: seq<Field>)
    ensures FieldsBytes(fs + gs) == FieldsBytes(fs) + FieldsBytes(gs)
  {
    hide FieldBytes;
    if fs == [] {
      assert fs + gs == gs;
    } else {
      BytesAppend(fs[1..], gs);
      assert (fs + gs)[1..] == fs[1..] + gs;
      Regroup(FieldBytes(fs[0]), FieldsBytes(fs[1..]), FieldsBytes(gs));
    }
  }

  lemma Regroup(a: Bytes, b: Bytes, c: Bytes)
    ensures a + (b + c) == a + b + c
  {}

  /** One more field of `fs` has been written behind `b`. */
  lemma Wrote(b: Bytes, fs: seq<Field>, i: nat)
    requires i < |fs|
    ensures b + FieldsBytes(fs[..i]) + FieldBytes(fs[i]) == b + FieldsBytes(fs[..i + 1])
    ensures b + FieldsBytes(fs[..0]) == b
    ensures fs[..|fs|] == fs
  {
    assert fs[..i + 1] == fs[..i] + [fs[i]];
    BytesAppend(fs[..i], [fs[i]]);
    assert [fs[i]][1..] == [];
  }

  method WriteVec3(w: Writer, v: Vec3<u32>)
    modifies w
    ensures w.buf == old(w.buf) + FieldsBytes([FU32(v.x), FU32(v.y), FU32(v.z)])
  {
    ghost var b, fs := w.buf, [FU32(v.x), FU32(v.y), FU32(v.z)];
    w.F32(v.x);
    Wrote(b, fs, 0);
    w.F32(v.y);
    Wrote(b, fs, 1);
    w.F32(v.z);
    Wrote(b, fs, 2);
  }

  method WritePlayerState(w: Writer, s: WireState)
    modifies w
    ensures w.buf == old(w.buf) + FieldsBytes(StateFields(s))
  {
    ghost var b, fs := w.buf, StateFields(s);
    WriteVec3(w, s.position);
    assert fs[..3] == [FU32(s.position.x), FU32(s.position.y), FU32(s.position.z)];
    w.F32(s.yaw);
    Wrote(b, fs, 3);
    w.U32(s.worldspaceId);
    Wrote(b, fs, 4);
    w.U32(s.cellId);
    Wrote(b, fs, 5);
    w.U8(s.flags);
    Wrote(b, fs, 6);
    w.F32(s.health);
    Wrote(b, fs, 7);
    w.F32(s.maxHealth);
    Wrote(b, fs, 8);
  }

  method WriteHello(w: Writer, m: Msg)
    requires m.Hello?
    modifies w
    ensures w.buf == old(w.buf) + FieldsBytes(Fields(m))
  {
    ghost var b, fs := w.buf, Fields(m);
    w.U32(m.protocolVersion);
    Wrote(b, fs, 0);
    w.U32(m.gameVersion);
    Wrote(b, fs, 1);
    w.Str(m.name);
    Wrote(b, fs, 2);
  }

  method WriteWelcome(w: Writer, m: Msg)
    requires m.Welcome?
    modifies w
    ensures w.buf == old(w.buf) + FieldsBytes(Fields(m))
  {
    ghost var b, fs := w.buf, Fields(m);
    w.U32(m.id);
    Wrote(b, fs, 0);
    w.U8(m.tickRate);
    Wrote(b, fs, 1);
    w.Str(m.serverName);
    Wrote(b, fs, 2);
    w.Str(m.motd);
    Wrote(b, fs, 3);
  }

  method WriteStateUpdate(w: Writer, m: Msg)
    requires m.StateUpdate?
    modifies w
    ensures w.buf == old(w.buf) + FieldsBytes(Fields(m))
  {
    hide FieldsBytes, FieldBytes, StateFields;
    ghost var b := w.buf;
    w.U32(m.id);
    w.U32(m.timeMs);
    StampBytes(m.id, m.timeMs);
    U32Bytes(m.id);
    U32Bytes(m.timeMs);
    WritePlayerState(w, m.state);
    assert Fields(m) == [FU32(m.id), FU32(m.timeMs)] + StateFields(m.state);
    BytesAppend([FU32(m.id), FU32(m.timeMs)], StateFields(m.state));
    Chunks(b, FieldBytes(FU32(m.id)), FieldBytes(FU32(m.timeMs)), FieldsBytes(StateFields(m.state)));
  }

  lemma StampBytes(id: u32, timeMs: u32)
    ensures FieldsBytes([FU32(id), FU32(timeMs)]) == FieldBytes(FU32(id)) + FieldBytes(FU32(timeMs))
  {
    hide FieldBytes;
    OneFieldBytes(FU32(timeMs));
    assert [FU32(id), FU32(timeMs)][1..] == [FU32(timeMs)];
  }

  lemma U32Bytes(v: u32)
    ensures FieldBytes(FU32(v)) == ToLE(4, v)
  {}

  lemma OneFieldBytes(f: Field)
    ensures FieldsBytes([f]) == FieldBytes(f)
  {
    hide FieldBytes;
    assert [f][1..] == [];
  }

  lemma Chunks(b: Bytes, x: Bytes, y: Bytes, z: Bytes)
    ensures b + x + y + z == b + ((x + y) + z)
  {}

  method WriteText(w: Writer, ghost m: Msg, text: Bytes)
    requires Fields(m) == [FStr(text)]
    modifies w
    ensures w.buf == old(w.buf) + FieldsBytes(Fields(m))
  {
    ghost var b := w.buf;
    w.Str(text);
    Wrote(b, Fields(m), 0);
  }

  method WriteIdText(w: Writer, ghost m: Msg, id: u32, text: Bytes)
    requires Fields(m) == [FU32(id), FStr(text)]
    modifies w
    ensures w.buf == old(w.buf) + FieldsBytes(Fields(m))
  {
    ghost var b := w.buf;
    w.U32(id);
    Wrote(b, Fields(m), 0);
    w.Str(text);
    Wrote(b, Fields(m), 1);
  }

  method WriteLeft(w: Writer, m: Msg)
    requires m.Left?
    modifies w
    ensures w.buf == old(w.buf) + FieldsBytes(Fields(m))
  {
    ghost var b := w.buf;
    w.U32(m.id);
    Wrote(b, Fields(m), 0);
  }

  method Write(w: Writer, m: Msg)
    modifies w
    ensures w.buf == old(w.buf) + FieldsBytes(Fields(m))
  {
    match m {
      case Hello(_, _, _) => WriteHello(w, m);
      case State(s) => WritePlayerState(w, s);
      case Chat(t) => WriteText(w, m, t);
      case SetName(n) => WriteText(w, m, n);
      case Welcome(_, _, _, _) => WriteWelcome(w, m);
      case Reject(r) => WriteText(w, m, r);
      case Joined(i, n) => WriteIdText(w, m, i, n);
      case Left(_) => WriteLeft(w, m);
      case StateUpdate(_, _, _) => WriteStateUpdate(w, m);
      case ChatBroadcast(f, t) => WriteIdText(w, m, f, t);
      case Renamed(i, n) => WriteIdText(w, m, i, n);
    }
  }

  method Encode(m: Msg) returns (bytes: Bytes)
    ensures bytes == EncodeBytes(m)
  {
    hide Fields, FieldsBytes, Id;
    var w := new Writer();
    w.U8(Id(m));
    Write(w, m);
    bytes := w.buf;
  }

  // ---- reading ----------------------------------------------------------------------

  /** With `n` fields of the layout `ks` read, field `n` comes next. */
  lemma ReadNext(ks: seq<Kind>, c: Cursor, n: nat)
    requires c.Valid() && n < |ks|
    ensures var (fs, c1) := GetFields(ks[..n], c);
            var (f, c2) := GetField(ks[n], c1);
            GetFields(ks[..n + 1], c) == (fs + [f], c2)
    ensures ks[..0] == [] && ks[..|ks|] == ks
  {
    assert ks[..n + 1] == ks[..n] + [ks[n]];
    GetFieldsSnoc(ks[..n], ks[n], c);
  }

  method ReadHeader(r: Reader) returns (ok: bool, id: byte)
    requires r.Valid()
    modifies r
    ensures r.Valid() && (id, r.View()) == GetU8(old(r.View())) && ok == r.ok
  {
    id := r.U8();
    ok := r.ok;
  }

  method ReadVec3(r: Reader) returns (v: Vec3<u32>)
    requires r.Valid()
    modifies r
    ensures r.Valid()
    ensures ([FU32(v.x), FU32(v.y), FU32(v.z)], r.View()) == GetFields(VEC3_KINDS, old(r.View()))
  {
    ghost var c, ks := r.View(), VEC3_KINDS;
    ReadNext(ks, c, 0);
    var x := r.F32();
    ghost var got := [] + [FU32(x)];
    ReadNext(ks, c, 1);
    var y := r.F32();
    got := got + [FU32(y)];
    ReadNext(ks, c, 2);
    var z := r.F32();
    got := got + [FU32(z)];
    v := Vec3(x, y, z);
    assert [FU32(v.x), FU32(v.y), FU32(v.z)] == got;
  }

  method ReadPlayerState(r: Reader) returns (s: WireState)
    requires r.Valid()
    modifies r
    ensures r.Valid() && (StateFields(s), r.View()) == GetFields(STATE_KINDS, old(r.View()))
  {
    hide GetFields, GetU8, GetU32;
    ghost var c, ks := r.View(), STATE_KINDS;
    assert ks[..3] == VEC3_KINDS;
    var position := ReadVec3(r);
    ghost var got := [FU32(position.x), FU32(position.y), FU32(position.z)];
    ReadNext(ks, c, |got|);
    var yaw := r.F32();
    got := got + [FU32(yaw)];
    ReadNext(ks, c, |got|);
    var worldspaceId := r.U32();
    got := got + [FU32(worldspaceId)];
    ReadNext(ks, c, |got|);
    var cellId := r.U32();
    got := got + [FU32(cellId)];
    ReadNext(ks, c, |got|);
    var flags := r.U8();
    got := got + [FU8(flags)];
    ReadNext(ks, c, |got|);
    var health := r.F32();
    got := got + [FU32(health)];
    ReadNext(ks, c, |got|);
    var maxHealth := r.F32();
    got := got + [FU32(maxHealth)];
    s := PlayerState(position, yaw, worldspaceId, cellId, flags, health, maxHealth);
    assert StateFields(s) == got;
  }

  /** `m` has exactly the fields the layout of its id read. */
  lemma ParsedIs(m: Msg, c: Cursor)
    requires c.Valid() && Fields(m) == GetFields(Layout(Id(m)).value, c).0
    ensures var c1 := GetFields(Layout(Id(m)).value, c).1;
            ParseBody(Id(m), c) == (if c1.ok then Some(m) else None, c1)
  {
    hide GetFields, FromFields, Fields, HasKinds;
    FieldsHaveLayout(m);
    FromFieldsOf(m);
  }

  method ReadHello(r: Reader) returns (m: Msg)
    requires r.Valid()
    modifies r
    ensures r.Valid() && m.Hello? && (Fields(m), r.View()) == GetFields(Layout(HELLO).value, old(r.View()))
  {
    ghost var c, ks := r.View(), Layout(HELLO).value;
    ReadNext(ks, c, 0);
    var version := r.U32();
    ghost var got := [] + [FU32(version)];
    ReadNext(ks, c, 1);
    var game := r.U32();
    got := got + [FU32(game)];
    ReadNext(ks, c, 2);
    var name := r.Str();
    got := got + [FStr(name)];
    m := Hello(version, game, name);
    assert Fields(m) == got;
  }

  method ReadWelcome(r: Reader) returns (m: Msg)
    requires r.Valid()
    modifies r
    ensures r.Valid() && m.Welcome? && (Fields(m), r.View()) == GetFields(Layout(WELCOME).value, old(r.View()))
  {
    ghost var c, ks := r.View(), Layout(WELCOME).value;
    ReadNext(ks, c, 0);
    var id := r.U32();
    ghost var got := [] + [FU32(id)];
    ReadNext(ks, c, |got|);
    var tickRate := r.U8();
    got := got + [FU8(tickRate)];
    ReadNext(ks, c, |got|);
    var serverName := r.Str();
    got := got + [FStr(serverName)];
    ReadNext(ks, c, |got|);
    var motd := r.Str();
    got := got + [FStr(motd)];
    m := Welcome(id, tickRate, serverName, motd);
    assert Fields(m) == got;
  }

  method ReadText(r: Reader) returns (text: Bytes)
    requires r.Valid()
    modifies r
    ensures r.Valid() && ([FStr(text)], r.View()) == GetFields([KStr], old(r.View()))
  {
    GetOne(KStr, r.View());
    text := r.Str();
  }

  method ReadIdText(r: Reader) returns (id: u32, text: Bytes)
    requires r.Valid()
    modifies r
    ensures r.Valid() && ([FU32(id), FStr(text)], r.View()) == GetFields([KU32, KStr], old(r.View()))
  {
    ghost var c, ks := r.View(), [KU32, KStr];
    ReadNext(ks, c, 0);
    id := r.U32();
    ghost var got := [] + [FU32(id)];
    ReadNext(ks, c, 1);
    text := r.Str();
    assert [FU32(id), FStr(text)] == got + [FStr(text)];
  }

  method ReadLeft(r: Reader) returns (m: Msg)
    requires r.Valid()
    modifies r
    ensures r.Valid() && m.Left? && (Fields(m), r.View()) == GetFields([KU32], old(r.View()))
  {
    GetOne(KU32, r.View());
    var id := r.U32();
    m := Left(id);
  }

  method ReadStateUpdate(r: Reader) returns (m: Msg)
    requires r.Valid()
    modifies r
    ensures r.Valid() && m.StateUpdate?
    ensures (Fields(m), r.View()) == GetFields(Layout(STATE_UPDATE).value, old(r.View()))
  {
    ghost var c, ks := r.View(), Layout(STATE_UPDATE).value;
    ReadNext(ks, c, 0);
    var id := r.U32();
    ghost var got := [] + [FU32(id)];
    ReadNext(ks, c, 1);
    var timeMs := r.U32();
    got := got + [FU32(timeMs)];
    GetFieldsAppend([KU32, KU32], STATE_KINDS, c);
    assert ks[..2] == [KU32, KU32];
    assert got == [FU32(id), FU32(timeMs)];
    var state := ReadPlayerState(r);
    m := StateUpdate(id, timeMs, state);
  }

  /** The `Read` of the message type with this id; `None` is the `false` of a failed read. */
  method ReadBody(id: byte, r: Reader) returns (m: Option<Msg>)
    requires r.Valid() && Layout(id).Some?
    modifies r
    ensures r.Valid() && (m, r.View()) == ParseBody(id, old(r.View()))
  {
    hide GetFields, ParseBody;
    ghost var c := r.View();
    var read: Msg;
    if id == HELLO {
      read := ReadHello(r);
    } else if id == STATE {
      var state := ReadPlayerState(r);
      read := State(state);
    } else if id == CHAT || id == SET_NAME || id == REJECT {
      var text := ReadText(r);
      read := if id == CHAT then Chat(text) else if id == SET_NAME then SetName(text) else Reject(text);
    } else if id == WELCOME {
      read := ReadWelcome(r);
    } else if id == JOINED || id == CHAT_BROADCAST || id == RENAMED {
      var i, text := ReadIdText(r);
      read := if id == JOINED then Joined(i, text)
              else if id == CHAT_BROADCAST then ChatBroadcast(i, text) else Renamed(i, text);
    } else if id == LEFT {
      read := ReadLeft(r);
    } else {
      read := ReadStateUpdate(r);
    }
    ParsedIs(read, c);
    m := if r.ok then Some(read) else None;
  }
}
