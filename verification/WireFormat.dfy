/** The wire format as `docs/PROTOCOL.md` gives it, byte by byte, and the encoder against it. */
module WireFormat {
  import opened Types
  import opened Packet
  import opened Protocol
  import opened Messages

  // ---- the document -----------------------------------------------------------------

  function Num2(v: u16): Bytes { [v % 256, v / 256] }

  function Num4(v: u32): Bytes { [v % 256, v / 256 % 256, v / 65536 % 256, v / 16777216] }

  /** A 16-bit length and that many bytes, 4096 at most. */
  function Text(s: Bytes): Bytes {
    var sent := if |s| > 4096 then s[..4096] else s;
    Num2(|sent|) + sent
  }

  function VecLayout(v: Vec3<u32>): Bytes { Num4(v.x) + Num4(v.y) + Num4(v.z) }

  function StateLayout(s: WireState): Bytes {
    VecLayout(s.position)
    + (Num4(s.yaw) + Num4(s.worldspaceId) + Num4(s.cellId))
    + ([s.flags] + Num4(s.health) + Num4(s.maxHealth))
  }

  function Documented(m: Msg): Bytes {
    match m
    case Hello(protocolVersion, gameVersion, name) => [1] + (Num4(protocolVersion) + Num4(gameVersion) + Text(name))
    case State(state) => [2] + StateLayout(state)
    case Chat(text) => [3] + Text(text)
    case SetName(name) => [4] + Text(name)
    case Welcome(id, tickRate, serverName, motd) => [64] + (Num4(id) + [tickRate] + Text(serverName) + Text(motd))
    case Reject(reason) => [65] + Text(reason)
    case Joined(id, name) => [66] + (Num4(id) + Text(name))
    case Left(id) => [67] + Num4(id)
    case StateUpdate(id, timeMs, state) => [68] + (Num4(id) + Num4(timeMs) + StateLayout(state))
    case ChatBroadcast(from, text) => [69] + (Num4(from) + Text(text))
    case Renamed(id, name) => [70] + (Num4(id) + Text(name))
  }

  // ---- the encoder ------------------------------------------------------------------

  lemma LittleEndian(v: nat)
    ensures v < 0x1_0000 ==> ToLE(2, v) == Num2(v)
    ensures v < 0x1_0000_0000 ==> ToLE(4, v) == Num4(v)
  {
    assert v / 256 / 256 == v / 65536 && v / 256 / 256 / 256 == v / 16777216;
    assert ToLE(1, v / 256) == [v / 256 % 256];
    assert ToLE(2, v / 65536) == [v / 65536 % 256] + ToLE(1, v / 16777216);
    assert ToLE(1, v / 16777216) == [v / 16777216 % 256];
    assert ToLE(3, v / 256) == [v / 256 % 256] + ToLE(2, v / 65536);
  }

  lemma NumBytes(v: u32)
    ensures FieldBytes(FU32(v)) == Num4(v)
  {
    LittleEndian(v);
  }

  lemma TextBytes(s: Bytes)
    ensures FieldBytes(FStr(s)) == Text(s)
  {
    LittleEndian(|Clamped(s)|);
  }

  lemma Two(a: Field, b: Field)
    ensures FieldsBytes([a]) == FieldBytes(a) && FieldsBytes([a, b]) == FieldBytes(a) + FieldBytes(b)
  {
    hide FieldBytes;
    OneFieldBytes(a);
    OneFieldBytes(b);
    assert [a, b][1..] == [b];
  }

  lemma Three(a: Field, b: Field, c: Field)
    ensures FieldsBytes([a, b, c]) == FieldBytes(a) + FieldBytes(b) + FieldBytes(c)
  {
    hide FieldBytes, FieldsBytes;
    Two(a, b);
    Two(c, c);
    BytesAppend([a, b], [c]);
    assert [a, b] + [c] == [a, b, c];
  }

  lemma StateBytes(s: WireState)
    ensures FieldsBytes(StateFields(s)) == StateLayout(s)
  {
    hide FieldBytes, FieldsBytes, Num4;
    var fs, p := StateFields(s), s.position;
    Three(FU32(p.x), FU32(p.y), FU32(p.z));
    Three(FU32(s.yaw), FU32(s.worldspaceId), FU32(s.cellId));
    Three(FU8(s.flags), FU32(s.health), FU32(s.maxHealth));
    var first := [FU32(p.x), FU32(p.y), FU32(p.z)];
    var second := [FU32(s.yaw), FU32(s.worldspaceId), FU32(s.cellId)];
    var third := [FU8(s.flags), FU32(s.health), FU32(s.maxHealth)];
    BytesAppend(first + second, third);
    BytesAppend(first, second);
    assert fs == first + second + third;
    StateNumbers(s);
  }

  lemma StateNumbers(s: WireState)
    ensures FieldBytes(FU8(s.flags)) == [s.flags]
    ensures FieldBytes(FU32(s.position.x)) == Num4(s.position.x) && FieldBytes(FU32(s.position.y)) == Num4(s.position.y)
    ensures FieldBytes(FU32(s.position.z)) == Num4(s.position.z) && FieldBytes(FU32(s.yaw)) == Num4(s.yaw)
    ensures FieldBytes(FU32(s.worldspaceId)) == Num4(s.worldspaceId) && FieldBytes(FU32(s.cellId)) == Num4(s.cellId)
    ensures FieldBytes(FU32(s.health)) == Num4(s.health) && FieldBytes(FU32(s.maxHealth)) == Num4(s.maxHealth)
  {
    hide Num4, ToLE;
    NumBytes(s.position.x);
    NumBytes(s.position.y);
    NumBytes(s.position.z);
    NumBytes(s.yaw);
    NumBytes(s.worldspaceId);
    NumBytes(s.cellId);
    NumBytes(s.health);
    NumBytes(s.maxHealth);
  }

  lemma NumberAndText(id: u32, s: Bytes)
    ensures FieldsBytes([FU32(id), FStr(s)]) == Num4(id) + Text(s)
    ensures FieldsBytes([FStr(s)]) == Text(s) && FieldsBytes([FU32(id)]) == Num4(id)
  {
    hide FieldBytes, FieldsBytes, Num4, Text;
    Two(FU32(id), FStr(s));
    Two(FStr(s), FStr(s));
    NumBytes(id);
    TextBytes(s);
  }

  lemma HelloBytes(v: u32, g: u32, n: Bytes)
    ensures FieldsBytes([FU32(v), FU32(g), FStr(n)]) == Num4(v) + Num4(g) + Text(n)
  {
    hide FieldBytes, FieldsBytes, Num4, Text;
    Three(FU32(v), FU32(g), FStr(n));
    NumBytes(v);
    NumBytes(g);
    TextBytes(n);
  }

  lemma WelcomeBytes(id: u32, rate: byte, name: Bytes, motd: Bytes)
    ensures FieldsBytes([FU32(id), FU8(rate), FStr(name), FStr(motd)]) == Num4(id) + [rate] + Text(name) + Text(motd)
  {
    hide FieldBytes, FieldsBytes, Num4, Text;
    Three(FU32(id), FU8(rate), FStr(name));
    Two(FStr(motd), FStr(motd));
    BytesAppend([FU32(id), FU8(rate), FStr(name)], [FStr(motd)]);
    assert [FU32(id), FU8(rate), FStr(name)] + [FStr(motd)] == [FU32(id), FU8(rate), FStr(name), FStr(motd)];
    NumBytes(id);
    RateBytes(rate);
    TextBytes(name);
    TextBytes(motd);
  }

  lemma RateBytes(rate: byte)
    ensures FieldBytes(FU8(rate)) == [rate]
  {}

  lemma UpdateBytes(id: u32, timeMs: u32, state: WireState)
    ensures FieldsBytes([FU32(id), FU32(timeMs)] + StateFields(state)) == Num4(id) + Num4(timeMs) + StateLayout(state)
  {
    hide FieldBytes, FieldsBytes, Num4, StateLayout, StateFields;
    BytesAppend([FU32(id), FU32(timeMs)], StateFields(state));
    Two(FU32(id), FU32(timeMs));
    NumBytes(id);
    NumBytes(timeMs);
    StateBytes(state);
  }

  /** Every message goes out exactly as the document lays it out: id byte, little-endian numbers, fields in this
      order, strings as length and bytes. */
  lemma EncodesAsDocumented(m: Msg)
    ensures EncodeBytes(m) == Documented(m)
  {
    hide FieldsBytes, FieldBytes, Num4, Text, StateLayout, StateFields;
    match m {
      case Hello(v, g, n) => HelloBytes(v, g, n);
      case State(s) => StateBytes(s);
      case Chat(t) => NumberAndText(0, t);
      case SetName(n) => NumberAndText(0, n);
      case Welcome(i, t, s, d) => WelcomeBytes(i, t, s, d);
      case Reject(r) => NumberAndText(0, r);
      case Joined(i, n) => NumberAndText(i, n);
      case Left(i) => NumberAndText(i, []);
      case StateUpdate(i, t, s) => UpdateBytes(i, t, s);
      case ChatBroadcast(f, t) => NumberAndText(f, t);
      case Renamed(i, n) => NumberAndText(i, n);
    }
  }
}
