/** The little-endian byte writer and reader of `Packet.hpp`. */
module Packet {
  import opened Types

  const MAX_STRING_BYTES := 4096

  // ---- little-endian numbers --------------------------------------------------------

  function Pow256(n: nat): nat { if n == 0 then 1 else 256 * Pow256(n - 1) }

  function ToLE(n: nat, v: nat): (bs: Bytes)
    ensures |bs| == n
  {
    if n == 0 then [] else [v % 256] + ToLE(n - 1, v / 256)
  }

  function FromLE(bs: Bytes): (v: nat)
    ensures v < Pow256(|bs|)
  {
    if bs == [] then 0 else bs[0] + 256 * FromLE(bs[1..])
  }

  lemma {:induction false} FromToLE(n: nat, v: nat)
    requires v < Pow256(n)
    ensures FromLE(ToLE(n, v)) == v
  {
    if n > 0 {
      FromToLE(n - 1, v / 256);
      assert ToLE(n, v)[1..] == ToLE(n - 1, v / 256);
    }
  }

  lemma {:induction false} ToFromLE(bs: Bytes)
    ensures ToLE(|bs|, FromLE(bs)) == bs
  {
    if bs != [] {
      ToFromLE(bs[1..]);
      LowDigit(bs[0], FromLE(bs[1..]));
      assert bs == [bs[0]] + bs[1..];
    }
  }

  lemma LowDigit(b: byte, rest: nat)
    ensures (b + 256 * rest) % 256 == b && (b + 256 * rest) / 256 == rest
  {}

  lemma Pow256Values()
    ensures Pow256(1) == 0x100 && Pow256(2) == 0x1_0000 && Pow256(4) == 0x1_0000_0000
  {
    assert Pow256(3) == 0x100_0000;
  }

  /** Two's complement, as the source copies an `int32_t`. */
  function ToUnsigned(v: i32): u32 { if v >= 0 then v else v + 0x1_0000_0000 }
  function ToSigned(v: u32): i32 { if v < 0x8000_0000 then v else v - 0x1_0000_0000 }

  // ---- writing ----------------------------------------------------------------------

  function Clamped(s: Bytes): (r: Bytes)
    ensures |r| <= MAX_STRING_BYTES
  {
    if |s| > MAX_STRING_BYTES then s[..MAX_STRING_BYTES] else s
  }

  function StrBytes(s: Bytes): Bytes { ToLE(2, |Clamped(s)|) + Clamped(s) }

  class Writer {
    var buf: Bytes

    constructor ()
      ensures buf == []
    {
      buf := [];
    }

    method U8(v: byte)
      modifies this
      ensures buf == old(buf) + [v]
    {
      buf := buf + [v];
    }

    method U16(v: u16)
      modifies this
      ensures buf == old(buf) + ToLE(2, v)
    {
      buf := buf + ToLE(2, v);
    }

    method U32(v: u32)
      modifies this
      ensures buf == old(buf) + ToLE(4, v)
    {
      buf := buf + ToLE(4, v);
    }

    method I32(v: i32)
      modifies this
      ensures buf == old(buf) + ToLE(4, ToUnsigned(v))
    {
      U32(ToUnsigned(v));
    }

    /** A float is copied as its 32-bit pattern. */
    method F32(pattern: u32)
      modifies this
      ensures buf == old(buf) + ToLE(4, pattern)
    {
      U32(pattern);
    }

    method Bool(v: bool)
      modifies this
      ensures buf == old(buf) + [if v then 1 else 0]
    {
      U8(if v then 1 else 0);
    }

    method Str(s: Bytes)
      modifies this
      ensures buf == old(buf) + StrBytes(s)
    {
      var len := if |s| > MAX_STRING_BYTES then MAX_STRING_BYTES else |s|;
      U16(len);
      buf := buf + s[..len];
    }
  }

  // ---- reading ----------------------------------------------------------------------

  /** The abstract value of a `Reader`. */
  datatype Cursor = Cursor(data: Bytes, pos: nat, ok: bool) {
    ghost predicate Valid() { pos <= |data| }
    function Remaining(): nat requires Valid() { |data| - pos }
  }

  function Zeros(n: nat): (bs: Bytes)
    ensures |bs| == n
  {
    seq(n, _ => 0)
  }

  function GetRaw(c: Cursor, n: nat): (r: (Bytes, Cursor))
    requires c.Valid()
    ensures r.1.Valid() && |r.0| == n
  {
    if !c.ok || n > c.Remaining() then (Zeros(n), c.(ok := false))
    else (c.data[c.pos..c.pos + n], c.(pos := c.pos + n))
  }

  function GetU8(c: Cursor): (r: (byte, Cursor))
    requires c.Valid()
    ensures r.1.Valid()
  {
    var (bs, c1) := GetRaw(c, 1);
    (bs[0], c1)
  }

  function GetU16(c: Cursor): (r: (u16, Cursor))
    requires c.Valid()
    ensures r.1.Valid()
  {
    var (bs, c1) := GetRaw(c, 2);
    Pow256Values();
    (FromLE(bs), c1)
  }

  function GetU32(c: Cursor): (r: (u32, Cursor))
    requires c.Valid()
    ensures r.1.Valid()
  {
    var (bs, c1) := GetRaw(c, 4);
    Pow256Values();
    (FromLE(bs), c1)
  }

  function GetStr(c: Cursor): (r: (Bytes, Cursor))
    requires c.Valid()
    ensures r.1.Valid()
  {
    var (len, c1) := GetU16(c);
    if !c1.ok || len > MAX_STRING_BYTES || len > c1.Remaining() then ([], c1.(ok := false))
    else (c1.data[c1.pos..c1.pos + len], c1.(pos := c1.pos + len))
  }

  class Reader {
    const data: Bytes
    var pos: nat
    var ok: bool

    ghost predicate Valid()
      reads this
    {
      pos <= |data|
    }

    ghost function View(): Cursor
      reads this
    {
      Cursor(data, pos, ok)
    }

    constructor (bytes: Bytes)
      ensures Valid() && View() == Cursor(bytes, 0, true)
    {
      data, pos, ok := bytes, 0, true;
    }

    method Raw(n: nat) returns (out: Bytes)
      requires Valid()
      modifies this
      ensures Valid() && (out, View()) == GetRaw(old(View()), n)
    {
      if !ok || n > |data| - pos {
        ok := false;
        out := Zeros(n);
        return;
      }
      out := data[pos..pos + n];
      pos := pos + n;
    }

    method U8() returns (v: byte)
      requires Valid()
      modifies this
      ensures Valid() && (v, View()) == GetU8(old(View()))
    {
      var bs := Raw(1);
      v := bs[0];
    }

    method U16() returns (v: u16)
      requires Valid()
      modifies this
      ensures Valid() && (v, View()) == GetU16(old(View()))
    {
      var bs := Raw(2);
      Pow256Values();
      v := FromLE(bs);
    }

    method U32() returns (v: u32)
      requires Valid()
      modifies this
      ensures Valid() && (v, View()) == GetU32(old(View()))
    {
      var bs := Raw(4);
      Pow256Values();
      v := FromLE(bs);
    }

    method I32() returns (v: i32)
      requires Valid()
      modifies this
      ensures Valid() && (v, View()) == (ToSigned(GetU32(old(View())).0), GetU32(old(View())).1)
    {
      var u := U32();
      v := ToSigned(u);
    }

    method F32() returns (pattern: u32)
      requires Valid()
      modifies this
      ensures Valid() && (pattern, View()) == GetU32(old(View()))
    {
      pattern := U32();
    }

    method Bool() returns (v: bool)
      requires Valid()
      modifies this
      ensures Valid() && (v, View()) == (GetU8(old(View())).0 != 0, GetU8(old(View())).1)
    {
      var u := U8();
      v := u != 0;
    }

    method Str() returns (s: Bytes)
      requires Valid()
      modifies this
      ensures Valid() && (s, View()) == GetStr(old(View()))
    {
      var len := U16();
      if !ok || len > MAX_STRING_BYTES || len > |data| - pos {
        ok := false;
        s := [];
        return;
      }
      s := data[pos..pos + len];
      pos := pos + len;
    }
  }

  // ---- one primitive field ----------------------------------------------------------

  datatype Kind = KU8 | KU32 | KStr
  datatype Field = FU8(b: byte) | FU32(n: u32) | FStr(s: Bytes)

  function KindOf(f: Field): Kind {
    match f
    case FU8(_) => KU8
    case FU32(_) => KU32
    case FStr(_) => KStr
  }

  /** What a field reads back as: strings are cut to the wire maximum. */
  function ClampField(f: Field): Field {
    if f.FStr? then FStr(Clamped(f.s)) else f
  }

  function ZeroField(k: Kind): Field {
    match k
    case KU8 => FU8(0)
    case KU32 => FU32(0)
    case KStr => FStr([])
  }

  function FieldBytes(f: Field): Bytes {
    match f
    case FU8(v) => [v]
    case FU32(v) => ToLE(4, v)
    case FStr(s) => StrBytes(s)
  }

  function GetField(k: Kind, c: Cursor): (r: (Field, Cursor))
    requires c.Valid()
    ensures r.1.Valid()
  {
    match k
    case KU8 => var (v, c1) := GetU8(c); (FU8(v), c1)
    case KU32 => var (v, c1) := GetU32(c); (FU32(v), c1)
    case KStr => var (s, c1) := GetStr(c); (FStr(s), c1)
  }

  /** The bytes a reader consumed between two cursors. */
  ghost function Consumed(c: Cursor, c1: Cursor): Bytes
    requires c.Valid() && c1.Valid() && c.pos <= c1.pos && c1.data == c.data
  {
    c.data[c.pos..c1.pos]
  }

  /** `w` comes next in the data under the cursor. */
  ghost predicate Next(w: Bytes, c: Cursor)
    requires c.Valid()
  {
    c.pos + |w| <= |c.data| && c.data[c.pos..c.pos + |w|] == w
  }

  function Advance(c: Cursor, n: nat): Cursor { c.(pos := c.pos + n) }

  lemma NextSplit(v: Bytes, w: Bytes, c: Cursor)
    requires c.Valid() && Next(v + w, c)
    ensures Next(v, c) && Next(w, Advance(c, |v|))
  {
    var vw := c.data[c.pos..c.pos + |v + w|];
    assert c.data[c.pos..c.pos + |v|] == vw[..|v|];
    assert c.data[c.pos + |v|..c.pos + |v + w|] == vw[|v|..];
  }

  lemma GetRawNext(w: Bytes, c: Cursor)
    requires c.Valid() && c.ok && Next(w, c)
    ensures GetRaw(c, |w|) == (w, Advance(c, |w|))
  {}

  lemma GetU32RoundTrip(v: u32, c: Cursor)
    requires c.Valid() && c.ok && Next(ToLE(4, v), c)
    ensures GetU32(c) == (v, Advance(c, 4))
  {
    Pow256Values();
    GetRawNext(ToLE(4, v), c);
    FromToLE(4, v);
  }

  lemma GetStrRoundTrip(s: Bytes, c: Cursor)
    requires c.Valid() && c.ok && Next(StrBytes(s), c)
    ensures GetStr(c) == (Clamped(s), Advance(c, |StrBytes(s)|))
  {
    hide Next, ToLE;
    var t := Clamped(s);
    NextSplit(ToLE(2, |t|), t, c);
    GetU16RoundTrip(|t|, c);
    NextIs(t, Advance(c, 2));
  }

  lemma NextIs(w: Bytes, c: Cursor)
    requires c.Valid() && Next(w, c)
    ensures c.pos + |w| <= |c.data| && c.data[c.pos..c.pos + |w|] == w
  {}

  lemma GetU16RoundTrip(v: u16, c: Cursor)
    requires c.Valid() && c.ok && Next(ToLE(2, v), c)
    ensures GetU16(c) == (v, Advance(c, 2))
  {
    Pow256Values();
    GetRawNext(ToLE(2, v), c);
    FromToLE(2, v);
  }

  lemma GetFieldRoundTrip(f: Field, c: Cursor)
    requires c.Valid() && c.ok && Next(FieldBytes(f), c)
    ensures GetField(KindOf(f), c) == (ClampField(f), Advance(c, |FieldBytes(f)|))
  {
    hide GetU32, GetStr, ToLE, StrBytes, Clamped;
    match f {
      case FU8(v) =>
      case FU32(v) => GetU32RoundTrip(v, c);
      case FStr(s) => GetStrRoundTrip(s, c);
    }
  }

  lemma GetU32Reverse(c: Cursor)
    requires c.Valid() && GetU32(c).1.ok
    ensures var (v, c1) := GetU32(c);
            c.ok && c1 == Advance(c, 4) && Consumed(c, c1) == ToLE(4, v)
  {
    ToFromLE(c.data[c.pos..c.pos + 4]);
  }

  lemma GetU16Reverse(c: Cursor)
    requires c.Valid() && GetU16(c).1.ok
    ensures var (v, c1) := GetU16(c);
            c.ok && c1 == Advance(c, 2) && Consumed(c, c1) == ToLE(2, v)
  {
    ToFromLE(c.data[c.pos..c.pos + 2]);
  }

  lemma GetStrReverse(c: Cursor)
    requires c.Valid() && GetStr(c).1.ok
    ensures var (s, c1) := GetStr(c);
            c.ok && c1.data == c.data && c.pos <= c1.pos && Clamped(s) == s && Consumed(c, c1) == StrBytes(s)
  {
    hide GetU16, ToLE;
    GetU16Reverse(c);
    var s, c1 := GetStr(c).0, GetStr(c).1;
    assert Consumed(c, c1) == Consumed(c, Advance(c, 2)) + s;
  }

  lemma GetFieldReverse(k: Kind, c: Cursor)
    requires c.Valid() && GetField(k, c).1.ok
    ensures var (f, c1) := GetField(k, c);
            && c.ok && c1.data == c.data && c.pos <= c1.pos
            && KindOf(f) == k && ClampField(f) == f && Consumed(c, c1) == FieldBytes(f)
  {
    hide GetU32, GetStr, ToLE, StrBytes, Clamped;
    match k {
      case KU8 =>
      case KU32 => GetU32Reverse(c);
      case KStr => GetStrReverse(c);
    }
  }

  /** A failed reader stays failed where it is and yields zeros and empty strings. */
  lemma GetFieldSticky(k: Kind, c: Cursor)
    requires c.Valid() && !c.ok
    ensures GetField(k, c) == (ZeroField(k), c)
  {
    assert FromLE(Zeros(2)) == 0 by { assert Zeros(2)[1..][1..] == []; }
    assert FromLE(Zeros(4)) == 0 by {
      assert Zeros(4)[1..] == Zeros(3) && Zeros(3)[1..] == Zeros(2) && Zeros(2)[1..] == Zeros(1) && Zeros(1)[1..] == [];
      assert FromLE(Zeros(1)) == 0;
      assert FromLE(Zeros(2)) == 0;
      assert FromLE(Zeros(3)) == 0;
    }
  }

  // ---- sequences of fields ----------------------------------------------------------

  function FieldsBytes(fs: seq<Field>): Bytes {
    if fs == [] then [] else FieldBytes(fs[0]) + FieldsBytes(fs[1..])
  }

  function GetFields(ks: seq<Kind>, c: Cursor): (r: (seq<Field>, Cursor))
    requires c.Valid()
    ensures r.1.Valid() && |r.0| == |ks|
  {
    if ks == [] then ([], c)
    else
      var (f, c1) := GetField(ks[0], c);
      var (fs, c2) := GetFields(ks[1..], c1);
      ([f] + fs, c2)
  }

  predicate HasKinds(fs: seq<Field>, ks: seq<Kind>) {
    |fs| == |ks| && forall i | 0 <= i < |ks| :: KindOf(fs[i]) == ks[i]
  }

  /** `gs` is `fs` with every string cut to the wire maximum. */
  predicate ClampsTo(fs: seq<Field>, gs: seq<Field>) {
    |gs| == |fs| && forall i | 0 <= i < |fs| :: gs[i] == ClampField(fs[i])
  }

  lemma {:induction false} GetFieldsAppend(ks: seq<Kind>, ls: seq<Kind>, c: Cursor)
    requires c.Valid()
    ensures var (fs, c1) := GetFields(ks, c);
            var (gs, c2) := GetFields(ls, c1);
            GetFields(ks + ls, c) == (fs + gs, c2)
  {
    if ks == [] {
      assert ks + ls == ls;
      assert [] + GetFields(ls, c).0 == GetFields(ls, c).0;
    } else {
      var (f, c1) := GetField(ks[0], c);
      GetFieldsAppend(ks[1..], ls, c1);
      assert (ks + ls)[1..] == ks[1..] + ls;
      var (fs, c2) := GetFields(ks[1..], c1);
      var (gs, c3) := GetFields(ls, c2);
      assert [f] + (fs + gs) == ([f] + fs) + gs;
    }
  }

  lemma GetOne(k: Kind, c: Cursor)
    requires c.Valid()
    ensures GetFields([k], c) == ([GetField(k, c).0], GetField(k, c).1)
  {
    var (f, c1) := GetField(k, c);
    assert [k][1..] == [];
    assert GetFields([k][1..], c1) == ([], c1);
    assert [f] + [] == [f];
  }

  lemma GetFieldsSnoc(ks: seq<Kind>, k: Kind, c: Cursor)
    requires c.Valid()
    ensures var (fs, c1) := GetFields(ks, c);
            var (f, c2) := GetField(k, c1);
            GetFields(ks + [k], c) == (fs + [f], c2)
  {
    GetFieldsAppend(ks, [k], c);
    GetOne(k, GetFields(ks, c).1);
  }

  lemma BytesCons(f: Field, fs: seq<Field>)
    ensures FieldsBytes([f] + fs) == FieldBytes(f) + FieldsBytes(fs)
  {
    assert ([f] + fs)[1..] == fs;
  }

  /** Reading back what was written, whatever follows it. */
  lemma {:induction false} FieldsRoundTrip(fs: seq<Field>, ks: seq<Kind>, c: Cursor)
    requires c.Valid() && c.ok && HasKinds(fs, ks) && Next(FieldsBytes(fs), c)
    ensures ClampsTo(fs, GetFields(ks, c).0)
    ensures GetFields(ks, c).1 == Advance(c, |FieldsBytes(fs)|)
  {
    if fs != [] {
      NextSplit(FieldBytes(fs[0]), FieldsBytes(fs[1..]), c);
      GetFieldRoundTrip(fs[0], c);
      FieldsRoundTrip(fs[1..], ks[1..], Advance(c, |FieldBytes(fs[0])|));
    }
  }

  lemma ConsumedSplit(a: Cursor, b: Cursor, c: Cursor)
    requires a.Valid() && b.Valid() && c.Valid()
    requires a.data == b.data == c.data && a.pos <= b.pos <= c.pos
    ensures Consumed(a, c) == Consumed(a, b) + Consumed(b, c)
  {}

  /** What a reader accepts is exactly what a writer of the same fields would have produced. */
  lemma {:induction false} FieldsReverse(ks: seq<Kind>, c: Cursor)
    requires c.Valid() && GetFields(ks, c).1.ok
    ensures var (fs, c1) := GetFields(ks, c);
            && c.ok && c1.data == c.data && c.pos <= c1.pos
            && HasKinds(fs, ks) && ClampsTo(fs, fs) && Consumed(c, c1) == FieldsBytes(fs)
  {
    if ks != [] {
      var (f, c1) := GetField(ks[0], c);
      var (fs, c2) := GetFields(ks[1..], c1);
      FieldsReverse(ks[1..], c1);
      GetFieldReverse(ks[0], c);
      ConsumedSplit(c, c1, c2);
      BytesCons(f, fs);
    }
  }

  /** Once failed, any later sequence of reads leaves the cursor alone and yields zeros. */
  lemma {:induction false} FieldsSticky(ks: seq<Kind>, c: Cursor)
    requires c.Valid() && !c.ok
    ensures GetFields(ks, c).1 == c
    ensures forall i | 0 <= i < |ks| :: GetFields(ks, c).0[i] == ZeroField(ks[i])
  {
    if ks != [] {
      GetFieldSticky(ks[0], c);
      FieldsSticky(ks[1..], c);
    }
  }

  /** Whatever the bytes, the cursor never passes the end, never moves back and never changes data. */
  lemma {:induction false} FieldsStayInside(ks: seq<Kind>, c: Cursor)
    requires c.Valid()
    ensures var c1 := GetFields(ks, c).1;
            c1.data == c.data && c.pos <= c1.pos <= |c.data| && (c1.ok ==> c.ok)
  {
    if ks != [] {
      FieldsStayInside(ks[1..], GetField(ks[0], c).1);
    }
  }

  /** Signed integers survive the copy through their two's-complement pattern. */
  lemma SignedRoundTrip(v: i32, c: Cursor)
    requires c.Valid() && c.ok && Next(ToLE(4, ToUnsigned(v)), c)
    ensures ToSigned(GetU32(c).0) == v
  {
    GetFieldRoundTrip(FU32(ToUnsigned(v)), c);
  }
}
