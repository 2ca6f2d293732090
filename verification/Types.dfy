/** Value types shared by the wire codec, the server and the client. */
module Types {
  type byte = b: int | 0 <= b < 0x100
  type u16 = n: int | 0 <= n < 0x1_0000
  type u32 = n: int | 0 <= n < 0x1_0000_0000
  type i32 = n: int | -0x8000_0000 <= n < 0x8000_0000

  /** A byte string: `std::string`, `std::vector<std::uint8_t>` and packet payloads alike. */
  type Bytes = seq<byte>

  type PlayerId = u32

  const SERVER_ID: PlayerId := 0
  const INVALID_PLAYER_ID: PlayerId := 0xFFFF_FFFF

  datatype Option<+T> = None | Some(value: T)

  datatype Vec3<+F> = Vec3(x: F, y: F, z: F)

  /** `F` is a 32-bit pattern on the wire and a real number on the client's timeline. */
  datatype PlayerState<+F> = PlayerState(
    position: Vec3<F>,
    yaw: F,
    worldspaceId: u32,
    cellId: u32,
    flags: byte,
    health: F,
    maxHealth: F)

  type WireState = PlayerState<u32>
  type RealState = PlayerState<real>

  const STATE_NONE: byte := 0

  function Sneaking(flags: byte): bool { flags % 2 == 1 }
  function WeaponDrawn(flags: byte): bool { flags / 2 % 2 == 1 }
  function Dead(flags: byte): bool { flags / 4 % 2 == 1 }
  function Sprinting(flags: byte): bool { flags / 8 % 2 == 1 }

  /** The ASCII bytes of a source literal. */
  function Ascii(s: string): Bytes {
    seq(|s|, i requires 0 <= i < |s| => s[i] as int % 0x100)
  }

  /** `std::to_string` of an unsigned number. */
  function Decimal(n: nat): Bytes {
    if n < 10 then [0x30 + n] else Decimal(n / 10) + [0x30 + n % 10]
  }

  // ---- picking bytes ----------------------------------------------------------------

  /** The bytes of `s` worth keeping, in order. */
  function Filter(s: Bytes, keep: byte -> bool): (r: Bytes)
    ensures |r| <= |s| && forall c | c in r :: keep(c)
  {
    if s == [] then []
    else Filter(s[..|s| - 1], keep) + (if keep(s[|s| - 1]) then [s[|s| - 1]] else [])
  }

  /** `r` is made of the bytes of `s` at the positions `at`: increasing, and exactly those worth keeping. */
  ghost predicate Picks(s: Bytes, r: Bytes, at: seq<nat>, keep: byte -> bool) {
    && |at| == |r|
    && (forall k | 0 <= k < |at| :: at[k] < |s| && r[k] == s[at[k]] && keep(r[k]))
    && (forall j, k | 0 <= j < k < |at| :: at[j] < at[k])
    && (forall i: nat | i < |s| && keep(s[i]) :: i in at)
  }

  ghost predicate IsPick(s: Bytes, r: Bytes, keep: byte -> bool) { exists at :: Picks(s, r, at, keep) }

  lemma PickMore(s: Bytes, r: Bytes, at: seq<nat>, keep: byte -> bool, c: byte)
    requires Picks(s, r, at, keep)
    ensures keep(c) ==> Picks(s + [c], r + [c], at + [|s|], keep)
    ensures !keep(c) ==> Picks(s + [c], r, at, keep)
  {
    forall i: nat | i < |s + [c]| && keep((s + [c])[i])
      ensures i in at + [|s|]
    {
      if i < |s| {
        assert (s + [c])[i] == s[i];
      }
    }
    if keep(c) {
      assert forall k | 0 <= k < |at| :: (at + [|s|])[k] == at[k] && (r + [c])[k] == r[k];
    }
  }

  /** Filtering drops exactly the other bytes and keeps the order. */
  lemma {:induction false} FilterPicks(s: Bytes, keep: byte -> bool)
    ensures IsPick(s, Filter(s, keep), keep)
  {
    hide Picks;
    if s == [] {
      NothingPicked(keep);
    } else {
      var n := |s| - 1;
      FilterPicks(s[..n], keep);
      var at :| Picks(s[..n], Filter(s[..n], keep), at, keep);
      PickMore(s[..n], Filter(s[..n], keep), at, keep, s[n]);
      assert s[..n] + [s[n]] == s;
      if keep(s[n]) {
        assert Picks(s, Filter(s, keep), at + [n], keep);
      } else {
        assert Filter(s, keep) == Filter(s[..n], keep);
        assert Picks(s, Filter(s, keep), at, keep);
      }
    }
  }

  lemma NothingPicked(keep: byte -> bool)
    ensures Picks([], [], [], keep)
  {}

  lemma {:induction false} FilterUnchanged(s: Bytes, keep: byte -> bool)
    requires forall i | 0 <= i < |s| :: keep(s[i])
    ensures Filter(s, keep) == s
  {
    if s != [] {
      FilterUnchanged(s[..|s| - 1], keep);
      assert s == s[..|s| - 1] + [s[|s| - 1]];
    }
  }

  // ---- decimal numbers --------------------------------------------------------------

  function DecimalValue(s: Bytes): int { if s == [] then 0 else 10 * DecimalValue(s[..|s| - 1]) + s[|s| - 1] - 0x30 }

  /** Digits only, and the first is zero only for zero itself. */
  predicate Digits(s: Bytes) {
    s != [] && (forall i | 0 <= i < |s| :: 0x30 <= s[i] < 0x3A) && (s[0] == 0x30 ==> |s| == 1)
  }

  /** The digits give the number back. */
  lemma {:induction false} DecimalIs(n: nat)
    ensures Digits(Decimal(n)) && DecimalValue(Decimal(n)) == n && (Decimal(n)[0] == 0x30 ==> n == 0)
  {
    if n < 10 {
      assert [0x30 + n as byte][..0] == [];
      assert DecimalValue([]) == 0;
    } else {
      DecimalIs(n / 10);
      assert Decimal(n)[..|Decimal(n)| - 1] == Decimal(n / 10);
    }
  }

  // ---- walking a hash map -----------------------------------------------------------

  ghost predicate Distinct<T>(xs: seq<T>) { forall i, j | 0 <= i < j < |xs| :: xs[i] != xs[j] }

  /** Some order in which a hash map with these keys can be walked: each key once. */
  ghost predicate IsOrder<T(!new)>(order: seq<T>, keys: set<T>) {
    (forall x :: x in order <==> x in keys) && Distinct(order)
  }

  lemma OrderExists<T(!new)>(keys: set<T>) returns (order: seq<T>)
    ensures IsOrder(order, keys)
  {
    if keys == {} {
      order := [];
    } else {
      var x :| x in keys;
      var rest := OrderExists(keys - {x});
      order := rest + [x];
      assert forall y :: y in order <==> y in rest || y == x;
    }
  }
}
