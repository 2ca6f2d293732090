/** `ServerClock`, `LerpAngle`, `Blend` and `SampleAt` of `Interp.hpp`, over exact reals. */
module Interp {
  import opened Types
  import opened Angles

  const MAX_EXTRAPOLATE_MS := 150.0
  const MAX_VELOCITY_GAP_MS := 400.0

  /** A player's state and the time, unwrapped, at which the server passed it on. */
  datatype TimedState = TimedState(state: RealState, timeMs: int) {
    function Time(): real { timeMs as real }
  }

  // ---- ServerClock ------------------------------------------------------------------

  /** `static_cast<std::int32_t>(a - b)` of two unsigned stamps. */
  function SignedDelta(a: u32, b: u32): (d: i32)
    ensures (a - b - d) % 0x1_0000_0000 == 0
  {
    var d := (a - b) % 0x1_0000_0000;
    if d < 0x8000_0000 then d else d - 0x1_0000_0000
  }

  datatype ClockState = ClockState(started: bool, last: u32, now: int)

  const UNSET := ClockState(false, 0, 0)

  function Unwrapped(c: ClockState, stamp: u32): (r: ClockState)
    ensures r.started && r.last == stamp
  {
    if !c.started then ClockState(true, stamp, stamp)
    else ClockState(true, stamp, c.now + SignedDelta(stamp, c.last))
  }

  class ServerClock {
    var started: bool
    var last: u32
    var now: int

    ghost function View(): ClockState
      reads this
    {
      ClockState(started, last, now)
    }

    constructor ()
      ensures View() == UNSET
    {
      started, last, now := false, 0, 0;
    }

    method Unwrap(stamp: u32) returns (r: int)
      modifies this
      ensures View() == Unwrapped(old(View()), stamp) && r == now
    {
      if !started {
        started := true;
        last := stamp;
        now := stamp;
        return now;
      }
      now := now + SignedDelta(stamp, last);
      last := stamp;
      r := now;
    }

    method Reset()
      modifies this
      ensures View() == UNSET
    {
      started, last, now := false, 0, 0;
    }
  }

  /** The clock after a run of stamps, and the times it gave them. */
  function UnwrapAll(stamps: seq<u32>): (r: (ClockState, seq<int>))
    ensures |r.1| == |stamps|
  {
    if stamps == [] then (UNSET, [])
    else
      var (c, ts) := UnwrapAll(stamps[..|stamps| - 1]);
      var c1 := Unwrapped(c, stamps[|stamps| - 1]);
      (c1, ts + [c1.now])
  }

  /** The low 32 bits of a time are the stamp. */
  predicate Matches(time: int, stamp: u32) { (time - stamp) % 0x1_0000_0000 == 0 }

  lemma DeltaMatches(now: int, last: u32, stamp: u32)
    requires Matches(now, last)
    ensures Matches(now + SignedDelta(stamp, last), stamp)
  {
    var d := SignedDelta(stamp, last);
    assert now + d - stamp == (now - last) - (stamp - last - d);
  }

  lemma MatchesItself(stamp: u32)
    ensures Matches(stamp, stamp)
  {}

  /** The timeline always stays congruent to the stamp modulo 2^32. */
  lemma {:induction false} StaysCongruent(stamps: seq<u32>)
    ensures stamps != [] ==>
              var (c, ts) := UnwrapAll(stamps);
              c.started && c.last == stamps[|stamps| - 1] && c.now == ts[|ts| - 1]
    ensures forall i | 0 <= i < |stamps| :: Matches(UnwrapAll(stamps).1[i], stamps[i])
  {
    hide SignedDelta, Matches;
    if stamps != [] {
      var n := |stamps| - 1;
      StaysCongruent(stamps[..n]);
      var c := UnwrapAll(stamps[..n]).0;
      if n == 0 {
        assert UnwrapAll(stamps[..0]) == (UNSET, []);
        MatchesItself(stamps[n]);
      } else {
        DeltaMatches(c.now, c.last, stamps[n]);
      }
    }
  }

  function Stamp(time: int): u32 { time % 0x1_0000_0000 }

  function Stamps(times: seq<int>): (r: seq<u32>)
    ensures |r| == |times|
  {
    if times == [] then [] else Stamps(times[..|times| - 1]) + [Stamp(times[|times| - 1])]
  }

  lemma DeltaOfStamps(a: int, b: int)
    requires -0x8000_0000 <= a - b < 0x8000_0000
    ensures SignedDelta(Stamp(a), Stamp(b)) == a - b
  {
    var d := (Stamp(a) - Stamp(b)) % 0x1_0000_0000;
    assert (a - b - d) % 0x1_0000_0000 == 0;
  }

  /** The signed step a stamp can express. */
  ghost predicate SmallSteps(times: seq<int>) {
    forall i | 0 < i < |times| :: -0x8000_0000 <= times[i] - times[i - 1] < 0x8000_0000
  }

  /** What separates the timeline from the true time. */
  function Offset(first: int): int { Stamp(first) - first }

  lemma OffsetIsWhole(first: int)
    ensures Offset(first) % 0x1_0000_0000 == 0
  {}

  /** Every unwrapped time is the true time up to one constant, a multiple of 2^32. */
  lemma {:induction false} UnwrapRecovers(times: seq<int>)
    requires times != [] && SmallSteps(times)
    ensures forall i | 0 <= i < |times| :: UnwrapAll(Stamps(times)).1[i] == times[i] + Offset(times[0])
    ensures var last := times[|times| - 1];
            UnwrapAll(Stamps(times)).0 == ClockState(true, Stamp(last), last + Offset(times[0]))
    ensures Offset(times[0]) % 0x1_0000_0000 == 0
  {
    hide SignedDelta, Stamp;
    var n := |times| - 1;
    OffsetIsWhole(times[0]);
    assert Stamps(times)[..n] == Stamps(times[..n]);
    if n == 0 {
      assert UnwrapAll(Stamps(times)[..0]) == (UNSET, []);
      OffsetIs(times[0]);
    } else {
      UnwrapRecovers(times[..n]);
      DeltaOfStamps(times[n], times[n - 1]);
    }
  }

  lemma OffsetIs(first: int)
    ensures Stamp(first) == first + Offset(first)
  {}

  // ---- blending ---------------------------------------------------------------------

  function Lerp(a: real, b: real, t: real): real { a + (b - a) * t }

  /** The signed turn of `LerpAngle`. */
  function ShortestTurn(a: real, b: real): real {
    var delta := Fmod(b - a);
    if delta > PI then delta - TWO_PI else if delta < -PI then delta + TWO_PI else delta
  }

  function LerpAngle(a: real, b: real, t: real): real { a + ShortestTurn(a, b) * t }

  function LerpVec(a: Vec3<real>, b: Vec3<real>, t: real): Vec3<real> {
    Vec3(Lerp(a.x, b.x, t), Lerp(a.y, b.y, t), Lerp(a.z, b.z, t))
  }

  function Blend(a: RealState, b: RealState, t: real): RealState {
    var nearer := if t < 0.5 then a else b;
    nearer.(position := LerpVec(a.position, b.position, t),
            yaw := LerpAngle(a.yaw, b.yaw, t),
            health := Lerp(a.health, b.health, t))
  }

  /** The turn is congruent to the difference, at most half a turn, and no congruent turn is smaller; a half turn goes
      the way of the difference. */
  lemma TurnIsShortest(a: real, b: real)
    ensures -PI <= ShortestTurn(a, b) <= PI
    ensures Congruent(a + ShortestTurn(a, b), b)
    ensures Abs(ShortestTurn(a, b)) == PI ==> ShortestTurn(a, b) == Fmod(b - a)
    ensures forall k: int :: Abs(ShortestTurn(a, b)) <= Abs(b - a + Turns(k))
  {
    FmodRange(b - a);
    var turn := ShortestTurn(a, b);
    var k0 := -Trunc((b - a) / TWO_PI) + (if Fmod(b - a) > PI then -1 else if Fmod(b - a) < -PI then 1 else 0);
    assert turn == b - a + Turns(k0);
    CongruentBy(a + turn, b, k0);
    forall k: int
      ensures Abs(turn) <= Abs(b - a + Turns(k))
    {
      assert b - a + Turns(k) == turn + Turns(k - k0);
      FarTurns(turn, k - k0);
    }
  }

  lemma FarTurns(turn: real, k: int)
    requires -PI <= turn <= PI
    ensures Abs(turn) <= Abs(turn + Turns(k))
  {
    if k >= 1 {
      assert Turns(k) >= TWO_PI;
    } else if k <= -1 {
      assert Turns(k) <= -TWO_PI;
    }
  }

  /** Between its ends the blend stays within half a turn of the start; at the end it faces `b`. */
  lemma LerpAngleShortest(a: real, b: real, t: real)
    requires 0.0 <= t <= 1.0
    ensures -PI <= LerpAngle(a, b, t) - a <= PI
    ensures LerpAngle(a, b, 0.0) == a && Congruent(LerpAngle(a, b, 1.0), b)
  {
    hide ShortestTurn;
    TurnIsShortest(a, b);
    var turn := ShortestTurn(a, b);
    Scaled(turn, t);
    assert LerpAngle(a, b, t) - a == turn * t;
    assert LerpAngle(a, b, 1.0) == a + turn;
  }

  lemma Scaled(x: real, t: real)
    requires 0.0 <= t <= 1.0
    ensures x >= 0.0 ==> 0.0 <= x * t <= x
    ensures x <= 0.0 ==> x <= x * t <= 0.0
  {}

  // ---- sampling ---------------------------------------------------------------------

  /** The last velocity carried on for at most `MAX_EXTRAPOLATE_MS`. */
  function Extrapolate(prev: TimedState, last: TimedState, renderMs: real): RealState {
    var gap := (last.timeMs - prev.timeMs) as real;
    var late := renderMs - last.Time();
    var ahead := if late < MAX_EXTRAPOLATE_MS then late else MAX_EXTRAPOLATE_MS;
    if gap <= 0.0 || gap > MAX_VELOCITY_GAP_MS || ahead <= 0.0 then last.state
    else last.state.(position := Ahead(prev.state.position, last.state.position, ahead / gap))
  }

  /** Beyond `q` on the line from `p`, by `t` times their distance. */
  function Ahead(p: Vec3<real>, q: Vec3<real>, t: real): Vec3<real> {
    Vec3(q.x + (q.x - p.x) * t, q.y + (q.y - p.y) * t, q.z + (q.z - p.z) * t)
  }

  function Clamp01(t: real): real { if t < 0.0 then 0.0 else if t > 1.0 then 1.0 else t }

  function Fraction(a: TimedState, b: TimedState, renderMs: real): real {
    var span := (b.timeMs - a.timeMs) as real;
    Clamp01(if span > 0.0 then (renderMs - a.Time()) / span else 1.0)
  }

  predicate Brackets(s: seq<TimedState>, i: nat, renderMs: real) {
    i + 1 < |s| && s[i].Time() <= renderMs <= s[i + 1].Time()
  }

  /** The first bracketing pair from `i` on, or `|s|`. */
  function FindBracket(s: seq<TimedState>, i: nat, renderMs: real): (r: nat)
    requires i <= |s|
    ensures i <= r <= |s| && (r < |s| ==> Brackets(s, r, renderMs))
    ensures forall j | i <= j < r :: !Brackets(s, j, renderMs)
    decreases |s| - i
  {
    if i == |s| then i
    else if Brackets(s, i, renderMs) then i else FindBracket(s, i + 1, renderMs)
  }

  function Sample(s: seq<TimedState>, renderMs: real): RealState
    requires s != []
  {
    var first, last := s[0], s[|s| - 1];
    if |s| == 1 || renderMs <= first.Time() then first.state
    else if renderMs >= last.Time() then Extrapolate(s[|s| - 2], last, renderMs)
    else
      var i := FindBracket(s, 0, renderMs);
      if i < |s| then Blend(s[i].state, s[i + 1].state, Fraction(s[i], s[i + 1], renderMs)) else last.state
  }

  method SampleAt(s: seq<TimedState>, renderMs: real) returns (out: RealState)
    requires s != []
    ensures out == Sample(s, renderMs)
  {
    hide Extrapolate, Blend, Fraction;
    var first, last := s[0], s[|s| - 1];
    if |s| == 1 || renderMs <= first.Time() {
      return first.state;
    }
    if renderMs >= last.Time() {
      return Extrapolate(s[|s| - 2], last, renderMs);
    }
    var i := 0;
    while i + 1 < |s|
      invariant i <= |s| && FindBracket(s, i, renderMs) == FindBracket(s, 0, renderMs)
    {
      var a, b := s[i], s[i + 1];
      if !(renderMs < a.Time() || renderMs > b.Time()) {
        return Blend(a.state, b.state, Fraction(a, b, renderMs));
      }
      i := i + 1;
    }
    out := last.state;
  }
}
