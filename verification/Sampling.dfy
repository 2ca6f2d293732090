/** What `SampleAt` computes, and that motion never jumps. */
module Sampling {
  import opened Types
  import opened Angles
  import opened Interp

  ghost predicate Increasing(s: seq<TimedState>) {
    forall i, j | 0 <= i < j < |s| :: s[i].timeMs < s[j].timeMs
  }

  // ---- the search -------------------------------------------------------------------

  lemma BracketBetween(s: seq<TimedState>, i: nat, j: nat, renderMs: real) returns (k: nat)
    requires i < j < |s| && s[i].Time() <= renderMs <= s[j].Time()
    ensures i <= k < j && Brackets(s, k, renderMs)
    decreases j - i
  {
    if renderMs <= s[i + 1].Time() {
      k := i;
    } else {
      k := BracketBetween(s, i + 1, j, renderMs);
    }
  }

  /** Strictly inside the buffer, whether ordered or not, the search always finds a pair:
      the return behind the loop is never reached. */
  lemma SearchSucceeds(s: seq<TimedState>, renderMs: real)
    requires |s| >= 2 && s[0].Time() <= renderMs <= s[|s| - 1].Time()
    ensures FindBracket(s, 0, renderMs) + 1 < |s|
  {
    var _ := BracketBetween(s, 0, |s| - 1, renderMs);
  }

  // ---- before the buffer ------------------------------------------------------------

  /** Up to the oldest snapshot, and at any time if there is only one, the sample is that snapshot itself, heading and
      flags included: a newcomer is shown where it was first seen until its timeline is reached. */
  lemma SampleHeld(s: seq<TimedState>, renderMs: real, oldest: TimedState)
    requires Increasing(s) && oldest in s && forall x | x in s :: oldest.timeMs <= x.timeMs
    requires |s| == 1 || renderMs <= oldest.Time()
    ensures Sample(s, renderMs) == oldest.state
  {
    hide Extrapolate, Blend, Fraction;
    var i :| 0 <= i < |s| && s[i] == oldest;
    assert s[0] in s;
    assert i == 0;
  }

  // ---- inside the buffer ------------------------------------------------------------

  predicate Within(x: real, a: real, b: real) { a <= x <= b || b <= x <= a }

  lemma LerpWithin(a: real, b: real, t: real)
    requires 0.0 <= t <= 1.0
    ensures Within(Lerp(a, b, t), a, b)
  {
    hide Times;
    LerpIs(a, b, t);
    TimesWithin(b - a, t);
  }

  function Times(x: real, y: real): real { x * y }

  lemma LerpIs(a: real, b: real, t: real)
    ensures Lerp(a, b, t) == a + Times(b - a, t)
  {}

  lemma TimesWithin(x: real, t: real)
    requires 0.0 <= t <= 1.0
    ensures Within(Times(x, t), 0.0, x)
  {
    Scaled(x, t);
  }

  lemma AtMostOne(t: real, span: real)
    requires span > 0.0 && t * span <= span
    ensures t <= 1.0
  {}

  lemma FractionFacts(a: TimedState, b: TimedState, renderMs: real)
    requires a.timeMs < b.timeMs && a.Time() <= renderMs <= b.Time()
    ensures var t := Fraction(a, b, renderMs);
            && 0.0 <= t <= 1.0 && t == (renderMs - a.Time()) / (b.timeMs - a.timeMs) as real
            && (t < 0.5 <==> renderMs - a.Time() < b.Time() - renderMs)
            && (renderMs == b.Time() ==> t == 1.0)
  {
    var span, w := (b.timeMs - a.timeMs) as real, renderMs - a.Time();
    var t := w / span;
    assert t * span == w;
    assert 0.0 <= w <= span;
    assert 0.0 <= t;
    AtMostOne(t, span);
    assert t < 0.5 <==> 2.0 * w < span by {
      if t < 0.5 {
        assert t * span < 0.5 * span;
      } else {
        assert t * span >= 0.5 * span;
      }
    }
  }

  /** The fields that are never blended. */
  predicate SameDiscrete(a: RealState, b: RealState) {
    a.worldspaceId == b.worldspaceId && a.cellId == b.cellId && a.flags == b.flags && a.maxHealth == b.maxHealth
  }

  /** Inside the buffer the sample lies between the two snapshots around it: position and health in
      their hull, the heading within half a turn, the discrete fields those of the nearer one. */
  lemma SampleBetween(s: seq<TimedState>, renderMs: real) returns (i: nat)
    requires Increasing(s) && |s| >= 2 && s[0].Time() < renderMs < s[|s| - 1].Time()
    ensures Brackets(s, i, renderMs)
    ensures var a, b, out := s[i].state, s[i + 1].state, Sample(s, renderMs);
            && Within(out.position.x, a.position.x, b.position.x)
            && Within(out.position.y, a.position.y, b.position.y)
            && Within(out.position.z, a.position.z, b.position.z)
            && Within(out.health, a.health, b.health)
            && -PI <= out.yaw - a.yaw <= PI
            && SameDiscrete(out, if renderMs - s[i].Time() < s[i + 1].Time() - renderMs then a else b)
  {
    hide LerpAngle, Fraction;
    SearchSucceeds(s, renderMs);
    i := FindBracket(s, 0, renderMs);
    var a, b := s[i], s[i + 1];
    FractionFacts(a, b, renderMs);
    var t := Fraction(a, b, renderMs);
    LerpWithin(a.state.position.x, b.state.position.x, t);
    LerpWithin(a.state.position.y, b.state.position.y, t);
    LerpWithin(a.state.position.z, b.state.position.z, t);
    LerpWithin(a.state.health, b.state.health, t);
    LerpAngleShortest(a.state.yaw, b.state.yaw, t);
  }

  /** `out` is as far from `a` on the way of length `d` as `w` is within `span`. */
  predicate Even(out: real, a: real, d: real, w: real, span: real) { (out - a) * span == d * w }

  /** Inside the buffer everything that is blended moves evenly: part of the way from one snapshot to the next,
      position, health and the shortest turn are through the same part. */
  lemma SampleEven(s: seq<TimedState>, renderMs: real) returns (i: nat)
    requires Increasing(s) && |s| >= 2 && s[0].Time() < renderMs < s[|s| - 1].Time()
    ensures Brackets(s, i, renderMs)
    ensures var a, b, out := s[i].state, s[i + 1].state, Sample(s, renderMs);
            var w, span := renderMs - s[i].Time(), s[i + 1].Time() - s[i].Time();
            && Even(out.position.x, a.position.x, b.position.x - a.position.x, w, span)
            && Even(out.position.y, a.position.y, b.position.y - a.position.y, w, span)
            && Even(out.position.z, a.position.z, b.position.z - a.position.z, w, span)
            && Even(out.health, a.health, b.health - a.health, w, span)
            && Even(out.yaw, a.yaw, ShortestTurn(a.yaw, b.yaw), w, span)
  {
    hide Fraction, ShortestTurn, Extrapolate, Lerp, LerpAngle, Even;
    SearchSucceeds(s, renderMs);
    i := FindBracket(s, 0, renderMs);
    var a, b := s[i], s[i + 1];
    var t, w, span := Fraction(a, b, renderMs), renderMs - a.Time(), b.Time() - a.Time();
    FractionEven(a, b, renderMs);
    LerpEven(a.state.position.x, b.state.position.x, t, w, span);
    LerpEven(a.state.position.y, b.state.position.y, t, w, span);
    LerpEven(a.state.position.z, b.state.position.z, t, w, span);
    LerpEven(a.state.health, b.state.health, t, w, span);
    TurnEven(a.state.yaw, b.state.yaw, t, w, span);
  }

  lemma FractionEven(a: TimedState, b: TimedState, renderMs: real)
    requires a.timeMs < b.timeMs && a.Time() <= renderMs <= b.Time()
    ensures Fraction(a, b, renderMs) * (b.Time() - a.Time()) == renderMs - a.Time()
  {
    hide Fraction;
    FractionFacts(a, b, renderMs);
    assert (b.timeMs - a.timeMs) as real == b.Time() - a.Time();
  }

  lemma LerpEven(a: real, b: real, t: real, w: real, span: real)
    requires t * span == w
    ensures Even(Lerp(a, b, t), a, b - a, w, span)
  {
    var d := b - a;
    assert d * t * span == d * (t * span);
  }

  lemma TurnEven(a: real, b: real, t: real, w: real, span: real)
    requires t * span == w
    ensures Even(LerpAngle(a, b, t), a, ShortestTurn(a, b), w, span)
  {
    hide ShortestTurn;
    var d := ShortestTurn(a, b);
    assert d * t * span == d * (t * span);
  }

  /** At a snapshot's own time the sample is that snapshot, up to whole turns of the heading. */
  lemma SampleAtSnapshot(s: seq<TimedState>, i: nat)
    requires Increasing(s) && i < |s|
    ensures var out := Sample(s, s[i].Time());
            && Congruent(out.yaw, s[i].state.yaw)
            && out.(yaw := s[i].state.yaw) == s[i].state
  {
    hide LerpAngle, Fraction;
    var r := s[i].Time();
    CongruentBy(s[i].state.yaw, s[i].state.yaw, 0);
    if 0 < i < |s| - 1 {
      SearchSucceeds(s, r);
      FirstBracketOf(s, i);
      FractionFacts(s[i - 1], s[i], r);
      LerpAngleShortest(s[i - 1].state.yaw, s[i].state.yaw, 1.0);
    }
  }

  lemma FirstBracketOf(s: seq<TimedState>, i: nat)
    requires Increasing(s) && 0 < i < |s|
    ensures FindBracket(s, 0, s[i].Time()) == i - 1
  {
    var k := FindBracket(s, 0, s[i].Time());
    assert Brackets(s, i - 1, s[i].Time());
    assert k <= i - 1;
    assert s[k + 1].timeMs >= s[i].timeMs;
  }

  // ---- dropping old snapshots -------------------------------------------------------

  lemma {:induction false} BracketShift(s: seq<TimedState>, i: nat, renderMs: real)
    requires |s| >= 1 && i + 1 <= |s|
    ensures FindBracket(s, i + 1, renderMs) == FindBracket(s[1..], i, renderMs) + 1
    decreases |s| - i
  {
    if i + 1 < |s| {
      BracketShift(s, i + 1, renderMs);
    }
  }

  /** Later than its second snapshot, a buffer does not need its first. */
  lemma DropFront(s: seq<TimedState>, renderMs: real)
    requires Increasing(s) && |s| >= 3 && renderMs > s[1].Time()
    ensures Sample(s, renderMs) == Sample(s[1..], renderMs)
  {
    hide Blend, Extrapolate, Fraction;
    if renderMs < s[|s| - 1].Time() {
      BracketShift(s, 0, renderMs);
      SearchSucceeds(s, renderMs);
    }
  }

  lemma {:induction false} DropMany(s: seq<TimedState>, drop: nat, renderMs: real)
    requires Increasing(s) && drop + 2 <= |s| && renderMs > s[drop].Time()
    ensures Sample(s, renderMs) == Sample(s[drop..], renderMs)
    decreases drop
  {
    hide Sample;
    if drop == 0 {
      assert s[0..] == s;
    } else {
      DropMany(s, drop - 1, renderMs);
      DropFront(s[drop - 1..], renderMs);
      assert s[drop - 1..][1..] == s[drop..];
    }
  }

  // ---- continuity -------------------------------------------------------------------

  datatype Axis = X | Y | Z

  function Along(v: Vec3<real>, axis: Axis): real {
    match axis
    case X => v.x
    case Y => v.y
    case Z => v.z
  }

  function Coord(t: TimedState, axis: Axis): real { Along(t.state.position, axis) }

  /** The two are no further apart than `speed` gets in the time `w`. */
  predicate Reach(x: real, y: real, speed: real, w: real) { -(speed * w) <= x - y <= speed * w }

  /** No two neighbouring snapshots are further apart than `speed` allows. */
  ghost predicate SpeedBound(s: seq<TimedState>, axis: Axis, speed: real) {
    speed >= 0.0 &&
    forall i | 0 <= i < |s| - 1 :: Reach(Coord(s[i + 1], axis), Coord(s[i], axis), speed, s[i + 1].Time() - s[i].Time())
  }

  lemma ReachStill(x: real, speed: real, w: real)
    requires speed >= 0.0 && w >= 0.0
    ensures Reach(x, x, speed, w)
  {}

  lemma ReachFurther(x: real, y: real, speed: real, v: real, w: real)
    requires Reach(x, y, speed, v) && speed >= 0.0 && v <= w
    ensures Reach(x, y, speed, w)
  {
    Mono(speed, v, w);
  }

  lemma Mono(speed: real, v: real, w: real)
    requires speed >= 0.0 && v <= w
    ensures speed * v <= speed * w
  {}

  lemma ReachChain(x: real, y: real, z: real, speed: real, v: real, w: real)
    requires Reach(x, y, speed, v) && Reach(y, z, speed, w)
    ensures Reach(x, z, speed, v + w)
  {
    assert speed * v + speed * w == speed * (v + w);
  }

  // ---- straight lines ---------------------------------------------------------------

  function Quot(w: real, span: real): real
    requires span > 0.0
  {
    w / span
  }

  /** On the way from `x` over `d`, after `w` of `span`. */
  function Line(x: real, d: real, w: real, span: real): real
    requires span > 0.0
  {
    x + Times(d, Quot(w, span))
  }

  lemma QuotTimes(w: real, span: real)
    requires span > 0.0
    ensures Times(Quot(w, span), span) == w
  {}

  lemma Unscale(q: real, span: real)
    requires span > 0.0
    ensures Times(q, span) == 0.0 ==> q == 0.0
    ensures Times(q, span) >= 0.0 ==> q >= 0.0
    ensures Times(q, span) == span ==> q == 1.0
  {
    if q < 0.0 {
      Positive(-q, span);
      assert -q * span == -Times(q, span);
    } else if q > 0.0 {
      Positive(q, span);
    }
    if q > 1.0 {
      Positive(q - 1.0, span);
      assert (q - 1.0) * span == Times(q, span) - span;
    } else if q < 1.0 {
      Positive(1.0 - q, span);
      assert (1.0 - q) * span == span - Times(q, span);
    }
  }

  lemma Positive(a: real, b: real)
    requires a > 0.0 && b > 0.0
    ensures a * b > 0.0
  {}

  lemma TimesMinus(a: real, b: real, c: real)
    ensures Times(a - b, c) == Times(a, c) - Times(b, c)
    ensures Times(c, a - b) == Times(c, a) - Times(c, b)
  {}

  lemma TimesEnds(d: real)
    ensures Times(d, 0.0) == 0.0 && Times(d, 1.0) == d
  {}

  lemma LineEnds(x: real, d: real, span: real)
    requires span > 0.0
    ensures Line(x, d, 0.0, span) == x && Line(x, d, span, span) == x + d
  {
    hide Times, Quot;
    QuotTimes(0.0, span);
    QuotTimes(span, span);
    Unscale(Quot(0.0, span), span);
    Unscale(Quot(span, span), span);
    TimesEnds(d);
  }

  /** A step of `q` spans on a line that stays within reach over one span. */
  lemma Slope(d: real, span: real, q: real, speed: real, w: real)
    requires -(speed * span) <= d <= speed * span && q >= 0.0 && Times(q, span) == w
    ensures -(speed * w) <= Times(d, q) <= speed * w
  {
    var most := speed * span;
    assert (most - d) * q >= 0.0;
    assert (d + most) * q >= 0.0;
    assert most * q == speed * (q * span);
  }

  /** Two points of a line are as close as its slope allows. */
  lemma LineReach(x: real, d: real, w1: real, w2: real, span: real, speed: real)
    requires span > 0.0 && w1 <= w2 && Reach(x + d, x, speed, span)
    ensures Reach(Line(x, d, w2, span), Line(x, d, w1, span), speed, w2 - w1)
  {
    hide Times, Quot;
    var q1, q2 := Quot(w1, span), Quot(w2, span);
    QuotTimes(w1, span);
    QuotTimes(w2, span);
    TimesMinus(q2, q1, span);
    TimesMinus(q2, q1, d);
    Unscale(q2 - q1, span);
    Slope(d, span, q2 - q1, speed, w2 - w1);
  }

  lemma LineEven(x: real, d: real, w: real, span: real)
    requires span > 0.0
    ensures Even(Line(x, d, w, span), x, d, w, span)
  {
    var q := Quot(w, span);
    QuotTimes(w, span);
    assert d * q * span == d * (q * span);
  }

  function ClampTo(r: real, lo: real, hi: real): real { if r <= lo then lo else if r >= hi then hi else r }

  // ---- between two snapshots --------------------------------------------------------

  /** `a` held, then the straight line to `b`, then `b` held. */
  function Ramp(a: TimedState, b: TimedState, axis: Axis, r: real): real
    requires a.Time() < b.Time()
  {
    Line(Coord(a, axis), Coord(b, axis) - Coord(a, axis),
         ClampTo(r, a.Time(), b.Time()) - a.Time(), b.Time() - a.Time())
  }

  lemma TimesApart(a: TimedState, b: TimedState)
    requires a.timeMs < b.timeMs
    ensures a.Time() < b.Time() && (b.timeMs - a.timeMs) as real == b.Time() - a.Time()
  {}

  lemma FractionIs(a: TimedState, b: TimedState, r: real)
    requires a.Time() < b.Time() && a.Time() <= r <= b.Time()
    ensures Fraction(a, b, r) == Quot(r - a.Time(), b.Time() - a.Time())
  {
    hide Fraction;
    FractionFacts(a, b, r);
    TimesApart(a, b);
  }

  lemma AlongLerp(p: Vec3<real>, q: Vec3<real>, t: real, axis: Axis)
    ensures Along(LerpVec(p, q, t), axis) == Along(p, axis) + Times(Along(q, axis) - Along(p, axis), t)
  {
    hide Times, Lerp;
    LerpIs(Along(p, axis), Along(q, axis), t);
  }

  lemma LerpIsRamp(a: TimedState, b: TimedState, axis: Axis, r: real)
    requires a.Time() < r < b.Time()
    ensures Along(LerpVec(a.state.position, b.state.position, Fraction(a, b, r)), axis) == Ramp(a, b, axis, r)
  {
    hide Fraction, Quot, Times, LerpVec, Along;
    FractionIs(a, b, r);
    AlongLerp(a.state.position, b.state.position, Fraction(a, b, r), axis);
  }

  lemma RampEnds(a: TimedState, b: TimedState, axis: Axis, r: real)
    requires a.Time() < b.Time()
    ensures r <= a.Time() ==> Ramp(a, b, axis, r) == Coord(a, axis)
    ensures r >= b.Time() ==> Ramp(a, b, axis, r) == Coord(b, axis)
  {
    hide Line, Coord;
    LineEnds(Coord(a, axis), Coord(b, axis) - Coord(a, axis), b.Time() - a.Time());
  }

  lemma PairReach(s: seq<TimedState>, i: nat, axis: Axis, speed: real)
    requires SpeedBound(s, axis, speed) && i + 1 < |s|
    ensures speed >= 0.0 && Reach(Coord(s[i + 1], axis), Coord(s[i], axis), speed, s[i + 1].Time() - s[i].Time())
  {
    hide Reach, Coord;
  }

  lemma RampReach(a: TimedState, b: TimedState, axis: Axis, speed: real, r1: real, r2: real)
    requires a.Time() < b.Time() && speed >= 0.0 && r1 <= r2
    requires Reach(Coord(b, axis), Coord(a, axis), speed, b.Time() - a.Time())
    ensures Reach(Ramp(a, b, axis, r2), Ramp(a, b, axis, r1), speed, r2 - r1)
  {
    hide Line, Coord, Reach;
    var x, d, span := Coord(a, axis), Coord(b, axis) - Coord(a, axis), b.Time() - a.Time();
    var w1, w2 := ClampTo(r1, a.Time(), b.Time()) - a.Time(), ClampTo(r2, a.Time(), b.Time()) - a.Time();
    assert x + d == Coord(b, axis);
    LineReach(x, d, w1, w2, span, speed);
    ReachFurther(Line(x, d, w2, span), Line(x, d, w1, span), speed, w2 - w1, r2 - r1);
  }

  // ---- after the newest -------------------------------------------------------------

  /** The newest snapshot, carried on. */
  function Tail(prev: TimedState, last: TimedState, axis: Axis, r: real): real
    requires prev.Time() < last.Time()
  {
    if last.Time() - prev.Time() > MAX_VELOCITY_GAP_MS then Coord(last, axis)
    else
      Line(Coord(last, axis), Coord(last, axis) - Coord(prev, axis),
           ClampTo(r - last.Time(), 0.0, MAX_EXTRAPOLATE_MS), last.Time() - prev.Time())
  }

  lemma TailReach(prev: TimedState, last: TimedState, axis: Axis, speed: real, r1: real, r2: real)
    requires prev.Time() < last.Time() && speed >= 0.0 && r1 <= r2
    requires Reach(Coord(last, axis), Coord(prev, axis), speed, last.Time() - prev.Time())
    ensures Reach(Tail(prev, last, axis, r2), Tail(prev, last, axis, r1), speed, r2 - r1)
  {
    hide Line, Coord, Reach;
    var x, d, span := Coord(last, axis), Coord(last, axis) - Coord(prev, axis), last.Time() - prev.Time();
    var w1 := ClampTo(r1 - last.Time(), 0.0, MAX_EXTRAPOLATE_MS);
    var w2 := ClampTo(r2 - last.Time(), 0.0, MAX_EXTRAPOLATE_MS);
    if span > MAX_VELOCITY_GAP_MS {
      ReachStill(x, speed, r2 - r1);
    } else {
      SameReach(x, x - d, speed, span, x + d, x);
      LineReach(x, d, w1, w2, span, speed);
      ReachFurther(Line(x, d, w2, span), Line(x, d, w1, span), speed, w2 - w1, r2 - r1);
    }
  }

  lemma SameReach(x: real, y: real, speed: real, w: real, x1: real, y1: real)
    requires Reach(x, y, speed, w) && x - y == x1 - y1
    ensures Reach(x1, y1, speed, w)
  {}

  function Position(s: seq<TimedState>, axis: Axis, r: real): real
    requires s != []
  {
    Along(Sample(s, r).position, axis)
  }

  lemma LastPairApart(s: seq<TimedState>)
    requires Increasing(s) && |s| >= 2
    ensures s[|s| - 2].Time() < s[|s| - 1].Time() && s[0].Time() < s[1].Time()
  {}

  lemma PositionIsTail(s: seq<TimedState>, axis: Axis, r: real)
    requires Increasing(s) && |s| >= 2 && r >= s[|s| - 1].Time()
    ensures s[|s| - 2].Time() < s[|s| - 1].Time()
    ensures Position(s, axis, r) == Tail(s[|s| - 2], s[|s| - 1], axis, r)
  {
    hide Extrapolate, Tail, Along, Blend, Fraction;
    LastPairApart(s);
    ExtrapolateIsTail(s[|s| - 2], s[|s| - 1], axis, r);
  }

  /** How far the extrapolation goes, in parts of the last gap. */
  lemma ExtrapolateIs(prev: TimedState, last: TimedState, r: real)
    requires prev.timeMs < last.timeMs && last.Time() < r && last.Time() - prev.Time() <= MAX_VELOCITY_GAP_MS
    ensures prev.Time() < last.Time()
    ensures Extrapolate(prev, last, r).position ==
            Ahead(prev.state.position, last.state.position,
                  Quot(ClampTo(r - last.Time(), 0.0, MAX_EXTRAPOLATE_MS), last.Time() - prev.Time()))
  {
    hide Quot, ClampTo, Ahead;
    TimesApart(prev, last);
    ClampLate(r - last.Time());
    SameQuot(ClampTo(r - last.Time(), 0.0, MAX_EXTRAPOLATE_MS), (last.timeMs - prev.timeMs) as real,
             last.Time() - prev.Time());
  }

  lemma AlongAhead(p: Vec3<real>, q: Vec3<real>, t: real, axis: Axis)
    ensures Along(Ahead(p, q, t), axis) == Along(q, axis) + Times(Along(q, axis) - Along(p, axis), t)
  {}

  lemma ClampLate(late: real)
    requires late > 0.0
    ensures ClampTo(late, 0.0, MAX_EXTRAPOLATE_MS) == if late < MAX_EXTRAPOLATE_MS then late else MAX_EXTRAPOLATE_MS
  {}

  lemma SameQuot(w: real, span1: real, span2: real)
    requires span1 > 0.0 && span1 == span2
    ensures w / span1 == Quot(w, span2)
  {}

  lemma ExtrapolateHolds(prev: TimedState, last: TimedState, r: real)
    requires prev.timeMs < last.timeMs && (r == last.Time() || last.Time() - prev.Time() > MAX_VELOCITY_GAP_MS)
    ensures Extrapolate(prev, last, r) == last.state
  {
    TimesApart(prev, last);
  }

  lemma ExtrapolateIsTail(prev: TimedState, last: TimedState, axis: Axis, r: real)
    requires prev.timeMs < last.timeMs && prev.Time() < last.Time() && r >= last.Time()
    ensures Along(Extrapolate(prev, last, r).position, axis) == Tail(prev, last, axis, r)
  {
    hide Extrapolate, Quot, Times, Ahead, Along;
    if r == last.Time() || last.Time() - prev.Time() > MAX_VELOCITY_GAP_MS {
      ExtrapolateHolds(prev, last, r);
      LineEnds(Coord(last, axis), Coord(last, axis) - Coord(prev, axis), last.Time() - prev.Time());
    } else {
      ExtrapolateIs(prev, last, r);
      AlongAhead(prev.state.position, last.state.position,
                 Quot(ClampTo(r - last.Time(), 0.0, MAX_EXTRAPOLATE_MS), last.Time() - prev.Time()), axis);
    }
  }

  /** After the newest snapshot the position goes on at the speed of the last pair for 150 ms and then stays;
      not at all if that pair is more than 400 ms apart. Everything else is held. */
  lemma CarriesOn(s: seq<TimedState>, axis: Axis, r: real)
    requires Increasing(s) && |s| >= 2 && r >= s[|s| - 1].Time()
    ensures Sample(s, r) == s[|s| - 1].state.(position := Sample(s, r).position)
    ensures var prev, last := s[|s| - 2], s[|s| - 1];
            var gap, ahead := last.Time() - prev.Time(), ClampTo(r - last.Time(), 0.0, MAX_EXTRAPOLATE_MS);
            if gap > MAX_VELOCITY_GAP_MS then Position(s, axis, r) == Coord(last, axis)
            else Even(Position(s, axis, r), Coord(last, axis), Coord(last, axis) - Coord(prev, axis), ahead, gap)
  {
    hide Line, Coord, Along, Even, Position;
    PositionIsTail(s, axis, r);
    var prev, last := s[|s| - 2], s[|s| - 1];
    LineEven(Coord(last, axis), Coord(last, axis) - Coord(prev, axis),
             ClampTo(r - last.Time(), 0.0, MAX_EXTRAPOLATE_MS), last.Time() - prev.Time());
  }

  // ---- the whole line ---------------------------------------------------------------

  lemma PositionIsRamp(s: seq<TimedState>, axis: Axis, r: real)
    requires Increasing(s) && |s| >= 2 && r <= s[1].Time()
    ensures s[0].Time() < s[1].Time() && Position(s, axis, r) == Ramp(s[0], s[1], axis, r)
  {
    hide Extrapolate, Fraction, LerpVec, LerpAngle, Lerp, Congruent, Ramp, Along;
    LastPairApart(s);
    RampEnds(s[0], s[1], axis, r);
    if r == s[1].Time() {
      SampleAtSnapshot(s, 1);
    } else if r > s[0].Time() {
      assert Brackets(s, 0, r);
      LerpIsRamp(s[0], s[1], axis, r);
    }
  }

  lemma PositionDropFront(s: seq<TimedState>, axis: Axis, r: real)
    requires Increasing(s) && |s| >= 3 && r >= s[1].Time()
    ensures Position(s, axis, r) == Position(s[1..], axis, r)
  {
    hide Sample, Congruent, Along;
    if r > s[1].Time() {
      DropFront(s, r);
    } else {
      SampleAtSnapshot(s, 1);
      IncreasingTail(s);
      SampleAtSnapshot(s[1..], 0);
    }
  }

  lemma IncreasingTail(s: seq<TimedState>)
    requires Increasing(s) && s != []
    ensures Increasing(s[1..])
  {}

  /** Motion never jumps: over the whole time line, before, inside and after the buffer, two samples
      are at most the largest speed between neighbouring snapshots times their distance in time apart. */
  lemma {:induction false} Lipschitz(s: seq<TimedState>, axis: Axis, speed: real, r1: real, r2: real)
    requires s != [] && Increasing(s) && SpeedBound(s, axis, speed) && r1 <= r2
    ensures Reach(Position(s, axis, r2), Position(s, axis, r1), speed, r2 - r1)
    decreases |s|
  {
    hide Position, Ramp, Tail, Coord, Reach;
    if |s| == 1 {
      HeldAlone(s, axis, r1);
      HeldAlone(s, axis, r2);
      ReachStill(Coord(s[0], axis), speed, r2 - r1);
    } else if r2 <= s[1].Time() {
      FirstPairReach(s, axis, speed, r1, r2);
    } else if r1 >= s[1].Time() {
      RestReach(s, axis, speed, r1, r2);
    } else {
      var r := s[1].Time();
      FirstPairReach(s, axis, speed, r1, r);
      RestReach(s, axis, speed, r, r2);
      ReachChain(Position(s, axis, r2), Position(s, axis, r), Position(s, axis, r1), speed, r2 - r, r - r1);
    }
  }

  lemma HeldAlone(s: seq<TimedState>, axis: Axis, r: real)
    requires |s| == 1
    ensures Position(s, axis, r) == Coord(s[0], axis)
  {}

  lemma FirstPairReach(s: seq<TimedState>, axis: Axis, speed: real, r1: real, r2: real)
    requires |s| >= 2 && Increasing(s) && SpeedBound(s, axis, speed) && r1 <= r2 <= s[1].Time()
    ensures Reach(Position(s, axis, r2), Position(s, axis, r1), speed, r2 - r1)
  {
    hide Position, Ramp, Coord, Reach;
    PositionIsRamp(s, axis, r1);
    PositionIsRamp(s, axis, r2);
    PairReach(s, 0, axis, speed);
    RampReach(s[0], s[1], axis, speed, r1, r2);
  }

  lemma {:induction false} RestReach(s: seq<TimedState>, axis: Axis, speed: real, r1: real, r2: real)
    requires |s| >= 2 && Increasing(s) && SpeedBound(s, axis, speed) && s[1].Time() <= r1 <= r2
    ensures Reach(Position(s, axis, r2), Position(s, axis, r1), speed, r2 - r1)
    decreases |s|, 0
  {
    hide Position, Tail, Coord, Reach;
    if |s| == 2 {
      PositionIsTail(s, axis, r1);
      PositionIsTail(s, axis, r2);
      PairReach(s, 0, axis, speed);
      TailReach(s[0], s[1], axis, speed, r1, r2);
    } else {
      PositionDropFront(s, axis, r1);
      PositionDropFront(s, axis, r2);
      SpeedBoundTail(s, axis, speed);
      IncreasingTail(s);
      Lipschitz(s[1..], axis, speed, r1, r2);
    }
  }

  lemma SpeedBoundTail(s: seq<TimedState>, axis: Axis, speed: real)
    requires s != [] && SpeedBound(s, axis, speed)
    ensures SpeedBound(s[1..], axis, speed)
  {
    hide Coord, Reach;
    forall i | 0 <= i < |s[1..]| - 1
      ensures Reach(Coord(s[1..][i + 1], axis), Coord(s[1..][i], axis), speed, s[1..][i + 1].Time() - s[1..][i].Time())
    {
      PairReach(s, i + 1, axis, speed);
    }
  }
}
