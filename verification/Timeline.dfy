/** From wire stamps to the snapshot buffer and the render clock of `RemotePlayers`. */
module Timeline {
  import opened Types
  import opened Interp
  import opened Sampling

  const MAX_SNAPSHOTS := 64
  const SNAPSHOT_KEEP_MS := 1500.0

  // ---- accepting and storing --------------------------------------------------------

  predicate Stale(s: seq<TimedState>, timeMs: int) { s != [] && timeMs <= s[|s| - 1].timeMs }

  /** The unbounded history the buffer stands for. */
  function Accepted(h: seq<TimedState>, x: TimedState): seq<TimedState> {
    if Stale(h, x.timeMs) then h else h + [x]
  }

  function Capped(s: seq<TimedState>): seq<TimedState> {
    if |s| > MAX_SNAPSHOTS then s[|s| - MAX_SNAPSHOTS..] else s
  }

  function Stored(buffer: seq<TimedState>, x: TimedState): seq<TimedState> {
    if Stale(buffer, x.timeMs) then buffer else Capped(buffer + [x])
  }

  predicate Droppable(s: seq<TimedState>, drop: nat, renderMs: real) {
    |s| - drop > 2 && s[drop + 1].Time() + SNAPSHOT_KEEP_MS < renderMs
  }

  /** How far the pruning loop gets from `drop` on. */
  function DropCount(s: seq<TimedState>, drop: nat, renderMs: real): (r: nat)
    requires drop <= |s|
    ensures drop <= r <= |s| && !Droppable(s, r, renderMs)
    ensures r > drop ==> r + 2 <= |s| && s[r].Time() + SNAPSHOT_KEEP_MS < renderMs
    decreases |s| - drop
  {
    if Droppable(s, drop, renderMs) then DropCount(s, drop + 1, renderMs) else drop
  }

  function Pruned(s: seq<TimedState>, renderMs: real): (r: seq<TimedState>)
    ensures s != [] ==> r != [] && r[|r| - 1] == s[|s| - 1]
  {
    s[DropCount(s, 0, renderMs)..]
  }

  method Prune(s: seq<TimedState>, renderMs: real) returns (r: seq<TimedState>)
    ensures r == Pruned(s, renderMs)
  {
    var drop := 0;
    while |s| - drop > 2 && s[drop + 1].Time() + SNAPSHOT_KEEP_MS < renderMs
      invariant drop <= |s| && DropCount(s, drop, renderMs) == DropCount(s, 0, renderMs)
    {
      drop := drop + 1;
    }
    r := s[drop..];
  }

  // ---- the bounded buffer refines the history ---------------------------------------

  datatype Happening = Arrive(x: TimedState) | Frame(renderMs: real)

  function History(hs: seq<Happening>): seq<TimedState> {
    if hs == [] then []
    else
      var h := History(hs[..|hs| - 1]);
      match hs[|hs| - 1]
      case Arrive(x) => Accepted(h, x)
      case Frame(_) => h
  }

  function Buffer(hs: seq<Happening>): seq<TimedState> {
    if hs == [] then []
    else
      var b := Buffer(hs[..|hs| - 1]);
      match hs[|hs| - 1]
      case Arrive(x) => Stored(b, x)
      case Frame(renderMs) => Pruned(b, renderMs)
  }

  /** A suffix of the history with at least its last two entries, within the bound. */
  ghost predicate Refines(buffer: seq<TimedState>, h: seq<TimedState>) {
    && |buffer| <= |h| && buffer == h[|h| - |buffer|..]
    && (|buffer| >= 2 || |buffer| == |h|)
    && |buffer| <= MAX_SNAPSHOTS
    && Increasing(h)
  }

  lemma StoredRefines(buffer: seq<TimedState>, h: seq<TimedState>, x: TimedState)
    requires Refines(buffer, h)
    ensures Refines(Stored(buffer, x), Accepted(h, x))
  {
    hide Increasing, Capped, Stale;
    SameLast(buffer, h, x.timeMs);
    if !Stale(h, x.timeMs) {
      CappedSuffix(buffer, h, x);
      CappedLength(buffer + [x]);
      StillIncreasing(h, x);
    }
  }

  lemma SameLast(buffer: seq<TimedState>, h: seq<TimedState>, timeMs: int)
    requires |buffer| <= |h| && buffer == h[|h| - |buffer|..] && (|buffer| >= 2 || |buffer| == |h|)
    ensures Stale(buffer, timeMs) == Stale(h, timeMs)
  {}

  lemma CappedLength(s: seq<TimedState>)
    ensures |Capped(s)| == if |s| > MAX_SNAPSHOTS then MAX_SNAPSHOTS else |s|
  {}

  lemma CappedSuffix(buffer: seq<TimedState>, h: seq<TimedState>, x: TimedState)
    requires |buffer| <= |h| && buffer == h[|h| - |buffer|..] && |buffer| <= MAX_SNAPSHOTS
    ensures var h1, b1 := h + [x], Capped(buffer + [x]);
            |b1| <= |h1| && b1 == h1[|h1| - |b1|..]
  {
    var h1, b1 := h + [x], buffer + [x];
    assert b1 == h1[|h1| - |b1|..];
    if |b1| > MAX_SNAPSHOTS {
      assert b1[|b1| - MAX_SNAPSHOTS..] == h1[|h1| - MAX_SNAPSHOTS..];
    }
  }

  lemma StillIncreasing(h: seq<TimedState>, x: TimedState)
    requires Increasing(h) && !Stale(h, x.timeMs)
    ensures Increasing(h + [x])
  {}

  lemma PrunedRefines(buffer: seq<TimedState>, h: seq<TimedState>, renderMs: real)
    requires Refines(buffer, h)
    ensures Refines(Pruned(buffer, renderMs), h)
  {
    hide Increasing, Droppable;
    var drop := DropCount(buffer, 0, renderMs);
    assert buffer[drop..] == h[|h| - |buffer| + drop..];
  }

  lemma {:induction false} BufferRefines(hs: seq<Happening>)
    ensures Refines(Buffer(hs), History(hs))
  {
    hide Refines, Stored, Pruned, Accepted;
    if hs == [] {
      NothingRefines();
    } else {
      BufferRefines(hs[..|hs| - 1]);
      match hs[|hs| - 1] {
        case Arrive(x) => StoredRefines(Buffer(hs[..|hs| - 1]), History(hs[..|hs| - 1]), x);
        case Frame(renderMs) => PrunedRefines(Buffer(hs[..|hs| - 1]), History(hs[..|hs| - 1]), renderMs);
      }
    }
  }

  lemma NothingRefines()
    ensures Refines([], [])
  {}

  function Arrivals(xs: seq<TimedState>): (hs: seq<Happening>)
    ensures |hs| == |xs|
  {
    seq(|xs|, i requires 0 <= i < |xs| => Arrive(xs[i]))
  }

  /** Only frames and the bound make the buffer forget: without a frame it grows by whatever is accepted until it
      holds 64 snapshots, and stays at 64. */
  lemma {:induction false} ArrivalsFillUp(hs: seq<Happening>, xs: seq<TimedState>)
    ensures var all := hs + Arrivals(xs);
            && |History(hs)| <= |History(all)|
            && var grown := |Buffer(hs)| + |History(all)| - |History(hs)|;
               |Buffer(all)| == if grown <= 64 then grown else 64
  {
    hide Stored, Accepted, Refines;
    BufferRefines(hs);
    BufferBounded(hs);
    if xs == [] {
      assert hs + Arrivals(xs) == hs;
    } else {
      var n := |xs| - 1;
      var all, before := hs + Arrivals(xs), hs + Arrivals(xs[..n]);
      assert all[..|all| - 1] == before && all[|all| - 1] == Arrive(xs[n]);
      ArrivalsFillUp(hs, xs[..n]);
      BufferRefines(before);
      StoredFillsUp(Buffer(before), History(before), xs[n]);
    }
  }

  lemma BufferBounded(hs: seq<Happening>)
    ensures |Buffer(hs)| <= 64
  {
    hide Buffer, History;
    BufferRefines(hs);
  }

  lemma StoredFillsUp(buffer: seq<TimedState>, h: seq<TimedState>, x: TimedState)
    requires Refines(buffer, h)
    ensures |Stored(buffer, x)| ==
              if |Accepted(h, x)| == |h| then |buffer| else if |buffer| < 64 then |buffer| + 1 else 64
    ensures |h| <= |Accepted(h, x)| <= |h| + 1
  {
    hide Increasing, Stale;
    SameLast(buffer, h, x.timeMs);
  }

  /** After any arrivals and frames, the buffer samples like the whole history at every time strictly
      after its own oldest snapshot. */
  lemma BufferSamplesLikeHistory(hs: seq<Happening>, renderMs: real)
    requires Buffer(hs) != [] && renderMs > Buffer(hs)[0].Time()
    ensures History(hs) != [] && Sample(Buffer(hs), renderMs) == Sample(History(hs), renderMs)
  {
    hide Sample, Buffer, History;
    BufferRefines(hs);
    SuffixSamples(Buffer(hs), History(hs), renderMs);
  }

  lemma SuffixSamples(buffer: seq<TimedState>, h: seq<TimedState>, renderMs: real)
    requires Refines(buffer, h) && buffer != [] && renderMs > buffer[0].Time()
    ensures h != [] && Sample(buffer, renderMs) == Sample(h, renderMs)
  {
    hide Sample;
    if |buffer| == |h| {
      assert buffer == h;
    } else {
      DropMany(h, |h| - |buffer|, renderMs);
    }
  }

  /** A prune changes no sample less than `SNAPSHOT_KEEP_MS` before its render time, nor any later one. */
  lemma PruneKeepsSamples(s: seq<TimedState>, renderMs: real, at: real)
    requires Increasing(s) && s != [] && at >= renderMs - SNAPSHOT_KEEP_MS
    ensures Pruned(s, renderMs) != [] && Sample(Pruned(s, renderMs), at) == Sample(s, at)
  {
    hide Sample;
    var drop := DropCount(s, 0, renderMs);
    if drop == 0 {
      assert s[0..] == s;
    } else {
      DropMany(s, drop, at);
    }
  }

  /** Right after a frame the buffer holds no more than it must: two snapshots, or a second one that is recent. */
  lemma FramesForget(hs: seq<Happening>)
    requires hs != [] && hs[|hs| - 1].Frame?
    ensures var b, renderMs := Buffer(hs), hs[|hs| - 1].renderMs;
            |b| <= 2 || b[1].Time() + SNAPSHOT_KEEP_MS >= renderMs
  {
    hide Stored, Pruned;
    BufferRefines(hs[..|hs| - 1]);
    SuffixIncreasing(Buffer(hs[..|hs| - 1]), History(hs[..|hs| - 1]));
    PruneIsTight(Buffer(hs[..|hs| - 1]), hs[|hs| - 1].renderMs);
  }

  lemma SuffixIncreasing(buffer: seq<TimedState>, h: seq<TimedState>)
    requires Refines(buffer, h)
    ensures Increasing(buffer)
  {}

  /** A prune keeps no more than it must: at most two snapshots, or a second one within `SNAPSHOT_KEEP_MS`; and
      it only drops what is followed by a snapshot older than that. */
  lemma PruneIsTight(s: seq<TimedState>, renderMs: real)
    requires Increasing(s)
    ensures var r := Pruned(s, renderMs);
            && |r| <= |s| && r == s[|s| - |r|..] && (|r| <= 2 || r[1].Time() + SNAPSHOT_KEEP_MS >= renderMs)
            && forall j | 0 < j <= |s| - |r| :: s[j].Time() + SNAPSHOT_KEEP_MS < renderMs
  {
    var drop := DropCount(s, 0, renderMs);
    assert forall j | 0 < j <= drop :: s[j].timeMs <= s[drop].timeMs;
  }

  // ---- which snapshots are accepted -------------------------------------------------

  function AcceptAll(arrivals: seq<TimedState>): seq<TimedState> {
    if arrivals == [] then [] else Accepted(AcceptAll(arrivals[..|arrivals| - 1]), arrivals[|arrivals| - 1])
  }

  ghost predicate NewMaximum(before: seq<TimedState>, x: TimedState) { forall y | y in before :: y.timeMs < x.timeMs }

  /** The arrivals later than everything before them. */
  ghost function Maxima(arrivals: seq<TimedState>): seq<TimedState> {
    if arrivals == [] then []
    else
      var before, x := arrivals[..|arrivals| - 1], arrivals[|arrivals| - 1];
      Maxima(before) + if NewMaximum(before, x) then [x] else []
  }

  lemma {:induction false} AcceptedAreMaxima(arrivals: seq<TimedState>)
    ensures AcceptAll(arrivals) == Maxima(arrivals) && Increasing(Maxima(arrivals))
    ensures arrivals != [] ==> Maxima(arrivals) != [] && Maxima(arrivals)[|Maxima(arrivals)| - 1] in arrivals
    ensures arrivals != [] ==> forall y | y in arrivals :: y.timeMs <= Maxima(arrivals)[|Maxima(arrivals)| - 1].timeMs
  {
    hide Increasing, Accepted, Stale, NewMaximum;
    if arrivals == [] {
      NoneIncreasing();
    } else {
      var before, x := arrivals[..|arrivals| - 1], arrivals[|arrivals| - 1];
      AcceptedAreMaxima(before);
      assert arrivals == before + [x];
      StaleIff(before, Maxima(before), x);
      if !Stale(Maxima(before), x.timeMs) {
        StillIncreasing(Maxima(before), x);
      }
    }
  }

  lemma NoneIncreasing()
    ensures Increasing([])
  {}

  /** Stale is what does not come after everything before. */
  lemma StaleIff(before: seq<TimedState>, h: seq<TimedState>, x: TimedState)
    requires before == [] <==> h == []
    requires before != [] ==> h[|h| - 1] in before && forall y | y in before :: y.timeMs <= h[|h| - 1].timeMs
    ensures Stale(h, x.timeMs) <==> !NewMaximum(before, x)
    ensures Accepted(h, x) == if NewMaximum(before, x) then h + [x] else h
    ensures !NewMaximum(before, x) ==> h != [] && x.timeMs <= h[|h| - 1].timeMs
    ensures NewMaximum(before, x) ==> forall y | y in before :: y.timeMs <= x.timeMs
  {}

  // ---- from the wire to the timeline, all players on one clock ----------------------

  /** A state update as it arrives: whose, and when the server really sent it. */
  datatype Update = Update(id: PlayerId, sent: int, state: RealState)

  function SendTimes(us: seq<Update>): (r: seq<int>)
    ensures |r| == |us| && forall i | 0 <= i < |us| :: r[i] == us[i].sent
  {
    seq(|us|, i requires 0 <= i < |us| => us[i].sent)
  }

  function Lookup(m: map<PlayerId, seq<TimedState>>, id: PlayerId): seq<TimedState> { if id in m then m[id] else [] }

  /** The shared clock and every player's accepted snapshots after some updates, from stamps alone. */
  function Receive(us: seq<Update>): (ClockState, map<PlayerId, seq<TimedState>>) {
    if us == [] then (UNSET, map[])
    else
      var (c, m) := Receive(us[..|us| - 1]);
      var u := us[|us| - 1];
      var c1 := Unwrapped(c, Stamp(u.sent));
      (c1, m[u.id := Accepted(Lookup(m, u.id), TimedState(u.state, c1.now))])
  }

  /** One player's updates at their true times, shifted by a constant. */
  function Own(us: seq<Update>, id: PlayerId, shift: int): seq<TimedState> {
    if us == [] then []
    else
      var u := us[|us| - 1];
      Own(us[..|us| - 1], id, shift) + if u.id == id then [TimedState(u.state, u.sent + shift)] else []
  }

  lemma {:induction false} ReceiveClock(us: seq<Update>)
    ensures Receive(us).0 == UnwrapAll(Stamps(SendTimes(us))).0
  {
    hide Unwrapped, Stamp, Accepted;
    if us != [] {
      var n := |us| - 1;
      ReceiveClock(us[..n]);
      assert SendTimes(us)[..n] == SendTimes(us[..n]);
      assert Stamps(SendTimes(us))[..n] == Stamps(SendTimes(us)[..n]);
    }
  }

  lemma ReceiveOne(us: seq<Update>, id: PlayerId)
    requires us != []
    ensures var n, u := |us| - 1, us[|us| - 1];
            var before, after := Lookup(Receive(us[..n]).1, id), Lookup(Receive(us).1, id);
            after == if u.id == id then Accepted(before, TimedState(u.state, Receive(us).0.now)) else before
  {
    hide Unwrapped, Stamp, Accepted;
  }

  lemma OwnOne(us: seq<Update>, id: PlayerId, shift: int)
    requires us != []
    ensures var n, u := |us| - 1, us[|us| - 1];
            AcceptAll(Own(us, id, shift)) ==
            if u.id == id then Accepted(AcceptAll(Own(us[..n], id, shift)), TimedState(u.state, u.sent + shift))
            else AcceptAll(Own(us[..n], id, shift))
  {
    hide Accepted;
    var mine := Own(us, id, shift);
    if us[|us| - 1].id == id {
      assert mine[..|mine| - 1] == Own(us[..|us| - 1], id, shift);
    } else {
      assert mine == Own(us[..|us| - 1], id, shift);
    }
  }

  lemma SharedShift(us: seq<Update>)
    requires us != [] && SmallSteps(SendTimes(us))
    ensures Receive(us).0.now == us[|us| - 1].sent + Offset(us[0].sent)
    ensures Offset(us[0].sent) % 0x1_0000_0000 == 0
  {
    hide Unwrapped, Stamp, Offset, Receive, UnwrapAll, SmallSteps;
    ReceiveClock(us);
    UnwrapRecovers(SendTimes(us));
  }

  lemma FewerSmallSteps(us: seq<Update>)
    requires |us| > 1 && SmallSteps(SendTimes(us))
    ensures SmallSteps(SendTimes(us[..|us| - 1]))
  {}

  /** With send times whose neighbours differ by less than 2^31 ms, each player's snapshots are exactly the
      strict running maxima of that player's true send times, moved by one constant for everyone. */
  lemma {:induction false} WireToTimeline(us: seq<Update>, id: PlayerId)
    requires us != [] && SmallSteps(SendTimes(us))
    ensures Lookup(Receive(us).1, id) == AcceptAll(Own(us, id, Offset(us[0].sent)))
    ensures Lookup(Receive(us).1, id) == Maxima(Own(us, id, Offset(us[0].sent)))
    ensures Increasing(Lookup(Receive(us).1, id)) && Offset(us[0].sent) % 0x1_0000_0000 == 0
  {
    hide Unwrapped, Stamp, Accepted, Offset, SmallSteps, Receive, Own, AcceptAll, Maxima, Lookup, Increasing;
    var n, shift := |us| - 1, Offset(us[0].sent);
    if n > 0 {
      FewerSmallSteps(us);
      assert us[..n][0] == us[0];
      WireToTimeline(us[..n], id);
    } else {
      assert us[..n] == [];
      NothingReceived(id, shift);
    }
    SharedShift(us);
    ReceiveOne(us, id);
    OwnOne(us, id, shift);
    AcceptedAreMaxima(Own(us, id, shift));
  }

  lemma NothingReceived(id: PlayerId, shift: int)
    ensures Lookup(Receive([]).1, id) == AcceptAll(Own([], id, shift))
  {}

  // ---- the clock offset -------------------------------------------------------------

  /** `_hasOffset` and `_offsetMs` after one more sample of local minus server time. */
  function Filtered(offset: Option<real>, sample: real): real {
    match offset
    case None => sample
    case Some(v) => if sample < v then sample else v + (sample - v) * 0.02
  }

  function FilterAll(start: Option<real>, samples: seq<real>): Option<real> {
    if samples == [] then start
    else Some(Filtered(FilterAll(start, samples[..|samples| - 1]), samples[|samples| - 1]))
  }

  /** The offset never falls below all samples and never exceeds the latest. */
  lemma {:induction false} OffsetBetween(samples: seq<real>, least: real)
    requires samples != [] && forall x | x in samples :: least <= x
    ensures FilterAll(None, samples).Some?
    ensures least <= FilterAll(None, samples).value <= samples[|samples| - 1]
  {
    var n := |samples| - 1;
    assert samples[n] in samples;
    if n > 0 {
      assert forall x | x in samples[..n] :: x in samples;
      OffsetBetween(samples[..n], least);
    } else {
      assert FilterAll(None, samples[..n]) == None;
    }
  }

  function Power98(k: nat): (p: real)
    ensures 0.0 < p <= 1.0
  {
    if k == 0 then 1.0 else 0.98 * Power98(k - 1)
  }

  /** What `k` samples between `m` and `most` can do to an offset of at most `m`. */
  function DriftBound(m: real, most: real, k: nat): real { m + (1.0 - Power98(k)) * (most - m) }

  lemma NotNegative(a: real, b: real)
    requires a >= 0.0 && b >= 0.0
    ensures a * b >= 0.0
  {}

  lemma DriftStep(m: real, most: real, k: nat, v: real, x: real)
    requires v <= DriftBound(m, most, k) && m <= x <= most
    ensures Filtered(Some(v), x) <= DriftBound(m, most, k + 1)
  {
    var p, d := Power98(k), most - m;
    NotNegative(p, d);
    assert DriftBound(m, most, k) == m + d - p * d;
    assert DriftBound(m, most, k + 1) == m + d - 0.98 * (p * d);
  }

  /** After a packet with sample `m`, `k` later samples in `[m, most]` keep the offset at or above where
      that packet left it and within `m + (1 - 0.98^k)(most - m)`. */
  lemma {:induction false} OffsetDrift(v: real, m: real, most: real, later: seq<real>)
    requires v <= m && forall x | x in later :: m <= x <= most
    ensures FilterAll(Some(v), later).Some?
    ensures v <= FilterAll(Some(v), later).value <= DriftBound(m, most, |later|)
  {
    hide DriftBound;
    if later == [] {
      DriftStart(m, most);
    } else {
      var n := |later| - 1;
      assert later[n] in later;
      assert forall x | x in later[..n] :: x in later;
      OffsetDrift(v, m, most, later[..n]);
      DriftStep(m, most, n, FilterAll(Some(v), later[..n]).value, later[n]);
    }
  }

  lemma DriftStart(m: real, most: real)
    ensures DriftBound(m, most, 0) == m
  {}

  /** Where `k` samples of `m` bring an offset of `v`. */
  function RiseBound(v: real, m: real, k: nat): real { m - Power98(k) * (m - v) }

  lemma RiseStep(v: real, m: real, k: nat, r: real, x: real)
    requires v <= m <= x && r >= RiseBound(v, m, k)
    ensures Filtered(Some(r), x) >= RiseBound(v, m, k + 1)
    ensures r == RiseBound(v, m, k) && x == m ==> Filtered(Some(r), x) == RiseBound(v, m, k + 1)
  {
    var p, d := Power98(k), m - v;
    NotNegative(p, d);
    assert RiseBound(v, m, k) == m - p * d;
    assert RiseBound(v, m, k + 1) == m - 0.98 * (p * d);
  }

  /** The offset also comes back up: `k` samples that are all at least `m` bring it to `m - 0.98^k (m - v)` or
      higher, and exactly there if they all are `m`. */
  lemma {:induction false} OffsetRises(v: real, m: real, later: seq<real>)
    requires v <= m && forall x | x in later :: m <= x
    ensures FilterAll(Some(v), later).Some?
    ensures FilterAll(Some(v), later).value >= RiseBound(v, m, |later|)
    ensures (forall x | x in later :: x == m) ==> FilterAll(Some(v), later).value == RiseBound(v, m, |later|)
  {
    hide RiseBound;
    if later == [] {
      RiseStart(v, m);
    } else {
      var n := |later| - 1;
      assert later[n] in later;
      assert forall x | x in later[..n] :: x in later;
      OffsetRises(v, m, later[..n]);
      RiseStep(v, m, n, FilterAll(Some(v), later[..n]).value, later[n]);
    }
  }

  lemma RiseStart(v: real, m: real)
    ensures RiseBound(v, m, 0) == v
  {}

  lemma {:induction false} FilterOn(start: Option<real>, before: seq<real>, later: seq<real>)
    ensures FilterAll(start, before + later) == FilterAll(FilterAll(start, before), later)
  {
    hide Filtered;
    if later == [] {
      assert before + later == before;
    } else {
      var n := |later| - 1;
      assert (before + later)[..|before + later| - 1] == before + later[..n];
      FilterOn(start, before, later[..n]);
    }
  }

  /** A packet whose sample is the first, or not above the offset, sets the offset to that sample. */
  lemma PacketSetsOffset(offset: Option<real>, m: real)
    ensures Filtered(offset, m) <= m
    ensures Filtered(offset, m) == m <==> offset.None? || m <= offset.value
  {}

  /** The lower end `m` of the range is kept by whatever follows if and only if that packet set the offset. */
  lemma OffsetStaysAboveIff(offset: Option<real>, m: real, most: real)
    requires m <= most
    ensures (offset.None? || m <= offset.value) <==>
              forall later: seq<real> | (forall x | x in later :: m <= x <= most) ::
                FilterAll(Some(Filtered(offset, m)), later) != None &&
                  m <= FilterAll(Some(Filtered(offset, m)), later).value
  {
    hide FilterAll, DriftBound, Filtered;
    PacketSetsOffset(offset, m);
    var v := Filtered(offset, m);
    if v == m {
      forall later: seq<real> | forall x | x in later :: m <= x <= most
        ensures FilterAll(Some(v), later) != None && m <= FilterAll(Some(v), later).value
      {
        OffsetDrift(v, m, most, later);
      }
    } else {
      NothingLater(v);
      FilteredBelow(offset, m);
      assert forall x | x in [] :: m <= x <= most;
    }
  }

  lemma NothingLater(v: real)
    ensures FilterAll(Some(v), []) == Some(v)
  {}

  lemma FilteredBelow(offset: Option<real>, m: real)
    requires offset.Some? && offset.value < m
    ensures Filtered(offset, m) < m
  {}

  /** A packet: when it arrived by the local clock, and how long it was under way. */
  datatype Transit = Transit(local: real, underway: real)

  function SampleOf(t: Transit, skew: real): real { t.local - (t.local - skew - t.underway) }

  function Samples(ts: seq<Transit>, skew: real): (r: seq<real>)
    ensures |r| == |ts| && forall i | 0 <= i < |ts| :: r[i] == skew + ts[i].underway
  {
    seq(|ts|, i requires 0 <= i < |ts| => SampleOf(ts[i], skew))
  }

  /** With non-negative transit, at any local time from the latest packet on, `LocalMs - offset` lies between
      the stamp of that packet and the true server time, which is `now - skew`. */
  lemma ServerTimeSandwiched(ts: seq<Transit>, skew: real, now: real)
    requires ts != [] && forall t | t in ts :: t.underway >= 0.0
    requires now >= ts[|ts| - 1].local
    ensures var last := ts[|ts| - 1];
            FilterAll(None, Samples(ts, skew)).Some? &&
            last.local - skew - last.underway <= now - FilterAll(None, Samples(ts, skew)).value <= now - skew
  {
    forall x | x in Samples(ts, skew)
      ensures skew <= x
    {
      var i :| 0 <= i < |ts| && Samples(ts, skew)[i] == x;
      assert ts[i] in ts;
    }
    OffsetBetween(Samples(ts, skew), skew);
  }
}
