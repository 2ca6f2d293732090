/** The per-player chat limiter of `Server::HandleChat`. Times are nanoseconds of the steady clock. */
module Chat {
  import opened Types
  import opened Protocol

  const CHAT_WINDOW := 5_000_000_000
  const CHAT_BURST := 6

  predicate Control(c: byte) { c < 0x20 || c == 0x7F }

  predicate Sayable(c: byte) { !Control(c) }

  function StripControl(s: Bytes): Bytes { Filter(s, Sayable) }

  function CutChat(s: Bytes): Bytes { if |s| > MAX_CHAT_BYTES then s[..MAX_CHAT_BYTES] else s }

  /** The only kind of text a player can make the server relay. */
  predicate CleanText(s: Bytes) { 1 <= |s| <= MAX_CHAT_BYTES && forall c | c in s :: !Control(c) }

  /** `std::erase_if` over the cut text. */
  method CleanChat(text: Bytes) returns (out: Bytes)
    ensures out == StripControl(CutChat(text))
  {
    var cut := if |text| > MAX_CHAT_BYTES then text[..MAX_CHAT_BYTES] else text;
    out := [];
    for i := 0 to |cut|
      invariant out == StripControl(cut[..i])
    {
      assert cut[..i + 1][..i] == cut[..i];
      if !(cut[i] < 0x20 || cut[i] == 0x7F) {
        out := out + [cut[i]];
      }
    }
    assert cut[..|cut|] == cut;
  }

  /** The first 512 bytes at most. */
  function Uttered(text: Bytes): Bytes { text[..Min(|text|, MAX_CHAT_BYTES)] }

  /** What is left of a text is its first 512 bytes without exactly the control characters, in order; so a short text
      without any, nothing below a blank and no delete, is left alone. */
  lemma StrippedText(text: Bytes)
    ensures IsPick(Uttered(text), StripControl(CutChat(text)), Sayable)
    ensures var clean := StripControl(CutChat(text));
            forall i | 0 <= i < |clean| :: 0x20 <= clean[i] && clean[i] != 0x7F
    ensures |text| <= 512 && (forall i | 0 <= i < |text| :: 0x20 <= text[i] && text[i] != 0x7F) ==>
              StripControl(CutChat(text)) == text
  {
    hide IsPick, Filter, Control;
    assert Uttered(text) == CutChat(text);
    FilterPicks(CutChat(text), Sayable);
    StrippedBytes(CutChat(text));
  }

  lemma StrippedBytes(s: Bytes)
    ensures forall i | 0 <= i < |StripControl(s)| :: 0x20 <= StripControl(s)[i] && StripControl(s)[i] != 0x7F
    ensures (forall i | 0 <= i < |s| :: 0x20 <= s[i] && s[i] != 0x7F) ==> StripControl(s) == s
  {
    forall i | 0 <= i < |StripControl(s)|
      ensures 0x20 <= StripControl(s)[i] && StripControl(s)[i] != 0x7F
    {
      assert Sayable(StripControl(s)[i]);
    }
    if forall i | 0 <= i < |s| :: 0x20 <= s[i] && s[i] != 0x7F {
      assert forall i | 0 <= i < |s| :: Sayable(s[i]);
      FilterUnchanged(s, Sayable);
    }
  }

  /** `chatWindowStart` and `chatWindowCount`. */
  datatype Limiter = Limiter(start: int, count: u32)

  const FRESH := Limiter(0, 0)

  datatype Outcome =
    | Ignored                // unreadable or empty: not even counted
    | Relayed(text: Bytes)
    | Blank                  // nothing left after stripping
    | Warned                 // the one "Slow down."
    | Dropped

  function ChatStep(l: Limiter, now: int, text: Bytes): (r: (Limiter, Outcome))
    ensures r.1.Relayed? ==> CleanText(r.1.text)
  {
    if text == [] then (l, Ignored)
    else
      var current := if now - l.start >= CHAT_WINDOW then Limiter(now, 0) else l;
      var count := (current.count + 1) % 0x1_0000_0000;
      var next := current.(count := count);
      if count > CHAT_BURST then (next, if count == CHAT_BURST + 1 then Warned else Dropped)
      else
        var clean := StripControl(CutChat(text));
        (next, if clean == [] then Blank else Relayed(clean))
  }

  // ---- whole runs -------------------------------------------------------------------

  datatype Arrival = Arrival(now: int, text: Bytes)
  /** What one arrival led to, and the start of the window it was counted in. */
  datatype Verdict = Verdict(now: int, window: int, outcome: Outcome)

  function ChatRun(l: Limiter, arrivals: seq<Arrival>): (r: (Limiter, seq<Verdict>))
    ensures |r.1| == |arrivals|
  {
    if arrivals == [] then (l, [])
    else
      var a := arrivals[|arrivals| - 1];
      var (l1, vs) := ChatRun(l, arrivals[..|arrivals| - 1]);
      var (l2, o) := ChatStep(l1, a.now, a.text);
      (l2, vs + [Verdict(a.now, l2.start, o)])
  }

  /** The clock starts at its epoch and never runs backwards. */
  ghost predicate Ordered(arrivals: seq<Arrival>) {
    && (forall i | 0 <= i < |arrivals| :: arrivals[i].now >= 0)
    && (forall i, j | 0 <= i < j < |arrivals| :: arrivals[i].now <= arrivals[j].now)
  }

  /** No window is flooded with 2^32 messages, so the 32-bit counter never wraps. */
  ghost predicate NoWrap(l: Limiter, arrivals: seq<Arrival>) {
    arrivals == [] ||
    var before := arrivals[..|arrivals| - 1];
    var l1 := ChatRun(l, before).0;
    NoWrap(l, before) &&
    (l1.count < 0xFFFF_FFFF || arrivals[|arrivals| - 1].now - l1.start >= CHAT_WINDOW)
  }

  function RelayedIn(vs: seq<Verdict>, window: int): nat {
    if vs == [] then 0
    else
      var v := vs[|vs| - 1];
      RelayedIn(vs[..|vs| - 1], window) + (if v.outcome.Relayed? && v.window == window then 1 else 0)
  }

  function WarnedIn(vs: seq<Verdict>, window: int): nat {
    if vs == [] then 0
    else
      var v := vs[|vs| - 1];
      WarnedIn(vs[..|vs| - 1], window) + (if v.outcome.Warned? && v.window == window then 1 else 0)
  }

  /** Messages relayed from time `a` to time `b`, both included. */
  function RelayedBetween(vs: seq<Verdict>, a: int, b: int): nat {
    if vs == [] then 0
    else
      var v := vs[|vs| - 1];
      RelayedBetween(vs[..|vs| - 1], a, b) + (if v.outcome.Relayed? && a <= v.now <= b then 1 else 0)
  }

  function Min(a: int, b: int): int { if a < b then a else b }

  /** How the limiter bounds what happened so far in window `w`. */
  ghost predicate WithinWindow(l: Limiter, vs: seq<Verdict>, w: int) {
    && (w > l.start ==> RelayedIn(vs, w) == 0 && WarnedIn(vs, w) == 0)
    && (w == l.start ==>
          && RelayedIn(vs, w) <= Min(l.count, CHAT_BURST)
          && WarnedIn(vs, w) <= (if l.count > CHAT_BURST then 1 else 0))
    && RelayedIn(vs, w) <= CHAT_BURST && WarnedIn(vs, w) <= 1
  }

  /** What one counted message does to the limiter, as long as the counter does not wrap. */
  lemma StepFacts(l: Limiter, now: int, text: Bytes)
    requires l.count < 0xFFFF_FFFF || now - l.start >= CHAT_WINDOW
    ensures var (l1, o) := ChatStep(l, now, text);
            if o.Ignored? then l1 == l
            else
              && l1 == (if now - l.start >= CHAT_WINDOW then Limiter(now, 1) else Limiter(l.start, l.count + 1))
              && (o.Relayed? ==> l1.count <= CHAT_BURST)
              && (o.Warned? ==> l1.count == CHAT_BURST + 1)
  {}

  lemma RunStep(l: Limiter, arrivals: seq<Arrival>)
    requires arrivals != []
    ensures var a := arrivals[|arrivals| - 1];
            var (l0, vs0) := ChatRun(l, arrivals[..|arrivals| - 1]);
            var (l1, o) := ChatStep(l0, a.now, a.text);
            ChatRun(l, arrivals) == (l1, vs0 + [Verdict(a.now, l1.start, o)])
  {}

  lemma CountsStep(vs: seq<Verdict>, v: Verdict, w: int, a: int, b: int)
    ensures RelayedIn(vs + [v], w) == RelayedIn(vs, w) + if v.outcome.Relayed? && v.window == w then 1 else 0
    ensures WarnedIn(vs + [v], w) == WarnedIn(vs, w) + if v.outcome.Warned? && v.window == w then 1 else 0
    ensures RelayedBetween(vs + [v], a, b) ==
            RelayedBetween(vs, a, b) + if v.outcome.Relayed? && a <= v.now <= b then 1 else 0
  {
    assert (vs + [v])[..|vs|] == vs;
  }

  /** A window relays at most six messages and warns at most once. */
  lemma {:induction false} PerWindow(arrivals: seq<Arrival>, w: int)
    requires Ordered(arrivals) && NoWrap(FRESH, arrivals)
    ensures WithinWindow(ChatRun(FRESH, arrivals).0, ChatRun(FRESH, arrivals).1, w)
    ensures arrivals != [] ==> 0 <= ChatRun(FRESH, arrivals).0.start <= arrivals[|arrivals| - 1].now
  {
    hide ChatStep;
    if arrivals != [] {
      var n := |arrivals| - 1;
      PerWindow(arrivals[..n], w);
      RunStep(FRESH, arrivals);
      var a := arrivals[n];
      var (l0, vs0) := ChatRun(FRESH, arrivals[..n]);
      StepFacts(l0, a.now, a.text);
      var (l, o) := ChatStep(l0, a.now, a.text);
      CountsStep(vs0, Verdict(a.now, l.start, o), w, 0, 0);
    }
  }

  /** Window starts are at least five seconds apart. */
  lemma {:induction false} WindowsApart(arrivals: seq<Arrival>)
    requires Ordered(arrivals)
    ensures forall v | v in ChatRun(FRESH, arrivals).1 :: Apart(v.window, ChatRun(FRESH, arrivals).0.start)
    ensures forall i, j | 0 <= i < j < |arrivals| ::
              Apart(ChatRun(FRESH, arrivals).1[i].window, ChatRun(FRESH, arrivals).1[j].window)
  {
    if arrivals != [] {
      var n := |arrivals| - 1;
      WindowsApart(arrivals[..n]);
      RunStep(FRESH, arrivals);
      var a := arrivals[n];
      var l0 := ChatRun(FRESH, arrivals[..n]).0;
      var l := ChatStep(l0, a.now, a.text).0;
      assert Apart(l0.start, l.start);
    }
  }

  // ---- the law of the limiter -------------------------------------------------------

  /** How many messages were counted in window `w`, whatever became of them. */
  function Counted(vs: seq<Verdict>, w: int): nat {
    if vs == [] then 0
    else
      var v := vs[|vs| - 1];
      Counted(vs[..|vs| - 1], w) + (if !v.outcome.Ignored? && v.window == w then 1 else 0)
  }

  function LastWindow(vs: seq<Verdict>): int { if vs == [] then 0 else vs[|vs| - 1].window }

  lemma CountedStep(vs: seq<Verdict>, v: Verdict, w: int)
    ensures Counted(vs + [v], w) == Counted(vs, w) + (if !v.outcome.Ignored? && v.window == w then 1 else 0)
  {
    assert (vs + [v])[..|vs|] == vs;
  }

  lemma {:induction false} NoneCounted(vs: seq<Verdict>, w: int)
    requires forall v | v in vs :: v.window < w
    ensures Counted(vs, w) == 0
  {
    if vs != [] {
      NoneCounted(vs[..|vs| - 1], w);
    }
  }

  /** The limiter holds the last window and how many messages were counted in it. */
  lemma {:induction false} LimiterByCount(arrivals: seq<Arrival>)
    requires Ordered(arrivals) && NoWrap(FRESH, arrivals)
    ensures var (l, vs) := ChatRun(FRESH, arrivals);
            l.start == LastWindow(vs) && l.count == Counted(vs, LastWindow(vs))
  {
    hide ChatStep, Ordered, NoWrap;
    if arrivals != [] {
      var n, a := |arrivals| - 1, arrivals[|arrivals| - 1];
      FewerArrivals(arrivals);
      LimiterByCount(arrivals[..n]);
      RunStep(FRESH, arrivals);
      WindowsApart(arrivals[..n]);
      var (l0, vs0) := ChatRun(FRESH, arrivals[..n]);
      StepFacts(l0, a.now, a.text);
      var (l, o) := ChatStep(l0, a.now, a.text);
      CountedStep(vs0, Verdict(a.now, l.start, o), l.start);
      if a.now - l0.start >= CHAT_WINDOW {
        NoneCounted(vs0, a.now);
      }
    }
  }

  lemma FewerArrivals(arrivals: seq<Arrival>)
    requires arrivals != [] && Ordered(arrivals) && NoWrap(FRESH, arrivals)
    ensures var n := |arrivals| - 1;
            var l0 := ChatRun(FRESH, arrivals[..n]).0;
            && Ordered(arrivals[..n]) && NoWrap(FRESH, arrivals[..n])
            && (l0.count < 0xFFFF_FFFF || arrivals[n].now - l0.start >= CHAT_WINDOW)
  {
    hide ChatRun;
  }

  /** What becomes of a message is decided by how many came before it in its window, which is the last one unless that
      began five seconds ago or more: the first six are relayed stripped, if anything is left of them, the seventh
      draws the warning, later ones nothing. */
  lemma VerdictByCount(arrivals: seq<Arrival>)
    requires arrivals != [] && Ordered(arrivals) && NoWrap(FRESH, arrivals)
    ensures var a, vs := arrivals[|arrivals| - 1], ChatRun(FRESH, arrivals).1;
            var before, v := vs[..|vs| - 1], vs[|vs| - 1];
            var open := a.now - LastWindow(before) < CHAT_WINDOW;
            var earlier := if open then Counted(before, LastWindow(before)) else 0;
            if a.text == [] then v.outcome == Ignored
            else
              && v.window == (if open then LastWindow(before) else a.now)
              && v.outcome == Answer(StripControl(CutChat(a.text)), earlier)
  {
    hide Ordered, NoWrap, ChatRun, ChatStep, Answer, StripControl, CutChat, LastWindow, Counted;
    var n, a := |arrivals| - 1, arrivals[|arrivals| - 1];
    FewerArrivals(arrivals);
    LimiterByCount(arrivals[..n]);
    RunStep(FRESH, arrivals);
    var (l0, vs0) := ChatRun(FRESH, arrivals[..n]);
    StepAnswers(l0, a.now, a.text);
    var vs := ChatRun(FRESH, arrivals).1;
    assert vs[..|vs| - 1] == vs0;
  }

  lemma StepAnswers(l: Limiter, now: int, text: Bytes)
    requires l.count < 0xFFFF_FFFF || now - l.start >= CHAT_WINDOW
    ensures var (next, o) := ChatStep(l, now, text);
            var open := now - l.start < CHAT_WINDOW;
            if text == [] then o == Ignored
            else
              && next.start == (if open then l.start else now)
              && o == Answer(StripControl(CutChat(text)), if open then l.count else 0)
  {
    hide StripControl, CutChat;
  }

  function Answer(stripped: Bytes, earlier: nat): Outcome {
    if earlier < 6 then if stripped == [] then Blank else Relayed(stripped)
    else if earlier == 6 then Warned
    else Dropped
  }

  /** The same window, or a later one at least five seconds on. */
  predicate Apart(earlier: int, later: int) { earlier == later || earlier + CHAT_WINDOW <= later }

  function CeilDiv(n: nat, d: nat): nat
    requires d > 0
  {
    (n + d - 1) / d
  }

  function IntervalBound(length: nat): nat { CHAT_BURST * (CeilDiv(length, CHAT_WINDOW) + 1) }

  /** `k` windows were opened since the first message relayed after `a`. */
  ghost predicate WindowsSince(l: Limiter, relayed: nat, a: int, k: nat) {
    && relayed <= CHAT_BURST * k + Min(l.count, CHAT_BURST)
    && l.start > a - CHAT_WINDOW + CHAT_WINDOW * k
  }

  lemma RelayedGrowsStep(l0: Limiter, l: Limiter, o: Outcome, now: int, relayed0: nat, relayed: nat, a: int, b: int,
                         k0: nat)
    returns (k: nat)
    requires a <= b && now <= b && l0.start <= now && (now < a ==> relayed0 == 0)
    requires relayed0 == 0 || WindowsSince(l0, relayed0, a, k0)
    requires relayed == relayed0 + if o.Relayed? && a <= now then 1 else 0
    requires o.Ignored? ==> l == l0
    requires !o.Ignored? ==> l == (if now - l0.start >= CHAT_WINDOW then Limiter(now, 1) else l0.(count := l.count))
    requires !o.Ignored? ==> l.count == (if now - l0.start >= CHAT_WINDOW then 1 else l0.count + 1)
    requires o.Relayed? ==> l.count <= CHAT_BURST
    ensures relayed == 0 || WindowsSince(l, relayed, a, k)
    ensures relayed <= IntervalBound(b - a)
  {
    k := if relayed0 == 0 then 0 else if l.start != l0.start then k0 + 1 else k0;
    if relayed > 0 {
      assert WindowsSince(l, relayed, a, k);
      assert l.start <= now <= b;
      assert CHAT_WINDOW * k < b - a + CHAT_WINDOW;
    }
  }

  lemma {:induction false} RelayedGrows(arrivals: seq<Arrival>, a: int, b: int) returns (k: nat)
    requires Ordered(arrivals) && NoWrap(FRESH, arrivals) && a <= b
    ensures RelayedBetween(ChatRun(FRESH, arrivals).1, a, b) <= IntervalBound(b - a)
    ensures arrivals != [] && arrivals[|arrivals| - 1].now < a ==> RelayedBetween(ChatRun(FRESH, arrivals).1, a, b) == 0
    ensures arrivals != [] && arrivals[|arrivals| - 1].now <= b ==>
              RelayedBetween(ChatRun(FRESH, arrivals).1, a, b) == 0
              || WindowsSince(ChatRun(FRESH, arrivals).0, RelayedBetween(ChatRun(FRESH, arrivals).1, a, b), a, k)
  {
    hide ChatStep, IntervalBound;
    k := 0;
    if arrivals == [] {
      assert RelayedBetween([], a, b) == 0;
      BoundIsNatural(b - a);
    } else {
      var n := |arrivals| - 1;
      var k0 := RelayedGrows(arrivals[..n], a, b);
      PerWindow(arrivals[..n], 0);
      RunStep(FRESH, arrivals);
      var last := arrivals[n];
      var (l0, vs0) := ChatRun(FRESH, arrivals[..n]);
      StepFacts(l0, last.now, last.text);
      var (l, o) := ChatStep(l0, last.now, last.text);
      CountsStep(vs0, Verdict(last.now, l.start, o), 0, a, b);
      if last.now <= b {
        k := RelayedGrowsStep(l0, l, o, last.now, RelayedBetween(vs0, a, b),
                              RelayedBetween(ChatRun(FRESH, arrivals).1, a, b), a, b, k0);
      }
    }
  }

  lemma BoundIsNatural(length: nat)
    ensures IntervalBound(length) >= 0
  {}

  /** Any stretch of time relays at most 6 * (ceil(length / 5 s) + 1) messages of one player. */
  lemma RelayedInInterval(arrivals: seq<Arrival>, a: int, b: int)
    requires Ordered(arrivals) && NoWrap(FRESH, arrivals) && a <= b
    ensures RelayedBetween(ChatRun(FRESH, arrivals).1, a, b) <= IntervalBound(b - a)
    ensures b - a == CHAT_WINDOW ==> RelayedBetween(ChatRun(FRESH, arrivals).1, a, b) <= 12
  {
    var _ := RelayedGrows(arrivals, a, b);
  }

  // ---- the bound is attained, and the counter condition is needed --------------------

  const SECOND := 1_000_000_000

  /** One message opens a window at 5 s, five follow at 9 s, six more at 10 s. */
  function TwelveInFiveSeconds(): (r: seq<Arrival>)
    ensures |r| == 12
  {
    seq(12, i => Arrival(if i == 0 then 5 * SECOND else if i < 6 then 9 * SECOND else 10 * SECOND, [0x61]))
  }

  lemma {:induction false} TwelveSoFar(n: nat)
    requires 1 <= n <= 12
    ensures ChatRun(FRESH, TwelveInFiveSeconds()[..n]).0 ==
            if n <= 6 then Limiter(5 * SECOND, n) else Limiter(10 * SECOND, n - 6)
    ensures RelayedBetween(ChatRun(FRESH, TwelveInFiveSeconds()[..n]).1, 5 * SECOND, 10 * SECOND) == n
  {
    hide ChatStep;
    var some := TwelveInFiveSeconds()[..n];
    assert some[..n - 1] == TwelveInFiveSeconds()[..n - 1];
    RunStep(FRESH, some);
    var (l0, vs0) := ChatRun(FRESH, some[..n - 1]);
    if n > 1 {
      TwelveSoFar(n - 1);
    } else {
      assert some[..0] == [];
      assert ChatRun(FRESH, []) == (FRESH, []);
      assert RelayedBetween([], 5 * SECOND, 10 * SECOND) == 0;
    }
    var now := some[n - 1].now;
    assert some[n - 1].text == [0x61];
    OneLetterStep(l0, now);
    var (l, o) := ChatStep(l0, now, [0x61]);
    CountsStep(vs0, Verdict(now, l.start, o), 0, 5 * SECOND, 10 * SECOND);
  }

  lemma OneLetterStep(l: Limiter, now: int)
    requires now - l.start >= CHAT_WINDOW || l.count < CHAT_BURST
    ensures ChatStep(l, now, [0x61]).0 ==
            if now - l.start >= CHAT_WINDOW then Limiter(now, 1) else Limiter(l.start, l.count + 1)
    ensures ChatStep(l, now, [0x61]).1.Relayed?
  {
    assert [0x61][..0] == [];
    assert Filter([], Sayable) == [];
    assert StripControl([0x61]) == [0x61];
  }

  /** "At most 6 messages per 5 seconds" fails for a sliding five-second interval: 12 can pass. */
  lemma SixPerFiveSecondsFails() returns (arrivals: seq<Arrival>, a: int)
    ensures Ordered(arrivals) && NoWrap(FRESH, arrivals)
    ensures RelayedBetween(ChatRun(FRESH, arrivals).1, a, a + CHAT_WINDOW) == 12
  {
    arrivals, a := TwelveInFiveSeconds(), 5 * SECOND;
    NeverWraps(arrivals);
    TwelveSoFar(12);
    assert arrivals[..12] == arrivals;
  }

  /** Messages that arrive in the five seconds from `a` on. */
  ghost predicate During(xs: seq<Arrival>, a: int) {
    Ordered(xs) && forall i | 0 <= i < |xs| :: a <= xs[i].now < a + CHAT_WINDOW
  }

  /** At time `a` the window is used up, has just begun or is over. */
  predicate Settled(l: Limiter, a: int) { l.count >= CHAT_BURST || a <= l.start || a - l.start >= CHAT_WINDOW }

  /** What holds while the messages of those five seconds come in. */
  predicate AtMostOneWindow(l: Limiter, relayed: nat, a: int) {
    (a <= l.start && relayed <= Min(l.count, CHAT_BURST)) || (relayed == 0 && Settled(l, a))
  }

  lemma OneWindowStep(l: Limiter, relayed: nat, a: int, now: int, text: Bytes)
    requires AtMostOneWindow(l, relayed, a) && a <= now < a + CHAT_WINDOW
    requires l.count < 0xFFFF_FFFF || now - l.start >= CHAT_WINDOW
    ensures var (l1, o) := ChatStep(l, now, text);
            AtMostOneWindow(l1, relayed + if o.Relayed? then 1 else 0, a)
  {
    hide ChatStep;
    StepFacts(l, now, text);
  }

  lemma {:induction false} OneWindowRelays(l: Limiter, xs: seq<Arrival>, a: int)
    requires Settled(l, a) && During(xs, a) && NoWrap(l, xs)
    ensures AtMostOneWindow(ChatRun(l, xs).0, RelayedBetween(ChatRun(l, xs).1, a, a + CHAT_WINDOW - 1), a)
  {
    hide ChatStep, Settled, AtMostOneWindow;
    if xs == [] {
      NothingRelayed(l, a);
    } else {
      var n := |xs| - 1;
      OneWindowRelays(l, xs[..n], a);
      RunStep(l, xs);
      var (l0, vs0) := ChatRun(l, xs[..n]);
      var x := xs[n];
      var (l1, o) := ChatStep(l0, x.now, x.text);
      OneWindowStep(l0, RelayedBetween(vs0, a, a + CHAT_WINDOW - 1), a, x.now, x.text);
      CountsStep(vs0, Verdict(x.now, l1.start, o), 0, a, a + CHAT_WINDOW - 1);
    }
  }

  lemma NothingRelayed(l: Limiter, a: int)
    requires Settled(l, a)
    ensures AtMostOneWindow(l, 0, a) && RelayedBetween([], a, a + CHAT_WINDOW - 1) == 0
  {}

  /** One message at `a`, then six as the next window opens. */
  function SevenFrom(l: Limiter, a: int): (r: seq<Arrival>)
    ensures |r| == 7
  {
    seq(7, i => Arrival(if i == 0 then a else l.start + CHAT_WINDOW, [0x61]))
  }

  lemma {:induction false} SevenSoFar(l: Limiter, a: int, n: nat)
    requires !Settled(l, a) && n <= 7
    ensures var xs := SevenFrom(l, a)[..n];
            && ChatRun(l, xs).0 ==
                 (if n == 0 then l
                  else if n == 1 then Limiter(l.start, l.count + 1)
                  else Limiter(l.start + CHAT_WINDOW, n - 1))
            && RelayedBetween(ChatRun(l, xs).1, a, a + CHAT_WINDOW - 1) == n && NoWrap(l, xs)
  {
    hide ChatStep;
    var xs := SevenFrom(l, a)[..n];
    if n == 0 {
      assert xs == [] && ChatRun(l, []) == (l, []) && RelayedBetween([], a, a + CHAT_WINDOW - 1) == 0;
    } else {
      assert xs[..n - 1] == SevenFrom(l, a)[..n - 1];
      SevenSoFar(l, a, n - 1);
      RunStep(l, xs);
      var (l0, vs0) := ChatRun(l, xs[..n - 1]);
      var now := xs[n - 1].now;
      OneLetterStep(l0, now);
      var (l1, o) := ChatStep(l0, now, [0x61]);
      CountsStep(vs0, Verdict(now, l1.start, o), 0, a, a + CHAT_WINDOW - 1);
    }
  }

  /** Exactly when "at most 6 messages per 5 seconds" is kept for the five seconds from `a` on, whatever arrives:
      when at `a` the player's window is used up, has just begun or is over. */
  lemma SixPerFiveSecondsIff(l: Limiter, a: int)
    requires a >= 0
    ensures Settled(l, a) <==>
              forall xs | During(xs, a) && NoWrap(l, xs) ::
                RelayedBetween(ChatRun(l, xs).1, a, a + CHAT_WINDOW - 1) <= CHAT_BURST
  {
    hide ChatStep, NoWrap, ChatRun, RelayedBetween;
    if Settled(l, a) {
      forall xs | During(xs, a) && NoWrap(l, xs)
        ensures RelayedBetween(ChatRun(l, xs).1, a, a + CHAT_WINDOW - 1) <= CHAT_BURST
      {
        OneWindowRelays(l, xs, a);
      }
    } else {
      var xs := SevenFrom(l, a);
      SevenSoFar(l, a, 7);
      assert xs[..7] == xs;
      assert During(xs, a);
    }
  }

  lemma CountsUp(l: Limiter, now: int, text: Bytes)
    ensures ChatStep(l, now, text).0.count <= l.count + 1
  {
    hide StripControl, CutChat;
  }

  /** Fewer than 2^32 arrivals cannot wrap the counter. */
  lemma {:induction false} NeverWraps(arrivals: seq<Arrival>)
    requires |arrivals| < 0x1_0000_0000
    ensures NoWrap(FRESH, arrivals) && ChatRun(FRESH, arrivals).0.count <= |arrivals|
  {
    hide ChatStep;
    if arrivals != [] {
      var n := |arrivals| - 1;
      NeverWraps(arrivals[..n]);
      RunStep(FRESH, arrivals);
      CountsUp(ChatRun(FRESH, arrivals[..n]).0, arrivals[n].now, arrivals[n].text);
    }
  }

  /** A counter at its end relays again. */
  lemma WrappedCounterRelaysAgain(now: int, text: Bytes)
    requires StripControl(CutChat(text)) != []
    ensures ChatStep(Limiter(now, 0xFFFF_FFFF), now, text).1.Relayed?
    ensures ChatStep(Limiter(now, 0xFFFF_FFFF), now, text).0 == Limiter(now, 0)
  {
    assert text != [];
  }

  function Flood(n: nat): (r: seq<Arrival>)
    ensures |r| == n
  {
    seq(n, i => Arrival(5 * SECOND, [0x61]))
  }

  lemma OneLetterDrops(l: Limiter, now: int)
    requires now - l.start < CHAT_WINDOW && CHAT_BURST <= l.count < 0xFFFF_FFFF
    ensures ChatStep(l, now, [0x61]).0 == Limiter(l.start, l.count + 1) && !ChatStep(l, now, [0x61]).1.Relayed?
  {}

  /** How the `n`-th message of the flood finds and leaves the limiter. */
  function FloodLimiter(n: nat): Limiter { if n == 0 then FRESH else Limiter(5 * SECOND, n % 0x1_0000_0000) }
  function FloodRelayed(n: nat): nat { if n == 0x1_0000_0000 then 7 else if n < CHAT_BURST then n else CHAT_BURST }

  lemma FloodStep(n: nat)
    requires 1 <= n <= 0x1_0000_0000
    ensures var (l, o) := ChatStep(FloodLimiter(n - 1), 5 * SECOND, [0x61]);
            l == FloodLimiter(n) && FloodRelayed(n) == FloodRelayed(n - 1) + if o.Relayed? then 1 else 0
  {
    hide ChatStep;
    var l0 := FloodLimiter(n - 1);
    if n == 0x1_0000_0000 {
      OneLetterLeft();
      WrappedCounterRelaysAgain(5 * SECOND, [0x61]);
    } else if n <= 6 {
      OneLetterStep(l0, 5 * SECOND);
    } else {
      OneLetterDrops(l0, 5 * SECOND);
    }
  }

  lemma {:induction false} FloodSoFar(n: nat)
    requires n <= 0x1_0000_0000
    ensures ChatRun(FRESH, Flood(n)).0 == FloodLimiter(n)
    ensures RelayedBetween(ChatRun(FRESH, Flood(n)).1, 5 * SECOND, 5 * SECOND) == FloodRelayed(n)
  {
    hide ChatStep, FloodLimiter, FloodRelayed, ChatRun, RelayedBetween;
    if n == 0 {
      NoFlood();
    } else {
      assert Flood(n)[..n - 1] == Flood(n - 1);
      FloodSoFar(n - 1);
      RunStep(FRESH, Flood(n));
      FloodStep(n);
      var (l0, vs0) := ChatRun(FRESH, Flood(n - 1));
      var (l, o) := ChatStep(l0, 5 * SECOND, [0x61]);
      CountsStep(vs0, Verdict(5 * SECOND, l.start, o), 0, 5 * SECOND, 5 * SECOND);
    }
  }

  lemma NoFlood()
    ensures ChatRun(FRESH, Flood(0)) == (FRESH, []) && FloodLimiter(0) == FRESH && FloodRelayed(0) == 0
    ensures RelayedBetween([], 5 * SECOND, 5 * SECOND) == 0
  {}

  lemma OneLetterLeft()
    ensures StripControl(CutChat([0x61])) != []
  {
    assert [0x61][..0] == [];
    assert Filter([], Sayable) == [];
  }

  /** The condition on the counter is needed: 2^32 messages at one moment get one more than the bound relayed. */
  lemma FloodBeatsBound() returns (arrivals: seq<Arrival>, a: int)
    ensures Ordered(arrivals) && RelayedBetween(ChatRun(FRESH, arrivals).1, a, a) > IntervalBound(0)
  {
    arrivals, a := Flood(0x1_0000_0000), 5 * SECOND;
    FloodSoFar(0x1_0000_0000);
  }
}
