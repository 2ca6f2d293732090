/** When exactly the prologue skip moves on and what it then does, told by what the frames so far have shown. */
module PrologueHistory {
  import opened PrologueModel

  function TimeOf(e: Event): real {
    match e
    case GameStarted(now) => now
    case Frame(seen) => seen.now
    case _ => 0.0
  }

  /** The last event brought the machine into the state it is in. */
  predicate Enters(cfg: Settings, es: seq<Event>)
    requires es != []
  {
    es[|es| - 1].GameStarted? || Run(cfg, es).state != Run(cfg, es[..|es| - 1]).state
  }

  /** When the present state was entered. */
  function Entered(cfg: Settings, es: seq<Event>): real {
    if es == [] then 0.0
    else if Enters(cfg, es) then TimeOf(es[|es| - 1]) else Entered(cfg, es[..|es| - 1])
  }

  /** The frames since then. */
  function Visit(cfg: Settings, es: seq<Event>): seq<Seen> {
    if es == [] || Enters(cfg, es) then []
    else
      var before := Visit(cfg, es[..|es| - 1]);
      if es[|es| - 1].Frame? then before + [es[|es| - 1].seen] else before
  }

  /** The answer given since then, or -1. */
  function Answer(cfg: Settings, es: seq<Event>): int {
    if es == [] then -1
    else if es[|es| - 1].Answered? then es[|es| - 1].button
    else if Enters(cfg, es) then -1 else Answer(cfg, es[..|es| - 1])
  }

  /** Until when nothing may be done: since then, three seconds after a change of sex, or as long as a wait says. */
  function HeldUntil(cfg: Settings, es: seq<Event>): real {
    if es == [] then 0.0
    else if Enters(cfg, es) then TimeOf(es[|es| - 1])
    else
      var before, tr := es[..|es| - 1], Run(cfg, es).trace;
      if |tr| <= |Run(cfg, before).trace| then HeldUntil(cfg, before)
      else
        match tr[|tr| - 1]
        case ChangeSex => TimeOf(es[|es| - 1]) + 3.0
        case Consume(i) =>
          if i < |cfg.commands| && cfg.commands[i].Wait? then TimeOf(es[|es| - 1]) + cfg.commands[i].seconds
          else HeldUntil(cfg, before)
        case _ => HeldUntil(cfg, before)
  }

  /** The player is in the world and the quest has started, or should have. */
  predicate Started(seen: Seen, armed: real) { seen.placed && (seen.mq101 >= 10 || seen.now - armed >= 45.0) }

  /** When that was seen first; 0 if never. */
  function StartOf(armed: real, visit: seq<Seen>): real {
    if visit == [] then 0.0
    else
      var n := |visit| - 1;
      var sofar := StartOf(armed, visit[..n]);
      if sofar == 0.0 && Started(visit[n], armed) then visit[n].now else sofar
  }

  /** What the frames so far come to: when the present state was entered, what has been seen in it, the answer, and
      until when nothing may be done. */
  datatype Past = Past(entered: real, visit: seq<Seen>, answer: int, held: real)

  function PastOf(cfg: Settings, es: seq<Event>): Past {
    Past(Entered(cfg, es), Visit(cfg, es), Answer(cfg, es), HeldUntil(cfg, es))
  }

  /** Every variable of the machine is what the history says. */
  ghost predicate Told(cfg: Settings, es: seq<Event>) { Recalls(cfg, Run(cfg, es), PastOf(cfg, es)) }

  ghost predicate Recalls(cfg: Settings, s: Skip, past: Past) {
    match s.state
    case Idle => true
    case Done => true
    case Armed => s.armedAt == past.entered && s.questStartedAt == StartOf(past.entered, past.visit)
    case SexChoice => s.stateSince == past.entered && s.waitUntil == past.held && s.choice == past.answer
    case Running => s.waitUntil == past.held
    case WaitForPod => s.stateSince == past.entered && cfg.chargen
    case FaceMenu => s.stateSince == past.entered && (s.faceMenuSeen <==> exists v :: v in past.visit && v.looksOpen)
    case SpecialMenu =>
      s.stateSince == past.entered && (s.specialMenuSeen <==> exists v :: v in past.visit && v.specialOpen)
  }

  /** The commands from `i` on and before `j`, consumed. */
  function Consumed(i: nat, j: nat): (r: seq<Action>)
    requires i <= j
    ensures |r| == j - i && (i < j ==> r[|r| - 1] == Consume(j - 1))
  {
    seq(j - i, d requires 0 <= d < j - i => Consume(i + d))
  }

  /** Commands ran up to a wait, up to one that made the game leave the world, or to the end. */
  ghost predicate RanCommands(cfg: Settings, s: Skip, t: Skip, seen: Seen) {
    var n, k := |cfg.commands|, t.next;
    && s.next <= k <= n && t.trace == s.trace + Consumed(s.next, k)
    && (forall i | s.next <= i < k - 1 :: cfg.commands[i].Console? && !seen.leaves(i))
    && match t.state
       case Running => k > s.next && cfg.commands[k - 1].Wait? && t.waitUntil == seen.now + cfg.commands[k - 1].seconds
       case Idle => k > s.next && cfg.commands[k - 1].Console? && seen.leaves(k - 1)
       case _ =>
         && k == n && t.state == (if cfg.chargen then WaitForPod else Done)
         && t.stateSince == seen.now && (k > s.next ==> cfg.commands[k - 1].Console? && !seen.leaves(k - 1))
  }

  lemma {:induction false} CommandsRan(cfg: Settings, s: Skip, seen: Seen)
    requires s.state == Running && s.next <= |cfg.commands|
    ensures RanCommands(cfg, s, RunCommands(cfg, s, seen), seen)
    decreases |cfg.commands| - s.next
  {
    hide RanCommands;
    var (s1, more) := RunNextCommand(cfg, s, seen);
    if more && s1.state == Running {
      CommandsRan(cfg, s1, seen);
      OneMoreRan(cfg, s, s1, RunCommands(cfg, s1, seen), seen);
    } else {
      LastRan(cfg, s, seen);
    }
  }

  lemma LastRan(cfg: Settings, s: Skip, seen: Seen)
    requires s.state == Running && s.next <= |cfg.commands|
    ensures var (t, more) := RunNextCommand(cfg, s, seen); !more || t.state != Running ==> RanCommands(cfg, s, t, seen)
  {
    var t := RunNextCommand(cfg, s, seen).0;
    if t.next > s.next {
      assert [Consume(s.next)] == Consumed(s.next, t.next);
    } else {
      assert s.trace + Consumed(s.next, s.next) == s.trace;
    }
  }

  lemma OneMoreRan(cfg: Settings, s: Skip, s1: Skip, t: Skip, seen: Seen)
    requires s.next < |cfg.commands| && cfg.commands[s.next].Console? && !seen.leaves(s.next)
    requires s1 == Log(s, Consume(s.next)).(next := s.next + 1) && RanCommands(cfg, s1, t, seen)
    ensures RanCommands(cfg, s, t, seen)
  {
    assert [Consume(s.next)] + Consumed(s1.next, t.next) == Consumed(s.next, t.next);
  }

  lemma NextWithin(cfg: Settings, es: seq<Event>)
    ensures Run(cfg, es).next <= |cfg.commands|
  {
    hide Run, InOrder;
    RunKeeps(cfg, es);
  }

  lemma RunOne(cfg: Settings, es: seq<Event>)
    requires es != []
    ensures Run(cfg, es) == Step(cfg, Run(cfg, es[..|es| - 1]), es[|es| - 1])
  {
    hide Step;
  }

  lemma VisitGrows(cfg: Settings, es: seq<Event>)
    requires es != [] && es[|es| - 1].Frame? && !Enters(cfg, es)
    ensures forall v :: v in Visit(cfg, es) <==> v in Visit(cfg, es[..|es| - 1]) || v == es[|es| - 1].seen
    ensures var visit := Visit(cfg, es);
            visit != [] && visit[|visit| - 1] == es[|es| - 1].seen &&
            visit[..|visit| - 1] == Visit(cfg, es[..|es| - 1])
    ensures Entered(cfg, es) == Entered(cfg, es[..|es| - 1])
  {
    hide Enters;
  }

  lemma TellArmed(cfg: Settings, es: seq<Event>)
    requires es != [] && es[|es| - 1].Frame? && Told(cfg, es[..|es| - 1]) && Run(cfg, es[..|es| - 1]).state.Armed?
    ensures Told(cfg, es)
  {
    hide Run, Visit, Entered, StartOf;
    RunOne(cfg, es);
    if !Enters(cfg, es) {
      VisitGrows(cfg, es);
      StartGrows(Entered(cfg, es), Visit(cfg, es));
    }
    JustEntered(cfg, es);
  }

  lemma TellSexChoice(cfg: Settings, es: seq<Event>)
    requires es != [] && es[|es| - 1].Frame? && Told(cfg, es[..|es| - 1]) && Run(cfg, es[..|es| - 1]).state.SexChoice?
    ensures Told(cfg, es)
  {
    hide Run, Visit, Entered, StartOf, Started;
    RunOne(cfg, es);
    if !Enters(cfg, es) {
      VisitGrows(cfg, es);
    }
    JustEntered(cfg, es);
  }

  lemma TellWaitForPod(cfg: Settings, es: seq<Event>)
    requires es != [] && es[|es| - 1].Frame? && Told(cfg, es[..|es| - 1]) && Run(cfg, es[..|es| - 1]).state.WaitForPod?
    ensures Told(cfg, es)
  {
    hide Run, Visit, Entered, StartOf, HeldUntil, Answer;
    RunOne(cfg, es);
    if !Enters(cfg, es) {
      VisitGrows(cfg, es);
    }
    JustEntered(cfg, es);
  }

  lemma TellFaceMenu(cfg: Settings, es: seq<Event>)
    requires es != [] && es[|es| - 1].Frame? && Told(cfg, es[..|es| - 1]) && Run(cfg, es[..|es| - 1]).state.FaceMenu?
    ensures Told(cfg, es)
  {
    hide Run, Visit, Entered, StartOf, HeldUntil, Answer;
    RunOne(cfg, es);
    if !Enters(cfg, es) {
      VisitGrows(cfg, es);
    }
    JustEntered(cfg, es);
  }

  lemma TellSpecialMenu(cfg: Settings, es: seq<Event>)
    requires es != [] && es[|es| - 1].Frame? && Told(cfg, es[..|es| - 1]) && Run(cfg, es[..|es| - 1]).state.SpecialMenu?
    ensures Told(cfg, es)
  {
    hide Run, Visit, Entered, StartOf, HeldUntil, Answer;
    RunOne(cfg, es);
    if !Enters(cfg, es) {
      VisitGrows(cfg, es);
    }
    JustEntered(cfg, es);
  }

  lemma TellFrame(cfg: Settings, es: seq<Event>)
    requires es != [] && es[|es| - 1].Frame? && Told(cfg, es[..|es| - 1])
    ensures Told(cfg, es)
  {
    hide Told, Run;
    match Run(cfg, es[..|es| - 1]).state {
      case Armed => TellArmed(cfg, es);
      case SexChoice => TellSexChoice(cfg, es);
      case Running => TellCommands(cfg, es);
      case WaitForPod => TellWaitForPod(cfg, es);
      case FaceMenu => TellFaceMenu(cfg, es);
      case SpecialMenu => TellSpecialMenu(cfg, es);
      case _ => TellIdle(cfg, es);
    }
  }

  lemma TellIdle(cfg: Settings, es: seq<Event>)
    requires es != [] && es[|es| - 1].Frame?
    requires Run(cfg, es[..|es| - 1]).state.Idle? || Run(cfg, es[..|es| - 1]).state.Done?
    ensures Told(cfg, es)
  {
    hide Run;
    RunOne(cfg, es);
  }

  lemma StartGrows(armed: real, visit: seq<Seen>)
    requires visit != []
    ensures var n := |visit| - 1;
            var sofar := StartOf(armed, visit[..n]);
            StartOf(armed, visit) == if sofar == 0.0 && Started(visit[n], armed) then visit[n].now else sofar
  {}

  lemma JustEntered(cfg: Settings, es: seq<Event>)
    requires es != []
    ensures Enters(cfg, es) ==> Visit(cfg, es) == [] && Entered(cfg, es) == TimeOf(es[|es| - 1])
    ensures StartOf(Entered(cfg, es), []) == 0.0
  {
    hide Enters;
  }

  lemma TellCommands(cfg: Settings, es: seq<Event>)
    requires es != [] && es[|es| - 1].Frame? && Told(cfg, es[..|es| - 1]) && Run(cfg, es[..|es| - 1]).state.Running?
    ensures Told(cfg, es)
  {
    hide Run, RunCommands, Visit, Entered, StartOf;
    RunOne(cfg, es);
    var s := Run(cfg, es[..|es| - 1]);
    NextWithin(cfg, es[..|es| - 1]);
    CommandsRan(cfg, s, es[|es| - 1].seen);
    JustEntered(cfg, es);
  }

  lemma TellOther(cfg: Settings, es: seq<Event>)
    requires es != [] && !es[|es| - 1].Frame? && Told(cfg, es[..|es| - 1])
    ensures Told(cfg, es)
  {
    hide Run, Update;
    RunOne(cfg, es);
    JustEntered(cfg, es);
  }

  /** In every run. */
  lemma {:induction false} ToldInEveryRun(cfg: Settings, es: seq<Event>)
    ensures Told(cfg, es)
  {
    hide Told, Step;
    if es == [] {
      NothingTold(cfg);
    } else {
      ToldInEveryRun(cfg, es[..|es| - 1]);
      if !es[|es| - 1].Frame? {
        TellOther(cfg, es);
      } else {
        TellFrame(cfg, es);
      }
    }
  }

  lemma NothingTold(cfg: Settings)
    ensures Told(cfg, [])
  {}

  // ---- frames -----------------------------------------------------------------------

  /** Nothing is done but what is noted. */
  predicate Stays(s: Skip, t: Skip) { t.state == s.state && t.trace == s.trace }

  predicate Moves(s: Skip, t: Skip, to: State, actions: seq<Action>) { t.state == to && t.trace == s.trace + actions }

  /** The start: into the commands, or into the question if there is one to ask, after closing the mirror; and not at
      all for a save that is past the pod. */
  predicate Starts(cfg: Settings, s: Skip, t: Skip, seen: Seen) {
    if seen.mq101 >= 900 || seen.mq102 >= 1 then Moves(s, t, Done, [])
    else
      var mirror := if seen.looksOpen && seen.uiQueue then [CloseMirror] else [];
      if cfg.chargen && cfg.chargenMode == 0 && seen.messageBoxes then Moves(s, t, SexChoice, mirror + [AskSex])
      else Moves(s, t, Running, mirror + [Begin])
  }

  /** The answer 1 asks for a woman, every other for a man; somebody who is not there is neither. */
  predicate Differs(answer: int, seen: Seen) {
    !seen.present || (if answer == 1 then seen.sex != Female else seen.sex != Male)
  }

  /** What a frame that shows `seen` makes of `s`. */
  ghost predicate FrameDoes(cfg: Settings, past: Past, s: Skip, t: Skip, seen: Seen) {
    match s.state
    case Idle => t == s
    case Done => t == s
    case Armed =>
      if Started(seen, past.entered) && seen.now - StartOf(past.entered, past.visit + [seen]) >= cfg.startDelay then
        Starts(cfg, s, t, seen)
      else Stays(s, t)
    case SexChoice =>
      var changed := ChangeSex in s.trace;
      if seen.now < past.held || (changed && seen.present && !seen.loaded) then t == s
      else if past.answer < 0 then
        if seen.now - past.entered > cfg.podTimeout then Moves(s, t, Running, [Begin]) else t == s
      else if Differs(past.answer, seen) && !changed then Moves(s, t, SexChoice, [ChangeSex])
      else Moves(s, t, Running, [Begin])
    case Running => if seen.now < past.held then t == s else RanCommands(cfg, s, t, seen)
    case WaitForPod =>
      if seen.mq102 >= 1 || seen.mq101 >= 1000 then
        if seen.present && seen.scripts then Moves(s, t, FaceMenu, [ShowFace]) else Moves(s, t, Done, [])
      else if seen.now - past.entered > cfg.podTimeout then Moves(s, t, Done, []) else t == s
    case FaceMenu =>
      if !seen.looksOpen && ((exists v :: v in past.visit && v.looksOpen) || seen.now - past.entered >= 3.0) then
        Moves(s, t, SpecialMenu, if !seen.specialOpen && seen.scripts then [ShowSpecial] else [])
      else Stays(s, t)
    case SpecialMenu =>
      if !seen.specialOpen && ((exists v :: v in past.visit && v.specialOpen) || seen.now - past.entered >= 3.0) then
        Moves(s, t, Done, [RestoreControl])
      else Stays(s, t)
  }

  /** A new game arms the machine with an empty past or, switched off, is done with it; leaving the world stops it; an
      answer alone does nothing yet. */
  lemma EveryOtherEvent(cfg: Settings, es: seq<Event>, e: Event)
    requires !e.Frame?
    ensures var s, t, past := Run(cfg, es), Run(cfg, es + [e]), PastOf(cfg, es + [e]);
            match e
            case GameStarted(now) =>
              && t.state == (if cfg.enabled then Armed else Done) && t.trace == []
              && past == Past(now, [], -1, now)
            case WorldLeft => t.state == Idle && t.trace == s.trace
            case Answered(button) => t == s.(choice := t.choice) && past == PastOf(cfg, es).(answer := button)
  {
    hide Run;
    assert (es + [e])[..|es|] == es;
    RunOne(cfg, es + [e]);
  }

  /** After any run, a frame does exactly that. */
  lemma EveryFrame(cfg: Settings, es: seq<Event>, seen: Seen)
    ensures var s, t := Run(cfg, es), Run(cfg, es + [Frame(seen)]); FrameDoes(cfg, PastOf(cfg, es), s, t, seen)
  {
    hide Run, Update, PastOf, Inv, FrameDoes, Recalls;
    ToldInEveryRun(cfg, es);
    RunKeeps(cfg, es);
    assert (es + [Frame(seen)])[..|es|] == es;
    RunOne(cfg, es + [Frame(seen)]);
    OneFrame(cfg, Run(cfg, es), PastOf(cfg, es), seen);
  }

  lemma OneFrame(cfg: Settings, s: Skip, past: Past, seen: Seen)
    requires Recalls(cfg, s, past) && Inv(|cfg.commands|, s)
    ensures FrameDoes(cfg, past, s, Update(cfg, s, seen), seen)
  {
    hide RunCommands, RanCommands, FrameArmed, FrameSexChoice, FrameWaitForPod, Start, Starts, StartOf, Moves,
         InOrder, Below, AllConsumed, Differs, Started;
    if s.state.Running? {
      CommandsRan(cfg, s, seen);
    } else if s.state.Armed? {
      OneArmed(cfg, s, past, seen);
    } else if s.state.SexChoice? {
      OneSexChoice(cfg, s, past, seen);
    } else if s.state.WaitForPod? {
      OneWaitForPod(cfg, s, past, seen);
    } else {
      MenuMoves(s, seen);
    }
  }

  lemma OneArmed(cfg: Settings, s: Skip, past: Past, seen: Seen)
    requires s.state.Armed? && Recalls(cfg, s, past)
    ensures FrameDoes(cfg, past, s, FrameArmed(cfg, s, seen), seen)
  {
    hide Start, Starts, StartOf;
    StartNow(past.entered, past.visit, seen);
    var s1 := s.(questStartedAt := if s.questStartedAt == 0.0 then seen.now else s.questStartedAt);
    StartsSo(cfg, s1, seen);
    SameStarts(cfg, s, s1, Start(cfg, s1, seen), seen);
  }

  lemma SameStarts(cfg: Settings, s: Skip, s1: Skip, t: Skip, seen: Seen)
    requires s1.trace == s.trace && Starts(cfg, s1, t, seen)
    ensures Starts(cfg, s, t, seen)
  {}

  lemma OneSexChoice(cfg: Settings, s: Skip, past: Past, seen: Seen)
    requires s.state.SexChoice? && Recalls(cfg, s, past) && (s.sexChanged <==> ChangeSex in s.trace)
    ensures FrameDoes(cfg, past, s, FrameSexChoice(cfg, s, seen), seen)
  {}

  lemma OneWaitForPod(cfg: Settings, s: Skip, past: Past, seen: Seen)
    requires s.state.WaitForPod? && Recalls(cfg, s, past)
    ensures FrameDoes(cfg, past, s, FrameWaitForPod(cfg, s, seen), seen)
  {
    assert s.trace + [] == s.trace;
  }

  lemma MenuMoves(s: Skip, seen: Seen)
    ensures var t := FrameFaceMenu(s, seen);
            t.state.SpecialMenu? && s.state.FaceMenu? ==>
              Moves(s, t, SpecialMenu, if !seen.specialOpen && seen.scripts then [ShowSpecial] else [])
    ensures var t := FrameSpecialMenu(s, seen); t.state.Done? && s.state.SpecialMenu? ==>
        Moves(s, t, Done, [RestoreControl])
  {
    assert s.trace + [] == s.trace;
  }

  lemma StartsSo(cfg: Settings, s: Skip, seen: Seen)
    ensures Starts(cfg, s, Start(cfg, s, seen), seen)
  {
    assert s.trace + [] == s.trace && [CloseMirror] + [Begin] == [CloseMirror, Begin];
    assert s.trace + [CloseMirror] + [Begin] == s.trace + ([CloseMirror] + [Begin]);
    assert s.trace + [CloseMirror] + [AskSex] == s.trace + ([CloseMirror] + [AskSex]);
  }

  lemma StartNow(armed: real, visit: seq<Seen>, seen: Seen)
    ensures var sofar := StartOf(armed, visit);
            StartOf(armed, visit + [seen]) == if sofar == 0.0 && Started(seen, armed) then seen.now else sofar
  {
    assert (visit + [seen])[..|visit|] == visit;
  }
}
