/** The prologue skip as a state machine, with the trace of what it asked of the engine since it was armed. */
module PrologueModel {
  const MQ101_STARTED := 10
  const MQ101_POD_OPENS := 900
  const MENU_GRACE := 3.0
  const QUEST_START_FALLBACK := 45.0
  const SEX_CHANGE_SETTLE := 3.0

  /** A line of the configured list: "wait" with its seconds, or a console command. */
  datatype Command = Wait(seconds: real) | Console(text: string)

  datatype Settings = Settings(
    enabled: bool,
    startDelay: real,
    podTimeout: real,
    commands: seq<Command>,
    chargen: bool,
    chargenMode: int)

  datatype State = Idle | Armed | SexChoice | Running | WaitForPod | FaceMenu | SpecialMenu | Done

  datatype Action =
    | CloseMirror
    | AskSex
    | ChangeSex
    | Begin
    | Consume(index: nat)
    | ShowFace
    | ShowSpecial
    | RestoreControl

  datatype Sex = NoSex | Male | Female

  /** What a frame finds in the game, on one reading of the clock. `leaves(i)`: running command `i` makes the
      game leave the world before it returns. */
  datatype Seen = Seen(
    now: real,
    placed: bool,
    present: bool,
    loaded: bool,
    sex: Sex,
    mq101: nat,
    mq102: nat,
    looksOpen: bool,
    specialOpen: bool,
    uiQueue: bool,
    messageBoxes: bool,
    scripts: bool,
    leaves: nat -> bool)

  /** `questStartedAt` is 0 until the quest has started; `choice` is -1 while unanswered. */
  datatype Skip = Skip(
    state: State,
    next: nat,
    armedAt: real,
    questStartedAt: real,
    stateSince: real,
    waitUntil: real,
    faceMenuSeen: bool,
    specialMenuSeen: bool,
    sexChanged: bool,
    choice: int,
    trace: seq<Action>)

  const INITIAL := Skip(Idle, 0, 0.0, 0.0, 0.0, 0.0, false, false, false, -1, [])

  function Log(s: Skip, a: Action): Skip { s.(trace := s.trace + [a]) }

  function NewGame(cfg: Settings, s: Skip, now: real): Skip {
    if !cfg.enabled then s.(state := Done, trace := [])
    else
      s.(state := Armed, armedAt := now, questStartedAt := 0.0, next := 0, faceMenuSeen := false,
         specialMenuSeen := false, sexChanged := false, choice := -1, trace := [])
  }

  function LeaveWorld(s: Skip): Skip { s.(state := Idle) }

  function BeginCommands(s: Skip, now: real): Skip {
    Log(s, Begin).(next := 0, waitUntil := now, stateSince := now, state := Running)
  }

  function Ask(s: Skip, seen: Seen): Skip {
    if !seen.messageBoxes then BeginCommands(s, seen.now)
    else Log(s, AskSex).(choice := -1, waitUntil := seen.now, stateSince := seen.now, state := SexChoice)
  }

  function Start(cfg: Settings, s: Skip, seen: Seen): Skip {
    if seen.mq101 >= MQ101_POD_OPENS || seen.mq102 >= 1 then s.(state := Done)
    else
      var s1 := if seen.looksOpen && seen.uiQueue then Log(s, CloseMirror) else s;
      if cfg.chargen && cfg.chargenMode == 0 then Ask(s1, seen) else BeginCommands(s1, seen.now)
  }

  function FrameArmed(cfg: Settings, s: Skip, seen: Seen): Skip {
    if !seen.placed || (seen.mq101 < MQ101_STARTED && seen.now - s.armedAt < QUEST_START_FALLBACK) then s
    else
      var s1 := if s.questStartedAt == 0.0 then s.(questStartedAt := seen.now) else s;
      if seen.now - s1.questStartedAt < cfg.startDelay then s1 else Start(cfg, s1, seen)
  }

  function Wanted(choice: int): Sex { if choice == 1 then Female else Male }

  function CurrentSex(seen: Seen): Sex { if seen.present then seen.sex else NoSex }

  function ApplySexChoice(s: Skip, seen: Seen): Skip {
    if CurrentSex(seen) != Wanted(s.choice) && !s.sexChanged then
      Log(s, ChangeSex).(sexChanged := true, waitUntil := seen.now + SEX_CHANGE_SETTLE)
    else BeginCommands(s, seen.now)
  }

  function FrameSexChoice(cfg: Settings, s: Skip, seen: Seen): Skip {
    if seen.now < s.waitUntil || (s.sexChanged && seen.present && !seen.loaded) then s
    else if s.choice < 0 then
      if seen.now - s.stateSince > cfg.podTimeout then BeginCommands(s, seen.now) else s
    else ApplySexChoice(s, seen)
  }

  /** The flag is false when the loop has to stop. */
  function RunNextCommand(cfg: Settings, s: Skip, seen: Seen): (Skip, bool) {
    if s.next >= |cfg.commands| then
      (s.(stateSince := seen.now, state := if cfg.chargen then WaitForPod else Done), false)
    else
      var s1 := Log(s, Consume(s.next)).(next := s.next + 1);
      match cfg.commands[s.next]
      case Wait(seconds) => (s1.(waitUntil := seen.now + seconds), false)
      case Console(_) => (if seen.leaves(s.next) then LeaveWorld(s1) else s1, true)
  }

  function RunCommands(cfg: Settings, s: Skip, seen: Seen): Skip
    decreases |cfg.commands| - s.next
  {
    if s.state != Running then s
    else
      var (s1, more) := RunNextCommand(cfg, s, seen);
      if more then RunCommands(cfg, s1, seen) else s1
  }

  function FrameWaitForPod(cfg: Settings, s: Skip, seen: Seen): Skip {
    if seen.mq102 >= 1 || seen.mq101 >= 1000 then
      if !cfg.chargen || !seen.present || !seen.scripts then s.(state := Done)
      else Log(s, ShowFace).(faceMenuSeen := false, stateSince := seen.now, state := FaceMenu)
    else if seen.now - s.stateSince > cfg.podTimeout then s.(state := Done)
    else s
  }

  function FrameFaceMenu(s: Skip, seen: Seen): Skip {
    if seen.looksOpen then s.(faceMenuSeen := true)
    else if !s.faceMenuSeen && seen.now - s.stateSince < MENU_GRACE then s
    else
      var s1 := if !seen.specialOpen && seen.scripts then Log(s, ShowSpecial) else s;
      s1.(specialMenuSeen := false, stateSince := seen.now, state := SpecialMenu)
  }

  function FrameSpecialMenu(s: Skip, seen: Seen): Skip {
    if seen.specialOpen then s.(specialMenuSeen := true)
    else if !s.specialMenuSeen && seen.now - s.stateSince < MENU_GRACE then s
    else Log(s, RestoreControl).(state := Done)
  }

  function Update(cfg: Settings, s: Skip, seen: Seen): Skip {
    match s.state
    case Idle => s
    case Done => s
    case Armed => FrameArmed(cfg, s, seen)
    case SexChoice => FrameSexChoice(cfg, s, seen)
    case Running => if seen.now < s.waitUntil then s else RunCommands(cfg, s, seen)
    case WaitForPod => FrameWaitForPod(cfg, s, seen)
    case FaceMenu => FrameFaceMenu(s, seen)
    case SpecialMenu => FrameSpecialMenu(s, seen)
  }

  // ---- events -----------------------------------------------------------------------

  datatype Event = GameStarted(now: real) | WorldLeft | Answered(button: nat) | Frame(seen: Seen)

  function Step(cfg: Settings, s: Skip, e: Event): Skip {
    match e
    case GameStarted(now) => NewGame(cfg, s, now)
    case WorldLeft => LeaveWorld(s)
    case Answered(button) => s.(choice := button)
    case Frame(seen) => Update(cfg, s, seen)
  }

  function Run(cfg: Settings, es: seq<Event>): Skip {
    if es == [] then INITIAL else Step(cfg, Run(cfg, es[..|es| - 1]), es[|es| - 1])
  }

  // ---- order ------------------------------------------------------------------------

  function Rank(s: State): nat {
    match s
    case Idle => 0
    case Armed => 1
    case SexChoice => 2
    case Running => 3
    case WaitForPod => 4
    case FaceMenu => 5
    case SpecialMenu => 6
    case Done => 7
  }

  /** The place of an action in the one order the prologue has. */
  function Place(n: nat, a: Action): nat {
    match a
    case CloseMirror => 0
    case AskSex => 1
    case ChangeSex => 2
    case Begin => 3
    case Consume(i) => 4 + i
    case ShowFace => 4 + n
    case ShowSpecial => 5 + n
    case RestoreControl => 6 + n
  }

  ghost predicate InOrder(n: nat, trace: seq<Action>) {
    forall i, j | 0 <= i < j < |trace| :: Place(n, trace[i]) < Place(n, trace[j])
  }

  ghost predicate Below(n: nat, trace: seq<Action>, limit: nat) { forall a | a in trace :: Place(n, a) < limit }

  ghost predicate AllConsumed(trace: seq<Action>, k: nat) { forall i: nat | i < k :: Consume(i) in trace }

  /** How far the trace can be in a state, and what it must hold. */
  ghost predicate Fits(n: nat, s: Skip) {
    && s.next <= n
    && (forall a | a in s.trace && a.Consume? :: a.index < n)
    && match s.state
       case Idle => true
       case Armed => s.trace == [] && !s.sexChanged
       case SexChoice =>
         && Below(n, s.trace, if s.sexChanged then 3 else 2)
         && (s.sexChanged <==> ChangeSex in s.trace) && AskSex in s.trace
       case Running => Below(n, s.trace, 4 + s.next) && AllConsumed(s.trace, s.next) && Begin in s.trace
       case WaitForPod => Below(n, s.trace, 4 + n) && AllConsumed(s.trace, n) && Begin in s.trace
       case FaceMenu => Below(n, s.trace, 5 + n) && AllConsumed(s.trace, n) && ShowFace in s.trace && Begin in s.trace
       case SpecialMenu =>
         Below(n, s.trace, 6 + n) && AllConsumed(s.trace, n) && ShowFace in s.trace && Begin in s.trace
       case Done =>
         && (Begin in s.trace ==> AllConsumed(s.trace, n))
         && (ShowFace in s.trace <==> RestoreControl in s.trace)
         && (Begin !in s.trace ==> s.trace == [])
  }

  ghost predicate Inv(n: nat, s: Skip) { InOrder(n, s.trace) && Fits(n, s) }

  lemma LogInOrder(n: nat, s: Skip, a: Action)
    requires InOrder(n, s.trace) && Below(n, s.trace, Place(n, a))
    ensures InOrder(n, Log(s, a).trace) && Below(n, Log(s, a).trace, Place(n, a) + 1)
    ensures forall b :: b in Log(s, a).trace <==> b in s.trace || b == a
  {
    assert forall i | 0 <= i < |s.trace| :: s.trace[i] in s.trace;
  }

  lemma BelowMore(n: nat, trace: seq<Action>, k: nat, l: nat)
    requires Below(n, trace, k) && k <= l
    ensures Below(n, trace, l)
  {}

  lemma BeginKeeps(n: nat, s: Skip, now: real)
    requires InOrder(n, s.trace) && Below(n, s.trace, 3)
    ensures Inv(n, BeginCommands(s, now))
  {
    LogInOrder(n, s, Begin);
  }

  lemma ArmedKeeps(cfg: Settings, s: Skip, seen: Seen)
    requires Inv(|cfg.commands|, s) && s.state == Armed
    ensures Inv(|cfg.commands|, FrameArmed(cfg, s, seen))
  {
    hide InOrder, Below, Start;
    StartKeeps(cfg, s.(questStartedAt := if s.questStartedAt == 0.0 then seen.now else s.questStartedAt), seen);
  }

  lemma StartKeeps(cfg: Settings, s: Skip, seen: Seen)
    requires Inv(|cfg.commands|, s) && s.state == Armed
    ensures Inv(|cfg.commands|, Start(cfg, s, seen))
  {
    hide InOrder, Below, Fits, Ask, BeginCommands, Log;
    var n := |cfg.commands|;
    FitsArmed(n, s);
    NothingBelow(n);
    LogInOrder(n, s, CloseMirror);
    MirrorClosed(s);
    var s1 := if seen.looksOpen && seen.uiQueue then Log(s, CloseMirror) else s;
    BelowMore(n, [], 0, 1);
    BelowMore(n, s1.trace, 1, 3);
    BeginKeeps(n, s1, seen.now);
    AskKeeps(n, s1, seen);
  }

  lemma FitsArmed(n: nat, s: Skip)
    requires Fits(n, s) && s.state == Armed
    ensures s.trace == [] && !s.sexChanged && s.next <= n
    ensures Fits(n, s.(state := Done))
  {}

  lemma MirrorClosed(s: Skip)
    requires s.trace == []
    ensures Log(s, CloseMirror) == s.(trace := [CloseMirror])
  {}

  lemma AskKeeps(n: nat, s: Skip, seen: Seen)
    requires InOrder(n, s.trace) && Below(n, s.trace, 1) && !s.sexChanged && s.next <= n
    ensures Inv(n, Ask(s, seen))
  {
    LogInOrder(n, s, AskSex);
    BelowMore(n, s.trace, 1, 3);
    BeginKeeps(n, s, seen.now);
  }

  lemma NothingBelow(n: nat)
    ensures InOrder(n, []) && Below(n, [], 0)
  {}

  lemma SexChoiceKeeps(cfg: Settings, s: Skip, seen: Seen)
    requires Inv(|cfg.commands|, s) && s.state == SexChoice
    ensures Inv(|cfg.commands|, FrameSexChoice(cfg, s, seen))
  {
    hide InOrder, Below;
    var n := |cfg.commands|;
    BelowMore(n, s.trace, if s.sexChanged then 3 else 2, 3);
    BeginKeeps(n, s, seen.now);
    if !s.sexChanged {
      LogInOrder(n, s, ChangeSex);
    }
  }

  /** The command loop: it ends, keeps the order, and leaves the running state only with every command gone. */
  lemma {:induction false} CommandsKeep(cfg: Settings, s: Skip, seen: Seen)
    requires Inv(|cfg.commands|, s) && (s.state == Running || s.state == Idle)
    ensures var t := RunCommands(cfg, s, seen);
            && Inv(|cfg.commands|, t) && t.next >= s.next
            && (t.state == Running || t.state == WaitForPod || t.state == Done || t.state == Idle)
            && (t.state == WaitForPod || t.state == Done ==> t.next == |cfg.commands|)
    decreases |cfg.commands| - s.next
  {
    hide Inv, RunNextCommand;
    if s.state == Running {
      var (s1, more) := RunNextCommand(cfg, s, seen);
      OneCommandKeeps(cfg, s, seen);
      if more {
        CommandsKeep(cfg, s1, seen);
      }
    }
  }

  lemma OneCommandKeeps(cfg: Settings, s: Skip, seen: Seen)
    requires Inv(|cfg.commands|, s) && s.state == Running
    ensures var (t, more) := RunNextCommand(cfg, s, seen);
            && Inv(|cfg.commands|, t) && s.next <= t.next <= |cfg.commands|
            && (more ==> t.next > s.next && (t.state == Running || t.state == Idle))
            && (!more ==>
                  t.state == Running || ((t.state == WaitForPod || t.state == Done) && t.next == |cfg.commands|))
  {
    hide InOrder, Below, AllConsumed;
    var n := |cfg.commands|;
    if s.next < n {
      ConsumeKeeps(n, s);
    } else {
      NotShown(n, s.trace);
    }
  }

  /** One more command in the trace. */
  lemma ConsumeKeeps(n: nat, s: Skip)
    requires Inv(n, s) && s.state == Running && s.next < n
    ensures var t := Log(s, Consume(s.next)).(next := s.next + 1);
            && InOrder(n, t.trace) && Below(n, t.trace, 4 + t.next) && AllConsumed(t.trace, t.next) && Begin in t.trace
            && forall a | a in t.trace && a.Consume? :: a.index < n
  {
    hide InOrder, Below;
    LogInOrder(n, s, Consume(s.next));
  }

  lemma NotShown(n: nat, trace: seq<Action>)
    requires Below(n, trace, 4 + n)
    ensures ShowFace !in trace && RestoreControl !in trace && ShowSpecial !in trace
  {
    assert Place(n, ShowFace) == 4 + n;
    assert Place(n, ShowSpecial) == 5 + n;
    assert Place(n, RestoreControl) == 6 + n;
  }

  lemma LogConsumed(s: Skip, a: Action, k: nat)
    requires AllConsumed(s.trace, k)
    ensures AllConsumed(Log(s, a).trace, k)
  {}

  lemma WaitForPodKeeps(cfg: Settings, s: Skip, seen: Seen)
    requires Inv(|cfg.commands|, s) && s.state == WaitForPod
    ensures Inv(|cfg.commands|, FrameWaitForPod(cfg, s, seen))
  {
    hide InOrder, Below, AllConsumed;
    var n := |cfg.commands|;
    NotShown(n, s.trace);
    LogInOrder(n, s, ShowFace);
    LogConsumed(s, ShowFace, n);
  }

  lemma FaceMenuKeeps(n: nat, s: Skip, seen: Seen)
    requires Inv(n, s) && s.state == FaceMenu
    ensures Inv(n, FrameFaceMenu(s, seen))
  {
    hide InOrder, Below, AllConsumed;
    BelowMore(n, s.trace, 5 + n, 6 + n);
    LogInOrder(n, s, ShowSpecial);
    LogConsumed(s, ShowSpecial, n);
  }

  lemma SpecialMenuKeeps(n: nat, s: Skip, seen: Seen)
    requires Inv(n, s) && s.state == SpecialMenu
    ensures Inv(n, FrameSpecialMenu(s, seen))
  {
    hide InOrder, Below, AllConsumed;
    LogInOrder(n, s, RestoreControl);
    LogConsumed(s, RestoreControl, n);
  }

  lemma StepKeeps(cfg: Settings, s: Skip, e: Event)
    requires Inv(|cfg.commands|, s)
    ensures Inv(|cfg.commands|, Step(cfg, s, e))
  {
    hide InOrder, Below, RunCommands, FrameArmed, FrameSexChoice, FrameWaitForPod, FrameFaceMenu, FrameSpecialMenu,
         AllConsumed;
    var n := |cfg.commands|;
    NothingBelow(n);
    if e.Frame? {
      match s.state {
        case Idle =>
        case Done =>
        case Armed => ArmedKeeps(cfg, s, e.seen);
        case SexChoice => SexChoiceKeeps(cfg, s, e.seen);
        case Running => CommandsKeep(cfg, s, e.seen);
        case WaitForPod => WaitForPodKeeps(cfg, s, e.seen);
        case FaceMenu => FaceMenuKeeps(n, s, e.seen);
        case SpecialMenu => SpecialMenuKeeps(n, s, e.seen);
      }
    }
  }

  lemma {:induction false} RunKeeps(cfg: Settings, es: seq<Event>)
    ensures Inv(|cfg.commands|, Run(cfg, es))
  {
    hide Inv, Step;
    if es == [] {
      InitialFits(|cfg.commands|);
    } else {
      RunKeeps(cfg, es[..|es| - 1]);
      StepKeeps(cfg, Run(cfg, es[..|es| - 1]), es[|es| - 1]);
    }
  }

  lemma InitialFits(n: nat)
    ensures Inv(n, INITIAL)
  {}

  /** Since it was armed: nothing happened twice, commands were consumed in order and without gaps, the sex
      change came before the first of them, and whoever got the face editor and is done has the controls
      back. */
  lemma WholeRun(cfg: Settings, es: seq<Event>)
    ensures var s := Run(cfg, es);
            && (forall i, j | 0 <= i < |s.trace| && 0 <= j < |s.trace| && s.trace[i] == s.trace[j] :: i == j)
            && (forall i, j | 0 <= i < |s.trace| && 0 <= j < |s.trace| && s.trace[i].Consume? && s.trace[j].Consume? ::
                  i < j <==> s.trace[i].index < s.trace[j].index)
            && (forall i, j | && 0 <= i < |s.trace| && 0 <= j < |s.trace|
                              && s.trace[i] == ChangeSex && s.trace[j].Consume? :: i < j)
            && (Rank(s.state) >= 4 && Begin in s.trace ==> AllConsumed(s.trace, |cfg.commands|))
            && (s.state == Done ==> (ShowFace in s.trace <==> RestoreControl in s.trace))
  {
    hide Run;
    RunKeeps(cfg, es);
    var n, tr := |cfg.commands|, Run(cfg, es).trace;
    forall i, j | 0 <= i < |tr| && 0 <= j < |tr| && tr[i].Consume? && tr[j].Consume?
      ensures i < j <==> tr[i].index < tr[j].index
    {
      assert i < j ==> Place(n, tr[i]) < Place(n, tr[j]);
      assert j < i ==> Place(n, tr[j]) < Place(n, tr[i]);
    }
    forall i, j | 0 <= i < |tr| && 0 <= j < |tr| && tr[i] == ChangeSex && tr[j].Consume?
      ensures i < j
    {
      assert j < i ==> Place(n, tr[j]) < Place(n, tr[i]);
    }
  }

  /** A frame never goes back in the order of states, except out of the world when a command says so. */
  lemma NeverBack(cfg: Settings, s: Skip, seen: Seen)
    requires Inv(|cfg.commands|, s)
    ensures var t := Update(cfg, s, seen);
            Rank(t.state) >= Rank(s.state) || (s.state == Running && t.state == Idle)
    ensures var t := Update(cfg, s, seen);
            t.state == s.state == Running ==> t.next >= s.next
  {
    hide RunCommands, InOrder, Fits;
    if s.state == Running && seen.now >= s.waitUntil {
      CommandsKeep(cfg, s, seen);
    }
  }

  /** What a frame that comes after every deadline can still be waiting for. */
  predicate Held(cfg: Settings, s: Skip, seen: Seen) {
    match s.state
    case Idle => true
    case Done => true
    case Armed =>
      var running := if s.questStartedAt == 0.0 then 0.0 else seen.now - s.questStartedAt;
      !seen.placed || running < cfg.startDelay
    case SexChoice => s.sexChanged && seen.present && !seen.loaded
    case Running => false
    case WaitForPod => false
    case FaceMenu => seen.looksOpen
    case SpecialMenu => seen.specialOpen
  }

  predicate Late(cfg: Settings, s: Skip, seen: Seen) {
    && seen.now - s.armedAt >= QUEST_START_FALLBACK && seen.now >= s.waitUntil
    && seen.now - s.stateSince > cfg.podTimeout && seen.now - s.stateSince >= MENU_GRACE
  }

  /** A frame after every deadline gets the machine further, unless exactly one of these holds it: no player
      in the world, the start delay, a character still being rebuilt, or an open menu. */
  lemma LateFrameMoves(cfg: Settings, s: Skip, seen: Seen)
    requires Inv(|cfg.commands|, s) && Late(cfg, s, seen)
    ensures var t := Update(cfg, s, seen);
            !Held(cfg, s, seen) <==> t.state != s.state || |t.trace| > |s.trace|
  {
    hide RunCommands, InOrder, Fits;
    if s.state == Running {
      OneCommand(cfg, s, seen);
    }
  }

  lemma {:induction false} OneCommand(cfg: Settings, s: Skip, seen: Seen)
    requires s.state == Running
    ensures var t := RunCommands(cfg, s, seen); t.state != Running || |t.trace| > |s.trace|
    decreases |cfg.commands| - s.next
  {
    var (s1, more) := RunNextCommand(cfg, s, seen);
    if more && s1.state == Running {
      OneCommand(cfg, s1, seen);
    }
  }
}
