/** The `PrologueSkip` object of the client, one method per function of the source. */
module Prologue {
  import opened PrologueModel
  import M = PrologueModel

  class PrologueSkip {
    const cfg: Settings
    var state: State
    var next: nat
    var armedAt: real
    var questStartedAt: real
    var stateSince: real
    var waitUntil: real
    var faceMenuSeen: bool
    var specialMenuSeen: bool
    var sexChanged: bool
    var choice: int
    ghost var trace: seq<Action>

    ghost function View(): Skip
      reads this
    {
      Skip(state, next, armedAt, questStartedAt, stateSince, waitUntil, faceMenuSeen, specialMenuSeen, sexChanged,
           choice, trace)
    }

    ghost predicate Valid()
      reads this
    {
      Inv(|cfg.commands|, View())
    }

    constructor (cfg: Settings)
      ensures View() == INITIAL && this.cfg == cfg && Valid()
    {
      this.cfg := cfg;
      state, next := Idle, 0;
      armedAt, questStartedAt, stateSince, waitUntil := 0.0, 0.0, 0.0, 0.0;
      faceMenuSeen, specialMenuSeen, sexChanged, choice, trace := false, false, false, -1, [];
      new;
      InitialFits(|cfg.commands|);
    }

    // ---- lifecycle ------------------------------------------------------------------

    method OnNewGame(now: real)
      requires Valid()
      modifies this
      ensures View() == NewGame(cfg, old(View()), now) && Valid()
    {
      M.StepKeeps(cfg, View(), GameStarted(now));
      trace := [];
      if !cfg.enabled {
        state := Done;
        return;
      }
      state := Armed;
      armedAt := now;
      questStartedAt := 0.0;
      next := 0;
      faceMenuSeen := false;
      specialMenuSeen := false;
      sexChanged := false;
      choice := -1;
    }

    method OnLeaveWorld()
      requires Valid()
      modifies this`state
      ensures View() == LeaveWorld(old(View())) && Valid()
    {
      M.StepKeeps(cfg, View(), WorldLeft);
      state := Idle;
    }

    /** The message box calls back. */
    method Answer(button: nat)
      requires Valid()
      modifies this`choice
      ensures View() == old(View()).(choice := button) && Valid()
    {
      M.StepKeeps(cfg, View(), Answered(button));
      choice := button;
    }

    // ---- per frame ------------------------------------------------------------------

    method Update(seen: Seen)
      requires Valid()
      modifies this
      ensures View() == M.Update(cfg, old(View()), seen) && Valid()
      ensures Rank(state) >= Rank(old(state)) || (old(state) == Running && state == Idle)
    {
      hide FrameArmed, FrameSexChoice, FrameWaitForPod, FrameFaceMenu, FrameSpecialMenu, RunCommands, Inv;
      M.StepKeeps(cfg, View(), M.Event.Frame(seen));
      NeverBack(cfg, View(), seen);
      match state {
        case Idle => return;
        case Done => return;
        case Armed => UpdateArmed(seen);
        case SexChoice => UpdateSexChoice(seen);
        case Running => UpdateRunning(seen);
        case WaitForPod => UpdateWaitForPod(seen);
        case FaceMenu => UpdateFaceMenu(seen);
        case SpecialMenu => UpdateSpecialMenu(seen);
      }
    }

    method UpdateArmed(seen: Seen)
      modifies this
      ensures View() == FrameArmed(cfg, old(View()), seen)
    {
      hide M.Start;
      if !seen.placed {
        return;
      }
      if seen.mq101 < MQ101_STARTED {
        if seen.now - armedAt < QUEST_START_FALLBACK {
          return;
        }
      }
      if questStartedAt == 0.0 {
        questStartedAt := seen.now;
      }
      if seen.now - questStartedAt < cfg.startDelay {
        return;
      }
      Start(seen);
    }

    method UpdateSexChoice(seen: Seen)
      modifies this
      ensures View() == FrameSexChoice(cfg, old(View()), seen)
    {
      if seen.now < waitUntil {
        return;
      }
      if sexChanged {
        if seen.present && !seen.loaded {
          return;
        }
      }
      if choice < 0 {
        if seen.now - stateSince > cfg.podTimeout {
          BeginCommands(seen.now);
        }
        return;
      }
      ApplySexChoice(seen);
    }

    /** Consecutive commands in one frame, up to a wait. */
    method UpdateRunning(seen: Seen)
      requires state == Running
      modifies this
      ensures View() == if seen.now < old(waitUntil) then old(View()) else RunCommands(cfg, old(View()), seen)
    {
      if seen.now < waitUntil {
        return;
      }
      hide M.RunNextCommand;
      ghost var goal := RunCommands(cfg, View(), seen);
      var more := true;
      while more && state == Running
        invariant goal == if more then RunCommands(cfg, View(), seen) else View()
        decreases |cfg.commands| - next, more
      {
        CommandShrinks(cfg, View(), seen);
        more := RunNextCommand(seen);
      }
    }

    method UpdateWaitForPod(seen: Seen)
      requires state == WaitForPod
      modifies this
      ensures View() == FrameWaitForPod(cfg, old(View()), seen)
    {
      if seen.mq102 >= 1 || seen.mq101 >= 1000 {
        if cfg.chargen {
          OpenFaceMenu(seen);
        } else {
          Finish();
        }
        return;
      }
      if seen.now - stateSince > cfg.podTimeout {
        Finish();
      }
    }

    method UpdateFaceMenu(seen: Seen)
      modifies this
      ensures View() == FrameFaceMenu(old(View()), seen)
    {
      if seen.looksOpen {
        faceMenuSeen := true;
        return;
      }
      if !faceMenuSeen && seen.now - stateSince < MENU_GRACE {
        return;
      }
      OpenSpecialMenu(seen);
      specialMenuSeen := false;
      stateSince := seen.now;
      state := SpecialMenu;
    }

    method UpdateSpecialMenu(seen: Seen)
      modifies this
      ensures View() == FrameSpecialMenu(old(View()), seen)
    {
      if seen.specialOpen {
        specialMenuSeen := true;
        return;
      }
      if !specialMenuSeen && seen.now - stateSince < MENU_GRACE {
        return;
      }
      trace := trace + [RestoreControl];
      Finish();
    }

    // ---- steps ----------------------------------------------------------------------

    method Start(seen: Seen)
      modifies this
      ensures View() == M.Start(cfg, old(View()), seen)
    {
      if seen.mq101 >= MQ101_POD_OPENS || seen.mq102 >= 1 {
        Finish();
        return;
      }
      if seen.looksOpen {
        if seen.uiQueue {
          trace := trace + [CloseMirror];
        }
      }
      if cfg.chargen && cfg.chargenMode == 0 {
        AskForSex(seen);
      } else {
        BeginCommands(seen.now);
      }
    }

    method AskForSex(seen: Seen)
      modifies this
      ensures View() == Ask(old(View()), seen)
    {
      if !seen.messageBoxes {
        BeginCommands(seen.now);
        return;
      }
      choice := -1;
      trace := trace + [AskSex];
      waitUntil := seen.now;
      stateSince := seen.now;
      state := SexChoice;
    }

    method ApplySexChoice(seen: Seen)
      modifies this
      ensures View() == M.ApplySexChoice(old(View()), seen)
    {
      var wanted := if choice == 1 then Female else Male;
      var current := if seen.present then seen.sex else NoSex;
      if current != wanted && !sexChanged {
        sexChanged := true;
        trace := trace + [ChangeSex];
        waitUntil := seen.now + SEX_CHANGE_SETTLE;
        return;
      }
      BeginCommands(seen.now);
    }

    method BeginCommands(now: real)
      modifies this
      ensures View() == M.BeginCommands(old(View()), now)
    {
      trace := trace + [Begin];
      next := 0;
      waitUntil := now;
      stateSince := now;
      state := Running;
    }

    /** Takes the next line of the list; `more` if the loop may go on in this frame. */
    method RunNextCommand(seen: Seen) returns (more: bool)
      requires state == Running
      modifies this
      ensures (View(), more) == M.RunNextCommand(cfg, old(View()), seen)
    {
      if next >= |cfg.commands| {
        stateSince := seen.now;
        if cfg.chargen {
          state := WaitForPod;
        } else {
          Finish();
        }
        return false;
      }
      var index := next;
      next := next + 1;
      trace := trace + [Consume(index)];
      match cfg.commands[index] {
        case Wait(seconds) =>
          waitUntil := seen.now + seconds;
          return false;
        case Console(_) =>
          if seen.leaves(index) {
            state := Idle;   // the command itself ended the game; `OnLeaveWorld` ran inside it
          }
          return true;
      }
    }

    method OpenFaceMenu(seen: Seen)
      modifies this
      ensures View() == if !seen.present || !seen.scripts then old(View()).(state := Done)
                        else
                          Log(old(View()), ShowFace)
                            .(faceMenuSeen := false, stateSince := seen.now, state := FaceMenu)
    {
      if !seen.present || !seen.scripts {
        Finish();
        return;
      }
      trace := trace + [ShowFace];
      faceMenuSeen := false;
      stateSince := seen.now;
      state := FaceMenu;
    }

    method OpenSpecialMenu(seen: Seen)
      modifies this`trace
      ensures View() == if !seen.specialOpen && seen.scripts then Log(old(View()), ShowSpecial) else old(View())
    {
      if seen.specialOpen {
        return;
      }
      if !seen.scripts {
        return;
      }
      trace := trace + [ShowSpecial];
    }

    method Finish()
      modifies this`state
      ensures View() == old(View()).(state := Done)
    {
      state := Done;
    }
  }

  lemma CommandShrinks(cfg: Settings, s: Skip, seen: Seen)
    requires s.state == Running
    ensures var (s1, more) := M.RunNextCommand(cfg, s, seen);
            && RunCommands(cfg, s, seen) == (if more then RunCommands(cfg, s1, seen) else s1)
            && (more ==> s.next < s1.next <= |cfg.commands|)
            && (!more ==> s1.next >= s.next)
  {}
}
