/**
 * `CombinedBot` of combined_bot.js as a class whose fields the handlers
 * update in place. Every method is tied to the function of `CombinedModel`
 * that specifies it: the fields after the call, with whether the call
 * threw, are that function of the fields before it, so every property
 * proved there about the functions holds of the object.
 *
 * A handler that throws returns `threw == true` and leaves the fields as
 * they were when the exception was raised; the process-wide handler for
 * uncaught exceptions only logs it.
 */
module CombinedRuntime {
  import opened Common
  import opened Text
  import opened Personas
  import Gear
  import opened Structures
  import opened CombinedModel

  class CombinedBot {
    var mode: Mode                     // currentMode
    var hasBot: bool                   // bot !== null
    var rotationTimer: Option<Handle>  // rotationInterval
    var pending: set<Handle>           // the rotation timeouts still armed
    var startTime: Option<int>
    var isPatrolling: bool
    var isGuarding: bool
    var currentTask: Option<Handle>
    var running: map<Handle, Task>     // the intervals started into currentTask that still run
    var nextHandle: Handle
    var out: seq<Effect>               // what the bot has asked of the outside world

    /** The fields as a `CombinedModel` snapshot. */
    function View(): Vars
      reads this
    {
      Vars(mode, hasBot, rotationTimer, pending, startTime, isPatrolling, isGuarding,
           currentTask, running, nextHandle, out)
    }

    /** The constructor: the fighter mode, no client and no tasks, then `initBot`. */
    constructor ()
      ensures View() == Initial()
    {
      mode := Fighter;
      hasBot := false;
      rotationTimer := None;
      pending := {};
      startTime := None;
      isPatrolling := false;
      isGuarding := false;
      currentTask := None;
      running := map[];
      nextHandle := 0;
      out := [];
      new;
      InitBot();
    }

    // ------------------------------------------------------------ primitives

    /** `this.bot.chat(...)`. */
    method Say(line: Line) returns (threw: bool)
      modifies this
      ensures Step(View(), threw) == Talk(old(View()), line)
    {
      if !hasBot {
        return true;
      }
      out := out + [Chat(line)];
      return false;
    }

    method SetTimeout(delayMs: int, job: Job)
      modifies this
      ensures View() == Emit(old(View()), After(delayMs, job))
    {
      out := out + [After(delayMs, job)];
    }

    method ClearTask()
      modifies this
      ensures View() == CombinedModel.ClearTask(old(View()))
    {
      if currentTask.Some? {
        running := running - {currentTask.value};
        currentTask := None;
      }
    }

    /** `this.currentTask = setInterval(...)`. */
    method Install(t: Task)
      modifies this
      ensures View() == CombinedModel.Install(old(View()), t)
    {
      currentTask := Some(nextHandle);
      running := running[nextHandle := t];
      nextHandle := nextHandle + 1;
    }

    // ------------------------------------------------------------ rotation and reconnect

    method InitBot()
      modifies this
      ensures View() == CombinedModel.InitBot(old(View()))
    {
      hasBot := true;
      out := out + [Connect(BotUsername)];
      StartRotationTimer();
    }

    method StartRotationTimer()
      modifies this
      ensures View() == CombinedModel.StartRotationTimer(old(View()))
    {
      if rotationTimer.Some? {
        pending := pending - {rotationTimer.value};
      }
      pending := pending + {nextHandle};
      rotationTimer := Some(nextHandle);
      nextHandle := nextHandle + 1;
    }

    method StopPatrol() returns (threw: bool)
      modifies this
      ensures Step(View(), threw) == CombinedModel.StopPatrol(old(View()))
    {
      isPatrolling := false;
      ClearTask();
      threw := Say(PatrolStopped);
    }

    /** `rotateBot`, also what `manualRotate` does. */
    method RotateBot() returns (threw: bool)
      modifies this
      ensures Step(View(), threw) == CombinedModel.RotateBot(old(View()))
    {
      threw := StopPatrol();
      if threw {
        return;
      }
      isGuarding := false;
      ClearTask();
      if rotationTimer.Some? {
        pending := pending - {rotationTimer.value};
      }
      if hasBot {
        out := out + [Quit];
        hasBot := false;
      }
      mode := Other(mode);
      SetTimeout(5000, Init);
    }

    /** The rotation timeout `h` fires. */
    method RotationTimeout(h: Handle) returns (threw: bool)
      modifies this
      ensures Step(View(), threw) == RotationFired(old(View()), h)
    {
      pending := pending - {h};
      threw := RotateBot();
    }

    method ScheduleReconnect()
      modifies this
      ensures View() == CombinedModel.ScheduleReconnect(old(View()))
    {
      SetTimeout(15000, ReconnectQuit);
    }

    method ReconnectQuitTimeout()
      modifies this
      ensures View() == ReconnectQuitFired(old(View()))
    {
      if hasBot {
        out := out + [Quit];
      }
      SetTimeout(5000, Init);
    }

    // ------------------------------------------------------------ lifecycle events

    method OnLogin(now: int)
      modifies this
      ensures View() == CombinedModel.OnLogin(old(View()), now)
    {
      startTime := Some(now);
    }

    method OnSpawn() returns (threw: bool)
      modifies this
      ensures Step(View(), threw) == CombinedModel.OnSpawn(old(View()))
    {
      if !hasBot {
        return true;
      }
      SetTimeout(3000, Greet);
      SetTimeout(2000, ModeGreet(mode));
      return false;
    }

    method OnDeath()
      modifies this
      ensures View() == CombinedModel.OnDeath(old(View()))
    {
      SetTimeout(2000, Revive);
    }

    /** `kicked`, `error` and `end`. */
    method OnLost()
      modifies this
      ensures View() == CombinedModel.OnLost(old(View()))
    {
      ScheduleReconnect();
    }

    /** `equipBestWeapon`, through the priority walk of `Gear`. */
    method EquipBestWeapon(inventory: seq<string>)
      modifies this
      ensures View() == EquipBest(old(View()), inventory)
    {
      var choice := Gear.EquipBestWeapon(inventory);
      if choice.Some? {
        out := out + [Equip(inventory[choice.value])];
      }
    }

    method ModeGreetTimeout(m: Mode, inventory: seq<string>) returns (threw: bool)
      modifies this
      ensures Step(View(), threw) == ModeGreetFired(old(View()), m, inventory)
    {
      if m == Fighter {
        threw := Say(FighterReady);
        if !threw {
          EquipBestWeapon(inventory);
        }
      } else {
        threw := Say(HerobrineArrived);
        if !threw {
          threw := Say(TrueForm);
        }
      }
    }

    /** A one-shot timeout fires. */
    method Timeout(j: Job, sc: Scene) returns (threw: bool)
      modifies this
      ensures Step(View(), threw) == Fired(old(View()), j, sc)
    {
      match j
      case Greet => threw := Say(ModeActivated(mode));
      case ModeGreet(m) => threw := ModeGreetTimeout(m, sc.inventory);
      case Revive => threw := Say(BackSoon);
      case Init => InitBot(); threw := false;
      case ReconnectQuit => ReconnectQuitTimeout(); threw := false;
      case MentionFollowUp(_) => threw := !hasBot;
      case VanishEcho => threw := Say(Everywhere);
      case HauntEnd => threw := Say(HauntOver);
      case GoalReset => threw := !hasBot;
      case PlaceBlock(p, b) =>
        threw := !hasBot;
        if hasBot && sc.airAt {
          out := out + [Equip(b), Place(p, b)];
        }
      case HelpLine(t) => threw := Say(HelpEntry(t));
    }

    // ------------------------------------------------------------ patrol and guard

    method StartPatrol() returns (threw: bool)
      modifies this
      ensures Step(View(), threw) == CombinedModel.StartPatrol(old(View()))
    {
      if isPatrolling {
        threw := Say(AlreadyPatrolling);
        return;
      }
      isPatrolling := true;
      threw := Say(PatrolStarted);
      if !threw {
        Install(PatrolRound);
      }
    }

    method GuardArea(hasEntity: bool) returns (threw: bool)
      modifies this
      ensures Step(View(), threw) == CombinedModel.GuardArea(old(View()), hasEntity)
    {
      if isGuarding {
        threw := Say(AlreadyGuarding);
        return;
      }
      isGuarding := true;
      if !hasBot || !hasEntity {
        return true;
      }
      out := out + [Chat(Guarding)];
      Install(GuardRound(0));
      return false;
    }

    /** A tick of the guard interval `h`. */
    method GuardTick(h: Handle, hasEntity: bool, fighting: bool) returns (threw: bool)
      requires h in running && running[h].GuardRound?
      modifies this
      ensures Step(View(), threw) == GuardTicked(old(View()), h, hasEntity, fighting)
    {
      if !hasBot {
        return true;
      }
      if !hasEntity || !isGuarding {
        if currentTask.Some? {
          running := running - {currentTask.value};
        }
        return false;
      }
      if fighting {
        return false;
      }
      var p: int := running[h].point;
      running := running[h := GuardRound((p + 1) % 5)];
      out := out + [GoalNear(GuardOffsets[p].0, GuardOffsets[p].1)];
      return false;
    }

    /** A tick of the patrol interval `h`. */
    method PatrolTick(h: Handle, hasEntity: bool) returns (threw: bool)
      requires h in running && running[h] == PatrolRound
      modifies this
      ensures Step(View(), threw) == PatrolTicked(old(View()), h, hasEntity)
    {
      if !hasBot {
        return true;
      }
      if (!hasEntity || !isPatrolling) && currentTask.Some? {
        running := running - {currentTask.value};
      }
      return false;
    }

    // ------------------------------------------------------------ help, status, uptime

    /** `showHelp`: one timeout per line of the list, in order. */
    method ShowHelp()
      modifies this
      ensures View() == CombinedModel.ShowHelp(old(View()))
    {
      ScheduleHelp(HelpLines);
    }

    method ScheduleHelp(helpMessages: seq<string>)
      modifies this
      ensures View() == old(View()).(out := old(out) + HelpTimeouts(helpMessages))
    {
      var i := 0;
      while i < |helpMessages|
        invariant 0 <= i <= |helpMessages|
        invariant View() == old(View()).(out := old(out) + HelpTimeouts(helpMessages[..i]))
      {
        HelpTimeoutsSnoc(helpMessages, i);
        out := out + [After(100, HelpLine(helpMessages[i]))];
        i := i + 1;
      }
      assert helpMessages[..i] == helpMessages;
    }

    method ShowStatus(sc: Scene) returns (threw: bool)
      modifies this
      ensures Step(View(), threw) == CombinedModel.ShowStatus(old(View()), sc)
    {
      threw := Say(StatusReport(mode, sc.playersOnline, sc.health));
    }

    method ShowUptime(now: int) returns (threw: bool)
      modifies this
      ensures Step(View(), threw) == CombinedModel.ShowUptime(old(View()), now)
    {
      if startTime.None? || startTime.value == 0 {
        return false;
      }
      var uptime := now - startTime.value;
      var hours := uptime / 3600000;
      var minutes := JsRem(uptime, 3600000) / 60000;
      threw := Say(Uptime(hours, minutes, mode));
    }

    // ------------------------------------------------------------ chat

    method CommonChat(username: string, cmd: CommonCommand, sc: Scene) returns (threw: bool)
      modifies this
      ensures Step(View(), threw) == CommonCommands(old(View()), username, cmd, sc)
    {
      match cmd
      case Greeting => threw := Say(HelloUser(username));
      case AskMode => threw := Say(InMode(mode));
      case RotateNow =>
        threw := Say(Rotating);
        if !threw {
          threw := RotateBot();
        }
      case AskHelp => ShowHelp(); threw := false;
      case AskStatus => threw := ShowStatus(sc);
      case AskTime => threw := ShowUptime(sc.now);
      case NoCommon => threw := false;
    }

    method AttackPlayer(username: string, sc: Scene) returns (threw: bool)
      modifies this
      ensures Step(View(), threw) == CombinedModel.AttackPlayer(old(View()), username, sc)
    {
      if !hasBot {
        return true;
      }
      if sc.senderSeen {
        EquipBestWeapon(sc.inventory);
        threw := Say(Attacking(username));
      } else {
        threw := Say(CantSee(username));
      }
    }

    method FighterChat(username: string, cmd: FighterCommand, sc: Scene) returns (threw: bool)
      modifies this
      ensures Step(View(), threw) == FighterCommands(old(View()), username, cmd, sc)
    {
      match cmd
      case AttackMe => threw := AttackPlayer(username, sc);
      case StopAttack => threw := Say(CombatStopped);
      case Guard => threw := GuardArea(sc.hasEntity);
      case Patrol => threw := StartPatrol();
      case StopPatrolling => threw := StopPatrol();
      case Mine =>
        threw := Say(Mining);
        if !threw && !sc.oresFound {
          threw := Say(NoOres);
        }
      case CollectWood =>
        threw := Say(CollectingWood);
        if !threw && !sc.treesFound {
          threw := Say(NoTrees);
        }
      case EquipGear =>
        if !hasBot {
          return true;
        }
        EquipBestWeapon(sc.inventory);
        threw := Say(Equipped);
      case FollowMe =>
        if !hasBot {
          return true;
        }
        if sc.senderSeen {
          out := out + [Chat(Following(username))];
          SetTimeout(30000, GoalReset);
        }
        threw := false;
      case StopFollow => threw := Say(StoppedFollowing);
      case Come =>
        if !hasBot {
          return true;
        }
        threw := false;
        if sc.senderSeen {
          threw := Say(Coming(username));
        }
      case NoFighter => threw := false;
    }

    method HerobrineChat(username: string, cmd: HerobrineCommand, sc: Scene, roll: nat) returns (threw: bool)
      modifies this
      ensures Step(View(), threw) == HerobrineCommands(old(View()), username, cmd, sc, roll)
    {
      match cmd
      case Disappear =>
        threw := Say(Vanishes);
        if threw {
          return;
        }
        if !sc.hasEntity {
          return true;
        }
        SetTimeout(3000, VanishEcho);
      case Appear =>
        if !hasBot {
          return true;
        }
        threw := false;
        if sc.anyoneSeen {
          threw := Say(Appears);
        }
      case Scare =>
        threw := Say(ScaryWords(roll));
        if !threw {
          threw := Say(ScaryEffect(roll));
        }
      case Stalk =>
        threw := Say(Stalking(username));
        if !threw && sc.senderSeen {
          SetTimeout(60000, GoalReset);
        }
      case StopStalk => threw := Say(NoLongerStalking);
      case Haunt =>
        threw := Say(Haunting(username));
        if !threw {
          SetTimeout(60000, HauntEnd);
        }
      case BuildStrange =>
        threw := Say(BuildingStrange);
        if threw {
          return;
        }
        if !sc.hasEntity {
          return true;
        }
        out := out + Arm(Schedule(Strange), BlockName(Strange));
      case Message => threw := Say(Creepy(roll));
      case NoHerobrine => threw := false;
    }

    /** The herobrine's chat listener: the reply to a mention, then the exact commands. */
    method HerobrineListen(username: string, msg: string, sc: Scene, roll: nat) returns (threw: bool)
      modifies this
      ensures Step(View(), threw) == HerobrineListener(old(View()), username, msg, sc, roll)
    {
      if Mentions(msg) {
        threw := Say(Response(roll));
        if threw {
          return;
        }
        SetTimeout(2000, MentionFollowUp(username));
      }
      threw := HerobrineChat(username, HerobrineOf(msg), sc, roll);
    }

    /** A chat event: the common listener, then the listener of the client's mode. */
    method OnChat(username: string, message: string, sc: Scene, roll: nat) returns (threw: bool)
      modifies this
      ensures Step(View(), threw) == Chatted(old(View()), username, message, sc, roll)
    {
      var msg := ToLower(message);
      var m := mode;
      if !hasBot {
        return true;
      }
      if username != BotUsername {
        threw := CommonChat(username, CommonOf(msg), sc);
        if threw {
          return;
        }
      }
      if !hasBot {
        return true;   // a rotation above dropped the client
      }
      if username == BotUsername {
        return false;
      }
      if m == Fighter {
        threw := FighterChat(username, FighterOf(msg), sc);
      } else {
        threw := HerobrineListen(username, msg, sc, roll);
      }
    }
  }
}
