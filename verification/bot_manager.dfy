/**
 * `BotManager` of bot.js as a class whose fields the handlers update in
 * place. Every method is tied to the state-machine function of `BotModel`
 * that specifies it: `View()` after the call is that function of `View()`
 * before it, so every property proved there about the functions holds of
 * the object.
 *
 * Events and timer callbacks are methods; what the game client would report
 * to them (whether the sender is in sight, the time of day, the random
 * draws) comes in as arguments.
 */
module BotRuntime {
  import opened Common
  import opened Text
  import opened Personas
  import opened BotModel

  class BotManager {
    var currentBotIndex: Index
    var hasBot: bool                 // currentBot !== null
    var isNight: bool
    var isSleeping: bool
    var isFighting: bool
    var currentTask: Option<Handle>
    var running: map<Handle, Task>   // the intervals started into the slot that still run
    var nextHandle: Handle
    var botStatus: Status
    var out: seq<Effect>             // what the manager has asked of the outside world
    var crashed: bool                // an exception has ended the process

    /** The fields as a `BotModel` snapshot. */
    function View(): Vars
      reads this
    {
      Vars(currentBotIndex, hasBot, isNight, isSleeping, isFighting,
           Slot(currentTask, running, nextHandle), botStatus, out, crashed)
    }

    /** The constructor: initial fields, then `startBotRotation` connects the fighter. */
    constructor ()
      ensures View() == Initial()
    {
      currentBotIndex := 0;
      hasBot := false;
      isNight := false;
      isSleeping := false;
      isFighting := false;
      currentTask := None;
      running := map[];
      nextHandle := 0;
      botStatus := Starting;
      out := [];
      crashed := false;
      new;
      StartBotRotation();
    }

    method StartBotRotation()
      modifies this
      ensures View() == Connected(old(View()).(status := Starting))
    {
      botStatus := Starting;
      ConnectBot();
    }

    /** `connectBot`, and the reconnect timeout of a rotation. */
    method ConnectBot()
      modifies this
      ensures View() == Connected(old(View()))
    {
      var username := Usernames[currentBotIndex];
      botStatus := Connecting(ModeOf(currentBotIndex));
      hasBot := true;
      out := out + [Connect(username)];
    }

    // ------------------------------------------------------------ primitives

    /** `bot.chat(...)` through the client an event handler captured. */
    method SayLine(line: Line)
      modifies this
      ensures View() == Say(old(View()), line)
    {
      out := out + [Chat(line)];
    }

    /** `this.currentBot.chat(...)`. */
    method ChatCurrent(line: Line)
      modifies this
      ensures View() == Spoken(old(View()), line)
    {
      if !hasBot {
        crashed := true;
      } else {
        out := out + [Chat(line)];
      }
    }

    method SetTimeout(delayMs: nat, job: Job)
      modifies this
      ensures View() == Later(old(View()), delayMs, job)
    {
      out := out + [After(delayMs, job)];
    }

    /** `this.currentTask = setInterval(...)`. */
    method SetTask(t: Task)
      modifies this
      ensures View() == Installed(old(View()), t)
    {
      currentTask := Some(nextHandle);
      running := running[nextHandle := t];
      nextHandle := nextHandle + 1;
    }

    method ClearTasks()
      modifies this
      ensures View() == Cleared(old(View()))
    {
      if currentTask.Some? {
        running := running - {currentTask.value};
        currentTask := None;
      }
    }

    // ------------------------------------------------------------ lifecycle events

    method OnLogin()
      modifies this
      ensures View() == BotModel.OnLogin(old(View()))
    {
      botStatus := LoggedIn(ModeOf(currentBotIndex));
    }

    method OnSpawn()
      modifies this
      ensures View() == OnSpawnAsWritten(old(View()))
    {
      var mode := ModeOf(currentBotIndex);
      botStatus := Active(mode);
      SetTimeout(3000, Greet(mode));
      StartTimeMonitoring();
      if mode == Fighter {
        StartFighterActivities();
      } else {
        StartHerobrineActivities();
      }
    }

    method StartTimeMonitoring()
      modifies this
      ensures View() == Monitored(old(View()))
    {
      out := out + [Every(30000, ClockCheck)];
    }

    /** The greeting timeout armed at spawn. */
    method GreetTimeout(mode: Mode, hasEntity: bool, timeOfDay: int)
      modifies this
      ensures View() == GreetFired(old(View()), mode, hasEntity, timeOfDay)
    {
      SayLine(ModeActivated(mode));
      CheckTimeAndSleep(hasEntity, timeOfDay);
    }

    method OnDeath()
      modifies this
      ensures View() == BotModel.OnDeath(old(View()))
    {
      var mode := ModeOf(currentBotIndex);
      isFighting := false;
      botStatus := Dead(mode);
      SetTimeout(2000, Recover(mode));
    }

    /** The timeout armed at death. */
    method RecoverTimeout(mode: Mode)
      modifies this
      ensures View() == RecoverFired(old(View()), mode)
    {
      SayLine(BackSoon);
      botStatus := Active(mode);
    }

    method OnKicked()
      modifies this
      ensures View() == BotModel.OnKicked(old(View()))
    {
      botStatus := KickedOut;
      RotateToNextBot();
    }

    method OnError()
      modifies this
      ensures View() == BotModel.OnError(old(View()))
    {
      botStatus := Failed;
      RotateToNextBot();
    }

    method OnEnd()
      modifies this
      ensures View() == BotModel.OnEnd(old(View()))
    {
      botStatus := Disconnected;
      RotateToNextBot();
    }

    method RotateToNextBot()
      modifies this
      ensures View() == Rotated(old(View()))
    {
      if hasBot {
        out := out + [Quit];
        hasBot := false;
      }
      currentBotIndex := NextIndex(currentBotIndex);
      SetTimeout(10000, Reconnect);
    }

    method ManualRotate()
      modifies this
      ensures View() == Rotated(old(View()))
    {
      RotateToNextBot();
    }

    // ------------------------------------------------------------ day and night

    /** `checkTimeAndSleep`, on a monitoring tick or after the greeting. */
    method CheckTimeAndSleep(hasEntity: bool, timeOfDay: int)
      modifies this
      ensures View() == TimeChecked(old(View()), hasEntity, timeOfDay)
    {
      if !hasBot {
        crashed := true;   // reading `this.currentBot.entity` throws
        return;
      }
      if !hasEntity {
        return;
      }
      var wasNight := isNight;
      isNight := IsNightTime(timeOfDay);
      if isNight && !wasNight {
        GoToSleep();
      } else if !isNight && wasNight {
        WakeUp();
      }
    }

    method GoToSleep()
      modifies this
      ensures View() == Slept(old(View()))
    {
      if isSleeping {
        return;
      }
      isSleeping := true;
      isFighting := false;
      ClearTasks();
      SetTimeout(2000, GoodNight);
    }

    /** The good-night timeout, said by the client captured when it was armed. */
    method GoodNightTimeout()
      modifies this
      ensures View() == Say(old(View()), GoodNightLine)
    {
      SayLine(GoodNightLine);
    }

    method WakeUp()
      modifies this
      ensures View() == Woken(old(View()))
    {
      if !isSleeping {
        return;
      }
      isSleeping := false;
      ChatCurrent(GoodMorning);
    }

    method ForceSleep()
      modifies this
      ensures View() == ForcedSleep(old(View()))
    {
      if !isNight {
        ChatCurrent(NotNightYet);
        return;
      }
      GoToSleep();
    }

    method ForceWake()
      modifies this
      ensures View() == ForcedWake(old(View()))
    {
      if isNight {
        ChatCurrent(StillNight);
        return;
      }
      WakeUp();
    }

    // ------------------------------------------------------------ daytime activity

    method StartFighterActivities()
      modifies this
      ensures View() == ActivitiesStartedAsWritten(old(View()), Fighter)
    {
      if isNight {
        return;
      }
      SetTask(FighterIdle);
    }

    method StartHerobrineActivities()
      modifies this
      ensures View() == ActivitiesStartedAsWritten(old(View()), Herobrine)
    {
      if isNight {
        return;
      }
      SetTask(HerobrineIdle);
    }

    /** A tick of the fighter's idle interval. */
    method FighterIdleTick(lucky: bool)
      modifies this
      ensures View() == FighterIdleTicked(old(View()), lucky)
    {
      if !isNight && !isFighting && lucky {
        RandomMovement();
      }
    }

    method RandomMovement()
      modifies this
      ensures View() == (if old(hasBot) then old(View()) else Crash(old(View())))
    {
      if !hasBot {
        crashed := true;   // reading `this.currentBot.entity` throws
      }
    }

    /** A tick of the herobrine idle interval. */
    method HerobrineIdleTick(lucky: bool, pick: nat, roll: nat)
      modifies this
      ensures View() == HerobrineIdleTicked(old(View()), lucky, pick, roll)
    {
      if !isNight && lucky {
        RandomHerobrineBehavior(pick, roll);
      }
    }

    /** Called by the idle tick only by day. */
    method RandomHerobrineBehavior(pick: nat, roll: nat)
      requires !isNight
      modifies this
      ensures View() == HerobrineIdleTicked(old(View()), true, pick, roll)
    {
      var behavior := pick % 3;
      if behavior == 0 {
        SendCreepyMessage(roll);
      } else if behavior == 1 {
        StareAtNearestPlayer();
      } else {
        ChatCurrent(Laughs);
      }
    }

    // ------------------------------------------------------------ fighter commands

    method AttackPlayer(username: string, seen: bool)
      modifies this
      ensures View() == Attacked(old(View()), username, seen)
    {
      if isNight {
        ChatCurrent(NoFighting);
        return;
      }
      if !hasBot {
        crashed := true;   // reading `this.currentBot.players` throws
        return;
      }
      if seen {
        isFighting := true;
        ChatCurrent(Attacking(username));
        SetTimeout(15000, AttackTimeout);
      } else {
        ChatCurrent(CantSee(username));
      }
    }

    /** `stopAttack`, and the timeout `attackPlayer` arms. */
    method StopAttack()
      modifies this
      ensures View() == AttackStopped(old(View()))
    {
      isFighting := false;
      ChatCurrent(CombatStopped);
    }

    method GuardArea()
      modifies this
      ensures View() == Guarded(old(View()))
    {
      if isNight {
        ChatCurrent(NoGuarding);
        return;
      }
      ChatCurrent(Guarding);
      if !hasBot {
        return;   // the chat above threw
      }
      GuardBehavior();
    }

    method GuardBehavior()
      modifies this
      ensures View() == GuardStarted(old(View()))
    {
      ClearTasks();
      SetTask(GuardLook);
    }

    /** A tick of the guard interval. */
    method GuardTick(hasEntity: bool)
      modifies this
      ensures View() == GuardTicked(old(View()), hasEntity)
    {
      if isNight {
        ClearTasks();
        return;
      }
      if !hasBot {
        crashed := true;   // reading `this.currentBot.entity` throws
        return;
      }
      if !hasEntity || isFighting {
        ClearTasks();
      }
    }

    method FollowPlayer(username: string, seen: bool)
      modifies this
      ensures View() == Followed(old(View()), username, seen)
    {
      if isNight {
        ChatCurrent(NoFollowing);
        return;
      }
      if !hasBot {
        crashed := true;   // reading `this.currentBot.players` throws
        return;
      }
      if seen {
        ChatCurrent(Following(username));
        FollowBehavior(username);
      }
    }

    method FollowBehavior(username: string)
      modifies this
      ensures View() == FollowStarted(old(View()), username)
    {
      ClearTasks();
      SetTask(FollowLook(username));
    }

    /** A tick of the follow interval. */
    method FollowTick(seen: bool)
      modifies this
      ensures View() == FollowTicked(old(View()), seen)
    {
      if !hasBot {
        crashed := true;   // reading `this.currentBot.players` throws
        return;
      }
      if !seen || isNight {
        ClearTasks();
      }
    }

    method StopFollow()
      modifies this
      ensures View() == FollowStopped(old(View()))
    {
      ClearTasks();
      ChatCurrent(StoppedFollowing);
    }

    method ComeToPlayer(username: string, seen: bool)
      modifies this
      ensures View() == Came(old(View()), username, seen)
    {
      if isNight {
        ChatCurrent(CannotCome);
        return;
      }
      if !hasBot {
        crashed := true;   // reading `this.currentBot.players` throws
        return;
      }
      if seen {
        ChatCurrent(Coming(username));
      }
    }

    method ExploreArea()
      modifies this
      ensures View() == Explored(old(View()))
    {
      if isNight {
        ChatCurrent(NoExploring);
        return;
      }
      ChatCurrent(Exploring);
    }

    // ------------------------------------------------------------ herobrine commands

    method RespondToMention(username: string, roll: nat)
      modifies this
      ensures View() == Answered(old(View()), username, roll)
    {
      if isNight {
        ChatCurrent(Zzz);
        return;
      }
      ChatCurrent(Response(roll));
      if !hasBot {
        return;   // the chat above threw
      }
      SetTimeout(1000, Stare(username));
    }

    /** `stareAtPlayer`, the timeout `respondToMention` arms. */
    method StareAtPlayer(username: string)
      modifies this
      ensures View() == Stared(old(View()))
    {
      if !hasBot {
        crashed := true;   // reading `this.currentBot.players` throws
      }
    }

    method StareAtNearestPlayer()
      modifies this
      ensures View() == Stared(old(View()))
    {
      if !hasBot {
        crashed := true;   // reading `this.currentBot.players` throws
      }
    }

    method Disappear()
      modifies this
      ensures View() == Vanished(old(View()))
    {
      if isNight {
        ChatCurrent(AlreadyGone);
        return;
      }
      ChatCurrent(Vanishes);
      if !hasBot {
        return;   // the chat above threw
      }
      ClearTasks();
    }

    method Appear()
      modifies this
      ensures View() == Reappeared(old(View()))
    {
      if isNight {
        ChatCurrent(StillSleeping);
        return;
      }
      ChatCurrent(Appears);
      if !hasBot {
        return;   // the chat above threw
      }
      StareAtNearestPlayer();
    }

    method ScaryAction(roll: nat)
      modifies this
      ensures View() == Scared(old(View()), roll)
    {
      if isNight {
        ChatCurrent(TooSleepy);
        return;
      }
      ChatCurrent(Scary(roll));
      if !hasBot {
        return;   // the chat above threw
      }
      StareAtNearestPlayer();
    }

    method StalkPlayer(username: string)
      modifies this
      ensures View() == Stalked(old(View()), username)
    {
      if isNight {
        ChatCurrent(NotStalking);
        return;
      }
      ChatCurrent(Stalking(username));
      if !hasBot {
        return;   // the chat above threw
      }
      FollowBehavior(username);
    }

    method StopStalking()
      modifies this
      ensures View() == StalkStopped(old(View()))
    {
      ClearTasks();
      ChatCurrent(NoLongerStalking);
    }

    method SendCreepyMessage(roll: nat)
      modifies this
      ensures View() == Messaged(old(View()), roll)
    {
      if isNight {
        ChatCurrent(NoMessages);
        return;
      }
      ChatCurrent(Creepy(roll));
    }

    // ------------------------------------------------------------ help and status

    /** `showHelp`: one timeout per help line, line `i` after `i * 100` ms. */
    method ShowHelp(mode: Mode)
      modifies this
      ensures View() == HelpShown(old(View()), mode)
    {
      ScheduleHelp(HelpLines(mode));
    }

    /** The `forEach` of `showHelp`: one timeout per line, in order. */
    method ScheduleHelp(helpMessages: seq<string>)
      modifies this
      ensures View() == old(View()).(out := old(out) + Staggered(helpMessages))
    {
      var index := 0;
      while index < |helpMessages|
        invariant 0 <= index <= |helpMessages|
        invariant View() == old(View()).(out := old(out) + Staggered(helpMessages)[..index])
      {
        assert Staggered(helpMessages)[..index + 1] == Staggered(helpMessages)[..index] + [After(index * 100, HelpLine(helpMessages[index]))];
        SetTimeout(index * 100, HelpLine(helpMessages[index]));
        index := index + 1;
      }
      assert Staggered(helpMessages)[..index] == Staggered(helpMessages);
    }

    /** The timeout of one help line: it is said only while there is a client. */
    method HelpLineTimeout(text: string)
      modifies this
      ensures View() == (if old(hasBot) then Say(old(View()), HelpEntry(text)) else old(View()))
    {
      if hasBot {
        SayLine(HelpEntry(text));
      }
    }

    method ShowStatus(mode: Mode, sc: Scene)
      modifies this
      ensures View() == StatusShown(old(View()), mode, sc)
    {
      if !hasBot {
        crashed := true;   // reading `this.currentBot.players` throws
        return;
      }
      ChatCurrent(StatusReport(mode, isNight, sc.health, sc.othersOnline));
    }

    // ------------------------------------------------------------ chat

    /** The `chat` event of the live session. */
    method OnChat(username: string, message: string, sc: Scene, roll: nat)
      modifies this
      ensures View() == ChattedAsWritten(old(View()), username, message, sc, roll)
    {
      var mode := ModeOf(currentBotIndex);
      if username == Usernames[currentBotIndex] {
        return;
      }
      var msg := ToLower(message);
      Universals(mode, username, UniversalOf(msg), sc);
      if crashed {
        return;
      }
      ghost var u := View();
      if mode == Fighter {
        HandleFighterCommands(username, msg, sc);
        assert ModeCommandsAsWritten(u, mode, username, msg, sc, 0) == ModeCommandsAsWritten(u, mode, username, msg, sc, roll);
      } else {
        HandleHerobrineCommands(username, msg, roll);
        assert ModeCommandsAsWritten(u, mode, username, msg, Scene(false, 0, 0), roll) == ModeCommandsAsWritten(u, mode, username, msg, sc, roll);
      }
    }

    /** The universal rules of the chat handler; at most one applies. */
    method Universals(mode: Mode, username: string, cmd: UniversalCommand, sc: Scene)
      modifies this
      ensures View() == Universal(old(View()), mode, username, cmd, sc)
    {
      match cmd
      case Greeting => SayLine(HelloUser(username));
      case AskMode => SayLine(InMode(mode));
      case RotateNow =>
        SayLine(Rotating);
        ManualRotate();
      case AskHelp => ShowHelp(mode);
      case AskStatus => ShowStatus(mode, sc);
      case SleepNow => ForceSleep();
      case WakeNow => ForceWake();
      case NoUniversal =>
    }

    /** `handleFighterCommands`: the night notice goes through `this.currentBot`. */
    method HandleFighterCommands(username: string, msg: string, sc: Scene)
      modifies this
      ensures View() == ModeCommandsAsWritten(old(View()), Fighter, username, msg, sc, 0)
    {
      if isNight {
        if StartsWith(msg, "!") {
          ChatCurrent(NightNotice(Fighter));
        }
        return;
      }
      match FighterOf(msg)
      case AttackMe => AttackPlayer(username, sc.senderSeen);
      case StopAttack => StopAttack();
      case Guard => GuardArea();
      case FollowMe => FollowPlayer(username, sc.senderSeen);
      case StopFollow => StopFollow();
      case Come => ComeToPlayer(username, sc.senderSeen);
      case Explore => ExploreArea();
      case NoFighter =>
    }

    /** `handleHerobrineCommands`: the night notice goes through `this.currentBot`. */
    method HandleHerobrineCommands(username: string, msg: string, roll: nat)
      modifies this
      ensures View() == ModeCommandsAsWritten(old(View()), Herobrine, username, msg, Scene(false, 0, 0), roll)
    {
      if isNight {
        if StartsWith(msg, "!") {
          ChatCurrent(NightNotice(Herobrine));
        }
        return;
      }
      if Mentions(msg) {
        RespondToMention(username, roll);
      }
      if crashed {
        return;   // the reply threw
      }
      match HerobrineOf(msg)
      case Disappear => Disappear();
      case Appear => Appear();
      case Scare => ScaryAction(roll);
      case Stalk => StalkPlayer(username);
      case StopStalk => StopStalking();
      case Message => SendCreepyMessage(roll);
      case NoHerobrine =>
    }
  }
}
