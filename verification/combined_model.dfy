/**
 * The state machine behind `CombinedBot` in combined_bot.js, as pure
 * functions on a snapshot of its fields.
 *
 * One client at a time runs in one of two modes, fighter or herobrine, and a
 * two-hour timeout rotates the mode: the client quits and a fresh one logs in
 * five seconds later. Losing the connection schedules a reconnect in the
 * same mode. Patrol and guard are repeating intervals stored in the single
 * field `currentTask`, next to the flags `isPatrolling` and `isGuarding`.
 *
 * The outside world appears as effects appended to a log, as in the
 * `BotModel` module. A call through `this.bot` while it is null throws;
 * combined_bot.js installs a handler for uncaught exceptions that only logs
 * them, so a throw ends the running handler and nothing else. Every handler
 * therefore returns a `Step`: the fields at the point it stopped, and
 * whether it stopped by throwing.
 */
module CombinedModel {
  import opened Common
  import opened Text
  import opened Personas
  import opened Gear
  import opened Structures

  /** `BOT_USERNAME`: both modes log in under the same name. */
  const BotUsername: string := "FighterBot"

  /** `FIGHTER_DURATION` and `HEROBRINE_DURATION`: two hours each. */
  const RotationMs: nat := 7200000

  // ---------------------------------------------------------------- chat lines

  /**
   * Every line the bot says, by what it says; `LineText` gives the exact
   * text. A random pick carries the draw `roll` and chooses entry
   * `roll % n` of its list of `n`, as `Math.floor(Math.random() * n)` does.
   */
  datatype Line =
    | ModeActivated(mode: Mode)
    | BackSoon
    | HelloUser(username: string)
    | InMode(mode: Mode)
    | Rotating
    | HelpEntry(text: string)
    | StatusReport(mode: Mode, playersOnline: nat, health: string)
    | Uptime(hours: int, minutes: int, mode: Mode)
    | FighterReady
    | HerobrineArrived
    | TrueForm
    | Attacking(username: string) | CantSee(username: string) | CombatStopped
    | AlreadyGuarding | Guarding
    | AlreadyPatrolling | PatrolStarted | PatrolStopped
    | Mining | NoOres | CollectingWood | NoTrees | Equipped
    | Following(username: string) | StoppedFollowing | Coming(username: string)
    | Response(roll: nat)
    | Vanishes | Everywhere | Appears
    | ScaryWords(roll: nat) | ScaryEffect(roll: nat)
    | Stalking(username: string) | NoLongerStalking
    | Haunting(username: string) | HauntOver
    | BuildingStrange
    | Creepy(roll: nat)

  const Responses: seq<string> := [
    "...", "You called?", "I am here...", "Why do you speak my name?",
    "*whispers* Be careful what you wish for...", "The shadows hear you...",
    "Do not summon what you cannot control..."]

  /** The four scary actions: what each says, then what its effect helper says. */
  const ScaryLines: seq<string> := [
    "The walls are watching...", "*whispers* Join us in the darkness...",
    "Your world is not what it seems...", "The void calls to you..."]
  const ScaryEffects: seq<string> := [
    "*strange noises echo*", "*lightning flashes*", "*shadows move in the distance*", "*reality shifts*"]

  const CreepyLines: seq<string> := [
    "The end is near...", "They are watching...", "Your world is a lie...", "The voices... they speak...",
    "Darkness consumes all...", "You cannot escape...", "The truth will terrify you...", "Abandon hope...",
    "The void hungers...", "Your fate is sealed..."]

  function LineText(l: Line): string {
    match l
    case ModeActivated(m) => "Hello! " + ModeUpper(m) + " mode activated!"
    case BackSoon => "I died! But I will be back..."
    case HelloUser(u) => "Hello " + u + "! 👋"
    case InMode(m) => "I'm in " + ModeUpper(m) + " mode! ⚡"
    case Rotating => "🔄 Rotating to next mode..."
    case HelpEntry(t) => t
    case StatusReport(m, n, health) =>
      "Status: " + ModeUpper(m) + " mode | Players online: " + NatToString(n) + " | Health: " + health
    case Uptime(h, mins, m) => "Uptime: " + IntToString(h) + "h " + IntToString(mins) + "m in " + ModeUpper(m) + " mode"
    case FighterReady => "⚔️ Fighter mode activated! Ready for combat and adventure!"
    case HerobrineArrived => "👻 Herobrine has arrived... Be careful..."
    case TrueForm => "*my true form revealed*"
    case Attacking(u) => "⚔️ Attacking " + u + "! Prepare for battle!"
    case CantSee(u) => "I can't see " + u + " nearby."
    case CombatStopped => "🛑 Combat stopped. Standing down."
    case AlreadyGuarding => "🛡️ Already guarding this area!"
    case Guarding => "🛡️ Guarding this area! Intruders will be attacked!"
    case AlreadyPatrolling => "🚶 Already patrolling!"
    case PatrolStarted => "🚶 Starting area patrol!"
    case PatrolStopped => "🛑 Patrol stopped."
    case Mining => "⛏️ Starting to mine nearby blocks..."
    case NoOres => "No valuable ores found nearby."
    case CollectingWood => "🌲 Collecting wood..."
    case NoTrees => "No trees found nearby."
    case Equipped => "🛡️ Equipped best available gear!"
    case Following(u) => "👥 Following " + u + "!"
    case StoppedFollowing => "🛑 Stopped following."
    case Coming(u) => "🚶 Coming to " + u + "!"
    case Response(r) => Responses[r % |Responses|]
    case Vanishes => "*vanishes into the shadows*"
    case Everywhere => "I am everywhere... and nowhere..."
    case Appears => "*appears suddenly* Did you miss me?"
    case ScaryWords(r) => ScaryLines[r % |ScaryLines|]
    case ScaryEffect(r) => ScaryEffects[r % |ScaryEffects|]
    case Stalking(u) => "👁️ Stalking " + u + "..."
    case NoLongerStalking => "👁️ No longer stalking... for now."
    case Haunting(u) => "👻 Haunting " + u + "!"
    case HauntOver => "The haunting has ended... for now."
    case BuildingStrange => "🧱 Building something strange..."
    case Creepy(r) => CreepyLines[r % |CreepyLines|]
  }

  // ---------------------------------------------------------------- effects

  /** The work a one-shot timeout does when it fires. */
  datatype Job =
    | Greet                      // spawn: greet in the current mode
    | ModeGreet(mode: Mode)      // the mode's own spawn greeting
    | Revive                     // death: announce the return
    | Init                       // `initBot`
    | ReconnectQuit              // the first stage of `scheduleReconnect`
    | MentionFollowUp(username: string)   // teleport near the player and stare
    | VanishEcho                 // the line after `disappear`
    | HauntEnd                   // the end of `hauntPlayer`
    | GoalReset                  // the end of `followPlayerEntity`
    | PlaceBlock(at: Placement, block: string)
    | HelpLine(text: string)

  /** A repeating interval started into `currentTask`, with the guard closure's waypoint cursor. */
  datatype Task = PatrolRound | GuardRound(point: Waypoint)

  /** `currentPoint`: an index into the five guard positions. */
  type Waypoint = i: int | 0 <= i < 5

  /** The guard positions, as offsets from where the guard started. */
  const GuardOffsets: seq<(int, int)> := [(10, 10), (-10, -10), (10, -10), (-10, 10), (0, 0)]

  datatype Effect =
    | Connect(username: string)
    | Quit
    | Chat(line: Line)
    | After(delayMs: int, job: Job)
    | Equip(item: string)            // `bot.equip(item, 'hand')`
    | GoalNear(dx: int, dz: int)     // a guard waypoint handed to the pathfinder
    | Place(at: Placement, block: string)   // `bot.placeBlock` on an air block

  type Handle = nat

  /** A snapshot of the bot's fields. */
  datatype Vars = Vars(
    mode: Mode,                      // currentMode
    hasBot: bool,                    // bot !== null
    rotationTimer: Option<Handle>,   // rotationInterval
    pending: set<Handle>,            // the rotation timeouts armed and neither fired nor cleared
    startTime: Option<int>,
    isPatrolling: bool,
    isGuarding: bool,
    currentTask: Option<Handle>,
    running: map<Handle, Task>,      // the intervals started into currentTask that still run
    nextHandle: Handle,
    out: seq<Effect>)

  /** Where a handler stopped, and whether it stopped by throwing. */
  datatype Step = Step(v: Vars, threw: bool)

  function Done(v: Vars): Step {
    Step(v, false)
  }

  function Threw(v: Vars): Step {
    Step(v, true)
  }

  function Emit(v: Vars, e: Effect): Vars {
    v.(out := v.out + [e])
  }

  /** `this.bot.chat(...)`: throws when there is no client. */
  function Talk(v: Vars, line: Line): (r: Step)
    ensures r.threw <==> !v.hasBot
    ensures r.v == if v.hasBot then Emit(v, Chat(line)) else v
  {
    if v.hasBot then Done(Emit(v, Chat(line))) else Threw(v)
  }

  /** Two lines in a row, the second only when the first did not throw. */
  function Talk2(v: Vars, first: Line, second: Line): Step {
    var s := Talk(v, first);
    if s.threw then s else Talk(s.v, second)
  }

  // ---------------------------------------------------------------- the invariant

  /**
   * Handles in use are below `nextHandle`, and every pending rotation timeout
   * is the one `rotationInterval` holds: at most one rotation is pending.
   */
  predicate Valid(v: Vars) {
    && (forall h :: h in v.pending ==> h < v.nextHandle)
    && (forall h :: h in v.running ==> h < v.nextHandle)
    && (forall h :: h in v.pending ==> v.rotationTimer == Some(h))
  }

  /** At most one rotation pending, as a count. */
  lemma ValidSinglePending(v: Vars)
    requires Valid(v)
    ensures |v.pending| <= 1
    ensures v.rotationTimer.None? ==> v.pending == {}
  {
    if v.pending != {} {
      var h := v.rotationTimer.value;
      assert v.pending == {h};
    }
  }

  /** The fields other than the intervals and the log agree. */
  predicate SameSettings(a: Vars, b: Vars) {
    && a.mode == b.mode && a.hasBot == b.hasBot && a.rotationTimer == b.rotationTimer && a.pending == b.pending
    && a.startTime == b.startTime && a.isPatrolling == b.isPatrolling && a.isGuarding == b.isGuarding
    && a.currentTask == b.currentTask && a.nextHandle == b.nextHandle
  }

  /** `b` is `a` with some effects added to the log. */
  predicate LogOnly(a: Vars, b: Vars) {
    SameSettings(a, b) && a.running == b.running && |a.out| <= |b.out| && b.out[..|a.out|] == a.out
  }

  // ---------------------------------------------------------------- rotation and reconnect

  /** `startRotationTimer`: clears the armed rotation, if any, and arms a fresh one. */
  function StartRotationTimer(v: Vars): Vars {
    var kept := if v.rotationTimer.Some? then v.pending - {v.rotationTimer.value} else v.pending;
    v.(pending := kept + {v.nextHandle}, rotationTimer := Some(v.nextHandle), nextHandle := v.nextHandle + 1)
  }

  /** `initBot`: a new client in the current mode, then the rotation timer. */
  function InitBot(v: Vars): Vars {
    StartRotationTimer(Emit(v.(hasBot := true), Connect(BotUsername)))
  }

  /** The fields the constructor sets before `initBot`. */
  function Fresh(): Vars {
    Vars(Fighter, false, None, {}, None, false, false, None, map[], 0, [])
  }

  /** The fields right after the constructor. */
  function Initial(): (v: Vars)
    ensures Valid(v) && v.mode == Fighter && v.hasBot && |v.pending| == 1
  {
    var v := InitBot(Fresh());
    assert v.pending == {0};
    v
  }

  /** `clearInterval(this.currentTask); this.currentTask = null`. */
  function ClearTask(v: Vars): Vars {
    if v.currentTask.Some? then v.(running := v.running - {v.currentTask.value}, currentTask := None) else v
  }

  /** `this.currentTask = setInterval(...)`, over whatever the field held. */
  function Install(v: Vars, t: Task): Vars {
    v.(currentTask := Some(v.nextHandle), running := v.running[v.nextHandle := t], nextHandle := v.nextHandle + 1)
  }

  /** `stopPatrol`: drops the flag and `currentTask`, then resets the goal and says so through the client. */
  function StopPatrol(v: Vars): Step {
    var w := ClearTask(v.(isPatrolling := false));
    Talk(w, PatrolStopped)
  }

  /** `rotateBot`. */
  function RotateBot(v: Vars): Step {
    var s := StopPatrol(v);
    if s.threw then s
    else
      var w := ClearTask(s.v.(isGuarding := false));
      var w1 := if w.rotationTimer.Some? then w.(pending := w.pending - {w.rotationTimer.value}) else w;
      var w2 := if w1.hasBot then Emit(w1, Quit).(hasBot := false) else w1;
      Done(Emit(w2.(mode := Other(w2.mode)), After(5000, Init)))
  }

  /** The rotation timeout `h` fires. */
  function RotationFired(v: Vars, h: Handle): Step {
    RotateBot(v.(pending := v.pending - {h}))
  }

  /** `scheduleReconnect`. */
  function ScheduleReconnect(v: Vars): Vars {
    Emit(v, After(15000, ReconnectQuit))
  }

  /** The first stage of the reconnect: quit the client if there is one (the field keeps it), then re-init in 5 s. */
  function ReconnectQuitFired(v: Vars): Vars {
    Emit(if v.hasBot then Emit(v, Quit) else v, After(5000, Init))
  }

  /**
   * A rotation with a client stops the patrol and the guard, empties the
   * `currentTask` slot, clears the pending rotation, quits and drops the client, switches
   * the mode and arms the re-init in 5 s.
   */
  lemma RotateTeardown(v: Vars)
    requires v.hasBot && Valid(v)
    ensures var s := RotateBot(v);
      && !s.threw
      && !s.v.isPatrolling && !s.v.isGuarding && s.v.currentTask.None? && !s.v.hasBot
      && s.v.mode == Other(v.mode)
      && s.v.pending == {}
      && s.v.out == v.out + [Chat(PatrolStopped), Quit, After(5000, Init)]
      && Valid(s.v)
  {
    ValidSinglePending(v);
  }

  /** Without a client, a rotation throws in `stopPatrol` and the mode stays. */
  lemma RotateWithoutClient(v: Vars)
    requires !v.hasBot
    ensures RotateBot(v).threw && RotateBot(v).v.mode == v.mode && !RotateBot(v).v.isPatrolling
  {
  }

  /** Two rotations, each followed by its re-init, bring the original mode back. */
  lemma RotateTwiceRestoresMode(v: Vars)
    requires v.hasBot
    ensures var s := RotateBot(v);
      && s.v.mode == Other(v.mode)
      && InitBot(s.v).hasBot
      && RotateBot(InitBot(s.v)).v.mode == v.mode
  {
  }

  /** The reconnect path never changes the mode, the flags or the `currentTask` slot. */
  lemma ReconnectKeepsMode(v: Vars)
    ensures LogOnly(v, ScheduleReconnect(v)) && LogOnly(v, ReconnectQuitFired(v))
    ensures InitBot(v).mode == v.mode && InitBot(v).isPatrolling == v.isPatrolling
    ensures InitBot(v).isGuarding == v.isGuarding && InitBot(v).currentTask == v.currentTask
  {
  }

  /** Arming the rotation timer leaves exactly one rotation pending, the new one. */
  lemma StartRotationTimerSingle(v: Vars)
    requires Valid(v)
    ensures Valid(StartRotationTimer(v))
    ensures StartRotationTimer(v).pending == {v.nextHandle}
    ensures StartRotationTimer(v).mode == v.mode
  {
    ValidSinglePending(v);
  }

  /** `initBot` keeps the invariant, with the new rotation the only one pending. */
  lemma InitKeepsValid(v: Vars)
    requires Valid(v)
    ensures Valid(InitBot(v)) && InitBot(v).pending == {v.nextHandle}
  {
    StartRotationTimerSingle(Emit(v.(hasBot := true), Connect(BotUsername)));
  }

  lemma RotateValid(v: Vars)
    requires Valid(v)
    ensures Valid(RotateBot(v).v)
  {
    var s := StopPatrol(v);
    assert Valid(s.v);
    if !s.threw {
      var w := ClearTask(s.v.(isGuarding := false));
      assert Valid(w);
      var w1 := if w.rotationTimer.Some? then w.(pending := w.pending - {w.rotationTimer.value}) else w;
      assert Valid(w1);
    }
  }

  /** A rotation, called directly or fired by timeout `h`, keeps the invariant. */
  lemma RotateKeepsValid(v: Vars, h: Handle)
    requires Valid(v)
    ensures Valid(RotateBot(v).v)
    ensures Valid(RotationFired(v, h).v)
  {
    RotateValid(v);
    RotateValid(v.(pending := v.pending - {h}));
  }

  // ---------------------------------------------------------------- lifecycle events

  /** `login`: records the start time. */
  function OnLogin(v: Vars, now: int): Vars {
    v.(startTime := Some(now))
  }

  /** `spawn`: the common greeting in 3 s, then the mode's own greeting in 2 s. */
  function OnSpawn(v: Vars): Step {
    if !v.hasBot then Threw(v)   // `this.bot.autoEat` throws
    else Done(Emit(Emit(v, After(3000, Greet)), After(2000, ModeGreet(v.mode))))
  }

  function OnDeath(v: Vars): Vars {
    Emit(v, After(2000, Revive))
  }

  /** `kicked`, `error` and `end` all schedule a reconnect. */
  function OnLost(v: Vars): Vars {
    ScheduleReconnect(v)
  }

  /** `equipBestWeapon`: equips the item the priority walk picks, if any. */
  function EquipBest(v: Vars, inventory: seq<string>): Vars {
    match Pick(inventory, Weapons, 0)
    case Some(j) => Emit(v, Equip(inventory[j]))
    case None => v
  }

  /** The mode's own greeting: the fighter then equips its best weapon, the herobrine reveals its form. */
  function ModeGreetFired(v: Vars, m: Mode, inventory: seq<string>): Step {
    if m == Fighter then
      var s := Talk(v, FighterReady);
      if s.threw then s else Done(EquipBest(s.v, inventory))
    else Talk2(v, HerobrineArrived, TrueForm)
  }

  // ---------------------------------------------------------------- patrol and guard

  /** `startPatrol`. */
  function StartPatrol(v: Vars): Step {
    if v.isPatrolling then Talk(v, AlreadyPatrolling)
    else
      var w := v.(isPatrolling := true);
      var s := Talk(w, PatrolStarted);
      if s.threw then s else Done(Install(s.v, PatrolRound))
  }

  /** `guardArea`; `hasEntity` is whether the client has an entity to take the centre from. */
  function GuardArea(v: Vars, hasEntity: bool): Step {
    if v.isGuarding then Talk(v, AlreadyGuarding)
    else
      var w := v.(isGuarding := true);
      if !w.hasBot || !hasEntity then Threw(w)   // `this.bot.entity.position` throws
      else Done(Install(Emit(w, Chat(Guarding)), GuardRound(0)))
  }

  /** `clearInterval(this.currentTask)` inside a tick: stops whatever the field holds, and leaves the field set. */
  function StopCurrent(v: Vars): Vars {
    if v.currentTask.Some? then v.(running := v.running - {v.currentTask.value}) else v
  }

  /**
   * A tick of guard interval `h`: it stops the field's interval when there is
   * no entity or the guard is off, waits while fighting, and otherwise heads
   * for the waypoint under the cursor and moves the cursor on, mod 5.
   */
  function GuardTicked(v: Vars, h: Handle, hasEntity: bool, fighting: bool): Step
    requires h in v.running && v.running[h].GuardRound?
  {
    if !v.hasBot then Threw(v)
    else if !hasEntity || !v.isGuarding then Done(StopCurrent(v))
    else if fighting then Done(v)
    else Done(GuardMoved(v, h))
  }

  /** A guard tick that moves: the goal under the cursor, and the cursor one place on. */
  function GuardMoved(v: Vars, h: Handle): Vars
    requires h in v.running && v.running[h].GuardRound?
  {
    var p := v.running[h].point;
    Emit(v.(running := v.running[h := GuardRound((p + 1) % 5)]), GoalNear(GuardOffsets[p].0, GuardOffsets[p].1))
  }

  /** A tick of patrol interval `h`: the same guard conditions, then a random walk (not modelled). */
  function PatrolTicked(v: Vars, h: Handle, hasEntity: bool): Step
    requires h in v.running && v.running[h] == PatrolRound
  {
    if !v.hasBot then Threw(v)
    else if !hasEntity || !v.isPatrolling then Done(StopCurrent(v))
    else Done(v)
  }

  /** While already patrolling or guarding, the command only answers. */
  lemma AlreadyGuardsLemma(v: Vars, hasEntity: bool)
    requires v.hasBot
    ensures v.isPatrolling ==> StartPatrol(v) == Done(Emit(v, Chat(AlreadyPatrolling)))
    ensures v.isGuarding ==> GuardArea(v, hasEntity) == Done(Emit(v, Chat(AlreadyGuarding)))
    ensures !v.isPatrolling ==> StartPatrol(v).v.isPatrolling && StartPatrol(v).v.currentTask == Some(v.nextHandle)
    ensures !v.isGuarding && hasEntity ==>
      GuardArea(v, hasEntity).v.isGuarding && GuardArea(v, hasEntity).v.running[v.nextHandle] == GuardRound(0)
  {
  }

  /** `k` quiet guard ticks of interval `h`: client, entity, guard on, not fighting. */
  function GuardRounds(v: Vars, h: Handle, k: nat): Vars
    requires h in v.running && v.running[h].GuardRound?
    decreases k
  {
    if k == 0 || !v.hasBot || !v.isGuarding then v
    else GuardRounds(GuardMoved(v, h), h, k - 1)
  }

  /** The waypoints the cursor visits from `start`, `k` of them. */
  function Tour(start: Waypoint, k: nat): seq<Effect>
    decreases k
  {
    if k == 0 then [] else [GoalNear(GuardOffsets[start].0, GuardOffsets[start].1)] + Tour((start + 1) % 5, k - 1)
  }

  /** One quiet guard tick: the goal under the cursor, and the cursor one place on. */
  lemma GuardStep(v: Vars, h: Handle)
    requires h in v.running && v.running[h].GuardRound?
    requires v.hasBot && v.isGuarding
    ensures GuardTicked(v, h, true, false) == Done(GuardMoved(v, h))
    ensures var w := GuardMoved(v, h);
      var p := v.running[h].point;
      && h in w.running && w.running[h] == GuardRound((p + 1) % 5)
      && w.running.Keys == v.running.Keys
      && w.out == v.out + [GoalNear(GuardOffsets[p].0, GuardOffsets[p].1)]
      && SameSettings(v, w)
  {
  }

  lemma ModStep(p: int, q: int, k: nat)
    requires k > 0 && q == (p + 1) % 5
    ensures (q + (k - 1)) % 5 == (p + k) % 5
  {
  }

  /** After `k` quiet ticks the cursor has moved `k` places, mod 5. */
  lemma {:induction false} GuardCursor(v: Vars, h: Handle, k: nat)
    requires h in v.running && v.running[h].GuardRound?
    requires v.hasBot && v.isGuarding
    ensures var r := GuardRounds(v, h, k);
      h in r.running && r.running[h] == GuardRound((v.running[h].point + k) % 5)
    decreases k
  {
    if k > 0 {
      var w := GuardMoved(v, h);
      GuardStep(v, h);
      GuardCursor(w, h, k - 1);
      ModStep(v.running[h].point, w.running[h].point, k);
    }
  }

  /**
   * The guard visits the waypoints 0, 1, 2, 3, 4, 0, ... in turn: the goals
   * handed out by `k` quiet ticks are the tour from the cursor.
   */
  lemma {:induction false} GuardCycle(v: Vars, h: Handle, k: nat)
    requires h in v.running && v.running[h].GuardRound?
    requires v.hasBot && v.isGuarding
    ensures GuardRounds(v, h, k).out == v.out + Tour(v.running[h].point, k)
    decreases k
  {
    if k > 0 {
      var p := v.running[h].point;
      var w := GuardMoved(v, h);
      GuardStep(v, h);
      var q := w.running[h].point;
      GuardCycle(w, h, k - 1);
      var g := [GoalNear(GuardOffsets[p].0, GuardOffsets[p].1)];
      var t := Tour(q, k - 1);
      assert GuardRounds(v, h, k) == GuardRounds(w, h, k - 1);
      assert Tour(p, k) == g + t;
      AppendAssoc(v.out, g, t);
    }
  }

  /** Quiet guard ticks move the cursor and hand out goals, and nothing else. */
  lemma {:induction false} GuardFrame(v: Vars, h: Handle, k: nat)
    requires h in v.running && v.running[h].GuardRound?
    requires v.hasBot && v.isGuarding
    ensures SameSettings(v, GuardRounds(v, h, k)) && GuardRounds(v, h, k).running.Keys == v.running.Keys
    decreases k
  {
    if k > 0 {
      GuardStep(v, h);
      GuardFrame(GuardMoved(v, h), h, k - 1);
    }
  }

  /** Any multiple of five quiet guard ticks brings the cursor back to where it started. */
  lemma GuardCycleReturns(v: Vars, h: Handle, k: nat)
    requires h in v.running && v.running[h].GuardRound?
    requires v.hasBot && v.isGuarding && k % 5 == 0
    ensures h in GuardRounds(v, h, k).running && GuardRounds(v, h, k).running[h] == v.running[h]
  {
    GuardCursor(v, h, k);
  }

  /**
   * Patrol and guard share `currentTask` and neither clears it first. After
   * `!patrol`, `!guard` and `!stop patrol`, the stop has ended the guard's
   * interval, the guard flag is still set, and the patrol interval runs on
   * with nothing left that refers to it.
   */
  lemma SharedSlotOrphansPatrol(v: Vars)
    requires v.hasBot && !v.isPatrolling && !v.isGuarding && Valid(v)
    ensures var p := StartPatrol(v).v;
      var g := GuardArea(p, true).v;
      var s := StopPatrol(g).v;
      && v.nextHandle in s.running && s.running[v.nextHandle] == PatrolRound
      && v.nextHandle + 1 !in s.running
      && s.isGuarding && !s.isPatrolling && s.currentTask.None?
  {
  }

  /** `startPatrol` as evidently intended: whatever `currentTask` holds is stopped before the patrol interval is stored. */
  function StartPatrolClearing(v: Vars): Step {
    if v.isPatrolling then Talk(v, AlreadyPatrolling)
    else
      var w := v.(isPatrolling := true);
      var s := Talk(w, PatrolStarted);
      if s.threw then s else Done(Install(ClearTask(s.v), PatrolRound))
  }

  /** `guardArea` as evidently intended, clearing `currentTask` before storing the guard interval. */
  function GuardAreaClearing(v: Vars, hasEntity: bool): Step {
    if v.isGuarding then Talk(v, AlreadyGuarding)
    else
      var w := v.(isGuarding := true);
      if !w.hasBot || !hasEntity then Threw(w)
      else Done(Install(ClearTask(Emit(w, Chat(Guarding))), GuardRound(0)))
  }

  /**
   * When each start clears the slot first, `!patrol`, `!guard`, `!stop patrol`
   * leave none of the intervals they started running: every interval still
   * running was running before.
   */
  lemma SharedSlotCleared(v: Vars)
    requires v.hasBot && !v.isPatrolling && !v.isGuarding && Valid(v)
    ensures var p := StartPatrolClearing(v).v;
      var g := GuardAreaClearing(p, true).v;
      var s := StopPatrol(g).v;
      && !s.isPatrolling && s.currentTask.None?
      && (forall h :: h in s.running ==> h in v.running)
      && v.nextHandle !in s.running && v.nextHandle + 1 !in s.running
  {
  }

  // ---------------------------------------------------------------- uptime

  /** JavaScript's `%` on a positive divisor: the remainder takes the sign of the dividend. */
  function JsRem(a: int, b: int): (r: int)
    requires b > 0
    ensures a >= 0 ==> r == a % b
    ensures -b < r < b
  {
    if a >= 0 then a % b else -((-a) % b)
  }

  const HourMs: nat := 3600000
  const MinuteMs: nat := 60000

  /** `Math.floor(uptime / (1000 * 60 * 60))`. */
  function UptimeHours(u: int): int {
    u / HourMs
  }

  /** `Math.floor((uptime % (1000 * 60 * 60)) / (1000 * 60))`. */
  function UptimeMinutes(u: int): int {
    JsRem(u, HourMs) / MinuteMs
  }

  /** For a non-negative uptime the minutes are below 60 and hours and minutes make the whole minutes. */
  lemma UptimeSplit(u: int)
    requires u >= 0
    ensures 0 <= UptimeMinutes(u) < 60
    ensures UptimeHours(u) * 60 + UptimeMinutes(u) == u / MinuteMs
  {
    var h, r := u / HourMs, u % HourMs;
    assert u == h * HourMs + r;
    var m, s := r / MinuteMs, r % MinuteMs;
    assert r == m * MinuteMs + s;
    assert u == (h * 60 + m) * MinuteMs + s;
  }

  /** `showUptime`: silent until the first login has set a (non-zero) start time. */
  function ShowUptime(v: Vars, now: int): Step {
    match v.startTime
    case None => Done(v)
    case Some(t) =>
      if t == 0 then Done(v)
      else Talk(v, Uptime(UptimeHours(now - t), UptimeMinutes(now - t), v.mode))
  }

  // ---------------------------------------------------------------- help and status

  const HelpLines: seq<string> := [
    "=== BOT COMMANDS ===",
    "!help - Show this help",
    "!mode - Check current mode",
    "!rotate - Switch modes manually",
    "!status - Bot status",
    "!time - Uptime",
    "",
    "=== FIGHTER COMMANDS ===",
    "!attack me - Attack you",
    "!stop attack - Stop attacking",
    "!guard - Guard area",
    "!patrol - Start patrolling",
    "!stop patrol - Stop patrolling",
    "!mine - Mine nearby ores",
    "!collect wood - Collect wood",
    "!equip best - Equip best gear",
    "!follow me - Follow you",
    "!stop follow - Stop following",
    "!come - Come to your position",
    "",
    "=== HEROBRINE COMMANDS ===",
    "Say \"herobrine\" - Summon me",
    "!disappear - Vanish",
    "!appear - Reappear",
    "!scare - Scary action",
    "!stalk [player] - Stalk player",
    "!stop stalk - Stop stalking",
    "!haunt [player] - Haunt player",
    "!build strange - Build something",
    "!message - Creepy message"]

  /** One timeout per line, every one of them after the same 100 ms. */
  function HelpTimeouts(lines: seq<string>): (r: seq<Effect>)
    ensures |r| == |lines|
  {
    seq(|lines|, i requires 0 <= i < |lines| => After(100, HelpLine(lines[i])))
  }

  /** One more line adds its timeout at the end. */
  lemma HelpTimeoutsSnoc(lines: seq<string>, i: nat)
    requires i < |lines|
    ensures HelpTimeouts(lines[..i + 1]) == HelpTimeouts(lines[..i]) + [After(100, HelpLine(lines[i]))]
  {
    var a, b := HelpTimeouts(lines[..i + 1]), HelpTimeouts(lines[..i]) + [After(100, HelpLine(lines[i]))];
    assert forall k :: 0 <= k < |a| ==> a[k] == b[k];
  }

  /** `showHelp`: the same thirty lines in either mode. */
  function ShowHelp(v: Vars): Vars {
    v.(out := v.out + HelpTimeouts(HelpLines))
  }

  /** Help arms thirty timeouts, all of them at 100 ms, in the order of the list; nothing else changes. */
  lemma HelpLemma(v: Vars)
    ensures |ShowHelp(v).out| == |v.out| + 30 && ShowHelp(v).out[..|v.out|] == v.out
    ensures forall i :: 0 <= i < 30 ==> ShowHelp(v).out[|v.out| + i] == After(100, HelpLine(HelpLines[i]))
    ensures LogOnly(v, ShowHelp(v))
  {
    assert |HelpLines| == 30;
  }

  /** What the client reports that the handlers consult. */
  datatype Scene = Scene(
    senderSeen: bool,        // the sender is a known player with an entity
    anyoneSeen: bool,        // some player has an entity
    hasEntity: bool,         // the bot's own entity exists
    playersOnline: nat,      // the other players
    health: string,          // `bot.health` as JavaScript prints it
    oresFound: bool,
    treesFound: bool,
    airAt: bool,             // the block a build timeout targets is air
    inventory: seq<string>,  // the item names, in inventory order
    now: int)                // `Date.now()`

  function ShowStatus(v: Vars, sc: Scene): Step {
    if !v.hasBot then Threw(v) else Talk(v, StatusReport(v.mode, sc.playersOnline, sc.health))
  }

  // ---------------------------------------------------------------- timeouts firing

  /** A one-shot timeout fires; whatever it calls goes through `this.bot` as it is then. */
  function Fired(v: Vars, j: Job, sc: Scene): Step {
    match j
    case Greet => Talk(v, ModeActivated(v.mode))
    case ModeGreet(m) => ModeGreetFired(v, m, sc.inventory)
    case Revive => Talk(v, BackSoon)
    case Init => Done(InitBot(v))
    case ReconnectQuit => Done(ReconnectQuitFired(v))
    case MentionFollowUp(_) => if v.hasBot then Done(v) else Threw(v)   // teleport and stare move only
    case VanishEcho => Talk(v, Everywhere)
    case HauntEnd => Talk(v, HauntOver)
    case GoalReset => if v.hasBot then Done(v) else Threw(v)
    case PlaceBlock(p, b) =>
      if !v.hasBot then Threw(v)
      else if sc.airAt then Done(Emit(Emit(v, Equip(b)), Place(p, b)))
      else Done(v)
    case HelpLine(t) => Talk(v, HelpEntry(t))
  }

  /**
   * A timeout other than the re-init only adds to the log, and one that
   * talks or moves throws exactly when there is no client.
   */
  lemma FiredLogsOnly(v: Vars, j: Job, sc: Scene)
    requires j != Init
    ensures var s := Fired(v, j, sc);
      && LogOnly(v, s.v)
      && (j != ReconnectQuit ==> (s.threw <==> !v.hasBot))
  {
    if j.ModeGreet? {
      ModeGreetLogsOnly(v, j.mode, sc.inventory);
    }
  }

  lemma ModeGreetLogsOnly(v: Vars, m: Mode, inventory: seq<string>)
    ensures LogOnly(v, ModeGreetFired(v, m, inventory).v)
    ensures ModeGreetFired(v, m, inventory).threw <==> !v.hasBot
  {
  }

  /** The re-init brings a client back and keeps the mode, the flags and the `currentTask` slot. */
  lemma FiredInit(v: Vars, sc: Scene)
    ensures var s := Fired(v, Init, sc);
      && !s.threw && s.v.hasBot && s.v.mode == v.mode && s.v.currentTask == v.currentTask
      && s.v.running == v.running && s.v.isPatrolling == v.isPatrolling && s.v.isGuarding == v.isGuarding
  {
  }

  /** Every timeout keeps the invariant. */
  lemma FiredKeepsValid(v: Vars, j: Job, sc: Scene)
    requires Valid(v)
    ensures Valid(Fired(v, j, sc).v)
  {
    if j == Init {
      InitKeepsValid(v);
    } else {
      FiredLogsOnly(v, j, sc);
    }
  }

  // ---------------------------------------------------------------- chat dispatch

  /** The common commands. Each is an exact match on the lower-cased text, so at most one applies. */
  datatype CommonCommand = Greeting | AskMode | RotateNow | AskHelp | AskStatus | AskTime | NoCommon

  function CommonOf(msg: string): CommonCommand {
    if msg == "hi" || msg == "hello" || msg == "hey" then Greeting
    else if msg == "!mode" then AskMode
    else if msg == "!rotate" then RotateNow
    else if msg == "!help" then AskHelp
    else if msg == "!status" then AskStatus
    else if msg == "!time" then AskTime
    else NoCommon
  }

  /** The common chat listener, after the self-filter. */
  function CommonCommands(v: Vars, username: string, cmd: CommonCommand, sc: Scene): Step {
    match cmd
    case Greeting => Talk(v, HelloUser(username))
    case AskMode => Talk(v, InMode(v.mode))
    case RotateNow =>
      var s := Talk(v, Rotating);
      if s.threw then s else RotateBot(s.v)
    case AskHelp => Done(ShowHelp(v))
    case AskStatus => ShowStatus(v, sc)
    case AskTime => ShowUptime(v, sc.now)
    case NoCommon => Done(v)
  }

  datatype FighterCommand =
    | AttackMe | StopAttack | Guard | Patrol | StopPatrolling | Mine | CollectWood | EquipGear
    | FollowMe | StopFollow | Come | NoFighter

  function FighterOf(msg: string): FighterCommand {
    if msg == "!attack me" then AttackMe
    else if msg == "!stop attack" then StopAttack
    else if msg == "!guard" then Guard
    else if msg == "!patrol" then Patrol
    else if msg == "!stop patrol" then StopPatrolling
    else if msg == "!mine" then Mine
    else if msg == "!collect wood" then CollectWood
    else if msg == "!equip best" then EquipGear
    else if msg == "!follow me" then FollowMe
    else if msg == "!stop follow" then StopFollow
    else if msg == "!come" then Come
    else NoFighter
  }

  /** `attackPlayer`: equip, attack and announce when the sender is in sight. */
  function AttackPlayer(v: Vars, username: string, sc: Scene): Step {
    if !v.hasBot then Threw(v)
    else if sc.senderSeen then Talk(EquipBest(v, sc.inventory), Attacking(username))
    else Talk(v, CantSee(username))
  }

  /** The fighter's chat listener, after the self-filter. */
  function FighterCommands(v: Vars, username: string, cmd: FighterCommand, sc: Scene): Step {
    match cmd
    case AttackMe => AttackPlayer(v, username, sc)
    case StopAttack => Talk(v, CombatStopped)
    case Guard => GuardArea(v, sc.hasEntity)
    case Patrol => StartPatrol(v)
    case StopPatrolling => StopPatrol(v)
    case Mine => if sc.oresFound then Talk(v, Mining) else Talk2(v, Mining, NoOres)
    case CollectWood => if sc.treesFound then Talk(v, CollectingWood) else Talk2(v, CollectingWood, NoTrees)
    case EquipGear => if !v.hasBot then Threw(v) else Talk(EquipBest(v, sc.inventory), Equipped)
    case FollowMe =>
      if !v.hasBot then Threw(v)
      else if sc.senderSeen then Done(Emit(Emit(v, Chat(Following(username))), After(30000, GoalReset)))
      else Done(v)
    case StopFollow => Talk(v, StoppedFollowing)
    case Come =>
      if !v.hasBot then Threw(v)
      else if sc.senderSeen then Talk(v, Coming(username))
      else Done(v)
    case NoFighter => Done(v)
  }

  datatype HerobrineCommand = Disappear | Appear | Scare | Stalk | StopStalk | Haunt | BuildStrange | Message | NoHerobrine

  function HerobrineOf(msg: string): HerobrineCommand {
    if msg == "!disappear" then Disappear
    else if msg == "!appear" then Appear
    else if msg == "!scare" then Scare
    else if msg == "!stalk" then Stalk
    else if msg == "!stop stalk" then StopStalk
    else if msg == "!haunt" then Haunt
    else if msg == "!build strange" then BuildStrange
    else if msg == "!message" then Message
    else NoHerobrine
  }

  /** A mention of herobrine, hb, ghost or scary anywhere in the text. */
  predicate Mentions(msg: string) {
    Contains(msg, "herobrine") || Contains(msg, "hb") || Contains(msg, "ghost") || Contains(msg, "scary")
  }

  /** The block timeouts of a build: one per cell of the schedule, each at its delay. */
  function Arm(cells: seq<Placement>, block: string): (r: seq<Effect>)
    ensures |r| == |cells|
  {
    seq(|cells|, i requires 0 <= i < |cells| => After(cells[i].delayMs, PlaceBlock(cells[i], block)))
  }

  /** The herobrine's exact commands, after the reply to a mention. */
  function HerobrineCommands(v: Vars, username: string, cmd: HerobrineCommand, sc: Scene, roll: nat): Step {
    match cmd
    case Disappear =>
      var s := Talk(v, Vanishes);
      if s.threw then s
      else if !sc.hasEntity then Threw(s.v)   // `hideFromPlayers` reads the entity's position
      else Done(Emit(s.v, After(3000, VanishEcho)))
    case Appear =>
      if !v.hasBot then Threw(v)
      else if sc.anyoneSeen then Talk(v, Appears)
      else Done(v)
    case Scare => Talk2(v, ScaryWords(roll), ScaryEffect(roll))
    case Stalk =>
      var s := Talk(v, Stalking(username));
      if s.threw || !sc.senderSeen then s else Done(Emit(s.v, After(60000, GoalReset)))
    case StopStalk => if !v.hasBot then Threw(v) else Talk(v, NoLongerStalking)
    case Haunt =>
      var s := Talk(v, Haunting(username));
      if s.threw then s else Done(Emit(s.v, After(60000, HauntEnd)))
    case BuildStrange =>
      var s := Talk(v, BuildingStrange);
      if s.threw then s
      else if !sc.hasEntity then Threw(s.v)   // `this.bot.entity.position` throws
      else Done(s.v.(out := s.v.out + Arm(Schedule(Strange), BlockName(Strange))))
    case Message => Talk(v, Creepy(roll))
    case NoHerobrine => Done(v)
  }

  /** The herobrine's chat listener, after the self-filter. */
  function HerobrineListener(v: Vars, username: string, msg: string, sc: Scene, roll: nat): Step {
    var s := if Mentions(msg) then
        (var t := Talk(v, Response(roll)); if t.threw then t else Done(Emit(t.v, After(2000, MentionFollowUp(username)))))
      else Done(v);
    if s.threw then s else HerobrineCommands(s.v, username, HerobrineOf(msg), sc, roll)
  }

  /**
   * A chat event. The common listener and the listener of the mode the client
   * was started in run one after the other, each with its own self-filter
   * through `this.bot.username`; a throw in the first keeps the second from
   * running.
   */
  function Chatted(v: Vars, username: string, message: string, sc: Scene, roll: nat): Step {
    var msg := ToLower(message);
    var m := v.mode;
    var c :=
      if !v.hasBot then Threw(v)
      else if username == BotUsername then Done(v)
      else CommonCommands(v, username, CommonOf(msg), sc);
    if c.threw then c
    else if !c.v.hasBot then Threw(c.v)   // after a rotation `this.bot.username` throws
    else if username == BotUsername then c
    else if m == Fighter then FighterCommands(c.v, username, FighterOf(msg), sc)
    else HerobrineListener(c.v, username, msg, sc, roll)
  }

  /**
   * Quitting a client ends its connection, and the end of any client
   * schedules a reconnect: the client the first reconnect stage quits
   * reports its end, so after the re-init the new client has another quit
   * armed against it, 15 s away, in the same mode.
   */
  lemma ReconnectRearms(v: Vars)
    requires v.hasBot
    ensures var w := InitBot(OnLost(ReconnectQuitFired(v)));
      && w.hasBot && w.mode == v.mode
      && w.out == v.out + [Quit, After(5000, Init), After(15000, ReconnectQuit), Connect(BotUsername)]
  {
  }

  /**
   * The `kicked`, `error` and `end` handlers as evidently intended: the end
   * of a client the bot has itself quit (`stale`) schedules nothing.
   */
  function OnLostOnce(v: Vars, stale: bool): Vars {
    if stale then v else OnLost(v)
  }

  /**
   * With the stale end ignored, one reconnect quits the client, re-inits it
   * in the same mode and leaves no further reconnect armed, while a loss of
   * the live client still schedules one.
   */
  lemma ReconnectSettles(v: Vars)
    requires v.hasBot
    ensures var w := InitBot(OnLostOnce(ReconnectQuitFired(v), true));
      && w.hasBot && w.mode == v.mode
      && w.out == v.out + [Quit, After(5000, Init), Connect(BotUsername)]
    ensures OnLostOnce(v, false).out == v.out + [After(15000, ReconnectQuit)]
  {
  }

  /** The bot ignores its own lines. */
  lemma OwnChatIgnored(v: Vars, message: string, sc: Scene, roll: nat)
    requires v.hasBot
    ensures Chatted(v, BotUsername, message, sc, roll) == Done(v)
  {
  }

  /** "!rotate" is neither a fighter nor a herobrine command. */
  lemma RotateIsCommonOnly()
    ensures FighterOf("!rotate") == NoFighter && HerobrineOf("!rotate") == NoHerobrine
  {
  }

  /**
   * `!rotate` from another player rotates the mode; the mode listener then
   * finds no client and throws, which the process survives.
   */
  lemma ChatRotate(v: Vars, username: string, sc: Scene, roll: nat)
    requires v.hasBot && Valid(v) && username != BotUsername
    ensures var s := Chatted(v, username, "!rotate", sc, roll);
      && s.threw && s.v.mode == Other(v.mode) && !s.v.hasBot
      && !s.v.isPatrolling && !s.v.isGuarding && s.v.currentTask.None?
      && Valid(s.v)
  {
    ToLowerFixes("!rotate");
    var w := Emit(v, Chat(Rotating));
    RotateTeardown(w);
  }

  /**
   * `b` differs from `a` at most in the patrol and guard state and the log:
   * the mode, the client, the rotation timer and the start time are kept,
   * and any interval running in `b` either ran in `a` or is new.
   */
  predicate Settled(a: Vars, b: Vars) {
    && b.mode == a.mode && b.hasBot == a.hasBot && b.rotationTimer == a.rotationTimer
    && b.pending == a.pending && b.startTime == a.startTime && a.nextHandle <= b.nextHandle
    && (forall h :: h in b.running ==> h in a.running || a.nextHandle <= h < b.nextHandle)
  }

  lemma SettledValid(a: Vars, b: Vars)
    requires Valid(a) && Settled(a, b)
    ensures Valid(b)
  {
  }

  lemma SettledTrans(a: Vars, b: Vars, c: Vars)
    requires Settled(a, b) && Settled(b, c)
    ensures Settled(a, c)
  {
  }

  /** Every common command but `!rotate` leaves the rotation state alone. */
  lemma CommonSettled(v: Vars, username: string, cmd: CommonCommand, sc: Scene)
    requires cmd != RotateNow
    ensures Settled(v, CommonCommands(v, username, cmd, sc).v)
  {
  }

  lemma FighterSettled(v: Vars, username: string, cmd: FighterCommand, sc: Scene)
    ensures Settled(v, FighterCommands(v, username, cmd, sc).v)
  {
    match cmd
    case Guard => GuardSettled(v, sc.hasEntity);
    case Patrol => PatrolSettled(v);
    case StopPatrolling => PatrolSettled(v);
    case _ =>
  }

  lemma GuardSettled(v: Vars, hasEntity: bool)
    ensures Settled(v, GuardArea(v, hasEntity).v)
  {
  }

  lemma PatrolSettled(v: Vars)
    ensures Settled(v, StartPatrol(v).v) && Settled(v, StopPatrol(v).v)
  {
  }

  lemma HerobrineSettled(v: Vars, username: string, cmd: HerobrineCommand, sc: Scene, roll: nat)
    ensures Settled(v, HerobrineCommands(v, username, cmd, sc, roll).v)
  {
  }

  /**
   * Only `!rotate` from another player moves the mode, the client or the
   * rotation timer; every other line keeps the invariant.
   */
  lemma ChatSettled(v: Vars, username: string, message: string, sc: Scene, roll: nat)
    requires v.hasBot && username != BotUsername ==> CommonOf(ToLower(message)) != RotateNow
    ensures Settled(v, Chatted(v, username, message, sc, roll).v)
    ensures Valid(v) ==> Valid(Chatted(v, username, message, sc, roll).v)
  {
    var msg := ToLower(message);
    var cmd := CommonOf(msg);
    var s := Chatted(v, username, message, sc, roll);
    if v.hasBot && username != BotUsername {
      var c := CommonCommands(v, username, cmd, sc);
      CommonSettled(v, username, cmd, sc);
      if !c.threw && c.v.hasBot {
        if v.mode == Fighter {
          FighterSettled(c.v, username, FighterOf(msg), sc);
          SettledTrans(v, c.v, s.v);
        } else {
          var t := if Mentions(msg) then
              (var t := Talk(c.v, Response(roll)); if t.threw then t else Done(Emit(t.v, After(2000, MentionFollowUp(username)))))
            else Done(c.v);
          assert Settled(c.v, t.v);
          if !t.threw {
            HerobrineSettled(t.v, username, HerobrineOf(msg), sc, roll);
            SettledTrans(c.v, t.v, s.v);
          }
          SettledTrans(v, c.v, s.v);
        }
      }
    }
    if Valid(v) {
      SettledValid(v, s.v);
    }
  }

  /** Every chat line keeps the invariant, `!rotate` included. */
  lemma ChatKeepsValid(v: Vars, username: string, message: string, sc: Scene, roll: nat)
    requires Valid(v)
    ensures Valid(Chatted(v, username, message, sc, roll).v)
  {
    var msg := ToLower(message);
    if v.hasBot && username != BotUsername && CommonOf(msg) == RotateNow {
      RotateTeardown(Emit(v, Chat(Rotating)));
    } else {
      ChatSettled(v, username, message, sc, roll);
    }
  }
}
