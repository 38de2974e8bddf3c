/**
 * The state machine behind `BotManager` in bot.js, as pure functions on a
 * snapshot of its fields.
 *
 * The manager drives one Minecraft client at a time and alternates between
 * two personas, FighterBot and HerobrineBot. It records a lifecycle status
 * string, tracks day and night from the world clock (sleeping through the
 * night), keeps at most one repeating behaviour task in a single slot, and
 * answers chat commands.
 *
 * The outside world appears as effects appended to a log: connecting a
 * client, quitting it, saying a chat line, and arming a one-shot timeout
 * (`After`). The repeating intervals stored in the `currentTask` slot are kept in
 * `running`, keyed by an abstract handle, so that an interval the slot has
 * lost track of stays visible. `this.currentBot` is null between a rotation
 * and the reconnect; a method that calls through it then throws, and since
 * bot.js installs no handler for uncaught exceptions that ends the process.
 * This is the `crashed` flag.
 */
module BotModel {
  import opened Common
  import opened Text
  import opened Personas

  // ---------------------------------------------------------------- personas

  /** `currentBotIndex`: a position in the two-entry username list. */
  type Index = i: int | 0 <= i < 2

  const Usernames: seq<string> := ["FighterBot", "HerobrineBot"]

  /** The mode of a persona: fighter for index 0, herobrine otherwise. */
  function ModeOf(i: Index): Mode {
    if i == 0 then Fighter else Herobrine
  }

  /** The step of `rotateToNextBot`: `(i + 1) % 2`. */
  function NextIndex(i: Index): Index {
    (i + 1) % 2
  }

  /** Rotation alternates the personas, and two rotations come back to the start. */
  lemma RotationCycles(i: Index)
    ensures NextIndex(i) != i
    ensures NextIndex(NextIndex(i)) == i
    ensures ModeOf(i) == Fighter <==> i == 0
    ensures ModeOf(NextIndex(i)) != ModeOf(i)
  {
  }

  // ---------------------------------------------------------------- status

  /** The values `botStatus` takes. */
  datatype Status =
    | Starting
    | Connecting(mode: Mode)
    | LoggedIn(mode: Mode)
    | Active(mode: Mode)
    | Dead(mode: Mode)
    | KickedOut
    | Failed
    | Disconnected

  /** The string stored in `botStatus`. */
  function StatusText(s: Status): string {
    match s
    case Starting => "starting"
    case Connecting(m) => "connecting_" + ModeName(m)
    case LoggedIn(m) => "connected_" + ModeName(m)
    case Active(m) => "active_" + ModeName(m)
    case Dead(m) => "dead_" + ModeName(m)
    case KickedOut => "kicked"
    case Failed => "error"
    case Disconnected => "disconnected"
  }

  // ---------------------------------------------------------------- chat lines

  /**
   * Every line the manager says, by what it says; `LineText` gives the exact
   * text. The random picks carry the draw `roll`; the line chosen is entry
   * `roll % n` of its list of `n`, as `Math.floor(Math.random() * n)` is.
   */
  datatype Line =
    | ModeActivated(mode: Mode)
    | BackSoon
    | HelloUser(username: string)
    | InMode(mode: Mode)
    | Rotating
    | NightNotice(mode: Mode)
    | GoodNightLine
    | GoodMorning
    | NotNightYet
    | StillNight
    | NoFighting | Attacking(username: string) | CantSee(username: string) | CombatStopped
    | NoGuarding | Guarding
    | NoFollowing | Following(username: string) | StoppedFollowing
    | CannotCome | Coming(username: string)
    | NoExploring | Exploring
    | Zzz | Response(roll: nat)
    | AlreadyGone | Vanishes
    | StillSleeping | Appears
    | TooSleepy | Scary(roll: nat)
    | NotStalking | Stalking(username: string) | NoLongerStalking
    | NoMessages | Creepy(roll: nat)
    | Laughs
    | HelpEntry(text: string)
    | StatusReport(mode: Mode, sleeping: bool, health: int, nearby: nat)

  const Responses: seq<string> := ["...", "You called?", "I am here...", "Why do you speak my name?"]
  const ScaryLines: seq<string> := ["The walls are watching...", "*whispers* I see you...", "Darkness approaches..."]
  const CreepyLines: seq<string> := ["The end is near...", "They are watching...", "Your world is a lie...", "The voices speak..."]

  function LineText(l: Line): string {
    match l
    case ModeActivated(m) => "Hello! " + ModeUpper(m) + " mode activated!"
    case BackSoon => "I died! But I will be back..."
    case HelloUser(u) => "Hello " + u + "!"
    case InMode(m) => "I'm in " + ModeUpper(m) + " mode!"
    case Rotating => "Rotating to next bot..."
    case NightNotice(m) => if m == Fighter then "I am sleeping at night. Wait for daytime." else "Even Herobrine sleeps at night..."
    case GoodNightLine => "Time to sleep. Good night!"
    case GoodMorning => "Good morning! Time for activities!"
    case NotNightYet => "It's not night time yet! I only sleep at night."
    case StillNight => "It's still night time! I should sleep."
    case NoFighting => "Sleeping at night. No fighting."
    case Attacking(u) => "Attacking " + u + "!"
    case CantSee(u) => "I can't see " + u + " nearby."
    case CombatStopped => "Combat stopped."
    case NoGuarding => "Sleeping at night. No guarding."
    case Guarding => "Guarding this area!"
    case NoFollowing => "Sleeping at night. No following."
    case Following(u) => "Following " + u + "!"
    case StoppedFollowing => "Stopped following."
    case CannotCome => "Sleeping at night. Cannot come."
    case Coming(u) => "Coming to " + u + "!"
    case NoExploring => "Sleeping at night. No exploring."
    case Exploring => "Exploring the area!"
    case Zzz => "Zzz... sleeping..."
    case Response(r) => Responses[r % |Responses|]
    case AlreadyGone => "Already disappeared for sleep..."
    case Vanishes => "*vanishes into the shadows*"
    case StillSleeping => "Still sleeping..."
    case Appears => "*appears suddenly*"
    case TooSleepy => "Too sleepy to scare..."
    case Scary(r) => ScaryLines[r % |ScaryLines|]
    case NotStalking => "Sleeping, not stalking..."
    case Stalking(u) => "Stalking " + u + "..."
    case NoLongerStalking => "No longer stalking..."
    case NoMessages => "Sleeping... no messages..."
    case Creepy(r) => CreepyLines[r % |CreepyLines|]
    case Laughs => "*laughs eerily*"
    case HelpEntry(t) => t
    case StatusReport(m, sleeping, health, nearby) =>
      "Status: " + ModeUpper(m) + " | " + (if sleeping then "Sleeping" else "Active")
      + " | Health: " + IntToString(health) + " | Nearby: " + NatToString(nearby) + " players"
  }

  // ---------------------------------------------------------------- effects

  /** The work a one-shot timeout does when it fires. */
  datatype Job =
    | Reconnect            // rotateToNextBot: connect the next persona
    | Greet(mode: Mode)    // spawn: greet, then check the time
    | Recover(mode: Mode)  // death: announce the return
    | GoodNight            // goToSleep: say good night
    | AttackTimeout        // attackPlayer: stop fighting
    | Stare(username: string)
    | HelpLine(text: string)
    | ClockCheck           // startTimeMonitoring: check the time of day

  /** The repeating interval a task slot can hold. */
  datatype Task =
    | FighterIdle
    | HerobrineIdle
    | GuardLook
    | FollowLook(username: string)

  datatype Effect =
    | Connect(username: string)
    | Quit
    | Chat(line: Line)
    | After(delayMs: nat, job: Job)
    | Every(periodMs: nat, job: Job)   // an interval no field keeps, so nothing ever stops it

  type Handle = nat

  /** A task slot: `currentTask`, the intervals it has started that still run, and the next fresh handle. */
  datatype Slot = Slot(task: Option<Handle>, running: map<Handle, Task>, nextHandle: Handle)

  /** The handles in use are below `nextHandle` and the slot holds a live interval. */
  predicate Valid(s: Slot) {
    && (s.task.Some? ==> s.task.value in s.running)
    && (forall h :: h in s.running ==> h < s.nextHandle)
  }

  /** Every live interval is the one the slot holds, so `clearTasks` can stop it. */
  predicate SingleTask(s: Slot) {
    forall h :: h in s.running ==> s.task == Some(h)
  }

  /** Both halves of the single-task invariant. */
  predicate Tidy(s: Slot) {
    Valid(s) && SingleTask(s)
  }

  /** `clearTasks` on the slot: stops the interval in it, if any, and empties it. */
  function ClearSlot(s: Slot): (r: Slot)
    ensures r.task.None? && r.nextHandle == s.nextHandle
    ensures s.task.None? ==> r == s
  {
    if s.task.Some? then Slot(None, s.running - {s.task.value}, s.nextHandle) else s
  }

  /** `currentTask = setInterval(...)`: a fresh interval goes into the slot. */
  function Install(s: Slot, t: Task): (r: Slot)
    ensures r.task == Some(s.nextHandle) && r.nextHandle == s.nextHandle + 1
  {
    Slot(Some(s.nextHandle), s.running[s.nextHandle := t], s.nextHandle + 1)
  }

  /** `clearTasks` is idempotent, keeps the invariant, and leaves no interval behind when only the slot's was live. */
  lemma ClearSlotLemma(s: Slot)
    ensures ClearSlot(ClearSlot(s)) == ClearSlot(s)
    ensures Valid(s) ==> Tidy(ClearSlot(s)) == SingleTask(s)
    ensures SingleTask(s) ==> ClearSlot(s).running == map[]
    ensures s.task.Some? ==> ClearSlot(s).running == s.running - {s.task.value}
  {
    if SingleTask(s) {
      if s.task.Some? {
        assert forall h :: h in s.running ==> h == s.task.value;
      } else {
        assert forall h :: h !in s.running;
      }
      assert ClearSlot(s).running.Keys == {};
    }
  }

  /** A behaviour that clears the slot before installing keeps exactly one interval, its own. */
  lemma ReplaceLemma(s: Slot, t: Task)
    requires Tidy(s)
    ensures Tidy(Install(ClearSlot(s), t))
    ensures Install(ClearSlot(s), t).running == map[s.nextHandle := t]
  {
    ClearSlotLemma(s);
  }

  /** A snapshot of the manager's fields. */
  datatype Vars = Vars(
    index: Index,            // currentBotIndex
    hasBot: bool,            // currentBot !== null
    isNight: bool,
    isSleeping: bool,
    isFighting: bool,
    slot: Slot,              // currentTask and the intervals behind it
    status: Status,          // botStatus
    out: seq<Effect>,
    crashed: bool)

  /** The fields right after the constructor has connected the first persona. */
  function Initial(): (v: Vars)
    ensures Tidy(v.slot)
    ensures v.index == 0 && v.hasBot && v.status == Connecting(Fighter)
    ensures !v.isNight && !v.isSleeping && !v.isFighting && v.slot.task.None? && !v.crashed
  {
    Vars(0, true, false, false, false, Slot(None, map[], 0), Connecting(Fighter), [Connect("FighterBot")], false)
  }

  // ---------------------------------------------------------------- primitives

  /** A chat line through the event handler's own client object, which is never null. */
  function Say(v: Vars, line: Line): Vars {
    v.(out := v.out + [Chat(line)])
  }

  function Crash(v: Vars): Vars {
    v.(crashed := true)
  }

  /** `this.currentBot.chat(...)`: throws when there is no current client. */
  function Spoken(v: Vars, line: Line): (r: Vars)
    ensures v.hasBot ==> r == Say(v, line)
    ensures !v.hasBot ==> r == Crash(v)
  {
    if v.hasBot then Say(v, line) else Crash(v)
  }

  /** `setTimeout(job, delayMs)`. */
  function Later(v: Vars, delayMs: nat, job: Job): Vars {
    v.(out := v.out + [After(delayMs, job)])
  }

  /** `clearTasks`. */
  function Cleared(v: Vars): Vars {
    v.(slot := ClearSlot(v.slot))
  }

  /** `this.currentTask = setInterval(...)`. */
  function Installed(v: Vars, t: Task): Vars {
    v.(slot := Install(v.slot, t))
  }

  // ---------------------------------------------------------------- day and night

  /** Minecraft night, 13000 to 23000 ticks inclusive. */
  predicate IsNightTime(timeOfDay: int) {
    13000 <= timeOfDay <= 23000
  }

  /** `goToSleep`. */
  function Slept(v: Vars): Vars {
    if v.isSleeping then v
    else Later(Cleared(v.(isSleeping := true, isFighting := false)), 2000, GoodNight)
  }

  /** `wakeUp`. */
  function Woken(v: Vars): Vars {
    if !v.isSleeping then v else Spoken(v.(isSleeping := false), GoodMorning)
  }

  /**
   * `goToSleep` is idempotent. From awake it sets the sleeping flag, drops the
   * fighting flag, empties the `currentTask` slot and arms the good-night line; the
   * rest of the state is kept.
   */
  lemma SleepLemma(v: Vars)
    ensures Slept(Slept(v)) == Slept(v)
    ensures v.isSleeping ==> Slept(v) == v
    ensures !v.isSleeping ==>
      && Slept(v).isSleeping && !Slept(v).isFighting && Slept(v).slot.task.None?
      && Slept(v).out == v.out + [After(2000, GoodNight)]
      && Slept(v).(isSleeping := v.isSleeping, isFighting := v.isFighting, slot := v.slot, out := v.out) == v
    ensures Tidy(v.slot) ==> Tidy(Slept(v).slot)
  {
    ClearSlotLemma(v.slot);
  }

  /** `wakeUp` does nothing unless sleeping, and otherwise only clears the flag and says good morning. */
  lemma WakeLemma(v: Vars)
    ensures !v.isSleeping ==> Woken(v) == v
    ensures v.isSleeping && v.hasBot ==>
      Woken(v).(out := v.out) == v.(isSleeping := false)
      && Woken(v).out == v.out + [Chat(GoodMorning)]
    ensures Woken(Woken(v)) == Woken(v) || Woken(v).crashed
  {
  }

  /** `checkTimeAndSleep`, given whether the client has an entity and the world's time of day. */
  function TimeChecked(v: Vars, hasEntity: bool, timeOfDay: int): Vars {
    if !v.hasBot then Crash(v)
    else if !hasEntity then v
    else
      var night := IsNightTime(timeOfDay);
      var w := v.(isNight := night);
      if night && !v.isNight then Slept(w)
      else if !night && v.isNight then Woken(w)
      else w
  }

  /** What a clock sample does to the night flag. */
  datatype Edge = Dusk | Dawn | Steady

  function EdgeAt(wasNight: bool, timeOfDay: int): Edge {
    if IsNightTime(timeOfDay) && !wasNight then Dusk
    else if !IsNightTime(timeOfDay) && wasNight then Dawn
    else Steady
  }

  /**
   * A clock check sets the night flag from the time, calls `goToSleep` only
   * on a day-to-night edge and `wakeUp` only on a night-to-day edge, and does
   * nothing when the client has no entity.
   */
  lemma TimeCheckLemma(v: Vars, hasEntity: bool, timeOfDay: int)
    requires v.hasBot
    ensures !hasEntity ==> TimeChecked(v, hasEntity, timeOfDay) == v
    ensures hasEntity ==> TimeChecked(v, hasEntity, timeOfDay) == match EdgeAt(v.isNight, timeOfDay)
      case Dusk => Slept(v.(isNight := true))
      case Dawn => Woken(v.(isNight := false))
      case Steady => v.(isNight := v.isNight)
    ensures hasEntity ==> TimeChecked(v, hasEntity, timeOfDay).isNight == IsNightTime(timeOfDay)
  {
  }

  /** The edges of a series of clock samples, steady ones dropped. */
  function Transitions(wasNight: bool, times: seq<int>): seq<Edge>
    decreases |times|
  {
    if times == [] then []
    else
      var e := EdgeAt(wasNight, times[0]);
      (if e == Steady then [] else [e]) + Transitions(IsNightTime(times[0]), times[1..])
  }

  /** Sleeping and waking alternate, starting with a sleep when the series starts by day. */
  lemma {:induction false} TransitionsAlternate(wasNight: bool, times: seq<int>)
    ensures forall i :: 0 <= i < |Transitions(wasNight, times)| ==> Transitions(wasNight, times)[i] != Steady
    ensures forall i :: 0 <= i < |Transitions(wasNight, times)| - 1 ==>
      Transitions(wasNight, times)[i] != Transitions(wasNight, times)[i + 1]
    ensures |Transitions(wasNight, times)| > 0 ==>
      Transitions(wasNight, times)[0] == if wasNight then Dawn else Dusk
    decreases |times|
  {
    if times != [] {
      TransitionsAlternate(IsNightTime(times[0]), times[1..]);
    }
  }

  /** Clock checks in a row, with the entity present. */
  function Checks(v: Vars, times: seq<int>): Vars
    decreases |times|
  {
    if times == [] then v else Checks(TimeChecked(v, true, times[0]), times[1..])
  }

  /** What the manager logs on an edge: the good-night timeout at dusk, good morning at dawn. */
  function EdgeEffect(e: Edge): seq<Effect> {
    match e
    case Dusk => [After(2000, GoodNight)]
    case Dawn => [Chat(GoodMorning)]
    case Steady => []
  }

  /** The log of a series of edges. */
  function EdgeEffects(es: seq<Edge>): (r: seq<Effect>)
    ensures |r| <= |es|
  {
    if es == [] then [] else EdgeEffect(es[0]) + EdgeEffects(es[1..])
  }

  /** One clock check with the entity present: its effects are those of its edge. */
  lemma CheckStep(v: Vars, t: int)
    requires v.hasBot && v.isSleeping == v.isNight
    ensures var w := TimeChecked(v, true, t);
      var e := EdgeAt(v.isNight, t);
      && w.out == v.out + EdgeEffects(if e == Steady then [] else [e])
      && w.hasBot && w.isNight == IsNightTime(t) && w.isSleeping == w.isNight
  {
    var e := EdgeAt(v.isNight, t);
    if e != Steady {
      assert [e][1..] == [];
    }
  }

  /** A generic step for concatenations. */
  lemma EdgeEffectsCons(e: seq<Edge>, rest: seq<Edge>)
    requires |e| <= 1
    ensures EdgeEffects(e + rest) == EdgeEffects(e) + EdgeEffects(rest)
  {
    if e != [] {
      assert (e + rest)[0] == e[0] && (e + rest)[1..] == rest;
      assert e[1..] == [];
      assert EdgeEffects(e + rest) == EdgeEffect(e[0]) + EdgeEffects(rest);
      assert EdgeEffects(e) == EdgeEffect(e[0]) + EdgeEffects([]);
    } else {
      assert e + rest == rest;
    }
  }

  /**
   * Over any series of clock checks on a bot whose sleep follows the night
   * flag, the log gains exactly the effects of the edges: a good-night
   * timeout per sleep and a good morning per wake, in order, and nothing else.
   * With `TransitionsAlternate` the two alternate, starting with the sleep
   * when the series starts by day.
   */
  lemma {:induction false} ChecksFollowTransitions(v: Vars, times: seq<int>)
    requires v.hasBot && v.isSleeping == v.isNight
    ensures Checks(v, times).out == v.out + EdgeEffects(Transitions(v.isNight, times))
    ensures Checks(v, times).hasBot && Checks(v, times).isSleeping == Checks(v, times).isNight
    decreases |times|
  {
    if times != [] {
      var w := TimeChecked(v, true, times[0]);
      var e := EdgeAt(v.isNight, times[0]);
      var first: seq<Edge> := if e == Steady then [] else [e];
      CheckStep(v, times[0]);
      ChecksFollowTransitions(w, times[1..]);
      EdgeEffectsCons(first, Transitions(IsNightTime(times[0]), times[1..]));
      assert Transitions(v.isNight, times) == first + Transitions(IsNightTime(times[0]), times[1..]);
      AppendAssoc(v.out, EdgeEffects(first), EdgeEffects(Transitions(IsNightTime(times[0]), times[1..])));
    }
  }

  const SampleTrace: seq<int> := [12000, 12500, 13000, 13500, 22000, 23500, 100]

  /**
   * Over the samples 12000, 12500, 13000, 13500, 22000, 23500, 100 an awake
   * bot by day goes to sleep once, at 13000, and wakes once, at 23500.
   */
  lemma SampleTraceLemma(v: Vars)
    requires v.hasBot && !v.isNight && !v.isSleeping
    ensures Transitions(false, SampleTrace) == [Dusk, Dawn]
    ensures Checks(v, SampleTrace).out == v.out + [After(2000, GoodNight), Chat(GoodMorning)]
    ensures !Checks(v, SampleTrace).isNight && !Checks(v, SampleTrace).isSleeping
  {
    var s1 := TimeChecked(v, true, 12000);
    assert s1 == v;
    var s2 := TimeChecked(s1, true, 12500);
    assert s2 == v;
    var s3 := TimeChecked(s2, true, 13000);
    assert s3 == Slept(v.(isNight := true));
    var s4 := TimeChecked(s3, true, 13500);
    assert s4 == s3;
    var s5 := TimeChecked(s4, true, 22000);
    assert s5 == s3;
    var s6 := TimeChecked(s5, true, 23500);
    var s7 := TimeChecked(s6, true, 100);
    assert s7 == s6;
    assert Checks(v, SampleTrace) == Checks(s7, []);
  }

  /** `forceSleep`. */
  function ForcedSleep(v: Vars): Vars {
    if !v.isNight then Spoken(v, NotNightYet) else Slept(v)
  }

  /** `forceWake`. */
  function ForcedWake(v: Vars): Vars {
    if v.isNight then Spoken(v, StillNight) else Woken(v)
  }

  /** By day `!sleep` only answers, and at night `!wake` only answers; otherwise they sleep or wake. */
  lemma ForceGateLemma(v: Vars)
    requires v.hasBot
    ensures !v.isNight ==>
      && ForcedSleep(v).(out := v.out) == v
      && ForcedSleep(v).out == v.out + [Chat(NotNightYet)]
    ensures v.isNight ==> ForcedSleep(v) == Slept(v)
    ensures v.isNight ==>
      && ForcedWake(v).(out := v.out) == v
      && ForcedWake(v).out == v.out + [Chat(StillNight)]
    ensures !v.isNight ==> ForcedWake(v) == Woken(v)
  {
  }

  // ---------------------------------------------------------------- rotation and lifecycle

  /** `rotateToNextBot`: quit and drop the client, step the index, reconnect in 10 s. */
  function Rotated(v: Vars): Vars {
    var q := if v.hasBot then v.(out := v.out + [Quit], hasBot := false) else v;
    Later(q.(index := NextIndex(v.index)), 10000, Reconnect)
  }

  /** `connectBot`: a new client for the persona at the index. */
  function Connected(v: Vars): Vars {
    v.(hasBot := true, status := Connecting(ModeOf(v.index)), out := v.out + [Connect(Usernames[v.index])])
  }

  /**
   * A rotation leaves no client, moves to the other persona, keeps the
   * night, sleep, fighting and task fields, and schedules one reconnect.
   * The reconnect brings up the other persona's client.
   */
  lemma RotateLemma(v: Vars)
    ensures !Rotated(v).hasBot
    ensures Rotated(v).index == NextIndex(v.index) && Rotated(Rotated(v)).index == v.index
    ensures Rotated(v).(index := v.index, hasBot := v.hasBot, out := v.out) == v
    ensures Rotated(v).out == v.out + (if v.hasBot then [Quit] else []) + [After(10000, Reconnect)]
    ensures Connected(Rotated(v)).hasBot && Connected(Rotated(v)).status == Connecting(ModeOf(NextIndex(v.index)))
    ensures Connected(Rotated(v)).out[|Connected(Rotated(v)).out| - 1] == Connect(Usernames[NextIndex(v.index)])
  {
  }

  /** The `login` event. */
  function OnLogin(v: Vars): Vars {
    v.(status := LoggedIn(ModeOf(v.index)))
  }

  /** Daytime activity of a persona (`startFighterActivities`, `startHerobrineActivities`), clearing the slot first. */
  function ActivitiesStarted(v: Vars, m: Mode): Vars {
    if v.isNight then v else Installed(Cleared(v), if m == Fighter then FighterIdle else HerobrineIdle)
  }

  /** The same, as bot.js writes it: the interval is stored over whatever the slot held. */
  function ActivitiesStartedAsWritten(v: Vars, m: Mode): Vars {
    if v.isNight then v else Installed(v, if m == Fighter then FighterIdle else HerobrineIdle)
  }

  /**
   * As written, starting the daytime activity while an interval is already in
   * the slot (a second spawn after a death, or a reconnect after a rotation)
   * leaves the old interval running where no `clearTasks` can reach it.
   */
  lemma ActivitiesOrphanTask(v: Vars, m: Mode)
    requires !v.isNight && Tidy(v.slot) && v.slot.task.Some?
    ensures var r := ActivitiesStartedAsWritten(v, m);
      && !SingleTask(r.slot)
      && v.slot.task.value in Cleared(r).slot.running
  {
    var r := ActivitiesStartedAsWritten(v, m);
    var old_ := v.slot.task.value;
    assert old_ in r.slot.running && r.slot.task == Some(v.slot.nextHandle) && old_ < v.slot.nextHandle;
    assert Cleared(r).slot.running == r.slot.running - {v.slot.nextHandle};
  }

  /** As written, the activity keeps the single-task invariant exactly when the slot was empty or it is night. */
  lemma ActivitiesAsWrittenSingleTask(v: Vars, m: Mode)
    requires Tidy(v.slot)
    ensures Tidy(ActivitiesStartedAsWritten(v, m).slot) <==> v.isNight || v.slot.task.None?
  {
    if !v.isNight && v.slot.task.Some? {
      ActivitiesOrphanTask(v, m);
    } else if !v.isNight {
      assert ActivitiesStartedAsWritten(v, m) == ActivitiesStarted(v, m);
      ActivitiesKeepSingleTask(v, m);
    }
  }

  /** Clearing the slot first keeps one live interval at most, the slot's. */
  lemma ActivitiesKeepSingleTask(v: Vars, m: Mode)
    requires Tidy(v.slot)
    ensures Tidy(ActivitiesStarted(v, m).slot)
    ensures !v.isNight ==> |ActivitiesStarted(v, m).slot.running| == 1
  {
    if !v.isNight {
      ReplaceLemma(v.slot, if m == Fighter then FighterIdle else HerobrineIdle);
    }
  }

  /** `startTimeMonitoring`: a clock check every 30 s, kept in no field. */
  function Monitored(v: Vars): Vars {
    v.(out := v.out + [Every(30000, ClockCheck)])
  }

  /** The `spawn` event: active, greeting in 3 s, clock monitoring, then the daytime activity. */
  function OnSpawn(v: Vars): Vars {
    var m := ModeOf(v.index);
    ActivitiesStarted(Monitored(Later(v.(status := Active(m)), 3000, Greet(m))), m)
  }

  /** The `spawn` event as bot.js writes it, starting the activity over whatever the slot held. */
  function OnSpawnAsWritten(v: Vars): Vars {
    var m := ModeOf(v.index);
    ActivitiesStartedAsWritten(Monitored(Later(v.(status := Active(m)), 3000, Greet(m))), m)
  }

  /** The greeting timeout: the spawning client greets, then the clock is checked. */
  function GreetFired(v: Vars, m: Mode, hasEntity: bool, timeOfDay: int): Vars {
    TimeChecked(Say(v, ModeActivated(m)), hasEntity, timeOfDay)
  }

  /** The `death` event. */
  function OnDeath(v: Vars): Vars {
    var m := ModeOf(v.index);
    Later(v.(isFighting := false, status := Dead(m)), 2000, Recover(m))
  }

  /** The timeout armed at death. */
  function RecoverFired(v: Vars, m: Mode): Vars {
    Say(v, BackSoon).(status := Active(m))
  }

  function OnKicked(v: Vars): Vars {
    Rotated(v.(status := KickedOut))
  }

  function OnError(v: Vars): Vars {
    Rotated(v.(status := Failed))
  }

  function OnEnd(v: Vars): Vars {
    Rotated(v.(status := Disconnected))
  }

  /**
   * The status lifecycle of one persona: connecting, then connected at
   * login, active at spawn, dead at death and active again when the death
   * timeout fires, all tagged with the persona's mode (`StatusText` spells
   * them `connecting_<mode>` and so on).
   */
  lemma StatusLifecycle(v: Vars)
    ensures var m := ModeOf(v.index);
      && Connected(v).status == Connecting(m)
      && OnLogin(Connected(v)).status == LoggedIn(m)
      && OnSpawnAsWritten(OnLogin(Connected(v))).status == Active(m)
      && OnDeath(OnSpawnAsWritten(OnLogin(Connected(v)))).status == Dead(m)
      && RecoverFired(OnDeath(OnSpawnAsWritten(OnLogin(Connected(v)))), m).status == Active(m)
  {
    var m := ModeOf(v.index);
    var l := OnLogin(Connected(v));
    assert l.index == v.index;
    var a := OnSpawnAsWritten(l);
    assert a.index == v.index;
  }

  /** Kicked, error and end set `kicked`, `error` and `disconnected`, and rotate to the other persona. */
  lemma StatusOnLoss(v: Vars)
    ensures OnKicked(v).status == KickedOut && OnKicked(v).index == NextIndex(v.index)
    ensures OnError(v).status == Failed && OnError(v).index == NextIndex(v.index)
    ensures OnEnd(v).status == Disconnected && OnEnd(v).index == NextIndex(v.index)
  {
  }

  /**
   * A kick is followed by the end of the same session, and both handlers
   * rotate: the index comes back to where it was, only the first quits, and
   * two reconnects are armed.
   */
  lemma KickedThenEnded(v: Vars)
    requires v.hasBot
    ensures OnEnd(OnKicked(v)).index == v.index
    ensures OnEnd(OnKicked(v)).out == v.out + [Quit, After(10000, Reconnect), After(10000, Reconnect)]
  {
  }

  /**
   * The same holds of every rotation that quits a live client, `!rotate`
   * included: the quit client's `end` handler is still attached and rotates
   * again, so the index comes back and both reconnects bring up the persona
   * that was just left.
   */
  lemma RotateThenEnded(v: Vars)
    requires v.hasBot
    ensures OnEnd(Rotated(v)).index == v.index
    ensures OnEnd(Rotated(v)).out == v.out + [Quit, After(10000, Reconnect), After(10000, Reconnect)]
    ensures var c := Connected(Connected(OnEnd(Rotated(v))));
      c.out == v.out + [Quit, After(10000, Reconnect), After(10000, Reconnect),
                        Connect(Usernames[v.index]), Connect(Usernames[v.index])]
  {
    RotationCycles(v.index);
  }

  /**
   * The `end` handler as evidently intended: the end of a client the manager
   * has already quit (`stale`) is ignored, and only the live session's end rotates.
   */
  function EndedOnce(v: Vars, stale: bool): Vars {
    if stale then v else OnEnd(v)
  }

  /**
   * With the stale end ignored, a kick, an error or a rotation moves to the
   * other persona exactly once, with one reconnect armed; a plain end of the
   * live session still rotates.
   */
  lemma RotateThenEndedOnce(v: Vars)
    requires v.hasBot
    ensures EndedOnce(Rotated(v), true).index == NextIndex(v.index)
    ensures EndedOnce(Rotated(v), true).out == v.out + [Quit, After(10000, Reconnect)]
    ensures EndedOnce(OnKicked(v), true).index == NextIndex(v.index)
    ensures EndedOnce(OnKicked(v), true).out == v.out + [Quit, After(10000, Reconnect)]
    ensures EndedOnce(v, false).index == NextIndex(v.index) && EndedOnce(v, false).status == Disconnected
    ensures Connected(EndedOnce(Rotated(v), true)).out[|v.out| + 2] == Connect(Usernames[NextIndex(v.index)])
  {
  }

  // ---------------------------------------------------------------- fighter commands

  /** `attackPlayer`: `seen` says whether the sender is a known player with an entity. */
  function Attacked(v: Vars, username: string, seen: bool): Vars {
    if v.isNight then Spoken(v, NoFighting)
    else if !v.hasBot then Crash(v)
    else if seen then Later(Say(v.(isFighting := true), Attacking(username)), 15000, AttackTimeout)
    else Say(v, CantSee(username))
  }

  /** `stopAttack`. */
  function AttackStopped(v: Vars): Vars {
    Spoken(v.(isFighting := false), CombatStopped)
  }

  /** `guardBehavior`. */
  function GuardStarted(v: Vars): Vars {
    Installed(Cleared(v), GuardLook)
  }

  /** `guardArea`. */
  function Guarded(v: Vars): Vars {
    if v.isNight then Spoken(v, NoGuarding)
    else if !v.hasBot then Crash(v)
    else GuardStarted(Say(v, Guarding))
  }

  /** `followBehavior`. */
  function FollowStarted(v: Vars, username: string): Vars {
    Installed(Cleared(v), FollowLook(username))
  }

  /** `followPlayer`. */
  function Followed(v: Vars, username: string, seen: bool): Vars {
    if v.isNight then Spoken(v, NoFollowing)
    else if !v.hasBot then Crash(v)
    else if seen then FollowStarted(Say(v, Following(username)), username)
    else v
  }

  /** `stopFollow`. */
  function FollowStopped(v: Vars): Vars {
    Spoken(Cleared(v), StoppedFollowing)
  }

  /** `comeToPlayer`. */
  function Came(v: Vars, username: string, seen: bool): Vars {
    if v.isNight then Spoken(v, CannotCome)
    else if !v.hasBot then Crash(v)
    else if seen then Say(v, Coming(username))
    else v
  }

  /** `exploreArea`. */
  function Explored(v: Vars): Vars {
    if v.isNight then Spoken(v, NoExploring)
    else Spoken(v, Exploring)
  }

  /** `attackPlayer` marks the bot fighting and arms the 15 s stop only when the player is seen by day. */
  lemma AttackLemma(v: Vars, username: string, seen: bool)
    requires v.hasBot
    ensures Attacked(v, username, seen).isFighting <==> v.isFighting || (!v.isNight && seen)
    ensures !v.isNight && seen ==>
      Attacked(v, username, seen).out == v.out + [Chat(Attacking(username)), After(15000, AttackTimeout)]
    ensures !AttackStopped(v).isFighting
    ensures Attacked(v, username, seen).slot == v.slot
  {
  }

  // ---------------------------------------------------------------- herobrine commands

  /** `respondToMention`. */
  function Answered(v: Vars, username: string, roll: nat): Vars {
    if v.isNight then Spoken(v, Zzz)
    else if !v.hasBot then Crash(v)
    else Later(Say(v, Response(roll)), 1000, Stare(username))
  }

  /** `disappear`. */
  function Vanished(v: Vars): Vars {
    if v.isNight then Spoken(v, AlreadyGone)
    else if !v.hasBot then Crash(v)
    else Cleared(Say(v, Vanishes))
  }

  /** `appear`. */
  function Reappeared(v: Vars): Vars {
    if v.isNight then Spoken(v, StillSleeping) else Spoken(v, Appears)
  }

  /** `scaryAction`. */
  function Scared(v: Vars, roll: nat): Vars {
    if v.isNight then Spoken(v, TooSleepy) else Spoken(v, Scary(roll))
  }

  /** `stalkPlayer`. */
  function Stalked(v: Vars, username: string): Vars {
    if v.isNight then Spoken(v, NotStalking)
    else if !v.hasBot then Crash(v)
    else FollowStarted(Say(v, Stalking(username)), username)
  }

  /** `stopStalking`. */
  function StalkStopped(v: Vars): Vars {
    Spoken(Cleared(v), NoLongerStalking)
  }

  /** `sendCreepyMessage`. */
  function Messaged(v: Vars, roll: nat): Vars {
    if v.isNight then Spoken(v, NoMessages) else Spoken(v, Creepy(roll))
  }

  // ---------------------------------------------------------------- interval ticks

  /** A tick of the guard interval; `hasEntity` is whether the client has an entity. */
  function GuardTicked(v: Vars, hasEntity: bool): Vars {
    if v.isNight then Cleared(v)
    else if !v.hasBot then Crash(v)
    else if !hasEntity || v.isFighting then Cleared(v)
    else v
  }

  /** A tick of the follow interval; `seen` is whether the followed player is known and has an entity. */
  function FollowTicked(v: Vars, seen: bool): Vars {
    if !v.hasBot then Crash(v)
    else if !seen || v.isNight then Cleared(v)
    else v
  }

  /** `stareAtPlayer` and `stareAtNearestPlayer`: they only turn the head, through the current client. */
  function Stared(v: Vars): Vars {
    if !v.hasBot then Crash(v) else v
  }

  /** A tick of the fighter's idle interval; `lucky` is the 30% draw coming up. */
  function FighterIdleTicked(v: Vars, lucky: bool): Vars {
    if v.isNight || v.isFighting || !lucky then v
    else if !v.hasBot then Crash(v)   // `randomMovement` reads the client's entity
    else v
  }

  /**
   * A tick of the herobrine idle interval (`randomHerobrineBehavior`): on the
   * 20% draw `lucky`, one of a creepy message, a stare and a laugh, chosen by
   * `pick`; `roll` chooses the creepy message.
   */
  function HerobrineIdleTicked(v: Vars, lucky: bool, pick: nat, roll: nat): Vars {
    if v.isNight || !lucky then v
    else if pick % 3 == 0 then Messaged(v, roll)
    else if pick % 3 == 1 then Stared(v)
    else Spoken(v, Laughs)
  }

  /**
   * The idle ticks do nothing at night, never touch the flags, the status or
   * the `currentTask` slot, and say at most one line; with a client they never crash.
   */
  lemma IdleTickLemma(v: Vars, lucky: bool, pick: nat, roll: nat)
    ensures v.isNight ==> FighterIdleTicked(v, lucky) == v && HerobrineIdleTicked(v, lucky, pick, roll) == v
    ensures FighterIdleTicked(v, lucky).(crashed := v.crashed) == v
    ensures v.hasBot ==> FighterIdleTicked(v, lucky) == v
    ensures HerobrineIdleTicked(v, lucky, pick, roll).(out := v.out, crashed := v.crashed) == v
    ensures v.hasBot && !v.crashed ==> !HerobrineIdleTicked(v, lucky, pick, roll).crashed
    ensures |HerobrineIdleTicked(v, lucky, pick, roll).out| <= |v.out| + 1
    ensures HerobrineIdleTicked(v, lucky, pick, roll).out[..|v.out|] == v.out
  {
  }

  /**
   * The guard tick clears the slot instead of acting at night, without an
   * entity, or while fighting, and otherwise changes nothing. The follow tick
   * clears it when the player is gone or at night.
   */
  lemma TickGuardsLemma(v: Vars, hasEntity: bool, seen: bool)
    requires v.hasBot
    ensures GuardTicked(v, hasEntity) == if v.isNight || !hasEntity || v.isFighting then Cleared(v) else v
    ensures FollowTicked(v, seen) == if !seen || v.isNight then Cleared(v) else v
    ensures GuardTicked(v, hasEntity).slot.task.Some? ==> GuardTicked(v, hasEntity) == v
    ensures Tidy(v.slot) ==> Tidy(GuardTicked(v, hasEntity).slot) && Tidy(FollowTicked(v, seen).slot)
  {
    ClearSlotLemma(v.slot);
  }

  // ---------------------------------------------------------------- help and status

  const CommonHelp: seq<string> := [
    "=== BOT COMMANDS ===",
    "!help - Show this help",
    "!mode - Check current mode",
    "!rotate - Switch bots manually",
    "!status - Bot status",
    "!sleep - Force sleep (night only)",
    "!wake - Force wake (day only)"]

  const FighterHelp: seq<string> := [
    "",
    "=== FIGHTER COMMANDS ===",
    "!attack me - Attack you",
    "!stop attack - Stop attacking",
    "!guard - Guard area",
    "!follow me - Follow you",
    "!stop follow - Stop following",
    "!come - Come to your position",
    "!explore - Explore area"]

  const HerobrineHelp: seq<string> := [
    "",
    "=== HEROBRINE COMMANDS ===",
    "Say \"herobrine\" - Summon me",
    "!disappear - Vanish",
    "!appear - Reappear",
    "!scare - Scary action",
    "!stalk - Stalk player",
    "!stop stalk - Stop stalking",
    "!message - Creepy message"]

  /** The lines `showHelp` sends for a mode. */
  function HelpLines(m: Mode): seq<string> {
    CommonHelp + (if m == Fighter then FighterHelp else HerobrineHelp)
  }

  /** One timeout per line, line `i` after `i * 100` ms. */
  function Staggered(lines: seq<string>): (r: seq<Effect>)
    ensures |r| == |lines|
  {
    seq(|lines|, i requires 0 <= i < |lines| => After(i * 100, HelpLine(lines[i])))
  }

  /** `showHelp`. */
  function HelpShown(v: Vars, m: Mode): Vars {
    v.(out := v.out + Staggered(HelpLines(m)))
  }

  /**
   * Help is the seven common lines followed by the mode's nine, sixteen
   * timeouts in all, line `i` firing after `i * 100` ms, and nothing else changes.
   */
  lemma HelpLemma(v: Vars, m: Mode)
    ensures |HelpLines(m)| == 16 && HelpLines(m)[..7] == CommonHelp
    ensures HelpLines(m)[7..] == if m == Fighter then FighterHelp else HerobrineHelp
    ensures |HelpShown(v, m).out| == |v.out| + 16 && HelpShown(v, m).out[..|v.out|] == v.out
    ensures forall i :: 0 <= i < 16 ==> HelpShown(v, m).out[|v.out| + i] == After(i * 100, HelpLine(HelpLines(m)[i]))
    ensures HelpShown(v, m).(out := v.out) == v
  {
    assert |HelpLines(m)| == 16;
  }

  /** The number of other players and the floored health, which the status line reports. */
  datatype Scene = Scene(senderSeen: bool, othersOnline: nat, health: int)

  /** `showStatus`. */
  function StatusShown(v: Vars, m: Mode, sc: Scene): Vars {
    if !v.hasBot then Crash(v)
    else Say(v, StatusReport(m, v.isNight, sc.health, sc.othersOnline))
  }

  // ---------------------------------------------------------------- chat dispatch

  /** The universal commands. Each is an exact match on the lower-cased text, so at most one applies. */
  datatype UniversalCommand = Greeting | AskMode | RotateNow | AskHelp | AskStatus | SleepNow | WakeNow | NoUniversal

  function UniversalOf(msg: string): UniversalCommand {
    if msg == "hi" || msg == "hello" || msg == "hey" then Greeting
    else if msg == "!mode" then AskMode
    else if msg == "!rotate" then RotateNow
    else if msg == "!help" then AskHelp
    else if msg == "!status" then AskStatus
    else if msg == "!sleep" then SleepNow
    else if msg == "!wake" then WakeNow
    else NoUniversal
  }

  /** Text that is none of the nine universal strings triggers no universal rule. */
  lemma UniversalOfLemma(msg: string)
    ensures UniversalOf(msg) == NoUniversal <==>
      msg !in {"hi", "hello", "hey", "!mode", "!rotate", "!help", "!status", "!sleep", "!wake"}
    ensures UniversalOf(msg) == RotateNow <==> msg == "!rotate"
  {
  }

  /** The universal rules of the chat handler, given the command the text matched. */
  function Universal(v: Vars, m: Mode, username: string, cmd: UniversalCommand, sc: Scene): Vars {
    match cmd
    case Greeting => Say(v, HelloUser(username))
    case AskMode => Say(v, InMode(m))
    case RotateNow => Rotated(Say(v, Rotating))
    case AskHelp => HelpShown(v, m)
    case AskStatus => StatusShown(v, m, sc)
    case SleepNow => ForcedSleep(v)
    case WakeNow => ForcedWake(v)
    case NoUniversal => v
  }

  datatype FighterCommand = AttackMe | StopAttack | Guard | FollowMe | StopFollow | Come | Explore | NoFighter

  function FighterOf(msg: string): FighterCommand {
    if msg == "!attack me" then AttackMe
    else if msg == "!stop attack" then StopAttack
    else if msg == "!guard" then Guard
    else if msg == "!follow me" then FollowMe
    else if msg == "!stop follow" then StopFollow
    else if msg == "!come" then Come
    else if msg == "!explore" then Explore
    else NoFighter
  }

  /** `handleFighterCommands` by day. */
  function FighterDay(v: Vars, username: string, cmd: FighterCommand, sc: Scene): Vars {
    match cmd
    case AttackMe => Attacked(v, username, sc.senderSeen)
    case StopAttack => AttackStopped(v)
    case Guard => Guarded(v)
    case FollowMe => Followed(v, username, sc.senderSeen)
    case StopFollow => FollowStopped(v)
    case Come => Came(v, username, sc.senderSeen)
    case Explore => Explored(v)
    case NoFighter => v
  }

  datatype HerobrineCommand = Disappear | Appear | Scare | Stalk | StopStalk | Message | NoHerobrine

  function HerobrineOf(msg: string): HerobrineCommand {
    if msg == "!disappear" then Disappear
    else if msg == "!appear" then Appear
    else if msg == "!scare" then Scare
    else if msg == "!stalk" then Stalk
    else if msg == "!stop stalk" then StopStalk
    else if msg == "!message" then Message
    else NoHerobrine
  }

  /** A mention of herobrine, hb or ghost anywhere in the text. */
  predicate Mentions(msg: string) {
    Contains(msg, "herobrine") || Contains(msg, "hb") || Contains(msg, "ghost")
  }

  /** `handleHerobrineCommands` by day: the reply to a mention, then the exact commands. */
  function HerobrineDay(v: Vars, username: string, mentioned: bool, cmd: HerobrineCommand, roll: nat): Vars {
    var w := if mentioned then Answered(v, username, roll) else v;
    if w.crashed then w
    else match cmd
      case Disappear => Vanished(w)
      case Appear => Reappeared(w)
      case Scare => Scared(w, roll)
      case Stalk => Stalked(w, username)
      case StopStalk => StalkStopped(w)
      case Message => Messaged(w, roll)
      case NoHerobrine => w
  }

  /** The persona commands by day. */
  function DayCommands(v: Vars, m: Mode, username: string, msg: string, sc: Scene, roll: nat): Vars {
    if m == Fighter then FighterDay(v, username, FighterOf(msg), sc)
    else HerobrineDay(v, username, Mentions(msg), HerobrineOf(msg), roll)
  }

  /** The mode handler: gated on the night flag, with the notice said by the session's own client. */
  function ModeCommands(v: Vars, m: Mode, username: string, msg: string, sc: Scene, roll: nat): Vars {
    if v.isNight then (if StartsWith(msg, "!") then Say(v, NightNotice(m)) else v)
    else DayCommands(v, m, username, msg, sc, roll)
  }

  /** The mode handler as bot.js writes it: the notice goes through `this.currentBot`. */
  function ModeCommandsAsWritten(v: Vars, m: Mode, username: string, msg: string, sc: Scene, roll: nat): Vars {
    if v.isNight then (if StartsWith(msg, "!") then Spoken(v, NightNotice(m)) else v)
    else DayCommands(v, m, username, msg, sc, roll)
  }

  /** A chat event from the live session: self-filter, lower-casing, universal rules, mode handler. */
  function Chatted(v: Vars, username: string, message: string, sc: Scene, roll: nat): Vars {
    var m := ModeOf(v.index);
    if username == Usernames[v.index] then v
    else
      var msg := ToLower(message);
      var u := Universal(v, m, username, UniversalOf(msg), sc);
      if u.crashed then u else ModeCommands(u, m, username, msg, sc, roll)
  }

  /** The same, with the mode handler as written. */
  function ChattedAsWritten(v: Vars, username: string, message: string, sc: Scene, roll: nat): Vars {
    var m := ModeOf(v.index);
    if username == Usernames[v.index] then v
    else
      var msg := ToLower(message);
      var u := Universal(v, m, username, UniversalOf(msg), sc);
      if u.crashed then u else ModeCommandsAsWritten(u, m, username, msg, sc, roll)
  }

  /** The bot ignores its own chat lines. */
  lemma OwnChatIgnored(v: Vars, message: string, sc: Scene, roll: nat)
    ensures Chatted(v, Usernames[v.index], message, sc, roll) == v
  {
  }

  /**
   * At night the mode handler says exactly one sleeping notice for text that
   * starts with `!`, nothing for other text, and runs no persona action.
   */
  lemma NightGateLemma(v: Vars, m: Mode, username: string, msg: string, sc: Scene, roll: nat)
    requires v.isNight
    ensures ModeCommands(v, m, username, msg, sc, roll).(out := v.out) == v
    ensures ModeCommands(v, m, username, msg, sc, roll).out ==
      v.out + (if StartsWith(msg, "!") then [Chat(NightNotice(m))] else [])
  {
  }

  /** "hello" mentions none of herobrine, hb and ghost. */
  lemma HelloMentionsNothing()
    ensures !Mentions("hello")
  {
    var msg := "hello";
    ContainsLength(msg, "herobrine");
    assert msg[1] == 'e';
    AbsentFirst(msg[1..], "hb");
    AbsentFirst(msg, "ghost");
  }

  /** A greeting is recognised in any letter case, and answered by name. */
  lemma GreetingAnyCase(v: Vars, username: string, message: string, sc: Scene, roll: nat)
    requires username != Usernames[v.index]
    requires ToLower(message) == "hello"
    ensures Chatted(v, username, message, sc, roll).out[|v.out|] == Chat(HelloUser(username))
  {
    var msg := ToLower(message);
    assert msg[0] == 'h';
    HelloMentionsNothing();
  }

  /** "!rotate" is no persona command and mentions nothing. */
  lemma RotateIsUniversalOnly()
    ensures FighterOf("!rotate") == NoFighter && HerobrineOf("!rotate") == NoHerobrine
    ensures !Mentions("!rotate") && StartsWith("!rotate", "!")
  {
    AbsentFirst("!rotate", "herobrine");
    AbsentFirst("!rotate", "hb");
    AbsentFirst("!rotate", "ghost");
  }

  /**
   * As written, `!rotate` at night makes the mode handler send its notice
   * through the client the rotation has just dropped: the process crashes.
   */
  lemma NightRotateCrashes(v: Vars, username: string, sc: Scene, roll: nat)
    requires v.hasBot && v.isNight && !v.crashed && username != Usernames[v.index]
    ensures ChattedAsWritten(v, username, "!rotate", sc, roll).crashed
  {
    ToLowerFixes("!rotate");
    RotateIsUniversalOnly();
  }

  /** With a client, the fighter commands never crash the process. */
  lemma FighterDaySafe(v: Vars, username: string, cmd: FighterCommand, sc: Scene)
    requires v.hasBot && !v.crashed
    ensures !FighterDay(v, username, cmd, sc).crashed
  {
  }

  /** With a client, the herobrine commands never crash the process. */
  lemma HerobrineDaySafe(v: Vars, username: string, mentioned: bool, cmd: HerobrineCommand, roll: nat)
    requires v.hasBot && !v.crashed
    ensures !HerobrineDay(v, username, mentioned, cmd, roll).crashed
  {
  }

  /** Every universal rule except the rotation keeps the client and crashes nothing. */
  lemma UniversalKeepsClient(v: Vars, m: Mode, username: string, cmd: UniversalCommand, sc: Scene)
    requires v.hasBot && !v.crashed && cmd != RotateNow
    ensures Universal(v, m, username, cmd, sc).hasBot && !Universal(v, m, username, cmd, sc).crashed
  {
  }

  /** After `!rotate` the mode handler, run without a client, still crashes nothing. */
  lemma RotatedModeSafe(u: Vars, m: Mode, username: string, sc: Scene, roll: nat)
    requires !u.crashed
    ensures !ModeCommands(u, m, username, "!rotate", sc, roll).crashed
  {
    RotateIsUniversalOnly();
  }

  /** With the notice said by the session's client, no chat line to a live session crashes the process. */
  lemma ChatNeverCrashes(v: Vars, username: string, message: string, sc: Scene, roll: nat)
    requires v.hasBot && !v.crashed
    ensures !Chatted(v, username, message, sc, roll).crashed
  {
    var m := ModeOf(v.index);
    var msg := ToLower(message);
    var u := Universal(v, m, username, UniversalOf(msg), sc);
    if UniversalOf(msg) == RotateNow {
      UniversalOfLemma(msg);
      RotatedModeSafe(u, m, username, sc, roll);
    } else {
      UniversalKeepsClient(v, m, username, UniversalOf(msg), sc);
      FighterDaySafe(u, username, FighterOf(msg), sc);
      HerobrineDaySafe(u, username, Mentions(msg), HerobrineOf(msg), roll);
    }
  }

  /** The universal commands keep the single-task invariant. */
  lemma UniversalKeepsTidy(v: Vars, m: Mode, username: string, cmd: UniversalCommand, sc: Scene)
    requires Tidy(v.slot)
    ensures Tidy(Universal(v, m, username, cmd, sc).slot)
  {
    SleepLemma(v);
  }

  lemma FighterDayKeepsTidy(v: Vars, username: string, cmd: FighterCommand, sc: Scene)
    requires Tidy(v.slot)
    ensures Tidy(FighterDay(v, username, cmd, sc).slot)
  {
    ClearSlotLemma(v.slot);
    ReplaceLemma(v.slot, GuardLook);
    ReplaceLemma(v.slot, FollowLook(username));
  }

  lemma HerobrineDayKeepsTidy(v: Vars, username: string, mentioned: bool, cmd: HerobrineCommand, roll: nat)
    requires Tidy(v.slot)
    ensures Tidy(HerobrineDay(v, username, mentioned, cmd, roll).slot)
  {
    var w := if mentioned then Answered(v, username, roll) else v;
    assert w.slot == v.slot;
    ClearSlotLemma(v.slot);
    ReplaceLemma(v.slot, FollowLook(username));
  }

  /** Every chat line keeps the single-task invariant. */
  lemma ChatKeepsSingleTask(v: Vars, username: string, message: string, sc: Scene, roll: nat)
    requires Tidy(v.slot)
    ensures Tidy(Chatted(v, username, message, sc, roll).slot)
  {
    var m := ModeOf(v.index);
    var msg := ToLower(message);
    var u := Universal(v, m, username, UniversalOf(msg), sc);
    UniversalKeepsTidy(v, m, username, UniversalOf(msg), sc);
    FighterDayKeepsTidy(u, username, FighterOf(msg), sc);
    HerobrineDayKeepsTidy(u, username, Mentions(msg), HerobrineOf(msg), roll);
  }

  /** Spawning keeps the single-task invariant. */
  lemma SpawnKeepsSingleTask(v: Vars)
    requires Tidy(v.slot)
    ensures Tidy(OnSpawn(v).slot)
  {
    var m := ModeOf(v.index);
    ActivitiesKeepSingleTask(Monitored(Later(v.(status := Active(m)), 3000, Greet(m))), m);
  }

  /**
   * A spawn as written keeps the single-task invariant exactly when it comes
   * at night or over an empty slot; a day spawn over a running interval
   * orphans that interval.
   */
  lemma SpawnAsWrittenSingleTask(v: Vars)
    requires Tidy(v.slot)
    ensures Tidy(OnSpawnAsWritten(v).slot) <==> v.isNight || v.slot.task.None?
    ensures !v.isNight && v.slot.task.Some? ==> v.slot.task.value in Cleared(OnSpawnAsWritten(v)).slot.running
  {
    var m := ModeOf(v.index);
    var w := Monitored(Later(v.(status := Active(m)), 3000, Greet(m)));
    assert w.slot == v.slot && w.isNight == v.isNight;
    ActivitiesAsWrittenSingleTask(w, m);
    if !v.isNight && v.slot.task.Some? {
      ActivitiesOrphanTask(w, m);
    }
  }

  /**
   * As written, the night notice goes through `this.currentBot`: with a
   * client it is the gate of `NightGateLemma`, and without one a `!` command
   * at night crashes the process.
   */
  lemma NightGateAsWritten(v: Vars, m: Mode, username: string, msg: string, sc: Scene, roll: nat)
    requires v.isNight
    ensures v.hasBot ==> ModeCommandsAsWritten(v, m, username, msg, sc, roll) == ModeCommands(v, m, username, msg, sc, roll)
    ensures !v.hasBot ==> (ModeCommandsAsWritten(v, m, username, msg, sc, roll).crashed <==> StartsWith(msg, "!") || v.crashed)
  {
  }

  /**
   * The chat handler as written agrees with the corrected one on the
   * `currentTask` slot always, and on everything whenever it does not crash.
   */
  lemma ChatAsWrittenAgrees(v: Vars, username: string, message: string, sc: Scene, roll: nat)
    ensures ChattedAsWritten(v, username, message, sc, roll).slot == Chatted(v, username, message, sc, roll).slot
    ensures !ChattedAsWritten(v, username, message, sc, roll).crashed ==>
      ChattedAsWritten(v, username, message, sc, roll) == Chatted(v, username, message, sc, roll)
  {
  }

  /** The chat handler as written keeps the single-task invariant too. */
  lemma ChatAsWrittenKeepsSingleTask(v: Vars, username: string, message: string, sc: Scene, roll: nat)
    requires Tidy(v.slot)
    ensures Tidy(ChattedAsWritten(v, username, message, sc, roll).slot)
  {
    ChatAsWrittenAgrees(v, username, message, sc, roll);
    ChatKeepsSingleTask(v, username, message, sc, roll);
  }

  /**
   * As written, a chat line from another player crashes a live session
   * exactly when it is `!rotate`, in any letter case, at night.
   */
  lemma ChatAsWrittenCrashes(v: Vars, username: string, message: string, sc: Scene, roll: nat)
    requires v.hasBot && !v.crashed
    ensures ChattedAsWritten(v, username, message, sc, roll).crashed <==>
      username != Usernames[v.index] && ToLower(message) == "!rotate" && v.isNight
  {
    var m := ModeOf(v.index);
    var msg := ToLower(message);
    if username != Usernames[v.index] {
      var u := Universal(v, m, username, UniversalOf(msg), sc);
      UniversalOfLemma(msg);
      if msg == "!rotate" {
        RotateLemma(Say(v, Rotating));
        if v.isNight {
          RotateIsUniversalOnly();
          assert u.isNight && !u.hasBot && !u.crashed;
          assert ModeCommandsAsWritten(u, m, username, msg, sc, roll).crashed;
        } else {
          RotatedModeSafe(u, m, username, sc, roll);
          assert ModeCommandsAsWritten(u, m, username, msg, sc, roll) == ModeCommands(u, m, username, msg, sc, roll);
        }
      } else {
        UniversalKeepsClient(v, m, username, UniversalOf(msg), sc);
        ChatAsWrittenAgrees(v, username, message, sc, roll);
        ChatNeverCrashes(v, username, message, sc, roll);
        assert ModeCommandsAsWritten(u, m, username, msg, sc, roll) == ModeCommands(u, m, username, msg, sc, roll);
      }
    }
  }

  // ---------------------------------------------------------------- sleep follows the night

  /**
   * The bot sleeps exactly when its night flag is set. `CheckStep` and
   * `ChecksFollowTransitions` assume it; the lemmas below show that every
   * event keeps it, starting from `Initial()`.
   */
  predicate SleepFollowsNight(v: Vars) {
    v.isSleeping == v.isNight
  }

  /** The clock check, its greeting timeout and the forced sleep and wake keep sleep following the night. */
  lemma ClockKeepsSleepFollowingNight(v: Vars, m: Mode, hasEntity: bool, timeOfDay: int)
    requires SleepFollowsNight(v)
    ensures SleepFollowsNight(TimeChecked(v, hasEntity, timeOfDay))
    ensures SleepFollowsNight(GreetFired(v, m, hasEntity, timeOfDay))
    ensures SleepFollowsNight(ForcedSleep(v)) && SleepFollowsNight(ForcedWake(v))
  {
    SleepLemma(v);
    WakeLemma(v);
  }

  /**
   * Sleep follows the night after the constructor, and connecting, login,
   * spawn, death, recovery and the three losses touch neither flag.
   */
  lemma LifecycleKeepsSleepFollowingNight(v: Vars, m: Mode)
    requires SleepFollowsNight(v)
    ensures SleepFollowsNight(Initial())
    ensures SleepFollowsNight(Connected(v)) && SleepFollowsNight(OnLogin(v))
    ensures SleepFollowsNight(OnSpawnAsWritten(v)) && SleepFollowsNight(OnSpawn(v))
    ensures SleepFollowsNight(OnDeath(v)) && SleepFollowsNight(RecoverFired(v, m))
    ensures SleepFollowsNight(OnKicked(v)) && SleepFollowsNight(OnError(v)) && SleepFollowsNight(OnEnd(v))
  {
  }

  /** The interval ticks and the good-night, attack, stare and help-line timeouts touch neither flag. */
  lemma TicksKeepSleepFollowingNight(v: Vars, hasEntity: bool, lucky: bool, pick: nat, roll: nat, text: string)
    requires SleepFollowsNight(v)
    ensures SleepFollowsNight(Say(v, GoodNightLine)) && SleepFollowsNight(Say(v, HelpEntry(text)))
    ensures SleepFollowsNight(AttackStopped(v)) && SleepFollowsNight(Stared(v))
    ensures SleepFollowsNight(GuardTicked(v, hasEntity)) && SleepFollowsNight(FollowTicked(v, hasEntity))
    ensures SleepFollowsNight(FighterIdleTicked(v, lucky)) && SleepFollowsNight(HerobrineIdleTicked(v, lucky, pick, roll))
  {
  }

  /** The universal rules only sleep by night (`!sleep`) and only wake by day (`!wake`). */
  lemma UniversalKeepsSleepFollowingNight(v: Vars, m: Mode, username: string, cmd: UniversalCommand, sc: Scene)
    requires SleepFollowsNight(v)
    ensures SleepFollowsNight(Universal(v, m, username, cmd, sc))
  {
    match cmd
    case SleepNow => SleepLemma(v);
    case WakeNow => WakeLemma(v);
    case RotateNow => RotateLemma(Say(v, Rotating));
    case AskHelp => HelpLemma(v, m);
    case _ =>
  }

  /** The persona commands touch neither flag. */
  lemma ModeKeepsSleepFollowingNight(v: Vars, m: Mode, username: string, msg: string, sc: Scene, roll: nat)
    requires SleepFollowsNight(v)
    ensures SleepFollowsNight(ModeCommandsAsWritten(v, m, username, msg, sc, roll))
  {
    if !v.isNight {
      if m == Fighter {
        var w := FighterDay(v, username, FighterOf(msg), sc);
        assert w.isNight == v.isNight && w.isSleeping == v.isSleeping;
      } else {
        var mentioned := Mentions(msg);
        var a := if mentioned then Answered(v, username, roll) else v;
        assert a.isNight == v.isNight && a.isSleeping == v.isSleeping;
        var w := HerobrineDay(v, username, mentioned, HerobrineOf(msg), roll);
        assert w.isNight == v.isNight && w.isSleeping == v.isSleeping;
      }
    }
  }

  /** Every chat line, as written, keeps sleep following the night. */
  lemma ChatKeepsSleepFollowingNight(v: Vars, username: string, message: string, sc: Scene, roll: nat)
    requires SleepFollowsNight(v)
    ensures SleepFollowsNight(ChattedAsWritten(v, username, message, sc, roll))
  {
    var m := ModeOf(v.index);
    var msg := ToLower(message);
    if username != Usernames[v.index] {
      var u := Universal(v, m, username, UniversalOf(msg), sc);
      UniversalKeepsSleepFollowingNight(v, m, username, UniversalOf(msg), sc);
      if !u.crashed {
        ModeKeepsSleepFollowingNight(u, m, username, msg, sc, roll);
      }
    }
  }
}
