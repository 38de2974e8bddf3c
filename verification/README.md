# Minecraft persona bots, modelled in Dafny

Two small controllers keep a Minecraft client online and switch it between
two personas, a *fighter* and a *herobrine*:

- `BotManager` (bot.js) runs one client at a time and switches between
  `FighterBot` and `HerobrineBot`. A plain end of the session rotates once.
  A kick, an error or `!rotate` rotates too, but the quit client's `end`
  handler then rotates a second time, so the same persona comes back with
  two connects 10 s later (see "## Findings").
  A 30-second clock check sends the bot to sleep at night and wakes it at
  dawn. A single task slot holds the one behaviour interval. The client's
  status is kept as a lifecycle string, and a chat dispatcher handles the
  universal commands and then the persona's own commands, which are gated
  at night.
- `CombinedBot` (combined_bot.js) runs one client, `FighterBot`, in one of
  the two modes. Each reconnect quits that client, and its `end` arms
  another reconnect, so once started the reconnects repeat (see
  "## Findings"). A two-hour timeout rotates the mode. Patrol and guard are
  repeating intervals in the field `currentTask`. The guard walks five
  waypoints in turn. Chat commands are exact matches on the lower-cased
  text. Pure helpers classify mobs and gear, pick the best weapon, split
  the uptime and lay out block-by-block build schedules.

The model is layered as follows:

- **Pure helpers.** `Text` covers lower-casing, substring search and number
  rendering. `Personas` has the two modes. `Gear` has the classifiers and
  the weapon choice. `Structures` has the build schedules.
- **State machines.** `BotModel` and `CombinedModel` hold each controller
  as functions on a snapshot `Vars` of its fields. The outside world
  appears as a log of effects: connecting, quitting, a chat line, a
  one-shot timeout with the job it will run, a repeating interval that no
  field keeps (`Every`, bot.js's 30 s clock check), equipping, a pathfinder
  goal and placing a block. Live intervals are a map from handle to task.
- **Classes.** `BotRuntime.BotManager` and `CombinedRuntime.CombinedBot`
  update those fields in place. Every method is proved equal to its
  state-machine function: `View()` after the call is the function of
  `View()` before it. So every lemma about the functions holds of the
  objects. The classes run the code as written, including the defects
  under "## Findings". The models keep a corrected function beside each
  as-written one (`ActivitiesStarted`, `OnSpawn`, `ModeCommands`, `Chatted`
  and `EndedOnce` in `BotModel`, `OnLostOnce`, `StartPatrolClearing` and
  `GuardAreaClearing` in `CombinedModel`), with the intended properties
  proved of it.

What the game client reports comes in as arguments: whether a player is in
sight, the world time, whether the bot has an entity, the inventory, the
health and the random draws. A random choice from a list of `n` is entry
`roll % n` for a draw `roll`.

**Calls through a missing client.** Both controllers sometimes call
through a client field that is null:

- bot.js installs no handler for uncaught exceptions, so there such a call
  ends the process (`crashed`).
- combined_bot.js logs uncaught exceptions and carries on, so there it only
  ends the running handler. Its handlers return a `Step`: the fields at
  the point the handler stopped, and whether it threw.

## Model

A runtime method's row also stands for the state-machine function its
`ensures` names (for example `BotRuntime.BotManager.CheckTimeAndSleep` for
`BotModel.TimeChecked`, or `CombinedRuntime.CombinedBot.RotateBot` for
`CombinedModel.RotateBot`). Those functions have no rows of their own.

| member | source | states |
|---|---|---|
| Personas.ModeUpper | bot.js:53 | the upper-cased mode name is all capitals and lower-cases back to `fighter` / `herobrine` |
| Personas.Other | combined_bot.js:921 | the mode toggle always yields the other mode |
| Text.ToLower | bot.js:129 | `toLowerCase` keeps the length, turns each capital into its own lower-case letter and keeps every other character |
| Text.ToLowerIdempotent | combined_bot.js:128 | lower-casing twice is lower-casing once |
| Text.ToLowerFixes | combined_bot.js:128 | text with no upper-case letter is its own lower case |
| Text.ContainsAt | combined_bot.js:268 | `includes` holds iff the needle occurs at some index |
| Text.ContainsLength | combined_bot.js:268 | a contained needle is no longer than the text |
| Text.AbsentFirst | combined_bot.js:268 | a needle whose first character never occurs in the text is not contained |
| Text.NatToString | combined_bot.js:992 | a count renders as a non-empty run of decimal digits |
| Text.ParseNatToString | combined_bot.js:992 | reading the digits back gives the number |
| Text.NatToStringCanonical | combined_bot.js:992 | the rendering has a leading `0` only for zero |
| Text.IntToString | combined_bot.js:1000 | an integer renders non-empty, with a leading `-` exactly when negative |
| Gear.AnyContainedIff | combined_bot.js:613-619 | `some(... includes ...)` holds iff some key is contained in the name |
| Gear.HostileMobIff | combined_bot.js:613-619 | `isHostileMob` holds iff the name contains one of the ten mob names |
| Gear.IsBetterGear | combined_bot.js:727-743 | the loop returns true iff the name contains one of the six material keys; the tier numbers play no part |
| Gear.FindItem | combined_bot.js:628 | `find` returns the first item containing the key, and none when no item does |
| Gear.Pick | combined_bot.js:627-633 | a chosen index is an inventory index |
| Gear.PickIsFirstBest | combined_bot.js:621-634 | no item is picked iff no item matches any listed weapon; otherwise the pick is the first item matching the earliest weapon that any item matches |
| Gear.EquipBestWeapon | combined_bot.js:621-634 | the priority walk with its early exit chooses exactly `Pick` |
| Structures.ScheduleMembers | combined_bot.js:574-591 | a placement is in a build schedule iff it lies on one of the shape's layers |
| Structures.RingLayer | combined_bot.js:579-583 | a strange-structure layer `y` is the ring `max(abs x, abs z) == y`, delayed `(10y + abs x + abs z) * 100` ms |
| Structures.SquareLayer | combined_bot.js:796-800 | a pyramid layer `y` is the full square of side `2y + 1`, delayed `(10y + abs x + abs z) * 50` ms |
| Structures.PlusLayer | combined_bot.js:812-816 | a tower layer is the five-cell plus, delayed `(5y + abs x + abs z) * 50` ms |
| Structures.ScheduleGeometry | combined_bot.js:574-591 | a placement is scheduled iff its layer is in range, its cell is on the shape and its delay is the formula's |
| Structures.ScheduleOrdered | combined_bot.js:579-583 | timeouts are armed layer by layer, row by row and cell by cell, and no cell is armed twice |
| Structures.StrangeLayerCount | combined_bot.js:579-583 | the strange layers hold 1, 8, 16, 24 and 32 cells (`8y` for `y > 0`) |
| Structures.PyramidLayerCount | combined_bot.js:796-800 | pyramid layer `y` holds `(2y + 1)^2` cells |
| Structures.TowerLayerCount | combined_bot.js:812-816 | every tower layer holds 5 cells |
| Structures.YRunCount | combined_bot.js:796-805 | the layers from `y` to the top hold the sum of their layer sizes |
| Structures.ScheduleCount | combined_bot.js:574-591 | the strange structure arms 81 timeouts, the pyramid 84 and the tower 40 |
| Structures.VolumeTotals | combined_bot.js:792-824 | the layer sizes add up to 81, 84 and 40 for the three shapes |
| BotModel.RotationCycles | bot.js:320-334 | the index alternates mod 2, two rotations come back, and the mode is fighter iff the index is 0 |
| BotModel.ClearSlot | bot.js:349-354 | `clearTasks` always leaves the slot empty, and does nothing to an empty one |
| BotModel.Install | bot.js:363 | a fresh interval handle goes into the slot |
| BotModel.ClearSlotLemma | bot.js:349-354 | `clearTasks` is idempotent, stops the slot's interval and keeps the invariant |
| BotModel.ReplaceLemma | bot.js:409-411 | a behaviour that clears before installing leaves exactly its own interval running |
| BotModel.Initial | bot.js:31-67 | after the constructor: index 0, a fighter client connecting, awake, not fighting, no task |
| BotModel.Spoken | bot.js:300 | a call through the current client says the line, and crashes the process when there is none |
| BotModel.SleepLemma | bot.js:273-289 | `goToSleep` is idempotent; from awake it sets sleeping, clears fighting, empties the slot, arms the good-night line and keeps the rest |
| BotModel.WakeLemma | bot.js:291-301 | `wakeUp` does nothing unless sleeping, otherwise clears only the flag and says good morning; it does not restart activities |
| BotModel.TimeCheckLemma | bot.js:255-271 | night is `13000 <= t <= 23000`; sleep only on a day-to-night edge, wake only on a night-to-day edge, nothing without an entity |
| BotModel.TransitionsAlternate | bot.js:264-270 | over any series of samples the edges alternate, the first being a sleep when the series starts by day |
| BotModel.ChecksFollowTransitions | bot.js:255-301 | for any series of clock checks on a bot whose sleep follows the night flag, the log gains exactly a good-night timeout per sleep edge and a good morning per wake edge, in order, so with `TransitionsAlternate` they alternate |
| BotModel.CheckStep | bot.js:255-271 | one clock check logs the effect of its own edge and keeps sleep following the night flag |
| BotModel.ClockKeepsSleepFollowingNight | bot.js:255-317 | the clock check, the greeting's check and `!sleep` / `!wake` keep the bot asleep exactly at night: it only sleeps on entering the night and only wakes on leaving it |
| BotModel.LifecycleKeepsSleepFollowingNight | bot.js:31-123 | sleep follows the night after the constructor, and connecting, login, spawn, death, recovery, kick, error and end keep it |
| BotModel.TicksKeepSleepFollowingNight | bot.js:357-452 | the idle, guard and follow ticks and the good-night, attack, stare and help-line timeouts keep sleep following the night |
| BotModel.UniversalKeepsSleepFollowingNight | bot.js:131-158 | every universal rule, `!sleep`, `!wake` and `!rotate` included, keeps sleep following the night |
| BotModel.ModeKeepsSleepFollowingNight | bot.js:160-245 | the persona commands, by day and at night, keep sleep following the night |
| BotModel.ChatKeepsSleepFollowingNight | bot.js:126-245 | every chat line, as written, keeps sleep following the night, so the requires of `CheckStep` and `ChecksFollowTransitions` hold in every reachable state |
| BotModel.SampleTraceLemma | bot.js:255-301 | the samples 12000, 12500, 13000, 13500, 22000, 23500, 100 give one sleep (at 13000) and one wake (at 23500) |
| BotModel.ForceGateLemma | bot.js:303-317 | `!sleep` by day and `!wake` at night only answer and change no state; otherwise they sleep or wake |
| BotModel.RotateLemma | bot.js:320-342 | a rotation drops and quits the client, moves the index, keeps the other fields and arms one reconnect, which connects the other persona |
| BotModel.ActivitiesOrphanTask | bot.js:357-368 | as written, starting an activity by day over any running interval breaks the single-task invariant and leaves the old interval running after `clearTasks` |
| BotModel.ActivitiesAsWrittenSingleTask | bot.js:357-368 | as written, the activity keeps the single-task invariant exactly when it is night or the slot was empty |
| BotModel.ActivitiesKeepSingleTask | bot.js:357-368 | corrected: with the slot cleared first, at most one interval runs, the slot's |
| BotModel.StatusLifecycle | bot.js:54-104 | status goes connecting, connected at login, active at spawn, dead at death, and active again 2 s later |
| BotModel.StatusOnLoss | bot.js:107-123 | kicked, error and end set `kicked`, `error`, `disconnected` and rotate |
| BotModel.KickedThenEnded | bot.js:107-123 | a kick followed by the session's end rotates twice: the index comes back and two reconnects are armed |
| BotModel.RotateThenEnded | bot.js:119-123 | any rotation of a live client, `!rotate` included, is followed by the quit client's end: the index comes back, two reconnects are armed and both connect the persona just left |
| BotModel.RotateThenEndedOnce | bot.js:119-123 | corrected: when the end of an already-quit client is ignored, a kick or rotation moves to the other persona once with one reconnect, and a live session's end still rotates |
| BotModel.AttackLemma | bot.js:370-397 | `attackPlayer` sets fighting and arms the 15 s stop only for a seen player by day; `stopAttack` clears the flag; the slot is untouched |
| BotModel.IdleTickLemma | bot.js:357-368 | the idle ticks do nothing at night, never touch flags, status or slot, say at most one line and, with a client, never crash |
| BotModel.TickGuardsLemma | bot.js:409-452 | the guard tick clears the slot at night, without an entity or while fighting; the follow tick clears it when the player is gone or at night |
| BotModel.Staggered | bot.js:668-674 | one timeout per help line |
| BotModel.HelpLemma | bot.js:626-675 | help is the 7 common lines then the mode's 9, line `i` after `i * 100` ms, and nothing else changes |
| BotModel.UniversalOfLemma | bot.js:131-158 | no universal rule fires iff the text is none of the nine command strings; the rotation fires only for `!rotate` |
| BotModel.OwnChatIgnored | bot.js:127 | the bot's own lines change nothing |
| BotModel.NightGateLemma | bot.js:169-216 | in the corrected handler, at night a mode handler says one sleeping notice for `!` text, nothing otherwise, and runs no persona action |
| BotModel.NightGateAsWritten | bot.js:169-176 | as written, with a client the night gate is exactly the corrected one; without one, `!` text at night crashes the process |
| BotModel.HelloMentionsNothing | bot.js:218 | "hello" mentions none of herobrine, hb and ghost |
| BotModel.GreetingAnyCase | bot.js:129-133 | `hello` in any letter case is answered first with a hello to the sender |
| BotModel.RotateIsUniversalOnly | bot.js:139-142 | `!rotate` is no persona command, mentions nothing and starts with `!` |
| BotModel.NightRotateCrashes | bot.js:139-176 | as written, `!rotate` at night crashes the process |
| BotModel.FighterDaySafe | bot.js:179-205 | with a client, no fighter command crashes |
| BotModel.HerobrineDaySafe | bot.js:218-244 | with a client, no herobrine command crashes |
| BotModel.UniversalKeepsClient | bot.js:131-158 | every universal rule but the rotation keeps the client and crashes nothing |
| BotModel.RotatedModeSafe | bot.js:160-165 | after `!rotate` the mode handler, with the notice through the session's client, crashes nothing |
| BotModel.ChatNeverCrashes | bot.js:126-166 | with that correction no chat line to a live session crashes the process |
| BotModel.UniversalKeepsTidy | bot.js:131-158 | the universal rules keep the single-task invariant |
| BotModel.FighterDayKeepsTidy | bot.js:179-205 | the fighter commands keep it |
| BotModel.HerobrineDayKeepsTidy | bot.js:218-244 | the herobrine commands keep it |
| BotModel.ChatKeepsSingleTask | bot.js:126-166 | every chat line keeps it, in the corrected handler |
| BotModel.ChatAsWrittenAgrees | bot.js:126-166 | the handler as written leaves the same slot as the corrected one, and the same state whenever it does not crash |
| BotModel.ChatAsWrittenKeepsSingleTask | bot.js:126-166 | so every chat line as written keeps the single-task invariant too |
| BotModel.ChatAsWrittenCrashes | bot.js:126-245 | as written, another player's line crashes a live session exactly when it lower-cases to `!rotate` and it is night |
| BotModel.SpawnKeepsSingleTask | bot.js:77-95 | with the corrected activities, a spawn keeps it |
| BotModel.SpawnAsWrittenSingleTask | bot.js:77-95 | as written, a spawn keeps it exactly at night or over an empty slot; a day spawn over a running interval leaves that interval where `clearTasks` cannot reach it |
| BotRuntime.BotManager.constructor | bot.js:31-41 | the new object is `Initial()` |
| BotRuntime.BotManager.StartBotRotation | bot.js:43-47 | sets `starting`, then connects |
| BotRuntime.BotManager.ConnectBot | bot.js:49-67 | connects the index's username with status `connecting_<mode>` |
| BotRuntime.BotManager.SayLine | bot.js:82 | a line through the client a handler captured |
| BotRuntime.BotManager.ChatCurrent | bot.js:300 | a line through `this.currentBot` (`Spoken`) |
| BotRuntime.BotManager.SetTimeout | bot.js:81-84 | arms a one-shot timeout |
| BotRuntime.BotManager.SetTask | bot.js:363 | stores a fresh interval in the slot |
| BotRuntime.BotManager.ClearTasks | bot.js:349-354 | `ClearSlot` on the object |
| BotRuntime.BotManager.OnLogin | bot.js:72-75 | status `connected_<mode>` |
| BotRuntime.BotManager.OnSpawn | bot.js:77-95 | status `active_<mode>`, the greeting, clock monitoring and the mode's activity stored over whatever the slot held (`SpawnAsWrittenSingleTask`) |
| BotRuntime.BotManager.StartTimeMonitoring | bot.js:248-253 | arms the 30 s clock check |
| BotRuntime.BotManager.GreetTimeout | bot.js:81-84 | the greeting, then a clock check |
| BotRuntime.BotManager.OnDeath | bot.js:97-105 | clears fighting, status `dead_<mode>`, arms the recovery |
| BotRuntime.BotManager.RecoverTimeout | bot.js:101-104 | the recovery line and status `active_<mode>` |
| BotRuntime.BotManager.OnKicked | bot.js:107-111 | status `kicked`, then a rotation |
| BotRuntime.BotManager.OnError | bot.js:113-117 | status `error`, then a rotation |
| BotRuntime.BotManager.OnEnd | bot.js:119-123 | status `disconnected`, then a rotation |
| BotRuntime.BotManager.RotateToNextBot | bot.js:320-342 | the rotation of `RotateLemma` |
| BotRuntime.BotManager.ManualRotate | bot.js:344-347 | the same rotation |
| BotRuntime.BotManager.CheckTimeAndSleep | bot.js:255-271 | the clock check of `TimeCheckLemma` |
| BotRuntime.BotManager.GoToSleep | bot.js:273-289 | `Slept` on the object |
| BotRuntime.BotManager.GoodNightTimeout | bot.js:286-288 | the good-night line |
| BotRuntime.BotManager.WakeUp | bot.js:291-301 | `Woken` on the object |
| BotRuntime.BotManager.ForceSleep | bot.js:303-309 | the gated `!sleep` |
| BotRuntime.BotManager.ForceWake | bot.js:311-317 | the gated `!wake` |
| BotRuntime.BotManager.StartFighterActivities | bot.js:357-368 | by day, the fighter's idle interval stored in the slot without clearing it |
| BotRuntime.BotManager.StartHerobrineActivities | bot.js:494-505 | by day, the herobrine's idle interval stored in the slot without clearing it |
| BotRuntime.BotManager.FighterIdleTick | bot.js:363-367 | by day, not fighting and lucky, a random look |
| BotRuntime.BotManager.RandomMovement | bot.js:482-491 | reads the current client's entity: crashes without a client |
| BotRuntime.BotManager.HerobrineIdleTick | bot.js:500-504 | by day and lucky, one of the three random behaviours |
| BotRuntime.BotManager.RandomHerobrineBehavior | bot.js:597-606 | message, stare or laugh, by the draw |
| BotRuntime.BotManager.AttackPlayer | bot.js:370-392 | `attackPlayer` on the object |
| BotRuntime.BotManager.StopAttack | bot.js:394-397 | clears fighting and says so |
| BotRuntime.BotManager.GuardArea | bot.js:399-407 | night notice, or the announcement and the guard behaviour |
| BotRuntime.BotManager.GuardBehavior | bot.js:409-425 | clears the slot, then installs the guard interval |
| BotRuntime.BotManager.GuardTick | bot.js:411-424 | the guard tick of `TickGuardsLemma` |
| BotRuntime.BotManager.FollowPlayer | bot.js:427-438 | night notice, or for a seen player the announcement and the follow behaviour |
| BotRuntime.BotManager.FollowBehavior | bot.js:440-452 | clears the slot, then installs the follow interval |
| BotRuntime.BotManager.FollowTick | bot.js:442-451 | the follow tick of `TickGuardsLemma` |
| BotRuntime.BotManager.StopFollow | bot.js:454-457 | clears the slot and says so |
| BotRuntime.BotManager.ComeToPlayer | bot.js:459-470 | night notice, or for a seen player the announcement |
| BotRuntime.BotManager.ExploreArea | bot.js:472-480 | night notice, or the announcement and a random look |
| BotRuntime.BotManager.RespondToMention | bot.js:507-526 | night notice, or one of the four replies and the stare timeout |
| BotRuntime.BotManager.StareAtPlayer | bot.js:608-613 | reads the current client: crashes without one |
| BotRuntime.BotManager.StareAtNearestPlayer | bot.js:615-623 | reads the current client: crashes without one |
| BotRuntime.BotManager.Disappear | bot.js:528-536 | night notice, or the line and a cleared slot |
| BotRuntime.BotManager.Appear | bot.js:538-546 | night notice, or the line and a stare |
| BotRuntime.BotManager.ScaryAction | bot.js:548-563 | night notice, or one of the three lines and a stare |
| BotRuntime.BotManager.StalkPlayer | bot.js:565-573 | night notice, or the line and the follow behaviour |
| BotRuntime.BotManager.StopStalking | bot.js:575-578 | clears the slot and says so |
| BotRuntime.BotManager.SendCreepyMessage | bot.js:580-595 | night notice, or one of the four messages |
| BotRuntime.BotManager.ShowHelp | bot.js:626-675 | the staggered help of `HelpLemma` |
| BotRuntime.BotManager.ScheduleHelp | bot.js:668-674 | the `forEach` loop arms line `i` after `i * 100` ms, for every line in order |
| BotRuntime.BotManager.HelpLineTimeout | bot.js:669-673 | says the line only while there is a current client |
| BotRuntime.BotManager.ShowStatus | bot.js:677-683 | the status line through the current client |
| BotRuntime.BotManager.OnChat | bot.js:126-166 | the chat event as written (`ChattedAsWritten`), which crashes only on `!rotate` at night |
| BotRuntime.BotManager.Universals | bot.js:131-158 | the universal rules |
| BotRuntime.BotManager.HandleFighterCommands | bot.js:169-206 | the gated fighter handler, with the night notice through `this.currentBot` |
| BotRuntime.BotManager.HandleHerobrineCommands | bot.js:208-245 | the gated herobrine handler, with the night notice through `this.currentBot` |
| CombinedModel.Talk | combined_bot.js:342 | `this.bot.chat` throws exactly when there is no client, and otherwise logs the line |
| CombinedModel.Initial | combined_bot.js:20-30 | after the constructor: fighter mode, a client, one rotation pending, invariant holds |
| CombinedModel.ValidSinglePending | combined_bot.js:883-892 | under the invariant at most one rotation timeout is pending, none without `rotationInterval` |
| CombinedModel.StartRotationTimerSingle | combined_bot.js:883-896 | arming the rotation clears the old one: exactly the new timeout is pending, mode kept |
| CombinedModel.InitKeepsValid | combined_bot.js:32-69 | `initBot` keeps the invariant with only its own rotation pending |
| CombinedModel.RotateValid | combined_bot.js:898-929 | `rotateBot` keeps the invariant |
| CombinedModel.RotateKeepsValid | combined_bot.js:890-892 | a fired rotation timeout keeps the invariant too |
| CombinedModel.RotateTeardown | combined_bot.js:898-929 | with a client: not patrolling, not guarding, no task, no client, the other mode, nothing pending; it says the stop, quits and arms the re-init in 5 s |
| CombinedModel.RotateWithoutClient | combined_bot.js:411-418 | without a client the rotation throws in `stopPatrol` and keeps the mode |
| CombinedModel.RotateTwiceRestoresMode | combined_bot.js:921 | two rotations with their re-inits restore the mode |
| CombinedModel.ReconnectKeepsMode | combined_bot.js:931-942 | the reconnect stages only add to the log; `initBot` keeps mode, flags and task slot |
| CombinedModel.ReconnectRearms | combined_bot.js:104-107 | when the quit client reports its end, the re-init's client has another quit armed, in the same mode |
| CombinedModel.ReconnectSettles | combined_bot.js:104-107 | corrected: when the end of the client the reconnect quit is ignored, one reconnect re-inits the same mode and arms nothing further, and a live loss still schedules a reconnect |
| CombinedModel.AlreadyGuardsLemma | combined_bot.js:345-409 | `!patrol` while patrolling and `!guard` while guarding only answer "Already ..."; otherwise they set the flag and install their interval |
| CombinedModel.GuardStep | combined_bot.js:365-378 | one quiet tick sends the goal under the cursor and moves it to `(p + 1) % 5` |
| CombinedModel.GuardCursor | combined_bot.js:363-378 | after `k` quiet ticks the cursor is `(p + k) % 5` |
| CombinedModel.GuardCycle | combined_bot.js:355-378 | `k` quiet ticks hand out exactly the waypoints `p, p+1, ...` mod 5 |
| CombinedModel.GuardFrame | combined_bot.js:365-378 | quiet ticks change nothing but the cursor and the log |
| CombinedModel.GuardCycleReturns | combined_bot.js:375-378 | a multiple of five ticks brings the cursor back |
| CombinedModel.SharedSlotOrphansPatrol | combined_bot.js:386-419 | `!patrol`, `!guard`, `!stop patrol` stop the guard's interval, leave the guard flag set and the patrol interval running unreachably |
| CombinedModel.SharedSlotCleared | combined_bot.js:386-419 | corrected: when both starts clear `currentTask` first, `!patrol`, `!guard`, `!stop patrol` leave none of their intervals running |
| CombinedModel.JsRem | combined_bot.js:999 | JavaScript `%`: Euclidean for a non-negative dividend, and always of magnitude below the divisor |
| CombinedModel.UptimeSplit | combined_bot.js:997-999 | for `u >= 0`, minutes `< 60` and `hours * 60 + minutes == u / 60000` |
| CombinedModel.HelpTimeouts | combined_bot.js:983-987 | one timeout per help line |
| CombinedModel.HelpTimeoutsSnoc | combined_bot.js:983-987 | one more line adds its timeout at the end |
| CombinedModel.HelpLemma | combined_bot.js:949-988 | help arms thirty timeouts, all at 100 ms, in list order, and changes nothing else |
| CombinedModel.Arm | combined_bot.js:584-586 | one block timeout per scheduled cell |
| CombinedModel.FiredLogsOnly | combined_bot.js:82-91 | every timeout but the re-init only adds to the log; each except the reconnect quit throws exactly when there is no client |
| CombinedModel.ModeGreetLogsOnly | combined_bot.js:161-166 | the mode greeting only adds to the log and throws exactly without a client |
| CombinedModel.FiredInit | combined_bot.js:926-928 | the re-init brings a client back and keeps the mode, the flags and the `currentTask` slot |
| CombinedModel.FiredKeepsValid | combined_bot.js:926-940 | every timeout keeps the invariant |
| CombinedModel.OwnChatIgnored | combined_bot.js:126 | the bot's own lines change nothing |
| CombinedModel.RotateIsCommonOnly | combined_bot.js:137-140 | `!rotate` is neither a fighter nor a herobrine command |
| CombinedModel.ChatRotate | combined_bot.js:125-156 | `!rotate` rotates with full teardown; the mode listener then throws on the missing client |
| CombinedModel.CommonSettled | combined_bot.js:130-155 | every common command but `!rotate` keeps mode, client, rotation and start time and adds only fresh intervals |
| CombinedModel.FighterSettled | combined_bot.js:169-217 | so does every fighter command |
| CombinedModel.GuardSettled | combined_bot.js:345-384 | so does `guardArea` |
| CombinedModel.PatrolSettled | combined_bot.js:386-419 | so do `startPatrol` and `stopPatrol` |
| CombinedModel.HerobrineSettled | combined_bot.js:272-302 | so does every herobrine command |
| CombinedModel.ChatSettled | combined_bot.js:125-303 | any line but an accepted `!rotate` keeps mode, client, rotation and start time, adds only fresh intervals and keeps the invariant |
| CombinedModel.ChatKeepsValid | combined_bot.js:125-303 | every chat line keeps the invariant |
| CombinedRuntime.CombinedBot.constructor | combined_bot.js:20-30 | the new object is `Initial()` |
| CombinedRuntime.CombinedBot.Say | combined_bot.js:342 | `Talk` on the object |
| CombinedRuntime.CombinedBot.SetTimeout | combined_bot.js:82-84 | arms a one-shot timeout |
| CombinedRuntime.CombinedBot.ClearTask | combined_bot.js:904-907 | stops and empties `currentTask` |
| CombinedRuntime.CombinedBot.Install | combined_bot.js:395 | stores a fresh interval over `currentTask` |
| CombinedRuntime.CombinedBot.InitBot | combined_bot.js:32-69 | a new client as `FighterBot`, then the rotation timer |
| CombinedRuntime.CombinedBot.StartRotationTimer | combined_bot.js:883-896 | clears the armed rotation and arms a fresh one |
| CombinedRuntime.CombinedBot.StopPatrol | combined_bot.js:411-419 | drops the flag and `currentTask`, then speaks through the client |
| CombinedRuntime.CombinedBot.RotateBot | combined_bot.js:898-929 | the rotation of `RotateTeardown` |
| CombinedRuntime.CombinedBot.RotationTimeout | combined_bot.js:890-892 | the armed rotation fires |
| CombinedRuntime.CombinedBot.ScheduleReconnect | combined_bot.js:931-942 | arms the first reconnect stage in 15 s |
| CombinedRuntime.CombinedBot.ReconnectQuitTimeout | combined_bot.js:933-941 | quits the client if any (the field keeps it), arms the re-init in 5 s |
| CombinedRuntime.CombinedBot.OnLogin | combined_bot.js:72-75 | records the start time |
| CombinedRuntime.CombinedBot.OnSpawn | combined_bot.js:77-85 | arms the greeting (3 s) and the mode greeting (2 s) |
| CombinedRuntime.CombinedBot.OnDeath | combined_bot.js:87-92 | arms the recovery line |
| CombinedRuntime.CombinedBot.OnLost | combined_bot.js:94-107 | kicked, error and end schedule a reconnect |
| CombinedRuntime.CombinedBot.EquipBestWeapon | combined_bot.js:621-634 | equips the item `Pick` chooses, if any |
| CombinedRuntime.CombinedBot.ModeGreetTimeout | combined_bot.js:161-166 | the mode's own greeting |
| CombinedRuntime.CombinedBot.Timeout | combined_bot.js:82-91 | a one-shot timeout fires its job |
| CombinedRuntime.CombinedBot.StartPatrol | combined_bot.js:386-409 | the guarded patrol start |
| CombinedRuntime.CombinedBot.GuardArea | combined_bot.js:345-384 | the guarded guard start |
| CombinedRuntime.CombinedBot.GuardTick | combined_bot.js:365-383 | the guard tick with its waypoint cursor |
| CombinedRuntime.CombinedBot.PatrolTick | combined_bot.js:396-407 | the patrol tick's guard |
| CombinedRuntime.CombinedBot.ShowHelp | combined_bot.js:949-988 | the help of `HelpLemma` |
| CombinedRuntime.CombinedBot.ScheduleHelp | combined_bot.js:983-987 | the `forEach` loop arms one 100 ms timeout per line, in order |
| CombinedRuntime.CombinedBot.ShowStatus | combined_bot.js:990-993 | the status line |
| CombinedRuntime.CombinedBot.ShowUptime | combined_bot.js:995-1002 | the uptime line, silent until the start time is set |
| CombinedRuntime.CombinedBot.CommonChat | combined_bot.js:130-155 | the common commands |
| CombinedRuntime.CombinedBot.AttackPlayer | combined_bot.js:329-338 | equip and attack a seen player, or say it cannot see them |
| CombinedRuntime.CombinedBot.FighterChat | combined_bot.js:169-217 | the fighter commands |
| CombinedRuntime.CombinedBot.HerobrineChat | combined_bot.js:272-302 | the herobrine commands |
| CombinedRuntime.CombinedBot.HerobrineListen | combined_bot.js:263-303 | the reply to a mention, then the herobrine commands |
| CombinedRuntime.CombinedBot.OnChat | combined_bot.js:125-303 | the chat event of `Chatted` |

## Left out

- The game client's internals are not modelled. This covers plugin loading, pathfinding, pvp, digging, looking, the inventory and world queries, teleporting, and the skin change. Their outcomes come in as arguments, and their requests appear as effects or not at all.
- The Express web server and its `/`, `/status` and `/health` endpoints are HTTP I/O and are left out.
- Process signal handlers, and the handler that logs uncaught exceptions, are not modelled. The last is reflected only in how a throw ends one handler.
- Wall-clock timing is not modelled. A timeout is an `After(delay, job)` effect, and the job runs when its firing method is called.
- The intervals of combined_bot.js that are never cleared are left out: the fighter's hostile-mob and item handlers and its 60 s and 120 s intervals, and the herobrine's three intervals, the random scary behaviour every 120 to 300 s (its period drawn once, combined_bot.js:306-310), the random teleport every 240 s (combined_bot.js:313-317) and the random structure every 300 s (combined_bot.js:320-324).
- The haunt's 10 s interval (its teleport, stare and 30 % whisper lines, combined_bot.js:552-566) is left out; only its 60 s end is modelled (`HauntEnd`).
- The async mining and wood-collecting sequences are left out. The model keeps only the lines `!mine` and `!collect wood` say.
- The `crashed` flag of bot.js's model is not terminal in the functions; an event applied after a crash still computes. The process has ended by then, so the lemmas about crashes state what happens up to the crash and the crash itself, and nothing after it.
- Random choices are a draw argument `roll`. The model does not check that they are uniform.
- Float health is left out. bot.js's `Math.floor(health)` is an integer argument. combined_bot.js's health is the string JavaScript prints.
- Positions and vectors are left out. The guard's waypoints are offsets from its centre, and build cells are offsets from the floored start position.
- Text.ToLower: folds only the ASCII letters A-Z, not the rest of Unicode as `toLowerCase` does.
- BotModel.ChattedAsWritten and BotModel.Chatted: the self-filter and the mode handler are read from the current index and client, while bot.js's listener closes over the `bot` and `mode` of its own connection (bot.js:50, 69, 127, 161). A listener left on an older client would still run the older persona. The two agree for the one live client the model has.
- CombinedModel.Chatted: runs the listener of the client's mode as held in `currentMode`. These are the same as long as one client lives at a time, and the model has only one client.
- combined_bot.js's entity and item-drop handlers, `manageInventory`, `randomScaryBehavior`, `buildPyramid` and `buildTower` run only from events or intervals that are left out. The pyramid and tower schedules are modelled in `Structures` as pure schedules.

## Findings

| source | as written | input that shows it | evidently intended | confidence | as-written member | corrected member |
|---|---|---|---|---|---|---|
| bot.js:357-368, bot.js:494-505 | the activities store their interval in `currentTask` without `clearTasks` first | any day spawn while an interval runs, e.g. a second spawn after a death: slot `{0 ↦ idle}`, then a fresh interval 1 overwrites the slot and interval 0 runs on | clear the slot before installing, as `guardBehavior` and `followBehavior` do, so at most one interval runs | not executed | BotModel.ActivitiesOrphanTask, BotModel.SpawnAsWrittenSingleTask (on `ActivitiesStartedAsWritten`, `OnSpawnAsWritten`) | BotModel.ActivitiesKeepSingleTask, BotModel.SpawnKeepsSingleTask (on `ActivitiesStarted`, `OnSpawn`) |
| bot.js:139-142, bot.js:169-176, bot.js:208-215 | at night the mode handlers send their sleeping notice through `this.currentBot`, which `!rotate` has just set to null | `!rotate` from another player at night: the rotation drops the client, then the fighter notice calls `null.chat` and the process ends | the handler speaks through the session's own client, as the universal rules do | not executed | BotModel.NightRotateCrashes, BotModel.ChatAsWrittenCrashes (on `ChattedAsWritten`) | BotModel.ChatNeverCrashes (on `Chatted`) |
| bot.js:107-123, bot.js:320-334 | every rotation quits the client, but the quit client's `end` handler stays attached and rotates again | a kick on `FighterBot`: the kick rotates to `HerobrineBot` and quits the client, its end rotates back, and two reconnects both connect `FighterBot` | one rotation per session: the end of a client already quit is ignored | not executed | BotModel.KickedThenEnded, BotModel.RotateThenEnded (on `OnEnd`) | BotModel.RotateThenEndedOnce (on `EndedOnce`) |
| combined_bot.js:104-107, combined_bot.js:931-942 | the reconnect quits the client, and that client's `end` schedules another reconnect | any kick: 15 s later the client is quit, its end arms a new reconnect, which quits the re-inited client 15 s later, and so on | the end of the client the reconnect quit schedules nothing, so the bot settles | not executed | CombinedModel.ReconnectRearms (on `OnLost`) | CombinedModel.ReconnectSettles (on `OnLostOnce`) |
| combined_bot.js:386-419 | patrol and guard both store their interval in `currentTask` without stopping what it held | `!patrol`, then `!guard`, then `!stop patrol`: the stop ends the guard's interval and the patrol interval runs on with nothing referring to it | each start clears `currentTask` first, so a stop ends every interval the commands started | not executed | CombinedModel.SharedSlotOrphansPatrol (on `StartPatrol`, `GuardArea`) | CombinedModel.SharedSlotCleared (on `StartPatrolClearing`, `GuardAreaClearing`) |
