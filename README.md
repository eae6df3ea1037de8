# Solana Ascension: a verified model of the game's orchestration layer

Solana Ascension is a browser game about a city that waits for Solana to reach $1000. Its
logic is a set of small state machines that talk through one publish/subscribe bus
(`Utils.events`):

- the quest log (`Quests`), whose quests complete on locations, NPC dialogue, mini-games or
  collected items, and which chains quests with a deferred start;
- the ten-day countdown (`UI`), with its five milestones and the `ascension` event at zero;
- the world's staged transformation and the NPC obstacle collision (`World`);
- the player's input, movement and interaction (`Player`);
- the mini-game overlay and its one playable game, the mining pattern match (`MiniGames`);
- the NPC roster and its wander behaviour (`NPCs`);
- the loading-progress counters (`Assets`);
- the `Game` object in main.js, which wires and runs all of this: `init`, the frame loop, the
  pause and focus listeners, and collectible pick-up.

The project has one Dafny module per source file:

| module | file | what it holds |
|---|---|---|
| `Utils` | utils.js | `formatTime`, `clamp`, `randomInt`, `randomFloat` |
| `EventBus` | utils.js | the `on`/`off`/`emit` bus (`Bus`) |
| `World` | world.js | transformation and collision (`World`) |
| `UI` | ui.js | the countdown panel (`CountdownPanel`) |
| `Quests` | quests.js | the quest log (`QuestLog`) |
| `Player` | player.js | the player (`Player`) |
| `MiniGames` | minigames.js | the overlay (`MiniGames`) |
| `NPCs` | npcs.js | the roster (`NPCs`) |
| `Assets` | assets.js | the loader (`Assets`) |
| `Game` | main.js | the `Game` object |

Four modules support them:

- `Common` holds options, vectors, boxes and the entities the interaction code sees.
- `Effects` holds the closed set of events, deferred tasks and notices.
- `Timers` is an explicit `setTimeout` queue with a clock.
- `Listeners` lists which listener every `init` registers, and in what order.

Each subsystem method returns the effects it causes, in order: a notice shown, an event emitted
or a callback deferred. `Game` replays them. An emitted event is dispatched to every listener
of its name, in registration order, and everything a listener emits runs before the next
listener is called, as synchronous `emit` does in the source. Dispatch terminates because
every listener emits only events of lower rank than the one it handles.

Each object whose fields the source updates in place is a class. Each method on one is proved
against a function of the old state, and the properties the source promises are proved about
those functions. `Math.random()`, `Math.sqrt`, `Math.sin`/`Math.cos` and `performance.now()` are
parameters; each comes with the requirement that it lies in the range the source draws
from.

## Model

| member | source | states |
|---|---|---|
| Utils.NatToString | utils.js:31 | `String(n)` of a whole number: decimal digits only, at least one, one digit below 10, two below 100 and three or more from 100 |
| Utils.ParseNatToString | utils.js:31 | reading back the digits `String(n)` writes gives `n`, for every whole number |
| Utils.PadStart2 | utils.js:31 | `padStart(2, '0')`: length is 2 for shorter strings and unchanged otherwise, the string is the suffix and only zeros come before it |
| Utils.PadKeepsValue | utils.js:31 | a padded field is still all digits and still reads as the same number |
| Utils.Fields | utils.js:26-29 | hours below 24, minutes and seconds below 60, and days·86400 + hours·3600 + minutes·60 + seconds equals the input |
| Utils.FormatTimeRoundTrip | utils.js:25-32 | `formatTime` loses nothing: parsing "DD:HH:MM:SS" back gives the number of seconds, for every count, day counts of three or more digits included |
| Utils.FormatTimeInjective | utils.js:25-32 | two second counts that render the same are equal |
| Utils.FormatTimeLength | utils.js:25-32 | below 100 days the text is 11 characters with colons at positions 2, 5 and 8 |
| Utils.FormatTenDays | utils.js:25-32 | the starting count 864000 renders as "10:00:00:00" |
| Utils.FormatZero | utils.js:25-32 | zero renders as "00:00:00:00", the text `handleCountdownEnd` writes |
| Utils.Clamp | utils.js:37-39 | the result is never below `min`; with `min <= max` it lies in [min, max], is the value when inside and the nearer bound otherwise |
| Utils.RandomInt | utils.js:9-11 | for any draw in [0, 1) and `min <= max` the result lies in [min, max] |
| Utils.RandomFloat | utils.js:16-18 | for any draw in [0, 1) the result lies in [min, max) when `min < max`, and is `min` when they are equal |
| Utils.Without | utils.js:129 | the `filter(cb => cb !== callback)` result no longer holds the removed callback |
| Utils.WithoutCounts | utils.js:129 | the filter drops every copy of the callback and keeps every copy of every other one; the length drops by the number of copies |
| Utils.WithoutConcat | utils.js:129 | the filter keeps order: it distributes over concatenation |
| Utils.WithoutAbsent | utils.js:129 | a list without the callback is unchanged by the filter |
| Utils.WithoutMembers | utils.js:129 | the filtered list holds exactly the other callbacks, and stays free of repeats |
| Common.Round | world.js:1081 | `Math.round`: the integer within half a unit, halves rounded up |
| Common.DistSq | player.js:863 | squared `distanceTo`: never negative, zero from a point to itself |
| Common.TranslateBack | world.js:987 | `Box3.translate` keeps the box's size, and translating back restores both corners |
| Common.IntersectsSymmetric | world.js:993 | `intersectsBox` does not depend on the order of the two boxes |
| Effects.Rank | main.js:74-78 | every event has a nesting depth below 4: an `interact` handler emits at most events of depth 2, whose quest handlers emit at most `questCompleted` (depth 1), whose banner emits nothing |
| Effects.EmittedAppend | utils.js:135-141 | the events emitted by two runs of effects, in order, are those of the first followed by those of the second |
| Effects.NoticesAppend | utils.js:65-79 | the notifications shown by two runs of effects, in order, are those of the first followed by those of the second |
| EventBus.AddListener | utils.js:118-123 | `on(e, cb)`: the table gains the name `e`, the list for `e` is the old one with `cb` at its end, and every other list is unchanged |
| EventBus.RemoveListener | utils.js:125-133 | `off` on an unknown name changes nothing; with a callback it filters that callback out of the list; without one it deletes the list; other names are untouched |
| EventBus.DoubleRegistration | utils.js:118-123 | registering the same callback twice leaves two entries, so `emit` calls it twice |
| EventBus.OnThenOff | utils.js:118-133 | `on(e, cb)` then `off(e, cb)` leaves the list with every copy of `cb` removed and the other callbacks in place |
| EventBus.ApplyAllAppend | utils.js:118-133 | applying two runs of `on`/`off` calls is applying the first, then the second |
| EventBus.Bus.constructor | utils.js:116 | the bus starts with an empty listener table |
| EventBus.Bus.On | utils.js:118-123 | the new table is `AddListener` of the old one |
| EventBus.Bus.Off | utils.js:125-133 | the new table is `RemoveListener` of the old one |
| EventBus.Bus.Emit | utils.js:135-141 | the callbacks called are exactly those registered for the name, in registration order, none when the name has no list |
| EventBus.Bus.EmitWith | utils.js:135-141 | when the callbacks subscribe and unsubscribe while the emit runs, exactly the callbacks registered when it began are called, once each and in order, and the table ends as their `on`/`off` calls leave it |
| EventBus.Bus.ApplyOps | utils.js:118-133 | a callback's `on`/`off` calls, performed first to last, leave the table `ApplyAll` computes |
| Timers.FiresNextUnique | ui.js:41-54 | at most one pending timer is the next to fire (earliest due, and first set among equals) |
| Timers.Scheduler.constructor | main.js:48 | the queue starts empty at the given clock reading |
| Timers.Scheduler.SetTimeout | main.js:52-58 | `setTimeout(f, d)` queues `f` due `d` ms from now behind every pending timer, and leaves the clock |
| Timers.Scheduler.NextIndex | ui.js:41-54 | no index exactly when nothing is pending; otherwise the index of the timer that fires next |
| Timers.Scheduler.Fire | ui.js:41-54 | with timers pending, the one that fires next is removed and its task returned, the others keep their order and the clock moves to its due time if that is later; with none, nothing changes |
| Listeners.RegisterWorld | world.js:68-76 | `World.init` registers `ascension` then `transformationStage1` … `transformationStage5`, in that order |
| Listeners.RegisterNpcs | npcs.js:206-210 | `NPCs.init` registers its `interact` listener |
| Listeners.RegisterMiniGames | minigames.js:65-76 | `MiniGames.init` registers `interact`, then `questUpdated` |
| Listeners.RegisterUi | ui.js:142-155 | `UI.init` registers `questCompleted`, `newQuest`, then `ascension` |
| Listeners.RegisterQuests | quests.js:111-123 | `Quests.init` registers `npcDialogue`, `miniGameCompleted`, then `itemCollected` |
| Listeners.RegisterGame | main.js:64-78 | `setupEventListeners` registers `pauseGame`, `resumeGame`, then `interact` |
| Listeners.RegisterAll | main.js:15-41 | the `init` calls in `Game.init`'s order, on an empty bus, build exactly the table `Wiring` |
| Listeners.Registered | main.js:15-41 | the composed registrations of all six `init`s equal `Wiring` |
| Listeners.StageNames | world.js:72-76 | stage `i` is emitted under the name `transformationStage{i}` for i = 1..5 |
| Listeners.InteractListeners | main.js:74-78 | `interact` reaches the NPC listener, then the mini-game listener, then the collectible listener |
| Listeners.AscensionListeners | ui.js:152-155 | `ascension` reaches `World.startTransformation` first and then the UI's `World.transform` |
| Listeners.StageListeners | world.js:72-76 | each `transformationStage{i}` reaches only its own stage listener |
| Listeners.CompletedListeners | ui.js:142-146 | `questCompleted` reaches only the UI banner |
| Listeners.ObjectiveListeners | quests.js:111-123 | `npcDialogue`, `miniGameCompleted` and `itemCollected` each reach only their quest check |
| Listeners.PauseListeners | main.js:64-71 | `pauseGame` and `resumeGame` each reach only the game's own listener |
| Listeners.Unheard | ui.js:86-88 | no listener hears `questStarted`, `toggleMap` or the five countdown milestones |
| UI.EffectsPrefix | ui.js:86-109 | one more milestone entry adds exactly its own step's effects |
| UI.MilestoneEmits | ui.js:86-109 | the `forEach` emits exactly the entries whose time equals the countdown, in table order |
| UI.MilestoneMatch | ui.js:76-110 | each milestone fires on its own second and on no other, and no other second emits anything |
| UI.MatchingTable | ui.js:78-84 | the matching entries of the table, case by case over the five times |
| UI.StepEmits | ui.js:86-89 | one entry emits its own event on a match and nothing otherwise |
| UI.Colour | ui.js:64-70 | below one day the styles become #FF4500, below three days #FFA500, otherwise they stay as they were |
| UI.End | ui.js:115-135 | `handleCountdownEnd`: display "00:00:00:00", green styles, the count and the interval flag untouched, and `ascension` the only event emitted |
| UI.Begin | ui.js:36-55 | `startCountdown`: shows the formatted time at once, starts the interval and schedules its first tick a second later |
| UI.NextSecond | ui.js:41-54 | a tick counts down by one; while above zero it keeps the interval, refreshes display and colour, emits the milestone events of the new second and queues the next tick first; on reaching zero it clears the interval, shows zeros, emits only `ascension` and schedules nothing |
| UI.AheadTable | ui.js:78-84 | the milestones still ahead of a count, case by case over the five times |
| UI.NoneAhead | ui.js:78-84 | no milestone is ahead once the count is at or below every milestone time |
| UI.AheadSplit | ui.js:78-84 | in a table of decreasing times, the entries ahead of `t` are those at `t - 1` followed by those ahead of `t - 1` |
| UI.AheadStep | ui.js:41-54 | the milestones ahead of `t` are what the tick to `t - 1` emits followed by those ahead of `t - 1` |
| UI.RunEmits | ui.js:41-54 | a running countdown emits, over the rest of its life, every milestone still ahead, once each in table order, and then `ascension` exactly once |
| UI.StartShowsTenDays | ui.js:11 | the countdown starts by showing "10:00:00:00" |
| UI.WholeCountdown | ui.js:36-110 | from the start: nearMilestone, quarterComplete, halfwayPoint, finalDay, finalHour, then ascension, and nothing else |
| UI.AheadFromStart | ui.js:78-84 | all five milestones are ahead of the starting count, in table order |
| UI.CountdownPanel.constructor | ui.js:11 | the panel starts at 864000 seconds, nothing displayed and no interval |
| UI.CountdownPanel.StartCountdown | ui.js:36-55 | the panel's new state and effects are those of `Begin` |
| UI.CountdownPanel.UpdateCountdown | ui.js:60-71 | the panel's new state is the formatted time and the colour rule applied to the old one |
| UI.CountdownPanel.Tick | ui.js:41-54 | the panel's new state and effects are those of `NextSecond` |
| UI.CountdownPanel.CheckCountdownMilestones | ui.js:76-110 | the effects are the milestone table's `forEach` on the current count, nothing changed |
| UI.CountdownPanel.HandleCountdownEnd | ui.js:115-135 | the panel's new state and effects are those of `End` |
| Quests.Chain | quests.js:7-83 | every quest is stored under its own id, `intro` sends the player to the monument within 5, and the `nextQuest` links form the one chain intro → meetProphet → cryptoMining → exploreDistrict → collectResources → null, each link naming a quest of the table |
| Quests.Empty | quests.js:86-92 | before `init` the log has its table, no active or completed quest and no marker |
| Quests.MarkerAt | quests.js:180-196 | the marker stands at height 1; `monument` is at (0, 1, 0), `innovationCenter` at (20, 1, 20), and any other target at integer x and z in [-20, 20] |
| Quests.Start | quests.js:130-151 | an unknown id changes nothing and does nothing; a known one becomes active with progress 0 and not complete, completed is untouched, the "New Quest" notice for 8000 ms comes before `questStarted`, a location quest gets the marker and any other keeps the old one; the log stays well formed |
| Quests.NextStart | quests.js:331-336 | a quest with a next quest defers its start by 5000 ms; one without schedules nothing |
| Quests.Complete | quests.js:308-337 | an unknown or already complete quest changes nothing; otherwise it leaves `active`, is stored marked complete in `completed`, the marker goes exactly when there was one and it belonged to this quest, and the effects are the "Quest Completed" notice, `questCompleted`, then the deferred next quest; the log stays well formed |
| Quests.CompleteTwice | quests.js:310 | completing the same quest a second time changes nothing and emits nothing |
| Quests.Markers | quests.js:342-344 | `getQuestMarkers` returns the marker when there is one and an empty list otherwise, never more than one |
| Quests.Pass | quests.js:216-222 | the for-in loop over a key snapshot keeps the log well formed |
| Quests.PassPrefix | quests.js:216-222 | the loop over one more key visits that key after all those before it, effects concatenated |
| Quests.VisitWellFormed | quests.js:249-303 | one iteration of any objective loop keeps the log well formed |
| Quests.UpdateLog | quests.js:211-229 | the per-frame update keeps the log well formed |
| Quests.CompletionsOnlyAppend | quests.js:249-303 | two runs that emit only `questCompleted` together emit only `questCompleted` |
| Quests.VisitEmitsCompletions | quests.js:249-303 | one iteration emits nothing but `questCompleted` |
| Quests.PassEmitsCompletions | quests.js:249-303 | a whole objective loop emits nothing but `questCompleted` |
| Quests.UpdateEmitsCompletions | quests.js:211-244 | the per-frame location pass emits nothing but `questCompleted` |
| Quests.VisitFrame | quests.js:249-303 | one iteration leaves every other quest's active and completed entries as they were |
| Quests.PassFrame | quests.js:216-222 | a quest outside the loop's key snapshot keeps its entries |
| Quests.PassUntargeted | quests.js:253-255 | a quest the trigger does not target is left exactly as it was: a dialogue never completes a mini-game quest, another item type never counts |
| Quests.PassCompletes | quests.js:249-274 | a dialogue with the target NPC, or a finished mini-game of the target type, moves the quest from active to completed, marked complete |
| Quests.PassCollects | quests.js:279-303 | a collected item of the target type adds exactly one to progress; below the count the quest stays active with that progress, at the count it is completed with it |
| Quests.NoMarkerNoProgress | quests.js:235 | with no marker the location pass changes nothing and does nothing |
| Quests.PassReachesMarker | quests.js:234-244 | a location quest that owns the marker completes, and the marker goes, on any frame with the player within its distance |
| Quests.VisitReachesMarker | quests.js:234-244 | the visit of the marker's own quest within distance completes it and removes the marker |
| Quests.VisitKeepsNoMarker | quests.js:235 | once the marker is gone, no location visit brings one back |
| Quests.PassKeepsMarker | quests.js:320-323 | the marker of one quest survives a location pass over other quests |
| Quests.IntroByTheMonument | quests.js:104 | after `init` starts `intro`, a frame with the player at the origin completes it, emits only its `questCompleted`, removes the marker and defers `meetProphet` by 5000 ms |
| Quests.IntroStarted | quests.js:130-151 | starting `intro` on a fresh log activates it alone with the marker on the monument and announces it |
| Quests.IntroFrame | quests.js:211-244 | a frame at the origin with `intro` active completes it, emits only its `questCompleted` and ends with the deferred `meetProphet` |
| Quests.CollectMany | quests.js:279-303 | any number of `itemCollected` events keeps the log well formed |
| Quests.CollectManyProgress | quests.js:288-299 | below the count, n matching items add n to progress and the quest stays active |
| Quests.CollectManyCompletes | quests.js:288-293 | the item that brings progress to the count completes the quest, stored with progress at the count |
| Quests.FiveFragments | quests.js:67-82 | `collectResources` is still active with progress 4 after four digital fragments and is completed by the fifth |
| Quests.QuestLog.constructor | quests.js:7-92 | the log starts with the game's table, no quests and no marker |
| Quests.QuestLog.StartQuest | quests.js:130-151 | the new log and the effects are those of `Start` |
| Quests.QuestLog.CreateQuestMarker | quests.js:156-206 | the new marker, at `MarkerAt` and tagged with the quest, replaces the old one; nothing else changes |
| Quests.QuestLog.CompleteQuest | quests.js:308-337 | the new log and the effects are those of `Complete` |
| Quests.QuestLog.GetQuestMarkers | quests.js:342-344 | the result is `Markers` of the log |
| Quests.QuestLog.CheckLocationObjective | quests.js:234-244 | the new log and the effects are those of `CheckLocation` |
| Quests.QuestLog.VisitKey | quests.js:250-258 | the new log and the effects are those of one loop iteration, `Visit` |
| Quests.QuestLog.Sweep | quests.js:216-222 | the loop visits the keys present when it starts, in insertion order, skipping deleted ones: the result is `Pass` over that snapshot |
| Quests.QuestLog.CheckDialogueObjectives | quests.js:249-259 | the result is `Pass` over the active keys with the dialogue trigger |
| Quests.QuestLog.CheckMiniGameObjectives | quests.js:264-274 | the result is `Pass` over the active keys with the mini-game trigger |
| Quests.QuestLog.CheckItemObjectives | quests.js:279-303 | the result is `Pass` over the active keys with the item trigger |
| Quests.QuestLog.Update | quests.js:211-229 | the result is `UpdateLog`: nothing with no active quest, else the location pass and then the marker's bobbing |
| World.StageNotice | world.js:1071-1085 | a notification is shown exactly when 0.2 <= stage < 1.2, always for 5000 ms and with one of the five messages |
| World.StageMessage | world.js:1078-1084 | stage k/5 is announced as "Transformation Stage k" with the k-th message, for k = 1..5 |
| World.StageValue | world.js:72-76 | the threshold the `transformationStage{i}` listener passes lies in [0.2, 1.0] for i = 1..5 |
| World.StartTransformation | world.js:1014-1021 | five deferred emits, `transformationStage1` … `transformationStage5` in that order, after 2000 + 3000·i ms, at strictly increasing delays |
| World.Lit | world.js:1026-1068 | the state becomes the stage; bloom and crystal change only where they exist; for a stage in [0, 1] the ambient light lies in [0.3, 1.0], bloom in [1.2, 2.0], the crystal's emissive intensity in [0.4, 1.9] and its scale is 1 + stage on every axis |
| World.LitLastWins | world.js:1026-1068 | the scene depends only on the last stage applied, not on the ones before it |
| World.OpeningIsStageZero | world.js:1026-1068 | stage 0 reproduces the values `init` sets (ambient 0.3, bloom 1.2, crystal 0.4 at scale 1) |
| World.StageEffects | world.js:1078-1085 | `updateTransformation` emits no event and shows one notification exactly when 0.2 <= stage < 1.2 |
| World.Registered | world.js:216-220 | a builder's collider gets the box of its geometry translated by its position |
| World.Refresh | world.js:949-955 | a collider with a box gets its current box back; one without stays as it is; geometry and position are untouched |
| World.RefreshAll | world.js:925-956 | every collider is refreshed, none added or dropped |
| World.RefreshRegistered | world.js:949-955 | refreshing the boxes of registered, unmoved colliders changes nothing |
| World.RefreshIdempotent | world.js:949-955 | a second refresh in the same frame changes nothing |
| World.NewWalker | world.js:862-891 | a new NPC stands at (x, 1, z) with speed 0.02, the drawn direction, and the box of its cylinder geometry |
| World.Spawned | world.js:846-857 | each of the tries makes at most one NPC; every NPC made lies at least 20 from the centre, within [-100, 100) on both axes, at height 1 with speed 0.02 |
| World.Step | world.js:978-1009 | corrected tick: when the moved box would hit an obstacle the NPC stays where it was and takes the new direction; otherwise it moves by direction·speed and keeps its direction; speed and box are kept |
| World.StepKeepsClear | world.js:1001 | corrected tick: an NPC that starts clear of every obstacle is still clear after its tick |
| World.StepAsWritten | world.js:983-1001 | the tick as written: unblocked it is the corrected tick; blocked, the position is the moved one minus direction·speed², because `multiplyScalar` scaled `dir` in place |
| World.RevertCounterexample | world.js:1001 | an NPC made by `createNPC(0, 0)` heading along +x, next to a registered wall: it starts clear, the written revert leaves it at x = 0.0196 inside the wall, and the corrected tick leaves it clear |
| World.AsWrittenBlocked | world.js:983-1001 | the written revert, component by component: p + s·d − s·(s·d) |
| World.ProbeClear | world.js:986-997 | the probe NPC's box does not touch the wall |
| World.ProbeBlocked | world.js:983-997 | the probe NPC's moved box touches the wall |
| World.AsWrittenPosition | world.js:1001 | the written revert leaves the probe at (0.0196, 1, 0) |
| World.EndsInside | world.js:986-997 | at (0.0196, 1, 0) the NPC's box overlaps the wall |
| World.OneCollider | world.js:991-997 | with one collider, the scan is blocked exactly when that collider is hit |
| World.StepAll | world.js:979-1008 | every NPC takes its own tick and none is added or dropped |
| World.StepAllKeepsClear | world.js:978-1009 | NPCs that all start clear of the obstacles all stay clear after the corrected tick |
| World.World.constructor | world.js:19-29 | the world starts with the opening scene and no colliders, NPCs or interactive objects |
| World.World.RegisterCollider | world.js:216-220 | the collider list gains the registered collider at its end; nothing else changes |
| World.World.AddInteractive | world.js:20 | the interactive list gains the object at its end; nothing else changes |
| World.World.CreateNPC | world.js:862-891 | the NPC list gains the new NPC at its end; the colliders stay as they are, so NPCs never block each other |
| World.World.CreateNPCs | world.js:846-857 | the NPC list gains exactly `Spawned` of the five tries |
| World.World.UpdateTransformation | world.js:1026-1086 | the scene becomes `Lit` of the stage and the effects are its notification; nothing else changes |
| World.World.Transform | world.js:1091-1093 | the final stage at once: the scene becomes `Lit` at 1.0 with its notification |
| World.World.FirstHit | world.js:991-997 | no result exactly when no collider with a box overlaps; otherwise the first collider that does |
| World.World.UpdateNPCs | world.js:978-1009 | every NPC takes the corrected tick against the colliders; nothing else changes |
| World.World.RefreshColliders | world.js:949-955 | every collider is refreshed; nothing else changes |
| World.World.Update | world.js:909-960 | the colliders are refreshed and then every NPC takes its corrected tick; scene values and interactive objects are untouched |
| Player.Set | player.js:52-62 | setting one control's flag changes that flag and no other, and never the pause flag |
| Player.Bound | player.js:670-705 | the key each flag answers to: 'w' drives `backward` and 's' drives `forward`, then 'a', 'd', space, 'e', 'm' and 'shift', each if and only if |
| Player.Pressed | player.js:670-705 | `handleKeyDown`: an unbound key leaves the flags; 'm' toggles the map flag; any other bound key sets its own flag and changes no other |
| Player.Lifted | player.js:711-735 | `handleKeyUp`: an unbound key and 'm' leave the flags; any other bound key clears its own flag and changes no other |
| Player.PressThenLift | player.js:670-735 | pressing and releasing a key other than 'm' leaves the flags as releasing it alone would |
| Player.MapPressLift | player.js:698-701 | pressing and releasing 'm' toggles the map flag once, since `keyup` ignores it |
| Player.MapTwice | player.js:698-701 | pressing 'm' twice gives the flags back |
| Player.Lower | player.js:539 | `toLowerCase` on ASCII: same length, capitals become lower case, every other character is kept |
| Player.Capped | player.js:742 | `Math.min(deltaTime, 3)`: never above 3, and the delta itself when it is at most 3 |
| Player.Jumped | player.js:832-837 | `jump` acts only on the ground: upward velocity `jumpForce`, jumping flag set, position kept; in the air it changes nothing |
| Player.Turned | player.js:744-763 | A and D turn the player: with both pressed the rotation is unchanged, with neither nothing changes, outside free look the horizontal camera angle follows the rotation and in free look it stays |
| Player.Heading | player.js:766-770 | the forward/backward direction is zero exactly when neither flag is set ('w's `backward` wins over 's') |
| Player.Accelerated | player.js:776-798 | acceleration and friction touch only the horizontal velocity |
| Player.Fallen | player.js:800-810 | on the ground nothing changes; while jumping at or below 0 the player lands at height 0 with no vertical velocity; above 0 it keeps jumping and gravity reduces the vertical velocity; the horizontal parts are untouched |
| Player.Advanced | player.js:812-820 | the position moves by velocity times delta and x and z are clamped into [-1000, 1000] |
| Player.Moved | player.js:740-820 | after an update the player is always within the world bounds on x and z |
| Player.LongFrame | player.js:742 | a frame longer than three reference frames moves the player exactly as one of three |
| Player.GroundJumpCancelled | player.js:801-815 | a jump from the ground is undone by the next update: the landing check sees height 0 before the upward velocity is applied, so the player stays at 0, not jumping |
| Player.Airborne | player.js:801-803 | in the air the player keeps jumping and the vertical velocity drops by gravity times delta |
| Player.LastInReach | player.js:852-874 | no object exactly when none is within reach; otherwise an object within reach with no later object in reach, so the last one in list order |
| Player.Hints | player.js:862-873 | one "Interaction Available" hint per object within reach at most, none while interacting, and no event |
| Player.Player.constructor | player.js:17-69 | the player starts at the origin, still, facing rotation 0 with level camera, no key pressed, no free look, no lock and nothing to interact with |
| Player.Player.StartFreeLook | player.js:602-607 | free look on, both camera angles saved, nothing else changed |
| Player.Player.EndFreeLook | player.js:612-617 | free look off and the player turns to the horizontal camera angle; nothing else changed |
| Player.Player.SetMouseLocked | player.js:574-576 | the lock flag takes the new value; nothing else changed |
| Player.Player.MouseMove | player.js:547-551 | unlocked nothing moves; locked, the horizontal angle drops by 0.002 per unit, the vertical one by 0.0005 clamped to ±π/4 (which it stays within), and outside free look the player turns with the camera |
| Player.Player.MouseDown | player.js:561-565 | the left button with the pointer locked starts free look; anything else leaves it |
| Player.Player.MouseUp | player.js:567-571 | releasing the left button in free look ends it; anything else changes nothing |
| Player.Player.JumpUp | player.js:832-837 | the motion becomes `Jumped` of the old one; nothing else changes |
| Player.Player.Interact | player.js:842-847 | with a current object, `interact` is emitted with it and the player is interacting; without one nothing happens |
| Player.Player.HandleKeyDown | player.js:670-706 | the flags become `Pressed`; a movement key ends free look; space jumps; 'e' emits `interact` when there is an object and nothing otherwise; 'm' emits `toggleMap` with the new map flag; other keys emit nothing and leave the motion |
| Player.Player.HandleKeyUp | player.js:711-735 | the flags become `Lifted`; nothing else changes |
| Player.Player.KeyDown | player.js:538-596 | both `keydown` listeners in order: for any key but Escape the flags become `Pressed` of the lower-cased name, 'e' next to an object emits `interact`, 'm' emits `toggleMap`, other keys emit nothing; Escape toggles the pause flag and emits `pauseGame` or `resumeGame` |
| Player.Player.KeyUp | player.js:542-544 | the flags become `Lifted` of the lower-cased name; nothing else changes |
| Player.Player.CheckInteractions | player.js:852-874 | an empty list changes nothing; otherwise the current object becomes the last one within reach (or none) and the hints are shown |
| Player.Player.Update | player.js:740-827 | the motion becomes `Moved`, the player stays within the bounds, and the interaction check runs at the new position |
| Player.Player.Turn | player.js:744-763 | the motion becomes `Turned` of the old one |
| Player.Player.Fall | player.js:800-810 | the motion becomes `Fallen` of the old one |
| Player.Player.Advance | player.js:812-820 | the motion becomes `Advanced` of the old one |
| Player.Player.Reset | player.js:903-913 | back at the origin, still, rotation and camera angles 0, not jumping; keys and interaction kept |
| MiniGames.EveryGameHasAnItem | minigames.js:10-47 | the table holds exactly `cryptoMining`, `marketTrading` and `blockchainPuzzle`, and every game has a first reward item for `completeGame` to show |
| MiniGames.TargetAlternates | minigames.js:301-311 | the target pattern has five entries, starts purple and alternates: purple exactly at the even indices |
| MiniGames.Filled | minigames.js:344 | `playerPattern.filter(Boolean).length` never exceeds the number of slots |
| MiniGames.Matches | minigames.js:346-352 | the number of slots matching the target never exceeds the number of filled slots |
| MiniGames.Score | minigames.js:354 | `Math.round((matches / 5) * 100)` is exactly 20 per matching block |
| MiniGames.Clicked | minigames.js:333-372 | a click paints block and slot with the toggled colour; the verdict is pending exactly while fewer than five slots are filled, passes exactly when all five are filled and at least four match (score 20·matches, at least 80), and a failure clears blocks and slots and shows the match count; the board stays consistent |
| MiniGames.FilledUpdate | minigames.js:337-344 | filling a slot raises the filled count by one when it was a hole and keeps it otherwise |
| MiniGames.FilledAfterClick | minigames.js:333-344 | while fewer than four slots are filled a click adds at most one and reaches no verdict |
| MiniGames.Run | minigames.js:333-372 | a run of clicks yields one verdict per click and keeps the board consistent |
| MiniGames.NeedsFiveClicks | minigames.js:344-365 | no run of clicks too short to fill all five slots reaches a verdict, so after a failure a new attempt needs five fresh entries |
| MiniGames.FailureResets | minigames.js:359-365 | a failed check leaves no filled slot and every block blank |
| MiniGames.FilledOfHoles | minigames.js:364 | a pattern of holes counts zero filled slots |
| MiniGames.ClicksAlternate | minigames.js:335-341 | clicking a blank block k times shows purple for odd k and green for even k |
| MiniGames.RepaintedSplit | minigames.js:335-341 | j clicks followed by k clicks paint the block as j + k clicks do |
| MiniGames.Initial | minigames.js:182 | `initialize` puts a fresh mining board in the content exactly for `cryptoMining`, the game's description otherwise |
| MiniGames.Started | minigames.js:163-192 | an unknown game type changes nothing and emits nothing; a known one emits `pauseGame`, becomes the active game, titles and fills the overlay and shows it; the overlay invariant is kept |
| MiniGames.Closing | minigames.js:197-213 | `closeGame` does nothing exactly when no game is active, and otherwise defers the close 300 ms |
| MiniGames.Closed | minigames.js:203-211 | the deferred close hides the overlay, clears the active game, keeps the content and emits `resumeGame` |
| MiniGames.Completed | minigames.js:218-272 | no active game: nothing; otherwise the content shows the score, the experience and the first reward item, `miniGameCompleted(activeGame, score)` is emitted, and the game stays active |
| MiniGames.Clicking | minigames.js:333-358 | a click counts only on a displayed mining board; a passing pattern completes the game with its score, any other verdict only updates the board |
| MiniGames.Interacted | minigames.js:65-69 | only an object flagged `isMiniGame` starts a game, and then the game it carries |
| MiniGames.MiniGameObject | minigames.js:484-510 | the object is flagged as a mini-game site of its type, keeps its position and is named after the game |
| MiniGames.SiteStartsItsGame | minigames.js:65-69 | interacting with the object built for a game emits `pauseGame` and opens exactly that game |
| MiniGames.Lifecycle | minigames.js:163-272 | start, complete and close emit `pauseGame`, `miniGameCompleted(type, score)` and, after the 300 ms animation, `resumeGame`; the game is active from start until the animation ends |
| MiniGames.MiniGames.constructor | minigames.js:60-63 | the overlay starts hidden, with no active game, an empty title and empty content |
| MiniGames.MiniGames.StartGame | minigames.js:163-192 | the new overlay and the emitted events are those of `Started` |
| MiniGames.MiniGames.CloseGame | minigames.js:197-213 | the effects are those of `Closing` and nothing changes |
| MiniGames.MiniGames.FinishClose | minigames.js:203-211 | the new overlay and the emitted events are those of `Closed` |
| MiniGames.MiniGames.CompleteGame | minigames.js:218-272 | the new overlay and the emitted events are those of `Completed` |
| MiniGames.MiniGames.CountMatches | minigames.js:346-352 | the loop counts exactly the slots that match the target |
| MiniGames.MiniGames.Click | minigames.js:333-372 | the new overlay and the emitted events are those of `Clicking` |
| MiniGames.MiniGames.OnInteract | minigames.js:65-69 | the new overlay and the emitted events are those of `Interacted` |
| NPCs.TypeTable | npcs.js:14-180 | the declaration order lists every type of the table exactly once, and every type moves at a positive speed |
| NPCs.ScriptTable | npcs.js:14-180 | the dialogue table has an entry exactly for each type, with 16 lines each |
| NPCs.Contains | npcs.js:1120-1124 | `includes`: a part longer than the text never occurs, the empty part always does |
| NPCs.ContainsFrom | npcs.js:1120-1124 | a part found at index i or later is reported, and a part that no longer fits is not |
| NPCs.BadgeRange | npcs.js:1115-1126 | the badge draw range is [300, 800] when the SOL value contains "749", else [30, 100] when it contains "46", else [1, 30] |
| NPCs.BadgeRanges | npcs.js:1115-1126 | the citizen's badge lies in [300, 800], the merchant's in [30, 100], and those of prophet, skeptic and hacker in [1, 30] |
| NPCs.NoHighMark | npcs.js:1120 | the merchant's SOL value does not contain "749" |
| NPCs.NoMark | npcs.js:1120-1122 | the SOL values of prophet, skeptic and hacker contain neither "749" nor "46" |
| NPCs.Absent | npcs.js:1120-1122 | a part that equals no window of the text does not occur in it |
| NPCs.AbsentFrom | npcs.js:1120-1122 | the same from any index on |
| NPCs.OverlayKey | npcs.js:1247-1262 | the overlay switch has a texture key exactly for citizen, merchant, prophet and skeptic |
| NPCs.Capitalized | npcs.js:436 | the name has the same length as the type, only its first letter upper-cased |
| NPCs.NewNpc | npcs.js:381-451 | a new character: its identity, type, capitalised name, its type's speed and lines, standing on (x, z) with its target there too, timer 0, wander radius 50, a badge in its type's range, and an overlay exactly when the coin shows at most 0.5 and its type has a key |
| NPCs.Created | npcs.js:381-451 | an unknown type adds nothing and returns null; a known one appends exactly the new character and returns it |
| NPCs.Spot | npcs.js:363-375 | the first four types stand on the four fixed corners; later ones on two `randomInt(-10, 10)` draws |
| NPCs.Initial | npcs.js:358-376 | the roster of the first k types: one character per type in table order, type i on spot i with identity firstUid + i |
| NPCs.InitialNext | npcs.js:372-375 | one more loop pass appends exactly the next type's character |
| NPCs.InitialRoster | npcs.js:358-376 | the opening roster is five characters, the five types in order, the first four on (5, 5), (-5, 5), (5, -5), (-5, -5), the hacker on an integer point within 10 of the origin |
| NPCs.InitialWellTyped | npcs.js:358-376 | every opening character has a table type with 16 lines, and no identity appears twice |
| NPCs.InitialScripted | npcs.js:358-376 | every opening character speaks its own type's lines |
| NPCs.Spread | npcs.js:1769-1779 | `(r - 0.5)·radius·span` for a draw r in [0, 1) lies within radius·span/2 of zero |
| NPCs.Around | npcs.js:1769-1779 | a new target coordinate lies within radius·span/2 of the current one |
| NPCs.Retargeted | npcs.js:1753-1782 | the timer counts down; when it reaches zero or below, a long journey (draw below 0.3) picks a target within the wander radius and waits 10 to 20 s, a short one a target within a fifth of it and waits 3 to 8 s; position, speed, identity, type and lines never change |
| NPCs.Walked | npcs.js:1784-1792 | farther than 0.1 from the target, the remaining offset shrinks by the factor 1 - moveSpeed·deltaTime·0.5 / distance along the straight line; within 0.1 the character stands still |
| NPCs.StepAlong | npcs.js:1790-1791 | moving a unit step toward the target scales the remaining offset |
| NPCs.WalkShortens | npcs.js:1784-1792 | a step no longer than the distance leaves exactly distance - step to go: no overshoot and no sideways drift |
| NPCs.SquareScale | npcs.js:1786 | scaling an offset scales its square by the square of the factor |
| NPCs.WanderKeepsTypes | npcs.js:1685-1816 | wandering keeps every character's identity, type and lines, so the roster stays well typed |
| NPCs.WanderKeepsScripts | npcs.js:1685-1816 | wandering keeps every character speaking its own type's lines |
| NPCs.LineIndex | npcs.js:1824 | the drawn line index is within the character's lines |
| NPCs.Dialogue | npcs.js:1822-1831 | talking emits exactly one `npcDialogue` with the character's type and one of its own lines |
| NPCs.AsEntity | npcs.js:1874-1876 | a character as the interaction code sees it: same identity and name, at (x, 0, z), flagged as an NPC of its type |
| NPCs.Find | npcs.js:206-210 | the index of the first character with the given identity, or none at all when no character has it |
| NPCs.Interacted | npcs.js:206-210 | an object not flagged `isNPC` is ignored; an NPC emits the dialogue of the character it is |
| NPCs.TalkToCharacter | npcs.js:206-210 | talking to any character of a well-typed roster emits exactly one of its own lines, under its type |
| NPCs.NPCs.constructor | npcs.js:11-14 | the roster starts empty, with the types' dialogue table |
| NPCs.NPCs.Entities | npcs.js:1874-1876 | `getNPCs`: one entity per character, in order |
| NPCs.NPCs.CreateNPC | npcs.js:381-451 | the new roster and the returned character are those of `Created` |
| NPCs.NPCs.CreateInitialNPCs | npcs.js:358-376 | the loop appends exactly the opening roster |
| NPCs.NPCs.Update | npcs.js:1685-1816 | every character becomes its retargeted-then-walked self, the roster keeps its length, and no other character is touched |
| NPCs.NPCs.Retarget | npcs.js:1753-1782 | the timer and retarget step is `Retargeted` |
| NPCs.NPCs.Walk | npcs.js:1784-1792 | the move step is `Walked` |
| NPCs.NPCs.OnInteract | npcs.js:206-210 | the emitted events are those of `Interacted` |
| Assets.Done | assets.js:219-226 | the count of completed requests never exceeds the requests, and equals them exactly when every request has completed |
| Assets.DoneUpdate | assets.js:219-226 | completing a pending request raises the completed count by one |
| Assets.DoneAppend | assets.js:212 | a new pending request leaves the completed count unchanged |
| Assets.Percent | assets.js:194-206 | the forced percent when one is given; otherwise 100 while nothing was requested, otherwise the loaded share of 100 rounded down |
| Assets.PercentRange | assets.js:202 | with no more loaded than requested, the computed percent lies in [0, 100] and is 100 exactly when everything has loaded |
| Assets.PositiveFactor | assets.js:202 | a product with a positive factor has the sign of the other factor |
| Assets.Started | assets.js:24-41 | `init` stores the four procedural textures, reports the current percent once and starts the simulated progress at 0, counters untouched |
| Assets.Ticked | assets.js:42-50 | a firing raises the progress by 5 and reports it; the interval stops and the promise resolves once 100 is reached; a stopped interval does nothing; textures and counters untouched |
| Assets.Ramp | assets.js:42-44 | the percents reported by k firings from progress 5·j are 5·(j+1) up to 5·(j+k) |
| Assets.TicksFrom | assets.js:42-50 | k firings from 5·j report exactly that ramp, and resolve exactly when they reach 100 |
| Assets.SimulatedProgress | assets.js:24-51 | after `init` the bar shows 5, 10, ..., 100 at the twenty firings, and the promise resolves on the twentieth and not before |
| Assets.Requested | assets.js:211-214 | `loadTexture` requests one more asset: the total grows by one, nothing else loads, and the counters keep counting the requests |
| Assets.Settled | assets.js:215-230 | a callback counts its asset loaded once, stores the texture under its name on success and nothing on error, reports the new percent, and keeps the counters counting the requests |
| Assets.SettledReportInRange | assets.js:219-227 | every percent a callback reports lies in [0, 100], and is 100 exactly when every request has completed |
| Assets.Assets.constructor | assets.js:13-19 | no asset requested or loaded, no texture, nothing reported |
| Assets.Assets.UpdateLoadingProgress | assets.js:194-206 | reports exactly `Percent` of the current counters |
| Assets.Assets.Init | assets.js:24-41 | the new state is that of `Started` |
| Assets.Assets.Tick | assets.js:42-50 | the new state is that of `Ticked` |
| Assets.Assets.LoadTexture | assets.js:211-214 | the new state is that of `Requested`, and the returned index names the new request |
| Assets.Assets.Settle | assets.js:215-230 | the new state is that of `Settled`, and the promise resolves with the texture, or null on error |
| Game.IndexOf | main.js:153 | `indexOf`: no position exactly when the object is absent, otherwise the first position holding it |
| Game.WithoutFirst | main.js:152-156 | `splice(index, 1)` after `indexOf`: nothing changes without an occurrence; otherwise one fewer object, exactly one copy of it gone |
| Game.WithoutFirstKeepsOrder | main.js:152-156 | the objects before the removed one keep their positions, those after it move up by one |
| Game.Objectives | quests.js:111-123 | an objective listener changes only the quest log, as its objective loop does, and emits nothing but quest completions |
| Game.Handle | utils.js:135-141 | every listener keeps the roster well typed and the overlay consistent, leaves colliders, walkers, roster, countdown, run flag and clock alone, and emits only events of lower rank than the one it handles, so dispatch ends |
| Game.Perform | utils.js:135-141 | running a listener's effects in order keeps the listeners' invariant and the untouched parts of the state |
| Game.Deliver | utils.js:135-141 | `emit` calls the listeners registered for the event's name, in order, and keeps the same invariant |
| Game.Call | utils.js:137-139 | the listeners one after the other, each with everything it emits before the next, keeping the same invariant |
| Game.Ran | main.js:52-58 | a deferred callback (a stage emit, a quest start, the overlay's close, a countdown tick that fires only while its interval is set, or a delayed notice) keeps the invariant and the roster |
| Game.QuietPerform | quests.js:308-337 | the effects of a quest pass change only the notices shown and the timer queue; the `questCompleted` they emit reaches only the UI banner |
| Game.Banner | ui.js:142-146 | delivering `questCompleted` shows exactly the "Quest Completed" banner and changes nothing else |
| Game.CompletionShownTwice | quests.js:325-333 | completing a quest shows its notice twice: once from `completeQuest` and once from the UI listener |
| Game.PauseResume | main.js:64-71 | `pauseGame` only sets the pause flag; `resumeGame` only clears it and moves the frame clock to the current time |
| Game.StageTimers | world.js:1014-1021 | `startTransformation` queues five stage emits, stage i + 1 at now + 2000 + 3000·i ms |
| Game.StagesQueued | world.js:1014-1021 | running the effects of `startTransformation` appends exactly those five timers and changes nothing else |
| Game.FinalStageCall | ui.js:152-155 | the UI's `ascension` listener sets the world to stage 1.0 and shows its notice |
| Game.AscensionDelivered | ui.js:152-155 | delivering `ascension` queues the five stage timers (the world's listener runs first), then sets stage 1.0 and shows the final notice |
| Game.StageDelivered | world.js:72-76 | delivering `transformationStage{i}` sets the world to stage i·0.2 and shows that stage's notice, nothing more |
| Game.TransformationSequence | world.js:68-76 | the stages seen are 1.0, 0.2, 0.4, 0.6, 0.8, 1.0: the world first drops back from the final look and then climbs to it again |
| Game.SkipListener | utils.js:137-139 | a listener that does nothing for an event can be skipped |
| Game.LastListener | utils.js:137-139 | the last listener's call is its own work and then its effects |
| Game.DeliverCalls | utils.js:135-141 | delivery calls exactly the listeners the wiring holds for the event's name |
| Game.FirstListener | utils.js:137-139 | the first listener and all it emits run before the rest of the listeners |
| Game.NpcTalkHandled | npcs.js:206-210 | the NPC listener's work for `interact` is the NPC interaction |
| Game.MiniGameHandled | minigames.js:65-69 | the mini-game listener's work for `interact` is the overlay's interaction |
| Game.CollectibleIgnored | main.js:74-78 | the collectible listener ignores any object that is not a collectible |
| Game.CollectibleHandled | main.js:74-78 | for a collectible it removes the first occurrence from the interactive objects and leaves the pick-up notice and then `itemCollected` to run |
| Game.NotifyFirst | utils.js:65-79 | a first notice is shown before the effects after it run |
| Game.EmitOnly | utils.js:135-141 | a single emit is exactly the event's delivery |
| Game.ObjectiveDelivered | quests.js:111-123 | `npcDialogue`, `miniGameCompleted` and `itemCollected` change the quest log exactly as its objective loop does, add notices, may queue the next quest, and change nothing else |
| Game.NotifyThenEmit | main.js:159-162 | a notice and then an emit: the event is delivered with the notice already shown |
| Game.CollectibleCall | main.js:148-163 | the collectible listener's whole call: the object leaves the list, the notice is shown, then `itemCollected` is delivered |
| Game.CollectDelivered | main.js:148-163 | picking up a collectible removes its first occurrence, the pick-up notice is the next shown, the item counts for the quest objectives, and overlay, pause flag and scene are untouched |
| Game.TalkCall | npcs.js:1822-1831 | talking to the k-th character emits exactly one `npcDialogue` with its type, and that is delivered |
| Game.TalkDelivered | npcs.js:206-210 | talking to a character counts its type for the dialogue objectives; apart from notices and timers nothing else changes, and the other `interact` listeners ignore it |
| Game.SiteDelivered | minigames.js:65-69 | interacting with a mini-game object opens exactly that game and, through `pauseGame`, pauses the game; nothing else changes |
| Game.QueuedTimers | world.js:1014-1021 | running schedule-only effects appends their timers in order |
| Game.PerformHead | utils.js:135-141 | one effect at a time: a notice is shown, a callback queued with its due time, an event delivered before the next effect |
| Game.Silent | player.js:852-874 | effects that emit nothing contain no event but quest completions |
| Game.HintsShown | player.js:852-874 | the hints of the player's update only add notices and timers |
| Game.MarkerEntity | quests.js:342-344 | the quest marker handed to the player sits at the marker's position and is tagged with its quest |
| Game.MarkerEntities | quests.js:342-344 | one entity per marker, in order |
| Game.FrameDelta | main.js:102-106 | the frame delta is the elapsed time over 16.667, capped at 3 |
| Game.Due | main.js:52-58 | firing timer k takes it off the queue and moves the clock to its due time, never backwards |
| Game.BeforeInit | main.js:5-12 | the constructed state is one the listeners can act on |
| Game.Counting | ui.js:36-55 | starting the countdown and its interval keeps the listeners' invariant |
| Game.Questing | quests.js:130-151 | starting a quest and running what it emits keeps the invariant and the roster |
| Game.Launched | main.js:43-58 | the end of `init`: the game runs, the frame clock starts now, the welcome notice is queued 1.5 s ahead, and nothing else changes |
| Game.Started | main.js:35-58 | `UI.init`, `Quests.init` and the launch leave the game running with the listeners' invariant and the roster kept |
| Game.Booted | main.js:28-58 | `init` from `NPCs.init` on leaves a running game whose roster is exactly the opening roster |
| Game.BootedSteps | main.js:28-58 | the boot is the opening roster followed by the start |
| Game.ScheduleOnly | utils.js:135-141 | a single schedule only appends its timer |
| Game.UnheardDelivered | quests.js:145-150 | an event nobody listens to (`questStarted`, `toggleMap`, the early milestones) changes nothing |
| Game.IntroStarted | quests.js:97-105 | starting `intro` updates the log and shows its notice; the `questStarted` it emits reaches nobody |
| Game.Boot | main.js:15-58 | after `init` the game runs unpaused with the frame clock at the start time, `intro` is the one active quest, the countdown runs from ten days, exactly the first countdown tick and then the welcome notice are queued, the `intro` notice is the only one shown, and the roster is untouched |
| Game.BootWith | main.js:15-58 | the same from any ready state with a fresh countdown and no timers, quest or notice |
| Game.Assembled | main.js:35-58 | the three steps of `init`, each changing only its own fields, compose to that end state |
| Game.LaunchedTimers | main.js:52-58 | the welcome notice is queued after the one timer already pending |
| Game.CountingFirst | ui.js:36-55 | with no timer pending, starting the countdown queues only the interval's first tick |
| Game.Game.constructor | main.js:5-41 | every subsystem is built and every listener is registered in the order `init` registers them; the state is the constructed one and loading is on |
| Game.Game.Init | main.js:28-58 | the new state is `Booted` of the old one, loading is off, and the invariant holds |
| Game.Game.Populate | npcs.js:195-204 | `NPCs.init` adds exactly the opening roster, and nothing else changes |
| Game.Game.Launch | main.js:43-58 | loading ends and the state becomes `Launched` |
| Game.Game.Colliders | main.js:139-145 | `getColliders`: the interactive objects first, in order, then the characters, then the active quest marker |
| Game.Game.Update | main.js:116-131 | a frame update: the player moves as its update does and meets the last object in reach among the colliders from the frame's start; every character wanders; colliders refresh; walkers step; the quest log updates at the player's new position; nothing else changes |
| Game.Game.PlayerStep | main.js:118 | `Player.update` with the colliders: only the player, the notices and the timers change |
| Game.Game.QuestStep | main.js:130 | `Quests.update` at the player's position: only the quest log, notices and timers change |
| Game.Game.GameLoop | main.js:94-113 | paused or stopped, nothing changes; otherwise the frame clock moves to the current time and the update runs with the capped delta |
| Game.Game.Blur | main.js:81-83 | `blur` only pauses |
| Game.Game.Focus | main.js:85-90 | `focus` resumes a paused game, restarting the frame clock, and otherwise changes nothing |
| Game.Game.Reset | main.js:166-176 | the player is back at the start, the game is unpaused and the frame clock restarted |
| Game.Game.KeyDown | player.js:538-596 | Escape flips the pause key and pauses or resumes with it; 'e' next to an object delivers `interact` with it; 'm' flips the map flag and changes nothing else; other keys only set the player's key flags |
| Game.Game.StartQuest | quests.js:130-151 | the new state is `Questing` of the old one |
| Game.Game.StartCountdown | ui.js:36-55 | the new state is `Counting` of the old one |
| Game.Game.ClickBlock | minigames.js:333-372 | the overlay changes as the click does and its events are delivered in order |
| Game.Game.CloseGame | minigames.js:197-213 | the close button queues the closing animation exactly when a game is active |
| Game.Game.RunTask | main.js:52-58 | running a deferred callback changes the state as `Ran` says |
| Game.Game.Advance | main.js:52-58 | with no timer pending nothing happens; otherwise the timer that fires next leaves the queue, the clock reaches its due time and its callback runs |
| Game.Game.Dispatch | utils.js:135-141 | `emit` with the game's listeners: the new state is `Deliver` of the old one |
| Game.Game.Run | utils.js:137-139 | one listener and its effects: what remains from the new state equals the whole dispatch from the old |
| Game.Game.Replay | utils.js:135-141 | the effects run first to last: the new state is `Perform` of the old one |
| Game.Game.Apply | utils.js:137-139 | the listener's body changes the state and returns the effects as `Handle` says |
| Game.Game.ApplyWorld | world.js:68-76 | the world's listeners and the UI's final-stage listener act as `Handle` says |
| Game.Game.ApplyCharacters | npcs.js:206-210 | the NPC and mini-game listeners act as `Handle` says |
| Game.Game.ApplyBanners | ui.js:142-155 | the UI banners act as `Handle` says and change nothing |
| Game.Game.ApplyQuests | quests.js:111-123 | the objective listeners act as `Handle` says |
| Game.Game.ApplyGame | main.js:64-78 | the game's own listeners act as `Handle` says |
| Game.Game.HandleCollectible | main.js:148-163 | the first occurrence leaves the interactive objects, scene, colliders and walkers untouched, and the notice and then `itemCollected` are returned |

## Left out

- Assets.Percent: numbers are exact reals, not IEEE doubles, so the truncation can differ from the source's. assets.js:202 floors a double: 29 of 50 loaded gives 57 there (0.58·100 = 57.99999999999999) and 58 here, and 29 of 100 gives 28 there and 29 here.
- World.StageValue: stage i is exactly i/5, while world.js:72 computes `3 * 0.2` = 0.6000000000000001 for stage 3. The stage notices and the properties about them are stated for the exact values.
- NPCs.NPCs.Update: `Math.sqrt` of an NPC's squared distance and every `Math.random()` draw are parameters (`distances`, `draws`). The requires state that each distance is the square root the source takes and that each draw lies in [0, 1).
- Player.Player.Update: `Math.sin` and `Math.cos` of the player's rotation are the parameters `sinR` and `cosR`. They are not tied to an angle, so the movement direction is stated in terms of them.
- World.World.UpdateNPCs: the direction an NPC takes after a hit (the normalised random vector of world.js:1002-1006) is the parameter `turns[i]`.
- World.World.UpdateNPCs: the frame loop (`World.World.Update`, `Game.Game.Update`, `Game.Game.GameLoop`) uses the corrected revert `World.Step`, not the one world.js:1001 computes. The as-written revert is `World.StepAsWritten`; see "## Findings".
- Player.Player.CheckInteractions: collectibles and mini-game sites bob up and down each frame (world.js:934-937, minigames.js:529), and that bobbing is not modelled. Entities keep the position they were built at, so the 3-D distance measured at player.js:864 ignores the bobbing offset of up to 0.2.
- Player.LastInReach: the comment at player.js:861 says "closest", but the code keeps the last object in list order that is within reach. The model follows the code.
- Player.Player.KeyDown: the pointer lock that Escape releases or takes (`unlockMouse`/`lockMouse`, player.js:589-592) and the `pointerlockchange` event that follows are not modelled. `SetMouseLocked` models the listener, not the browser's lock.
- NPCs.Retargeted: `npc.wanderRadius || 50` (npcs.js:1757) is read as the bare field. Every character is created with radius 50 and nothing changes it, so the fallback is never taken.
- Game.Game.HandleCollectible: the removal from the Three.js scene (`World.scene.remove`, main.js:150) is not modelled. Only the interactive-objects list is.
- Game.Game.GameLoop: the render step (main.js:112, world.js:959-972) and the next `requestAnimationFrame` are not modelled. The caller runs the next frame.
- Game.Handle: the UI's `newQuest` listener (ui.js:149-151) is registered but modelled as doing nothing, because no code of the game emits `newQuest`. The mini-game `questUpdated` listener (minigames.js:71-76) has an empty body in the source too.
- The source keeps two frame clocks, `state.lastTime` (never read) and `this.lastTime` (read by `gameLoop`). Only the second is modelled.
- Game.Game.Update: `MiniGames.update` only animates the sites (minigames.js:515-540), so it is not modelled, and World's cosmetic animations (crystal, platforms, drones, world.js:911-947) are left out too.
- Game.Game.Init: `Assets.init`, `World.init`'s geometry and `Player.init`'s model run before the state the constructor describes. Three.js geometry, materials, canvases and textures, DOM construction, gsap animations, CSS and audio have no logic to state and are left out.
- MiniGames.Clicked: the feedback paragraph is kept as the latest match count. The DOM node that replaces the previous one is not modelled.
- MiniGames.Initial: the market-trading and blockchain-puzzle games are placeholders in the source. Their content is modelled as the game's description, and never completes.
- The countdown's display text and colour are fields of the panel. The DOM elements that hold them are not modelled.
- `Utils.showNotification`: notices are appended to a list of what was shown. Their timing on screen and the DOM are not modelled.
- `setTimeout`, `setInterval` and `performance.now()` are an explicit queue of (due time, task) pairs with a clock that only moves forward. Timers due at the same time fire in the order they were set.
- Player.Player.Update: the camera placement from spherical coordinates (player.js:879-898) and the walk-cycle animation (player.js:444-531) are not modelled.

## Findings

| source | as written | input that shows it | evidently intended | confidence | as-written member | corrected member |
|---|---|---|---|---|---|---|
| world.js:1001 | `dir.multiplyScalar(delta)` at world.js:983 scales `dir` in place, so the revert at line 1001 subtracts direction·speed² rather than the move. | The NPC `createNPC(0, 0)` builds, heading +x at speed 0.02, next to a wall whose face is 0.01 beyond its box: the revert leaves it at x = 0.0196, inside the wall. | Undo exactly the move, so that an NPC clear of the obstacles stays clear. | not executed | World.StepAsWritten, World.RevertCounterexample | World.Step, World.StepKeepsClear |
