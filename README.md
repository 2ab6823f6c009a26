# Jogger's Journey — a Dafny model of the challenge core

Jogger's Journey is an Android running game. The player picks a quest from a fixed catalogue. Each quest has a target distance, a time limit and a minimum average speed. The player then runs it while a challenge manager tracks position fixes. When the run is completed, the challenge manager judges it and hands out gold and experience. A location service supplies the fixes. It can answer either from the platform positioning client or from a built-in simulator that drifts around Gummersbach. Two small pieces of the UI layer are also modelled: the navigation routes and the accessory equip toggle of the avatar screen.

The modules follow the source files:

| module | file | models |
|---|---|---|
| `Models` | `Models.dfy` | `Quest`, `QuestCategory`, `ChallengeResult`, `ChallengeSession`, `LocationPoint`, `LatLng` |
| `QuestRepository` | `QuestRepository.dfy` | the five-quest catalogue, lookup by id, filtering by category |
| `Challenges` | `ChallengeManager.dfy` | the `ChallengeManager` class (start, location updates, timer and speed-check ticks, completion, cancel) and the pure judging functions |
| `TimeFormat` | `TimeFormat.dfy` | `formatTime` with JVM `Long` division and `%02d` padding |
| `Simulation` | `Simulation.dfy` | the `LocationSimulator` class and its speed-approach and heading arithmetic |
| `Location` | `Location.dfy` | the `LocationService` class: simulation switch, `getCurrentLocation` decision, update source |
| `Navigation` | `Navigation.dfy` | the `Screen` routes and the two route builders |
| `Avatar` | `Avatar.dfy` | the avatar screen's equip/unequip state and sample accessory catalogue |
| `Wrappers` | `Wrappers.dfy` | `Option` |

Kotlin `Double` is modelled as `real`, `Long`/`Int` as `int`. Kotlin's truncating `Long` division and remainder are written out in `TimeFormat.TruncDiv`/`TruncMod`. Wall-clock reads (`System.currentTimeMillis()`), `Math.random()`, `Location.distanceTo` and answers from the positioning client become parameters:
- `now: int`;
- `u` in `[0, 1)`;
- a `distanceTo` function that is only assumed to be non-negative;
- a `Lookup`/`freshFix` pair.

The coroutine loops of the challenge manager (the 100 ms timer and the 5 s speed check) become the tick methods `TimerTick` and `SpeedCheckTick`. The caller invokes them with the current time. The audio manager becomes a log of `Cue`s that the class appends to.

The class invariant `Challenges.ChallengeManager.Valid` states that:
- the covered distance is always the path length of the recorded history;
- `previousLocation` is the last recorded fix;
- both tick jobs run exactly when a session exists;
- an existing session is active and mirrors the tracker's distance and route.

## Model

| member | source | states |
|---|---|---|
| `Models.BaseRewardIncreasing` | src/main/java/com/example/joggersjourney/data/models/Quest.kt:24-29 | category base rewards are positive and strictly increase with the category order EASY < MEDIUM < HARD < EXPERT |
| `Models.QuestDefaults` | src/main/java/com/example/joggersjourney/data/models/Quest.kt:3-22 | a quest built from only an id has no distance, time or speed target, no rewards, and category EASY |
| `Models.ChallengeResultDefaults` | src/main/java/com/example/joggersjourney/data/models/Quest.kt:31-40 | a result built without rewards or message earns 0 gold, 0 XP and has an empty message |
| `Models.ChallengeSessionDefaults` | src/main/java/com/example/joggersjourney/data/models/Quest.kt:42-50 | a session built from only a quest id is inactive, with zero time, speed, distance and an empty route |
| `QuestRepository.Find` | src/main/java/com/example/joggersjourney/data/QuestRepository.kt:8-10 | `find` answers None exactly when no quest has the id; otherwise it answers the first quest with that id |
| `QuestRepository.FindMember` | src/main/java/com/example/joggersjourney/data/QuestRepository.kt:8-10 | in a list with distinct ids, looking up a member's id answers that member |
| `QuestRepository.CatalogShape` | src/main/java/com/example/joggersjourney/data/QuestRepository.kt:12-187 | the catalogue holds five quests with pairwise distinct ids |
| `QuestRepository.DistinctIdsOfFive` | src/main/java/com/example/joggersjourney/data/QuestRepository.kt:12-187 | pairwise-different ids of five quests make the list id-distinct |
| `QuestRepository.GetQuestByIdRoundTrip` | src/main/java/com/example/joggersjourney/data/QuestRepository.kt:8-10 | every catalogue quest is found by its own id; a lookup answers null exactly for ids that no catalogue quest has |
| `QuestRepository.FilterByCategory` | src/main/java/com/example/joggersjourney/data/QuestRepository.kt:189-191 | a quest is in the result exactly when it is in the input with the category |
| `QuestRepository.FilterKeepsOrder` | src/main/java/com/example/joggersjourney/data/QuestRepository.kt:189-191 | the filter keeps the input order: its result is a subsequence of the input |
| `QuestRepository.FilterKeepsMultiplicity` | src/main/java/com/example/joggersjourney/data/QuestRepository.kt:189-191 | the filter keeps every copy: each quest of the category occurs in the result as often as in the input, any other quest never |
| `QuestRepository.FilterCatalogLayout` | src/main/java/com/example/joggersjourney/data/QuestRepository.kt:189-191 | on five quests laid out as three EASY, one MEDIUM and one HARD quest, the filter answers the matching quests, in order, for each category |
| `QuestRepository.CategoryCounts` | src/main/java/com/example/joggersjourney/data/QuestRepository.kt:193-195 | easy quests are the three EASY entries in order; medium and hard quests are one each; no quest is EXPERT |
| `QuestRepository.CatalogWellFormed` | src/main/java/com/example/joggersjourney/data/QuestRepository.kt:12-187 | every catalogue quest has non-empty dialogues, positive distance, speed, gold and XP; only `easy_collector` has no time limit |
| `Challenges.AverageSpeed` | src/main/java/com/example/joggersjourney/data/ChallengeManager.kt:204-213 | the average speed is non-negative. It is positive exactly when both time and distance are positive, and then speed × elapsed ms = km × 3 600 000 (km/h) |
| `Challenges.AverageSpeedAntitone` | src/main/java/com/example/joggersjourney/data/ChallengeManager.kt:204-213 | covering the same distance in less time never lowers the average speed |
| `Challenges.AverageSpeedMonotone` | src/main/java/com/example/joggersjourney/data/ChallengeManager.kt:204-213 | covering more distance in the same time never lowers the average speed |
| `Challenges.SpeedFeedback` | src/main/java/com/example/joggersjourney/data/ChallengeManager.kt:89-100 | a warning is given exactly when a positive required and average speed exist and the average is below 80 % of the requirement. Praise is given exactly when the average reaches the requirement |
| `Challenges.FeedbackAgreesWithVerdict` | src/main/java/com/example/joggersjourney/data/ChallengeManager.kt:89-100 | a speed warning implies the speed condition of the final verdict currently fails; praise implies it holds |
| `Challenges.Evaluate` | src/main/java/com/example/joggersjourney/data/ChallengeManager.kt:149-185 | the run is completed exactly when the time, distance and speed conditions hold (a non-positive target waives its own condition). Gold and XP are the quest's rewards when it is completed and 0 otherwise, and the other fields report the run |
| `Challenges.FasterKeepsWin` | src/main/java/com/example/joggersjourney/data/ChallengeManager.kt:154-158 | a completed run stays completed when the same distance is covered in less (positive) time |
| `Challenges.FurtherKeepsWin` | src/main/java/com/example/joggersjourney/data/ChallengeManager.kt:154-158 | a completed run stays completed when more distance is covered in the same time |
| `Challenges.UnconstrainedQuestAlwaysWon` | src/main/java/com/example/joggersjourney/data/ChallengeManager.kt:154-158 | a quest with default (zero) targets is completed by every run |
| `Challenges.EightMinuteKilometre` | src/main/java/com/example/joggersjourney/data/ChallengeManager.kt:154-163 | for a 1 km / 8 min / 2.1 quest, a 7-minute kilometre wins; a 9-minute kilometre loses and earns no gold |
| `Challenges.FailedResult` | src/main/java/com/example/joggersjourney/data/ChallengeManager.kt:215-224 | the failed result is incomplete, with zero time, speed, distance and rewards and the fixed failure message |
| `Challenges.PathLengthSnoc` | src/main/java/com/example/joggersjourney/data/ChallengeManager.kt:123-127 | appending a fix adds the distance from the previous fix (nothing for the first fix) |
| `Challenges.PathLengthNonNegative` | src/main/java/com/example/joggersjourney/data/ChallengeManager.kt:123-127 | with a non-negative distance function the covered distance is never negative |
| `Challenges.PathLengthAppend` | src/main/java/com/example/joggersjourney/data/ChallengeManager.kt:123-127 | the distance of a concatenated route is the two parts' distances plus the joining leg |
| `Challenges.PathLengthMonotone` | src/main/java/com/example/joggersjourney/data/ChallengeManager.kt:123-127 | the distance covered never decreases as fixes arrive: any prefix of a route is no longer than the route |
| `Challenges.ReplayAccumulates` | src/main/java/com/example/joggersjourney/data/ChallengeManager.kt:102-141 | a second pass over the same coordinates, at any later times and speeds, adds exactly the route's length again plus the jump from its end back to its start, so it at least doubles the covered distance (no de-duplication) |
| `Challenges.PathLengthOnlyPositions` | src/main/java/com/example/joggersjourney/data/ChallengeManager.kt:123-127 | the covered distance depends only on where the fixes were taken, not on their times or speeds |
| `Challenges.ChallengeManager.constructor` | src/main/java/com/example/joggersjourney/data/ChallengeManager.kt:13-33 | a new manager has no session, zero counters, no jobs, empty history and no cues, and satisfies the invariant |
| `Challenges.ChallengeManager.StartChallenge` | src/main/java/com/example/joggersjourney/data/ChallengeManager.kt:35-63 | starting is refused (nothing changes) exactly when a session is active. Otherwise there is a fresh active session for the quest, zeroed counters and history, both jobs running and a start cue |
| `Challenges.ChallengeManager.UpdateLocation` | src/main/java/com/example/joggersjourney/data/ChallengeManager.kt:102-141 | without an active session nothing changes. Otherwise the fix is appended, the leg from the previous fix is added to the distance and the speed becomes the reported one (0 when the caller gives none, the Kotlin default). The session snapshot is refreshed; the invariant is kept |
| `Challenges.ChallengeManager.CompleteChallenge` | src/main/java/com/example/joggersjourney/data/ChallengeManager.kt:143-190 | without a session it answers the failed result and changes nothing. Otherwise it stops both jobs and answers `Evaluate` with a message from the win or loss dialogue. It appends the success or fail cue and clears the session |
| `Challenges.ChallengeManager.CancelChallenge` | src/main/java/com/example/joggersjourney/data/ChallengeManager.kt:192-195 | the session and both jobs are cleared; counters, history and previous fix are left as they were |
| `Challenges.ChallengeManager.StopTracking` | src/main/java/com/example/joggersjourney/data/ChallengeManager.kt:197-202 | both jobs are cleared and nothing else changes |
| `Challenges.ChallengeManager.TimerTick` | src/main/java/com/example/joggersjourney/data/ChallengeManager.kt:65-73 | while the timer job runs and the session is active, elapsed time becomes now minus the timer's start; otherwise it is unchanged |
| `Challenges.ChallengeManager.SpeedCheckTick` | src/main/java/com/example/joggersjourney/data/ChallengeManager.kt:75-87 | a check fires only when at least 10 s have passed since the last check. Then it appends the feedback cue and records the check time; otherwise nothing changes |
| `Challenges.ChallengeManager.CheckSpeedFeedback` | src/main/java/com/example/joggersjourney/data/ChallengeManager.kt:89-100 | appends exactly the warning or praise cue chosen by `SpeedFeedback` from the current average speed |
| `Challenges.ChallengeManager.GetCurrentSpeed` | src/main/java/com/example/joggersjourney/data/ChallengeManager.kt:250-264 | 0 before any time has elapsed. Otherwise speed × elapsed ms = km × 1000, which is km per second; × 3600 this is the km/h average |
| `Challenges.ChallengeManager.GetSpeedInKmh` | src/main/java/com/example/joggersjourney/data/ChallengeManager.kt:266-268 | as written: 1000 × the value equals the true km/h average, so the value is 1000 times too small |
| `Challenges.ChallengeManager.SpeedInKmh` | src/main/java/com/example/joggersjourney/data/ChallengeManager.kt:266-268 | corrected conversion: equals the km/h average used for judging, and is 1000 × the as-written value |
| `Challenges.SpeedInKmhUnitSlip` | src/main/java/com/example/joggersjourney/data/ChallengeManager.kt:266-268 | 1 km in 6 minutes: the as-written conversion reports 0.01 km/h, the corrected one and the judged average 10 km/h |
| `TimeFormat.TruncDiv` | src/main/java/com/example/joggersjourney/data/ChallengeManager.kt:227-229 | JVM `Long` division: agrees with floor division on non-negative inputs and truncates toward zero otherwise |
| `TimeFormat.TruncMod` | src/main/java/com/example/joggersjourney/data/ChallengeManager.kt:227-228 | JVM `%`: the remainder has the sign of the dividend and reconstructs it with `TruncDiv` |
| `TimeFormat.Fields` | src/main/java/com/example/joggersjourney/data/ChallengeManager.kt:226-229 | minutes and seconds stay within ±59; for non-negative input they are in 0..59 and the fields add back up to the input. Hours are positive exactly from one hour on |
| `TimeFormat.WholeSeconds` | src/main/java/com/example/joggersjourney/data/ChallengeManager.kt:227-229 | hours, minutes and seconds together are the whole seconds of the input |
| `TimeFormat.Pad2Value` | src/main/java/com/example/joggersjourney/data/ChallengeManager.kt:232 | `%02d` of a non-negative number reads back as that number |
| `TimeFormat.FormatTime` | src/main/java/com/example/joggersjourney/data/ChallengeManager.kt:226-236 | from one hour on the text is `HH:MM:SS`, below it `MM:SS`, each field `%02d`-padded |
| `TimeFormat.ShortFormUnderAnHour` | src/main/java/com/example/joggersjourney/data/ChallengeManager.kt:231-235 | the five-character form is used exactly for durations under one hour |
| `TimeFormat.FormatTimeRoundTrip` | src/main/java/com/example/joggersjourney/data/ChallengeManager.kt:226-236 | under one hour, reading the text back as `MM:SS` recovers the whole seconds of the duration |
| `TimeFormat.FieldsBelowHour` | src/main/java/com/example/joggersjourney/data/ChallengeManager.kt:227-228 | minutes and seconds do not depend on the whole hours |
| `TimeFormat.LongFormSplits` | src/main/java/com/example/joggersjourney/data/ChallengeManager.kt:231-232 | from one hour on, the text is the padded hour count, a colon, and the short form of the remainder below an hour |
| `Simulation.Approach` | src/main/java/com/example/joggersjourney/data/LocationSimulator.kt:32 | each step closes 10 % of the gap to the target speed and lands between the old speed and the target |
| `Simulation.GapShrinksGeometrically` | src/main/java/com/example/joggersjourney/data/LocationSimulator.kt:30-32 | after n steps the gap to the target speed is 0.9ⁿ times the initial gap |
| `Simulation.NeverOvershoots` | src/main/java/com/example/joggersjourney/data/LocationSimulator.kt:30-32 | accelerating towards the target, the speed rises monotonically and never passes the target |
| `Simulation.WrapHeading` | src/main/java/com/example/joggersjourney/data/LocationSimulator.kt:44-45 | a heading already in [0, 2π] is unchanged; one within a turn outside is shifted by at most one full turn |
| `Simulation.Perturbation` | src/main/java/com/example/joggersjourney/data/LocationSimulator.kt:43 | the random heading change lies in [-0.05, 0.05) |
| `Simulation.HeadingStaysInRange` | src/main/java/com/example/joggersjourney/data/LocationSimulator.kt:43-45 | perturbing a heading in [0, 2π] and wrapping keeps it in [0, 2π] |
| `Simulation.LocationSimulator.constructor` | src/main/java/com/example/joggersjourney/data/LocationSimulator.kt:11-16 | a new simulator stands still at the Gummersbach start point, heading 0, not simulating |
| `Simulation.LocationSimulator.StartSimulation` | src/main/java/com/example/joggersjourney/data/LocationSimulator.kt:18-22 | records the target speed, starts simulating and sets a random heading `u·2π` in [0, 2π) |
| `Simulation.LocationSimulator.StopSimulation` | src/main/java/com/example/joggersjourney/data/LocationSimulator.kt:24-27 | stops simulating and resets the speed to 0 |
| `Simulation.LocationSimulator.Step` | src/main/java/com/example/joggersjourney/data/LocationSimulator.kt:29-49 | when stopped, nothing is emitted or changed. Otherwise the speed approaches the target, the position moves by the given displacement, and the heading is perturbed and kept in [0, 2π]. The new position is emitted |
| `Simulation.LocationSimulator.GetCurrentSpeed` | src/main/java/com/example/joggersjourney/data/LocationSimulator.kt:52 | answers the simulator's current speed |
| `Simulation.TestRoutesShape` | src/main/java/com/example/joggersjourney/data/LocationSimulator.kt:56-75 | there are three test routes (easy_jogger1, medium_runner, hard_marathon), each of four points. Each starts at the simulator's start point and heads north-east |
| `Location.ShouldRequestFresh` | src/main/java/com/example/joggersjourney/data/LocationService.kt:62-63 | a fresh fix is requested exactly when there is no last fix or it is older than five minutes |
| `Location.StalenessIsPermanent` | src/main/java/com/example/joggersjourney/data/LocationService.kt:62-63 | a stale fix stays stale as time goes on; a fix exactly five minutes old is still used, one millisecond later it is not |
| `Location.CurrentLocationAsWritten` | src/main/java/com/example/joggersjourney/data/LocationService.kt:44-79 | as written: in simulation mode the answer is the point (speed, speed); otherwise it is the corrected decision |
| `Location.CurrentLocation` | src/main/java/com/example/joggersjourney/data/LocationService.kt:44-79 | simulation mode answers the simulator's position. Without permission, or when the lookup raises, the answer is nothing. A missing or stale fix yields the fresh request's answer, and a recent one yields its own coordinates |
| `Location.CachedAnswersAreRecent` | src/main/java/com/example/joggersjourney/data/LocationService.kt:61-74 | outside simulation, a cached answer always comes from a fix at most five minutes old; simulation mode answers regardless of permission |
| `Location.SimulatedAnswerIsSpeed` | src/main/java/com/example/joggersjourney/data/LocationService.kt:46-48 | with a simulator at rest, the as-written answer is (0, 0) while the simulator stands at the default location |
| `Location.UpdatesSource` | src/main/java/com/example/joggersjourney/data/LocationService.kt:142-158 | updates come from the simulator exactly in simulation mode. The stream closes immediately exactly when the permission is missing; otherwise the provider is asked for 10-second updates |
| `Location.LocationService.constructor` | src/main/java/com/example/joggersjourney/data/LocationService.kt:15-20 | a new service is not in simulation mode and owns a fresh simulator at rest at the start point |
| `Location.LocationService.EnableSimulationMode` | src/main/java/com/example/joggersjourney/data/LocationService.kt:22-24 | switches simulation mode on |
| `Location.LocationService.DisableSimulationMode` | src/main/java/com/example/joggersjourney/data/LocationService.kt:26-29 | switches simulation mode off and stops the simulator (speed 0) |
| `Location.LocationService.StartSimulation` | src/main/java/com/example/joggersjourney/data/LocationService.kt:31-35 | starts the simulator only in simulation mode; otherwise the simulator is untouched |
| `Location.LocationService.GetCurrentLocation` | src/main/java/com/example/joggersjourney/data/LocationService.kt:44-79 | as written: in simulation mode it answers the point (speed, speed) from the simulator's current speed; otherwise it gives the permission, exception and staleness answers of `CurrentLocation` |
| `Location.LocationService.GetCurrentPosition` | src/main/java/com/example/joggersjourney/data/LocationService.kt:44-79 | corrected: answers `CurrentLocation` with the simulator's current position in simulation mode |
| `Location.DefaultIsSimulatorStart` | src/main/java/com/example/joggersjourney/data/LocationService.kt:181 | the default location is the simulator's start point |
| `Navigation.RoutesDistinct` | src/main/java/com/example/joggersjourney/navigation/Screen.kt:3-19 | the nine screens have pairwise distinct route strings |
| `Navigation.QuestDetailRoute` | src/main/java/com/example/joggersjourney/navigation/Screen.kt:14 | the quest-detail route is the `quest_detail/` prefix followed by the quest id |
| `Navigation.RunningSessionRoute` | src/main/java/com/example/joggersjourney/navigation/Screen.kt:17 | the running-session route is the `running_session/` prefix followed by the quest id |
| `Navigation.BuildersInjective` | src/main/java/com/example/joggersjourney/navigation/Screen.kt:13-17 | each builder maps different quest ids to different routes |
| `Navigation.BuildersDisjoint` | src/main/java/com/example/joggersjourney/navigation/Screen.kt:13-17 | no quest-detail route equals a running-session route |
| `Navigation.FillTemplate` | src/main/java/com/example/joggersjourney/navigation/Screen.kt:13-16 | replacing a trailing `{questId}` placeholder keeps the template's prefix and appends the id |
| `Navigation.BuildersFillTemplates` | src/main/java/com/example/joggersjourney/navigation/Screen.kt:13-17 | each builder's route is its screen's route template with the placeholder filled by the id |
| `Avatar.Toggled` | src/main/java/com/example/joggersjourney/ui/screens/AvatarScreen.kt:151-161 | tapping an unowned item changes nothing. An owned, equipped item is removed from its slot, and an owned item that is not equipped is put into it. Other slots are untouched |
| `Avatar.TapFlipsEquipped` | src/main/java/com/example/joggersjourney/ui/screens/AvatarScreen.kt:149-159 | after a tap, an item is shown equipped exactly when it is owned and was not equipped before |
| `Avatar.ToggledWearsOwned` | src/main/java/com/example/joggersjourney/ui/screens/AvatarScreen.kt:151-161 | tapping a sample of the shown type keeps the screen's rule that only owned samples of their own type are worn |
| `Avatar.DoubleTap` | src/main/java/com/example/joggersjourney/ui/screens/AvatarScreen.kt:151-161 | tapping an owned item twice restores the state exactly when its slot was empty or held it. If the slot held another item, two taps leave the slot empty |
| `Avatar.SampleCatalogue` | src/main/java/com/example/joggersjourney/ui/screens/AvatarScreen.kt:252-294 | every type offers at least two samples with distinct ids, the first of them owned. The six type names are pairwise distinct |
| `Avatar.AvatarState.constructor` | src/main/java/com/example/joggersjourney/ui/screens/AvatarScreen.kt:29-32 | the screen opens on hats with nothing equipped |
| `Avatar.AvatarState.SelectType` | src/main/java/com/example/joggersjourney/ui/screens/AvatarScreen.kt:113-118 | selecting a type changes only the shown type |
| `Avatar.AvatarState.TapAccessory` | src/main/java/com/example/joggersjourney/ui/screens/AvatarScreen.kt:151-161 | the equipment map becomes `Toggled` of the old map for the shown type; only owned samples stay equipped |

## Left out

- Coroutines, `StateFlow` and `delay`: the timer and speed-check loops are tick methods called with the current time. The 100 ms and 5 s periods, and any interleaving of ticks with location updates, are not modelled.
- `AudioManager` playback: it is reduced to the sequence of cues the manager would play (AudioManager.kt is not part of this model).
- `Location.distanceTo` (the platform's geodesic distance in metres): it is a function parameter of the two coordinates, assumed only to be non-negative. The division by 1000 that turns it into kilometres is modelled.
- `formatSpeed`, `formatDistance`: `String.format("%.1f")` and `"%.2f"` rounding of doubles is not modelled.
- `calculateSpeed` is modelled only inside `GetCurrentSpeed`. `isSpeedWithinRange` and the unused `baseReward` local of `completeChallenge` are never read and are left out.
- Floating point: `Double` is a mathematical real, with no rounding, NaN or infinity. `Long` is unbounded, so overflow of `targetTime * 60 * 1000` is not modelled.
- `Challenges.ChallengeManager.CompleteChallenge`: `messages.random()` is a nondeterministic pick from the dialogue. Uniformity is not captured.
- The quests' NPC dialogue lines are replaced by short identifiers; only their presence, order and count matter to the model. Titles, descriptions and NPC names are kept as written.
- `requiredSpeed` is compared raw with the km/h average, exactly as the code does. The catalogue's comments call the values m/s while `Quest.requiredSpeed` documents km/h; the model does not decide which was meant.
- `Simulation.LocationSimulator.Step`: `sin`, `cos` and `Math.toRadians` are not modelled. The position change of one step is a caller-supplied displacement, and `Math.random()` is a parameter in [0, 1). The one-second `delay` and the `Flow` emission are a returned value.
- `LocationService.requestFreshLocation` (the 15 s timeout, the provider callback and cancellation) is represented by its answer, the `freshFix` parameter. The fused location client and the permission query are parameters as well.
- `getLocationUpdates`: only the choice of update source and its 10 s interval are modelled, not the callback stream itself.
- `TimeFormat.FormatTime`: modelled for locales whose zero digit is '0'. `String.format` is called without a `Locale`, so under a locale with other digits (Arabic-Indic, say) the app prints those digits, and `TimeFormat.Pad2Value` and `TimeFormat.FormatTimeRoundTrip` speak only of ASCII digits.
- `TimeFormat.FormatTimeRoundTrip`: the read-back is stated only below one hour. From one hour on, `TimeFormat.LongFormSplits` reduces the long form to the padded hour count plus the short form.
- `Challenges.ChallengeManager.CancelChallenge`: as the code does, cancelling does not clear the location history, distance or elapsed time. They are reset by the next `StartChallenge`.
- The `RunSession`, `User` and `Accessory` model classes are not used by the modelled code, apart from `LocationPoint`. The accessory icons (`ImageVector`), `getAccessoryTypeIcon` and all Compose layout are left out.
- The catalogue's quest latitudes and longitudes are kept as data, but nothing is proved about them.

## Findings

| source | as written | input that shows it | evidently intended | confidence | as-written member | corrected member |
|---|---|---|---|---|---|---|
| src/main/java/com/example/joggersjourney/data/ChallengeManager.kt:266-268 | `getSpeedInKmh` multiplies `getCurrentSpeed()` by 3.6. That value is km per second, since the distance is kept in km, not m. | 1.0 km covered in 360 000 ms: `getSpeedInKmh` answers 0.01 | 10 km/h, the same average that `completeChallenge` judges | not executed | `Challenges.ChallengeManager.GetSpeedInKmh` (exhibited by `Challenges.SpeedInKmhUnitSlip`) | `Challenges.ChallengeManager.SpeedInKmh` |
| src/main/java/com/example/joggersjourney/data/LocationService.kt:46-48 | in simulation mode `getCurrentLocation` answers `LatLng(speed, speed)`, built from the simulator's speed | a fresh service in simulation mode with the simulator at rest answers (0.0, 0.0) | the simulator's position, here 51.0269, 7.5636 (the default location) | not executed | `Location.LocationService.GetCurrentLocation` (specified by `Location.CurrentLocationAsWritten`, exhibited by `Location.SimulatedAnswerIsSpeed`) | `Location.LocationService.GetCurrentPosition` (specified by `Location.CurrentLocation`) |
