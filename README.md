# CatCareGame pet simulation in Dafny

CatCareGame is a browser extension with a virtual cat. The cat has hunger, tiredness and cleanliness stats. It also has a food supply, a sleep flag, a tick counter, a few timestamps, an optional picture and a name. Two surfaces run the same game logic against one stored record:

- the popup's React hook (`src/hooks/useGameState.ts`);
- the page content script (`src/content.ts`).

This project models that logic:

- the one-second tick;
- the feed, bath, play and reset actions with their gates;
- renaming with its fallback to the default name;
- the mood derived from the stats;
- the stat-icon thresholds.

It proves that the two copies agree, with three exceptions:

- after reset, the two records differ in `lastFeedTime` and `createdAt`, which the content script's default record lacks;
- after play, they agree only for valid records, because the content script keeps a stale sleep start on an awake cat;
- renaming agrees with the hook's `setCatName` applied to the trimmed input, but the popup's own name editor (`src/components/CatDisplay.tsx:60-69`) handles blank input differently (see "## Left out").

Modules, one per source file:

- `GameTypes` (game_types.dfy): `src/types/game.ts`. It holds the `GameState` record with all thirteen fields, the five-valued `Mood`, and `INITIAL_GAME_STATE`. It also defines the invariant `Valid`:
  - stats lie in 0..100 and food is never negative;
  - a cat is asleep exactly when it has a sleep start time;
  - a sleeping cat has tiredness left, and an awake cat's tiredness is below 80;
  - the tick counter is never negative and the name is never empty.
- `UseGameState` (use_game_state.dfy): the hook. Each `setState` updater is a function from the old record to the new one. `GameHook` is a class that holds the record the way `useState` does.
- `Simulation` (simulation.dfy): what the hook's updaters do over many steps. This covers the sleep/wake cycle, the meal schedule, the sleep state machine and the invariant over every sequence of events.
- `ContentScript` (content_script.dfy): the content script. Its handlers load the stored record, edit the loaded object field by field and store it back. Each handler that edits the loaded object is a method that allocates a `StateObject` and assigns its fields as the source does. `ResetClick` builds a fresh record instead, as the source does, and allocates none. Each handler's `ensures` equates the stored record with the result of the hook's updater, with the reset and play exceptions listed above. Each handler also keeps a valid loaded record valid.
- `StatsDisplay` (stats_display.dfy): the three icon classifiers of `src/components/StatsDisplay.tsx`.

`Date.now()` becomes an integer parameter `now`. `INITIAL_GAME_STATE` reads the clock three times when its module loads (`src/types/game.ts:25,26,30`). The model uses one reading for all three, the parameter `loadTime`. The content script's `getDefaultState` builds a record without `mood`, `lastFeedTime` and `createdAt`. In the model those fields hold what a reader sees after merging the record into `INITIAL_GAME_STATE`: the happy mood and that record's clock reading, `initialTime`.

The source tests for a meal tick with `count % 5 === 0`, where JavaScript's remainder truncates toward zero. Dafny's `%` is Euclidean. Both give zero for exactly the same integers, so `IsMealTick` needs no adjustment.

Four behaviours of the code worth knowing:

- The code advances `totalPlayTime` on every tick, asleep or awake. So a tick is never idempotent (`Simulation.TickNeverIdempotent`).
- Reset also wakes a sleeping cat. A tick is not the only way out of sleep (`Simulation.SleepTransitions`).
- Timestamps come from the caller. Nothing keeps `lastBathTime` or `lastFeedTime` non-decreasing.
- The tired mood and its face can never be shown. Play puts the cat to sleep at tiredness 80, the same threshold the mood chain tests after the sleep test, so no reachable record is awake with tiredness 80 or more (`Simulation.TiredMoodUnreachable`).

## Model

| member | source | states |
|---|---|---|
| GameTypes.MoodsAreFive | src/types/game.ts:1 | CatMood has exactly five values and every mood is one of them |
| GameTypes.InitialGameState | src/types/game.ts:19-33 | the default record is valid: hunger 0, tiredness 0, cleanliness 100, no food, awake with no sleep start, counter 0, no picture, the default name, mood happy, all timestamps the load time |
| UseGameState.Tick | src/hooks/useGameState.ts:51-84 | asleep: tiredness drops by 2 floored at 0, and the cat wakes (no sleep start) exactly when none is left, with hunger and food untouched; awake: on a meal tick one food unit is eaten and hunger drops by one, or hunger rises by one (capped at 100) without food, and nothing changes otherwise; tiredness and sleep untouched while awake; the counter always advances by one; never puts the cat to sleep; changes no other field; keeps bounds and validity |
| UseGameState.AddFood | src/hooks/useGameState.ts:91-100 | refused while asleep (record unchanged); otherwise food 100 and last feed time `now`; hunger never touched; no other field changes; validity kept |
| UseGameState.Play | src/hooks/useGameState.ts:103-123 | refused while asleep; otherwise hunger +5 and tiredness +5 capped at 100, cleanliness -5 floored at 0, asleep exactly when the new tiredness is 80 or more, sleep start `now` if asleep and none otherwise; an awake result has tiredness below 80; no other field changes; validity kept |
| UseGameState.CanBath | src/hooks/useGameState.ts:152-161 | true below cleanliness 25; from 25 up, true exactly when ten minutes have passed since the last bath |
| UseGameState.Bath | src/hooks/useGameState.ts:127-148 | allowed exactly when awake and CanBath holds, giving cleanliness 100 and last bath `now`; otherwise the record is unchanged; no other field changes; validity kept |
| UseGameState.ResetGame | src/hooks/useGameState.ts:177-186 | whatever the prior record (asleep or not), the result is the default record stamped `now` with the prior picture and name; the load-time clock reading leaves no trace; valid when the name is non-empty |
| UseGameState.SetCatName | src/hooks/useGameState.ts:197-202 | the stored name is never empty: the given name, or the default label for an empty one; nothing else changes; validity kept |
| UseGameState.DetermineMood | src/hooks/useGameState.ts:218-224 | each mood holds exactly under its condition in the priority chain sleeping > hunger >= 70 > tiredness >= 80 > cleanliness < 30 > happy |
| UseGameState.MoodEmojiInjective | src/hooks/useGameState.ts:164-174 | the mood-to-face table gives different faces to different moods |
| UseGameState.InitialMoodIsDerived | src/types/game.ts:24 | the stored default mood "happy" is the mood derived from the default stats |
| UseGameState.Shown | src/hooks/useGameState.ts:205 | the record handed to the popup is the stored one with the mood derived from its stats |
| UseGameState.GameHook.constructor | src/hooks/useGameState.ts:21 | the hook starts from INITIAL_GAME_STATE, which is valid |
| UseGameState.GameHook.OnTimer | src/hooks/useGameState.ts:50-85 | each interval firing replaces the record with its tick and advances the counter by one, keeping a valid record valid |
| UseGameState.GameHook.AddFoodClick | src/hooks/useGameState.ts:91-100 | replaces the record by addFood's result, unchanged while asleep, keeping validity |
| UseGameState.GameHook.PlayClick | src/hooks/useGameState.ts:103-123 | replaces the record by play's result, unchanged while asleep, keeping validity |
| UseGameState.GameHook.BathClick | src/hooks/useGameState.ts:127-148 | replaces the record by bath's result, unchanged while asleep or while the gate refuses, keeping validity |
| UseGameState.GameHook.ResetClick | src/hooks/useGameState.ts:177-186 | replaces the record by resetGame's result, keeping picture and name, keeping validity |
| UseGameState.GameHook.Rename | src/hooks/useGameState.ts:197-202 | replaces the record by setCatName's result, keeping validity |
| UseGameState.GameHook.CanBathNow | src/hooks/useGameState.ts:152-161 | answers canBath's emergency-or-cooldown test on the current record |
| UseGameState.GameHook.MoodEmojiNow | src/hooks/useGameState.ts:164-174 | the face for the mood derived from the current record, the sleeping face whenever the cat sleeps |
| Simulation.SleepProgress | src/hooks/useGameState.ts:56-65 | while tiredness is left after k ticks of sleep, the cat still sleeps, has shed exactly 2k points, and kept its sleep start, hunger and food, with the counter up by k |
| Simulation.WakesAfterSleepTicks | src/hooks/useGameState.ts:56-65 | a sleeping cat with tiredness t sleeps through every tick before tick ceil(t/2) and is awake after it, with tiredness 0, no sleep start and the counter up by ceil(t/2) |
| Simulation.AwakeTicksKeepTiredness | src/hooks/useGameState.ts:66-79 | ticks never wake-or-sleep an awake cat and never change its tiredness, cleanliness or sleep start; the counter rises by one per tick |
| Simulation.FoodAfterTicks | src/hooks/useGameState.ts:66-79 | over n awake ticks the food drops by the number of meal ticks among them, floored at 0; with enough food hunger drops by the same number floored at 0; with no food hunger rises by it capped at 100; when the food runs out partway, hunger first falls by the units eaten (floored at 0) and then rises by the meals missed (capped at 100) |
| Simulation.FiveTicksOneMeal | src/hooks/useGameState.ts:66-79 | any five consecutive awake ticks eat exactly one unit (hunger -1) or, with no food, raise hunger by exactly one |
| Simulation.TickNeverIdempotent | src/hooks/useGameState.ts:53-81 | ticking twice always differs from ticking once: the counter moves on every call |
| Simulation.PlayThenSleepCycle | src/hooks/useGameState.ts:103-123 | play that takes tiredness to 80 or more puts the cat to sleep from `now`, and it wakes with tiredness 0 after ceil(tiredness/2) ticks |
| Simulation.SleepTransitions | src/hooks/useGameState.ts:51-186 | only play sends an awake cat to sleep, and only at tiredness 80 or more with sleep start `now`; only a tick reaching tiredness 0, or a reset, wakes a sleeping cat |
| Simulation.RefusedWhileAsleep | src/hooks/useGameState.ts:91-148 | while asleep, feed, play and bath leave the record unchanged |
| Simulation.RunPreservesValid | src/hooks/useGameState.ts:51-202 | every sequence of ticks, actions and renames keeps a valid record valid |
| Simulation.ReachableIsValid | src/hooks/useGameState.ts:21-202 | every record reachable from INITIAL_GAME_STATE is valid |
| Simulation.ValidNeverTired | src/hooks/useGameState.ts:218-224 | a valid record never derives the tired mood or shows its face: an awake valid cat is below the tiredness play puts to sleep at |
| Simulation.TiredMoodUnreachable | src/hooks/useGameState.ts:112-120 | no record reachable from INITIAL_GAME_STATE derives the tired mood or shows its face, because play sends the cat to sleep at the same threshold of 80 the mood chain tests |
| ContentScript.DefaultState | src/content.ts:27-40 | the default record is valid, with hunger 0, tiredness 0, cleanliness 100, no food, awake, counter 0, no picture, the default name and last bath `now` |
| ContentScript.Load | src/content.ts:48 | a missing stored record is replaced by the default one; a present one is used as it is |
| ContentScript.GameLoopTick | src/content.ts:46-81 | stores exactly the record the hook's tick computes from the same loaded record, counter included; a valid loaded record stays valid |
| ContentScript.FeedClick | src/content.ts:265-279 | refused (asleep) exactly when the cat sleeps, storing nothing; otherwise stores food 100 and last feed `now`, the record the hook's addFood gives; a valid loaded record stays valid |
| ContentScript.BathClick | src/content.ts:281-302 | refused as asleep exactly when the cat sleeps, and as cooldown exactly when awake with cleanliness 25 or more and under ten minutes since the last bath; otherwise stores cleanliness 100 and last bath `now`, the record the hook's bath gives; a valid loaded record stays valid |
| ContentScript.PlayClick | src/content.ts:304-327 | refused exactly when the cat sleeps; otherwise stores the hook's play result, except that the sleep start is left as it was when the cat stays awake; for a valid record the two agree exactly and the stored record is valid |
| ContentScript.ResetClick | src/content.ts:329-342 | stores the default stats, awake, counter 0, last bath `now`, the prior picture and name; this is the hook's reset result in every field except `lastFeedTime` and `createdAt`, which the script's default lacks; valid when the loaded name is non-empty |
| ContentScript.Trim | src/content.ts:382 | String.prototype.trim: empty exactly for all-whitespace input, otherwise the input between its leading and trailing whitespace, starting and ending with a non-whitespace character |
| ContentScript.TrimIdempotent | src/content.ts:382 | trimming a trimmed name changes nothing |
| ContentScript.NameFromInput | src/content.ts:382 | the new name is never empty: the default label for all-whitespace input, otherwise the trimmed input |
| ContentScript.NameBlur | src/content.ts:378-393 | stores the loaded record with only the name changed, to a non-empty name, the same record the hook's setCatName gives for the trimmed input; a valid loaded record stays valid |
| ContentScript.MoodBadge | src/content.ts:464-473 | for every record, the badge is the face of the mood the hook derives |
| ContentScript.PanelIcons | src/content.ts:430-443 | for every record, the panel's three icons are the popup's icons for the same stats |
| StatsDisplay.HungerIcon | src/components/StatsDisplay.tsx:16-20 | angry exactly from 70 up, neutral exactly in 40..69, calm exactly below 40 |
| StatsDisplay.TirednessIcon | src/components/StatsDisplay.tsx:22-26 | sleepy exactly from 80 up, weary exactly in 50..79, lively exactly below 50 |
| StatsDisplay.CleanlinessIcon | src/components/StatsDisplay.tsx:28-32 | filthy exactly up to and including 30, grubby exactly in 31..60, sparkling exactly above 60 |
| StatsDisplay.IconsMonotone | src/components/StatsDisplay.tsx:16-32 | more hunger or tiredness, or less cleanliness, never moves an icon back toward the calm face |

## Left out

- Storage and messaging are not modelled: `chrome.storage.local` reads and writes, the `onChanged` listener, the hook's load and save effects (including the load merge with `INITIAL_GAME_STATE`), and the background worker's message handler. Each handler takes the stored record as a value (`None` when absent) and returns what it would write.
- Concurrency is not modelled. Two independent one-second timers do read-modify-write on the same record, and one can lose the other's update. The model gives each tick as one step on one loaded record.
- The source reads the clock several times where the model reads it once. `INITIAL_GAME_STATE` calls `Date.now()` three times (`src/types/game.ts:25,26,30`); the model uses one `loadTime` for all three. `resetGame` calls it three times (`src/hooks/useGameState.ts:180-182`); the model uses one `now`. A content-script handler reads it in `getDefaultState` and in the handler; the model uses one `now` for both. So the model always has `lastBathTime`, `lastFeedTime` and `createdAt` equal where the source may have them a millisecond apart.
- The popup's name editor (`src/components/CatDisplay.tsx:60-69`) is not modelled. On all-whitespace input it keeps the previous name and never calls `setCatName`, while the content script stores the default label. The hook's own fallback to the default label is therefore never reached from the popup's editor.
- DOM construction, dragging, toasts, panel toggling, button disabling and the sleep status text are UI and not modelled. Only the mood badge and stat-icon choices are modelled.
- Picture upload is not modelled: the hook's `setCatImage` and the content script's file-input handler. Both are file I/O. The picture is an opaque optional string that reset carries over.
- `src/Popup.tsx` and `src/components/CatDisplay.tsx` are not part of this model. Their sleep and cooldown re-checks repeat the hook's gates.
- `GAME_CONSTANTS` in `src/types/game.ts` is never used by the game. The model uses the live values: a meal every 5 ticks, a 10-minute bath cooldown, an emergency threshold of 25 and a sleep decrement of 2.
- Floating-point stats and `Math.round` display are not modelled. Every stat change is by a whole amount, so stats are integers.
- Stored records that do not fit the record type are not modelled, such as a record written by an older version with missing or non-numeric fields.
