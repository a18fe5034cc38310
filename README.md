# Muallimun game engine, modelled in Dafny

Muallimun is a children's game for learning the Arabic letters. Each wave names a target
letter, shown isolated (level 1) or in one of its positional forms (level 2). Objects carrying
letters appear on the screen: fish swim in from the right in six sea lanes, balloons rise in
the sky, apples hang on a forest tree. The player catches the target letter by clicking an
object or, in the forest, by dropping it into a basket. A correct catch scores points; a
wrong one costs five points and a life. The run ends after three wrong catches or 40 seconds
without input.

This project models the engine's state machine in `components/GameEngine.tsx`, and the
records it works on from `types.ts`, and proves properties of it:

- `types.dfy` (module `Types`): letters, objects (`Entity`), final statistics, the drop-zone
  rectangle and the forest coordinates.
- `rules.dfy` (module `Rules`): the constants, the star rating, the game-over report, the
  reward and the penalty, the mistake set, the verdict on a caught object, and finding and
  removing an object by id.
- `bag.dfy` (module `Bag`): the ten-slot shuffle bag behind the target/distractor decision,
  refilled by an in-place Fisher–Yates pass over an array.
- `spawn.dfy` (module `Spawn`): what both spawners share. It covers the form shown, the tricky
  same-letter distractor of level 2, the other-letter distractor, the bonus flag, the sea
  lanes and their cooldowns, and where each theme places its objects.
- `forest.dfy` (module `Forest`): rejection sampling of a point inside the tree's five
  foliage ellipses, clear of every object already hanging there.
- `engine.dfy` (module `Engine`): the class `GameRun`, whose fields are the component's
  state and refs. Every timer callback and input handler becomes a method. `Valid()` is the
  invariant every method keeps:
  - timeLeft stays in 1..12 and lives in 0..3;
  - at most 14 or 15 objects;
  - unique ids;
  - every live object is placed within its theme's ranges and is honest, meaning a target
    shows the target form and carries the target id, and only targets are bonuses;
  - forest objects keep their spacing;
  - the bag bookkeeping holds;
  - a game-over report carries the stars of its score.

Randomness and the clock are arguments. Each `Math.random()` draw is a field of a `Dice`
value: a real in [0, 1), or a whole number reduced modulo the size of the list it indexes.
`Date.now()` is the argument `now`, in milliseconds. The string ids built from the clock
and a random number become a fresh counter `nextId`. The letter dataset is a constructor
argument. It must be non-empty, and every letter in it must have another letter with a
different id, so that the loops at components/GameEngine.tsx:256-258 and :326-328 end.

After `onGameOver` the surrounding application leaves the game screen. The model records
the report in `report`; from then on the ticks, clicks, drops, pause and idle timer do
nothing.

Where the written behaviour and the code differ, the model follows the code. The idle
timer is re-armed whenever the pause flag changes (components/GameEngine.tsx:152-164), and
pausing does not stop it. So a run left paused for 40 seconds ends, and `IdleTimeout` fires
whether or not the game is paused.

## Model

| member | source | states |
|---|---|---|
| Types.Forms | types.ts:40-47 | a letter has exactly four forms, in the order isolated, initial, medial, final |
| Types.PositionalForms | components/GameEngine.tsx:176 | the three positional forms are initial, medial and final, each one of the letter's forms |
| Rules.CalculateStars | components/GameEngine.tsx:86-90 | the rating is 1..3; 3 exactly from 120, 1 exactly below 50 |
| Rules.FinalStats | components/GameEngine.tsx:97-107 | the report carries the given score, lives, wave, mistakes and level, and stars equal to CalculateStars of the score, always 1..3 |
| Rules.Reward | components/GameEngine.tsx:453-463 | points are 10, 15, 30 or 35; at least 30 exactly for a bonus; the extra 5 exactly when the spawn time is present, non-zero and under 2000 ms old |
| Rules.Quick | components/GameEngine.tsx:457-459 | the speed bonus applies exactly when the spawn time is present, non-zero (the source tests it for truthiness) and less than 2000 ms before now |
| Rules.ScoreAfterWrong | components/GameEngine.tsx:490 | the score drops by exactly 5, or to 0 when it was at most 5; it never rises |
| Rules.AddMistake | components/GameEngine.tsx:500 | the mistake set stays duplicate-free, gains exactly the id, keeps its earlier entries in insertion order, and grows by at most one |
| Rules.MistakeIdempotent | components/GameEngine.tsx:77 | adding the same id twice gives the same set as adding it once |
| Rules.IsCorrect | components/GameEngine.tsx:508-513 | the verdict on a caught object, repeated for drops at :535-540: at level 2 the shown string equals the target form, at level 1 the letter id equals the target id |
| Rules.CorrectnessRule | components/GameEngine.tsx:508-513 | the verdict ignores the stored isTarget flag; at level 1 it ignores the displayed string; at level 2 a wrong display is wrong whatever the letter id |
| Rules.InsideDropZone | components/GameEngine.tsx:525-530 | a drop lands when x and y lie in the basket box widened by 30 on each side, bounds included |
| Rules.Find | components/GameEngine.tsx:505 | the result is the index of the first object with the id, or None when no object has it |
| Rules.RemoveId | components/GameEngine.tsx:477 | the filtered collection keeps only objects of the original without that id, and is no longer |
| Rules.RemoveIdKeeps | components/GameEngine.tsx:477 | every object with another id survives the filter |
| Rules.RemoveAbsent | components/GameEngine.tsx:553 | filtering an id no object has leaves the collection unchanged |
| Rules.RemoveExactlyOne | components/GameEngine.tsx:477 | with unique ids, filtering the k-th object's id removes exactly that object and keeps the others in order |
| Bag.ShuffledBag | components/GameEngine.tsx:181-187 | the shuffled bag has ten slots and is a permutation of the fresh bag: exactly 3 targets and 7 distractors |
| Bag.Swap | components/GameEngine.tsx:185 | the two slots are exchanged, every other slot is kept, the contents are unchanged |
| Bag.FreshCounts | components/GameEngine.tsx:182 | the fresh bag holds 3 targets and 7 distractors |
| Bag.CycleRatio | components/GameEngine.tsx:180-190 | ten decisions drawn since a refill empty the bag and contain exactly 3 targets |
| Bag.PopKeepsBag | components/GameEngine.tsx:189 | moving the bag's last slot into the drawn decisions keeps the 3-and-7 bookkeeping |
| Spawn.RandomForm | components/GameEngine.tsx:174-178 | level 1 gives the isolated form; level 2 gives one of the positional forms; always one of the letter's forms |
| Spawn.RandomFormCoversPositional | components/GameEngine.tsx:176-177 | every positional form is reachable by some draw |
| Spawn.WrongForms | components/GameEngine.tsx:248-249 | every remaining form is one of the letter's forms and differs from the target form |
| Spawn.WrongFormsComplete | components/GameEngine.tsx:249 | no form other than the target form is dropped |
| Spawn.OtherLetters | components/GameEngine.tsx:256-258 | every candidate of the redraw loop is in the dataset and has a different id |
| Spawn.OtherLettersComplete | components/GameEngine.tsx:256-258 | every dataset letter with a different id can be the loop's outcome |
| Spawn.Dress | components/GameEngine.tsx:240-263 | a target shows the target form of the target letter; a tricky distractor keeps the target letter and shows one of its forms other than the target form whenever one exists; any other distractor is a different letter in a form drawn for the level |
| Spawn.TrickyFallbackShowsTarget | components/GameEngine.tsx:250-254 | when no other form exists, the tricky distractor shows the target form itself |
| Spawn.UseTricky | components/GameEngine.tsx:244 | a distractor is a same-letter, other-form one exactly at level 2 on a draw below 0.5; the sea and sky spawner repeats the test at :314 |
| Spawn.BonusFlag | components/GameEngine.tsx:265-272 | only a target can be a bonus, and a target is one exactly on a draw below 0.15 |
| Spawn.FlagAgreesAtLevelOne | components/GameEngine.tsx:512 | at level 1 an honest object is correct exactly when it was spawned as a target |
| Spawn.FlagAndVerdictAtLevelTwo | components/GameEngine.tsx:510 | at level 2 a target is correct, and a tricky distractor with a differing form is wrong |
| Spawn.DressedIsHonest | components/GameEngine.tsx:240-272 | an object built from a dressed look and the bonus flag keeps the honesty invariant |
| Spawn.LaneFree | components/GameEngine.tsx:342 | a lane is free when its cooldown is unset or zero, or has passed strictly before now |
| Spawn.AvailableLanes | components/GameEngine.tsx:340-345 | the free lanes are exactly the lanes 1..6 with no cooldown, a zero one or one already past, in increasing order |
| Spawn.PlacedInPercentRange | types.ts:19 | every placed object's startX lies in 0..100 |
| Spawn.SeaEntity | components/GameEngine.tsx:351-379 | a fish starts at x 100 in the chosen lane 1..6, lives 9 to 14 seconds with no delay, shows the look and carries the bonus flag and the spawn time |
| Spawn.SkyEntity | components/GameEngine.tsx:355-379 | a balloon starts at x in 10..80, lives 8 to 13 seconds with no delay, shows the look and carries the bonus flag and the spawn time |
| Forest.SamplePoint | components/GameEngine.tsx:200-201 | a candidate point has x in 12..88 and y in 15..65 |
| Forest.InCanopy | components/GameEngine.tsx:203-209 | a point is inside the foliage exactly when it lies in one of the five weighted ellipses: centres (15,55), (30,45), (85,55), (70,45), (50,30), scales 1.8/1.6/1.8/1.6/1.4 across and 1.2 down, bounds 1100, 1300, 1100, 1300, 1500, all strict |
| Forest.TooCloseTo | components/GameEngine.tsx:213-216 | an existing object is too close when its distance, the horizontal offset scaled by 1.6, is below 12, compared as a square below 144; one without startY gives NaN and is never too close |
| Forest.TooClose | components/GameEngine.tsx:211-220 | the scan reports a neighbour exactly when some existing object is nearer than 12, with dx scaled by 1.6 |
| Forest.Place | components/GameEngine.tsx:196-229 | between 1 and 50 attempts; a found spot is the first acceptable sample, inside a foliage ellipse and clear of every object; no spot exactly when all 50 samples are rejected |
| Forest.ForestEntity | components/GameEngine.tsx:265-278 | a forest object hangs at the spot found, within the tree's ranges, with no lane, no duration and no delay, and shows the look with its decision, bonus flag, id and spawn time |
| Engine.AppendKeepsOk | components/GameEngine.tsx:381 | appending a placed, honest object with the next id, below the cap and, in the forest, clear of the others, keeps the collection invariant |
| Engine.SpliceKeepsOk | components/GameEngine.tsx:477 | cutting one object out keeps the collection invariant |
| Engine.RemoveKeepsOk | components/GameEngine.tsx:477 | filtering an id out keeps the collection invariant |
| Engine.Spawned | components/GameEngine.tsx:306-379 | a sea or sky spawn is placed in its theme's ranges, is honest, shows and names what Dress chose for the drawn decision with that draw's bonus flag, and carries the decision, the id, the lane and the spawn time |
| Engine.DressedDistractorIsOtherLetter | components/GameEngine.tsx:256-258 | a distractor dressed without the tricky draw names a dataset letter whose id is not the target's |
| Engine.HasLetter | components/GameEngine.tsx:232 | some object already on the tree carries the target letter id |
| Engine.ForcedTarget | components/GameEngine.tsx:232-237 | a placement is forced to be a target when no object carries the target letter and the tree is empty or holds at least 12 objects |
| Engine.Drew | components/GameEngine.tsx:180-190 | one bag draw: a non-empty bag loses exactly its last slot, which is the decision and is appended to the cycle; only an empty bag is refilled, leaving nine slots, and the decision starts a new cycle |
| Engine.Kept | components/GameEngine.tsx:285-286 | the objects a rebuild keeps are exactly the values of its Some results (its body keeps them in placement order), never more than there were placements |
| Engine.RebuildStep | components/GameEngine.tsx:283-286 | a placement run against the objects kept so far extends the rebuild, and its object, if any, is kept at the end |
| Engine.GrowStep | components/GameEngine.tsx:283-286 | one more placement, its object taking the next id, keeps the rebuild's promises: ids in order, the collection invariant, a target first, and nothing only when no spot was found on the bare tree |
| Engine.SpreadStep | components/GameEngine.tsx:284-285 | a placed, honest and clear object with the next id, a target when the tree was empty, keeps those promises |
| Engine.SpreadSkip | components/GameEngine.tsx:284-285 | a placement that found no spot, against a tree whose promises hold, leaves those promises one placement on, with the tree unchanged |
| Engine.GrowingDone | components/GameEngine.tsx:283-288 | after fourteen placements the kept objects are a rebuilt forest that keeps the collection invariant |
| Engine.GameRun.constructor | components/GameEngine.tsx:64-84 | a new run has score 0, 3 lives, wave 1, 12 seconds, no target, no objects, an empty bag and no mistakes, and the idle timer armed |
| Engine.GameRun.NextSpawnType | components/GameEngine.tsx:180-190 | a non-empty bag loses exactly its last slot, which is the decision; an empty bag is refilled and starts a new cycle; after ten decisions of a cycle the bag is empty and exactly 3 were targets |
| Engine.GameRun.Refill | components/GameEngine.tsx:181-188 | an empty bag becomes a full shuffled bag and a new cycle starts |
| Engine.GameRun.Pop | components/GameEngine.tsx:189 | the decision is the bag's last slot, the bag loses exactly that slot, and the decision is recorded in the cycle |
| Engine.GameRun.DrawSpawnType | components/GameEngine.tsx:308 | a draw during a running game keeps the run invariant and is one bag draw as Drew states it: a non-empty bag loses exactly its last slot, which is the decision and joins the cycle; only an empty bag is refilled, leaving nine slots and a new cycle of that one decision |
| Engine.GameRun.CreateForestObject | components/GameEngine.tsx:192-279 | no object exactly when all 50 samples are rejected, and then the bag is untouched; otherwise the object sits on the first acceptable sample, shows and names what Dress chose for its decision with that draw's bonus flag, and is honest; with no target-letter object on a tree that is empty or holds 12 or more it is a forced target and the bag is untouched; otherwise its decision is one more bag draw as Drew states it: the last slot of a non-empty bag, or the first of a refilled empty one |
| Engine.GameRun.ForestDecision | components/GameEngine.tsx:231-238 | a forced placement is a target and leaves the bag alone; any other takes its decision from one bag draw as Drew states it: the last slot of a non-empty bag, or the first of a refilled empty one |
| Engine.GameRun.ReshuffleForest | components/GameEngine.tsx:281-289 | the old tree is replaced by the objects kept by fourteen placements on the given draws, each against the objects placed before it; they take the next ids in order; the tree keeps the collection invariant; when it is empty no placement found a spot on the bare tree, otherwise its first object is a target of the target letter |
| Engine.GameRun.PlaceAll | components/GameEngine.tsx:283-286 | the fourteen placements yield a rebuilt forest, as ReshuffleForest states it |
| Engine.GameRun.PlaceNext | components/GameEngine.tsx:284-285 | one placement against the objects so far; its object, if any, is kept with the next id and the rebuild's promises hold one placement on |
| Engine.GameRun.FillForestTree | components/GameEngine.tsx:291-297 | a full tree is unchanged; otherwise one placement runs against the tree: when no sample fits, tree and bag are unchanged; else the tree gains exactly the object the placement created, on the first fitting sample and dressed for its decision, with the next id; a target when forced, otherwise one bag draw as Drew states it |
| Engine.GameRun.TakeLane | components/GameEngine.tsx:338-352 | no lane exactly when all lanes are cooling down, and then the cooldowns are unchanged; a chosen lane is in 1..6, was free, and its cooldown becomes now + 2500 |
| Engine.GameRun.SpawnObject | components/GameEngine.tsx:299-383 | paused or at 15 objects nothing changes; otherwise one bag draw as Drew states it is used up, the last slot of a non-empty bag or the first of a refilled empty one, even when no sea lane turns out to be free; and exactly in the sky or when a sea lane is free the object Spawned builds for that decision, those draws, the lane taken and the next id is appended |
| Engine.GameRun.Emit | components/GameEngine.tsx:306-381 | a spawn below the cap draws a decision, one bag draw as Drew states it, and enters the object Spawned builds for it, unless every sea lane is cooling down |
| Engine.GameRun.Enter | components/GameEngine.tsx:310-381 | the object Spawned builds for the decision, the draws and the next id enters, at sea in a free lane whose cooldown is set; nothing changes when no sea lane is free |
| Engine.GameRun.Append | components/GameEngine.tsx:381 | the new object is added at the end, the id counter advances, the run invariant holds |
| Engine.GameRun.SpawnTick | components/GameEngine.tsx:437-443 | nothing happens unless the run is armed; otherwise at most one object is appended: in the forest as FillForestTree states it, on sea and sky as SpawnObject states it |
| Engine.GameRun.StartNewWave | components/GameEngine.tsx:385-411 | the drawn letter becomes the target with a form for the level, timeLeft is 12, the wave is 1 or one more; the forest is rebuilt as ReshuffleForest states it, other themes are cleared with bag and ids untouched; score, lives and mistakes are untouched |
| Engine.GameRun.NewBoard | components/GameEngine.tsx:389-410 | the new target and its objects: a forest rebuilt as ReshuffleForest states it, or an empty screen with bag and ids untouched |
| Engine.GameRun.NewForest | components/GameEngine.tsx:406-407 | the new target in the forest, with the tree rebuilt around it as ReshuffleForest states it |
| Engine.GameRun.CountdownTick | components/GameEngine.tsx:427-435 | not armed, nothing changes; at 1 second or less a new wave starts at 12 seconds with the board StartNewWave states: a rebuilt forest, or a cleared screen; otherwise timeLeft drops by one and nothing else changes; score and lives are untouched |
| Engine.GameRun.HandleCorrect | components/GameEngine.tsx:449-478 | the score rises by Reward, the object with that id is filtered out, the idle timer is re-armed |
| Engine.GameRun.HandleWrong | components/GameEngine.tsx:480-501 | score becomes ScoreAfterWrong, lives drop by one, the target id is added to the mistakes; the run ends exactly when lives reach 0, reporting the pre-deduction score and 0 lives |
| Engine.GameRun.Resolve | components/GameEngine.tsx:508-519 | a correct catch scores the reward and removes exactly that object; a wrong one applies the penalty and keeps the objects |
| Engine.GameRun.Click | components/GameEngine.tsx:503-520 | a no-op when paused, over, without a target or for an absent id; otherwise the verdict of Resolve |
| Engine.GameRun.Drop | components/GameEngine.tsx:522-549 | as Click, and also a no-op without a basket or outside its box widened by 30 on each side, bounds included |
| Engine.GameRun.AnimationEnd | components/GameEngine.tsx:551-555 | in the forest nothing changes; otherwise the object with the id is removed and all others are kept in order |
| Engine.GameRun.TogglePause | components/GameEngine.tsx:644 | the pause flag flips and the idle timer is re-armed, unless the run is over |
| Engine.GameRun.Hide | components/GameEngine.tsx:166-172 | a hidden page pauses a running game and re-arms the idle timer; already paused, nothing changes |
| Engine.GameRun.Activity | components/GameEngine.tsx:153-155 | a mouse press or touch re-arms the idle timer unless paused or over |
| Engine.GameRun.IdleTimeout | components/GameEngine.tsx:110-114 | once the deadline has passed the run ends with the current score and 0 lives; before it nothing changes |

## Left out

- Rendering: JSX, particles, wrong marks, floating texts, the announcement overlay and the drag hint. They are presentation only.
- Audio: every sound effect, letter pronunciation and background music call is a no-op.
- Screen navigation, the `random` theme pick and `onExit`. They belong to the surrounding application.
- The object component's DOM handling (drag offsets, bounding rectangles, the one-click guard). The drop zone is an optional rectangle argument.
- Object colours and `slotIndex`. Nothing in the engine reads them.
- Real timers, React state batching and updater order. Each callback is one atomic method. On a game-ending wrong answer the mistake is recorded before the report is built.
- Random distributions: the 15% bonus rate, the 50% tricky rate and uniform picks. Only the ranges and the outcomes of the draws are modelled.
- Floating point and `Math.sqrt`. Coordinates are reals, and the separation test compares the squared distance with 144.
- The letter dataset. It is not part of this model and is given as an argument.
- Engine.GameRun.ReshuffleForest: its contract does not say that the bag is emptied before the fourteen placements, and so does not say which bag slots their decisions come from; it says only that the bag bookkeeping holds afterwards. The reason: bag draws are random choices and only their outcomes are modelled, so beyond the bag bookkeeping and the forced target the contract leaves each placement's decision free.
- Engine.GameRun.CountdownTick: it does not model the intervals being cleared and re-created when the pause flag or the target changes. The method is a no-op whenever the intervals would not be armed.
