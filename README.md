# Snowball Showdown: a verified model of the game's bookkeeping

Snowball Showdown is a browser arcade game. The player's avatar throws
snowballs at waves of enemies and bosses across escalating levels,
collects power-ups, and competes for a top-5 leaderboard. This project
models the game's decision and bookkeeping logic in Dafny and proves what
that logic promises. It has three parts.

- **Simulation engine** (`components/GameCanvas.tsx`), in `engine.dfy`.
  - Covered: the player's health and shield under `takeDamage`, the shield
    and helper sync against the power-up inventory, `killEnemy`, passive
    regen, the one-shot boss spawn, the pickup collect/expire sweep, the
    fire cooldown and shot count, minion-type selection, the bad_kid
    cooldown, the level-load partial reset, the level-completion check and
    helper death.
  - Each operation is a pure step function on a `State` value, with its
    properties proved as lemmas.
  - Each is also a method of the `SimulationState` class, which updates
    the engine's refs in place. Its `ensures` ties the new state to the
    step function.
  - Loops stay loops: the backward splice loop of the pickup sweep, the
    pop/push loops of the helper sync, the shot loop and the initial-loot
    loop.
- **Session controller** (`App.tsx`), in `session.dfy` and `leaderboard.dfy`.
  - The power-up inventory: `addPowerup`, the counted splice loop of
    `removePowerup`, and the level-complete pruning with its boss reward
    and offensive count.
  - The leaderboard: `submitScore` (trim, cut to ten characters, sort,
    top five) and the game-over eligibility test.
- **Level generator** (`services/geminiService.ts`, `generateLevel`), in
  `level_gen.dfy`.
  - Level classification, the speed multiplier, the composition mode, the
    spawn-interval schedule with its floors and hoarding penalty, and the
    boss line.
  - The toy-factory grid with its spawn-cell exclusion.
  - The retry loop that places obstacles clear of the centre and of each
    other, and the ice patches.

`game_types.dfy` holds what the three parts share:

- the entity kinds and tuning constants (`types.ts`, `constants.ts`);
- the inventory count;
- the kill goal of a level;
- the scaling of a random draw to an index or a range.

Modelling conventions:

- Time is an `int` of milliseconds.
- Every `Math.random()` draw is an input: a `real` in [0, 1).
- Lengths and multipliers are exact `real`s. A square-root distance test
  is stated on squared distances, which is the same test for non-negative
  sides.
- Whether the player touches a pickup is a predicate parameter.
- The callbacks the engine raises towards the session controller are
  returned as values:
  - `Signals` from a hit: SHIELD revoked once, life lost, game over;
  - the kinds collected by the sweep;
  - the power-up revoked by a helper death.

Behaviour of the code worth noting:

- A hit signals life-lost only while `lives > 0`; game-over is signalled
  on every hit that leaves hp at or below zero
  (`components/GameCanvas.tsx:362-368`).
- The final hit can leave hp below zero, so `0 <= hp` is not an invariant
  of the model.
- The level-load reset does not clear the shield. It recentres the player,
  raises `maxHp` to 3 plus the VITALITY count, heals one point up to that
  maximum, clears the frozen flag and the hit stamp, and resets the
  counters (`components/GameCanvas.tsx:305-321`).
- Excess helpers are not dropped arbitrarily. The pop loop removes them
  from the end, so the survivors of each kind are the earliest ones, in
  order.

## Model

The lemmas below are stated about reference definitions that follow the
source line for line and carry no row of their own:

- `Session.Prune` (App.tsx:138-150), `Session.RemoveFirst` and `Session.RemoveTimes` (App.tsx:186-190);
- `Engine.Fires` (components/GameCanvas.tsx:559-574), `Engine.Expired`, `Engine.Survivors` and `Engine.Collected` (components/GameCanvas.tsx:544-553), `Engine.Reconciled` (components/GameCanvas.tsx:206-242);
- `LevelGen.IsBossLevel` and `LevelGen.IsFactoryLevel` (services/geminiService.ts:49-50), `LevelGen.TooCloseToCentre`, `LevelGen.Overlaps` and `LevelGen.Acceptable` (services/geminiService.ts:115-144);
- `Leaderboard.IsWhitespace`, the white-space and line-terminator characters `trim` removes.

| member | source | states |
|---|---|---|
| GameTypes.KillsNeeded | App.tsx:228 | the kill goal is 10 on level 1 and at least 10 on every later level |
| GameTypes.KillsGrowPerLevel | App.tsx:228 | each level needs exactly five kills more than the one before, so the goal never falls as the level rises |
| GameTypes.RollIndex | App.tsx:192 | `Math.floor(roll * n)` is a valid index below `n`, the floor of `roll * n` |
| GameTypes.Uniform | services/geminiService.ts:43 | `random(min, max)` lies in [min, max], strictly below max when min < max |
| Session.AddPowerup | App.tsx:176-181 | the kind is appended at the end, the old inventory is a prefix, its count rises by one and no other count changes; maxHp rises by one exactly for VITALITY |
| Session.AddPowerupKeepsMaxHp | App.tsx:176-181 | adding keeps maxHp equal to 3 plus the number of VITALITY entries |
| Session.IndexOf | App.tsx:189 | `indexOf` returns the first position holding the kind, or -1 exactly when the kind is absent |
| Session.RemoveFirstMultiset | App.tsx:189-190 | one typed splice takes exactly one copy of the kind out of the holding, if there is one |
| Session.RemoveFirstCounts | App.tsx:189-190 | one typed splice lowers the kind's count by one when it is held and leaves every other count alone |
| Session.RemoveFirstAbsent | App.tsx:190 | the splice is skipped when `indexOf` finds nothing |
| Session.RemoveFirstWithout | App.tsx:189-190 | one typed splice leaves every entry of another kind in place and in order |
| Session.RemoveFirstIsSubsequence | App.tsx:189-190 | one typed splice leaves the kept entries in their order |
| Session.DropOneIsSubsequence | App.tsx:192-193 | an untyped splice at any index leaves the kept entries in their order |
| Session.RemoveTimesCount | App.tsx:186-190 | revoking `count` copies of a kind removes min(count, held) of them and none when count <= 0 |
| Session.RemoveTimesOtherCounts | App.tsx:186-190 | revoking copies of a kind leaves the count of every other kind unchanged |
| Session.RemoveTimesAbsent | App.tsx:186-190 | revoking a kind that is not held is a no-op |
| Session.RemoveTimesKeepsOthers | App.tsx:186-190 | revoking keeps all other entries in their relative order, and the result is a subsequence of the inventory |
| Session.RemovePowerup | App.tsx:183-198 | the splice loop computes the typed removal exactly; untyped, it removes min(count, length) entries and keeps the order of the rest |
| Session.RemovalRound | App.tsx:187-194 | one round splices out the first copy of the kind, or the entry at `floor(roll * length)`, and keeps the loop invariant |
| Session.SpliceFirst | App.tsx:189-190 | `indexOf` then `splice` drops exactly the first copy of the kind |
| Session.SpliceAt | App.tsx:192-193 | `splice(idx, 1)` drops exactly the entry at `idx` |
| Session.PruneInventory | App.tsx:138-150 | the `forEach` with a `seen` set produces exactly the reference pruning: every VITALITY and the first occurrence of each other kind |
| Session.PruneSameKinds | App.tsx:138-150 | pruning neither invents nor loses a kind |
| Session.PruneKeepsVitality | App.tsx:142-143 | every VITALITY entry is kept |
| Session.PruneKeepsOneOfEach | App.tsx:144-148 | every other kind that was held is held exactly once afterwards |
| Session.PruneKeepsFirstOccurrence | App.tsx:144-148 | the kept copy of a non-VITALITY kind is its first occurrence: the pruning of every prefix is a prefix of the pruning |
| Session.PrunePrefix | App.tsx:138-150 | the pruning of a prefix of the inventory is a prefix of the pruning of the whole |
| Session.PruneIsSubsequence | App.tsx:138-150 | pruning keeps the relative order of what it keeps |
| Session.PruneIdempotent | App.tsx:138-150 | pruning a pruned inventory changes nothing |
| Session.OffensiveCount | App.tsx:171 | the offensive count is the number of entries that are not VITALITY |
| Session.OffensiveCountIsRest | App.tsx:171 | the `filter(p => p !== 'VITALITY')` list is as long as the inventory minus its VITALITY entries |
| Session.HandleLevelComplete | App.tsx:134-174 | off a boss level the inventory is the pruning and maxHp is unchanged; after every seventh level exactly one reward is appended, the pool entry at `floor(roll * 3)`, and maxHp rises by one iff it is VITALITY; the level advances by one and the offensive count is that of the new inventory |
| Session.RewardOfRoll | App.tsx:153-155 | the draw picks RAPID_FIRE below 1/3, TRIPLE_SHOT from 1/3 to below 2/3, and VITALITY from 2/3 up |
| Session.LevelCompleteKeepsMaxHp | App.tsx:153-162 | the level transition keeps maxHp equal to 3 plus the VITALITY count |
| Session.AddThenRemoveSameHolding | App.tsx:176-198 | granting a kind and then revoking it once restores the holding |
| Leaderboard.TrimStart | App.tsx:115 | the result is a suffix of the input that does not start with white space, and only white space was cut |
| Leaderboard.TrimEnd | App.tsx:115 | the result is a prefix of the input that does not end with white space, and only white space was cut |
| Leaderboard.Trim | App.tsx:115 | `trim()` is a contiguous slice of the name with only white space cut before and after it; it neither starts nor ends with white space, and is empty exactly when the name is all white space |
| Leaderboard.StoredName | App.tsx:117 | the stored name is the first min(10, length) characters of the trimmed name |
| Leaderboard.InsertPos | App.tsx:123 | the stable insertion point lies within the board |
| Leaderboard.Insert | App.tsx:123 | insertion places the entry at its stable insertion point and keeps every other entry |
| Leaderboard.Sort | App.tsx:123 | the sort keeps the board's length |
| Leaderboard.InsertPosFacts | App.tsx:123 | in a sorted board, entries before the insertion point score at least as much as the new entry and entries after it score less |
| Leaderboard.InsertSorted | App.tsx:123 | inserting into a sorted board keeps it sorted, non-increasing by score |
| Leaderboard.InsertMultiset | App.tsx:123 | insertion adds exactly the new entry to the board's entries |
| Leaderboard.SortSortedPermutation | App.tsx:123 | `sort((a, b) => b.score - a.score)` is sorted non-increasing and a permutation of its input |
| Leaderboard.SortSorted | App.tsx:123 | the sort's output is sorted, non-increasing by score |
| Leaderboard.SortPermutation | App.tsx:123 | the sort's output is a permutation of its input |
| Leaderboard.SortOfSorted | App.tsx:123 | sorting a board that is already in descending score order returns it unchanged |
| Leaderboard.SubmitScore | App.tsx:114-132 | a blank name leaves the board alone; otherwise the new board is sorted non-increasing, holds min(5, old length + 1) entries, and holds nothing but old entries and the new one |
| Leaderboard.SortedPrefix | App.tsx:124 | `slice(0, 5)` of a sorted board is sorted and holds only board entries |
| Leaderboard.SubmitKeepsBest | App.tsx:122-124 | an entry the cut drops scores no more than any entry the new board keeps |
| Leaderboard.SortedPrefixDominates | App.tsx:124 | in a sorted list, an entry cut off by a prefix scores no more than anything in the prefix |
| Leaderboard.HighScoreEligible | App.tsx:104-106 | the name input is offered exactly when no lives remain and the board has room or the score beats its last entry |
| Leaderboard.EligibleScoreEntersBoard | App.tsx:104-124 | an eligible player who gives a name does get onto the board |
| Leaderboard.IneligibleScoreLeavesBoard | App.tsx:105-124 | a score that does not beat the last of five entries leaves a sorted board unchanged |
| LevelGen.BossAndFactoryDisjoint | services/geminiService.ts:49-50 | no level is both a boss level and a factory level |
| LevelGen.FactoryLevels | services/geminiService.ts:49-50 | factory levels are exactly the multiples of 5 that are not multiples of 35 |
| LevelGen.BossLevelsRecur | services/geminiService.ts:49 | a level is a boss level iff the level seven later is |
| LevelGen.SpeedMultiplier | services/geminiService.ts:53-61 | the multiplier never exceeds 2.0, is 1.0 on levels 8, 9 and 15, is 1 + 0.05 x level elsewhere up to level 20, and is at least 1.0 |
| LevelGen.SpeedMonotone | services/geminiService.ts:53-61 | outside the reset levels, enemies never get slower as the level rises |
| LevelGen.ChooseComposition | services/geminiService.ts:192-196 | never 'range'; 'mixed' exactly on boss levels, levels <= 5, and levels 6-8 with a draw at most 0.7; 'chaos' exactly on non-boss levels above 8; 'rush' exactly on non-boss levels 6-8 with a draw above 0.7 |
| LevelGen.AdjustedLevel | services/geminiService.ts:199-201 | the adjusted level is the level up to 7, level - 4 for 8-14 and level - 8 above 14 |
| LevelGen.BaseInterval | services/geminiService.ts:204 | the base interval is at least 400 ms and at most 1800 ms |
| LevelGen.IntervalBeforePenalty | services/geminiService.ts:207-209 | levels above 10 never raise the interval and never take it below 250 ms; levels up to 10 keep the base |
| LevelGen.SpawnInterval | services/geminiService.ts:211-216 | the spawn interval is at least 150 ms, never above the unpenalised interval, and unpenalised with at most 5 offensive power-ups |
| LevelGen.Penalised | services/geminiService.ts:214-215 | the penalised rate lies between 150 and the rate it started from |
| LevelGen.PenalisedMonotone | services/geminiService.ts:214-215 | a larger excess is penalised at least as hard |
| LevelGen.PowBounds | services/geminiService.ts:214 | 0.9^n lies in (0, 1] |
| LevelGen.PowDecreasing | services/geminiService.ts:214 | 0.9^n never grows with n |
| LevelGen.HoardingNeverHelps | services/geminiService.ts:211-216 | holding more offensive power-ups never lengthens the spawn interval |
| LevelGen.BaseIntervalShrinksWithinAct | services/geminiService.ts:199-204 | within one act the base interval never grows |
| LevelGen.ActsRestartTheSchedule | services/geminiService.ts:199-204 | levels 8 and 15 restart from a longer base interval than the level before |
| LevelGen.BossMessage | services/geminiService.ts:170-189 | the three named boss levels get their own lines, other boss levels "I will crush you!", non-boss levels the empty string |
| LevelGen.FactoryGrid | services/geminiService.ts:80-108 | the nested grid loop builds exactly the walls and loot of the row-major cell outcomes |
| LevelGen.CellCentreInSpawnBlock | services/geminiService.ts:83-86 | a cell centre lies in the spawn block exactly when the cell is one of the four skipped spawn cells |
| LevelGen.GridClearOfSpawn | services/geminiService.ts:80-106 | no wall and no loot of the factory grid has its centre in the spawn block |
| LevelGen.CellKeyOfCentre | services/geminiService.ts:85-86 | the centre of cell (row, col) lies in that cell |
| LevelGen.GridKeysBelow | services/geminiService.ts:80-106 | every item of the first k cells lies in one of those cells |
| LevelGen.GridOnePerCell | services/geminiService.ts:80-106 | each cell yields at most one item: walls and loot lie in strictly increasing cells and no cell holds both |
| LevelGen.Candidate | services/geminiService.ts:127-131 | an attempt proposes a radius in [20, 60] and a centre at least a radius away from every edge |
| LevelGen.FirstAcceptable | services/geminiService.ts:126-150 | the retry loop stops at the first of at most twenty attempts whose candidate is acceptable, and none before it was |
| LevelGen.SlotResult | services/geminiService.ts:121-151 | an accepted obstacle is clear of the centre and of every obstacle placed before it, is inside the canvas and carries id `obs-<level>-<slot>` |
| LevelGen.SlotCount | services/geminiService.ts:121 | `for (i = 0; i < n; i++)` with a real bound runs ceil(n) times |
| LevelGen.PlaceObstacles | services/geminiService.ts:121-152 | the placement loop builds exactly the slot-by-slot accepted obstacles |
| LevelGen.TrySlot | services/geminiService.ts:122-151 | the attempt loop returns exactly the first acceptable candidate among at most twenty |
| LevelGen.CheckCandidate | services/geminiService.ts:137-144 | an attempt is accepted iff it is clear of the centre and overlaps no placed obstacle |
| LevelGen.OverlapsAny | services/geminiService.ts:139-143 | the scan finds an overlap iff some placed obstacle is closer than the sum of radii |
| LevelGen.ExtendWellPlaced | services/geminiService.ts:137-151 | appending an accepted obstacle keeps the placed list well placed |
| LevelGen.PlacedWell | services/geminiService.ts:115-152 | the accepted obstacles are clear of the centre by 150 + r, pairwise non-overlapping, inside the canvas, in slot order, at most one per slot |
| LevelGen.ObstacleSlots | services/geminiService.ts:111 | a boss level makes 2 to 5 obstacle slots and any other level 6 to 12 |
| LevelGen.IcePatchOf | services/geminiService.ts:155-166 | the patch built from one pass's draws: its level and index, radii in [30, 80], the centre at least a radius inside every canvas edge, rotation in [0, pi) |
| LevelGen.PlaceIcePatches | services/geminiService.ts:155-166 | the loop makes one patch per pass, and patch i is exactly the patch built from the i-th draws |
| LevelGen.GenerateLevel | services/geminiService.ts:45-231 | the configuration carries the level's classification, speed, spawn interval, composition and boss line; a factory level takes the grid and no ice; any other level takes the placed obstacles, no loot and ceil(n) ice patches, patch i built from the i-th ice draws |
| Engine.BossCountZero | components/GameCanvas.tsx:1310 | `some(e => e.type.startsWith('boss'))` is false exactly when the boss count is zero |
| Engine.Damaged | components/GameCanvas.tsx:344-369 | a hit within 1000 ms of the last changes nothing; otherwise a positive shield absorbs it all, else hp drops by the amount, and the hit is stamped; SHIELD is revoked iff the shield crosses to <= 0; game-over iff hp <= 0 after an accepted hit; life-lost iff game-over and lives > 0 |
| Engine.HitThenGrace | components/GameCanvas.tsx:345-359 | a second hit inside the grace window of an accepted hit changes nothing and signals nothing |
| Engine.ShieldBreaksOnce | components/GameCanvas.tsx:347-355 | after the hit that revokes SHIELD no later hit revokes it again, and the next accepted hit lands on hp |
| Engine.DamagedKeepsValid | components/GameCanvas.tsx:344-359 | a non-negative hit keeps the shield within its charge and never raises hp or shield |
| Engine.ShieldAbsorbsThreeHits | components/GameCanvas.tsx:347-353 | a full shield takes three hits of 1 with hp untouched, and only the third revokes SHIELD |
| Engine.SyncShield | components/GameCanvas.tsx:196-204 | SHIELD held with no charge grants 3/3; held with a charge leaves the player alone; absent clears both to 0 |
| Engine.SyncShieldIdempotent | components/GameCanvas.tsx:196-204 | a second shield sync with the same inventory changes nothing, and the shield stays valid |
| Engine.OfKind | components/GameCanvas.tsx:209-210 | the filter keeps only helpers of the kind, all from the list |
| Engine.Fit | components/GameCanvas.tsx:212-241 | the pop and push loops leave exactly n helpers: the first n, or all of them padded with fresh full-hp helpers |
| Engine.ReconciledMatchesInventory | components/GameCanvas.tsx:206-242 | after the sync there are as many RANGE (MELEE) helpers as HELPER_RANGE (HELPER_MELEE) entries, and the survivors of each kind are the earliest, in order |
| Engine.ReconciledIdempotent | components/GameCanvas.tsx:206-242 | re-running the sync with an unchanged inventory changes nothing |
| Engine.ReconciledOfSplit | components/GameCanvas.tsx:206-242 | ranged helpers then melee helpers, as many as the inventory asks for, are already reconciled |
| Engine.Synced | components/GameCanvas.tsx:195-243 | the sync changes only the shield fields and the helper list, as stated above, and keeps the state invariant |
| Engine.AfterKill | components/GameCanvas.tsx:374-385 | the kill removes exactly the enemy at the index; a boss kill adds 5000 and clears the boss reference with the kill count unchanged; any other kill adds 100 and one kill; nothing else changes |
| Engine.AfterKillKeepsValid | components/GameCanvas.tsx:374-385 | a kill keeps the invariant (the boss reference is set iff one boss is on the field) and shortens the enemy list by one |
| Engine.Regenerated | components/GameCanvas.tsx:387-395 | without REGEN or inside the interval nothing changes; otherwise the regen clock is stamped, hp rises by exactly one when 0 < hp < maxHp and stays put otherwise; the shield invariant is kept |
| Engine.RegenOncePerInterval | components/GameCanvas.tsx:387-395 | after a heal, a second tick within the interval changes nothing |
| Engine.RegenNeverOverheals | components/GameCanvas.tsx:387-395 | over any run of frames regen never lifts hp past the maximum and never revives a player at zero hp |
| Engine.BossFor | components/GameCanvas.tsx:406-446 | the elf on 14, the gum boss on 21, Santa on 28, the bells boss otherwise; at full hp, above the top edge at the centre column, with attack range 1000 |
| Engine.WithBoss | components/GameCanvas.tsx:405-450 | a boss is appended and the reference set exactly on a boss level with no boss and no kills; otherwise nothing changes |
| Engine.WithBossOnce | components/GameCanvas.tsx:405-450 | the spawn keeps the invariant, never puts a second boss on the field, and a second frame spawns nothing |
| Engine.SweepPartitions | components/GameCanvas.tsx:544-553 | every pickup is collected, expires or survives; survivors are exactly the untouched unexpired pickups, in their order |
| Engine.Swept | components/GameCanvas.tsx:544-553 | the sweep changes only the pickup list, grants the touched kinds, last pickup first, and keeps the state invariant |
| Engine.FireCooldown | components/GameCanvas.tsx:556-557 | the cooldown is positive and at most the base 400 ms, and shorter than that exactly when RAPID_FIRE is held |
| Engine.ShotCount | components/GameCanvas.tsx:578 | a volley has one or three shots, three exactly when TRIPLE_SHOT is held |
| Engine.RapidFireNeverDelays | components/GameCanvas.tsx:556-557 | adding RAPID_FIRE never stops a volley that would have gone out and never lengthens the cooldown |
| Engine.VolleyShape | components/GameCanvas.tsx:556-583 | a firing frame with TRIPLE_SHOT throws at -0.2, 0, +0.2; without it, one straight shot; a frame that does not fire throws nothing and changes nothing |
| Engine.Fan | components/GameCanvas.tsx:578-583 | a triple volley aims at -0.2, 0 and +0.2 around the target; a single shot aims straight at it |
| Engine.Fired | components/GameCanvas.tsx:556-603 | when not frozen, off cooldown and with a target, the volley goes out and the shot clock is stamped; otherwise nothing changes; the state invariant is kept |
| Engine.TargetExists | components/GameCanvas.tsx:559-574 | under the invariant a target exists iff any enemy is on the field |
| Engine.FireRuleSurvivesPruning | components/GameCanvas.tsx:556-578 | the level-complete pruning never changes the fire cooldown or the shot count |
| Engine.MinionType | components/GameCanvas.tsx:713-729 | never a boss; 'rush' gives snowmen; 'range' and 'mixed' give bad_kid exactly above 0.3 and 0.6; in chaos, a narwhal exactly above 0.9 past level 10, a reindeer exactly above 0.85 otherwise, a yeti exactly in (0.7, 0.85] past level 7 unless level 8 already has one, a bad_kid exactly in (0.5, 0.7] or in (0.7, 0.85] up to level 7, and a snowman exactly at or below 0.5 or in (0.7, 0.85] on level 8 once a yeti has spawned |
| Engine.SpawnRun | components/GameCanvas.tsx:713-731 | a run of spawns yields one type per draw |
| Engine.Level8YetiBound | components/GameCanvas.tsx:720-731 | on level 8 a run of spawns holds at most one yeti, none once one has spawned |
| Engine.Level8AtMostOneYeti | components/GameCanvas.tsx:720-731 | on level 8 at most one abominable spawns, however many spawns there are |
| Engine.MinionChosen | components/GameCanvas.tsx:713-731 | the type is the selected one, the yeti counter rises exactly for a yeti, and the state invariant is kept |
| Engine.BadKidCooldown | components/GameCanvas.tsx:1280-1281 | the cooldown is never below 500 ms, at most 2000 ms from level 1 on, and 500 ms from level 16 on |
| Engine.BadKidCooldownMonotone | components/GameCanvas.tsx:1280-1281 | the cooldown never grows with the level |
| Engine.RestoreHp | components/GameCanvas.tsx:313-315 | heal one point up to the maximum, never past it, never down |
| Engine.LoadedItems | components/GameCanvas.tsx:291-303 | one persistent pickup per authored loot, in order, stamped with the load time |
| Engine.LevelLoaded | components/GameCanvas.tsx:286-321 | the load clears enemies and the boss, places the authored loot, sets maxHp to 3 plus the VITALITY count, heals one point, clears freeze and hit stamp and the counters, changes nothing else, and keeps the state invariant |
| Engine.LevelLoadedAgrees | components/GameCanvas.tsx:311-312 | a load keeps the invariant, and its maxHp agrees with the session's when that tracks VITALITY |
| Engine.LoadedItemsPersist | components/GameCanvas.tsx:544-553 | an authored pickup never times out: only touching it removes it |
| Engine.LevelDone | components/GameCanvas.tsx:1309-1319 | a non-boss level completes iff kills >= 10 + (level - 1) x 5; a boss level completes only with no boss and an empty field; `SimulationState.Completed` applies it to the current refs |
| Engine.BossLevelDoneIffClear | components/GameCanvas.tsx:1309-1313 | under the invariant a boss level completes exactly when the field is empty |
| Engine.BossKillCompletesLevel | components/GameCanvas.tsx:1309-1313 | killing the boss when it is the only enemy left completes a boss level, whichever boss and at whatever hp; before the kill the level is not complete |
| Engine.HelperDied | components/GameCanvas.tsx:690-694 | the dead helper is spliced out, its power-up kind is revoked once, and the state invariant is kept |
| Engine.HelperDeathThenSync | components/GameCanvas.tsx:690-694 | after a helper death revokes its power-up, the next sync leaves the remaining helpers as they are |
| Engine.NewGame | components/GameCanvas.tsx:246-279 | a new game starts at full hp of 3 plus the VITALITY count, no shield, empty collections and zero counters, the hit stamp at 0 and the regen and shot clocks at the start time, and satisfies the invariant |
| Engine.SimulationState.constructor | components/GameCanvas.tsx:141-157 | the refs start as the initial player with hp 3/3 and empty collections, which satisfies the invariant |
| Engine.SimulationState.ResetGame | components/GameCanvas.tsx:246-279 | `initGame` plus the MENU score reset leaves exactly the new-game state, which satisfies the invariant |
| Engine.SimulationState.TakeDamage | components/GameCanvas.tsx:344-369 | the in-place hit updates the player and raises the signals exactly as the hit step does, and touches nothing else; a non-negative hit keeps the invariant |
| Engine.SimulationState.SyncPowerups | components/GameCanvas.tsx:195-243 | the in-place sync produces exactly the sync step and keeps the invariant |
| Engine.SimulationState.FitHelpers | components/GameCanvas.tsx:212-241 | the pop loop and the push loop produce exactly the fitted helper list |
| Engine.SimulationState.KillEnemy | components/GameCanvas.tsx:374-385 | the in-place kill produces exactly the kill step and keeps the invariant |
| Engine.SimulationState.Regenerate | components/GameCanvas.tsx:387-395 | the in-place regen produces exactly the regen step, touches nothing else and keeps the invariant |
| Engine.SimulationState.SpawnBoss | components/GameCanvas.tsx:405-450 | the in-place spawn produces exactly the boss-spawn step and keeps the invariant |
| Engine.SimulationState.SweepPickups | components/GameCanvas.tsx:544-553 | the backward splice loop produces exactly the sweep step and grants the collected kinds, keeping the invariant |
| Engine.SimulationState.AutoFire | components/GameCanvas.tsx:556-603 | the in-place auto-throw produces exactly the fire step and the volley's angle offsets, keeping the invariant |
| Engine.SimulationState.ChooseMinion | components/GameCanvas.tsx:713-731 | the in-place selection produces exactly the minion step and keeps the invariant |
| Engine.SimulationState.LoadLevel | components/GameCanvas.tsx:286-321 | the in-place partial reset, with its loop over the authored loot, produces exactly the level-load step and keeps the invariant |
| Engine.SimulationState.HelperDies | components/GameCanvas.tsx:690-694 | the in-place splice produces exactly the helper-death step and keeps the invariant |

## Left out

- Rendering (`draw` and every canvas call) and the JSX of the session controller: presentation only.
- Mouse, touch and keyboard handlers: DOM input.
- The `requestAnimationFrame` loop, React effects and timers: scheduling. Each modelled step is one call made by that loop.
- Player movement, ice sliding and friction, enemy AI steering, helper AI, projectile motion, bounces and collisions: floating-point geometry. Contact between the player and a pickup is a predicate parameter.
- Minion positions, edge choice, speeds, colours and hit points, and the one-or-two spawn count. Only the type choice is modelled.
- World pickup spawning during play. The model covers authored pickups and the sweep of all pickups.
- The freeze thaw after `FREEZE_DURATION`: it belongs to the lightning projectile, which is not modelled.
- Helper ids and spawn positions, pickup ids, and `playerRef`'s position, velocity and drag fields: they are used only by the geometry left out above.
- The health, score and progress observer callbacks: they only mirror the modelled fields into the session controller.
- Sound cues (`services/soundService.ts`) and the background music: audio output.
- `localStorage` loading and saving of the leaderboard: I/O. The `date` stamp of an entry is a parameter.
- The theme name and description of a level (`services/geminiService.ts:68-73`, `170-189`): display text, not gameplay logic. They depend only on the level; `LevelGen.BossMessage` covers the boss's spoken line only.
- `getGameOverMessage` (`services/geminiService.ts:233-236`): a random choice of display text.
- Every `Math.random()` draw is an input, not a random source. The model proves properties for all draws in [0, 1).
- JavaScript's IEEE doubles are modelled as exact reals. No rounding is modelled.
- Session.RemovePowerup: for the untyped call the contract states how many entries go and that the rest keep their order, not which entries go. The exact splice of each round is stated by Session.RemovalRound.
- Leaderboard.SubmitScore: the contract states sortedness, length and that the board holds only old entries and the new one. That the cut keeps the highest scores is stated separately by Leaderboard.SubmitKeepsBest.
- Leaderboard.StoredName: counts Unicode scalar values, not the UTF-16 code units JavaScript's `substring` counts, so a name with characters outside the Basic Multilingual Plane is cut at a different place; strings are sequences of characters in this model.
- Engine.Fan: the per-shot random jitter of up to 0.025 radians either way (`components/GameCanvas.tsx:585`) is not modelled; the offsets are the aim before that jitter, which only feeds the left-out projectile geometry.
- Engine.LevelDone: on a boss level the contract states only the completion condition's consequences. The equivalence with an empty field, under the state invariant, is Engine.BossLevelDoneIffClear.
