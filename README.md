# Breakout game core in Dafny

A model of the game core of `game.js`, a single-file browser breakout game,
with proofs of its rules. The page script keeps one set of mutable globals
(score, lives, level, flags, effect stacks, paddle, balls, bricks, falling
rewards, laser bolts, particles, the rewind history). Here that state is
one object, `Game.World`, whose methods update it in place. The rules those
methods follow are pure functions and lemmas in the modules below.

| module | what it holds |
|---|---|
| `Util` | `clamp` and the other small numeric helpers |
| `Rewards` | the eight reward identities, the UI and applied weight tables, the default weights, the commit rule, the pick list, the cumulative weighted draw, and the live gate a drop passes at spawn and at catch |
| `Entities` | the records (brick, ball, paddle, reward, bolt, particle, effects, snapshot), their invariants, and the one-record rules: stack clamping, the laser cooldown, the speed-multiplier caps, a brick hit, explosion particles, the particle cap |
| `Collide` | `circleRectCollision`, `rectRect` and the approach-side bounce choice of the ball-brick hit |
| `Levels` | `isHappyLevel`, the row count, the layout style, the occupancy grid and the brick records of `buildLevel` |
| `History` | the checkpoint shift of the bounded history, the rewind key's skip to the previous checkpoint, and the rewind scrub as written and with the stale-checkpoint rule |
| `Flow` | the frame dispatch of `tick` and the ball-lost branch, reduced to the lives counter |
| `Game` | the `World` class, its invariant `Valid()`, and the snapshot transformers (`Damaged`, `Rewarded`, `Cleared`, `Served`, ...) its methods are specified by |

Geometry is exact `real` arithmetic. `Math.random`, `Math.sin`, `Math.cos`
and `Math.hypot` are parameters: a `Trig` record of functions, per-ball
angle functions, and a `LevelRandom` record of per-cell draws. The stage
size is fixed when the `World` is constructed.

Every state-changing method states its whole new state. Most do it as
`play == F(old(play), ...)`, where `F` is a module-level function whose own
contract says what the source promises. The invariant `Valid()` covers:

- the history invariant: ordered checkpoints inside the history, a rewind target inside the history, and every stored snapshot well-formed;
- the play invariant: lives never negative, stacks within 0..9, speed multipliers within their caps, and brick hit points consistent with `alive`;
- the rule that the level-clear wait and a rewind never overlap.

The World follows the corrected rule of both rows under "## Findings": no
frame plays once the lives are spent, and a rewind pop drops the
checkpoints past the new end of the history. The code as written is
modelled beside it, in `Flow` and `History`.

`TablesOk()` is the separate invariant of the weight tables. It is kept
only by the methods that touch the tables.

Some behaviour of the code is easy to misread. The model follows the code
in each case:

- A pierce stack stops the bounce off a brick, but the ball still damages only one brick per frame, because the brick loop ends with `break` either way (game.js:1524-1541).
- `resetAll` clears score, lives, level, history and checkpoints before it validates the weights. A rejected commit therefore leaves a reset counter state with an empty history and the old bricks (game.js:674-691).
- `resetToServe` does not restore the paddle width. An `expand` lasts until the next `buildLevel` (game.js:638-672, game.js:1262).
- A snapshot does not hold the speed ramp. A rewind leaves `speedRampT` and `speedRampMul` as they are (game.js:521-534).
- `buildLevel` adds the frame time `dt` to the speed ramp while play is running, but `dt` is declared only inside `tick` (game.js:1119-1122, game.js:1277). Called with a ball in flight it ends in a ReferenceError after restarting the brick uid counter, and lays no brick. This happens when `resetAll` runs mid-play: the counters are reset, the history is cleared and the tables are committed, but the old bricks and balls stay (`Game.World.ResetAll`). At start-up no ball exists, so the build completes. After a level clear the balls rest on the paddle, but neither the launch button (game.js:847-850) nor `launch` (game.js:885-886) looks at the level-clear wait: a ball launched during the wait makes the next `proceedNextLevel` fail the same way. The level number still goes up but no brick is laid, so the next frame's clear test finds no brick alive and that level is skipped (`Game.World.ProceedNextLevel`, `Game.World.Launch`).
- At start-up the result of `applyPowerSettingsFromUI` is ignored. With the default tables it always commits (game.js:1777-1779, `Game.DefaultsWithinHundred`).

## Model

| member | source | states |
|---|---|---|
| Util.Clamp | game.js:181 | the result lies in [lo, hi] when lo <= hi; it is v inside the interval and the nearer bound outside; when hi < lo the lower bound wins, as `Math.max(a, Math.min(b, v))` makes it |
| Util.ClampInt | game.js:390 | the integer clamp of a weight input: in range when lo <= hi, v when v is already in range, the nearer bound otherwise |
| Rewards.PowerTypesComplete | game.js:308-317 | every identity is in `POWER_TYPES`; the real powers are exactly the identities other than `none`, in list order, with `none` last |
| Rewards.AllEnabled | game.js:320 | the initial enable table enables every identity |
| Rewards.DefaultChances | game.js:328-333 | each of the seven real powers gets floor(100/8) = 12 and `none` gets the remainder 16 |
| Rewards.DefaultChancesTotal | game.js:328-333 | the default weights total exactly 100 |
| Rewards.CommitEnabled | game.js:426-434 | the applied enable table holds every identity: `none` is enabled and a real power copies its UI flag |
| Rewards.CommitChances | game.js:426-434 | the applied weight table holds every identity: `none` gets the remainder, a disabled power 0, an enabled power its UI weight |
| Rewards.CommitSumOverReal | game.js:426-434 | over the real powers, the committed weights add up to the UI sum of the enabled powers' weights |
| Rewards.CommitTotalsHundred | game.js:418-434 | after a commit the applied weights total exactly 100, `none` holds 100 minus the enabled real sum, disabled powers hold 0 and enabled powers copy their UI weight |
| Rewards.PickList | game.js:438-444 | an identity is in the pick list iff it is `none` with positive applied weight or an enabled power with positive applied weight; every listed weight is positive |
| Rewards.PickListWeight | game.js:438-444 | when only disabled powers with weight 0 can be dropped, the filter keeps the total weight |
| Rewards.CommittedPickListTotalsHundred | game.js:410-444 | right after a commit the pick list's total weight is exactly 100 |
| Rewards.BandUnique | game.js:450-454 | with non-negative weights a sample lies in at most one element's band of the cumulative draw |
| Rewards.BandExists | game.js:450-454 | every sample between 0 and a prefix total lies in the band of some element of that prefix |
| Rewards.BandWidth | game.js:452 | each element's band is as wide as that element's weight |
| Rewards.ScanBands | game.js:450-455 | the subtracting scan returns a list member; for a sample within the total it returns the element whose band holds it, so the fallback to the last element is never what decides |
| Rewards.WeightedPick | game.js:446-456 | the draw is null iff the list's total weight is <= 0; otherwise it returns a list member, and for `u` in [0, 1) exactly the element whose band holds `u * total` |
| Rewards.RolledDropPassesGateAfterCommit | game.js:1004-1005 | a real power drawn from the committed pick list passes the live UI gate as long as the UI is unchanged since the commit; only a later UI edit can cancel it |
| Entities.AnyBallAlive | game.js:1448 | true iff some ball is alive |
| Entities.AnyBallMoving | game.js:515 | true iff some ball is alive and not stuck; it implies some ball is alive |
| Entities.AnyBrickAlive | game.js:1546 | true iff some brick is alive |
| Entities.MakeBall | game.js:497-503 | a new ball is alive, stuck, with no pending sticky release and a speed multiplier within its caps |
| Entities.SyncBall | game.js:816-823 | an alive stuck ball is centred on the paddle, resting 2 px above it; any other ball is unchanged; only the position moves |
| Entities.FreezeBall | game.js:154-159 | an alive ball becomes stuck with its sticky release cleared; a dead ball is unchanged; nothing else changes |
| Entities.RestoreFrozen | game.js:1317-1327 | the restored frame is the snapshot with running and paused off and every ball frozen and synced on the snapshot's paddle; balls keep their alive flags and the snapshot invariant is kept |
| Entities.AddStack | game.js:995-997 | the stack always ends in [0, 9]: the plain sum when it fits, 9 above, 0 below |
| Entities.LaserCooldown | game.js:1105-1108 | the cooldown lies in [0.26, 0.55]: 0.55 with no laser stack, 0.26 from eight stacks on |
| Entities.LaserCooldownMonotone | game.js:1105-1108 | more laser stacks never lengthen the cooldown |
| Entities.BounceMul | game.js:1501 | a paddle bounce never lifts the multiplier past 2.2, adds exactly 0.01 below the cap, and keeps the 0.70 floor |
| Entities.SlowMul | game.js:1060 | `slow` never takes the multiplier below 0.70, keeps it <= 2.2, and never speeds a ball up except to reach the floor |
| Entities.BouncesStayInRange | game.js:1501 | any number of paddle bounces from an in-range multiplier stays within [0.70, 2.2] and never lowers it |
| Entities.SpeedUp | game.js:863 | the speed-up button never goes past 2.2, never lowers an in-range speed, and keeps the 0.65 floor |
| Entities.SpeedDown | game.js:868 | the speed-down button never goes below 0.65, never raises an in-range speed, and keeps the 2.2 cap |
| Entities.HitBrick | game.js:1510-1514 | a hit takes exactly one hit point; the brick dies exactly when it had one left; nothing else changes and the brick invariant is kept |
| Entities.HitsLifetime | game.js:1507-1514 | after n hits a brick has max(0, hp - n) hit points, is alive iff n < hp, and is otherwise unchanged (a dead brick is skipped) |
| Entities.BallPointsForBreak | game.js:1510-1515 | breaking a brick with ball hits earns 10 points per hit point plus 45 |
| Entities.ExplosionParticles | game.js:956-993 | an explosion adds one shock wave, then 24 dots for a normal brick, 38 shards for a hard one and 30 rings for a mover |
| Entities.CapParticles | game.js:1445 | the cap keeps the newest min(n, 1400) particles |
| Collide.CentreInsideCollides | game.js:919-925 | a circle whose centre lies in the rectangle collides with it, whatever its radius |
| Collide.RectRectSymmetric | game.js:926-928 | rectangle overlap is symmetric, and a rectangle with positive size overlaps itself |
| Collide.Bounce | game.js:1525-1539 | the bounce negates exactly one velocity component |
| Collide.BounceSendsBallBack | game.js:1528-1535 | a ball that came from the left, right, top or bottom of the brick, moving towards it, leaves moving away from that side |
| Levels.Rows | game.js:1124 | the grid has 6 to 12 rows: 6 on level 1 and 12 from level 11 on |
| Levels.RowsGrowSlowly | game.js:1124 | the row count never shrinks and grows by at most one from a level to the next |
| Levels.IsHappyLevel | game.js:1093-1103 | the walk in steps 2, 3, 2, ... from level 3 ends and says happy iff lv <= 3 or (lv - 3) % 5 is 0 or 2 |
| Levels.StepKeepsPhase | game.js:1098-1101 | each step of the walk moves its position to the next stop of the cadence modulo 5 |
| Levels.NotHappyBetweenStops | game.js:1098-1102 | a level strictly between two stops of the walk is not happy |
| Levels.HappyGaps | game.js:1093-1103 | after level 3 two happy levels are never adjacent, and the gaps between them alternate between 2 and 3 |
| Levels.StyleOf | game.js:1135-1142 | a level is happy iff the cadence says so; otherwise its layout is `styles[(lv - 1) % 7]` |
| Levels.StylePeriod | game.js:1141-1142 | from level 4 on the layout sequence repeats every 35 levels |
| Levels.HappyChannel | game.js:1152-1176 | the happy layout keeps columns 4-6 clear below row 1, leaves the last row empty, and fills cell (1, 0) |
| Levels.IslandSeeds | game.js:1195 | a level has 3 to 6 island seeds |
| Levels.IslandsCellLoop | game.js:1195-1205 | the seed loop with its early exit reports a hit iff the cell lies within some seed's radius |
| Levels.HoleRemovesBrick | game.js:1211-1214 | a fired hole draw, or a fired thinning draw in rows 1-2, clears a non-happy cell; otherwise the cell follows its shape |
| Levels.BuildOccupancy | game.js:1145-1219 | the grid has the level's rows of 11 cells, row 0 is empty, and every other cell is on iff the layout rule says so |
| Levels.KindFor | game.js:1228-1231 | a roll below 0.03 makes a mover; a roll of at least 0.42 (0.26 on a happy level) makes a normal brick |
| Levels.HpFor | game.js:1233-1235 | starting hit points are 1 to 4: exactly 1 for a normal brick, at most 3 for a mover, at most 2 before level 6 |
| Levels.GridCount | game.js:1224-1226 | rows 1 .. r-1 hold at most (r - 1) * 11 set cells |
| Levels.LevelGrid | game.js:1145-1219 | the level's grid as a value: `Rows(lv)` rows of 11 cells with row 0 empty |
| Levels.LevelOccupancy | game.js:1135-1219 | the happy test, the style choice and the occupancy loop together produce exactly the level's grid `LevelGrid`; on a happy level cell (1, 0) is set, so the level has a brick |
| Levels.DropFor | game.js:1239-1244 | a brick's drop is the weighted draw of its sample over the pick list: `none` for an empty list, a list member whenever the list has positive weight |
| Levels.RowCells | game.js:1225-1226 | the columns of a row's set cells, one per set cell, each naming a set cell |
| Levels.RowCellsExact | game.js:1225-1226 | those columns come left to right and include every set cell |
| Levels.GridCells | game.js:1224-1226 | the set cells of rows 1 .. r-1 as `buildLevel` visits them, one per set cell, each on a playable row and set in the grid |
| Levels.GridCellsOrdered | game.js:1224-1226 | the visit order is row by row, left to right |
| Levels.GridCellsCover | game.js:1224-1226 | every set cell of rows 1 .. r-1 is visited |
| Levels.CellBrickFresh | game.js:1227-1255 | the record made for a cell on a playable row is fresh: alive, hp = maxHp = the type's hit points, still unless a mover, with a drop from the pick list |
| Levels.MakeBrick | game.js:1227-1255 | the record of cell (r, c): the given uid, the kind rolled by `KindFor` from the cell's type roll, its hit points, the cell's x and y, a sideways speed only for a mover, and the drop `DropFor` draws from the cell's sample over the applied pick list; the brick is fresh |
| Levels.LayRow | game.js:1225-1256 | one row appends the records of its set cells, left to right, with the uids that continue the sequence, and keeps the earlier bricks |
| Levels.BuildBricks | game.js:1221-1257 | brick i is the record of the i-th set cell of the row-by-row scan, with uid i + 1, its rolled kind and its drawn drop; so one brick per set cell, at most (rows - 1) * 11, every one fresh |
| Levels.GridCountPositive | game.js:1224-1226 | a grid whose cell (1, 0) is set yields at least one brick |
| History.ShiftCheckpoints | game.js:544-546 | an index survives the shift iff it was at least k; it moves down by k, and indices into the dropped frames are removed rather than clamped |
| History.ShiftKeepsOrder | game.js:544-546 | the shift keeps the checkpoints strictly increasing |
| History.ShiftKeepsBelow | game.js:540-546 | after dropping k frames the shifted checkpoints all name frames of the shorter history |
| History.ShiftTarget | game.js:548-551 | a rewind target stays present or absent, moves down by k, and is clamped at 0 |
| History.ShiftTargetInside | game.js:548-551 | a target inside the history stays inside the trimmed history |
| History.DropStale | game.js:1333 | the corrected scrub keeps exactly the checkpoints below the new history length |
| History.DropStaleBelow | game.js:1333 | what the corrected scrub keeps names frames of the shortened history |
| History.DropStaleNothing | game.js:1313-1335 | when every checkpoint is already inside the history, the corrected scrub changes nothing |
| History.DropStaleKeepsOrder | game.js:1333 | the corrected scrub keeps the checkpoints strictly increasing |
| History.ScrubAsWritten | game.js:1313-1335 | the scrub loop as written, run to its target: the history is cut to target + 1 frames (or left alone when already that short) and the checkpoints are exactly what they were |
| History.Scrub | game.js:1313-1335 | the corrected scrub cuts the history to the same length and keeps exactly the checkpoints below target + 1 |
| History.DropStaleTwice | game.js:1333 | dropping stale checkpoints after one pop and then after a later pop is the same as dropping them once for the shorter history |
| History.ScrubKeepsBelow | game.js:1313-1335 | after the corrected scrub every checkpoint names a frame of the history it leaves |
| History.LastIndexOf | game.js:724 | `lastIndexOf`: the last position holding the value, or -1 exactly when it is absent |
| History.LastAtMost | game.js:725-729 | the last position holding a checkpoint at or before the value, or -1 exactly when every checkpoint is later |
| History.SkipIndex | game.js:724-730 | the skip's search starts from the last occurrence of the target, else from the last checkpoint at or before it, else from 0, and always names a checkpoint position |
| History.SkipGoesBack | game.js:719-731 | over ordered checkpoints a skip lands on a checkpoint no later than the current target, and strictly earlier unless the target is already the first |
| History.StaleCheckpointAfterSkip | game.js:1313-1335 | with checkpoints [0, 100] and any history of more than 101 frames, skipping back and running `ScrubAsWritten` leaves one frame while checkpoint 100 points past it; `Scrub` leaves one frame and exactly [0] |
| Flow.Frame | game.js:1276-1302 | the corrected frame dispatch plays a frame only with a life left, and otherwise agrees with `tick` |
| Flow.LostBallBranch | game.js:1448-1462 | with a ball alive nothing changes; otherwise one life is taken and a ball is served again iff some life remains |
| Flow.LivesGoNegativeAsWritten | game.js:1448-1459 | as written, one life and no ball reaches -1 lives after two frames |
| Flow.LivesNeverNegative | game.js:1448-1459 | under the corrected dispatch the lives never go below 0 over any number of frames, and losing the ball costs exactly one life |
| Flow.PlayWithBallFixed | game.js:1448 | while a ball is alive the ball-lost branch changes nothing, frame after frame |
| Flow.PlayOver | game.js:1453-1458 | once the lives are spent, further frames change nothing |
| Game.BoltPair | game.js:1072-1080 | a laser shot adds two live bolts flying up from 2 px above the paddle, the left one before the right one, both within the paddle's width |
| Game.DropFrom | game.js:1010-1014 | a spawned reward carries the brick's drop, is alive with radius 12, starts inside the brick, and falls faster than 160 px/s |
| Game.Celebration | game.js:118-134 | the clear celebration adds 120 ring or dot particles, as the per-particle draw says, then one shock wave |
| Game.LaunchBall | game.js:889-907 | only an alive stuck ball changes: it is released moving up, along its sticky angle and speed when both are pending (then cleared), else at 380 along the drawn angle; nothing but the release fields changes |
| Game.BoltBox | game.js:1401 | a bolt's hit box has the bolt's size and ends at the bolt's y |
| Game.WornTrans | game.js:1402-1411 | brick wear is reflexive and transitive, so hits over several frames only wear bricks down |
| Game.WornNeverRevives | game.js:1507 | under wear a dead brick stays as it was, and no brick gains hit points or changes identity or type |
| Game.Deflected | game.js:1525-1539 | a bounce off a brick negates exactly one velocity component and changes nothing else |
| Game.SplitSource | game.js:1028 | the multi-ball source is the first alive ball, else the first ball, and is absent only when there are no balls |
| Game.FirstAlive | game.js:1028 | `balls.find(b => b.alive)` returns an alive ball of the list |
| Game.SplitBall | game.js:1031-1038 | a split ball is alive, in flight, moving up, at the source's position with the source's speed multiplier, and with no sticky release |
| Game.Exploded | game.js:972-992 | an explosion caps the shake at 0.14 s and 6 px (adding 0.10 s when there is room) and appends the brick type's particles; nothing else changes |
| Game.Dropped | game.js:999-1015 | a broken brick spawns its reward iff its drop passes the live UI gate; otherwise nothing changes |
| Game.Damaged | game.js:1510-1518 | a hit wears the brick by one and scores 10 for a ball or 8 for a bolt; a break adds 45 or 40, the explosion and the gated drop; nothing else changes and the snapshot invariant is kept |
| Game.FirstBoltHit | game.js:1402-1406 | the first alive brick from position k on that the bolt's box overlaps, with none before it; absent iff there is none |
| Game.BoltStepped | game.js:1397-1423 | one bolt's frame: a spent bolt changes nothing; a bolt that hits takes `Damaged` with the bolt's points and is spent; otherwise only that bolt moves; bricks only wear, the score never drops, lives, level, stacks, balls and paddle are kept |
| Game.BoltsStepped | game.js:1396-1424 | the bolt loop as bolt steps in order: bricks only wear, the score never drops, the later bolts are untouched |
| Game.Slowed | game.js:1060 | `slow` applies the floored 0.82 factor to every ball's multiplier and nothing else |
| Game.SplitAdded | game.js:1027-1042 | `multi` adds exactly two split balls after the existing ones when there is a ball, and nothing when there is none |
| Game.Rewarded | game.js:1017-1069 | a reward that fails the live gate changes nothing; otherwise `expand` widens the paddle by 1.35 up to 62% of the field, `multi` adds two balls and sets running, the three stacks go up by one, `life` adds a life and `slow` slows every ball; the snapshot invariant is kept |
| Game.PowerupStepped | game.js:1373-1382 | a live reward falls one step; it is caught iff it touches the paddle and then grants its reward; it stays alive iff it neither is caught nor falls off the field |
| Game.SyncedBalls | game.js:816-823 | every ball is synced on the paddle, keeping the ball invariant |
| Game.FrozenBalls | game.js:153-159 | every ball is frozen, keeping the ball invariant |
| Game.Celebrated | game.js:102-135 | the celebration caps the shake at 0.18 s and 8 px and appends its particles; nothing else changes |
| Game.Cleared | game.js:137-163 | a level clear resets the global speed, stops the run, freezes and syncs the balls (keeping their alive flags, none in flight) and adds the celebration; the snapshot invariant is kept |
| Game.Served | game.js:638-666 | a serve re-centres the paddle 26 px above the bottom, leaves one stuck ball on it, empties rewards, bolts and particles, and resets cooldown, speed, stacks and shake; score, lives, level and bricks are unchanged |
| Game.CommitKeepsTables | game.js:410-436 | an accepted commit keeps the weight-table invariant |
| Game.DefaultsWithinHundred | game.js:1777-1778 | the default tables always pass the start-up commit |
| Game.DefaultTablesOk | game.js:320-335 | the initial tables satisfy the weight-table invariant |
| Game.World.GameplayRunning | game.js:512-516 | true iff some life is left, the game is neither paused nor rewinding, and some alive ball is in flight |
| Game.World.constructor | game.js:461-487 | the initial globals: score 0, 3 lives, level 1, nothing on the stage, every reward enabled with the default weights in both tables, no history, no rewind and an empty rewind accumulator, no pending level, the speed ramp at 0 with multiplier 1, and the brick uid counter at 1 |
| Game.World.Start | game.js:1777-1779 | the start-up commit followed by `buildLevel(1)`: the weight inputs get the `none` remainder and the tables are committed when the sum allows it, and nothing in them changes otherwise; level 1 is built as `LevelBuilt` says unless a ball is in flight, in which case only the uid counter restarts |
| Game.World.ClampPaddle | game.js:808-810 | the paddle x is clamped to [8, W - w - 8] and so stays 8 px inside the walls when it fits; nothing else changes |
| Game.World.SyncStuckBalls | game.js:816-823 | every stuck ball sits on the paddle; nothing else changes |
| Game.World.FreezeBalls | game.js:153-159 | every alive ball becomes stuck with its sticky release cleared; nothing else changes |
| Game.World.ApplySnapshot | game.js:555-575 | after restoring, the live state is exactly the snapshot |
| Game.World.CaptureSnapshot | game.js:536-553 | the frame is appended; below capacity nothing else changes; on overflow the oldest frames go so that exactly 5400 remain, the checkpoints shift with removal and the target shifts with a clamp at 0 |
| Game.World.PushSnapshot | game.js:537 | the current frame is appended to the history |
| Game.World.TrimOverflow | game.js:539-552 | the overflow is dropped from the front, and the checkpoints and target shift by the same amount |
| Game.World.StartRewind | game.js:594-610 | a rewind starts iff none is running, there is a checkpoint, the secret is enabled and play is running; it then aims at the last checkpoint with an empty accumulator; otherwise nothing changes |
| Game.World.StopRewind | game.js:612-624 | the rewind is off and its accumulator empty |
| Game.World.SkipToPreviousCheckpoint | game.js:719-731 | with two or more checkpoints the target becomes the skip target from the current target, or from the last checkpoint when none is set; otherwise it is unchanged |
| Game.World.UpdateRewind | game.js:1304-1336 | one rewind frame pops one history frame per whole 1/60 s of accumulated time and shows the new last frame; on reaching the target it restores that frame frozen and stops with an empty accumulator, leaving the history and checkpoints `Scrub` gives; enough accumulated time always stops it; the checkpoints are those below the new history length |
| Game.World.ScrubLoop | game.js:1313-1335 | the `while` loop: it spends whole 1/60 s steps, popping and showing frames; when it stops the rewind the history is cut to target + 1, the target frame is restored frozen and the accumulator is emptied |
| Game.World.BeginScrub | game.js:1306-1311 | the frame time is added to the accumulator and a missing target becomes the last checkpoint, or 0 |
| Game.World.ScrubStep | game.js:1313-1334 | one virtual frame spends 1/60 s: at the target it restores the target frame frozen, stops with an empty accumulator and keeps history and checkpoints; otherwise it pops one frame, drops the checkpoints past the new end and shows the new last frame |
| Game.World.RestoreFrozenFrame | game.js:1317-1327 | the live state becomes the frame with its balls frozen on the paddle, running and paused off |
| Game.World.DropLastFrame | game.js:1333 | the last frame is popped and, in the corrected rule, the checkpoints past the new end are dropped |
| Game.World.ResetToServe | game.js:638-672 | the play state is served, the speed ramp reset, and the serve frame is appended as a new checkpoint at the end of the history |
| Game.World.ServeState | game.js:639-666 | the play state is served and the speed ramp reset |
| Game.World.ResetSpeeds | game.js:1259-1261 | the global speed and the speed ramp are reset; nothing else changes |
| Game.World.BuildLevel | game.js:1113-1270 | the uid counter restarts at 1; while play is running the build ends there (the ramp update reads an undeclared `dt`) and nothing else changes; otherwise the state is `LevelBuilt`: the bricks are the records of the set cells of `LevelGrid` in scan order, the paddle takes the level's width, the ball is served, the speeds reset, and the history holds only the serve frame as checkpoint 0; score, lives, level and pause are kept |
| Game.LevelPaddleW | game.js:1262 | the level's paddle width lies between 90 and 62% of the stage when that range is non-empty, and is the base width itself below level 7 when the base is in range |
| Game.World.FirstServe | game.js:1262-1268 | the paddle width is set, the history cleared, and the serve frame becomes checkpoint 0 |
| Game.World.LayBricks | game.js:1114-1257 | the bricks are replaced by the records of the set cells of the level's grid, in scan order, with rolled kinds and drawn drops, and the uid counter sits right after them; nothing else in the play state changes |
| Game.World.ResetAll | game.js:674-696 | the counters are reset and the history cleared, then the commit runs: a rejected commit changes neither table, an accepted one writes the `none` remainder and commits both; level 1 is built iff the commit was accepted and no ball was in flight; an accepted commit with a ball in flight restarts only the uid counter and keeps the old bricks and balls |
| Game.World.ResetCounters | game.js:675-684 | score 0, 3 lives, level 1, unpaused, no pending level and an empty history |
| Game.World.HandleLevelClear | game.js:137-163 | a level clear waits for the next level (the current one plus one), resets the speed ramp, stops play and celebrates; play is no longer running |
| Game.World.StopForClear | game.js:142-160 | the play state is the cleared state and no ball is in flight |
| Game.World.SpawnClearCelebration | game.js:102-135 | the celebration's shake and particles are added |
| Game.World.CheckLevelClear | game.js:1546-1550 | a level clear happens iff no clear is pending and no brick is alive; then the play state is `Cleared` (stopped, balls frozen on the paddle, celebration) with the speeds reset and the next level pending; otherwise nothing changes |
| Game.World.ProceedNextLevel | game.js:165-176 | without a pending clear nothing changes, the uid counter, speeds and rewind target included; with one, the wait ends and the pending level (else the next) becomes the level and is built as `LevelBuilt` says, from the old state with that level, or, with a ball in flight, only the uid counter restarts |
| Game.World.TogglePause | game.js:872-880 | the pause flag flips and nothing else changes |
| Game.World.SetSecretEnabled | game.js:580-583 | the secret flag is the given value |
| Game.World.PressSpeedUp | game.js:861-865 | ignored while rewinding; otherwise the global speed goes up by 0.12 up to 2.2 |
| Game.World.PressSpeedDown | game.js:866-870 | ignored while rewinding; otherwise the global speed goes down by 0.12 down to 0.65 |
| Game.World.Launch | game.js:885-914 | ignored when paused, rewinding or out of lives; otherwise every stuck ball is released, running is set iff it was set or some ball was stuck, and a game with some ball alive is then running |
| Game.World.LaunchBalls | game.js:888-908 | every ball is launched by the release rule, no alive ball stays stuck, and the flag reports whether some alive ball was stuck |
| Game.World.AddEffectStack | game.js:995-997 | only the named stack changes, by the clamped addition, and all stacks stay in [0, 9] |
| Game.World.SpawnPowerupFixed | game.js:999-1015 | the broken brick's reward is spawned iff its drop passes the live UI gate |
| Game.World.ApplyPowerup | game.js:1017-1069 | the caught reward is granted iff it passes the live UI gate, with the effect `Rewarded` states |
| Game.World.GrantReward | game.js:1022-1067 | a reward that passed the gate takes the effect `Rewarded` states |
| Game.World.SplitBalls | game.js:1027-1042 | with some ball, two split balls are added and play runs; with none nothing changes |
| Game.World.SlowBalls | game.js:1059-1062 | every ball is slowed with the 0.70 floor; nothing else changes |
| Game.World.StepPowerup | game.js:1373-1382 | the reward at index j falls, is caught or lost, and a catch grants its reward, as `PowerupStepped` states |
| Game.World.MoveReward | game.js:1375-1381 | a live reward moves one step; it reports whether the paddle caught it and stays alive iff it was neither caught nor fell off |
| Game.World.FireBulletPair | game.js:1072-1080 | with a laser stack two bolts are added; without one nothing changes |
| Game.World.ManualShoot | game.js:1082-1091 | a shot fires iff play is neither paused nor rewinding, there is a laser stack and the cooldown has run out; it then adds two bolts and restarts the cooldown (at least 0.26 s); otherwise nothing changes |
| Game.World.AutoLaser | game.js:1385-1393 | with no laser stack the cooldown is zeroed; otherwise it counts down, and when it runs out two bolts fire and it restarts |
| Game.World.SpawnExplosion | game.js:956-993 | the explosion's shake and particles are added |
| Game.World.DamageBrick | game.js:1510-1518 | the brick takes the hit `Damaged` states, and the snapshot invariant is kept |
| Game.Walled | game.js:1468-1477 | one frame's move and wall bounces change only the position and velocity, keep the speed along each axis, leave the ball inside the side walls when it fits the stage, and never above the ceiling |
| Game.BounceAngle | game.js:1484-1486 | the paddle bounce angle lies within the widest bounce; it is negative iff the ball struck left of the paddle's middle and positive iff right of it, and is the widest angle off either end |
| Game.BounceSpeed | game.js:1487 | the bounce speed is the ball's own speed but at least 320 |
| Game.Bounced | game.js:1482-1501 | a plain paddle bounce lifts the ball half a pixel above the paddle and sends it up with the bounce speed along the bounce angle, its multiplier raised by `BounceMul`; nothing else changes |
| Game.Caught | game.js:1482-1496 | a sticky catch puts the ball at rest on the paddle storing an angle within the widest bounce and a speed of at least 320; velocity and multiplier are unchanged |
| Game.CatchThenLaunch | game.js:1489-1496 | a caught ball, once launched, leaves with exactly the velocity the plain bounce gives, with its stored angle and speed cleared, but without the bounce's multiplier rise |
| Game.BallStep | game.js:1464-1501 | for one ball in flight: it dies iff its moved position is wholly below the stage; it comes to rest iff it is alive, meets the paddle falling and a sticky stack is active; a paddle bounce sends it up; other balls change only by following the paddle; a dead or resting ball changes nothing |
| Game.World.MoveBall | game.js:1464-1501 | the play state becomes `BallStep` at the ball's speed factor (own multiplier times global times ramp); the ball goes on to the bricks iff it is still alive and in flight |
| Game.World.BallHitsBricks | game.js:1506-1542 | the ball hits the first alive brick it touches, and only that one: the play state becomes `Damaged` by a ball hit (one hit point, 10 points, and on a break 45 more, the explosion and the gated drop), and the ball bounces off its approach side unless a pierce stack is active; with no brick touched nothing changes |
| Game.World.StepBolt | game.js:1397-1423 | the play state becomes `BoltStepped`: a live bolt moves up, dies off the top, or hits the first alive brick it overlaps (`Damaged` by a bolt hit: 8 points, 40 more, the explosion and the gated drop on a break) and is spent |
| Game.World.BoltHitsBricks | game.js:1402-1423 | the bolt hits `FirstBoltHit`'s brick: the play state is `Damaged` by a bolt hit with the bolt spent; with none, nothing changes |
| Game.World.StepBolts | game.js:1396-1424 | the play state becomes `BoltsStepped` over every bolt in order, so bricks only wear and the score never drops |
| Game.World.CapParticleCount | game.js:1445 | the particles become the newest min(n, 1400) of them; nothing else changes |
| Game.World.BallLostBranch | game.js:1448-1462 | with a life left and no ball alive one life is taken; with the last life gone play stops, otherwise the state is `Served` from the old one with one life less, the speeds reset and a checkpoint is added; the speeds change in no other case; with a ball alive, or with no life left, nothing changes; it agrees with one frame of `Flow.Play` |
| Game.World.SumRealEnabledChancesUI | game.js:400-408 | the loop sums the UI weights of the enabled real powers |
| Game.World.ApplyPowerSettingsFromUI | game.js:410-436 | the commit is accepted iff the enabled real sum is at most 100; a rejection changes no table; an acceptance writes the remainder into the UI `none` weight and commits the applied tables |
| Game.World.CommitApplied | game.js:426-434 | the loop writes the committed enable and weight tables |
| Game.World.SetChanceUI | game.js:387-393 | a weight input stores `Math.floor` of its value clamped to [0, 100] (the whole number at most the clamped value and within 1 of it), and 0 for a value that is not a finite number; no other weight changes and the table invariant is kept |
| Game.World.SetEnabledUI | game.js:380-381 | a checkbox stores its state in the UI enable table |

## Left out

- DOM, canvas and HUD work (`draw` and its helpers, `renderPowerCheckboxes`, `renderEffectsUI`, `updateHUD`, toasts, the level-clear banner) is not modelled, because it only renders.
- Web Audio (`beep`, `SFX`, the rewind sound) is not modelled, because these are fire-and-forget foreign calls.
- Event wiring, `bindHold`, timers, `requestAnimationFrame` and `performance.now` are not modelled. The handlers' effects are methods: the rewind key's skip, pause, the speed buttons, launch, shoot, reset and the weight inputs. The dispatch of keys to them is not.
- `Math.random`, `Math.sin`, `Math.cos` and `Math.hypot` are parameters, since they are library calls whose values are not fixed.
- Floating-point rounding is not modelled: positions and speeds are exact reals. The ball's own step (move, wall bounces, the fall below the stage, the paddle bounce and the sticky catch) is `Game.BallStep`. Paddle motion, mover-brick motion, particle drag and gravity, and shake decay are not modelled; the modelled rules take the positions they produce as given.
- The widest paddle bounce, `Math.PI * 0.42`, is the parameter `maxBounce` of `Game.World.MoveBall`, since `Math.PI` has no exact real value.
- The frame clock `dt` and the speed ramp update in `update` (game.js:1358-1361) are not modelled. The ramp is only reset.
- `update` is not one method. Its particle cap, ball-lost, ball-move, brick, reward, bolt, laser and level-clear parts are methods, and `tick` is `Flow.Frame`. The ordering of those parts within one frame is not modelled.
- The arch, wave, diag and holes layouts, and the pixel width of a brick, come from the `LevelRandom` parameter and the stage width. Happy, crown, islands and zigzag are exact.
- Particles carry only their kind; their motion and lifetime are not modelled. The cap is `Entities.CapParticles`, applied to the kind sequence by `Game.World.CapParticleCount`.
- The deep copy in `makeSnapshot` and the aliasing in `applySnapshot` are not modelled. Snapshots are values, so stored history is never mutated by later play.
- Game.World.GrantReward: the two `multi` angles are a parameter (`spread`) instead of `rand(-0.9, 0.9)`, so nothing is stated about their range.
- Game.World.BallLostBranch: follows the corrected game-over rule of `Flow.Frame`: with no life left it changes nothing, where game.js:1293-1295 and 1449 take one more life every frame (down to -1, -2, ...). The as-written behaviour is modelled only in `Flow.PlayAsWritten` and `Flow.LivesGoNegativeAsWritten`, because the World's invariant keeps the lives at 0 or more.
- Game.World.UpdateRewind: follows the corrected scrub `History.Scrub`: each pop also drops the checkpoints past the new end, where game.js:1333 only pops. The as-written scrub is modelled only in `History.ScrubAsWritten` and `History.StaleCheckpointAfterSkip`, because the World's invariant keeps every checkpoint inside the history.
- Game.World.ScrubLoop: the same corrected rule as `UpdateRewind`.
- Game.World.ScrubStep: the same corrected rule: a pop drops the checkpoints past the new end, which game.js:1333 does not.
- Game.World.DropLastFrame: the same corrected rule: `history.pop()` plus the drop of stale checkpoints.
- Game.World.BallHitsBricks: it takes the ball after this frame's move, which is `Game.World.MoveBall`; the two are separate methods.

## Findings

| source | as written | input that shows it | evidently intended | confidence | as-written member | corrected member |
|---|---|---|---|---|---|---|
| game.js:1293-1295 | `tick` keeps calling `update` after the lives reach 0, so the ball-lost branch takes a life on every later frame | one life and no ball alive: two frames leave -1 lives | no frame plays once the game is over ("GAME OVER, press reset"), so lives stop at 0 | not executed | Flow.LivesGoNegativeAsWritten | Flow.LivesNeverNegative |
| game.js:1313-1335 | the rewind scrub pops history frames but never removes checkpoints past the new end | checkpoints [0, 100] and 150 frames (any length above 101), skip back to 0: the history ends with one frame while checkpoint 100 survives, so the next rewind aims at a missing frame | checkpoints always name frames of the history | not executed | History.StaleCheckpointAfterSkip | History.ScrubKeepsBelow |
