# Tank battle simulation core in Dafny

This project models the simulation core of a top-down tank game, where a player tank
fights AI-controlled enemy tanks on an 800 x 600 field of 40-unit wall cells. The core
has seven parts:

- **Entity model** (`Objects`, game_objects.py).
  - `Tank` and `Bullet` are classes whose position, facing, cooldown and health
    fields change in place.
  - `Wall` and `Base` are values.
  - A rectangle is always derived from x, y and size.
  - `colliderect` is strict overlap: rectangles that only share an edge do not collide.
- **Prospective collision queries** (`Collide`, game_controller.py).
  - A tank's shifted rectangle is tested against the walls and every other living tank.
  - A bullet's rectangle is tested against the walls.
- **Vision** (`Vision`, vision_ai.py).
  - A lattice of sample points 10 units apart in front of each tank.
  - A stepped ray march against inclusive wall boxes.
  - Cells of 20 units.
  - A shared pool of enemy cells that is active only while a commander is alive.
- **AI state machine** (`Ai`, vision_ai.py).
  - The patrol, attack and defend states, with the decision gate and the attack cooldown.
  - The patrol stuck counter.
  - The ordered candidate steps of `move_towards`.
- **World and frame** (`World` and `Tick`, main.py).
  - The bullet sweep.
  - The three collision passes in their fixed order, removing from the lists while
    iterating over copies.
  - The game-over verdict.
  - One whole frame of `Game.update`.
- **Controller** (`Controller`, game_controller.py).
  - Key presses as abstract events.
  - Held-key movement along the facing only.
  - The vision, then AI, then input order of `update`.
- **Level** (`Level`, game_level.py).
  - The map-text parser over already-read lines, and the grid renderer that returns the text.
  - The border, scattered and fortification walls.
  - Spawning, with its 50-attempt retry loop.
  - `start_level`.
- **Configuration** (`Config`, config_manager.py).
  - Dotted-key `get` and `set` over a nested dictionary value.
  - The guarded overrides of `set_difficulty`.

`Common` holds an `Option` type, a distinctness predicate, truncating division, and
removal from a sequence.

### Time and randomness

The clock becomes a `now` parameter. Every random choice becomes an oracle argument whose
range the `requires` clauses state:

- `Ai.Draws`: the AI's random positions and turns.
- `Tick.Wander`: the random wander of `Tank.update`.
- `Level.LevelDraws`: the random map cells and spawn attempts.

### Where the intended design and the code differ

The model follows the code in each case below.

- `Tank.move` leaves an axis unchanged when its new coordinate would leave the screen;
  it does not clamp (game_objects.py:85-88).
- The attack facing breaks ties toward the vertical axis (vision_ai.py:293).
- The decision gate is the literal `> 1000`. It ignores the tank's `ai_decision_interval`
  (vision_ai.py:204).
- Loading a map does not reset the base: with no `B` the previous base stays
  (game_level.py:151-153).
- A bullet that hits the base sets the winner to the garbled literal `"en玩家emy"`, not
  `"enemy"` (main.py:165). `World.BaseHitLabel` carries that literal. A later
  `check_game_over` in the same frame overwrites it only when one side has no tanks left.

## Model

| member | source | states |
|---|---|---|
| Objects.OverlapsSymmetric | game_controller.py:122-131 | Rectangle overlap is symmetric, so "bullet hits tank" and "tank hits bullet" agree |
| Objects.AxisStep | game_objects.py:79-88 | One axis of `move` takes the new coordinate iff it lies in [0, limit], otherwise keeps the old one; a coordinate in bounds stays in bounds |
| Objects.MuzzleClearOfShooter | game_objects.py:107-120 | A bullet fired in any direction starts outside the rectangle of the tank that fired it, so it cannot hit its shooter's box at birth |
| Objects.CooldownAfterShot | game_objects.py:100-104 | With a positive cooldown a second shot at the same instant is refused, and any time at least one cooldown later is allowed |
| Objects.HitOutcome | game_objects.py:122-126 | A hit lowers hit points by exactly one, never revives, and keeps "alive iff hit points > 0" |
| Objects.HitsToKill | game_objects.py:122-126 | A commander (2 hit points) survives its first hit and dies on the second; any other tank dies on its first |
| Objects.Tank.constructor | game_objects.py:43-65 | Position, type and facing as given; speed 2, cooldown 500, vision range 150, decision interval 1000; hit points 2 for a commander and 1 otherwise; alive |
| Objects.Tank.Move | game_objects.py:79-92 | Each axis moves independently per `AxisStep` with the screen minus size as limit; a tank inside the screen stays inside |
| Objects.Tank.Rotate | game_objects.py:94-96 | Sets the facing and changes nothing else |
| Objects.Tank.Shoot | game_objects.py:98-120 | Fires iff the cooldown has elapsed; a shot records `now` and returns a fresh bullet at the muzzle point, flying the tank's way and owned by it; a refusal changes nothing |
| Objects.Tank.Hit | game_objects.py:122-126 | Hit points and alive flag become `HitOutcome` of the old ones; "alive iff hit points > 0" is preserved |
| Objects.Tank.WanderAi | game_objects.py:160-186 | Before the decision interval nothing changes; after it the timer restarts, the tank turns if drawn, takes one unchecked forward step and restarts its cooldown iff a drawn shot was allowed; the tank stays on screen |
| Objects.Tank.Update | game_objects.py:67-77 | A dead tank and the player tank are left unchanged; a living enemy wanders exactly as `WanderAi` states (`Wandered`) and stays on screen |
| Objects.Bullet.constructor | game_objects.py:189-196 | Position, direction and owner as given |
| Objects.Bullet.Update | game_objects.py:198-210 | The bullet moves exactly its speed along its direction; the other coordinate stays |
| Objects.LeavesAhead | game_objects.py:198-215 | A bullet on screen leaves it in one update iff it was within one speed of the edge it flies toward |
| Collide.Shifted | game_controller.py:119-121 | The probe rectangle has the tank's size and is offset from the tank by exactly (dx, dy) times its speed |
| Collide.WallBlocksFirstHit | game_controller.py:122-126 | Some wall overlaps the probe iff the first overlapping wall in list order exists |
| Collide.SelfAndDeadNeverBlock | game_controller.py:128-131 | Adding the moving tank itself or dead tanks to the tank list never changes whether a move is blocked |
| Collide.SnapBlocksAgree | game_controller.py:128-131 | The tank test gives the same answer on the tanks as on their snapshots |
| Collide.CheckTankWallCollision | game_controller.py:117-133 | The loop answers true iff the shifted rectangle overlaps a wall or another living tank (`MoveBlocked`) |
| Collide.CheckBulletWallCollision | game_controller.py:175-183 | True iff the bullet's rectangle overlaps some wall |
| Collide.FirstPlayerSpec | game_controller.py:110-115 | No player is found iff the list has no player tank; otherwise the answer is the player at the least index, alive or not |
| Collide.GetPlayerTank | game_controller.py:110-115 | The loop returns the first player tank in list order, or none |
| Vision.RaySteps | vision_ai.py:100 | The step count n satisfies n*10 <= max(abs dx, abs dy) < (n+1)*10 |
| Vision.ClearRays | vision_ai.py:100-117 | A ray of zero steps is never blocked, and no ray is blocked when there are no walls |
| Vision.BlockedMonotone | vision_ai.py:105-117 | Adding walls never unblocks a blocked ray |
| Vision.StartInWallBlocks | vision_ai.py:105-115 | A ray of at least one step whose start point lies in a wall box (edges included) is blocked |
| Vision.RangeNext | vision_ai.py:84-85 | Membership in `range(lo, hi, 10)` unfolds as the first element or the rest |
| Vision.RowSpec | vision_ai.py:85-93 | A cell is in one sampled row iff it is the cell of some unblocked on-screen sample at a side offset in `range(-side, side, 10)` |
| Vision.AreaSpec | vision_ai.py:84-93 | A cell is in the area iff it is the cell of some unblocked on-screen sample at a forward distance in `range(0, fwd, 10)` and a side offset in `range(-side, side, 10)` |
| Vision.Reach | vision_ai.py:37-44 | The player sees its full range ahead; every tank's side reach is at most its forward reach, which is at most its range |
| Vision.TankAreaSpec | vision_ai.py:32-93 | The cells a tank sees are exactly the cells of the unblocked samples in its own cone, taken from its centre along its facing |
| Vision.SeenSnoc | vision_ai.py:28-30 | Recording one more tank adds its area iff it is alive and keeps every other entry |
| Vision.Pool | vision_ai.py:124-129 | The pool holds exactly the cells of the non-player entries |
| Vision.VisionSystem.constructor | vision_ai.py:12-15 | Empty vision map, sharing enabled |
| Vision.VisionSystem.IsVisionBlocked | vision_ai.py:97-117 | The ray-march loop answers exactly `Blocked` over the game's walls |
| Vision.VisionSystem.CalculateVisionArea | vision_ai.py:75-95 | The nested sampling loops build exactly `AreaFrom`, characterised by `AreaSpec` |
| Vision.VisionSystem.UpdateTankVision | vision_ai.py:32-73 | The tank's entry becomes its `TankArea`; every other entry stays |
| Vision.VisionSystem.UpdateVision | vision_ai.py:17-30 | Sharing is on iff some alive commander exists; the map has an entry for exactly the alive tanks, each its own area |
| Vision.VisionSystem.SeeAt | vision_ai.py:28-30 | After the i-th tank of the loop the map equals `Seen` of the first i+1 tanks |
| Vision.VisionSystem.GetSharedVision | vision_ai.py:119-129 | Empty when sharing is off; otherwise exactly the union of the non-player entries |
| Vision.VisionSystem.IsInVision | vision_ai.py:131-148 | True iff the tank has an entry and the target cell is its own, or the tank is an enemy, sharing is on and some enemy entry holds the cell |
| Vision.VisionSharing | vision_ai.py:131-148 | A player sees only its own cells; an enemy sees any cell another enemy sees while sharing is on |
| Ai.AttackFacingToward | vision_ai.py:293-302 | The chosen facing points along the larger offset, toward the target, with ties going vertical |
| Ai.Sign | vision_ai.py:354-355 | The unit step toward a coordinate: sign times value is its absolute value |
| Ai.Preferred | vision_ai.py:358-364 | The four preferred candidates are unit steps of the fallback list or the zero step |
| Ai.FacingMatchesStep | vision_ai.py:372-400 | The facing set for a candidate step points in that step's direction |
| Ai.NonZero | vision_ai.py:367-369 | Zero steps are skipped and the candidate order is kept |
| Ai.FirstFreeSpec | vision_ai.py:367-403 | No candidate is taken iff all are blocked; otherwise the first free one in order is taken |
| Ai.TryPreferredIs | vision_ai.py:367-385 | The preferred loop commits the first free non-zero preferred step and faces it |
| Ai.TryFallbackIs | vision_ai.py:388-403 | The fallback loop commits the first free step of (1,0), (-1,0), (0,1), (0,-1) and faces it |
| Ai.SteerSpec | vision_ai.py:344-405 | Within 5 units nothing moves; otherwise at most one unit step, the first free one in dominant-axis-then-fallback order, and none iff every fallback step is blocked |
| Ai.SteerPrefersTarget | vision_ai.py:358-385 | When the dominant-axis step is free it is the one taken |
| Ai.FirstAlivePlayerNone | vision_ai.py:234-239 | No target is found iff no alive player tank exists |
| Ai.DecideEffect | vision_ai.py:216-232 | Attack iff the living player is seen, defend iff not and a commander, patrol otherwise; the target becomes the seen player; the waypoint changes only on patrol within 20 units, to the drawn one; clocks and counters stay |
| Ai.PreparedGate | vision_ai.py:197-206 | The cooldown counts down to no lower than 0; past 1000 ms the state is the decision's, stamped `now`; otherwise mode, target, waypoint, stuck count and decision time stay |
| Ai.Bookkeep | vision_ai.py:260-274 | Reaching the waypoint resets the stuck counter and draws a new waypoint; no progress counts up; past 10 the counter resets with a new waypoint; the counter stays in 0..10 |
| Ai.ClampDefence | vision_ai.py:332-333 | The defence point is clamped to [40, width-40] x [40, height-40] and a point already inside is unchanged |
| Ai.AdvancedAI.constructor | vision_ai.py:171-174 | No AI states yet |
| Ai.AdvancedAI.FindPlayerTank | vision_ai.py:234-239 | The loop returns the first alive player tank |
| Ai.AdvancedAI.PreferredSteps | vision_ai.py:366-385 | The preferred loop moves and turns the tank per `TryPreferred` over the free steps at entry; the tank stays on screen |
| Ai.AdvancedAI.FallbackSteps | vision_ai.py:387-403 | The fallback loop moves and turns the tank per `TryFallback`; the tank stays on screen |
| Ai.AdvancedAI.MoveTowards | vision_ai.py:344-405 | Position and facing become `Landing` of the start: one `move` by the step `Steer` picks among the steps the collision check leaves free, or none within 5 units, facing as `Steer` ends |
| Ai.AdvancedAI.MakeAiDecision | vision_ai.py:216-232 | The tank's state becomes `Decide` of the old one, from its position, its kind and the living player it sees; every other state is kept |
| Ai.AdvancedAI.ExecutePatrol | vision_ai.py:248-278 | The state becomes `Bookkeep` of the distances before and after the step; the stuck counter stays in 0..10; other tanks' states are untouched |
| Ai.AdvancedAI.MeasuredMove | vision_ai.py:255-261 | The reported distances are the squared distances to the waypoint before and after the move, and the tank lands where `Landing` puts it on the way to the waypoint |
| Ai.AdvancedAI.BookPatrol | vision_ai.py:263-278 | The tank's state becomes `Bookkeep` of the step's outcome; the facing becomes the drawn turn, or stays when none is drawn |
| Ai.AdvancedAI.ExecuteAttack | vision_ai.py:280-313 | A missing or dead target reverts to patrol and changes nothing else; otherwise the tank fires iff in range, the cooldown is 0 and `shoot` allows, and only a real shot sets the cooldown to 30 |
| Ai.AdvancedAI.Approach | vision_ai.py:289-305 | The tank turns along the larger offset to the target, then lands where `Landing` puts it from that facing; it stays on screen |
| Ai.AdvancedAI.AttackFire | vision_ai.py:307-313 | A shot appends exactly one fresh bullet owned by the tank and sets the cooldown to 30; otherwise nothing changes |
| Ai.AdvancedAI.ExecuteDefend | vision_ai.py:315-342 | With no base the tank reverts to patrol in place; otherwise a visible alive player turns it to attack; the tank stays on screen |
| Ai.AdvancedAI.WatchForPlayer | vision_ai.py:338-342 | A visible alive player turns the state to attack it; otherwise the state is unchanged |
| Ai.AdvancedAI.Prepare | vision_ai.py:186-206 | The tank's state becomes `Prepared` of its old state, or of a new patrolling state on first sight; exactly that key is added |
| Ai.AdvancedAI.Redecide | vision_ai.py:204-206 | The state becomes `Decide` of the old one with `now` as decision time; the cooldown and other tanks' states stay |
| Ai.AdvancedAI.UpdateTankAi | vision_ai.py:182-214 | The bookkeeping state is `Prepared`; the mode's routine then acts as `Behaved` says (patrol step and counters, attack fire rule, defend watch); other states untouched; the decision time follows the gate; at most one fresh owned bullet |
| Ai.AdvancedAI.Execute | vision_ai.py:208-214 | The routine of the state's mode runs: patrol, attack or defend, with the effect `Behaved` states for that mode |
| Ai.AdvancedAI.Spotted | vision_ai.py:220-224 | The seen player is the first living player tank, and only when the tank can see its centre |
| Ai.AdvancedAI.UpdateAi | vision_ai.py:176-180 | Exactly the living enemies gain states; player and dead tanks keep state, place, facing and last shot; each living enemy's decision time follows the gate once; bullets are only appended, fresh, and fired by living enemies |
| Ai.AdvancedAI.HuntAt | vision_ai.py:178-180 | One loop turn: the tank is updated iff it is a living enemy, and the sweep's facts about the first i tanks extend to the first i+1 |
| Ai.AdvancedAI.HuntOne | vision_ai.py:179-180 | `update_tank_ai` on a living enemy: it gains a state with the gated decision time; other states stay; new bullets are fresh and its own |
| World.Moved | main.py:81-82 | One sweep step moves a bullet exactly its speed along its direction, keeping identity, direction and owner |
| World.OnScreenFilters | main.py:83-84 | The sweep keeps exactly the moved bullets that are on screen |
| World.FirstWallHitSpec | main.py:140-146 | The wall acted on is the first in list order that overlaps the bullet |
| World.WallPassKeepsMetal | main.py:138-146 | The wall pass keeps every metal wall, removes at most one soil wall per removed bullet, and only removes walls and bullets |
| World.WallPassSurvivorsClear | main.py:138-146 | No bullet that survives the wall pass overlaps a wall that survives it |
| World.FirstTankHitSpec | main.py:150-151 | The tank acted on is the first in list order that overlaps the bullet and is not its owner |
| World.TankPassShrinks | main.py:148-159 | Tanks only lose hit points and keep their boxes; if all were alive, all survivors are alive; surviving bullets are old bullets |
| World.TankPassSurvivorsClear | main.py:148-159 | No surviving bullet overlaps a surviving tank other than its owner |
| World.BasePassFilters | main.py:161-167 | The base pass keeps exactly the bullets that miss the base, and drops one iff some bullet hits it |
| World.Verdict | main.py:169-188 | Over iff already over or one side is empty; no player tank means enemy wins, even when no enemy is left either; no enemy means player wins; otherwise unchanged |
| World.Game.constructor | main.py:27-37 | Empty lists, no base, not over, no winner |
| World.Game.AdvanceBullets | main.py:80-84 | Every bullet moves once and the list keeps exactly the moved bullets that are on screen, in order |
| World.Game.SweepOne | main.py:81-84 | One iteration moves bullet i and drops it iff it is off screen |
| World.Game.FindWall | main.py:140-146 | The inner loop finds the first wall hit |
| World.Game.BulletWallPass | main.py:138-146 | Bullets and walls after the loop are exactly `WallPass` of those before |
| World.Game.WallAct | main.py:140-146 | A hit removes the bullet and the wall iff soil; a miss keeps both |
| World.Game.FindTank | main.py:150-151 | The inner loop finds the first non-owner tank hit |
| World.Game.BulletTankPass | main.py:148-159 | Bullets and tank snapshots after the loop are exactly `TankPass` of those before; no tank is added |
| World.Game.TankAct | main.py:150-159 | A hit removes the bullet and strikes the tank; a miss changes nothing |
| World.Game.StrikeTank | main.py:153-156 | The struck tank loses one hit point and leaves the list iff it died; every other tank stays |
| World.Game.HitTank | main.py:153 | Only the struck tank's hit points and alive flag change, per `HitOutcome` |
| World.Game.DropTank | main.py:155-156 | Exactly the dead tank leaves the list; order is kept |
| World.Game.BulletBasePass | main.py:161-167 | The bullets become `BasePass`; a hit ends the game with the base-hit label; tanks are untouched |
| World.Game.CheckCollisions | main.py:134-167 | The three passes in order: the outcome is exactly `Collide` of the state before; no tank is added |
| World.Game.CheckGameOver | main.py:169-188 | Nothing before the game starts; afterwards the flag and winner are `Verdict` of the tank list |
| Tick.UpdateTanks | main.py:77-78 | Player and dead tanks keep position, facing and cooldown; every tank on screen stays on screen |
| Tick.Advance | main.py:75-90 | Tanks update first (player and dead ones stay), then the bullets are `OnScreen(MoveAll(...))` of the old ones, then the outcome is `Collide` over those and the moved tanks, closed by `Verdict`; metal walls are kept |
| Tick.MoveTanks | main.py:77-78 | The tank snapshots after the tank updates; health is untouched, player and dead tanks do not move, bullets stay |
| Tick.Sweep | main.py:80-84 | The bullets left are `OnScreen(MoveAll(...))` of the old ones; no tank changes |
| Tick.Finish | main.py:80-90 | The sweep, then `Collide` over its result and the given tank snapshots, then `Verdict` |
| Tick.Resolve | main.py:86-90 | The outcome is `Collide` of the state before, then `Verdict` on the tanks left; tanks and walls only removed, metal kept |
| Tick.Play | main.py:75-90 | The frame keeps the game well formed, only removes tanks and non-metal walls, and ends with the verdict: no player means enemy wins, no enemy means player wins |
| Tick.Update | main.py:67-90 | Nothing once over; before the start only the controller runs and no tank, wall or verdict changes; otherwise the controller then `Play`, ending with the verdict |
| Controller.MoveKey | game_controller.py:69-76 | W, S, A and D and only they are movement keys |
| Controller.KeysAgree | game_controller.py:69-168 | The key that turns the tank to a facing is the key that, held, moves it along that facing |
| Controller.FacingStep | game_controller.py:155-173 | A step along the facing moves one axis only, at most the speed, and never the axis across the facing |
| Controller.GameController.constructor | game_controller.py:15-22 | No keys held, game not started, menu shown |
| Controller.GameController.StartNewGame | game_controller.py:36-40 | A new level is started and the game runs with the menu hidden |
| Controller.GameController.PlayerKey | game_controller.py:66-96 | `KeyDone`: a movement key turns the player, then it takes one unit step iff the collision check at the start allows; the fire key keeps place and facing and appends one fresh owned bullet iff the cooldown allows; any other key changes nothing |
| Controller.GameController.PlayerPress | game_controller.py:66-96 | The first player tank, if alive, reacts per `KeyDone`; no other tank changes; with no living player no bullet appears |
| Controller.GameController.HandleGameInput | game_controller.py:61-108 | Key up releases the key and changes nothing else; key down records it; R restarts, Escape returns to the menu; other keys leave walls, tanks, base and verdict alone and act on the first player tank per `KeyDone` |
| Controller.GameController.PressKey | game_controller.py:66-105 | R restarts the level, Escape shows the menu; any other key leaves walls, tanks, base and verdict alone and acts on the first player tank, if alive, per `KeyDone`, moving no other tank |
| Controller.GameController.HandleContinuousInput | game_controller.py:149-173 | Only the first player tank can move; it steps along its facing iff alive, the matching key is held and the move is not blocked by a wall or by another living tank as the tanks stood before |
| Controller.GameController.HeldStep | game_controller.py:155-173 | One held-key step along the facing, vetoed by the collision check |
| Controller.GameController.Update | game_controller.py:135-147 | Nothing before the start; otherwise vision is recomputed from the tanks before the AI, the AI keeps a state for every alive enemy, and the player's held-key step is vetoed against the tanks where the AI left them |
| Controller.GameController.See | game_controller.py:140-141 | Vision becomes `Seen` of the current tanks and sharing follows `CommanderAlive` |
| Controller.GameController.Think | game_controller.py:143-147 | The AI runs first: states for every alive enemy, only fresh bullets, player and dead tanks unmoved; then the player's held-key step is vetoed against the tank boxes the AI left |
| Controller.GameController.AiStep | game_controller.py:143-144 | The AI pass: states for every alive enemy, fresh bullets only, player and dead tanks keep place and facing, no health changes |
| Level.Decode | game_level.py:157-171 | `#`, `@`, `B`, `P`, `E` and `C` at column c, row r yield their entity at (40c, 40r) |
| Level.StripPlain | game_level.py:156 | A line with no surrounding blanks is unchanged by `strip` |
| Level.MapWallAt | game_level.py:155-160 | The first wall at a cell's corner is the one its character decodes to, or none |
| Level.MapTankAt | game_level.py:155-171 | The first tank at a cell's corner is the one its character decodes to, or none |
| Level.BaseKept | game_level.py:151-162 | With no `B` in the grid the previous base is kept |
| Level.BaseLast | game_level.py:161-162 | The base is at the last `B` in row-major order |
| Level.MapCounts | game_level.py:155-171 | The number of soil walls, metal walls and tanks equals the number of `#`, `@` and `P`/`E`/`C` characters |
| Level.RowWallCount | game_level.py:157-160 | A row yields as many walls of a kind as it has that kind's character |
| Level.MapWallCount | game_level.py:155-160 | The grid yields as many walls of a kind as it has that kind's character |
| Level.MapTankCount | game_level.py:155-171 | The grid yields one tank per `P`, `E` or `C` |
| Level.MapTanksRowMajor | game_level.py:163-171 | Tanks are appended in row-major order, within the grid's rows |
| Level.RenderRow | game_level.py:183-209 | A rendered row has 20 characters, each the glyph of its cell |
| Level.RenderRows | game_level.py:181-211 | 15 rows, each `RenderRow` of its index |
| Level.JoinLinesAt | game_level.py:211 | Joined rows place each cell at its offset with a newline between rows and none at the end |
| Level.RenderShape | game_level.py:180-214 | The saved text has 15 x 21 - 1 characters, each cell its glyph with tank over base over wall over `.` |
| Level.GlyphRoundTrip | game_level.py:157-207 | Save writes back the character that load decoded, for walls, tanks and the base |
| Level.LoadThenSave | game_level.py:145-214 | For a 15 x 20 grid of the six glyphs and `.` holding at most one `B`, loading it with no previous base and saving it gives the same text |
| Level.BorderEncloses | game_level.py:25-31 | Every border wall is metal on an edge, and every 40-unit multiple along all four edges has one |
| Level.ScatterInside | game_level.py:36-46 | Scattered walls lie two cells inside the screen |
| Level.ScatterClearOfBorder | game_level.py:36-46 | No scattered wall overlaps a border wall |
| Level.GuardSurrounds | game_level.py:49-60 | The base is at (360, 480) with five soil walls at dx in {-1, 0, 1}, dy in {-1, 0}, never on the base |
| Level.FirstClearSpec | game_level.py:101-112 | No spot is found iff every attempt is near some tank; otherwise the first clear attempt is taken |
| Level.SpawnDrawSpot | game_level.py:102-103 | A drawn cell scaled to pixels lies in the spawn zone |
| Level.GameLevel.constructor | game_level.py:13-16 | Level 1, one player |
| Level.GameLevel.LoadMap | game_level.py:151-171 | Walls, tank placements and base are exactly those the grid decodes to; bullets cleared |
| Level.GameLevel.LoadRow | game_level.py:155-171 | One row appends its walls and tanks and updates the base |
| Level.GameLevel.LoadCell | game_level.py:157-171 | One character appends its wall or tank, or sets the base |
| Level.GameLevel.PlaceTank | game_level.py:163-171 | One fresh healthy tank facing up is appended at the placement |
| Level.GameLevel.GenerateRandomMap | game_level.py:18-60 | Walls are the border, the drawn soil and metal walls and the guard, in that order; the base is at (360, 480); no tanks or bullets |
| Level.GameLevel.AddBorder | game_level.py:25-31 | Appends exactly the border walls |
| Level.GameLevel.AddScattered | game_level.py:36-46 | Appends exactly the scattered walls of the draws |
| Level.GameLevel.AddGuard | game_level.py:49-60 | Appends exactly the guard walls |
| Level.GameLevel.AddGuardColumn | game_level.py:55-60 | Appends one column of guard walls |
| Level.GameLevel.IsClear | game_level.py:105-110 | True iff no tank is within a tank size on both axes |
| Level.GameLevel.SpawnEnemyTank | game_level.py:93-128 | With no clear attempt the list is unchanged; otherwise one fresh enemy with the settings is appended at the first clear spot |
| Level.GameLevel.BuildEnemy | game_level.py:113-125 | A fresh enemy of the kind at the spot with the settings applied |
| Level.GameLevel.SpawnBatch | game_level.py:86-91 | Appends at most one enemy per draw, each clear of the earlier tanks |
| Level.GameLevel.BuildPlayer | game_level.py:65-77 | A fresh player at (380, 520) facing up with the player settings |
| Level.GameLevel.SpawnTanks | game_level.py:62-91 | The player first, then commanders, then normal tanks; each enemy clear of the earlier tanks |
| Level.GameLevel.SpawnEnemies | game_level.py:85-91 | Commanders first, then normal tanks, each at most one per count |
| Level.GameLevel.StartLevel | game_level.py:216-232 | Fresh map, bullets cleared, the player then the commanders then the normal tanks, each enemy clear of those before it; not over, no winner |
| Config.Split | config_manager.py:58 | Splitting on dots yields at least one part |
| Config.JoinSplit | config_manager.py:58 | Joining the parts with dots gives the key back |
| Config.SplitJoin | config_manager.py:58 | Splitting dot-joined dot-free parts gives the parts back |
| Config.LookupAfterStore | config_manager.py:56-79 | `get` after a successful `set` of the same key returns the stored value |
| Config.StoreFrame | config_manager.py:74-79 | `set` leaves every key not on the path unchanged |
| Config.StoreFails | config_manager.py:74-77 | `set` fails iff some intermediate value on the path exists and is not a dictionary |
| Config.DifficultyMissing | config_manager.py:99-100 | A missing or empty difficulty entry changes nothing |
| Config.ApplyKeeps | config_manager.py:113-131 | An override changes nothing but the one field |
| Config.ApplyNoNewField | config_manager.py:113-131 | An override never creates a field that did not exist |
| Config.DifficultyNoNewFields | config_manager.py:102-131 | A missing speed, vision range or attack chance field (any path under the enemy settings other than the normal tank count) is still missing after `set_difficulty` |
| Config.DifficultyCount | config_manager.py:102-104 | A truthy normal-tank count of the difficulty becomes the normal tank count |
| Config.ConfigManager.constructor | config_manager.py:24-45 | The configuration is the default one |
| Config.ConfigManager.Get | config_manager.py:56-67 | The value at the dotted path if every step is a dictionary with the key, otherwise the default |
| Config.ConfigManager.Set | config_manager.py:69-79 | Succeeds iff `Store` does, and then the configuration is the stored one |
| Config.ConfigManager.NormalTankCount | config_manager.py:81-83 | The configured count, or 5 when absent |
| Config.ConfigManager.CommanderTankCount | config_manager.py:85-87 | The configured count, or 1 when absent |
| Config.ConfigManager.Override | config_manager.py:113-131 | One guarded field override, as `Apply` |
| Config.ConfigManager.OverrideSection | config_manager.py:112-131 | Speed, vision range and attack chance of one section, each only where present |
| Config.ConfigManager.SetDifficulty | config_manager.py:97-131 | The configuration becomes `Difficulty` of the old one |
| Config.ConfigManager.TuneSections | config_manager.py:106-131 | Each enemy section in turn gets its guarded overrides |

## Left out

- Floating point is not modelled.
  - Positions, speeds and ranges are integers.
  - The vision multipliers 0.8, 0.7 and 0.5 are exact truncating integer arithmetic.
  - Fractional speeds such as the enemy default 1.5 are not represented.
  - Configuration numbers are exact reals, so float rounding of the difficulty
    multipliers is not modelled.
  - The level takes its tank counts as the lengths of its spawn draws. The float-to-int
    conversion of the configured counts is not modelled.
  - Square-root distance tests become squared-distance tests.
- The cos/sin ring point of `execute_defend` (vision_ai.py:327-329) is a drawn offset.
  Only the clamp and the state transitions are modelled.
- Ai.AdvancedAI.ExecutePatrol: states the bookkeeping and the drawn turn, not where the
  step puts the tank or its facing when no turn is drawn. `MeasuredMove` states that
  step as `Landing`. Carrying it past the bookkeeping is too costly for the verifier.
- Ai.AdvancedAI.ExecuteAttack: states the fire rule and that the tank stays on screen,
  not where it moves or which way it faces. `Approach` states that, for the same reason.
- Ai.AdvancedAI.ExecuteDefend: states the watch for the player and that the tank stays
  on screen, not where it moves. `MoveTowards` states the step toward the clamped ring
  point, for the same reason.
- Ai.AdvancedAI.UpdateTankAi: through `Behaved`, states each mode's state change and fire
  rule, not the tank's step or facing. `MoveTowards`, `MeasuredMove` and `Approach`
  state those, for the same reason.
- Ai.AdvancedAI.Execute: the same as `UpdateTankAi`, through `Behaved`.
- Probabilities are not modelled: random draws and the clock are parameters.
  `attack_chance` and `direction_change_chance` appear only as drawn booleans.
- The random wander of `Tank.update_ai` is modelled, including its unchecked step. The
  bullet it fires is dropped by its caller, so only the cooldown restart is kept.
- Rendering, colours and `get_color_by_name` are not modelled.
- The menu, `handle_menu_input`, the event loop and `load_and_start_game` are not
  modelled, because they are display and filesystem plumbing.
- File and JSON I/O are not modelled. This covers the map file read and write, the
  `FileNotFoundError` fallback, `load_config`, `save_config` and `print_config`.
- The parser works on already-read lines, and the renderer returns the text.
- `use_random_map` is not a parameter, because both branches of `start_level` build the
  same level.
- The unused `index` argument of `spawn_enemy_tank` is left out.
- `get_enemy_tank_config`, `get_difficulty_settings`, `get_game_constants`,
  `get_player_settings`, `get_bullet_settings` and `get_map_settings` are `Get` on a
  fixed key, so they have no members of their own.
- The AI's per-tank dictionary is a map from tank to a state value, not a mutable
  dictionary object.
- Config.DifficultyNoNewFields: says nothing about the normal tank count path, which
  `set_difficulty` may create, since `set` builds missing dictionaries on the way.
- Config.NewValue: only a number times a number is a product. Python's other products
  that succeed (a boolean times a float, a string or a list times an int) are taken as
  the exception a non-numeric product raises, so `set_difficulty` stops there.
- Ai.AdvancedAI.UpdateAi: states the frame, the decision gate and who owns the new
  bullets, not each tank's full `update_tank_ai` effect. `UpdateTankAi` states that.
- Tick.Update: states, through `Play`, the verdict and what is only removed. It states
  neither the controller's order nor the order inside the frame.
  `Controller.GameController.Update` states that the AI runs before the held-key step
  is vetoed, over its ghost snapshot `mid`. `Tick.Advance` states the collisions and
  the verdict over the moved tanks and swept bullets. Carrying both up to
  `Tick.Update` is too costly for the verifier.
- Tick.Play: states the verdict and what is only removed. `Advance` states the order of
  tank update, sweep and collisions.
- Objects.Bullet.IsOffScreen: is the screen test itself and has no contract of its own.
  `LeavesAhead` states how an update crosses it.
