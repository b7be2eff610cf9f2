# Platformer game rules in Dafny

This project models the game logic of a small Phaser 2 platformer (`src/main.js`).
The engine is left out. What remains is pure functions over immutable records:

- **Heroes**: the hero's movement commands, the jump-and-boost rule, and the
  first-match animation chooser.
- **Spiders**: the patrolling enemy that turns around on wall contact.
- **Sessions**: lives, coins, the game-started flag, the key flag and the level
  index. It also holds the death policy and the modulo wrap of `PlayState.init`.
  A restart is a returned `Request` value, either `Restart(level)` or
  `FullReset`. It is not a timer or a state switch.
- **Input**: `_handleInput`. Left beats right, the skip key asks for the next
  level, and the up key either jumps or ends the boost.
- **Collisions**: the collide and overlap callbacks and the door guards,
  applied in `_handleCollisions` order. A `Pending` value records the one
  deferred continuation a level can wait for: the end of the death animation
  or the end of the walk into the door. Completion functions run that
  continuation and return the restart it asks for.
- **Levels**: `_loadLevel` as a function from a level descriptor to the list
  of sprites it creates, in creation order, with each body's physics flags.
- **Play**: starting a level from a request, and one frame of play
  (collisions, then input, then the sprites' updates).

The physics collaborator is a parameter. Its touching and blocked flags and
the contacts it reports for a frame are inputs. A disabled body or a removed
sprite takes part in no contact, as in Phaser 2. Velocities are integers,
because the rules only overwrite them or test their sign. JavaScript's
truncating `%` is written out as `Common.JsRem`.

The "coin potential" is coins held, plus coins still in the level, plus 5 for
each spider that can still be stomped. Every frame keeps it unchanged.

Two details of `src/main.js` worth noting:

- On a water death, the restart uses the level index captured at the moment
  of contact. That index is always the current level.
- The loader creates sprites in this order: spiders, hero, decoration,
  platforms, then the optional pull door and water, then coins, key and door.

## Model

| member | source | states |
|---|---|---|
| Heroes.NewHero | src/main.js:9-26 | A new hero is alive, not frozen, not boosting, at rest, not yet on the ground, faces right (scale 1) and plays 'stop'. Its body is enabled. |
| Heroes.Move | src/main.js:32-46 | While frozen, nothing changes. Otherwise vx is direction·200 and the sprite faces the way it moves. Direction 0 keeps the old facing. Only vx and facing change. |
| Heroes.MoveIdempotent | src/main.js:32-46 | Repeating a move in the same direction changes nothing more. |
| Heroes.Jump | src/main.js:48-58 | The result is true exactly when the hero stands on ground, is alive and is not frozen. A take-off or an ongoing boost sets vy to −400 and boosting. Otherwise the hero is unchanged. |
| Heroes.BoostedJumpIsNoTakeOff | src/main.js:48-58 | A held jump in mid-air keeps vy at −400 but does not report a take-off. |
| Heroes.ReleasedJumpCannotResume | src/main.js:48-62 | After the boost ends in mid-air, pressing jump again changes nothing and reports no take-off. |
| Heroes.StopJumpBoost | src/main.js:60-62 | Ending the boost clears only the boosting flag and keeps the hero's shape. |
| Heroes.Bounce | src/main.js:64-67 | A stomp sets vy to −200 and changes nothing else. |
| Heroes.BounceShowsJump | src/main.js:104-107 | After a bounce, a living, unfrozen hero shows 'jump'. |
| Heroes.AnimationName | src/main.js:93-117 | The animation chosen always satisfies its row of the animation table (die, stop when frozen, jump, fall, run, stop). |
| Heroes.AnimationNameMatchesTable | src/main.js:93-117 | The priority chain and the row-by-row table agree in both directions. Every hero gets exactly one animation. |
| Heroes.FrozenShowsStop | src/main.js:97-103 | A frozen, living hero shows 'stop' whatever its velocity. |
| Heroes.Freeze | src/main.js:77-80 | A frozen hero's body leaves physics. Nothing else changes and the hero's shape is kept. |
| Heroes.Die | src/main.js:82-89 | A dead hero's body leaves physics and 'die' starts playing. Nothing else changes. |
| Heroes.Update | src/main.js:69-75 | After an update the playing animation matches the table. The animation restarts exactly when its name changed. Nothing else changes. |
| Heroes.UpdateIdempotent | src/main.js:69-75 | A second update in the same state restarts nothing. |
| Heroes.DeathAnimationRunsToEnd | src/main.js:82-89 | A dying hero's 'die' animation is never restarted, so its completion signal can fire. |
| Spiders.NewSpider | src/main.js:140-146 | A new spider walks right at 100 and faces right, with its body enabled. |
| Spiders.Update | src/main.js:152-162 | A right contact (touching or blocked) gives vx −100 facing left. Otherwise a left contact gives vx 100 facing right. With no contact the spider is unchanged. |
| Spiders.ContactDecidesDirection | src/main.js:152-162 | After any right contact the spider walks left. After a left-only contact it walks right, whatever its direction before. |
| Spiders.PatrolKeepsPatrolling | src/main.js:152-162 | Over any run of frames, a patrolling spider's speed stays ±100 and it faces the way it walks. |
| Spiders.QuietPatrolKeepsDirection | src/main.js:152-162 | Frames without side contact leave velocity and facing unchanged. |
| Spiders.UpdateIdempotent | src/main.js:152-162 | Updating twice on the same contacts is the same as updating once. |
| Spiders.Die | src/main.js:164-170 | A stomped spider's body leaves physics. Its patrol velocity and facing stay. |
| Spiders.RestoreTouching | src/main.js:506-509 | The spider's contact flags go back to those of the previous frame, and nothing else changes. |
| Sessions.Init | src/main.js:259-270 | Entering a level clears the key. A missing level index gives level 0. A non-negative index is reduced modulo 3. Lives, coins and the game-started flag are kept. |
| Sessions.Boot | src/main.js:247-249 | The game starts with 3 lives, 0 coins, no key, on level 0, with the start overlay shown. The counters are the ones `window.onload` sets (src/main.js:724-728). The level is the one the loading state requests. |
| Sessions.StartGame | src/main.js:313-319 | The first key press on the overlay sets the game-started flag and changes nothing else. |
| Sessions.DeathPolicy | src/main.js:486-503 | With no lives left the answer is a full reset. Otherwise it is a restart of the given level. |
| Sessions.ApplyRequest | src/main.js:374-386 | A full reset restores 3 lives, 0 coins and the start overlay, on level 0. A restart keeps every counter and plays the requested level modulo 3. Either way the key is gone. |
| Sessions.LoseLifeOutcome | src/main.js:483-503 | Losing the last life gives exactly the starting session. Losing any other life costs only that life and the key. The session stays valid. |
| Sessions.NextLevelWraps | src/main.js:269 | Asking for the level after the last one gives level 0. |
| Sessions.ReloadKeepsLevel | src/main.js:269 | Re-entering the current level keeps its index. |
| Sessions.RequestsKeepSessionValid | src/main.js:259-270 | Every request a valid session can issue (full reset, same level, next level) leads to a valid session. |
| Input.Direction | src/main.js:415-427 | Left gives −1, right alone gives 1, and neither gives 0. |
| Input.HandleInput | src/main.js:410-452 | The skip key, and only the skip key, asks for level+1. The jump sound plays exactly on a take-off with up held. Unless frozen, walking speed follows the keys and the hero faces the key's direction. With no arrow key, or when frozen, facing stays. Up held keeps or starts the boost, and without a boost vy stays. Releasing up ends the boost and leaves vy alone. |
| Input.LeftBeatsRight | src/main.js:415-427 | With both arrows down, an unfrozen hero walks left at 200 and faces left. |
| Input.HeldBoostIsSilent | src/main.js:443-451 | Holding jump in mid-air while boosting never plays the jump sound, and keeps the hero rising at 400. |
| Input.HeldJumpSoundsOnce | src/main.js:443-451 | A whole held jump from the ground plays the jump sound exactly once. |
| Collisions.DoorGuardsExclusive | src/main.js:398-405 | At most one door guard passes, and one passes exactly when the hero stands on ground. |
| Collisions.OnWater | src/main.js:369-389 | Falling in the water kills the hero at once and takes the life now. It keeps the coins and the coin potential, and remembers the level for the restart. The hero changes only as `die()` changes it (alive, body, animation). Nothing else in the level changes. |
| Collisions.OnCoin | src/main.js:466-470 | The coin is removed, the purse grows by exactly one, the count of remaining coins drops by one, and nothing else changes. |
| Collisions.OnKey | src/main.js:460-464 | The key is removed and held. Lives, coins and the level are not touched. |
| Collisions.OnDoor | src/main.js:525-535 | The door opens, the hero freezes and its body leaves physics, and the walk into the door is pending. Session and coin potential are unchanged. |
| Collisions.OnDoorNoKey | src/main.js:513-523 | The locked hint appears only on level 0. Nothing else changes. |
| Collisions.OnEnemy | src/main.js:472-511 | Moving down (vy > 0) stomps: the spider's body leaves physics, the hero bounces, coins grow by exactly 5 and lives stay. Otherwise the hero dies, counters stay, the life waits for the continuation, and the spider's contacts go back to the previous frame's. |
| Collisions.ApplyKeepsPotential | src/main.js:466-479 | No contact changes the coin potential. A coin moves from the level into the purse, and a stomp turns a live spider into 5 coins. |
| Collisions.ApplySessionBounds | src/main.js:369-406 | One contact never lowers coins or changes level or game-started flag. A life is lost only when the hero's body also leaves physics. |
| Collisions.ApplyKeepsConsistent | src/main.js:362-408 | A contact keeps the level consistent: the hero's body is in physics exactly while no continuation is pending. |
| Collisions.FrameIgnoresDisabledHero | src/main.js:362-408 | Once the hero's body is out of physics, the rest of the frame changes nothing. |
| Collisions.FrameFacts | src/main.js:362-408 | Over a whole frame the coin potential is kept, coins never drop, at most one life is lost, level and game-started flag stay, and consistency is kept. |
| Collisions.HandleCollisions | src/main.js:362-408 | The same facts for the reported contacts of one frame, in the order the queries run. A hero out of physics changes nothing. |
| Collisions.SetIndices | src/main.js:396-406 | The overlapping coins or spiders of a frame are visited in increasing index order. Each index listed overlaps, and there are as many indices as overlaps. |
| Collisions.SetIndicesComplete | src/main.js:396-406 | Every overlapping coin or spider is visited. |
| Collisions.OnKilled | src/main.js:373-388 | At the end of the death animation: after water, the session is unchanged and the captured level restarts. After a spider, a life is taken first. With no lives left the answer is a full reset. Only the session and the pending continuation change. |
| Collisions.DeathPathsAgree | src/main.js:483-503 | Water takes the life at once and a spider only at the end, but both end in the same session and the same request. |
| Collisions.DrowningOutcome | src/main.js:369-389 | From a valid session, drowning then restarting gives either the starting session (last life) or the same level with one life less, the same coins and no key. |
| Collisions.DoubleStompKillsHero | src/main.js:472-482 | Landing on two spiders in one frame stomps the first. The bounce then makes the second one kill the hero. |
| Collisions.KeyThenDoorEnters | src/main.js:396-401 | Taking the key and reaching the door in the same frame enters the door without showing the locked hint. |
| Collisions.DoorNeedsKey | src/main.js:398-405 | Without the key the door never opens. The only possible effect is the locked hint on level 0 for a grounded hero. |
| Collisions.DoorNeedsGround | src/main.js:398-405 | A hero in mid-air at the door changes nothing, even holding the key. Both guards need the hero on the ground. |
| Collisions.OnDoorEntered | src/main.js:537-545 | The end of the walk into the door asks for level+1 once. Only the pending continuation changes. |
| Collisions.ContinuationsRunOnce | src/main.js:530-545 | A continuation that has run asks for nothing the second time. |
| Levels.SpawnSpiders | src/main.js:616-626 | Sprite i is a loose spider at spawn point i, one per spawn point, and nothing else. |
| Levels.SpawnDecoration | src/main.js:560-564 | Image i is decoration i at its position and frame, with no physics body. |
| Levels.SpawnCoins | src/main.js:652-663 | Sprite i is a floating coin at coin position i, one per position, and nothing else. |
| Levels.SpawnPlatforms | src/main.js:628-650 | One anchored platform and two anchored enemy-only walls per platform. The walls come left then right, in platform order. |
| Levels.WallsShape | src/main.js:637-650 | Wall 2k is platform k's left wall and wall 2k+1 its right wall. |
| Levels.SpawnPullDoor | src/main.js:597-607 | An anchored pull door at the boxes position, then a floating switch at the switch position. |
| Levels.LoadLevel | src/main.js:547-607 | A pull door without a switch is the only load error. Any other descriptor loads with exactly as many sprites of each kind as it lists and two walls per platform. Spiders, hero, coins, key and door sit at their listed positions: spiders first, then the hero, and the coins just before the key and the door. Every body gets its kind's physics flags, and gravity is 1200. |
| Levels.LoadLevelAsWritten | src/main.js:340-346 | As written, water with no pull door is also a load error. What does load has the same counts, walls and placements as the corrected loader. |
| Levels.WaterWithoutPullDoorFailsAsWritten | src/main.js:577-583 | A descriptor with water and no pull door fails as written and loads when corrected. |
| Levels.WrittenWaterIsLoose | src/main.js:340-346 | Where the written loader does load water, the water body stays movable and under gravity. |
| Play.FreshWorld | src/main.js:609-625 | The start of a level: a new hero, new spiders, all coins and the key present, the door shut, and the hero's body in play with nothing pending. |
| Play.StartLevel | src/main.js:259-300 | The level a request leads to has a hero exactly as `new Hero` makes it and one spider per spawn point, each as `new Spider` makes it. Every coin and the key are in place, the door is shut, the locked hint is down and no continuation is pending. Its coin potential is coins held plus coins listed plus 5 per spider. It fails, with the missing-switch error, exactly when that level's descriptor has a pull door without its switch. That is the one descriptor the corrected loader rejects. |
| Play.UpdateSpiders | src/main.js:152-162 | Each spider runs its own update, and the number of live spiders is unchanged. |
| Play.Tick | src/main.js:348-356 | One frame keeps the coin potential and consistency. Coins never drop, at most one life is lost, and the level stays. The hero shows its table animation. Only the skip key asks for a level. |
| Play.DoorAdvancesLevel | src/main.js:537-545 | Going through the door from a valid session leads to level (l+1) mod 3 with no key and every counter kept. |

## Left out

- Asset loading, scaling and the loading state's preload (src/main.js:178-245): engine I/O.
- The HUD and its text updates (src/main.js:353-355, 688-718): presentation only.
- Sound effects and the random music choice (src/main.js:277-296, 358-360) are left out. Only the jump sound is kept, as a boolean, because it tells a take-off from a boost.
- The random 'spider'/'dozer' sprite sheet (src/main.js:124-130) has no effect on behaviour.
- Timers, tweens, camera fades, pausing, `alert` and `onPressCallback` are collapsed into returned requests. So are the 3-second retry delay and the game-over screen that waits for a key. Stale timers firing after a reset are not modelled.
- Physics integration and Phaser's collide/overlap mechanics are inputs. The order of the solid collisions within the frame is not modelled.
- Collisions.EventsOf: one overlap query visits the overlapping coins, and the overlapping spiders, in creation order. The physics engine picks that order, not the game code, and the engine's own visiting order is not modelled. The choice decides which spider is stomped first in Collisions.DoubleStompKillsHero.
- `downDuration(200)` is one boolean per frame.
- `_onHeroVsSwitch` (src/main.js:329-338) is left out. It only subscribes a key listener on every overlapping frame. So the pull door is never removed in the model.
- The dialog stub in `_handleInput` and `_deleteText` (src/main.js:430-441, 454-458) are left out. One is commented out and the other refers to undefined globals.
- Pixel geometry is not kept: anchors, the right wall placed at the platform's width, the key's bobbing, the intro text, the door tween's position and fade.
- Sprite removal (`kill`) after a death animation is left out. A dead spider's disabled body already keeps it out of every contact.
- The hero's `onKilled` signal is the `Pending` value. The model does not distinguish animation completion from `kill`.
- `this.pullDoor` surviving from an earlier level across a restart is not modelled. Each load starts without a pull door.
- `_spawnDoor` is defined twice with the same body (src/main.js:609-614, 681-686). It is modelled once.
- Sessions.Init: states the wrap only for non-negative indices. No caller in the game asks for a negative one, and `Common.JsRem` gives the truncating result for those.
- Play.StartLevel: loads through the corrected loader (Levels.LoadLevel). A level with water but no pull door therefore starts, where the code as written throws (see Findings).
- Play.Tick: states the jump sound's conditions only one way. The exact condition is in Input.HandleInput.

## Findings

| source | as written | input that shows it | evidently intended | confidence | as-written member | corrected member |
|---|---|---|---|---|---|---|
| src/main.js:340-346 | `_spawnWater` sets the immovable and no-gravity flags on `this.pullDoor`, not on the water it just created | A first level whose descriptor has `water` but no `doorBoxes`. `this.pullDoor` is undefined, so the load throws. | The water body is made immovable and gravity-free, and every descriptor with water loads | medium, not executed | Levels.LoadLevelAsWritten (Levels.WaterWithoutPullDoorFailsAsWritten, Levels.WrittenWaterIsLoose) | Levels.LoadLevel |
