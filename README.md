# Platformer simulation core in Dafny

This project models the per-frame simulation of a small 2D platformer written
in TypeScript. The player runs and jumps across platforms, stomps or runs into
patrolling enemies, and picks up coins. The modelled part is:

- the open-interval rectangle overlap test;
- the player's kinematics: horizontal speed set from the held keys, gravity,
  the horizontal clamp, the jump gate and `reset`;
- the minimum-penetration resolver that pushes the player out of platforms;
- the enemy patrol and its one-sided landing on platforms;
- the coin's `active` lifecycle and the platform's fixed rectangle;
- `Game.update` with `addScore` and `loseLife`: the enemy loop (move, land,
  stomp or hit, removal while iterating), the coin pass and the fall-off check;
- the level data (platforms, coins, enemies, spawn point).

Layout, one module per file:

- `geometry.dfy` (`Geometry`): rectangles, the collision test, penetration depths.
- `platform.dfy` (`Platforms`): the immutable platform record.
- `coin.dfy` (`Coins`): the `Coin` class (`active` flag, fixed position).
- `player.dfy` (`Players`): value-level player rules (`Body`, `Advance`,
  `ResolvePlatform`, ...) and the `Player` class, whose methods are proved to
  follow them.
- `enemy.dfy` (`Enemies`): value-level patrol and landing, and the `Enemy` class.
- `rules.dfy` (`Rules`): the whole frame as functions on values: score and
  lives bookkeeping, `Meet` (stomp / hit / miss), the enemy pass, the coin
  pass, the fall check, `Step` for one frame and `Session` for many.
- `game.dfy` (`Simulation`): the `Game` class with the level setup and
  `Update`. `Update` is proved to leave exactly the snapshot `Rules.Step` computes
  from the old one.

Objects the source updates in place are classes with `modifies` frames
(`Player`, `Enemy`, `Coin`, `Game`). `Player`, `Enemy` and `Coin` each have a
`State()` function giving, as a value, the fields the simulation reads: all of
an enemy's fields, but not the player's held keys (`held`) or the coin's
`rotation`, which are framed separately. `Game` has `World()` (player
state, score, lives, game over) and `Snap()` (that world plus the states of the
enemy and coin lists). Each loop in the source (`forEach` over platforms,
enemies and coins) is a `while` loop whose invariant ties the objects visited
so far to a fold over a prefix of the list. The enemy loop walks the list as it was
when the loop started, as JavaScript's `forEach` does, while a stomp replaces
`enemies` by a filtered copy. Its invariant keeps the live list equal to "the
survivors so far, followed by the enemies not yet visited".

Points where the code does something one might not expect, and the model does the same:

- **No terminal state.** After game over, `update` keeps running. Lives can
  go below zero, and a later fall or hit still calls `loseLife`
  (`Rules.GameOverIsNotRead`, `Rules.GameOverDoesNotStop`); restarting is a page reload.
- **Interleaved enemy turns.** Each enemy is moved, landed and met by the
  player before the next enemy moves, so an earlier enemy's hit (which may
  respawn the player) changes how later enemies are met.
- **Zero-width boxes can collide.** A zero-width box that lies strictly inside
  another box's horizontal range passes the test
  (`Geometry.ZeroWidthBoxCanCollide`).
- **A new coin has already spun once.** The coin constructor starts the spin
  animation, whose first frame runs at once, so a new coin's rotation is 0.05.

## Model

| member | source | states |
|---|---|---|
| Geometry.Intersects | src/game.ts:210-215 | the collision test, written once for the three copies in the source (also src/entities/Player.ts:195-200 and src/entities/Enemy.ts:97-102): both extents overlap as open intervals |
| Geometry.IntersectsSymmetric | src/game.ts:210-215 | swapping the two rectangles does not change the collision result |
| Geometry.TouchingEdgesDoNotCollide | src/game.ts:211-214 | rectangles that only share an edge, on either axis and in either order, do not collide, because the comparisons are strict |
| Geometry.SelfIntersects | src/game.ts:210-215 | a rectangle with positive width and height collides with itself |
| Geometry.ZeroWidthBoxCanCollide | src/game.ts:211-212 | a zero-width box strictly inside another box's x range does collide, so zero area is not enough to rule out a collision |
| Geometry.IntersectsIffPositivePenetration | src/entities/Player.ts:161-166 | two boxes collide exactly when all four overlap depths are strictly positive |
| Geometry.Penetration | src/entities/Player.ts:163-166 | the four overlap depths of the player box into a platform box: left, right, top and bottom, each the distance the player must move to clear that side |
| Geometry.MinOf | src/entities/Player.ts:169 | the minimum overlap is at most each of the four depths and equal to one of them |
| Platforms.Platform.Bounds | src/entities/Platform.ts:53-55 | the platform's collision rectangle, built from its fixed x, y, width and height |
| Platforms.BoundsAreConstructorRect | src/entities/Platform.ts:53-55 | a platform's bounds are exactly the x, y, width and height it was built with |
| Platforms.BoundsIgnoreStyle | src/entities/Platform.ts:14-20 | colour and texture URL have no effect on the bounds |
| Coins.CoinBounds | src/entities/Coin.ts:65-67 | a coin's box is the 20 by 20 square centred on its position |
| Coins.Coin.constructor | src/entities/Coin.ts:5-21 | a new coin is active, at the given position, and has run the first spin frame, so its rotation is 0.05 |
| Coins.Coin.Collect | src/entities/Coin.ts:55-56 | after collecting, the coin is inactive; collecting again keeps it inactive and changes nothing else |
| Coins.Coin.Spin | src/entities/Coin.ts:44-53 | one animation frame turns an active coin by 0.05 and leaves an inactive one still; nothing else changes |
| Coins.Coin.Bounds | src/entities/Coin.ts:65-67 | the box is centred on the fixed position and does not depend on rotation or `active` |
| Players.BodyBounds | src/entities/Player.ts:202-204 | the player's box is 24 by 54, centred on its position |
| Players.InputVelocity | src/entities/Player.ts:114-128 | the horizontal speed is -5 exactly when a left key is held, +5 exactly when only a right key is held, and 0 exactly when neither is held |
| Players.ClampX | src/entities/Player.ts:150-151 | the result lies in [15, 785]; values inside are kept, values below go to 15, values above go to 785 |
| Players.Advance | src/entities/Player.ts:112-152 | one movement frame: velocity from input, 0.8·delta added to the vertical speed, position moved by the new velocity, x clamped into [15, 785], grounded flag kept |
| Players.HorizontalVelocityIsNotIntegrated | src/entities/Player.ts:114-128 | the horizontal speed after a frame depends only on the held keys, not on the earlier state or on delta |
| Players.KeyDown | src/entities/Player.ts:101-104 | a key press changes the body exactly when it is a jump key and the player is grounded; a jump sets the vertical speed to -15 and clears the grounded flag |
| Players.NoJumpInTheAir | src/entities/Player.ts:101-104 | after a jump, a second key press before landing changes nothing |
| Players.Respawn | src/entities/Player.ts:206-210 | reset puts the player at the given point with both speeds zero and the grounded flag unchanged |
| Players.Branch | src/entities/Player.ts:169-190 | the chosen side's guard holds, and no side earlier in the order top, bottom, left, right has a guard that holds |
| Players.ResolvePlatform | src/entities/Player.ts:171-190 | landing puts the feet on the platform top, zeroes the vertical speed and sets grounded; hitting from below puts the head on the platform bottom; side hits put the player flush with the side and zero the horizontal speed; afterwards the boxes no longer collide; with no branch nothing changes |
| Players.ResolveMovesByMinimumPenetration | src/entities/Player.ts:162-190 | the resolver moves the player by exactly the smallest overlap depth, along the chosen side's axis |
| Players.OverlapWithoutFallingIsIgnored | src/entities/Player.ts:172-190 | one case: the player at rest at (100, 524), 1 unit into the ground, overlaps it but no branch fires and it is left where it is (not a general rule: when the top depth ties a side depth, the side branch fires) |
| Players.ResolveAll | src/entities/Player.ts:157-192 | resolving against a list of platforms never clears the grounded flag |
| Players.CheckPlatforms | src/entities/Player.ts:154-193 | the platform check on values: clear the grounded flag, then resolve against every platform in list order |
| Players.GroundedIffLanded | src/entities/Player.ts:154-176 | after platform resolution the player is grounded exactly when the landing branch fired for some platform in this call |
| Players.Player.constructor | src/entities/Player.ts:9-22 | a new player stands at the given point, at rest, not grounded, with no keys held |
| Players.Player.OnKeyDown | src/entities/Player.ts:97-105 | the key is recorded as held, and the body changes as KeyDown says |
| Players.Player.OnKeyUp | src/entities/Player.ts:107-109 | the key is no longer held |
| Players.Player.Update | src/entities/Player.ts:112-152 | the new state is Advance of the old state under the held keys |
| Players.Player.CheckPlatformCollisions | src/entities/Player.ts:154-193 | the grounded flag is cleared, then the player is resolved against every platform in list order |
| Players.Player.ResolveAgainst | src/entities/Player.ts:158-191 | one iteration of the platform loop leaves the state ResolvePlatform gives |
| Players.Player.GetBounds | src/entities/Player.ts:202-204 | the bounds are the 24 by 54 box centred on the current position |
| Players.Player.Reset | src/entities/Player.ts:206-210 | the new state is Respawn of the old one; the grounded flag and held keys do not change |
| Enemies.EnemyBounds | src/entities/Enemy.ts:104-106 | an enemy's box is 24 by 36, centred on its position |
| Enemies.Patrol | src/entities/Enemy.ts:63-80 | x moves by 2·direction·delta, 0.8·delta is added to the vertical speed, y moves by the new vertical speed, and the direction flips exactly when the new x is below 50 or above 750 |
| Enemies.Land | src/entities/Enemy.ts:84-93 | a falling enemy overlapping the platform gets its feet on the platform top and stops falling; any other enemy is unchanged; x and the direction never change |
| Enemies.LandAll | src/entities/Enemy.ts:82-95 | landing against all platforms keeps x and the direction, and either changes nothing or leaves the enemy not falling |
| Enemies.AtMostOneSnap | src/entities/Enemy.ts:89-91 | at most one platform snaps the enemy per call; with no snap the enemy is unchanged |
| Enemies.LandAllIsFirstHit | src/entities/Enemy.ts:82-95 | a falling enemy lands on the first platform it overlaps; a rising or resting enemy, or one overlapping nothing, is unchanged |
| Enemies.Enemy.constructor | src/entities/Enemy.ts:6-15 | a new enemy is at the given point, not falling, walking right |
| Enemies.Enemy.Update | src/entities/Enemy.ts:63-80 | the new state is Patrol of the old one; the direction stays 1 or -1 by its type |
| Enemies.Enemy.CheckPlatformCollisions | src/entities/Enemy.ts:82-95 | the new state is LandAll over the platforms in list order; only y and the vertical speed may change |
| Enemies.Enemy.GetBounds | src/entities/Enemy.ts:104-106 | the bounds are the 24 by 36 box centred on the current position |
| Rules.LoseLife | src/game.ts:222-232 | lives drop by exactly one and the score is kept; if lives remain, the player respawns at (100, 523) at rest; otherwise game over is entered and the player is not moved |
| Rules.AddScore | src/game.ts:217-218 | addScore on values: the score rises by the given points, everything else is kept |
| Rules.Meet | src/game.ts:167-180 | an overlap while the player falls and is above the enemy is a stomp: vertical speed -10 and exactly 100 points. Any other overlap is a hit: exactly one lost life. No overlap changes nothing |
| Rules.NoStompRightAfterStomp | src/game.ts:170-174 | after a stomp the player is rising, so the next enemy met in the same frame cannot be stomped |
| Rules.EnemyStep | src/game.ts:164-165 | one enemy's own part of a frame: patrol, then land on the platforms in list order |
| Rules.Visit | src/game.ts:164-180 | one turn of the enemy forEach callback: the enemy patrols and lands, then meets the player in the world the earlier turns left; its moved state and contact are appended |
| Rules.EnemiesPass | src/game.ts:162-181 | the enemy loop on values: enemies in list order, each moved, landed and met by the player in the world the earlier enemies left; one moved state and one contact per enemy |
| Rules.EnemiesPassAccounting | src/game.ts:162-181 | every enemy is moved and landed exactly once; the score rises by 100 per stomp and lives drop by one per hit |
| Rules.Survivors | src/game.ts:173 | the kept list is as long as the original minus the number of stomps |
| Rules.Kept | src/game.ts:173 | every kept index is in range and belongs to an enemy that was not stomped |
| Rules.KeptIndices | src/game.ts:173 | the kept indices are increasing, and every enemy that was not stomped is among them |
| Rules.SurvivorsAreKept | src/game.ts:162-181 | the surviving list is the original list minus the stomped enemies, in the original order |
| Rules.SurvivorsDistinct | src/game.ts:173 | survivors come from the list, and filtering a list without repeats gives a list without repeats |
| Rules.Without | src/game.ts:173 | the identity filter `filter(e => e !== enemy)`: the removed element no longer occurs and the list does not grow |
| Rules.WithoutMember | src/game.ts:173 | the identity filter keeps exactly the elements other than the removed one |
| Rules.WithoutSingle | src/game.ts:173 | filtering out an element that occurs once removes just that element and keeps the rest in order |
| Rules.PicksUp | src/game.ts:185 | the coin guard: the coin is still active and its box overlaps the player's box |
| Rules.CoinsPass | src/game.ts:184-192 | the coin loop on values: coins in list order, each still active and under the player collected for 10; the list keeps its length |
| Rules.CoinsPassCollects | src/game.ts:184-192 | each coin is collected exactly when it is active and overlaps the player; a collected coin becomes inactive and pays exactly 10; positions and list length never change |
| Rules.FallCheck | src/game.ts:204-207 | the fall-off check on values: below y = 700 costs one life, as Rules.LoseLife says |
| Rules.Run | src/game.ts:155-208 | one frame with its intermediate results: the world after player movement and platform resolution, the enemy pass, the coin pass, and the world after the fall check |
| Rules.Step | src/game.ts:155-208 | one whole frame on values: move and resolve the player, the enemy pass, the coin pass, the fall check; stomped enemies are dropped from the list |
| Rules.MovePhase | src/game.ts:156-160 | the first part of update: the player moves under the held keys and is resolved against the platforms; enemies and coins are untouched |
| Rules.EnemyPhase | src/game.ts:162-181 | the enemy part of update: the enemy pass over the list, leaving its world and the survivors; coins are untouched |
| Rules.CoinPhase | src/game.ts:184-192 | the coin part of update: the coin pass, leaving its world and coin states; enemies are untouched |
| Rules.FallPhase | src/game.ts:204-207 | the last part of update: the fall check on the world; enemies and coins are untouched |
| Rules.StepInPhases | src/game.ts:155-208 | a frame is player movement, then the enemy pass, then the coin pass, then the fall check, each working on the previous one's result |
| Rules.FrameAccounting | src/game.ts:155-208 | over a frame the score rises by 100 per stomp plus 10 per newly inactive coin, so it never decreases; lives drop by one per hit plus one for a fall |
| Rules.CoinsOnlyDeactivate | src/game.ts:184-192 | over a frame the coin list keeps its length and positions, and no coin goes from inactive to active |
| Rules.EnemiesAfterFrame | src/game.ts:162-181 | after a frame, the k-th enemy is the k-th non-stomped original enemy, moved once |
| Rules.PressKeys | src/entities/Player.ts:97-105 | a sequence of keydown events between frames, each applied as KeyDown says, in order |
| Rules.BeforeFrame | src/entities/Player.ts:97-105 | the key presses that come before a frame, applied to the player of the snapshot |
| Rules.Session | src/game.ts:155-208 | a run of frames, each preceded by its key presses. The held keys and delta of each frame are free inputs: they are not derived from the presses, and releases are not events, so a session allows more key histories than the program can produce and lemmas over it hold for all of them |
| Rules.SessionScore | src/game.ts:155-192 | over any sequence of frames the score never decreases and coins pay at most 10 each: no coin is collected twice |
| Rules.EnemiesPassIgnoresOver | src/game.ts:162-181 | the enemy pass never reads the game-over flag: worlds differing only in it give the same moved enemies, contacts, and world apart from the flag |
| Rules.CoinsPassIgnoresOver | src/game.ts:184-192 | the coin pass never reads the game-over flag: worlds differing only in it give the same coins and world apart from the flag |
| Rules.GameOverIsNotRead | src/game.ts:155-208 | for every snapshot, the player, score, lives, enemies and coins after a frame do not depend on whether the frame starts in the game-over state |
| Rules.GameOverDoesNotStop | src/game.ts:222-232 | one example: a frame that starts in the game-over state still runs, and a fall takes lives below zero |
| Simulation.LevelPlatforms | src/game.ts:97-122 | the level's platforms in creation order: the black ground (0, 550, 800 by 50), then the five green platforms (200, 450, 150 by 20), (400, 350, 150 by 20), (600, 250, 150 by 20), (150, 300, 100 by 20), (500, 180, 120 by 20), none textured |
| Simulation.CoinSpots | src/game.ts:125-133 | the six coin positions in creation order: (275, 410), (475, 310), (675, 210), (200, 260), (550, 140), (600, 140) |
| Simulation.EnemySpots | src/game.ts:142-146 | the two enemy start positions in creation order: (300, 420), (650, 220) |
| Simulation.SpawnRestsOnGround | src/game.ts:97-106 | at the spawn point (100, 523) the player's feet are exactly on the ground's top edge, touching but not colliding |
| Simulation.StatesOfSurvivors | src/game.ts:173 | the states of the surviving enemy objects are the survivors of the states |
| Simulation.NewCoins | src/game.ts:135-139 | one new coin object per position, in order, all distinct and all active |
| Simulation.NewEnemies | src/game.ts:148-152 | one new enemy object per position, in order, all distinct, at rest and walking right |
| Simulation.Game.constructor | src/game.ts:65-153 | the level as built: six platforms, player at spawn at rest, six active coins, two enemies, score 0, three lives, no game over |
| Simulation.Game.AddScore | src/game.ts:217-220 | the score rises by exactly the given points |
| Simulation.Game.GameOver | src/game.ts:234-266 | the game-over state is entered |
| Simulation.Game.LoseLife | src/game.ts:222-232 | the world changes as Rules.LoseLife says, and the score is kept |
| Simulation.Game.MoveEnemy | src/game.ts:164-165 | the visited enemy patrols and lands; no other enemy in the list changes |
| Simulation.Game.MeetPlayer | src/game.ts:167-180 | the world changes as Rules.Meet says; a stomp filters that enemy out of the live list; no enemy object changes |
| Simulation.Game.VisitEnemy | src/game.ts:163-181 | one enemy's turn advances the world, the moved states and the live list by one Rules.Visit step |
| Simulation.Game.EnemyTurn | src/game.ts:163-181 | if the loop state matches the enemy pass over the first i enemies, after one turn it matches the pass over the first i + 1 |
| Simulation.Game.EnemyLoop | src/game.ts:163-181 | the loop over the list as it was at the start ends in the world and enemy states of Rules.EnemiesPass, with the live list equal to the survivors in order |
| Simulation.Game.UpdateEnemies | src/game.ts:162-181 | every enemy present at the start is moved and met exactly once; the live list is the old list minus the stomped enemies, in order, without repeats |
| Simulation.Game.EnemyStage | src/game.ts:162-181 | the enemy part of the frame leaves the snapshot Rules.EnemyPhase computes |
| Simulation.Game.TakeCoin | src/game.ts:185-187 | coin i is collected and pays 10 exactly when it is active and overlaps the player; no other coin changes |
| Simulation.Game.VisitCoin | src/game.ts:184-192 | one coin's turn advances the coin loop by one step of Rules.CoinsPass |
| Simulation.Game.CoinLoop | src/game.ts:184-192 | the coin loop ends in the world and coin states of Rules.CoinsPass |
| Simulation.Game.CollectCoins | src/game.ts:183-192 | the coin part of the frame leaves the snapshot Rules.CoinPhase computes |
| Simulation.Game.MovePlayer | src/game.ts:156-160 | the player moves and is resolved against the platforms, as Rules.MovePhase says |
| Simulation.Game.CheckFall | src/game.ts:204-207 | a player below y = 700 costs exactly one life |
| Simulation.Game.MoveAndMeet | src/game.ts:155-181 | player movement followed by the enemy pass |
| Simulation.Game.CollectAndFall | src/game.ts:183-207 | the coin pass followed by the fall check; the enemy list is untouched |
| Simulation.Game.Update | src/game.ts:155-208 | one frame leaves exactly the snapshot Rules.Step computes, so Rules.FrameAccounting, Rules.EnemiesAfterFrame and Rules.CoinsOnlyDeactivate hold of it; the enemy list stays without repeats |

## Left out

- Drawing and text (PIXI graphics, sprites, the score and lives labels, the game-over texts): presentation only; the simulation never reads it.
- 3D model loading, the animation mixer, facing rotation and the 2D to 3D mapping of the player: asynchronous foreign callbacks and presentation.
- Audio (background music and its pause on game over): browser I/O.
- Camera scroll (src/game.ts:195-202): it moves display objects only; entity coordinates and bounds never read it.
- Timers: the `setTimeout` that removes a collected coin's graphic or fades it, and the `requestAnimationFrame` chain of the coin spin. `Coins.Coin.Spin` models one frame of that spin. The score and `active` changes these timers follow happen immediately and are modelled.
- The window key listeners and the restart by page reload: key state is the explicit set `held` of the player, changed by `OnKeyDown`/`OnKeyUp`, and a session is a list of key presses and frames (`Rules.Session`). In a session the held keys of each frame are a free input, not derived from the presses, and key releases are not events, so `Rules.SessionScore` covers every key history the program can produce and more. Restart is not modelled.
- src/main.ts (renderer, DOM setup, ticker bootstrap) is not part of this model; the driver's `delta` is a parameter.
- Floating point: coordinates, speeds and `delta` are exact reals, so IEEE-754 rounding is not modelled.
- The `color` field and texture choice of a platform are kept as data but only drawn; the brick pattern loop is drawing.
