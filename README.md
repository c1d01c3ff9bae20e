# Rabbit's Space Escape: the session model

A Dafny model of the game logic in `src/main.js` of Rabbit's Space Escape.
The game is a canvas game of 1024 x 768 pixels. The player steers a 30 x 30
ship left and right with ArrowLeft/`a` and ArrowRight/`d`; ArrowUp, `w`
and Space give thrust; ArrowDown and `s` do nothing. Space or a click
leaves the splash screen. Gravity pulls the ship down, and thrust pushes it
up.
Touching any edge of the field is lethal. Overlapping one of the three grey
obstacles is lethal too; unlike a wall, merely touching one along an edge
is not. Each of the five 20 x 20 carrots is worth 100
points, and a collected carrot is replaced by a fresh one at once. A crash
starts the explosion and schedules `gameOver` 500 ms later. `gameOver` keeps
the best score in local storage.

The model has five modules:

- `Geometry` (geometry.dfy): the field, boxes and the strict overlap test.
- `Spawn` (spawn.dfy): `spawnCarrot` and `spawnObstacle`. The values of
  `Math.random()` are parameters in [0, 1). A run's successive calls are a
  stream `nat -> Draw` read at a cursor.
- `Rules` (rules.dfy): the whole page state as one value, `World`. It holds
  the `state` and `player` records, the two lists, the held keys, the stored
  high score, the `gameOver` calls the timer still owes, and the draw
  cursor. Each handler and function of the script is a function on `World`.
- `Page` (game.dfy): the script's globals as one class, `Game`. Its methods
  overwrite fields, splice and push as the script does. The carrot and
  obstacle `forEach` loops are `while` loops. Every method's contract equates
  the new state with the matching `Rules` function of the old state.
- `Properties` (properties.dfy): what the rules guarantee.

Behaviour of the script worth knowing:

- `update` is skipped only on the splash screen and after game over
  (src/main.js:111). While the ship explodes and `gameOver` is still
  pending, the ship keeps moving and keeps collecting carrots. The score can
  still rise after a crash (`Properties.ScoreRisesWhileExploding`). The ship
  can also leave the field during that time. The model therefore proves
  "strictly inside the field, or exploding" (`Properties.TickWallIsLethal`),
  not "always inside".
- Walls are lethal on contact (`<=` and `>=`). Obstacles are lethal only on
  strict overlap, so an edge contact is harmless
  (`Properties.ObstacleEdgeIsHarmless`). Nothing clamps or bounces the ship.
  Obstacles do not move.
- Only the Space key and a click start the game. Nothing in the page calls
  `resetGame`, and game over is final until the page is reloaded.
  `resetGame` is modelled all the same. It does not cancel a `gameOver` that
  is still pending.
- The carrot loop is `forEach` over a list that it splices and pushes. The
  loop visits the indices below the length the list had when it started.
  After a splice, the next carrot moves into the slot just visited and is
  skipped in that pass (`Properties.SplicedNeighbourIsSkipped`). The
  replacement is pushed into the last slot. When the collected carrot was
  not the last one and nothing after it is collected first, the pass still
  reaches that slot, so a replacement spawned on the ship is collected in
  the same pass (`Properties.ReplacementCollectedSamePass`). When a later
  splice shifts it into a visited slot, or the collected carrot was the
  last, it waits for the next tick.

## Model

| member | source | states |
|---|---|---|
| `Geometry.OverlapsIffCommonInterior` | src/main.js:163-166 | for boxes of positive size, the strict overlap test holds exactly when the two boxes share an interior point |
| `Geometry.TouchingIsNotOverlap` | src/main.js:175-178 | boxes that only share an edge or a corner do not collide |
| `Spawn.Scale` | src/main.js:86-87 | `Math.random() * room` lies in [0, room) for any draw in [0, 1) |
| `Spawn.CarrotAt` | src/main.js:84-91 | a spawned carrot is 20 x 20, with 0 <= x < 1004 and 0 <= y < 748, so it lies inside the field |
| `Spawn.ObstacleAt` | src/main.js:94-103 | a spawned obstacle has width and height in [30, 80) and lies inside the 1024 x 768 field |
| `Spawn.CarrotsFromAreCarrots` | src/main.js:106 | every carrot that a counted loop of `spawnCarrot` pushes has carrot size and fits the field |
| `Spawn.ObstaclesFromAreObstacles` | src/main.js:107 | every obstacle that a counted loop of `spawnObstacle` pushes is in the size range and fits the field |
| `Rules.Collect` | src/main.js:162-171 | one pass of the carrot loop keeps the list's length, collects at most one carrot per visited index, and takes exactly two draws per collected carrot |
| `Rules.EndSession` | src/main.js:289-295 | `gameOver` sets the flag, and the high score becomes max(old high score, score). The high score and the stored value change only when the score is strictly greater. Nothing else changes |
| `Page.Game.constructor` | src/main.js:29-107 | the page load gives the declared `state` and `player` records, with the high score read from storage (0 if absent), then 5 carrots and 3 obstacles |
| `Page.Game.SpawnCarrot` | src/main.js:84-91 | `spawnCarrot` pushes one carrot made from the next two draws |
| `Page.Game.SpawnObstacle` | src/main.js:94-103 | `spawnObstacle` pushes one obstacle made from the next four draws, in the order width, height, x, y |
| `Page.Game.SpawnCarrots` | src/main.js:310 | `n` calls of `spawnCarrot` on an empty list leave the `n` carrots of the draw stream |
| `Page.Game.SpawnObstacles` | src/main.js:311 | `n` calls of `spawnObstacle` on an empty list leave the `n` obstacles of the draw stream |
| `Page.Game.Seed` | src/main.js:106-107 | the two counted loops fill the empty lists with 5 carrots, then 3 obstacles |
| `Page.Game.KeyDown` | src/main.js:60-68 | the key is marked held, and Space on the splash screen starts the game |
| `Page.Game.KeyUp` | src/main.js:70-72 | the key is no longer held |
| `Page.Game.Click` | src/main.js:75-81 | a click on the splash screen starts the game, and otherwise changes nothing |
| `Page.Game.Explode` | src/main.js:153-158 | a hit sets the latch, zeroes the explosion frame and schedules one `gameOver`, unless the latch is already set |
| `Page.Game.MovePlayer` | src/main.js:113-148 | the movement applies steering, thrust, gravity, the position update and friction, in that order |
| `Page.Game.CollectCarrots` | src/main.js:162-171 | the in-place carrot loop, with splice and push, leaves exactly the list, score and draw cursor of `Rules.Collect` |
| `Page.Game.CheckObstacleHits` | src/main.js:174-186 | the obstacle loop leaves exactly the state of `Rules.CheckObstacles` |
| `Page.Game.Update` | src/main.js:110-187 | `update` leaves exactly the world of `Rules.Tick` |
| `Page.Game.GameOver` | src/main.js:289-295 | `gameOver` leaves exactly the world of `Rules.EndSession` |
| `Page.Game.TimerFires` | src/main.js:157 | the timer runs one owed `gameOver` and uses it up. With none owed, nothing happens |
| `Page.Game.DrawFrame` | src/main.js:199-246 | the only state that `draw` changes is the explosion frame, which advances once the game has started, while exploding |
| `Page.Game.Restore` | src/main.js:299-309 | the head of `resetGame` restores the flags, score and player, and empties both lists |
| `Page.Game.ResetGame` | src/main.js:298-312 | `resetGame` leaves exactly the world of `Rules.Reset` |
| `Properties.MoveClosedForm` | src/main.js:115-148 | one tick of movement in closed form: the new velocity is (old velocity + acceleration) * 0.98, the position moves by the undamped new velocity, and when both steering keys are held the ship faces right |
| `Properties.AtWallIffNotInside` | src/main.js:151-152 | the wall test fires exactly when the ship's box is not strictly inside the field |
| `Properties.ReplaceSwapsOne` | src/main.js:167-169 | splice and push keep the length, swap one carrot for the new one as a multiset, and put the new one last |
| `Properties.ReplaceKeepsCarrots` | src/main.js:167-169 | splicing one carrot out and pushing a carrot-sized box within the field keeps every carrot carrot-sized and within the field |
| `Properties.CollectKeepsCarrots` | src/main.js:162-171 | a pass of the carrot loop keeps every carrot carrot-sized and within the field |
| `Properties.CollectsIffContact` | src/main.js:162-171 | a pass collects something exactly when a carrot in a visited slot overlaps the ship |
| `Properties.CollectWithoutContact` | src/main.js:162-171 | with no carrot in reach, the pass changes nothing and takes no draws |
| `Properties.CollectKeepsVisited` | src/main.js:162-171 | the pass from slot `i` leaves every slot below `i` as it was: splices and pushes only move later slots |
| `Properties.CollectSkipsMisses` | src/main.js:162-171 | carrots that do not overlap the ship are passed over without any change |
| `Properties.SplicedNeighbourIsSkipped` | src/main.js:162-171 | for any list and any collected carrot that is not the last, its neighbour ends the pass in the collected carrot's slot: it is never visited, whether or not it overlaps the ship |
| `Properties.SplicedNeighbourExample` | src/main.js:162-171 | two adjacent carrots both overlap the ship and only the first is collected |
| `Properties.ReplacementCollectedSamePass` | src/main.js:162-171 | when the collected carrot is not the last, no later carrot overlaps the ship and the replacement spawns overlapping it, the pass collects exactly two carrots, takes four draws and ends with the second replacement in the last slot |
| `Properties.ReplacementExample` | src/main.js:162-171 | one carrot overlapped, two collected: an instance with a concrete draw stream |
| `Properties.CheckObstaclesIsLatch` | src/main.js:174-186 | however many obstacles overlap, the obstacle loop fires the latch at most once: it applies `Explode` or nothing |
| `Properties.TickInert` | src/main.js:111 | on the splash screen or after game over, `update` changes nothing |
| `Properties.TickFrame` | src/main.js:110-187 | `update` never touches the splash and started flags, game over, the high score, storage, obstacles or keys |
| `Properties.TickUnfold` | src/main.js:110-187 | a playing tick is the move and the carrot harvest, followed by one `Explode` if the ship hits a wall or an obstacle |
| `Properties.TickCollects` | src/main.js:161-171 | the carrot count is unchanged, the score rises by a multiple of 100 with two draws per collected carrot, and it rises exactly when the moved ship overlaps a carrot |
| `Properties.TickScoreNeverDecreases` | src/main.js:168 | `update` never lowers the score |
| `Properties.TickLatch` | src/main.js:150-186 | once exploding, hits change neither the flag, the frame nor the pending `gameOver` calls. Before that, a wall contact or obstacle overlap sets the flag, zeroes the frame and schedules exactly one `gameOver`, and nothing else does |
| `Properties.ScoreRisesWhileExploding` | src/main.js:110-171 | while a crash is pending, `update` still collects carrots and raises the score |
| `Properties.TickWallIsLethal` | src/main.js:150-159 | after a playing tick, the ship is strictly inside the field or exploding |
| `Properties.ObstacleEdgeIsHarmless` | src/main.js:174-186 | a playing tick whose moved ship clears the walls and meets every obstacle only along an edge or at a corner starts no explosion and schedules no `gameOver` |
| `Properties.FireGameOverUsesTimer` | src/main.js:157 | the timer fires `gameOver` only when a call is owed. It then ends the session with the high score at max(high score, score) and leaves the score as it was |
| `Properties.SeededFills` | src/main.js:106-107 | the start-up loops leave 5 carrots and 3 obstacles, each of its kind's size and within the field, take 22 draws and change nothing else |
| `Properties.ResetRestores` | src/main.js:298-312 | after `resetGame`: score 0, no explosion, no game over, frame 0, the ship at (497, 384) at rest facing right, 5 carrots and 3 obstacles. The high score, storage, splash flags, pending timers and keys are kept |
| `Properties.ResetTwice` | src/main.js:298-312 | resetting twice gives the same world as resetting once, apart from where the new carrots and obstacles land |
| `Properties.InitialInv` | src/main.js:29-107 | the loaded page satisfies the session invariant and shows the splash screen |
| `Properties.ResetInv` | src/main.js:298-312 | `resetGame` keeps the session invariant |
| `Properties.TickInv` | src/main.js:110-187 | `update` keeps the session invariant: 5 carrots and 3 obstacles of their sizes within the field, a non-negative score that is a multiple of 100, and a high score equal to the stored one |
| `Properties.StepKeeps` | src/main.js:314-319 | any one event keeps the invariant, never lowers the score or the high score, never clears game over, and never re-arms the latch |
| `Properties.RunKeeps` | src/main.js:314-321 | over any sequence of events the same holds, so once the explosion has started it is never started again |
| `Properties.InitialOneTimer` | src/main.js:29-107 | the loaded page owes no `gameOver` call |
| `Properties.StepOneTimer` | src/main.js:150-186 | every event keeps the timer bookkeeping: at most one `gameOver` owed, none before the explosion starts and none after game over |
| `Properties.RunOneTimer` | src/main.js:314-321 | the timer bookkeeping holds over any sequence of events |
| `Properties.SessionSchedulesOneGameOver` | src/main.js:153-158 | from the page load, whatever events arrive, at most one `gameOver` is ever owed |
| `Properties.Best` | src/main.js:291-292 | the running maximum of a starting value and a list of scores is at least each of them and is one of them |
| `Properties.StoredIsBest` | src/main.js:289-295 | the stored high score after a series of sessions is the maximum of the starting value and all final scores |
| `Properties.StoredHighScoreScenario` | src/main.js:291-294 | a stored 500 survives a session that ends at 300 and is replaced by one that ends at 700 |
| `Properties.StartLeavesSplash` | src/main.js:63-80 | Space and a click both leave the splash screen and start the game. Any other key is only recorded as held and changes nothing else |

## Left out

- Rendering in `draw` (src/main.js:190-286) is not modelled: canvas calls,
  image readiness, text and colours. Only its explosion-frame counter is
  kept, as `DrawFrame`.
- Images, background music and the swoosh and explosion sounds are not
  modelled (src/main.js:10-27, 66, 79, 135-136, 156, 182). They are
  fire-and-forget calls with no effect on game state. A change of facing is
  modelled, but the sound it restarts is not.
- `setTimeout(gameOver, 500)`: the 500 ms delay is not modelled. A scheduled
  call is a counter, `pendingGameOver`, and an explicit timer event,
  `TimerFires`, runs one owed call.
- `localStorage` is modelled as an optional integer. Neither the string
  conversion nor `Number(...)` of a stored value that is not a number is
  modelled: the stored value is taken to be an integer, as `gameOver`
  writes it.
- `requestAnimationFrame` and the `gameLoop` driver are left out. One frame
  is the `Frame` event: `update`, then the state change of `draw`.
  Listener registration is left out. Only the handlers' effects are kept.
- Floating point: positions, velocities and the constants 0.3, 0.15, -0.5 and
  0.98 are exact reals. Rounding is not modelled.
- `Math.random` is a parameter stream of values in [0, 1), read in the
  script's call order.
- `Spawn.CarrotsFrom`, `Spawn.ObstaclesFrom`: their own contracts state only
  the number of boxes. That they fit the field is proved separately by
  `Spawn.CarrotsFromAreCarrots` and `Spawn.ObstaclesFromAreObstacles`.
