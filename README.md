# Turtle's Adventure: a Dafny model of the simulation rules

Turtle's Adventure is a small arcade game. It has these parts:

- **The player.** A turtle walks toward a waypoint that is set by clicking.
- **Home.** The player wins on reaching this fixed square goal region.
- **The enemies.** Several kinds of enemy move on their own. The player loses if an enemy's square strictly contains the player.
- **The enemy generator.** It spawns enemies in batches.

This project models the game's simulation rules in `turtle_adventure.py`. It leaves out the Tk canvas drawing and the `gamelib` event loop.

Modules:

- `Geometry` (`geometry.dfy`) holds Home as a value and the two square tests.
  - `HomeContains` is Home.contains. It is closed: the edge counts as inside.
  - `Hits` is Enemy.hits_player. It is open: touching the edge is not a hit.
  - Lemmas state where the two edge policies differ.
- `Fencing` (`fencing.dfy`) is the fencing enemy's patrol. It walks around the square of side 80 centred on Home, heading right, down, left, up. It has:
  - a step function whose contract states the turning rule, the clamping and the stay-inside property;
  - the lemma that the enemy never leaves the square;
  - the lemma that, from a corner, the patrol passes the other three corners after 20, 40 and 60 ticks and comes back to the first with the same heading after 80 ticks.
- `RandomWalk` (`random_walk.dfy`) covers the random-walk enemy. It has:
  - the velocity chosen from one of four headings;
  - the reflecting step;
  - lemmas that speed and axis are kept forever.
- `Teleporting` (`teleporting.dfy`) covers the teleporting enemy. It has:
  - the cooldown counter;
  - lemmas that, from zero, the counter after n updates is n mod 60, a teleport happens on exactly every 60th update, and n div 60 teleports happen in n updates;
  - the teleport destination: within 200 of the player or of Home on each axis.
- `Spawning` (`spawning.dfy`) is the rejection-sampling placement of one fencing enemy. It is a method with a loop. It proves four things. The result is never at home. The result is the first draw that falls outside Home, so every earlier draw was rejected. The placed point lies within 25 of Home. An enemy that draws nothing keeps its initial position.
- `Adventure` (`adventure.dfy`) holds the mutable objects as classes:
  - `Waypoint` and `Player`;
  - the enemy variants `DemoEnemy`, `RandomWalkEnemy`, `FencingEnemy` and `TeleportingEnemy`;
  - the session `Game`, which is TurtleAdventureGame, with its enemy list and its state `Running | Won | Lost`;
  - the spawn bodies of `EnemyGenerator`.

  Each `Update` method is written step by step, as the game writes it, and its contract states the new state:
  - `FencingEnemy.Update` and `RandomWalkEnemy.Update` are proved equal to `Fencing.Step` and `RandomWalk.Step`.
  - `TeleportingEnemy.Update` is stated through `Teleporting.CounterStep` and `Teleporting.Destination`.
  - `DemoEnemy.Update` and `Player.Update` state their new position directly.

  On every enemy's `Update`, a running session becomes `Lost` exactly when `Hits` holds at the new position; an ended session keeps its outcome.

Some inputs become method parameters:

- **Randomness.** Each random draw is a parameter, bounded as `random.randint` bounds it. The fencing placement draws from an infinite stream `nat -> (int, int)`. It assumes the stream does not stay inside Home forever, which is what makes the rejection loop end.
- **Initial positions.** An element's position after construction comes from `gamelib`, which is not part of this model, so it is the parameter `(x0, y0)`.
- **The session back-reference.** Every element holds a reference to the session. Here the session is passed to the update methods as the parameter `game`.

In these details the model follows the code:

- `Player.update` does not return after `game_over_win`. The player still moves in that tick.
- The fencing spawn draws a first position only when neither initial coordinate equals Home's (line 330 uses `and`). Otherwise the enemy keeps its initial position unless that position is at home.
- Each teleporting spawn is placed over the arena only when neither initial coordinate equals 100.
- Enemy size is never checked to be positive, and the model does not require it.

## Model

| member | source | states |
|---|---|---|
| Geometry.HomeContains | turtle_adventure.py:127-133 | a point is at home exactly when it is at most size/2 from Home's centre on both axes: inclusive bounds |
| Geometry.Hits | turtle_adventure.py:236-244 | the player is hit exactly when it is strictly less than size/2 from the enemy's centre on both axes |
| Geometry.HomeBorderIsInside | turtle_adventure.py:131-133 | every point on Home's edge, corners included, counts as inside |
| Geometry.BorderIsNoHit | turtle_adventure.py:240-244 | a player exactly on the enemy's edge, e.g. at (x + size/2, y), is not hit |
| Geometry.JustInsideIsHit | turtle_adventure.py:240-244 | a player at (x + size/2 - eps, y) with 0 < eps < size is hit |
| Geometry.ClosedMinusOpenIsBorder | turtle_adventure.py:131-133 | for one square, the closed test holds and the open one fails exactly on the border |
| Fencing.Step | turtle_adventure.py:470-497 | the heading stays or advances right→down→left→up→right, and it advances exactly when the enemy lands on the side it headed for, clamped there; only the coordinate along the heading changes; from inside the 80-side square it stays inside and moves forward by 0 to 4 |
| Fencing.RunStaysInSquare | turtle_adventure.py:470-497 | an enemy that starts inside the square around Home is inside after any number of updates |
| Fencing.RunAdd | turtle_adventure.py:468-497 | n + m updates are n updates followed by m updates |
| Fencing.StepAlong | turtle_adventure.py:478-497 | one update 4j along a side moves 4 further; the 20th update lands on the next corner and turns |
| Fencing.WalkSide | turtle_adventure.py:478-497 | from any point along a side, the enemy reaches the next corner, turned toward the next side, in the remaining ticks |
| Fencing.TwoSides | turtle_adventure.py:478-497 | from a corner, after 40 updates the enemy is at the opposite corner, turned toward the third side |
| Fencing.ThreeSides | turtle_adventure.py:478-497 | from a corner, after 60 updates the enemy is at the last corner, turned toward the fourth side |
| Fencing.Lap | turtle_adventure.py:478-497 | from a corner, after 80 updates, the enemy is back at that corner with the same heading; after 20, 40 and 60 updates it is at the next three corners, turned toward the next side each time |
| RandomWalk.Velocity | turtle_adventure.py:392-408 | the chosen velocity has exactly one zero component, and the other is ±3 |
| RandomWalk.VelocityInjective | turtle_adventure.py:396-408 | the four headings give four different velocities |
| RandomWalk.Step | turtle_adventure.py:365-377 | the enemy moves by (dx, dy); each component is kept or negated, never both at once; a non-zero component is negated exactly when the new square touches or crosses a wall of its axis; speed 3 along one axis is kept |
| RandomWalk.RunKeepsMoving | turtle_adventure.py:365-377 | after any number of updates an enemy that started moving along one axis with \|dx\|+\|dy\| = 3 still does so, and the component that started at zero is still zero |
| Teleporting.CounterStep | turtle_adventure.py:526-530 | a counter in [0, 59] stays in [0, 59]; from a non-negative counter, the update teleports exactly when the counter resets to 0; from a counter in [0, 59], it teleports exactly when the counter was 59; otherwise the counter goes up by 1 |
| Teleporting.CounterAfterIsRemainder | turtle_adventure.py:520-530 | starting from 0, the counter after n updates is n mod 60, so it stays in [0, 59] |
| Teleporting.TeleportRhythm | turtle_adventure.py:526-530 | starting from 0, the n-th update teleports exactly when n is a multiple of 60 |
| Teleporting.TeleportCount | turtle_adventure.py:526-530 | starting from 0, the first n updates teleport n div 60 times |
| Teleporting.Destination | turtle_adventure.py:549-555 | with offsets from [-200, 200], the landing point is within 200 of the player, or of Home (as the coin flip chose), on each axis |
| Spawning.PlaceFencing | turtle_adventure.py:329-335 | the placed enemy is never at home; when anything is drawn the result is the last draw, every earlier draw fell inside Home, and the result lies within 25 of Home; something is drawn when neither initial coordinate equals Home's or the initial position is at home; otherwise nothing is drawn and the initial position is kept |
| Spawning.NearHomeInSquare | turtle_adventure.py:327-335 | a spawn drawn within 25 of Home lies inside the fence square of side 80 around Home; with Fencing.RunStaysInSquare, a sampled fencing enemy never leaves that square |
| Adventure.Finish | turtle_adventure.py:601-623 | a game-over call ends a running game with its outcome; a game that has ended stays ended with its first outcome |
| Adventure.Waypoint.constructor | turtle_adventure.py:34-38 | a new waypoint is inactive |
| Adventure.Waypoint.IsActive | turtle_adventure.py:78-83 | reports whether the waypoint is active |
| Adventure.Waypoint.Activate | turtle_adventure.py:64-70 | afterwards the waypoint is active at exactly (x, y) |
| Adventure.Waypoint.Deactivate | turtle_adventure.py:72-76 | afterwards the waypoint is inactive, and it has not moved |
| Adventure.Player.constructor | turtle_adventure.py:141-147 | a new player has the given position and speed |
| Adventure.Player.Update | turtle_adventure.py:172-182 | a running game becomes Won when the player is at home at the start of the tick, and an ended game keeps its outcome; the update goes on; with an active waypoint the player moves, and the waypoint is cleared exactly when the remaining distance is below the speed; with an inactive waypoint nothing moves |
| Adventure.DemoEnemy.constructor | turtle_adventure.py:258-263 | a new demo enemy has the given position and side |
| Adventure.DemoEnemy.Update | turtle_adventure.py:268-272 | the enemy moves by exactly (+1, +1); a running game becomes lost exactly when the new square strictly contains the player; an ended game keeps its outcome |
| Adventure.RandomWalkEnemy.constructor | turtle_adventure.py:351-359 | a new random-walk enemy has velocity (0, 0) |
| Adventure.RandomWalkEnemy.ChooseRandomDirection | turtle_adventure.py:392-408 | the velocity becomes that of the chosen heading, one axis at speed 3 |
| Adventure.RandomWalkEnemy.Update | turtle_adventure.py:365-380 | the new state is RandomWalk.Step of the old one, so axis-aligned speed 3 is preserved; a running game becomes lost exactly when the player is hit at the new position; an ended game keeps its outcome |
| Adventure.FencingEnemy.constructor | turtle_adventure.py:459-463 | a new fencing enemy heads right |
| Adventure.FencingEnemy.Update | turtle_adventure.py:468-500 | the new state is Fencing.Step of the old one, so an enemy inside the square stays inside; a running game becomes lost exactly when the player is hit at the new position; an ended game keeps its outcome |
| Adventure.TeleportingEnemy.constructor | turtle_adventure.py:517-521 | a new teleporting enemy's counter is 0 |
| Adventure.TeleportingEnemy.Teleport | turtle_adventure.py:545-555 | the enemy lands at the chosen anchor plus the drawn offsets |
| Adventure.TeleportingEnemy.Update | turtle_adventure.py:526-533 | the counter follows Teleporting.CounterStep and stays in [0, 59]; the enemy teleports exactly when the counter wraps and otherwise stays; a running game becomes lost exactly when the player is hit at the resulting position; an ended game keeps its outcome |
| Adventure.Game.constructor | turtle_adventure.py:564-592 | a new session runs with no enemies, Home of side 20 at (width - 100, height div 2), the player of speed 5 at (50, height div 2), and an inactive waypoint |
| Adventure.Game.AddEnemy | turtle_adventure.py:594-599 | the enemy is appended at the end; the earlier enemies and their order are unchanged |
| Adventure.Game.GameOverWin | turtle_adventure.py:601-611 | a running game becomes Won; an ended game is unchanged |
| Adventure.Game.GameOverLose | turtle_adventure.py:613-623 | a running game becomes Lost; an ended game is unchanged |
| Adventure.EnemyGenerator.constructor | turtle_adventure.py:290-292 | the generator belongs to the given session and level |
| Adventure.EnemyGenerator.CreateFencingEnemies | turtle_adventure.py:326-336 | exactly 15 new fencing enemies, 15 different objects, are appended after the unchanged earlier ones; each heads right, has side 20 and is not at home; each lies within 25 of Home when it was sampled (its initial position shares no coordinate with Home's centre, or is at home), and otherwise keeps its initial position |
| Adventure.EnemyGenerator.CreateTeleportingEnemies | turtle_adventure.py:337-343 | exactly 5 new teleporting enemies, 5 different objects, with counter 0 and side 20 are appended after the unchanged earlier ones; the j-th is at the j-th arena draw when no initial coordinate is 100, and at its initial position otherwise |

## Left out

- Drawing and the presentation layer are not modelled: `create`, `render` and `delete` of every element, the shapes and colours, and the "You Win"/"You Lose" banners. They do not affect the simulation.
- The click binding (line 587) is not modelled. `Waypoint.Activate` is the operation it calls.
- The `gamelib` module is not part of this model. So the tick loop, `add_element`, `Game.stop()` and the `after` timers are absent:
  - the first-fire delays and the repeats at lines 294-297, 319, 325 and 344;
  - the spawn methods are modelled as single bodies;
  - the session state field stands in for `stop()`.
- `Adventure.Finish`: the game's `game_over_win`/`game_over_lose` keep no state of their own; what `stop()` does is unknown. The model records the first outcome and ignores later game-over calls in the same tick. The game itself would draw a second banner.
- ChasingEnemy is not modelled (lines 410-452). Its movement normalises a vector with a floating-point square root.
- `create_random_enemy` and `create_chasing_enemy` are not modelled (lines 313-325). The first uses hard-coded 700×400 ranges, and it registers with `add_element` rather than `add_enemy`. Both are timer callbacks.
- `Adventure.Player.Update`: the turtle library's `towards`, `forward` and `distance` are unseen trigonometry. The caller supplies the landing point and the remaining distance as parameters. The model does not constrain them to a step of length `speed`.
- `Adventure.TeleportingEnemy.Update`: the two random offsets are parameters. They must lie in [-200, 200] even on ticks that do not teleport, where the game draws none.
- `Spawning.PlaceFencing` and `Adventure.EnemyGenerator.CreateFencingEnemies` assume that the random stream does not stay inside Home forever. The game's loop has no such guarantee; it ends with probability 1.
- Home's `size` setter and the empty `update` methods of Home and Waypoint are not modelled. Nothing in the core calls the setter, and the update methods do nothing.
- The enemy's colour is not modelled. Nothing in the simulation reads it. The generator and the session store the level, but nothing in the simulation reads it.
- `Adventure.Game` has no `enemy_generator` field (lines 572 and 589), and its constructor does not build one. An `EnemyGenerator` is built separately from a `Game` and a level.
- Floating-point rounding is not modelled: coordinates are exact reals.
