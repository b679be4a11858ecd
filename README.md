# navex game rules in Dafny

navex is a small pygame arcade game. The player (a pink circle steered
with W/A/S/D) dodges obstacles and missiles. Four towers sit in the
corners of the window and launch those missiles. This project models the
rules one frame of `game_loop` applies to the list of game objects, and
proves what those rules promise:

- `Objects`: the game object `Gobj` and the circle overlap test
  `Gobj.collides`.
- `Input`: `Player.handle_input`, which turns the four movement keys into
  a direction and moves the player along it.
- `Spawner`: the block that appends one missile at a random tower when
  the in-flight counter is below the maximum and the timer has run out.
- `Collision`: the nested loops that resolve every overlapping pair
  `i < j` and mark the losers dead. They are specified as a fold over the
  pairs in the order the loops visit them. Lemmas give the result's
  meaning independently of that order.
- `Scoring`: the points that pass adds. Each missile earns one point per
  other non-tower object it overlaps.
- `Pruning`: `objs = [o for o in objs if o.alive]`.
- `Game`: the locals of `game_loop` as the fields of class `Game`. Its
  methods run the stages of a frame in place, in the source's order.
  `Tick` runs one whole frame and is proved equal to the pure function
  `Frame`. The lemmas about `Frame` state what a frame does to a running
  game.

Objects are values in a sequence. The source's names `player`, `red`,
`blue`, `green` and `yellow` are the entries 0 to 4 of that sequence.
They stay there for three reasons:

- the player comes first;
- towers never die;
- pruning keeps the order of the survivors.

`Game.Valid` states this layout, and every frame that does not end the
game preserves it.

Three behaviours of the source that are easy to misread:

- The spawn test is strict: the time since the last spawn must exceed the
  timer.
- `missiles_in_flight` is never changed, so the maximum is not a cap
  (`Spawner.TimerIsTheOnlyLimit`). Only a maximum of 0 or less has an
  effect: it disables missiles for the whole game
  (`Spawner.SaturatedNeverSpawns`).
- The obstacle positions are fresh random values. The retry loops before
  them compute coordinates that are then thrown away.

## Model

| member | source | states |
|---|---|---|
| Objects.NewGobj | navex.py:35-48 | a new object is alive, at rest, and has the given position, radius, colour and kind |
| Objects.Collides | navex.py:56-61 | `a.collides(b)` as `R > 0 && Dist2 < R * R` for the radius sum R, without a square root; only circles of positive total radius can collide. CollidesByDistance ties it to the source's `sqrt` test |
| Objects.CollidesByDistance | navex.py:56-61 | for the centre distance d, two objects collide exactly when d is less than the sum of their radii |
| Objects.CollidesSymmetric | navex.py:56-61 | the overlap test gives the same answer for (a, b) and (b, a) |
| Objects.TouchingDoesNotCollide | navex.py:56-61 | circles whose centres are exactly the sum of the radii apart do not collide |
| Input.Intention | navex.py:68-84 | each of mx and my is in {-1, 0, 1}; 'a' wins over 'd' and 'w' over 's'; an axis is 0 exactly when neither of its keys is held |
| Input.StillIffNoKey | navex.py:85-88 | for dt > 0 the player stays in place exactly when no movement key is held |
| Input.Moved | navex.py:85-88 | the player after `handle_input`: moved along the unit direction by PLAYER_VEL * dt when the direction is not zero; only x and y can change. StillIffNoKey, AxisStepIsExact and DiagonalStepIsBalanced give the step its size |
| Input.AxisStepIsExact | navex.py:73-88 | with 'w' and 's' released the player moves PLAYER_VEL * dt left or right, as the winning key says, and keeps its y; with 'a' and 'd' released it moves PLAYER_VEL * dt up or down and keeps its x |
| Input.DiagonalStepIsBalanced | navex.py:85-88 | on a diagonal both coordinates move by InvSqrt2 · PLAYER_VEL · dt, each in the sign of its key, so the step has length PLAYER_VEL * dt up to a relative error below 1e-15 in its square: the division by `length(mx, my)` makes diagonal moves as fast as axis moves |
| Spawner.TowerIndex | navex.py:237-253 | 'r', 'b' and 'g' select the red, blue and green tower; any other letter selects the yellow one |
| Spawner.Spawn | navex.py:235-254 | appends one missile exactly when counter < maximum and elapsed time > timer; the missile sits on the chosen tower's centre, alive, at rest, radius 5; the spawn time is reset only then; the earlier objects are untouched |
| Spawner.SpawnRun | navex.py:235-254 | over n frames the spawner appends at most n objects and never changes the earlier ones |
| Spawner.SaturatedNeverSpawns | navex.py:203-235 | while the counter is not below the maximum nothing is ever spawned; a maximum of 0 or less disables missiles |
| Spawner.TimerIsTheOnlyLimit | navex.py:203-236 | because the counter never changes, every frame past the timer adds a missile however many already exist |
| Collision.Pair | navex.py:263-277 | one inner-loop iteration for (i, j); its contract keeps the list length and the kind of i, and PairAlive states what it does to flags and score |
| Collision.PairAlive | navex.py:263-277 | after the pair (i, j), object k is alive exactly when it was and it is not i losing by KillsFirst or j losing by KillsSecond; the score grows by the missiles in the pair when neither is a tower and they overlap, and otherwise not at all |
| Collision.Row | navex.py:262-277 | the inner loop for a non-tower i, stopped before j: the pairs (i, i+1) .. (i, j-1) in that order; length and the kind of i are kept. RowEvolves and RowAlive give it meaning |
| Collision.Rows | navex.py:259-277 | the outer loop stopped before i, skipping towers as i; the length is kept. RowsEvolves, PassAlive and PassScore give it meaning |
| Collision.Pass | navex.py:259-277 | the whole pass; the list keeps its length and the score never falls. PassAlive says who dies, PassScore what it scores |
| Collision.RowsEvolves | navex.py:259-277 | the pass changes only liveness flags, only from alive to dead, and never lowers the score |
| Collision.PassAlive | navex.py:259-272 | after the pass an object is alive exactly when it was alive and lost none of its resolved pairs |
| Collision.PassIgnoresAlive | navex.py:259-272 | the pass never reads `alive`: lists that differ only in flags lose the same objects |
| Collision.TowerSurvives | navex.py:259-265 | a tower is never killed, since it is skipped both as i and as j |
| Collision.ObstacleDiesOnlyUnderEarlierObstacle | navex.py:266-272 | an obstacle dies exactly when an earlier obstacle overlaps it |
| Collision.MobileDiesOnAnyContact | navex.py:263-272 | a player or missile dies exactly when it overlaps any other non-tower object, in either order |
| Scoring.PassScore | navex.py:259-277 | the pass adds one point per missile for each other non-tower object that missile overlaps |
| Scoring.PassScoreIgnoresAlive | navex.py:259-277 | the points do not depend on liveness flags |
| Scoring.NoMissileNoScore | navex.py:274-277 | without missiles the pass scores nothing |
| Scoring.TwoObjectPass | navex.py:263-277 | the resolution table on two objects: an earlier obstacle kills only the later object, even another obstacle; a later obstacle kills only the earlier one; otherwise both die; towers and non-overlapping pairs change nothing; missile-missile adds 2 and player-obstacle adds 0 |
| Scoring.ThreeMissilesScoreSix | navex.py:259-277 | a missile killed earlier in the pass still scores: three mutually overlapping missiles add 6 |
| Pruning.Prune | navex.py:282 | the result is no longer than the input and holds only live objects |
| Pruning.PruneMembers | navex.py:282 | an object is kept exactly when it is in the list and alive |
| Pruning.PruneAppend | navex.py:282 | pruning preserves the relative order of the survivors |
| Pruning.LivePrefixKept | navex.py:282 | live objects at the front of the list keep their positions |
| Pruning.PruneKeepsEveryLiveObject | navex.py:282 | the result holds each live object as often as the input did, and no dead one |
| Game.InitialObjects | navex.py:195-219 | the player in the middle, the red, blue, green and yellow towers in the corners, all of radius 10, followed by the obstacles of radius 20; all alive |
| Game.NextFrameLayout | navex.py:259-282 | if the player survives the pass, pruning leaves the player and the towers in the first five places |
| Game.FrameKeepsLayout | navex.py:221-282 | a frame that does not end the game keeps the layout, and every remaining object is alive |
| Game.FrameScore | navex.py:233-277 | a frame adds the missile credit of the list after spawning, so the score never falls |
| Game.Frame | navex.py:221-282 | one frame without drawing and without `update`: quit check, player input, spawner, collision pass, player check and prune in the source's order; a stopped game stays stopped and the score never falls. FrameKeepsLayout, FrameScore and FrameEndsOnQuitOrContact state the rest |
| Game.SaturatedFrameAddsNoMissile | navex.py:203-282 | with the counter not below the maximum (a maximum of 0 or less), a frame over a list without missiles leaves a list without missiles and the score unchanged |
| Game.FrameEndsOnQuitOrContact | navex.py:224-280 | the game ends in a frame exactly when a quit event arrives or the player overlaps a non-tower object |
| Game.StartOnObstacleEndsFirstFrame | navex.py:195-282 | an obstacle on the player's starting point, with missiles disabled and no key held, ends the game in the first frame with score 0 |
| Game.Game.constructor | navex.py:195-219 | the fields start as `InitialObjects`, score 0, spawn time the start reading, counter 0 |
| Game.Game.HandleInput | navex.py:68-88 | only the player entry changes, and it becomes `Moved` of the old player |
| Game.Game.SpawnMissile | navex.py:235-254 | the list and spawn time become what `Spawn` gives |
| Game.Game.ResolveCollisions | navex.py:259-277 | the nested loops leave the list and score that `Pass` gives |
| Game.Game.ResolveRow | navex.py:262-277 | the inner loop for one non-tower i leaves what `Row` gives |
| Game.Game.CheckPlayerAndPrune | navex.py:279-282 | `run` is cleared if the player is dead, and the list becomes `Prune` of it |
| Game.Game.Tick | navex.py:221-282 | one frame in place equals `Frame` of the old state, and a game still running after it satisfies `Valid` |

## Left out

- The `update` step (`o.update` at lines 256-257, `Missile.move`, `Tower.move`): the homing physics uses `sqrt`, `atan2` and speed clamping on floats, and divides by a distance that may be zero. `Tower.move` sets only a tower's velocity and heading, never its position, so towers stay in place as they do in the source.
- Game.Frame and Game.Game.Tick: weaker than a real frame in two ways. No step moves a missile: it stays on the tower centre where it was spawned, so a second missile from the same tower overlaps the first, and both die for 2 points. A tower's `vx` and `vy` stay 0 instead of pointing at the player.
- Drawing, the `Display` class, `init_display`, fonts, `screen.fill` and `display.flip`: output only.
- Event polling and the clock: a polled quit event, the key state, the frame time and the two clock readings of the spawner are parameters.
- `random.choice` and `random.randint`: the colour letter and the obstacle positions are parameters.
- The obstacle retry loops (lines 208-214): their results are discarded by the source, so they have no effect.
- The command-line `main` and the final print of the score: I/O only.
- Floating point: coordinates are real numbers. Input.InvSqrt2 is the shortest decimal form of the double that `1.0 / math.sqrt(2)` evaluates to, not that double's exact value, so the diagonal step is exact only up to that constant.
- The fields `orientation`, `rotation`, `ax`, `ay` and `turn`: no modelled operation reads them.
- The four missile subclasses: they behave the same, so they are one kind, `Missile`, with a colour.
- Aliasing: objects are values, and the source's named references are fixed positions in the list.
