# Asteroid: the simulation core in Dafny

This project models the simulation core of a small SFML arcade game. A ship flies through
waves of asteroids and shoots them. Each large asteroid splits into two medium ones and each
medium into two small ones; a small one is destroyed and scores a point. A ship that touches
an asteroid loses a life and respawns at the centre. Clearing the screen moves the game to
the next level, which brings a faster wave.

The model follows the C++ sources file by file:

- `geometry.dfy` (`Geometry`): points and vectors of the 2880 x 1800 window, and the motion
  rule `position + direction * velocity * dt`.
- `bullet.dfy`, `asteroid.dfy`, `spaceship.dfy`, `animation.dfy` (`Bullets`, `Asteroids`,
  `SpaceShips`, `Animations`): the classes `Bullet`, `Asteroid`, `SpaceShip` and `Animation`, with
  their fields and methods. `Bullet`, `Asteroid` and `Animation` each have a value record
  (`BulletData`, `AsteroidData`, `AnimState`), and their methods are proved to update the object
  along a function on that record. `SpaceShip`'s methods state its new fields directly.
- `collision.dfy` (`Collision`): `is_collided`.
- `control.dfy` (`ShipControl`): the steering and inertial drift of `setControl`.
- `wrap.dfy` (`Wrap`): the screen-wrap chains of bullets, asteroids and the ship.
- `grid.dfy` (`Grid`): `checkGrid`.
- `world.dfy` (`World`): the global state as values, and the bullet and asteroid loops of
  `update_state`.
- `waves.dfy` (`Waves`): `create_ast`.
- `sweep.dfy` (`Sweep`): `ck_optimize`, `ast_get_hit` and `ast_bounce` as functions on the
  arena.
- `play.dfy` (`Play`): every game-level operation as a function on the snapshot of all
  globals. This covers `restart`, `levelUp`, `respawn`, `shoot`, `setControl`, `update_state`,
  the three menu screens, one pass of the main loop and the main loop itself.
- `game.dfy` (`MainLoop`): class `Game`, which holds the globals as fields. Each of its methods
  updates them in place and is proved to match the corresponding `Play` function
  (`ensures Snap() == Play.X(old(Snap()), ...)`). The loops of `update_state` keep their
  loops and invariants: the bullet loop runs backwards and erases, the asteroid loop runs
  forwards, and the explosion loop erases and skips.

Inputs from outside the program are parameters:

- One frame's keyboard and mouse state is a `FrameInput`.
- The wall-clock time is `now`, and the frame length is `dt`.
- The environment record `Env` holds what the model does not compute itself:
  - `rand(n)`, the n-th value of `std::rand()`;
  - `heading(n)`, the direction `(sin n, cos n)` of a new asteroid;
  - `unit(v)`, the normalisation `v / |v|` of `ast_bounce`;
  - `norm(v)`, the floating-point length that `is_collided` compares.

  Lemmas about collision assume `IsEuclidean(norm)`: the length is non-negative and squares
  to `x² + y²`.

Two ideas carry the properties about the collision sweep:

- **Potential.** The potential of a list of asteroids counts the hits still needed to clear
  them: 1 for a small asteroid, 3 for a medium one, 7 for a large one. Every bullet used
  lowers the potential by exactly one.
- **Frame invariant.** `Settled` states that `GameState` is one of the four screens and that
  no offspring are waiting outside `ck_optimize`. Every frame keeps it, and so does every run
  of the main loop.

Where the code and its description differ, the model follows the code:

- **Drift does not stop.** After the keys are released, `tempShipVelocity` drops by 4 each
  frame. It settles at -4 and then stays there: at that point the code sets it to 0 and
  subtracts 4 again. The direction tag is never cleared for a recognised tag. The ship
  therefore creeps backwards forever (`CoastAtFloor`, `CreepIsBackwards`), rather than
  stopping and returning to "none".
- **The ship wraps onto the edge.** It does not land just inside the opposite edge. It lands
  with its leading edge exactly on the border (`ShipLandsOnEdge`), and it wraps only while the
  matching key is held.
- **`update_state` keeps going.** It does not stop after Escape sets the pause or after
  `life <= 0` selects the death screen: the rest of the frame still runs (`UpdateFacts`). The
  death test reads the life count from before this frame's sweep.

## Model

| member | source | states |
|---|---|---|
| Geometry.Advance | Bullet.cpp:30 | models the motion rule of `moveBullet` and `moveAst`: position + direction * velocity * dt |
| Geometry.TruncToInt | Main.cpp:112 | the `int` cast of the animation frame truncates toward zero: the result lies in (x - 1, x] for x >= 0 and in [x, x + 1) for negative x |
| Geometry.AdvanceStill | Bullet.cpp:28-31 | a move with zero speed or zero time leaves the position unchanged |
| Geometry.AdvanceCompose | Asteroid.cpp:28-31 | two moves of dt1 and dt2 along a fixed direction and speed equal one move of dt1 + dt2 |
| Bullets.Expired | Bullet.cpp:33-36 | models `isDead`: at least 3 s elapsed on the bullet clock at time `now` |
| Bullets.Moved | Bullet.cpp:28-31 | models `moveBullet` on a bullet record: only the position changes |
| Bullets.ExpiryWindow | Bullet.cpp:33-36 | a bullet fired at t is alive at t + 2.9 s and dead at t + 3.1 s |
| Bullets.ExpiryIsPermanent | Bullet.cpp:33-36 | once dead, a bullet stays dead at every later time |
| Bullets.MovedKeepsIdentity | Bullet.cpp:28-31 | moving a bullet keeps its clock, direction and speed, and so its expiry |
| Bullets.Bullet.constructor | Bullet.cpp:3-6 | a new bullet keeps the given clock, sits at the origin with radius 0 and has no direction |
| Bullets.Bullet.SetDirection | Bullet.cpp:8-11 | the direction becomes the argument; nothing else changes |
| Bullets.Bullet.GetDirection | Bullet.cpp:13-16 | returns the current direction |
| Bullets.Bullet.SetVelocity | Bullet.cpp:18-21 | the speed becomes the argument; nothing else changes |
| Bullets.Bullet.AddVelocity | Bullet.cpp:23-26 | the speed grows by exactly 30 |
| Bullets.Bullet.MoveBullet | Bullet.cpp:28-31 | the bullet advances by direction * velocity * dt; direction, speed and clock are kept |
| Bullets.Bullet.IsDead | Bullet.cpp:33-36 | dead exactly when at least 3 s have passed on its clock; the dt argument is ignored |
| Bullets.SetThenGet | Bullet.cpp:8-16 | reading the direction after setting it returns the value set, and the position is untouched |
| Asteroids.Radius | Main.cpp:45-47 | the radius of each tier: 35 small, 55 medium, 85 large |
| Asteroids.Smaller | Main.cpp:759-792 | the tier a hit asteroid shrinks to: large to medium, medium to small |
| Asteroids.Drifted | Asteroid.cpp:28-31 | models `moveAst` on an asteroid record |
| Asteroids.Fallen | Asteroid.cpp:13-16 | models `moveAsteroid` on an asteroid record: y grows by velocity * dt, nothing else changes |
| Asteroids.RadiusIdentifiesTier | Main.cpp:45-47 | the three radii 35, 55 and 85 are distinct, so a radius names its tier |
| Asteroids.HitsToClear | Main.cpp:752-798 | every asteroid needs at least one hit |
| Asteroids.HitsToClearSplits | Main.cpp:752-798 | a medium or large asteroid needs twice the hits of the next-smaller tier, plus one |
| Asteroids.FallenIsDriftDown | Asteroid.cpp:13-16 | `moveAsteroid` drifts straight down (direction (0, 1)) at the asteroid's speed and keeps its stored direction |
| Asteroids.PotentialAppend | Main.cpp:973-977 | the potential of a concatenation is the sum of the potentials |
| Asteroids.PotentialSingle | Main.cpp:752-798 | one asteroid's potential is its hits to clear |
| Asteroids.PotentialUpdate | Main.cpp:759-792 | replacing one asteroid changes the potential by the difference of the two tiers' hits to clear |
| Asteroids.PotentialErase | Main.cpp:793-797 | erasing an asteroid removes exactly its hits to clear from the potential |
| Asteroids.PotentialOfTiers | Main.cpp:423-446 | two lists with the same tiers, index by index, have the same potential |
| Asteroids.PotentialBounds | Main.cpp:696-750 | the potential lies between the length and 7 times the length, and is 0 exactly for the empty list |
| Asteroids.Asteroid.constructor | Asteroid.cpp:3-6 | `new Asteroid()` followed by the `setRadius` every caller makes: the given tier, at the origin, with no direction |
| Asteroids.Asteroid.SetVelocity | Asteroid.cpp:8-11 | the speed becomes the argument |
| Asteroids.Asteroid.SetDirection | Asteroid.cpp:18-21 | the direction becomes the argument |
| Asteroids.Asteroid.GetDirection | Asteroid.cpp:23-26 | returns the current direction |
| Asteroids.Asteroid.MoveAsteroid | Asteroid.cpp:13-16 | the asteroid moves by (0, velocity * dt); direction, speed and tier are kept |
| Asteroids.Asteroid.MoveAst | Asteroid.cpp:28-31 | the asteroid advances by direction * velocity * dt; direction, speed and tier are kept |
| SpaceShips.SpaceShip.constructor | SpaceShip.cpp:3-6 | a new ship has the given radius and sits at the origin |
| SpaceShips.SpaceShip.SetVelocity | SpaceShip.cpp:8-11 | the speed becomes the argument |
| SpaceShips.SpaceShip.MoveShip | SpaceShip.cpp:13-16 | the ship moves straight down by velocity * dt |
| Animations.Advanced | Main.cpp:107-113 | models `Animation::update` on its state: add the speed, wrap the counter back by the strip length once it reaches it |
| Animations.Ended | Main.cpp:115-118 | models `Animation::isEnd`: frame + speed reaches the strip length |
| Animations.Strip | Main.cpp:98-99 | the `count` frame rectangles the constructor pushes, side by side from (x, y) |
| Animations.Cleanup | Main.cpp:455-466 | models the explosion loop of `update_state`: an ended effect is erased and the next one skipped, every other effect is updated |
| Animations.AdvancedWellFormed | Main.cpp:107-113 | an update keeps the frame counter in range, so the frame it shows exists |
| Animations.NotEndedAdvances | Main.cpp:107-113 | before the strip ends, an update adds the speed to the frame counter |
| Animations.ExplosionStarts | Main.cpp:754 | the explosion pushed by `ast_get_hit` starts well formed and not ended |
| Animations.CleanupEraseStep | Main.cpp:457-465 | the explosion loop's erase step: erasing an ended effect and skipping the next one leaves the same final list |
| Animations.CleanupAdvanceStep | Main.cpp:457-465 | the explosion loop's update step: updating a live effect leaves the same final list |
| Animations.CleanupLength | Main.cpp:455-466 | the loop never adds effects, and it erases at most one of every two effects plus one |
| Animations.CleanupNoneEnded | Main.cpp:455-466 | when no effect has ended, the loop updates every effect in place |
| Animations.SkipsAfterErase | Main.cpp:459-463 | the effect after an erased one is skipped in that frame: neither updated nor erased |
| Animations.CleanupWellFormed | Main.cpp:455-466 | the loop keeps every effect well formed |
| Animations.Animation.constructor | Main.cpp:93-104 | a new animation starts at frame 0 with the given speed and the strip of `count` rectangles, showing the first one |
| Animations.Animation.Update | Main.cpp:107-113 | the state advances as `Advanced` says and the displayed rectangle is the one at the truncated frame index |
| Animations.Animation.IsEnd | Main.cpp:115-118 | the result is true exactly when the next frame would run past the strip |
| Collision.IsCollided | Main.cpp:980-993 | models `is_collided`: false for one object, otherwise the length of the position difference is at most the sum of the radii |
| Collision.AgreesWithSquares | Main.cpp:980-993 | with an exact length, two distinct objects collide exactly when the squared distance is at most the squared sum of the radii, and that sum is non-negative |
| Collision.Symmetric | Main.cpp:980-993 | with an exact length, the test does not depend on the order of its arguments |
| Collision.Coincident | Main.cpp:980-993 | two distinct objects at one position with non-negative radii collide |
| ShipControl.Heading | Main.cpp:553-668 | the per-axis factor of each tag's move call: ±1 on one axis, or ±1/2 on both for a diagonal; 0 for an unrecognised tag |
| ShipControl.Decay | Main.cpp:558-562 | one frame of decay as written: set to 0 when the drop would go negative, then subtract 4 |
| ShipControl.Steer | Main.cpp:469-668 | models the tag and velocity update of `setControl`: the held-key branches in the order A, D, W, S, then the decay chain |
| ShipControl.Displacement | Main.cpp:469-668 | the `ship.move` of the frame: the heading of the new tag scaled by velocity * dt |
| ShipControl.Coast | Main.cpp:553-668 | n frames of `setControl` with no movement key held |
| ShipControl.HeldKeySnaps | Main.cpp:471-551 | with a movement key held, the speed snaps to 500. The tag starts with the first held key in the order A, D, W, S, and the heading is not zero |
| ShipControl.CoastClosedForm | Main.cpp:553-668 | with no key held, a recognised tag and a speed v >= 0, n frames give the speed v - 4n while that is not negative and -4 from then on; the tag is unchanged |
| ShipControl.CoastAtFloor | Main.cpp:553-668 | once the speed is -4 the drift state never changes again |
| ShipControl.ReleasedAtFullSpeed | Main.cpp:553-668 | released at full speed, the ship stops after 125 frames, and after more than 125 frames it is pinned at -4 |
| ShipControl.CreepIsBackwards | Main.cpp:553-668 | at speed -4 the ship moves against its recorded heading |
| ShipControl.InvariantHolds | Main.cpp:33-37 | the initial drift state, and every state steering produces from it, has a speed of at least -4 and a tag that steering can produce |
| ShipControl.UnrecognisedStandsStill | Main.cpp:664-667 | with no key held and an unrecognised tag, the tag is cleared, the speed is kept and the ship does not move |
| Wrap.Crossed | Main.cpp:402-419 | which branch of the wrap chain fires: top, bottom, left, right in that order, or none |
| Wrap.Landing | Main.cpp:402-419 | the position a branch sets: one unit inside the opposite edge, the other coordinate kept |
| Wrap.Wrapped | Main.cpp:425-444 | models the asteroid wrap chain on its current position |
| Wrap.WrappedAfterMove | Main.cpp:394-419 | models the bullet wrap: the tests and the kept coordinate use the position read before `moveBullet` |
| Wrap.WrappedShip | Main.cpp:366-381 | models the ship flip of `update_state`: an edge test together with the matching key |
| Wrap.CrossedIffOutside | Main.cpp:402-419 | the wrap chain fires exactly when the body is not strictly inside on both axes, and the vertical tests win |
| Wrap.LandingIsInside | Main.cpp:402-419 | a wrapped body lands one unit inside the opposite edge on the axis it crossed, with the other coordinate kept |
| Wrap.InsideIsFixed | Main.cpp:423-444 | a body strictly inside is not moved by one wrap check or by two |
| Wrap.TwoChecksSettle | Main.cpp:423-444 | two wrap checks always leave the body strictly inside, where further checks are idempotent |
| Wrap.WrappedBulletIgnoresMotion | Main.cpp:394-419 | a bullet that wraps lands where its pre-move position says, however far it moved |
| Wrap.ShipStaysWithoutKeys | Main.cpp:366-381 | with no movement key held the ship never wraps |
| Wrap.ShipLandsOnEdge | Main.cpp:366-381 | a wrapped ship keeps one coordinate and has its leading edge exactly on a border |
| Grid.Column | Main.cpp:832-843 | the column of `checkGrid`: x divided by the 960-wide unit and truncated, then clamped |
| Grid.Row | Main.cpp:833-853 | the row of `checkGrid`: y divided by the 600-high unit and truncated, then clamped |
| Grid.Clamp | Main.cpp:835-853 | the index is clamped into 0..2, unchanged inside and replaced by the nearest end outside |
| Grid.CheckGrid | Main.cpp:827-856 | the cell lies in 0..8 and encodes the row as cell % 3 and the column as cell / 3 |
| Grid.CellsAreDistinct | Main.cpp:827-856 | two points share a cell exactly when they share the row and the column |
| Grid.CellContainsPoint | Main.cpp:827-856 | a point inside the window lies in the 960 x 600 rectangle of its cell |
| Grid.OutsidePointsClamp | Main.cpp:835-853 | points beyond an edge fall into the border row or column |
| World.Respawn | Main.cpp:1009-1013 | models `respawn` on the arena: no bullets and the ship at the centre |
| World.StepBullet | Main.cpp:394-419 | one bullet of the bullet loop: move, then wrap from the pre-move position |
| World.StepBullets | Main.cpp:392-420 | models the bullet loop: the bullets that have not expired, each stepped, in their order |
| World.StepRock | Main.cpp:425-445 | one asteroid of the asteroid loop: wrap first, then `moveAst` |
| World.StepRocks | Main.cpp:423-446 | models the asteroid loop: every asteroid stepped in place |
| World.StepBulletsFront | Main.cpp:392-420 | the bullet loop's step at index i: that bullet is stepped or dropped, followed by the later bullets |
| World.StepBulletsSurvivors | Main.cpp:392-420 | the loop creates no bullets, and every survivor is still within its lifetime |
| World.StepBulletsAllAlive | Main.cpp:392-420 | when no bullet has expired, every bullet is moved and wrapped in place |
| World.StepBulletsAllExpired | Main.cpp:392-401 | when every bullet has expired the list empties |
| World.BulletLifetime | Main.cpp:392-401 | a bullet fired at t survives the frame at t + 2.9 s and is gone in the frame at t + 3.1 s |
| World.StepRocksKeepsBodies | Main.cpp:423-446 | the asteroid loop keeps the count, the potential, and every tier, speed and direction |
| World.StepRockInside | Main.cpp:423-446 | an asteroid strictly inside only drifts, and in a frame of zero length it stays put |
| Waves.TierOf | Main.cpp:701-721 | the size `randomNum % 3` selects: 0 small, 1 medium, 2 large |
| Waves.SpawnPoint | Main.cpp:726-745 | the placement chain by index: i < 3 top, 3..6 bottom, 8..9 left, 7, 10 and 11 right |
| Waves.Spawned | Main.cpp:700-748 | one iteration of `create_ast`: tier, position, heading and speed from one random value |
| Waves.Wave | Main.cpp:696-750 | models `create_ast`: the twelve asteroids from twelve consecutive random values |
| Waves.WavePrefix | Main.cpp:698-749 | the wave is built one asteroid per `std::rand()` value, in order |
| Waves.WaveLayout | Main.cpp:696-750 | a wave has 12 asteroids at the current speed, sized by rand() % 3: 3 on the top edge, 4 on the bottom, 2 on the left and 3 on the right |
| Waves.WavePotential | Main.cpp:696-750 | a wave has 12 asteroids at the given speed, worth between 12 and 84 hits |
| Waves.TierCycles | Main.cpp:700-721 | the size cycles small, medium, large with the random value modulo 3 |
| Sweep.HitsShip | Main.cpp:939 | the ship test of the sweep |
| Sweep.HitsBullet | Main.cpp:963 | the bullet test of the sweep |
| Sweep.BouncePair | Main.cpp:800-806 | models `ast_bounce`: the first asteroid turns along the unit vector from the second, the second along its negation |
| Sweep.Offspring | Main.cpp:766-773 | the `dividedAsteroid` of `ast_get_hit`: same position, the smaller tier, direction (1, 0), the wave speed |
| Sweep.GetHit | Main.cpp:752-798 | models `ast_get_hit`: push an explosion, then shrink and queue an offspring, or erase a small asteroid for a point |
| Sweep.ShootAt | Main.cpp:959-970 | models the bullet loop of one sweep step: erase the highest-index bullet touching the asteroid and hit it |
| Sweep.Crash | Main.cpp:939-948 | models the ship branch: an explosion, one life less, `respawn` |
| Sweep.SweepDown | Main.cpp:937-971 | models the outer sweep loop from index i down to 0, which stops at the first ship contact |
| Sweep.CkOptimize | Main.cpp:935-978 | models `ck_optimize`: the sweep, then `asteroidsAdded` appended to `manyAsteroids` and cleared |
| Sweep.BounceFrom | Main.cpp:951-957 | the bounce loop keeps the number of asteroids and every asteroid's position, tier and speed |
| Sweep.LastHit | Main.cpp:959-970 | the bullet chosen is the highest-index bullet hitting the asteroid, or -1 if none hits |
| Sweep.ExtendsTransitive | Main.cpp:973-977 | offspring lists only grow by medium or small asteroids at the wave speed, and growth composes |
| Sweep.GetHitKeepsPrefix | Main.cpp:959-970 | shooting asteroid i leaves asteroids 0..i-1 untouched |
| Sweep.GetHitFacts | Main.cpp:752-798 | an explosion is pushed. A hit medium or large asteroid shrinks in place, turns to (1, 1) at the wave speed and queues one offspring, and the other asteroids are untouched. A hit small one is erased for a point. Either way the potential drops by one |
| Sweep.ShootAtChoice | Main.cpp:959-970 | at most one bullet is used, exactly when some bullet hits the asteroid: the highest-index hitting bullet is erased. With no hit nothing changes |
| Sweep.ShootAtCounts | Main.cpp:959-970 | life and ship are kept, the potential drops by the bullets used, the score rises by at most that, and offspring only grow |
| Sweep.SameBodySameDisc | Main.cpp:951-957 | bouncing does not change what the collision tests see |
| Sweep.BounceKeepsShipTests | Main.cpp:951-957 | bouncing keeps the potential and the outcome of every ship test |
| Sweep.Step | Main.cpp:937-970 | one pass of the sweep loop at index i leaves at least i asteroids, so the loop can go on below it |
| Sweep.StepKeepsShipTests | Main.cpp:937-970 | one pass keeps the ship in place and the ship tests of all lower asteroids |
| Sweep.StepCounts | Main.cpp:937-970 | one pass keeps the life, uses at most one bullet, lowers the potential by the bullets used and scores at most that |
| Sweep.SweepShape | Main.cpp:937-948 | after the sweep, either life and ship are unchanged, or life dropped by one with no bullets and the ship at the centre |
| Sweep.SweepCrashes | Main.cpp:937-948 | if any asteroid reached by the sweep touches the ship, exactly one life is lost |
| Sweep.SweepSafe | Main.cpp:937-948 | if no asteroid reached by the sweep touches the ship, no life is lost |
| Sweep.SweepLife | Main.cpp:937-948 | a life is lost if and only if some asteroid touches the ship at the start of the sweep, and then the ship respawns |
| Sweep.SweepCounts | Main.cpp:935-970 | without a crash, the potential drops by exactly the bullets used and the score rises by at most that; the score never falls |
| Sweep.CkOptimizeFacts | Main.cpp:935-978 | offspring join the asteroid list and the queue empties; a life is lost exactly on contact; without a crash the potential drops by the bullets used |
| Sweep.CrashKeepsRocks | Main.cpp:937-948 | a sweep that costs a life leaves asteroids on the screen, so a crash never completes a level |
| Sweep.QuietSweep | Main.cpp:935-970 | with no bullets and no contact, nothing but bounce directions changes: count, positions, tiers, speeds, offspring, score, life, ship, bullets and explosions are kept |
| Sweep.LastSmallShot | Main.cpp:935-978 | the last small asteroid, hit by the only bullet, leaves an empty screen, no bullets and one more point |
| Play.CreateAst | Main.cpp:696-750 | models `create_ast` on the globals: the wave appended, twelve random values used |
| Play.Boot | Main.cpp:173-197 | models the start of `main`: the initialised globals, the ship centred, then `create_ast` |
| Play.Restart | Main.cpp:995-1007 | models `restart` on the globals |
| Play.LevelUp | Main.cpp:1015-1025 | models `levelUp` on the globals |
| Play.SkipWave | Main.cpp:351-358 | models the P key of `update_state` |
| Play.NewBullet | Main.cpp:676-694 | the bullet `shoot` creates: 80 ahead of the ship along the aim, at speed 500, its clock started now |
| Play.Shoot | Main.cpp:676-694 | models `shoot` on the globals |
| Play.SetControl | Main.cpp:469-674 | models `setControl` on the globals: steer, move the ship, and shoot while the left button is held |
| Play.Move | Main.cpp:360-446 | models the entity part of `update_state`: the ship flip, the bullet loop and the asteroid loop |
| Play.Settle | Main.cpp:448-466 | models the end of `update_state`: `ck_optimize`, `levelUp` on an empty screen, and the explosion loop |
| Play.Begin | Main.cpp:337-358 | models the start of `update_state`: Escape pauses, no lives selects the death screen, P skips the wave |
| Play.Update | Main.cpp:330-467 | models `update_state` |
| Play.Menu | Main.cpp:240-256 | models `render_menu`: Enter plays, otherwise P exits |
| Play.Pause | Main.cpp:258-279 | models `render_pause`: Enter restarts, otherwise R resumes, otherwise P exits |
| Play.Death | Main.cpp:281-296 | models `render_death`: Enter restarts, otherwise Escape exits |
| Play.Frame | Main.cpp:201-235 | models one pass of the main loop: the Closed event, then the switch on `GameState` |
| Play.Run | Main.cpp:199-236 | models the main loop over a sequence of passes while the window is open |
| Play.BootFacts | Main.cpp:19-50 | the game starts on the menu with 3 lives, level 1, speed 250, a wave worth 12 to 84 hits, no bullets and the ship centred |
| Play.RestartResets | Main.cpp:995-1007 | a restart plays level 1 at speed 250 with score 0, 3 lives and a fresh wave. It keeps the drift state, the pause flag and the window |
| Play.LevelUpFacts | Main.cpp:1015-1025 | a level up adds 1 to the level and 50 to the speed, keeps score and lives, and brings a fresh wave at the new speed |
| Play.SkipWaveFacts | Main.cpp:351-358 | P raises the speed by 100 and brings a fresh wave, keeping level, score, lives and explosions |
| Play.ShootFacts | Main.cpp:676-694 | a shot appends one bullet 80 units along the aim from the ship, at speed 500, alive for the next 3 s |
| Play.SetControlFacts | Main.cpp:469-674 | the drift state follows `Steer`, the ship moves by its displacement and one bullet is added when firing; the drift invariant is kept |
| Play.UpdateFacts | Main.cpp:330-467 | a frame keeps asteroids on screen and an empty offspring queue, loses at most one life, never lowers the score and raises the level by at most one |
| Play.SettleFacts | Main.cpp:448-466 | the level rises exactly when the sweep clears the screen; without a crash or a level up the potential drops by the bullets used |
| Play.LastAsteroidShot | Main.cpp:448-453 | shooting the last small asteroid scores a point and starts the next level |
| Play.CrashLosesLife | Main.cpp:937-948 | touching an asteroid costs one life and respawns the ship, with no level up |
| Play.NoLivesMeansDeath | Main.cpp:346-349 | a playing frame with no lives left shows the death screen |
| Play.DeathTransitions | Main.cpp:281-296 | on the death screen, Enter restarts, Escape exits, and otherwise nothing changes |
| Play.MenuTransitions | Main.cpp:240-256 | on the menu, Enter plays, P exits, and otherwise the menu stays; the arena, the drift state and the random sequence are untouched, and a Closed event closes the window |
| Play.PauseTransitions | Main.cpp:258-279 | while paused, Enter restarts, R resumes, P exits, and otherwise the pause stays |
| Play.ExitCloses | Main.cpp:227-229 | the exiting state closes the window in the next pass, and the loop then stops |
| Play.FrameKeepsSettled | Main.cpp:199-236 | every pass of the main loop keeps the frame invariant, and a closed window stays closed |
| Play.RunKeepsSettled | Main.cpp:199-236 | the main loop keeps the frame invariant over any number of passes |
| MainLoop.Game.constructor | Main.cpp:19-50 | the globals start as `Play.Boot` says, after the ship is centred and the first wave is created |
| MainLoop.Game.NewAsteroid | Main.cpp:700-747 | one iteration of `create_ast` builds the asteroid `Spawned` describes for its index and random value |
| MainLoop.Game.CreateAst | Main.cpp:696-750 | twelve asteroids from the next twelve `std::rand()` values are appended to `manyAsteroids` |
| MainLoop.Game.AstBounce | Main.cpp:800-806 | the first asteroid turns along the unit vector from the second to the first, and the second along its negation |
| MainLoop.Game.Split | Main.cpp:759-792 | the hit asteroid shrinks one tier and turns to (1, 1) at the wave speed, and one offspring is queued |
| MainLoop.Game.AstGetHit | Main.cpp:752-798 | the globals change as `GetHit` says |
| MainLoop.Game.Respawn | Main.cpp:1009-1013 | the bullets are cleared and the ship is centred; nothing else changes |
| MainLoop.Game.BounceAll | Main.cpp:951-957 | asteroid i bounces off every other asteroid it touches, as `BounceFrom` says |
| MainLoop.Game.ShootAsteroid | Main.cpp:959-970 | the globals change as `ShootAt` says |
| MainLoop.Game.Crash | Main.cpp:939-948 | one life is lost and the ship respawns |
| MainLoop.Game.SweepStep | Main.cpp:937-970 | one pass of the sweep loop changes the globals as `Step` says |
| MainLoop.Game.SweepAll | Main.cpp:937-970 | the downward sweep changes the globals as `SweepDown` says |
| MainLoop.Game.CkOptimize | Main.cpp:935-978 | `ck_optimize` changes the globals as `Sweep.CkOptimize` says |
| MainLoop.Game.ResetProgress | Main.cpp:997-1001 | speed 250, level 1, score 0, playing, 3 lives; nothing else changes |
| MainLoop.Game.ClearScreen | Main.cpp:1002-1004 | bullets, asteroids and explosions are cleared; nothing else changes |
| MainLoop.Game.Restart | Main.cpp:995-1007 | the globals change as `Play.Restart` says |
| MainLoop.Game.LevelUp | Main.cpp:1015-1025 | the globals change as `Play.LevelUp` says |
| MainLoop.Game.SkipWave | Main.cpp:351-358 | the globals change as `Play.SkipWave` says |
| MainLoop.Game.Shoot | Main.cpp:676-694 | the bullet described by `Play.NewBullet` is appended |
| MainLoop.Game.HoldA | Main.cpp:471-490 | with A held, the drift state follows `Steer` and the ship moves by its displacement |
| MainLoop.Game.HoldD | Main.cpp:491-510 | with D held and not A, the drift state follows `Steer` and the ship moves by its displacement |
| MainLoop.Game.HoldWS | Main.cpp:511-551 | with W or S held and neither A nor D, the drift state follows `Steer` and the ship moves by its displacement |
| MainLoop.Game.Drift | Main.cpp:553-668 | with no key held, the speed decays and the ship moves along the recorded heading, as `Steer` and `Displacement` say |
| MainLoop.Game.SetControl | Main.cpp:469-674 | the globals change as `Play.SetControl` says |
| MainLoop.Game.UpdateBullets | Main.cpp:392-420 | the backward erase-and-move loop leaves exactly `StepBullets` of the old bullets |
| MainLoop.Game.UpdateAsteroids | Main.cpp:423-446 | the forward loop leaves exactly `StepRocks` of the old asteroids |
| MainLoop.Game.CleanupExplosions | Main.cpp:455-466 | the erase-and-update loop leaves exactly `Cleanup` of the old explosions |
| MainLoop.Game.Settle | Main.cpp:448-466 | sweep, level check and explosion loop change the globals as `Play.Settle` says |
| MainLoop.Game.Begin | Main.cpp:337-358 | the Escape, death and P checks change the globals as `Play.Begin` says |
| MainLoop.Game.MoveAll | Main.cpp:360-446 | the ship wrap and the bullet and asteroid loops change the arena as `Play.Move` says |
| MainLoop.Game.UpdateState | Main.cpp:330-467 | `update_state` changes the globals as `Play.Update` says |
| MainLoop.Game.RenderMenu | Main.cpp:240-256 | the globals change as `Play.Menu` says |
| MainLoop.Game.RenderPause | Main.cpp:258-279 | the globals change as `Play.Pause` says |
| MainLoop.Game.RenderDeath | Main.cpp:281-296 | the globals change as `Play.Death` says |
| MainLoop.Game.Frame | Main.cpp:201-235 | one pass of the main loop changes the globals as `Play.Frame` says |
| MainLoop.Game.Run | Main.cpp:199-236 | the main loop over a sequence of frames ends in the state `Play.Run` gives |

## Left out

- Drawing, text, the HUD strings, textures, sprites, audio and asset loading are not modelled; `render_frame` sits entirely in this group.
- Keyboard and mouse polling become the fields of `FrameInput`; the mouse aim `(sin, -cos)` of the ship's rotation is the parameter `aim`.
- `std::rand()`, `sin`/`cos`, `sqrt` and the normalisation of `ast_bounce` are the functions of `Env`. Floating-point rounding is not modelled: `float` values are exact reals.
- The wall clock is the parameter `now`, and the frame length `dt` is a parameter of each step instead of `clock.restart()`.
- `main` runs until the window closes; `Play.Run` and `MainLoop.Game.Run` run over a finite sequence of frames.
- `make_it_invincible`, `flashTimer` and the invincibility countdown are not modelled. They only change textures and colours, and `isInvincible` is never read by the sweep. The I key is therefore ignored.
- `collision_check` is not modelled: nothing calls it.
- The explosion's sprite position and texture are not modelled. An animation is its frame counter, speed and rectangle strip.
- The vectors hold `unique_ptr` objects, and the model holds value records. Pointer identity becomes an index comparison (the `same` argument of `IsCollided`), and aliasing is not modelled.
- The inner A and D tests inside the W and S branches of `setControl` can never succeed there, because A and D are checked first. The methods leave them out.
- The constructors of `Bullet` and `Asteroid` leave the speed field uninitialised, so their contracts say nothing about it. Every caller sets it before use.
- `tempShipVelocity` is a `float` in the source and an `int` in the model. Every value it takes is an integer multiple of 4, so the model is exact.
