# Planetoids in Dafny

A model of the game core of Planetoids, an Asteroids-style game written in
Python: the three game objects of `planetoids/models.py` (bullet, ship,
asteroid), the per-level controller `Wave` of `planetoids/wave.py`, and the
state machine of the application controller `Planetoids.update` in
`planetoids/app.py`.

The code changes objects in place, so the model does too:

- `Models.Bullet`, `Models.Ship` and `Models.Asteroid` are classes whose
  methods update their fields.
- `Waves.Wave` is a class that holds the ship object, the asteroid and bullet
  lists as `seq` fields, and the lives, cool-down and score counters.
- `App.Planetoids` is a class that holds the state, the wave object and the
  label contents.

Each class has a `View()` onto a value. Each method is proved to change that
value exactly as a pure function says:

- `Motion` holds the motion rules of the three objects.
- `WaveSpec` holds every stage of a wave frame, from `CoolDown` to
  `ShipCollision`, chained by `Frame`.
- `AppSpec` holds every `if` block of `update`, chained by `Tick`.

The properties of the game are proved as lemmas about those functions:

- the invariant a frame keeps;
- the score never falling;
- one life lost per crash;
- the first-hit-only collision rule;
- the order-preserving bullet filter;
- the chained state transitions.

Modules:

| file | module | contents |
|---|---|---|
| consts.dfy | Consts | the game constants, declared without values |
| wrappers.dfy | Wrappers | `Option` |
| geometry.dfy | Geometry | vectors; vector length, cos/sin and pi as abstract constants |
| motion.dfy | Motion | ship, bullet and asteroid states and their motion rules |
| models.dfy | Models | the classes `Bullet`, `Ship`, `Asteroid` |
| wavespec.dfy | WaveSpec | the wave state, the frame stages, the frame lemmas |
| wave.dfy | Waves | the class `Wave` and its loops |
| appspec.dfy | AppSpec | the controller screen, the `update` blocks, the state lemmas |
| app.dfy | App | the class `Planetoids` |

How the model represents the source:

- **Constants.** The values of the game constants are not part of this model.
  Each constant is declared without a value and typed by what the model
  assumes of it: radii and the dead zone non-negative; the maximum speed,
  bullet speed and playfield size positive; `BULLET_RATE` and `SHIP_LIVES`
  positive integers.
- **Floating-point maths.** `Vector.length()` and the pair (cos, sin) are
  floating-point library results. They are abstract constants typed by the
  facts the model relies on:
  - a length is never negative and is zero exactly for the zero vector;
  - (cos t, sin t) lies on the unit circle.
- **Exact square roots.** Lemmas that need the exact square root at a vector
  take it as the precondition `ExactLength`.
- **The 120° and 240° rotations.** The rotations of `breakUp` use the
  double-precision values of cos and sin, written out. These two pairs are
  not exactly on the unit circle, so they do not agree with the `Trig`
  abstraction, which the ship's facing uses and which is exactly on it. No
  property of the model depends on the pieces' speeds being exact.
- **Keys.** Key presses are boolean parameters: `Keys` holds left, right, up
  and spacebar, and `s` is the key 's'.
- **Level data.** The level data is a `Level` value: the ship's pose and the
  asteroid entries.

## Model

| member | source | states |
|---|---|---|
| Geometry.NormalDefined | planetoids/models.py:239-242 | normal() succeeds exactly on non-zero vectors, so a zero direction takes the `except` path |
| Geometry.HeadingNonZero | planetoids/models.py:146-147 | the facing (cos, sin) of any angle is a unit vector, never zero |
| Geometry.NormalIsUnit | planetoids/models.py:166 | where the length is exact, normal() of a non-zero vector has length 1 and is a positive multiple of the vector |
| Geometry.DistanceBelow | planetoids/wave.py:169-170 | with an exact length, `distance < reach` is the squared test dx²+dy² < reach² |
| Geometry.DegToRad | planetoids/models.py:30-37 | degToRad: pi·deg/180 |
| Geometry.Normal | planetoids/models.py:166 | Vector.normal(): the vector divided by its length, None (the library's error) for a zero length |
| Geometry.Distance | planetoids/wave.py:169 | Point2.distance(): the length of the difference of the two points |
| Geometry.Heading | planetoids/models.py:144-147 | the facing of an angle in degrees: (cos, sin) of degToRad of the angle, a point of the unit circle |
| Geometry.Rotate | planetoids/wave.py:206-211 | the rotation formula of breakUp: (x·cos − y·sin, x·sin + y·cos) for a (cos, sin) pair |
| Motion.Margin | planetoids/models.py:268-270 | the asteroid wrap margin is DEAD_ZONE, and strictly more exactly for large asteroids |
| Motion.RockRadius | planetoids/models.py:235-253 | the per-size radius table: SMALL_RADIUS, MEDIUM_RADIUS, LARGE_RADIUS (half the image width) |
| Motion.RockSpeed | planetoids/models.py:235-258 | the per-size speed table: SMALL_SPEED, MEDIUM_SPEED, LARGE_SPEED |
| Motion.Wrap | planetoids/models.py:173-180 | after one wrap step a coordinate lies in [-margin, extent + margin] |
| Motion.WrapFixes | planetoids/models.py:173-180 | the wrap leaves a coordinate unchanged if and only if it is inside [-margin, extent + margin] |
| Motion.WrapJumps | planetoids/models.py:173-180 | past the low edge it jumps to the high edge, past the high edge to the low edge |
| Motion.ShipSpawn | planetoids/models.py:137-147 | a new ship is at rest at the level's position and angle, facing the heading of that angle |
| Motion.Facing | planetoids/models.py:122-123 | the `_facing` invariant: the facing is the (cos, sin) heading of the ship's angle |
| Motion.Turned | planetoids/models.py:149-157 | addAngle keeps position and velocity and re-derives the facing from the new angle |
| Motion.Thrust | planetoids/models.py:164-169 | the thrust rule: no thrust keeps the velocity; over the limit the velocity is rescaled to SHIP_MAX_SPEED; otherwise one impulse along the facing is added |
| Motion.ShipMoved | planetoids/models.py:159-180 | after move the ship is inside the dead-zone box, angle and facing unchanged, velocity given by the thrust rule |
| Motion.ThrustCapsSpeed | planetoids/models.py:164-166 | thrust on a ship over the speed limit leaves speed exactly SHIP_MAX_SPEED, in the same direction |
| Motion.Fire | planetoids/models.py:78-87 | a new bullet at ship position + facing·SHIP_RADIUS with velocity facing·BULLET_SPEED |
| Motion.FireGeometry | planetoids/models.py:78-87 | a new bullet starts SHIP_RADIUS from the ship's centre and flies at BULLET_SPEED, so it never stands still |
| Motion.ShotMoved | planetoids/models.py:89-94 | moving a bullet never changes its velocity |
| Motion.ShotOut | planetoids/models.py:64-70 | isOut: past the right edge or the top edge (y grows upwards), dead zone included |
| Motion.ShotAfter | planetoids/models.py:89-94 | a bullet keeps its velocity over any number of frames |
| Motion.ShotNeverOutGoingBack | planetoids/models.py:64-70 | isOut checks only the two high edges: a bullet that starts inside and travels with no positive component (neither right nor up) is never out |
| Motion.Launch | planetoids/models.py:234-258 | an asteroid velocity: the normalised direction times the speed, and the zero vector for a zero direction (the `except` branch) |
| Motion.Spawn | planetoids/models.py:229-258 | a new asteroid has the entry's size and position |
| Motion.LaunchStill | planetoids/models.py:234-258 | an asteroid stands still if and only if its direction is the zero vector (the `except` branch) |
| Motion.LaunchSpeed | planetoids/models.py:240 | a non-zero direction with an exact normal() launches an asteroid at exactly its size's speed |
| Motion.RockMoved | planetoids/models.py:260-278 | move keeps size and velocity and leaves the asteroid inside the box of its size's margin |
| Models.Bullet.constructor | planetoids/models.py:78-87 | the bullet is at ship position + facing·SHIP_RADIUS with velocity facing·BULLET_SPEED |
| Models.Bullet.IsOut | planetoids/models.py:64-70 | the bullet is out exactly when its state satisfies ShotOut |
| Models.Bullet.Move | planetoids/models.py:89-94 | the position advances by the fixed velocity |
| Models.Ship.constructor | planetoids/models.py:137-147 | the ship starts at the pose, at rest, with facing equal to the heading |
| Models.Ship.AddAngle | planetoids/models.py:149-157 | the angle grows by the argument and the facing follows it |
| Models.Ship.CrashVector | planetoids/wave.py:171-174 | the crash direction is the facing at rest and the normalised velocity otherwise |
| Models.Ship.Move | planetoids/models.py:159-180 | the ship moves by ShipMoved; without thrust the velocity is kept; the position ends inside the dead-zone box |
| Models.Asteroid.constructor | planetoids/models.py:229-258 | the image radius matches the size, and the state is Spawn of the entry |
| Models.Asteroid.Move | planetoids/models.py:260-278 | the asteroid moves and wraps as RockMoved says |
| WaveSpec.Inv | planetoids/wave.py:59-75 | the wave invariant: facing matches angle, every bullet moves, cool-down in [0, BULLET_RATE], score ≥ 0, 0 ≤ lives ≤ SHIP_LIVES, lives > 0 while the ship exists |
| WaveSpec.ShipDown | planetoids/wave.py:226-232 | pauseCheck on a wave state: the ship is destroyed |
| WaveSpec.Over | planetoids/wave.py:234-241 | endCheck on a wave state: no lives or no asteroids left |
| WaveSpec.Start | planetoids/wave.py:96-106 | a new wave has the level's ship, one asteroid per entry in order, no bullets, full lives, cool-down 0 and score 0, and satisfies the invariant |
| WaveSpec.Remove | planetoids/wave.py:194-195 | removing the found element drops exactly that index and keeps the others in order |
| WaveSpec.Points | planetoids/wave.py:203-220 | every asteroid destroyed scores a positive number of points (20, 10 or 5) |
| WaveSpec.Smaller | planetoids/wave.py:212-224 | the size a break-up steps down to: medium gives small, large gives medium |
| WaveSpec.TurnsNonZero | planetoids/wave.py:206-211 | rotating a non-zero collision direction by 120° or 240° gives a non-zero vector |
| WaveSpec.Fragments | planetoids/wave.py:203-224 | a small asteroid leaves no pieces; a medium or large one leaves exactly three pieces of the next size down (medium to small, large to medium) at the hit point, launched at that size's speed along the collision direction and along it turned by 120° and by 240° |
| WaveSpec.SpawnMoves | planetoids/wave.py:214-223 | a piece launched along a non-zero direction at a positive speed moves |
| WaveSpec.FragmentsMove | planetoids/wave.py:206-224 | with a non-zero collision direction every piece moves |
| WaveSpec.BreakUp | planetoids/wave.py:198-224 | breakUp raises the score and only appends to the asteroid list |
| WaveSpec.Hits | planetoids/wave.py:169-170 | the overlap test: the distance between the centres is below the reach (SHIP_RADIUS or BULLET_RADIUS) plus the asteroid's radius, as also at wave.py:190-191 |
| WaveSpec.FirstHit | planetoids/wave.py:167-170 | the index found is in range |
| WaveSpec.FirstHitSpec | planetoids/wave.py:167-170 | nothing is found if and only if no asteroid overlaps; otherwise the one found overlaps and none before it does |
| WaveSpec.FirstHitIs | planetoids/wave.py:188-191 | the first overlapping asteroid is the one the scan returns |
| WaveSpec.FirstPair | planetoids/wave.py:186-191 | no pair if and only if no bullet hits any asteroid; otherwise the pair is a hitting bullet with its first asteroid, and every earlier bullet misses |
| WaveSpec.FirstPairIs | planetoids/wave.py:186-196 | the first hitting bullet, with its first asteroid, is the pair resolved |
| WaveSpec.BulletHitAt | planetoids/wave.py:192-196 | bullet i hits asteroid j: break-up at the asteroid's centre along the bullet's normalised velocity, then asteroid j and bullet i removed |
| WaveSpec.BulletCollision | planetoids/wave.py:181-196 | a bullet collision keeps ship, lives and cool-down, never lowers the score, and leaves every bullet moving |
| WaveSpec.CrashDirection | planetoids/wave.py:171-174 | the ship's facing when at rest, its normalised velocity otherwise |
| WaveSpec.ShipCrash | planetoids/wave.py:175-179 | the ship hits asteroid j: break-up at the ship's position along CrashDirection, asteroid j removed, ship gone, one life lost |
| WaveSpec.ShipCollision | planetoids/wave.py:161-179 | a ship collision keeps the bullets, never lowers the score, and costs one life exactly when it removes the ship |
| WaveSpec.BulletCollisionEffect | planetoids/wave.py:181-196 | the check changes nothing if and only if no bullet overlaps an asteroid; otherwise one bullet goes and the score rises |
| WaveSpec.ShipCollisionEffect | planetoids/wave.py:161-179 | the ship is destroyed if and only if it overlaps an asteroid, with exactly one life lost and points gained; otherwise nothing changes |
| WaveSpec.CoolDown | planetoids/wave.py:116-117 | the cool-down drops by one when positive and stays otherwise |
| WaveSpec.Steer | planetoids/wave.py:118-125 | steering changes only the ship and keeps its facing consistent with its angle |
| WaveSpec.TurnIf | planetoids/wave.py:118-121 | a turn key keeps the facing consistent with the angle |
| WaveSpec.Turns | planetoids/wave.py:118-121 | left then right: position and velocity stay, a pressed key re-derives the facing, and with no key held the ship is unchanged |
| WaveSpec.Steered | planetoids/wave.py:118-125 | after the turns and the move the ship is inside the dead-zone box, faces its angle, and its velocity is the thrust rule along the new facing |
| WaveSpec.Drift | planetoids/wave.py:126-127 | moving the asteroids changes only the asteroid list and keeps its length |
| WaveSpec.Shoot | planetoids/wave.py:129-133 | with fire held and cool-down 0 a bullet from the ship is appended and the cool-down set to BULLET_RATE (its properties are ShootRule) |
| WaveSpec.Advance | planetoids/wave.py:135-136 | moving the bullets changes only the bullet list and keeps its length |
| WaveSpec.InBounds | planetoids/wave.py:137-142 | the filter never lengthens the bullet list |
| WaveSpec.InBoundsMembers | planetoids/wave.py:137-142 | the filter keeps exactly the bullets that are not out |
| WaveSpec.InBoundsAppend | planetoids/wave.py:137-142 | the filter distributes over concatenation, so kept bullets keep their order |
| WaveSpec.InBoundsNoneOut | planetoids/wave.py:137-142 | with no bullet out the list is unchanged |
| WaveSpec.ShootRule | planetoids/wave.py:129-133 | a bullet is appended if and only if fire is held and the cool-down is 0, and the cool-down then restarts at BULLET_RATE; otherwise nothing changes |
| WaveSpec.Expire | planetoids/wave.py:137-142 | expiry changes only the bullet list |
| WaveSpec.Flight | planetoids/wave.py:116-142 | the part of a frame before the collision checks keeps score and lives and keeps the cool-down within [0, BULLET_RATE] |
| WaveSpec.Frame | planetoids/wave.py:108-147 | Wave.update on values: nothing without a ship, otherwise Flight, then the bullet check, then the ship check (its properties are FrameCounters and FramePreservesInv) |
| WaveSpec.FlightMoving | planetoids/wave.py:116-142 | after the flight every bullet moves and the ship's facing matches its angle |
| WaveSpec.FrameCounters | planetoids/wave.py:108-147 | a frame never lowers the score, and loses a life, exactly one, if and only if it destroys the ship |
| WaveSpec.FramePreservesInv | planetoids/wave.py:108-147 | every frame keeps the wave invariant: facing matches angle, every bullet moves, cool-down in [0, BULLET_RATE], score ≥ 0, 0 ≤ lives ≤ SHIP_LIVES, and lives > 0 while the ship exists |
| WaveSpec.Run | planetoids/wave.py:108-147 | any sequence of frames keeps the invariant |
| WaveSpec.RunCounters | planetoids/wave.py:108-147 | over n frames the score never falls and at most n lives are lost |
| Waves.Wave.constructor | planetoids/wave.py:96-106 | the new wave is Start of the level and satisfies the invariant |
| Waves.Wave.ResetShip | planetoids/wave.py:77-82 | a fresh ship at the level's pose; nothing else changes; callable only while lives remain, as its documentation says |
| Waves.Wave.GetLives | planetoids/wave.py:84-88 | the lives stay within [0, SHIP_LIVES] |
| Waves.Wave.GetScore | planetoids/wave.py:90-94 | the score is never negative |
| Waves.Wave.PauseCheck | planetoids/wave.py:226-232 | true exactly when the ship is destroyed |
| Waves.Wave.EndCheck | planetoids/wave.py:234-241 | true exactly when no lives or no asteroids are left |
| Waves.Wave.Update | planetoids/wave.py:108-147 | the wave changes exactly as Frame says and keeps its invariant; with no ship nothing changes |
| Waves.Wave.Fly | planetoids/wave.py:116-142 | the stages before the collision checks, as Flight says |
| Waves.Wave.SteerShip | planetoids/wave.py:118-125 | the ship turns and moves as Steer says |
| Waves.Wave.TurnKeys | planetoids/wave.py:118-121 | left, then right, as Turns says |
| Waves.Wave.TurnShip | planetoids/wave.py:118-119 | one turn key, as TurnIf says |
| Waves.Wave.FireBullet | planetoids/wave.py:129-133 | firing as Shoot says |
| Waves.Wave.MoveAsteroids | planetoids/wave.py:126-127 | every asteroid moved by RockMoved, as Drift says |
| Waves.Wave.MoveBullets | planetoids/wave.py:135-136 | every bullet moved by ShotMoved, as Advance says |
| Waves.Wave.RemoveOutBullets | planetoids/wave.py:137-142 | out bullets dropped, as Expire says |
| Waves.Wave.BreakUp | planetoids/wave.py:198-224 | the score rises by Points(size) and the pieces are appended; nothing else changes |
| Waves.Wave.Shatter | planetoids/wave.py:193-194 | break-up followed by removal of the broken asteroid |
| Waves.Wave.CheckBulletCollision | planetoids/wave.py:181-196 | the wave changes exactly as BulletCollision says |
| Waves.Wave.FindPair | planetoids/wave.py:186-191 | the nested scan returns FirstPair |
| Waves.Wave.FindHit | planetoids/wave.py:167-170 | the asteroid scan returns FirstHit |
| Waves.Wave.BulletHit | planetoids/wave.py:192-196 | the hit asteroid breaks up at its centre along the bullet's direction; both are removed |
| Waves.Wave.ShipHit | planetoids/wave.py:171-179 | the asteroid breaks up at the ship's position; the ship is destroyed and one life is lost |
| Waves.Wave.CheckShipCollision | planetoids/wave.py:161-179 | the wave changes exactly as ShipCollision says |
| Waves.SpawnAll | planetoids/wave.py:99-102 | one asteroid per level entry, in order |
| Waves.KeepInBounds | planetoids/wave.py:137-142 | the in-place deletion loop leaves exactly InBounds of the bullets |
| Waves.InBoundsStep | planetoids/wave.py:139-142 | one more bullet is kept or dropped by its isOut |
| Waves.FlightIs | planetoids/wave.py:116-142 | the six stages in source order make up Flight |
| Waves.FrameIs | planetoids/wave.py:144-145 | flight, then bullet collision, then ship collision make up Frame |
| Waves.FirstHitNone | planetoids/wave.py:167-170 | a scan that finds nothing means FirstHit is None |
| AppSpec.EndText | planetoids/app.py:218-231 | "You lost!" if and only if lives is 0, "You Won!" otherwise |
| AppSpec.Step | planetoids/app.py:160-192 | LOADING never survives a frame; COMPLETE is final; INACTIVE leaves exactly on 's'; PAUSED resumes exactly on 's'; in ACTIVE the end flag wins over the pause flag |
| AppSpec.Begin | planetoids/app.py:94-113 | the title screen satisfies the controller invariant and has no wave |
| AppSpec.Ok | planetoids/app.py:59-79 | the controller invariant: never LOADING between frames; a wave exactly when not INACTIVE; title and message as each state shows them; the wave satisfies Inv; the labels show the wave's counters; ACTIVE has a ship and is not over; PAUSED has no ship and is not over; COMPLETE is over and shows EndText |
| AppSpec.Wake | planetoids/app.py:160-163 | the INACTIVE block: 's' starts loading and hides the title and message |
| AppSpec.Load | planetoids/app.py:165-168 | the LOADING block: a new wave of the level, then ACTIVE |
| AppSpec.Play | planetoids/app.py:170-178 | the ACTIVE block: one wave frame, the labels, then pauseCheck and endCheck in that order |
| AppSpec.Resume | planetoids/app.py:180-188 | the PAUSED block: the continue prompt, and on 's' a new ship and ACTIVE |
| AppSpec.Respawn | planetoids/wave.py:77-82 | resetShip on values: a new ship at the level's pose, at rest and facing its angle, with the rest of the wave unchanged |
| AppSpec.Finish | planetoids/app.py:190-192 | the COMPLETE block: the end message |
| AppSpec.Tick | planetoids/app.py:160-192 | Planetoids.update: the five blocks chained in source order (its properties are TickKeepsOk, TickState and the lemmas below) |
| AppSpec.TickKeepsOk | planetoids/app.py:160-192 | every frame keeps the controller invariant (state, wave, labels and flags agree) |
| AppSpec.PlayKeepsOk | planetoids/app.py:170-192 | the ACTIVE block and the blocks after it end in a consistent screen |
| AppSpec.TickState | planetoids/app.py:160-192 | the state after a frame is Step of the old state, 's', and the pause and end flags of the wave frame |
| AppSpec.CompleteIsFinal | planetoids/app.py:190-192 | a COMPLETE screen is unchanged by any frame |
| AppSpec.WaitingIsStill | planetoids/app.py:160-188 | without 's' the title and pause screens stay exactly as they are |
| AppSpec.LabelsFollowWave | planetoids/app.py:173-174 | after a frame the score and lives labels show the wave's score and lives |
| AppSpec.ContinueRespawns | planetoids/app.py:180-188 | 's' on the pause screen goes to ACTIVE with a new ship and nothing else in the wave changed |
| App.Planetoids.constructor | planetoids/app.py:81-113 | start: the title screen, INACTIVE and no wave |
| App.Planetoids.Update | planetoids/app.py:160-192 | the controller changes exactly as Tick says and keeps its invariant |
| App.Planetoids.StartGame | planetoids/app.py:160-163 | the INACTIVE block |
| App.Planetoids.LoadWave | planetoids/app.py:165-168 | the LOADING block: a fresh wave of the level, then ACTIVE |
| App.Planetoids.PlayOn | planetoids/app.py:170-192 | the ACTIVE, PAUSED and COMPLETE blocks in sequence |
| App.Planetoids.PlayWave | planetoids/app.py:170-178 | the ACTIVE block |
| App.Planetoids.CheckWave | planetoids/app.py:173-178 | the labels show the wave's counters; the end flag wins over the pause flag |
| App.Planetoids.ContinuePrompt | planetoids/app.py:180-188 | the PAUSED block |
| App.Planetoids.ShowResult | planetoids/app.py:190-192 | the COMPLETE block |
| App.Planetoids.EndMessage | planetoids/app.py:218-231 | the message is EndText of the wave's lives; nothing else changes |

## Left out

- Drawing is not modelled: `draw` of the app and the wave, and the call `self._wave.draw(self.view)` before the wave update. Label fonts and positions are not modelled either. A label is modelled by its text, or by the number it shows for score and lives. Image `source` fields and the bullet's ellipse size are left out too.
- `load_json(DEFAULT_WAVE)` is file I/O; the level data is the `data` field of `App.Planetoids`, given at construction.
- `input.is_key_down` is a call into the graphics library; the keys are boolean parameters.
- The dt argument of `update` is unused by the code and left out.
- Floating-point arithmetic is modelled as exact `real` arithmetic.
- `Vector.length()`, `math.cos`/`math.sin` and `math.pi` are abstract (see above).
- `SHIP_TURN_RATE` and the other constants have no values here (the settings module is not part of this model).
- Asteroids and bullets inside the wave are kept as values, not objects. Each is moved by the same rule the class method is proved to follow.
- `list.remove(x)` is modelled as removal at the index where the scan found x. This agrees with the code when the list holds distinct objects, which the game never violates. The model does not capture aliasing between list entries.
- An asteroid size string other than "small", "medium" or "large" (which leaves the Python object without a velocity) is not representable: `Size` has three values.
- The docstring of `update` describes a STATE_CONTINUE state and a return to STATE_INACTIVE when the game is over. The code has neither: PAUSED goes straight back to ACTIVE, and COMPLETE is never left. The model follows the code.
- The calls `self.endCheck()` and `self.pauseCheck()` at the end of `Wave.update` discard their results and are not modelled.
- Some stages of `Wave.update` and its collision checks are split into helper methods (`Fly`, `SteerShip`, `Models.Ship.CrashVector`, `TurnKeys`, `TurnShip`, `FireBullet`, `MoveAsteroids`, `MoveBullets`, `RemoveOutBullets`, `FindPair`, `FindHit`, `BulletHit`, `ShipHit`, `Shatter`). Likewise `Planetoids.update` is split into one method per block. In the source these are inline code.
- `endMessage` reads `_wave._lives` directly rather than through `getLives`; `App.Planetoids.EndMessage` reads `wave.lives` the same way.
- Geometry.NormalIsUnit: states unit length only where the abstract length is the exact square root (ExactLength), because the floating-point length is not exact.
- Geometry.DistanceBelow: equates the distance test with the squared test only under ExactLength, for the same reason.
- Motion.ThrustCapsSpeed: proves the exact SHIP_MAX_SPEED only under ExactLength, for the same reason.
- Motion.LaunchSpeed: proves the exact launch speed only under ExactLength, for the same reason.
- WaveSpec.FirstHit: its own contract only bounds the index; what it finds is stated by WaveSpec.FirstHitSpec, so that proofs about bullet scans do not carry the geometry of every asteroid test.
