/**
 * The motion rules of the three game objects of planetoids/models.py, stated
 * on values: the ship, a bullet and an asteroid each as a record of its
 * position and velocity, and every rule a function from the old record to
 * the new one. The classes in module Models are proved against these.
 */
module Motion {
  import opened Consts
  import opened Wrappers
  import opened Geometry

  /** The three asteroid sizes, "small", "medium" and "large". */
  datatype Size = Small | Medium | Large

  function RockRadius(size: Size): NonNegReal {
    match size
    case Small => SMALL_RADIUS
    case Medium => MEDIUM_RADIUS
    case Large => LARGE_RADIUS
  }

  function RockSpeed(size: Size): NonNegReal {
    match size
    case Small => SMALL_SPEED
    case Medium => MEDIUM_SPEED
    case Large => LARGE_SPEED
  }

  /** The dead-zone margin an asteroid wraps at: large asteroids get 20 more. */
  function Margin(size: Size): (m: real)
    ensures m >= DEAD_ZONE
    ensures size == Large <==> m > DEAD_ZONE
  {
    if size == Large then DEAD_ZONE + LARGE_EXTRA_MARGIN else DEAD_ZONE
  }

  function Abs(r: real): real {
    if r < 0.0 then -r else r
  }

  /**
   * One axis of the toroidal wrap: a coordinate past the low edge
   * `-|margin|` jumps to the high edge `extent + margin`, one past the high
   * edge jumps to the low edge, and any other coordinate stays.
   */
  function Wrap(c: real, extent: real, margin: real): (r: real)
    ensures 0.0 <= margin && 0.0 <= extent ==> -margin <= r <= extent + margin
  {
    if c < -Abs(margin) then extent + margin
    else if c > extent + margin then -Abs(margin)
    else c
  }

  /** Inside the field the wrap does nothing, and outside it always moves the coordinate. */
  lemma WrapFixes(c: real, extent: real, margin: real)
    requires 0.0 <= margin && 0.0 <= extent
    ensures Wrap(c, extent, margin) == c <==> -margin <= c <= extent + margin
  {
  }

  /** The jumps go to the opposite edge. */
  lemma WrapJumps(c: real, extent: real, margin: real)
    requires 0.0 <= margin && 0.0 <= extent
    ensures c < -margin ==> Wrap(c, extent, margin) == extent + margin
    ensures c > extent + margin ==> Wrap(c, extent, margin) == -margin
  {
  }

  /** The ship: position, heading angle in degrees, unit facing vector and velocity. */
  datatype ShipState = ShipState(pos: Vec, angle: real, facing: Vec, velocity: Vec)

  /** An asteroid: size, centre and velocity. */
  datatype Rock = Rock(size: Size, pos: Vec, velocity: Vec)

  /** A bullet: centre and velocity. */
  datatype Shot = Shot(pos: Vec, velocity: Vec)

  /** The "ship" entry of a level: starting position and angle. */
  datatype ShipPose = ShipPose(position: Vec, angle: real)

  /** One "asteroids" entry of a level: size, position and travel direction. */
  datatype RockData = RockData(size: Size, position: Vec, direction: Vec)

  /** The facing vector of a ship is the heading of its angle. */
  predicate Facing(s: ShipState) {
    s.facing == Heading(s.angle)
  }

  /** A new ship: at the given pose, at rest. */
  function ShipSpawn(pose: ShipPose): (s: ShipState)
    ensures Facing(s) && s.velocity == Zero
    ensures s.pos == pose.position && s.angle == pose.angle
  {
    ShipState(pose.position, pose.angle, Heading(pose.angle), Zero)
  }

  /** Ship.addAngle: the angle grows by `delta` and the facing follows it. */
  function Turned(s: ShipState, delta: real): (t: ShipState)
    ensures Facing(t)
    ensures t.pos == s.pos && t.velocity == s.velocity
  {
    var angle := s.angle + delta;
    s.(angle := angle, facing := Heading(angle))
  }

  /**
   * The thrust rule of Ship.move: without thrust the velocity stays; with
   * thrust a ship already over the speed limit is slowed to the limit in its
   * own direction, and any other ship gains one impulse along its facing.
   */
  function Thrust(velocity: Vec, facing: Vec, pressed: bool): Vec {
    if !pressed then velocity
    else if Length(velocity) > SHIP_MAX_SPEED then Scale(Normal(velocity).value, SHIP_MAX_SPEED)
    else Add(velocity, Scale(facing, SHIP_IMPULSE))
  }

  /** Ship.move: thrust, then one step of the velocity, then the wrap at DEAD_ZONE. */
  function ShipMoved(s: ShipState, pressed: bool): (t: ShipState)
    ensures -(DEAD_ZONE as real) <= t.pos.x <= GAME_WIDTH + DEAD_ZONE
    ensures -(DEAD_ZONE as real) <= t.pos.y <= GAME_HEIGHT + DEAD_ZONE
    ensures t.angle == s.angle && t.facing == s.facing
    ensures t.velocity == Thrust(s.velocity, s.facing, pressed)
  {
    var v := Thrust(s.velocity, s.facing, pressed);
    var p := Add(v, s.pos);
    s.(pos := Vec(Wrap(p.x, GAME_WIDTH, DEAD_ZONE), Wrap(p.y, GAME_HEIGHT, DEAD_ZONE)), velocity := v)
  }

  /**
   * A ship over the speed limit that thrusts leaves with exactly the limit
   * as its speed, pointing the same way as before.
   */
  lemma ThrustCapsSpeed(velocity: Vec, facing: Vec)
    requires Length(velocity) > SHIP_MAX_SPEED
    requires ExactLength(velocity)
    ensures LengthSq(Thrust(velocity, facing, true)) == SHIP_MAX_SPEED * SHIP_MAX_SPEED
    ensures exists k :: 0.0 < k && Thrust(velocity, facing, true) == Scale(velocity, k)
  {
    assert velocity != Zero;
    NormalIsUnit(velocity);
    var u := Normal(velocity).value;
    var k :| 0.0 < k && u == Scale(velocity, k);
    ScaleLengthSq(u, SHIP_MAX_SPEED);
    assert Scale(u, SHIP_MAX_SPEED) == Scale(velocity, k * SHIP_MAX_SPEED);
    PositiveProduct(k, SHIP_MAX_SPEED);
  }

  /** Bullet.__init__: at the ship's nose, SHIP_RADIUS along the facing, moving along the facing. */
  function Fire(ship: ShipState): Shot {
    Shot(Add(Scale(ship.facing, SHIP_RADIUS), ship.pos), Scale(ship.facing, BULLET_SPEED))
  }

  /**
   * A bullet fired from a ship whose facing is a heading starts SHIP_RADIUS
   * from the ship's centre and flies at BULLET_SPEED, so it never stands still.
   */
  lemma FireGeometry(ship: ShipState)
    requires Facing(ship)
    ensures LengthSq(Vec(Fire(ship).pos.x - ship.pos.x, Fire(ship).pos.y - ship.pos.y)) == SHIP_RADIUS * SHIP_RADIUS
    ensures LengthSq(Fire(ship).velocity) == BULLET_SPEED * BULLET_SPEED
    ensures Fire(ship).velocity != Zero
  {
    var b := Fire(ship);
    HeadingNonZero(ship.angle);
    ScaleLengthSq(ship.facing, BULLET_SPEED);
    ScaleNonZero(ship.facing, BULLET_SPEED);
    assert Vec(b.pos.x - ship.pos.x, b.pos.y - ship.pos.y) == Scale(ship.facing, SHIP_RADIUS);
    ScaleLengthSq(ship.facing, SHIP_RADIUS);
  }

  /** Bullet.move: one step of the fixed velocity, no wrap. */
  function ShotMoved(b: Shot): (c: Shot)
    ensures c.velocity == b.velocity
  {
    b.(pos := Add(b.velocity, b.pos))
  }

  /** Bullet.isOut: past the right edge or the top edge (y grows upwards), dead zone included. */
  predicate ShotOut(b: Shot) {
    b.pos.x > GAME_WIDTH + DEAD_ZONE || b.pos.y > GAME_HEIGHT + DEAD_ZONE
  }

  /** A bullet moved `n` frames. */
  function ShotAfter(b: Shot, n: nat): (c: Shot)
    ensures c.velocity == b.velocity
  {
    if n == 0 then b else ShotMoved(ShotAfter(b, n - 1))
  }

  /**
   * The out test looks at the two high edges only: a bullet that starts
   * inside them and travels with no positive component never counts as out,
   * however many frames it flies.
   */
  lemma {:induction false} ShotNeverOutGoingBack(b: Shot, n: nat)
    requires !ShotOut(b)
    requires b.velocity.x <= 0.0 && b.velocity.y <= 0.0
    ensures !ShotOut(ShotAfter(b, n))
    ensures ShotAfter(b, n).pos.x <= b.pos.x && ShotAfter(b, n).pos.y <= b.pos.y
  {
    if n > 0 {
      ShotNeverOutGoingBack(b, n - 1);
    }
  }

  /**
   * The velocity of a new asteroid: its direction normalised and scaled to
   * `speed`, or the direction times zero where normalising fails.
   */
  function Launch(direction: Vec, speed: real): (v: Vec)
    ensures direction == Zero ==> v == Zero
  {
    match Normal(direction)
    case None => Scale(direction, 0.0)
    case Some(u) => Scale(u, speed)
  }

  /** Asteroid.__init__ on one level entry. */
  function Spawn(d: RockData): (r: Rock)
    ensures r.size == d.size && r.pos == d.position
  {
    Rock(d.size, d.position, Launch(d.direction, RockSpeed(d.size)))
  }

  /** With a positive speed, an asteroid stands still exactly when its direction is the zero vector. */
  lemma LaunchStill(direction: Vec, speed: real)
    requires 0.0 < speed
    ensures Launch(direction, speed) == Zero <==> direction == Zero
  {
    NormalDefined(direction);
    if direction != Zero {
      var len := Length(direction);
      ScaleNonZero(direction, 1.0 / len);
      ScaleNonZero(Scale(direction, 1.0 / len), speed);
    }
  }

  /** A non-zero direction whose normal() is exact launches the asteroid at exactly `speed`. */
  lemma LaunchSpeed(direction: Vec, speed: real)
    requires direction != Zero && ExactLength(direction)
    ensures LengthSq(Launch(direction, speed)) == speed * speed
  {
    NormalIsUnit(direction);
    ScaleLengthSq(Normal(direction).value, speed);
  }

  /** Asteroid.move: one step of the velocity, then the wrap at the size's margin. */
  function RockMoved(r: Rock): (m: Rock)
    ensures m.size == r.size && m.velocity == r.velocity
    ensures -Margin(r.size) <= m.pos.x <= GAME_WIDTH + Margin(r.size)
    ensures -Margin(r.size) <= m.pos.y <= GAME_HEIGHT + Margin(r.size)
  {
    var p := Add(r.velocity, r.pos);
    r.(pos := Vec(Wrap(p.x, GAME_WIDTH, Margin(r.size)), Wrap(p.y, GAME_HEIGHT, Margin(r.size))))
  }
}
