/**
 * One wave of the game (planetoids/wave.py) stated on values: the state of
 * a wave as a record, every stage of a frame as a function on it, and the
 * properties the game relies on (the invariant a frame keeps, the score
 * never falling, lives falling by one per crash) as lemmas. The Wave class
 * of module Waves is proved to update its objects exactly as Frame says.
 */
module WaveSpec {
  import opened Consts
  import opened Wrappers
  import opened Geometry
  import opened Motion

  /** The keys the wave reads in one frame. */
  datatype Keys = Keys(left: bool, right: bool, up: bool, fire: bool)

  /** A level definition: the ship's starting pose and one entry per asteroid. */
  datatype Level = Level(ship: ShipPose, rocks: seq<RockData>)

  /**
   * The state of a wave: the ship (None while it is destroyed), the
   * asteroids and bullets in list order, the lives left, the frames until
   * the ship may fire again, and the score.
   */
  datatype WaveState = WaveState(
    ship: Option<ShipState>,
    rocks: seq<Rock>,
    shots: seq<Shot>,
    lives: int,
    cooldown: int,
    score: int)

  /** Every bullet moves, so its direction of travel is defined. */
  predicate AllMoving(shots: seq<Shot>) {
    forall i :: 0 <= i < |shots| ==> shots[i].velocity != Zero
  }

  /** What every frame keeps true of a wave. */
  predicate Inv(w: WaveState) {
    && (w.ship.Some? ==> Facing(w.ship.value))
    && AllMoving(w.shots)
    && 0 <= w.cooldown <= BULLET_RATE
    && 0 <= w.score
    && 0 <= w.lives <= SHIP_LIVES
    && (w.ship.Some? ==> 0 < w.lives)
  }

  /** Wave.pauseCheck on a wave state: the ship has been destroyed. */
  predicate ShipDown(w: WaveState) {
    w.ship.None?
  }

  /** Wave.endCheck on a wave state: no lives or no asteroids are left. */
  predicate Over(w: WaveState) {
    w.lives == 0 || w.rocks == []
  }

  /** A new wave: the level's ship, one asteroid per entry in order, no bullets, full lives, no score. */
  function Start(level: Level): (w: WaveState)
    ensures Inv(w)
    ensures |w.rocks| == |level.rocks|
    ensures forall i :: 0 <= i < |level.rocks| ==> w.rocks[i] == Spawn(level.rocks[i])
    ensures w.ship == Some(ShipSpawn(level.ship)) && w.shots == []
    ensures w.lives == SHIP_LIVES && w.cooldown == 0 && w.score == 0
  {
    WaveState(
      Some(ShipSpawn(level.ship)),
      seq(|level.rocks|, i requires 0 <= i < |level.rocks| => Spawn(level.rocks[i])),
      [], SHIP_LIVES, 0, 0)
  }

  /** `s` without its element at index `i`. */
  function Remove<T>(s: seq<T>, i: nat): (r: seq<T>)
    requires i < |s|
    ensures |r| == |s| - 1
    ensures forall k :: 0 <= k < |r| ==> r[k] == if k < i then s[k] else s[k + 1]
  {
    s[..i] + s[i + 1..]
  }

  /** Points for destroying an asteroid: the smaller, the more. */
  function Points(size: Size): (p: nat)
    ensures p > 0
  {
    match size
    case Small => 20
    case Medium => 10
    case Large => 5
  }

  /** The size of the three pieces an asteroid breaks into. */
  function Smaller(size: Size): Size
    requires size != Small
  {
    if size == Medium then Small else Medium
  }

  /**
   * (math.cos(rad), math.sin(rad)) for rad = degToRad(120) and for
   * rad = degToRad(240): the double-precision values, written out. These
   * are not exactly on the unit circle.
   */
  const TURN_120: Vec := Vec(-0.4999999999999998, 0.8660254037844387)
  const TURN_240: Vec := Vec(-0.5000000000000004, -0.8660254037844384)

  /** Neither turn sends a non-zero vector to the zero vector. */
  lemma TurnsNonZero(v: Vec)
    requires v != Zero
    ensures Rotate(v, TURN_120) != Zero && Rotate(v, TURN_240) != Zero
  {
    if v.x == 0.0 {
      assert v.y != 0.0;
    }
  }

  /**
   * The pieces of a broken asteroid: none for a small one, otherwise three
   * of the next size down at `point`, sent along `collision` and along it
   * turned by 120 and by 240 degrees.
   */
  function Fragments(point: Vec, collision: Vec, size: Size): (children: seq<Rock>)
    ensures size == Small <==> |children| == 0
    ensures size != Small ==> |children| == 3
    ensures forall k :: 0 <= k < |children| ==>
      children[k].pos == point && children[k].size != size && children[k].size != Large
    ensures size != Small ==> forall k :: 0 <= k < |children| ==> children[k].size == Smaller(size)
    ensures size != Small ==>
      && children[0].velocity == Launch(collision, RockSpeed(Smaller(size)))
      && children[1].velocity == Launch(Rotate(collision, TURN_120), RockSpeed(Smaller(size)))
      && children[2].velocity == Launch(Rotate(collision, TURN_240), RockSpeed(Smaller(size)))
  {
    if size == Small then []
    else
      var child := Smaller(size);
      [ Spawn(RockData(child, point, collision)),
        Spawn(RockData(child, point, Rotate(collision, TURN_120))),
        Spawn(RockData(child, point, Rotate(collision, TURN_240))) ]
  }

  /** An asteroid launched along a non-zero direction at a positive speed moves. */
  lemma SpawnMoves(d: RockData)
    requires d.direction != Zero && 0.0 < RockSpeed(d.size)
    ensures Spawn(d).velocity != Zero
  {
    LaunchStill(d.direction, RockSpeed(d.size));
  }

  /**
   * When the collision direction is not the zero vector and the pieces have
   * a positive speed, all three pieces move.
   */
  lemma FragmentsMove(point: Vec, collision: Vec, size: Size)
    requires collision != Zero
    requires size != Small && 0.0 < RockSpeed(Smaller(size))
    ensures forall k :: 0 <= k < |Fragments(point, collision, size)| ==> Fragments(point, collision, size)[k].velocity != Zero
  {
    var child := Smaller(size);
    TurnsNonZero(collision);
    SpawnMoves(RockData(child, point, collision));
    SpawnMoves(RockData(child, point, Rotate(collision, TURN_120)));
    SpawnMoves(RockData(child, point, Rotate(collision, TURN_240)));
  }

  /** Wave.breakUp: the asteroid's points are added and its pieces appended. */
  function BreakUp(w: WaveState, point: Vec, collision: Vec, size: Size): (r: WaveState)
    ensures r.score > w.score
    ensures |r.rocks| >= |w.rocks| && r.rocks[..|w.rocks|] == w.rocks
    ensures r == w.(score := r.score, rocks := r.rocks)
  {
    w.(score := w.score + Points(size), rocks := w.rocks + Fragments(point, collision, size))
  }

  /** A circle of radius `reach` around `p` overlaps the asteroid. */
  predicate Hits(p: Vec, reach: real, rock: Rock) {
    Distance(p, rock.pos) < reach + RockRadius(rock.size)
  }

  /** The index of the first asteroid that the circle around `p` overlaps. */
  function FirstHit(p: Vec, reach: real, rocks: seq<Rock>): (r: Option<nat>)
    ensures r.Some? ==> r.value < |rocks|
    decreases |rocks|
  {
    if |rocks| == 0 then None
    else if Hits(p, reach, rocks[0]) then Some(0)
    else
      match FirstHit(p, reach, rocks[1..])
      case None => None
      case Some(j) => Some(j + 1)
  }

  /**
   * The first bullet, in list order, that overlaps any asteroid, paired
   * with the first asteroid it overlaps.
   */
  function FirstPair(shots: seq<Shot>, rocks: seq<Rock>): (r: Option<(nat, nat)>)
    ensures r.None? <==> forall i :: 0 <= i < |shots| ==> FirstHit(shots[i].pos, BULLET_RADIUS, rocks).None?
    ensures r.Some? ==> r.value.0 < |shots| && FirstHit(shots[r.value.0].pos, BULLET_RADIUS, rocks) == Some(r.value.1)
    ensures r.Some? ==> forall i :: 0 <= i < r.value.0 ==> FirstHit(shots[i].pos, BULLET_RADIUS, rocks).None?
    decreases |shots|
  {
    if |shots| == 0 then None
    else
      match FirstHit(shots[0].pos, BULLET_RADIUS, rocks)
      case Some(j) => Some((0, j))
      case None =>
        match FirstPair(shots[1..], rocks)
        case None => None
        case Some(pair) =>
          assert forall i :: 0 < i <= pair.0 ==> shots[i] == shots[1..][i - 1];
          Some((pair.0 + 1, pair.1))
  }

  /**
   * FirstHit finds nothing exactly when no asteroid overlaps the circle, and
   * otherwise an overlapping asteroid with none before it.
   */
  lemma {:induction false} FirstHitSpec(p: Vec, reach: real, rocks: seq<Rock>)
    ensures FirstHit(p, reach, rocks).None? <==> forall j :: 0 <= j < |rocks| ==> !Hits(p, reach, rocks[j])
    ensures FirstHit(p, reach, rocks).Some? ==> Hits(p, reach, rocks[FirstHit(p, reach, rocks).value])
    ensures FirstHit(p, reach, rocks).Some? ==> forall j :: 0 <= j < FirstHit(p, reach, rocks).value ==> !Hits(p, reach, rocks[j])
    decreases |rocks|
  {
    if |rocks| > 0 && !Hits(p, reach, rocks[0]) {
      FirstHitSpec(p, reach, rocks[1..]);
      assert forall j :: 0 < j < |rocks| ==> rocks[j] == rocks[1..][j - 1];
    }
  }

  /** FirstHit picks the first overlapping asteroid and no other. */
  lemma {:induction false} FirstHitIs(p: Vec, reach: real, rocks: seq<Rock>, j: nat)
    requires j < |rocks| && Hits(p, reach, rocks[j])
    requires forall m :: 0 <= m < j ==> !Hits(p, reach, rocks[m])
    ensures FirstHit(p, reach, rocks) == Some(j)
    decreases j
  {
    if j > 0 {
      var rest := rocks[1..];
      forall m | 0 <= m < j - 1
        ensures !Hits(p, reach, rest[m])
      {
        assert rest[m] == rocks[m + 1];
      }
      assert rest[j - 1] == rocks[j];
      FirstHitIs(p, reach, rest, j - 1);
    }
  }

  /** FirstPair picks the first bullet that overlaps an asteroid and no other. */
  lemma FirstPairIs(shots: seq<Shot>, rocks: seq<Rock>, i: nat, j: nat)
    requires i < |shots| && FirstHit(shots[i].pos, BULLET_RADIUS, rocks) == Some(j)
    requires forall m :: 0 <= m < i ==> FirstHit(shots[m].pos, BULLET_RADIUS, rocks).None?
    ensures FirstPair(shots, rocks) == Some((i, j))
  {
  }

  /**
   * Bullet `i` hits asteroid `j`: the asteroid breaks up at its own centre
   * along the bullet's direction, and then the asteroid and the bullet are
   * removed.
   */
  function BulletHitAt(w: WaveState, i: nat, j: nat): WaveState
    requires i < |w.shots| && j < |w.rocks| && w.shots[i].velocity != Zero
  {
    var rock := w.rocks[j];
    var b := BreakUp(w, rock.pos, Normal(w.shots[i].velocity).value, rock.size);
    b.(rocks := Remove(b.rocks, j), shots := Remove(w.shots, i))
  }

  /** Wave.checkBulletCollision: the first pair found by FirstPair is resolved. */
  function BulletCollision(w: WaveState): (r: WaveState)
    requires AllMoving(w.shots)
    ensures r.ship == w.ship && r.lives == w.lives && r.cooldown == w.cooldown
    ensures r.score >= w.score
    ensures AllMoving(r.shots)
  {
    match FirstPair(w.shots, w.rocks)
    case None => w
    case Some(pair) => BulletHitAt(w, pair.0, pair.1)
  }

  /** The direction a crashing ship hands to the break-up: its heading when at rest. */
  function CrashDirection(ship: ShipState): Vec {
    if ship.velocity == Zero then ship.facing else Normal(ship.velocity).value
  }

  /**
   * The ship hits asteroid `j`: the asteroid breaks up at the ship's
   * position along CrashDirection and is removed, the ship is destroyed and
   * one life is lost.
   */
  function ShipCrash(w: WaveState, j: nat): WaveState
    requires w.ship.Some? && j < |w.rocks|
  {
    var ship := w.ship.value;
    var b := BreakUp(w, ship.pos, CrashDirection(ship), w.rocks[j].size);
    b.(rocks := Remove(b.rocks, j), ship := None, lives := w.lives - 1)
  }

  /** Wave.checkShipCollision: the first asteroid the ship overlaps is resolved. */
  function ShipCollision(w: WaveState): (r: WaveState)
    requires w.ship.Some?
    ensures r.shots == w.shots && r.cooldown == w.cooldown && r.score >= w.score
    ensures (r.ship == w.ship && r.lives == w.lives) || (r.ship.None? && r.lives == w.lives - 1)
  {
    match FirstHit(w.ship.value.pos, SHIP_RADIUS, w.rocks)
    case None => w
    case Some(j) => ShipCrash(w, j)
  }

  /**
   * A bullet collision changes the wave exactly when some bullet overlaps
   * some asteroid, and then it removes one bullet and adds points.
   */
  lemma BulletCollisionEffect(w: WaveState)
    requires AllMoving(w.shots)
    ensures BulletCollision(w) == w <==>
      forall i, j :: 0 <= i < |w.shots| && 0 <= j < |w.rocks| ==> !Hits(w.shots[i].pos, BULLET_RADIUS, w.rocks[j])
    ensures BulletCollision(w) != w ==>
      |BulletCollision(w).shots| == |w.shots| - 1 && BulletCollision(w).score > w.score
  {
    match FirstPair(w.shots, w.rocks)
    case None =>
      forall i, j | 0 <= i < |w.shots| && 0 <= j < |w.rocks|
        ensures !Hits(w.shots[i].pos, BULLET_RADIUS, w.rocks[j])
      {
        assert FirstHit(w.shots[i].pos, BULLET_RADIUS, w.rocks).None?;
        FirstHitSpec(w.shots[i].pos, BULLET_RADIUS, w.rocks);
      }
    case Some(pair) =>
      FirstHitSpec(w.shots[pair.0].pos, BULLET_RADIUS, w.rocks);
      assert Hits(w.shots[pair.0].pos, BULLET_RADIUS, w.rocks[pair.1]);
      assert BulletCollision(w).score > w.score;
  }

  /**
   * A ship collision happens exactly when the ship overlaps some asteroid;
   * it destroys the ship, costs exactly one life and adds points, and
   * otherwise nothing changes.
   */
  lemma ShipCollisionEffect(w: WaveState)
    requires w.ship.Some?
    ensures ShipCollision(w).ship.None? <==>
      exists j :: 0 <= j < |w.rocks| && Hits(w.ship.value.pos, SHIP_RADIUS, w.rocks[j])
    ensures ShipCollision(w).ship.Some? ==> ShipCollision(w) == w
    ensures ShipCollision(w).ship.None? ==>
      ShipCollision(w).lives == w.lives - 1 && ShipCollision(w).score > w.score
  {
    var p := w.ship.value.pos;
    FirstHitSpec(p, SHIP_RADIUS, w.rocks);
    match FirstHit(p, SHIP_RADIUS, w.rocks)
    case None =>
    case Some(j) =>
      assert Hits(p, SHIP_RADIUS, w.rocks[j]);
  }

  /** The cool-down counter counts down to zero. */
  function CoolDown(w: WaveState): WaveState {
    w.(cooldown := if w.cooldown > 0 then w.cooldown - 1 else w.cooldown)
  }

  /** Turning left, then right, then moving the ship with or without thrust. */
  function Steer(w: WaveState, keys: Keys): (r: WaveState)
    requires w.ship.Some?
    ensures r.ship.Some? && r == w.(ship := r.ship)
    ensures Facing(w.ship.value) ==> Facing(r.ship.value)
  {
    w.(ship := Some(Steered(w.ship.value, keys)))
  }

  /**
   * The ship after the turn keys and the thrust key of one frame: inside the
   * dead-zone box, facing its angle, and with the old velocity thrust along
   * the new facing.
   */
  function Steered(s: ShipState, keys: Keys): (t: ShipState)
    ensures -(DEAD_ZONE as real) <= t.pos.x <= GAME_WIDTH + DEAD_ZONE
    ensures -(DEAD_ZONE as real) <= t.pos.y <= GAME_HEIGHT + DEAD_ZONE
    ensures (keys.left || keys.right || Facing(s)) ==> Facing(t)
    ensures t.velocity == Thrust(s.velocity, t.facing, keys.up)
  {
    ShipMoved(Turns(s, keys), keys.up)
  }

  /**
   * The ship after the turn keys, left first, then right: it stays where it
   * is with the same velocity, a pressed key re-derives its facing, and with
   * no key held nothing changes.
   */
  function Turns(s: ShipState, keys: Keys): (t: ShipState)
    ensures t.pos == s.pos && t.velocity == s.velocity
    ensures (keys.left || keys.right || Facing(s)) ==> Facing(t)
    ensures !keys.left && !keys.right ==> t == s
  {
    TurnIf(TurnIf(s, keys.left, SHIP_TURN_RATE), keys.right, -Abs(SHIP_TURN_RATE))
  }

  /** The ship turned by `delta` degrees while its key is held. */
  function TurnIf(s: ShipState, pressed: bool, delta: real): (t: ShipState)
    ensures Facing(s) ==> Facing(t)
  {
    if pressed then Turned(s, delta) else s
  }

  /** Every asteroid moves one step. */
  function Drift(w: WaveState): (r: WaveState)
    ensures |r.rocks| == |w.rocks| && r == w.(rocks := r.rocks)
  {
    w.(rocks := seq(|w.rocks|, i requires 0 <= i < |w.rocks| => RockMoved(w.rocks[i])))
  }

  /** With the fire key held and the cool-down at zero, a bullet is added and the cool-down restarts. */
  function Shoot(w: WaveState, fire: bool): WaveState
    requires w.ship.Some?
  {
    if fire && w.cooldown == 0 then
      w.(shots := w.shots + [Fire(w.ship.value)], cooldown := BULLET_RATE)
    else w
  }

  /** Every bullet moves one step. */
  function Advance(w: WaveState): (r: WaveState)
    ensures |r.shots| == |w.shots| && r == w.(shots := r.shots)
  {
    w.(shots := seq(|w.shots|, i requires 0 <= i < |w.shots| => ShotMoved(w.shots[i])))
  }

  /** The bullets that are not out, in their original order. */
  function InBounds(shots: seq<Shot>): (r: seq<Shot>)
    ensures |r| <= |shots|
  {
    if |shots| == 0 then []
    else
      var last := shots[|shots| - 1];
      assert shots == shots[..|shots| - 1] + [last];
      InBounds(shots[..|shots| - 1]) + (if ShotOut(last) then [] else [last])
  }

  /** The filter keeps exactly the bullets that are not out. */
  lemma {:induction false} InBoundsMembers(shots: seq<Shot>)
    ensures forall x :: x in InBounds(shots) <==> x in shots && !ShotOut(x)
    decreases |shots|
  {
    if |shots| > 0 {
      var init := shots[..|shots| - 1];
      InBoundsMembers(init);
      assert shots == init + [shots[|shots| - 1]];
    }
  }

  /** Filtering commutes with concatenation: the kept bullets stay in their order. */
  lemma {:induction false} InBoundsAppend(a: seq<Shot>, b: seq<Shot>)
    ensures InBounds(a + b) == InBounds(a) + InBounds(b)
    decreases |b|
  {
    if |b| > 0 {
      var last := b[|b| - 1];
      var b0 := b[..|b| - 1];
      assert (a + b)[..|a + b| - 1] == a + b0;
      InBoundsAppend(a, b0);
    } else {
      assert a + b == a;
    }
  }

  /** With no bullet out, the filter keeps the list as it is. */
  lemma {:induction false} InBoundsNoneOut(shots: seq<Shot>)
    requires forall i :: 0 <= i < |shots| ==> !ShotOut(shots[i])
    ensures InBounds(shots) == shots
    decreases |shots|
  {
    if |shots| > 0 {
      InBoundsNoneOut(shots[..|shots| - 1]);
    }
  }

  /** The fire key fires exactly when the cool-down is zero, and firing restarts it. */
  lemma ShootRule(w: WaveState, fire: bool)
    requires w.ship.Some?
    ensures |Shoot(w, fire).shots| == |w.shots| + 1 <==> fire && w.cooldown == 0
    ensures fire && w.cooldown == 0 ==>
      Shoot(w, fire).shots == w.shots + [Fire(w.ship.value)] && Shoot(w, fire).cooldown == BULLET_RATE
    ensures !(fire && w.cooldown == 0) ==> Shoot(w, fire) == w
  {
  }

  /** The bullets that are out are dropped. */
  function Expire(w: WaveState): (r: WaveState)
    ensures r == w.(shots := r.shots)
  {
    w.(shots := InBounds(w.shots))
  }

  /** The bullets after one frame of firing, moving and expiring. */
  function Flight(w: WaveState, keys: Keys): (r: WaveState)
    requires w.ship.Some?
    ensures r.score == w.score && r.lives == w.lives
    ensures 0 <= w.cooldown <= BULLET_RATE ==> 0 <= r.cooldown <= BULLET_RATE
  {
    Expire(Advance(Shoot(Drift(Steer(CoolDown(w), keys)), keys.fire)))
  }

  /** Wave.update: one frame of the wave. With no ship, nothing happens. */
  function Frame(w: WaveState, keys: Keys): WaveState
    requires Inv(w)
  {
    if w.ship.None? then w
    else
      var f := Flight(w, keys);
      assert AllMoving(f.shots) by { FlightMoving(w, keys); }
      ShipCollision(BulletCollision(f))
  }

  /** A frame leaves every bullet moving and the ship facing its heading. */
  lemma FlightMoving(w: WaveState, keys: Keys)
    requires Inv(w) && w.ship.Some?
    ensures AllMoving(Flight(w, keys).shots)
    ensures Flight(w, keys).ship.Some? && Facing(Flight(w, keys).ship.value)
  {
    var s := Drift(Steer(CoolDown(w), keys));
    var t := Shoot(s, keys.fire);
    if keys.fire && s.cooldown == 0 {
      FireGeometry(s.ship.value);
    }
    assert AllMoving(t.shots);
    var a := Advance(t);
    assert AllMoving(a.shots);
    var e := Expire(a);
    InBoundsMembers(a.shots);
    forall i | 0 <= i < |e.shots|
      ensures e.shots[i].velocity != Zero
    {
      assert e.shots[i] in a.shots;
    }
  }

  /** The lives lost and points gained in one frame. */
  lemma FrameCounters(w: WaveState, keys: Keys)
    requires Inv(w)
    ensures Frame(w, keys).score >= w.score
    ensures Frame(w, keys).lives == w.lives || Frame(w, keys).lives == w.lives - 1
    ensures Frame(w, keys).lives == w.lives - 1 <==> w.ship.Some? && Frame(w, keys).ship.None?
  {
  }

  /** Every frame keeps the invariant. */
  lemma FramePreservesInv(w: WaveState, keys: Keys)
    requires Inv(w)
    ensures Inv(Frame(w, keys))
  {
    if w.ship.Some? {
      FlightMoving(w, keys);
      var b := BulletCollision(Flight(w, keys));
      assert AllMoving(ShipCollision(b).shots);
    }
  }

  /** Wave.update over a sequence of frames. */
  function Run(w: WaveState, frames: seq<Keys>): (r: WaveState)
    requires Inv(w)
    ensures Inv(r)
    decreases |frames|
  {
    if |frames| == 0 then w
    else
      FramePreservesInv(w, frames[0]);
      Run(Frame(w, frames[0]), frames[1..])
  }

  /**
   * Over any run of frames the score never falls, lives never rise, and at
   * most one life is lost per frame.
   */
  lemma {:induction false} RunCounters(w: WaveState, frames: seq<Keys>)
    requires Inv(w)
    ensures Run(w, frames).score >= w.score
    ensures w.lives - |frames| <= Run(w, frames).lives <= w.lives
    decreases |frames|
  {
    if |frames| > 0 {
      FramePreservesInv(w, frames[0]);
      FrameCounters(w, frames[0]);
      RunCounters(Frame(w, frames[0]), frames[1..]);
    }
  }
}
