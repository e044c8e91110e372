/**
 * The Wave class of planetoids/wave.py: the ship, the asteroid and bullet
 * lists and the counters of one level, updated in place frame by frame.
 * The ship is a Models.Ship object; the asteroids and bullets are kept as
 * the Motion states of their objects, and each is moved by the Motion rule
 * the matching Models class is proved to follow. Every method is proved to
 * change the wave exactly as the matching stage of WaveSpec says, so the
 * properties proved there hold of the object.
 */
module Waves {
  import opened Consts
  import opened Wrappers
  import opened Geometry
  import opened Motion
  import opened Models
  import opened WaveSpec

  class Wave {
    /** The level this wave was built from, kept to respawn the ship. */
    const level: Level
    var ship: Ship?
    var asteroids: seq<Rock>
    var bullets: seq<Shot>
    var lives: int
    /** Frames until the ship may fire again. */
    var firerate: int
    var score: int

    function View(): WaveState
      reads this, ship
    {
      WaveState(if ship == null then None else Some(ship.View()), asteroids, bullets, lives, firerate, score)
    }

    ghost predicate Valid()
      reads this, ship
    {
      Inv(View())
    }

    constructor (level: Level)
      ensures this.level == level && Valid() && fresh(ship)
      ensures View() == Start(level)
    {
      this.level := level;
      ship := new Ship(level.ship);
      var rocks := SpawnAll(level.rocks);
      assert rocks == Start(level).rocks;
      asteroids := rocks;
      bullets := [];
      firerate := 0;
      lives := SHIP_LIVES;
      score := 0;
    }

    /** A new ship at the level's starting pose; nothing else changes. */
    method ResetShip()
      requires Valid() && lives > 0
      modifies this
      ensures Valid() && fresh(ship)
      ensures View() == old(View()).(ship := Some(ShipSpawn(level.ship)))
    {
      ship := new Ship(level.ship);
    }

    function GetLives(): (r: int)
      reads this, ship
      ensures Valid() ==> 0 <= r <= SHIP_LIVES
    {
      lives
    }

    function GetScore(): (r: int)
      reads this, ship
      ensures Valid() ==> 0 <= r
    {
      score
    }

    /** The ship has been destroyed. */
    predicate PauseCheck(): (r: bool)
      reads this, ship
      ensures r <==> ShipDown(View())
    {
      ship == null
    }

    /** No lives are left or no asteroids are left. */
    predicate EndCheck(): (r: bool)
      reads this, ship
      ensures r <==> Over(View())
    {
      lives == 0 || asteroids == []
    }

    /** One frame of the game. */
    method Update(keys: Keys)
      requires Valid()
      modifies this, ship
      ensures Valid()
      ensures ship == null || ship == old(ship)
      ensures View() == Frame(old(View()), keys)
    {
      if ship == null {
        return;
      }
      ghost var w := View();
      Fly(keys);
      ghost var f := View();
      FlightMoving(w, keys);
      CheckBulletCollision();
      ghost var b := View();
      CheckShipCollision();
      FrameIs(w, keys, f, b, View());
      FramePreservesInv(w, keys);
    }

    /**
     * The part of a frame before the collision checks: cool-down, steering,
     * asteroid motion, firing, bullet motion and expiry.
     */
    method Fly(keys: Keys)
      requires ship != null
      modifies this, ship
      ensures ship == old(ship)
      ensures View() == Flight(old(View()), keys)
    {
      ghost var w := View();
      if firerate > 0 {
        firerate := firerate - 1;
      }
      ghost var v1 := View();
      assert v1 == CoolDown(w);
      SteerShip(keys);
      ghost var v2 := View();
      MoveAsteroids();
      ghost var v3 := View();
      FireBullet(keys.fire);
      ghost var v4 := View();
      MoveBullets();
      ghost var v5 := View();
      RemoveOutBullets();
      FlightIs(w, keys, v1, v2, v3, v4, v5, View());
    }

    /** The ship turns left, then right, then moves with or without thrust. */
    method SteerShip(keys: Keys)
      requires ship != null
      modifies ship
      ensures View() == Steer(old(View()), keys)
    {
      TurnKeys(keys);
      ship.Move(keys.up);
    }

    /** The ship turns left, then right. */
    method TurnKeys(keys: Keys)
      requires ship != null
      modifies ship
      ensures ship.View() == Turns(old(ship.View()), keys)
    {
      TurnShip(keys.left, SHIP_TURN_RATE);
      TurnShip(keys.right, -Abs(SHIP_TURN_RATE));
    }

    /** While its key is held, the ship turns by `delta` degrees. */
    method TurnShip(pressed: bool, delta: real)
      requires ship != null
      modifies ship
      ensures ship.View() == TurnIf(old(ship.View()), pressed, delta)
    {
      if pressed {
        ship.AddAngle(delta);
      }
    }

    /** With the fire key held and the cool-down over, the ship fires a bullet. */
    method FireBullet(fire: bool)
      requires ship != null
      modifies this
      ensures ship == old(ship)
      ensures View() == Shoot(old(View()), fire)
    {
      if fire {
        if firerate == 0 {
          var newbullet := new Bullet(ship);
          bullets := bullets + [newbullet.View()];
          firerate := BULLET_RATE;
        }
      }
    }

    /** Every asteroid moves one step. */
    method MoveAsteroids()
      modifies this
      ensures ship == old(ship)
      ensures View() == Drift(old(View()))
    {
      ghost var before := asteroids;
      for i := 0 to |asteroids|
        invariant ship == old(ship) && bullets == old(bullets)
        invariant lives == old(lives) && firerate == old(firerate) && score == old(score)
        invariant |asteroids| == |before|
        invariant forall k :: 0 <= k < i ==> asteroids[k] == RockMoved(before[k])
        invariant forall k :: i <= k < |asteroids| ==> asteroids[k] == before[k]
      {
        asteroids := asteroids[i := RockMoved(asteroids[i])];
      }
    }

    /** Every bullet moves one step. */
    method MoveBullets()
      modifies this
      ensures ship == old(ship)
      ensures View() == Advance(old(View()))
    {
      ghost var before := bullets;
      for i := 0 to |bullets|
        invariant ship == old(ship) && asteroids == old(asteroids)
        invariant lives == old(lives) && firerate == old(firerate) && score == old(score)
        invariant |bullets| == |before|
        invariant forall k :: 0 <= k < i ==> bullets[k] == ShotMoved(before[k])
        invariant forall k :: i <= k < |bullets| ==> bullets[k] == before[k]
      {
        bullets := bullets[i := ShotMoved(bullets[i])];
      }
    }

    /** Deletes every bullet that is out. */
    method RemoveOutBullets()
      modifies this
      ensures ship == old(ship)
      ensures View() == Expire(old(View()))
    {
      bullets := KeepInBounds(bullets);
    }

    /** Appends the pieces of a broken asteroid and scores it. */
    method BreakUp(point: Vec, collision: Vec, size: Size)
      modifies this
      ensures ship == old(ship) && bullets == old(bullets)
      ensures lives == old(lives) && firerate == old(firerate)
      ensures score == old(score) + Points(size)
      ensures asteroids == old(asteroids) + Fragments(point, collision, size)
    {
      if size == Small {
        score := score + 20;
        return;
      }
      var vector1 := Rotate(collision, TURN_120);
      var vector2 := Rotate(collision, TURN_240);
      var child := Small;
      if size == Medium {
        score := score + 10;
      } else {
        score := score + 5;
        child := Medium;
      }
      var a1 := Spawn(RockData(child, point, collision));
      var a2 := Spawn(RockData(child, point, vector1));
      var a3 := Spawn(RockData(child, point, vector2));
      assert [a1, a2, a3] == Fragments(point, collision, size);
      asteroids := asteroids + [a1, a2, a3];
    }

    /** Asteroid `j` breaks up at `point` along `collision` and is then removed from the list. */
    method Shatter(j: nat, point: Vec, collision: Vec)
      requires j < |asteroids|
      modifies this
      ensures ship == old(ship) && bullets == old(bullets)
      ensures lives == old(lives) && firerate == old(firerate)
      ensures score == old(score) + Points(old(asteroids)[j].size)
      ensures asteroids == Remove(old(asteroids) + Fragments(point, collision, old(asteroids)[j].size), j)
    {
      BreakUp(point, collision, asteroids[j].size);
      asteroids := Remove(asteroids, j);
    }

    /**
     * The first bullet that overlaps an asteroid breaks up the first
     * asteroid it overlaps; both are removed.
     */
    method CheckBulletCollision()
      requires AllMoving(bullets)
      modifies this
      ensures ship == old(ship)
      ensures View() == BulletCollision(old(View()))
    {
      var pair := FindPair();
      if pair.Some? {
        BulletHit(pair.value.0, pair.value.1);
      }
    }

    /** The outer scan of checkBulletCollision: the bullets in list order, each against every asteroid. */
    method FindPair() returns (r: Option<(nat, nat)>)
      ensures r == FirstPair(bullets, asteroids)
    {
      for i := 0 to |bullets|
        invariant forall m :: 0 <= m < i ==> FirstHit(bullets[m].pos, BULLET_RADIUS, asteroids).None?
      {
        var hit := FindHit(bullets[i].pos, BULLET_RADIUS);
        if hit.Some? {
          FirstPairIs(bullets, asteroids, i, hit.value);
          return Some((i, hit.value));
        }
      }
      return None;
    }

    /**
     * The inner scan of both collision checks: the asteroids in list order,
     * up to the first whose centre is closer to `p` than `reach` plus its
     * radius.
     */
    method FindHit(p: Vec, reach: real) returns (r: Option<nat>)
      ensures r == FirstHit(p, reach, asteroids)
    {
      for j := 0 to |asteroids|
        invariant forall m :: 0 <= m < j ==> !Hits(p, reach, asteroids[m])
      {
        var a := asteroids[j];
        var distance := Distance(p, a.pos);
        if distance < reach + RockRadius(a.size) {
          FirstHitIs(p, reach, asteroids, j);
          return Some(j);
        }
      }
      FirstHitNone(p, reach, asteroids);
      return None;
    }

    /** Bullet `i` hit asteroid `j`: the asteroid breaks up along the bullet's direction, and both go. */
    method BulletHit(i: nat, j: nat)
      requires i < |bullets| && j < |asteroids| && bullets[i].velocity != Zero
      modifies this
      ensures ship == old(ship)
      ensures View() == BulletHitAt(old(View()), i, j)
    {
      var b := bullets[i];
      var a := asteroids[j];
      var collision := Normal(b.velocity).value;
      Shatter(j, a.pos, collision);
      bullets := Remove(bullets, i);
    }

    /**
     * The ship hit asteroid `j`: the asteroid breaks up at the ship's
     * position along the ship's direction of travel, or its facing when at
     * rest, and is removed; the ship is destroyed and a life is lost.
     */
    method ShipHit(j: nat)
      requires ship != null && j < |asteroids|
      modifies this
      ensures ship == null
      ensures View() == ShipCrash(old(View()), j)
    {
      ghost var w := View();
      var shipPoint := Vec(ship.x, ship.y);
      var collision := ship.CrashVector();
      assert shipPoint == w.ship.value.pos && collision == CrashDirection(w.ship.value);
      Shatter(j, shipPoint, collision);
      ship := null;
      lives := lives - 1;
    }

    /**
     * The first asteroid the ship overlaps breaks up at the ship's position
     * and is removed; the ship is destroyed and a life is lost.
     */
    method CheckShipCollision()
      requires ship != null
      modifies this
      ensures ship == null || ship == old(ship)
      ensures View() == ShipCollision(old(View()))
    {
      var hit := FindHit(Vec(ship.x, ship.y), SHIP_RADIUS);
      if hit.Some? {
        ShipHit(hit.value);
      }
    }
  }

  /** The asteroid loop of Wave.__init__: one asteroid per level entry, in order. */
  method SpawnAll(data: seq<RockData>) returns (rocks: seq<Rock>)
    ensures |rocks| == |data|
    ensures forall k :: 0 <= k < |data| ==> rocks[k] == Spawn(data[k])
  {
    rocks := [];
    for i := 0 to |data|
      invariant |rocks| == i
      invariant forall k :: 0 <= k < i ==> rocks[k] == Spawn(data[k])
    {
      rocks := rocks + [Spawn(data[i])];
    }
  }

  /**
   * The expiry loop of Wave.update: walks the bullet list, deleting each
   * bullet that is out and stepping past each one that is not.
   */
  method KeepInBounds(shots: seq<Shot>) returns (kept: seq<Shot>)
    ensures kept == InBounds(shots)
  {
    ghost var k := 0;
    kept := shots;
    var i := 0;
    while i < |kept|
      invariant 0 <= i <= |kept| && 0 <= k <= |shots|
      invariant kept[..i] == InBounds(shots[..k])
      invariant kept[i..] == shots[k..]
      decreases |kept| - i
    {
      InBoundsStep(shots, k);
      assert kept[i] == shots[k];
      assert kept[i + 1..] == shots[k + 1..] by {
        assert kept[i..][1..] == kept[i + 1..];
        assert shots[k..][1..] == shots[k + 1..];
      }
      if ShotOut(kept[i]) {
        var front, rest := kept[..i], kept[i + 1..];
        kept := front + rest;
        assert kept[..i] == front && kept[i..] == rest;
      } else {
        assert kept[..i + 1] == kept[..i] + [shots[k]];
        i := i + 1;
      }
      k := k + 1;
    }
    assert shots[..k] == shots;
    assert kept[..i] == kept;
  }

  /** The filter over one more bullet keeps or drops that bullet. */
  lemma InBoundsStep(shots: seq<Shot>, k: nat)
    requires k < |shots|
    ensures InBounds(shots[..k + 1]) == InBounds(shots[..k]) + (if ShotOut(shots[k]) then [] else [shots[k]])
  {
    assert shots[..k + 1][..k] == shots[..k];
  }

  lemma FlightIs(w: WaveState, keys: Keys, v1: WaveState, v2: WaveState, v3: WaveState, v4: WaveState, v5: WaveState, v6: WaveState)
    requires w.ship.Some?
    requires v1 == CoolDown(w) && v2 == Steer(v1, keys) && v3 == Drift(v2)
    requires v4 == Shoot(v3, keys.fire) && v5 == Advance(v4) && v6 == Expire(v5)
    ensures v6 == Flight(w, keys)
  {
  }

  /** A frame of a wave with a ship is its flight followed by the two collision checks. */
  lemma FrameIs(w: WaveState, keys: Keys, f: WaveState, b: WaveState, c: WaveState)
    requires Inv(w) && w.ship.Some?
    requires f == Flight(w, keys) && AllMoving(f.shots)
    requires b == BulletCollision(f) && c == ShipCollision(b)
    ensures c == Frame(w, keys)
  {
  }

  /** Having checked every asteroid, none overlaps. */
  lemma FirstHitNone(p: Vec, reach: real, rocks: seq<Rock>)
    requires forall m :: 0 <= m < |rocks| ==> !Hits(p, reach, rocks[m])
    ensures FirstHit(p, reach, rocks).None?
  {
  }
}
