/**
 * The three game objects of planetoids/models.py as classes whose methods
 * update their fields in place. Each class has a View() of its state as a
 * Motion value, and each method is proved to move the object exactly as the
 * corresponding Motion rule says.
 */
module Models {
  import opened Consts
  import opened Geometry
  import opened Motion

  class Bullet {
    var x: real
    var y: real
    /** Set once when the bullet is fired and never changed. */
    const velocity: Vec

    function View(): Shot
      reads this
    {
      Shot(Vec(x, y), velocity)
    }

    /** A bullet fired by `ship`. */
    constructor (ship: Ship)
      ensures View() == Fire(ship.View())
    {
      var tip := Add(Scale(ship.facing, SHIP_RADIUS), Vec(ship.x, ship.y));
      x := tip.x;
      y := tip.y;
      velocity := Scale(ship.facing, BULLET_SPEED);
    }

    /** Whether the bullet has gone too far (the rule is Motion.ShotOut). */
    predicate IsOut()
      reads this
    {
      ShotOut(View())
    }

    method Move()
      modifies this
      ensures View() == ShotMoved(old(View()))
    {
      x := velocity.x + x;
      y := velocity.y + y;
    }
  }

  class Ship {
    var x: real
    var y: real
    /** Heading in degrees. */
    var angle: real
    var facing: Vec
    var velocity: Vec

    function View(): ShipState
      reads this
    {
      ShipState(Vec(x, y), angle, facing, velocity)
    }

    /** The facing vector is the unit vector of the current angle. */
    predicate Valid()
      reads this
    {
      Facing(View())
    }

    constructor (pose: ShipPose)
      ensures Valid()
      ensures View() == ShipSpawn(pose)
    {
      x := pose.position.x;
      y := pose.position.y;
      angle := pose.angle;
      velocity := Zero;
      var rad := DegToRad(pose.angle);
      facing := Trig(rad);
    }

    method AddAngle(delta: real)
      modifies this
      ensures Valid()
      ensures View() == Turned(old(View()), delta)
    {
      angle := angle + delta;
      var rad := DegToRad(angle);
      facing := Trig(rad);
    }

    /**
     * The direction a crash sends the pieces of the asteroid: the direction
     * of travel, or the facing when the ship is at rest.
     */
    method CrashVector() returns (c: Vec)
      ensures velocity == Zero ==> c == facing
      ensures velocity != Zero ==> Normal(velocity).Some? && c == Normal(velocity).value
    {
      if velocity.x == 0.0 && velocity.y == 0.0 {
        c := facing;
      } else {
        c := Normal(velocity).value;
      }
    }

    method Move(pressed: bool)
      modifies this
      ensures View() == ShipMoved(old(View()), pressed)
      ensures !pressed ==> velocity == old(velocity)
      ensures angle == old(angle) && facing == old(facing)
      ensures -(DEAD_ZONE as real) <= x <= GAME_WIDTH + DEAD_ZONE
      ensures -(DEAD_ZONE as real) <= y <= GAME_HEIGHT + DEAD_ZONE
    {
      if pressed {
        if Length(velocity) > SHIP_MAX_SPEED {
          velocity := Scale(Normal(velocity).value, SHIP_MAX_SPEED);
        } else {
          var impulse := Scale(facing, SHIP_IMPULSE);
          velocity := Add(velocity, impulse);
        }
      }
      x := velocity.x + x;
      y := velocity.y + y;
      if x < -Abs(DEAD_ZONE) {
        x := GAME_WIDTH + DEAD_ZONE;
      } else if x > GAME_WIDTH + DEAD_ZONE {
        x := -Abs(DEAD_ZONE);
      }
      if y < -Abs(DEAD_ZONE) {
        y := GAME_HEIGHT + DEAD_ZONE;
      } else if y > GAME_HEIGHT + DEAD_ZONE {
        y := -Abs(DEAD_ZONE);
      }
    }
  }

  class Asteroid {
    var x: real
    var y: real
    const size: Size
    /** Diameter of the asteroid's image. */
    const width: real
    const velocity: Vec

    function View(): Rock
      reads this
    {
      Rock(size, Vec(x, y), velocity)
    }

    function Radius(): real {
      width / 2.0
    }

    /**
     * The image is sized by the asteroid's size, so the radius the collision
     * checks use (WaveSpec.Hits adds RockRadius of the size) is the object's.
     */
    predicate Valid() {
      Radius() == RockRadius(size)
    }

    constructor (data: RockData)
      ensures Valid()
      ensures View() == Spawn(data)
    {
      x := data.position.x;
      y := data.position.y;
      size := data.size;
      var temp := data.direction;
      match data.size
      case Small =>
        width := SMALL_RADIUS * 2.0;
        velocity := if Normal(temp).Some? then Scale(Normal(temp).value, SMALL_SPEED) else Scale(temp, 0.0);
      case Medium =>
        width := MEDIUM_RADIUS * 2.0;
        velocity := if Normal(temp).Some? then Scale(Normal(temp).value, MEDIUM_SPEED) else Scale(temp, 0.0);
      case Large =>
        width := LARGE_RADIUS * 2.0;
        velocity := if Normal(temp).Some? then Scale(Normal(temp).value, LARGE_SPEED) else Scale(temp, 0.0);
    }

    method Move()
      modifies this
      ensures View() == RockMoved(old(View()))
    {
      x := velocity.x + x;
      y := velocity.y + y;
      var temp := DEAD_ZONE as real;
      if size == Large {
        temp := temp + LARGE_EXTRA_MARGIN;
      }
      if x < -Abs(temp) {
        x := GAME_WIDTH + temp;
      } else if x > GAME_WIDTH + temp {
        x := -Abs(temp);
      }
      if y < -Abs(temp) {
        y := GAME_HEIGHT + temp;
      } else if y > GAME_HEIGHT + temp {
        y := -Abs(temp);
      }
    }
  }
}
