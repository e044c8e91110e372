/**
 * Plane vectors and the handful of transcendental operations the game uses.
 *
 * The vector and point classes of the game's graphics library are replaced
 * by the value type Vec. The vector length (a square root) and the pair
 * (cosine, sine) are floating-point library results that cannot be computed
 * over `real`, so they are abstract constants typed by the facts the model
 * relies on, and `PI` is any positive real. Lemmas that need the exact
 * square root take it as a precondition (ExactLength). The normalised
 * vector, distance, degree conversion and rotation are defined here from
 * those primitives the way the library computes them.
 */
module Geometry {
  import opened Wrappers
  import opened Consts

  datatype Vec = Vec(x: real, y: real)

  const Zero: Vec := Vec(0.0, 0.0)

  function Add(a: Vec, b: Vec): Vec {
    Vec(a.x + b.x, a.y + b.y)
  }

  /** `v * k` on the library's vectors. */
  function Scale(v: Vec, k: real): Vec {
    Vec(v.x * k, v.y * k)
  }

  function LengthSq(v: Vec): real {
    v.x * v.x + v.y * v.y
  }

  /** A vector length as far as the model needs one: non-negative, and zero exactly for the zero vector. */
  type LengthFn = f: Vec -> real | forall v :: 0.0 <= f(v) && (f(v) == 0.0 <==> v == Zero)
    witness (v: Vec) => if v == Zero then 0.0 else 1.0

  /** Vector.length(), the square root of LengthSq. */
  const Length: LengthFn

  /** Length is the true square root of the squared length at `v`. */
  predicate ExactLength(v: Vec) {
    Length(v) * Length(v) == LengthSq(v)
  }

  /**
   * Vector.normal(): the vector divided by its length. The library raises
   * on the zero vector, which is None here.
   */
  function Normal(v: Vec): Option<Vec> {
    if Length(v) == 0.0 then None else Some(Scale(v, 1.0 / Length(v)))
  }

  /** Point2.distance(): the length of the difference of the two points. */
  function Distance(p: Vec, q: Vec): real {
    Length(Vec(p.x - q.x, p.y - q.y))
  }

  /** The pair (cos t, sin t) for an angle t in radians: a point of the unit circle. */
  type UnitCircle = f: real -> Vec | forall t :: LengthSq(f(t)) == 1.0
    witness (t: real) => Vec(1.0, 0.0)

  /** (math.cos(t), math.sin(t)). */
  const Trig: UnitCircle

  /** math.pi. */
  const PI: PosReal

  /** degToRad in models.py. */
  function DegToRad(deg: real): real {
    PI * deg / 180.0
  }

  /** The unit vector (cos, sin) of an angle given in degrees. */
  function Heading(deg: real): Vec {
    Trig(DegToRad(deg))
  }

  /**
   * `v` multiplied by the rotation matrix whose first column is `c`: the
   * rotation by the angle whose cosine is c.x and whose sine is c.y.
   */
  function Rotate(v: Vec, c: Vec): Vec {
    Vec(v.x * c.x - v.y * c.y, v.x * c.y + v.y * c.x)
  }

  /** Normalisation fails exactly on the zero vector. */
  lemma NormalDefined(v: Vec)
    ensures Normal(v).Some? <==> v != Zero
  {
  }

  /** Every heading is a unit vector, hence never the zero vector. */
  lemma HeadingNonZero(deg: real)
    ensures LengthSq(Heading(deg)) == 1.0
    ensures Heading(deg) != Zero
  {
  }

  /** Scaling a non-zero vector by a non-zero factor gives a non-zero vector. */
  lemma ScaleNonZero(v: Vec, k: real)
    requires v != Zero && k != 0.0
    ensures Scale(v, k) != Zero
  {
    if v.x != 0.0 {
      ProductNonZero(v.x, k);
    } else {
      ProductNonZero(v.y, k);
    }
  }

  lemma ProductNonZero(a: real, k: real)
    requires a != 0.0 && k != 0.0
    ensures a * k != 0.0
  {
  }

  /**
   * Where normal() is exact, the normal of a non-zero vector has length 1
   * and points the same way as the vector.
   */
  lemma NormalIsUnit(v: Vec)
    requires v != Zero
    requires ExactLength(v)
    ensures Normal(v).Some?
    ensures LengthSq(Normal(v).value) == 1.0
    ensures exists k :: 0.0 < k && Normal(v).value == Scale(v, k)
  {
    NormalDefined(v);
    var len := Length(v);
    var k := 1.0 / len;
    assert Normal(v).value == Scale(v, k);
    calc {
      LengthSq(Scale(v, k));
      (v.x * k) * (v.x * k) + (v.y * k) * (v.y * k);
      LengthSq(v) * (k * k);
      (len * len) * (k * k);
      (len * k) * (len * k);
      1.0;
    }
  }

  /** Scaling multiplies the squared length by the square of the factor. */
  lemma ScaleLengthSq(v: Vec, k: real)
    ensures LengthSq(Scale(v, k)) == k * k * LengthSq(v)
  {
    calc {
      LengthSq(Scale(v, k));
      (v.x * k) * (v.x * k) + (v.y * k) * (v.y * k);
      k * k * (v.x * v.x) + k * k * (v.y * v.y);
    }
  }

  lemma PositiveProduct(a: real, b: real)
    requires 0.0 < a && 0.0 < b
    ensures 0.0 < a * b
  {
  }

  /**
   * For a non-negative reach and an exact length, "distance below reach" is
   * the squared-distance test dx² + dy² < reach².
   */
  lemma DistanceBelow(p: Vec, q: Vec, reach: real)
    requires 0.0 <= reach
    requires ExactLength(Vec(p.x - q.x, p.y - q.y))
    ensures Distance(p, q) < reach <==> LengthSq(Vec(p.x - q.x, p.y - q.y)) < reach * reach
  {
    SquareMonotone(Distance(p, q), reach);
  }

  /** For non-negative reals, comparing two numbers is comparing their squares. */
  lemma SquareMonotone(s: real, r: real)
    requires 0.0 <= s && 0.0 <= r
    ensures s < r <==> s * s < r * r
  {
    if s < r {
      calc {
        s * s;
      <= s * r;
      <  r * r;
      }
    } else {
      calc {
        r * r;
      <= r * s;
      <= s * s;
      }
    }
  }
}
