/** The few engine value types and services the modelled scripts use.
    Floats are modelled as `real`; nothing here says anything about rounding. */
module Engine {

  datatype Option<+T> = None | Some(value: T)

  /** A 2D vector (velocities of 2D rigid bodies, bounds). */
  datatype Vec2 = Vec2(x: real, y: real)

  /** A 3D vector (transform positions and scales). */
  datatype Vec3 = Vec3(x: real, y: real, z: real) {
    function Plus(other: Vec3): Vec3 {
      Vec3(x + other.x, y + other.y, z + other.z)
    }
    function Times(k: real): Vec3 {
      Vec3(x * k, y * k, z * k)
    }
  }

  const Zero3 := Vec3(0.0, 0.0, 0.0)

  /** The implicit conversion of a 2D vector into a 3D one (z becomes 0). */
  function Lift(v: Vec2): (r: Vec3)
    ensures r.x == v.x && r.y == v.y && r.z == 0.0
  {
    Vec3(v.x, v.y, 0.0)
  }

  /** Mathf.Clamp: below min gives min, otherwise above max gives max. When
      min > max, a value below min still gives min. */
  function Clamp(value: real, min: real, max: real): (r: real)
    ensures value < min ==> r == min
    ensures !(value < min) && value > max ==> r == max
    ensures min <= value <= max ==> r == value
    ensures min <= max ==> min <= r <= max
  {
    if value < min then min
    else if value > max then max
    else value
  }

  /** Unity's Lerp clamps the interpolation parameter to [0, 1]. */
  function Clamp01(t: real): (r: real)
    ensures t < 0.0 ==> r == 0.0
    ensures t > 1.0 ==> r == 1.0
    ensures 0.0 <= t <= 1.0 ==> r == t
    ensures 0.0 <= r <= 1.0
  {
    Clamp(t, 0.0, 1.0)
  }

  /** A product kept as one term, so that proofs about interpolation stay
      linear. */
  function Scaled(d: real, c: real): real
  {
    d * c
  }

  /** One coordinate of Vector3.Lerp: a parameter at or below 0 gives the
      start, one at or above 1 the end. */
  function LerpReal(a: real, b: real, t: real): (r: real)
    ensures t <= 0.0 ==> r == a
    ensures t >= 1.0 ==> r == b
  {
    a + Scaled(b - a, Clamp01(t))
  }

  /** Vector3.Lerp(a, b, t), coordinate by coordinate: it stays at a for
      t <= 0 and reaches b for t >= 1. */
  function Lerp(a: Vec3, b: Vec3, t: real): (r: Vec3)
    ensures t <= 0.0 ==> r == a
    ensures t >= 1.0 ==> r == b
  {
    Vec3(LerpReal(a.x, b.x, t), LerpReal(a.y, b.y, t), LerpReal(a.z, b.z, t))
  }

  /** The interpolated coordinate lies between its two endpoints, and is
      their common value when they coincide. */
  lemma LerpRealBetween(a: real, b: real, t: real)
    ensures a <= b ==> a <= LerpReal(a, b, t) <= b
    ensures b <= a ==> b <= LerpReal(a, b, t) <= a
    ensures a == b ==> LerpReal(a, b, t) == a
  {
    ScaleBetween(b - a, Clamp01(t));
  }

  /** Scaling by a factor in [0, 1] lands between 0 and the scaled value. */
  lemma ScaleBetween(d: real, c: real)
    requires 0.0 <= c <= 1.0
    ensures 0.0 <= d ==> 0.0 <= Scaled(d, c) <= d
    ensures d <= 0.0 ==> d <= Scaled(d, c) <= 0.0
  {
    assert d - d * c == d * (1.0 - c);
    if 0.0 <= d {
      assert 0.0 <= d * (1.0 - c);
    } else {
      assert d * (1.0 - c) <= 0.0;
    }
  }

  /** The velocity of a Rigidbody2D. The engine changes it between the ticks
      of the scripts (gravity, collisions, pending impulses). */
  class Body {
    var velocity: Vec2

    constructor (velocity: Vec2)
      ensures this.velocity == velocity
    {
      this.velocity := velocity;
    }
  }

  /** The position of a Transform that the host moves (a player to follow). */
  class Transform {
    var position: Vec3

    constructor (position: Vec3)
      ensures this.position == position
    {
      this.position := position;
    }
  }
}
