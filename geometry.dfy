/** Plane vectors over the reals, the game's tuning constants, and the
    floating-point operations the game takes from its maths library.

    Those operations (normalisation, angles, trigonometry) are not
    modelled: every member that needs one receives them as a `FloatOps`
    value, so what is proved holds whatever they compute. */
module Geometry {

  datatype Vec2 = Vec2(x: real, y: real)

  const ZERO: Vec2 := Vec2(0.0, 0.0)

  function Add(a: Vec2, b: Vec2): Vec2 { Vec2(a.x + b.x, a.y + b.y) }

  function Sub(a: Vec2, b: Vec2): Vec2 { Vec2(a.x - b.x, a.y - b.y) }

  function Scale(a: Vec2, k: real): Vec2 { Vec2(a.x * k, a.y * k) }

  function MagnitudeSquared(a: Vec2): real { a.x * a.x + a.y * a.y }

  /** Radius of every planet's solid ball. */
  const PLANET_RADIUS: real := 200.0
  /** Radius of the sensor ball around each planet; also the pull range. */
  const ATMOSPHERE_RADIUS: real := PLANET_RADIUS * 2.0
  /** Half the player's height (its collider is an 8 by 23 half-extent box). */
  const PLAYER_HALF_HEIGHT: real := 23.0
  /** Magnitude of the pull towards a planet, whatever the distance. */
  const GRAVITY: real := 200000.0
  /** Magnitude of the jump impulse. */
  const JUMP_IMPULSE: real := 30000.0
  /** Scale of the impulse used for control while airborne. */
  const AIR_IMPULSE: real := 1000.0
  /** Angular walking speed around a planet, in radians per second. */
  const WALK_SPEED: real := 1.2
  /** The exact values of the 32-bit floats nearest to pi and pi / 2. */
  const PI: real := 3.1415927410125732421875
  const FRAC_PI_2: real := 1.57079637050628662109375

  /** The floating-point operations the game relies on, left uninterpreted. */
  datatype FloatOps = FloatOps(
    normalize: Vec2 -> Vec2,
    angle: (Vec2, Vec2) -> real,
    atan2: (real, real) -> real,
    cos: real -> real,
    sin: real -> real)
}
