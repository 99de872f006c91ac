/** Player locomotion: folding the pressed keys into a direction, choosing
    one of four actions, and the effect of that action on the player's body. */
module Locomotion {
  import opened Geometry
  import opened Registry

  datatype Key = A | D | W | S | Space

  /** An integer direction; the source sums unit float vectors, whose
      components stay small integers, so this is exact. */
  datatype Direction = Direction(dx: int, dy: int)

  /** The movement keys and their unit vectors, in the order they are folded. */
  const DIRECTION_KEYS: seq<(Key, Direction)> :=
    [(A, Direction(-1, 0)), (D, Direction(1, 0)), (W, Direction(0, 1)), (S, Direction(0, -1))]

  /** Left fold of the pressed keys' vectors onto `sum`. */
  function FoldDirections(keys: seq<(Key, Direction)>, pressed: set<Key>, sum: Direction): Direction
    decreases |keys|
  {
    if keys == [] then sum
    else
      var (key, v) := keys[0];
      FoldDirections(keys[1..], pressed, if key in pressed then Direction(sum.dx + v.dx, sum.dy + v.dy) else sum)
  }

  function Indicator(b: bool): int { if b then 1 else 0 }

  /** True when the direction is not the zero vector (its squared length is positive). */
  predicate HasDirection(d: Direction)
  {
    d.dx * d.dx + d.dy * d.dy > 0
  }

  /** The walking direction of the pressed keys: D minus A across, W minus S
      up; opposite keys cancel, and there is no direction exactly when both
      pairs cancel. */
  function KeyDirection(pressed: set<Key>): (d: Direction)
    ensures d.dx == Indicator(D in pressed) - Indicator(A in pressed)
    ensures d.dy == Indicator(W in pressed) - Indicator(S in pressed)
    ensures !HasDirection(d) <==> (A in pressed <==> D in pressed) && (W in pressed <==> S in pressed)
  {
    FoldDirections(DIRECTION_KEYS, pressed, Direction(0, 0))
  }

  datatype Action = Jump | Idle | AirControl | Walk

  /** The priority rule: a grounded player pressing jump jumps, whatever the
      direction; otherwise without a direction nothing happens; otherwise an
      airborne player gets air control (jump is ignored in the air); and a
      grounded player walks. */
  function SelectAction(grounded: bool, jumpPressed: bool, hasDirection: bool): (a: Action)
    ensures a == Jump <==> grounded && jumpPressed
    ensures a == Idle <==> !(grounded && jumpPressed) && !hasDirection
    ensures a == AirControl <==> !grounded && hasDirection
    ensures a == Walk <==> grounded && !jumpPressed && hasDirection
  {
    if grounded && jumpPressed then Jump
    else if !hasDirection then Idle
    else if !grounded then AirControl
    else Walk
  }

  function AsVector(d: Direction): Vec2 { Vec2(d.dx as real, d.dy as real) }

  /** The tangent at the body's place on the planet, turned a quarter from
      the direction to the centre. */
  function Clockwise(diff: Vec2, ops: FloatOps): Vec2
  {
    ops.normalize(Vec2(diff.y, -diff.x))
  }

  /** +1 when the key direction is within a right angle of the clockwise
      tangent, -1 otherwise. */
  function DirectionFactor(d: Direction, diff: Vec2, ops: FloatOps): (f: real)
    ensures f == 1.0 || f == -1.0
  {
    if ops.angle(AsVector(d), Clockwise(diff, ops)) < FRAC_PI_2 then 1.0 else -1.0
  }

  /** The jump impulse: away from the centre, tilted along the tangent when
      a direction is held. */
  function JumpImpulse(diff: Vec2, pressed: set<Key>, ops: FloatOps): Vec2
  {
    var d := KeyDirection(pressed);
    var tilt := if HasDirection(d) then Scale(Clockwise(diff, ops), DirectionFactor(d, diff, ops)) else ZERO;
    Scale(ops.normalize(Add(diff, tilt)), -JUMP_IMPULSE)
  }

  /** The airborne impulse: along the tangent, and towards the centre. */
  function AirImpulse(diff: Vec2, pressed: set<Key>, ops: FloatOps): Vec2
  {
    var d := KeyDirection(pressed);
    Scale(Add(Scale(Scale(Clockwise(diff, ops), DirectionFactor(d, diff, ops)), 2.0), ops.normalize(diff)), AIR_IMPULSE)
  }

  /** Where a walking body is placed: the angle of the body around the
      centre advanced by WALK_SPEED for `dt` seconds, at distance
      PLANET_RADIUS + PLAYER_HALF_HEIGHT from the world origin. */
  function WalkTarget(diff: Vec2, pressed: set<Key>, dt: real, ops: FloatOps): Vec2
  {
    var angle := PI + ops.atan2(diff.y, diff.x) + dt * WALK_SPEED * DirectionFactor(KeyDirection(pressed), diff, ops);
    Scale(Vec2(ops.cos(angle), ops.sin(angle)), PLANET_RADIUS + PLAYER_HALF_HEIGHT)
  }

  /** One tick of locomotion for a body attracted to a planet at `center`.
      Only impulses and the position change, never the applied force; an
      idle body is untouched; only walking moves the body, and walking
      keeps its rotation and applies no impulse. */
  function Locomote(body: Body, center: Vec2, grounded: bool, pressed: set<Key>, dt: real, ops: FloatOps): (r: Body)
    ensures r.force == body.force
    ensures SelectAction(grounded, Space in pressed, HasDirection(KeyDirection(pressed))) == Idle ==> r == body
    ensures SelectAction(grounded, Space in pressed, HasDirection(KeyDirection(pressed))) != Walk ==>
              r.translation == body.translation && r.rotation == body.rotation
    ensures SelectAction(grounded, Space in pressed, HasDirection(KeyDirection(pressed))) == Walk ==>
              r.rotation == body.rotation && r.impulse == body.impulse
  {
    var diff := Sub(center, body.translation);
    match SelectAction(grounded, Space in pressed, HasDirection(KeyDirection(pressed)))
    case Jump => body.(impulse := Add(body.impulse, JumpImpulse(diff, pressed, ops)))
    case Idle => body
    case AirControl => body.(impulse := Add(body.impulse, AirImpulse(diff, pressed, ops)))
    case Walk => body.(translation := WalkTarget(diff, pressed, dt, ops))
  }

  /** A grounded jump with no movement key held is a purely radial launch:
      the impulse is -JUMP_IMPULSE times the normalised direction to the
      centre, and nothing else about the body changes. */
  lemma JumpWithoutDirectionIsRadial(body: Body, center: Vec2, pressed: set<Key>, dt: real, ops: FloatOps)
    requires Space in pressed && A !in pressed && D !in pressed && W !in pressed && S !in pressed
    ensures Locomote(body, center, true, pressed, dt, ops)
            == body.(impulse := Add(body.impulse, Scale(ops.normalize(Sub(center, body.translation)), -JUMP_IMPULSE)))
  {
  }

  /** Walking places the body on the circle of radius PLANET_RADIUS +
      PLAYER_HALF_HEIGHT around the world origin (when cosine and sine of
      the new angle lie on the unit circle) — the origin, not the planet's
      centre, so the snap is right only for a planet at the origin. */
  lemma WalkSnapsToOriginCircle(diff: Vec2, pressed: set<Key>, dt: real, ops: FloatOps)
    requires forall t :: ops.cos(t) * ops.cos(t) + ops.sin(t) * ops.sin(t) == 1.0
    ensures MagnitudeSquared(WalkTarget(diff, pressed, dt, ops))
            == (PLANET_RADIUS + PLAYER_HALF_HEIGHT) * (PLANET_RADIUS + PLAYER_HALF_HEIGHT)
  {
  }
}
