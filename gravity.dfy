/** Gravity: resolving the planet a body is attracted to, the pull towards
    it, and the upright rotation relative to it. */
module Gravity {
  import opened Geometry
  import opened Registry

  /** The centre of the planet a body is attracted to: its reference names
      an atmosphere entity, which has a body handle, which names a body in
      the body set. If any of the three steps fails there is no centre. */
  function PlanetCenter(attractedTo: Option<Entity>, atmosphereBodies: map<Entity, Handle>,
                        bodies: map<Handle, Body>): (center: Option<Vec2>)
    ensures center.Some? <==>
            attractedTo.Some? && attractedTo.value in atmosphereBodies && atmosphereBodies[attractedTo.value] in bodies
    ensures center.Some? ==> center.value == bodies[atmosphereBodies[attractedTo.value]].translation
  {
    match attractedTo
    case None => None
    case Some(atmosphere) =>
      if atmosphere !in atmosphereBodies then None
      else if atmosphereBodies[atmosphere] !in bodies then None
      else Some(bodies[atmosphereBodies[atmosphere]].translation)
  }

  /** The centre depends only on where the atmosphere bodies are: forces,
      impulses and rotations applied to bodies do not move it. */
  lemma CenterFollowsTranslations(attractedTo: Option<Entity>, atmosphereBodies: map<Entity, Handle>,
                                  bodies: map<Handle, Body>, bodies': map<Handle, Body>)
    requires bodies'.Keys == bodies.Keys
    requires forall h :: h in bodies && h in atmosphereBodies.Values ==> bodies'[h].translation == bodies[h].translation
    ensures PlanetCenter(attractedTo, atmosphereBodies, bodies') == PlanetCenter(attractedTo, atmosphereBodies, bodies)
  {
  }

  /** The force applied to a body at `position`: none without a planet or
      when the squared distance to its centre exceeds the squared
      atmosphere radius, and otherwise GRAVITY along the normalised
      direction to the centre. */
  function GravityForce(center: Option<Vec2>, position: Vec2, ops: FloatOps): (force: Option<Vec2>)
    ensures force.None? <==>
            center.None? || MagnitudeSquared(Sub(center.value, position)) > ATMOSPHERE_RADIUS * ATMOSPHERE_RADIUS
    ensures force.Some? ==> force.value == Scale(ops.normalize(Sub(center.value, position)), GRAVITY)
  {
    match center
    case None => None
    case Some(c) =>
      var diff := Sub(c, position);
      if MagnitudeSquared(diff) > ATMOSPHERE_RADIUS * ATMOSPHERE_RADIUS then None
      else Some(Scale(ops.normalize(diff), GRAVITY))
  }

  /** When normalisation yields a unit vector, the pull has magnitude
      GRAVITY at every distance within range: it is not inverse-square. */
  lemma PullIsConstant(center: Vec2, position: Vec2, ops: FloatOps)
    requires MagnitudeSquared(Sub(center, position)) <= ATMOSPHERE_RADIUS * ATMOSPHERE_RADIUS
    requires MagnitudeSquared(ops.normalize(Sub(center, position))) == 1.0
    ensures GravityForce(Some(center), position, ops).Some?
    ensures MagnitudeSquared(GravityForce(Some(center), position, ops).value) == GRAVITY * GRAVITY
  {
  }

  /** A body with the force applied, if any: only the force accumulator
      changes, and it grows by exactly that force. */
  function Pull(body: Body, force: Option<Vec2>): (r: Body)
    ensures r.translation == body.translation && r.rotation == body.rotation && r.impulse == body.impulse
    ensures force.None? ==> r.force == body.force
    ensures force.Some? ==> Sub(r.force, body.force) == force.value
  {
    match force
    case None => body
    case Some(f) => body.(force := Add(body.force, f))
  }

  /** The reference "up" direction rotations are measured from. */
  const UP: Vec2 := Vec2(0.0, 1.0)

  /** The rotation that stands a body upright on its planet: the unsigned
      angle between the direction to the centre and UP, negated when the
      body is not to the right of UP's x-coordinate. */
  function TargetAngle(diff: Vec2, translation: Vec2, ops: FloatOps): (angle: real)
    ensures UP.x < translation.x ==> angle == ops.angle(diff, UP)
    ensures translation.x <= UP.x ==> angle == -ops.angle(diff, UP)
  {
    ops.angle(diff, UP) * if UP.x < translation.x then 1.0 else -1.0
  }
}
