# spaceism: planet gravity bookkeeping in Dafny

This project models the game logic of a small 2D arcade prototype, `src/main.rs`. In the game, a
player walks on circular planets, is pulled towards the planet whose atmosphere it is in, stands
upright relative to that planet, and shoots bullets. The engine owns the bodies, colliders, events
and rendering. The game code is a set of per-tick systems that read and update them.

The model covers the discrete part of those systems:

- **Physics events** (`physics_events`). The proximity queue is drained first, then the contact
  queue. Entering an atmosphere sets a body's *attracted-to* reference. Leaving clears it only if it
  still names that atmosphere, so the last enter wins. Every bullet that takes part in a contact is
  queued for despawning. A contact with a planet sets the `is_grounded` flag of the players that
  take part. `World` is a class whose fields hold the engine's registries and queues.
  `DrainProximityQueue` and `DrainContactQueue` are the popping loops. The participant loops are
  `HandleProximity`, `DespawnBullets` and `SetGrounded`, and `HandleContact` and `PhysicsEvents`
  call them. Each is proved equal to a fold (`DrainProximity`, `DrainContacts`, `DespawnCommands`)
  or to the one-event effect it folds. The lemmas about those folds state what the game promises.
  The per-entity loop shared by `gravitate`, `graviturn` and `move_player` is `UpdateAttracted`.
- **Gravity gating** (`get_planet_center`, `gravitate`, `graviturn`). The planet centre is found by
  resolving the reference through the atmosphere query and the body set. `None` at any step means no
  centre. The pull is skipped without a centre, or when the squared distance exceeds
  `ATMOSPHERE_RADIUS²`. `graviturn` replaces only the rotation.
- **Locomotion** (`move_player`). The pressed A/D/W/S keys are folded into an integer direction, in
  which opposite keys cancel. A priority rule then picks jump, idle, air control or walk. The effect
  of each choice on the body is stated as what it changes and what it keeps.

Floating-point maths is not modelled. `normalize`, `angle`, `atan2`, `cos` and `sin` are fields of a
`FloatOps` value that every member needing them receives, so the results hold whatever those
functions compute. Vectors have `real` coordinates. The direction key fold is exact over `int`,
because its components are always -1, 0 or 1. A body's rotation is a real angle. `apply_force` and
`apply_impulse` add to a force accumulator and an impulse accumulator on the body.

`World.Valid()` states three facts the game relies on:
- the body handle of every Attractable entity names a body in the body set. The code `unwrap`s
  this lookup for the queried entities (lines 139, 163, 192). An atmosphere's handle is not
  covered: when it names no body, `get_planet_center` returns no centre (line 124), and so does the
  model;
- no two entities share a body;
- atmosphere sensors are never Attractable.

Together these make the order in which a query visits entities irrelevant. The engine iterates
queries in an unspecified order, and the loop picks each entity nondeterministically.

Three behaviours of the code are easy to misread; the model states them as the code has them:
- the air-control impulse adds the normalised direction *towards* the planet centre (line 236);
- bullets are despawned on contact stop as well as on contact start (lines 352-367), and a bullet
  taking part in several contacts within one tick is queued for despawn once per contact
  (`ContactEvents.DespawnCount`, `ContactEvents.BulletQueuedTwice`);
- the walking step places the body on the circle of radius `PLANET_RADIUS + 23` around the world
  *origin*, not around the planet's centre (lines 240-248). The source's own TODO at line 82
  acknowledges that movement only works for the planet at the origin.
  `Locomotion.WalkSnapsToOriginCircle` states this behaviour.

## Model

| member | source | states |
|---|---|---|
| `Registry.Resolve` | src/main.rs:317-321 | The participants of an event are exactly the entities its handles map to in the lookup table; a handle that does not resolve is dropped, and there are never more participants than handles. |
| `Registry.FindFirst` | src/main.rs:323-327 | Finds the first participant that is an atmosphere; returns None exactly when no participant is one. |
| `ProximityEvents.ProximityUpdate` | src/main.rs:336-346 | Intersecting sets the reference to the atmosphere; WithinMargin keeps it; Disjoint clears a reference that names that atmosphere and leaves any other reference untouched. |
| `ProximityEvents.ProximityEffect` | src/main.rs:317-347 | One proximity event keeps the set of Attractable entities unchanged, and every entity that is not a participant keeps its reference, set or not. |
| `ProximityEvents.DrainProximity` | src/main.rs:316-349 | Draining the whole proximity queue keeps the set of Attractable entities unchanged. |
| `ProximityEvents.UpdateIdempotent` | src/main.rs:328-346 | Applying an event's update twice equals applying it once, so a participant listed twice is updated as if once. |
| `ProximityEvents.PairFindsAtmosphere` | src/main.rs:317-327 | When an event's two handles resolve to a non-atmosphere body and an atmosphere, that atmosphere is the one found. |
| `ProximityEvents.EnterAttracts` | src/main.rs:323-338 | An Intersecting event between an Attractable body and an atmosphere makes the body attracted to that atmosphere. |
| `ProximityEvents.ExitReleasesOnlyItsOwn` | src/main.rs:341-344 | A Disjoint event between a body and an atmosphere clears the reference if it names that atmosphere, and otherwise leaves it unchanged. |
| `ProximityEvents.InertEventChangesNothing` | src/main.rs:323-340 | A WithinMargin event, or an event with no resolvable atmosphere participant, leaves every reference unchanged. |
| `ProximityEvents.DrainInert` | src/main.rs:316-349 | A queue made only of such inert events leaves every reference unchanged. |
| `ProximityEvents.DrainAppend` | src/main.rs:316 | Draining a queue in two parts gives the same result as draining it in one go. |
| `ProximityEvents.RetainsKeeps` | src/main.rs:336-346 | A body attracted to A stays attracted to A after an event that: does not involve the body; is inert; or is an exit from an atmosphere other than A. |
| `ProximityEvents.LastEnterWins` | src/main.rs:316-349 | If a body entered atmosphere A and every later event retains it, the body is attracted to A when the queue is drained. |
| `ProximityEvents.StaleExitIgnored` | src/main.rs:341-344 | The sequence enter(A), enter(B), exit(A) leaves the body attracted to B. |
| `ProximityEvents.DrainRefersToAtmospheres` | src/main.rs:323-338 | If every reference names an atmosphere or nothing before a drain, the same holds after it. |
| `ProximityEvents.DrainUninvolvedKeeps` | src/main.rs:316-349 | An Attractable entity that takes part in no event of the queue keeps its reference, set or not. |
| `ProximityEvents.DrainIsPerBody` | src/main.rs:316-349 | Draining updates each Attractable body independently of the others. Its final reference is its own start value traced through only the events it takes part in that find an atmosphere. |
| `ProximityEvents.EnterThenExitReleases` | src/main.rs:337-343 | The sequence enter(A), exit(A) leaves the body with no reference. |
| `ContactEvents.HitBullets` | src/main.rs:362-367 | One contact event queues a despawn for exactly the participants that are bullets. |
| `ContactEvents.DespawnCommands` | src/main.rs:351-367 | Draining the contact queue only ever queues despawns for bullets. |
| `ContactEvents.DespawnedIffHit` | src/main.rs:351-367 | An entity is queued for despawn iff it is a bullet that takes part in some contact event, started or stopped. |
| `ContactEvents.HitBulletsCount` | src/main.rs:362-367 | One event queues a bullet once for each of its handles that resolves to it, and never queues a non-bullet. |
| `ContactEvents.DespawnCount` | src/main.rs:351-367 | Over the whole drain, a bullet is queued exactly as many times as it is named among the events' participants. The despawns are not deduplicated, because the set of bullets does not change until the queued commands are applied. |
| `ContactEvents.BulletQueuedTwice` | src/main.rs:351-367 | A bullet that takes part in two contact events in one tick, behind either handle in each, is queued for despawn at least twice. |
| `ContactEvents.GroundedEffect` | src/main.rs:369-378 | One contact event keeps the set of players unchanged. |
| `ContactEvents.DrainContacts` | src/main.rs:351-379 | Draining the contact queue keeps the set of players unchanged. |
| `ContactEvents.GroundedTracksPlanetContact` | src/main.rs:351-379 | After the drain, a player's grounded flag is true iff its latest contact with a planet was a start. A player with no planet contact in the queue keeps its flag. |
| `ContactEvents.NoPlanetKeepsGrounded` | src/main.rs:369-372 | Contacts with no planet participant (bullet against bullet, say) change no player's grounded flag. |
| `Gravity.PlanetCenter` | src/main.rs:112-126 | A centre exists iff the reference is set, names an atmosphere with a body handle, and that handle is in the body set; the centre is that body's translation. |
| `Gravity.CenterFollowsTranslations` | src/main.rs:124-125 | The centre depends only on the atmosphere bodies' translations, so forces, impulses and rotations applied to bodies do not move it. |
| `Gravity.GravityForce` | src/main.rs:139-148 | There is no force when there is no centre, or when the squared distance exceeds `ATMOSPHERE_RADIUS²`. Otherwise the force is `GRAVITY` times the normalised direction to the centre. |
| `Gravity.Pull` | src/main.rs:148 | Applying the force changes only the force accumulator, and grows it by exactly the force; without a force the body is unchanged. |
| `Gravity.PullIsConstant` | src/main.rs:141-147 | Within range, the pull has magnitude `GRAVITY` at every distance, whenever normalisation returns a unit vector; it is not inverse-square. |
| `Gravity.TargetAngle` | src/main.rs:168-174 | The new rotation is the unsigned angle between the direction to the centre and (0, 1). It is negated unless the body's x is greater than 0. |
| `Locomotion.KeyDirection` | src/main.rs:195-211 | The direction is D minus A horizontally and W minus S vertically. There is no direction iff both pairs of opposite keys cancel. |
| `Locomotion.SelectAction` | src/main.rs:217-238 | Grounded with Space pressed gives jump, whatever the direction. Otherwise, no direction gives idle. Otherwise, airborne gives air control, and Space is ignored in the air. Otherwise, the player walks. |
| `Locomotion.DirectionFactor` | src/main.rs:213-215 | The direction factor is always +1 or -1. |
| `Locomotion.Locomote` | src/main.rs:217-248 | Locomotion never changes the applied force. Idle leaves the body untouched. Jump and air control keep the position and rotation. Walking keeps the rotation and applies no impulse. |
| `Locomotion.JumpWithoutDirectionIsRadial` | src/main.rs:217-228 | A grounded jump with no movement key held adds exactly `-JUMP_IMPULSE` times the normalised direction to the centre, and changes nothing else. |
| `Locomotion.WalkSnapsToOriginCircle` | src/main.rs:240-248 | Walking places the body at distance `PLANET_RADIUS + 23` from the world origin, when cosine and sine lie on the unit circle. |
| `Game.World.UpdateAttracted` | src/main.rs:187-192 | The per-entity loop shared by the three per-tick systems. Each queried entity gets `step` applied to its own body when its planet centre resolves. Its body is left unchanged when the centre does not resolve. Bodies of other entities are unchanged. |
| `Game.World.Gravitate` | src/main.rs:128-150 | Each Attractable body receives exactly the force that `GravityForce` gives for its own planet centre. Every other body is unchanged, and `Valid()` is preserved. |
| `Game.World.Graviturn` | src/main.rs:152-178 | No body's translation changes. Each attracted player gets the target rotation, players with no resolvable planet are untouched, and other bodies are unchanged. |
| `Game.World.MovePlayer` | src/main.rs:180-250 | Each attracted player's body becomes `Locomote` of its old body, given its grounded flag and the pressed keys. Players with no resolvable planet and all other bodies are unchanged. |
| `Game.World.HandleProximity` | src/main.rs:317-348 | The loop over one event's participants produces exactly `ProximityEffect` of the old references. |
| `Game.World.DespawnBullets` | src/main.rs:362-367 | The loop appends exactly `HitBullets` of the participants to the despawn queue. |
| `Game.World.SetGrounded` | src/main.rs:373-377 | Every participating player's flag becomes `is_started`; non-participants keep theirs. |
| `Game.World.HandleContact` | src/main.rs:352-378 | One contact event queues the despawns of the bullets that take part. It sets the grounded flags as `GroundedEffect` says. |
| `Game.World.DrainProximityQueue` | src/main.rs:316-349 | Pops events until the proximity queue is empty. The references end up as `DrainProximity` of the old queue. |
| `Game.World.DrainContactQueue` | src/main.rs:351-379 | Pops events until the contact queue is empty. The grounded flags end up as `DrainContacts`, and the despawn queue gains `DespawnCommands`. |
| `Game.World.PhysicsEvents` | src/main.rs:304-380 | Drains proximity, then contact events. Both queues end empty, the three folds describe the new state, and `Valid()` is preserved. |

## Left out

- `aim`, `shoot`, `setup`, `spawn_planets` and `main` (src/main.rs:54-110, 252-302, 382-419) are left out. They cover the cursor, the window and camera, spawning entities with meshes and colliders, and the engine's stage wiring.
- Floating-point arithmetic is left out. `normalize`, `angle`, `atan2`, `cos` and `sin` are uninterpreted. `PI` and `FRAC_PI_2` are the exact values of the 32-bit floats nearest to them, written as reals. No rounding is modelled.
- Engine internals are not part of this model: contact and proximity detection, physics integration, and how `apply_impulse` turns an impulse into velocity (the model only accumulates impulses).
- Applying the queued despawn commands after the tick is engine code. The model records the queue and nothing else. In particular it does not promise that a bullet is destroyed exactly once: the queue can name a bullet several times in one tick (`ContactEvents.DespawnCount`), and what the engine does with the repeated command is not part of this model.
- Proximity events (src/main.rs:317-321) and contact events (src/main.rs:352-360) both carry collider handles, which the code looks up in the body-handle-to-entity table. The model treats that table as one abstract lookup from the handles the events carry, for both queues.
- `Bullet.is_exploding` and `Cursor` are left out: nothing in the core reads them.
- `Gravity.PullIsConstant`: the magnitude is proved only under the hypothesis that normalisation returns a unit vector, because `normalize` is uninterpreted.
- `Locomotion.WalkSnapsToOriginCircle`: the radius is proved only under the hypothesis that cosine and sine lie on the unit circle, because both are uninterpreted.
