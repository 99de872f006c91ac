/** The game world as the per-tick systems see it: the engine's body set,
    the components the game attaches to entities, the handle-to-entity
    table, the two physics event queues, and the queued despawn commands. */
module Game {
  import opened Geometry
  import opened Registry
  import opened Gravity
  import opened Locomotion
  import opened ProximityEvents
  import opened ContactEvents

  /** What a per-entity system does to one body: nothing when the entity
      has no planet centre, otherwise `step`. */
  function StepIfAttracted(step: (Entity, Body, Vec2) -> Body, e: Entity, body: Body, center: Option<Vec2>): Body
  {
    match center
    case None => body
    case Some(c) => step(e, body, c)
  }

  class World {
    /** The rigid body set, by handle. */
    var bodies: map<Handle, Body>
    /** The rigid body handle component of each entity that has one. */
    var bodyOf: map<Entity, Handle>
    /** The Attractable component: the atmosphere an entity is attracted to. */
    var attractable: map<Entity, Option<Entity>>
    /** The Player component: whether the player is grounded. */
    var players: map<Entity, bool>
    /** Entities tagged Planet, Atmosphere and Bullet. */
    var planets: set<Entity>
    var atmospheres: set<Entity>
    var bullets: set<Entity>
    /** The table from body handles back to entities. */
    var handleToEntity: map<Handle, Entity>
    /** The physics engine's pending events, oldest first. */
    var proximityQueue: seq<ProximityEvent>
    var contactQueue: seq<ContactEvent>
    /** Entities queued for despawning, applied by the engine after the tick. */
    var despawns: seq<Entity>

    /** The body handle of every Attractable entity names a body, no two
        entities share a body, and atmosphere sensors are never Attractable.
        An atmosphere's handle may name no body: the planet centre is then
        missing. */
    ghost predicate Valid()
      reads this
    {
      HandlesResolve() && HandlesUnique() && AtmospheresNotAttractable()
    }

    ghost predicate HandlesResolve()
      reads this`bodyOf, this`bodies, this`attractable
    {
      forall e :: e in bodyOf && e in attractable ==> bodyOf[e] in bodies
    }

    ghost predicate HandlesUnique()
      reads this`bodyOf
    {
      forall e1, e2 :: e1 in bodyOf && e2 in bodyOf && bodyOf[e1] == bodyOf[e2] ==> e1 == e2
    }

    ghost predicate AtmospheresNotAttractable()
      reads this`atmospheres, this`attractable
    {
      forall e :: e in atmospheres ==> e !in attractable
    }

    /** The atmosphere query: each atmosphere entity with a body, and that body. */
    function AtmosphereBodies(): map<Entity, Handle>
      reads this`atmospheres, this`bodyOf
    {
      map e | e in atmospheres && e in bodyOf :: bodyOf[e]
    }

    /** The entities gravitate visits: Attractable, with a body. */
    function AttractedBodies(): set<Entity>
      reads this`attractable, this`bodyOf
    {
      set e | e in attractable && e in bodyOf
    }

    /** The entities graviturn and move_player visit: players that are
        Attractable, with a body. */
    function PlayerBodies(): set<Entity>
      reads this`players, this`attractable, this`bodyOf
    {
      set e | e in players && e in attractable && e in bodyOf
    }

    /** The bodies of some entities. */
    function HandlesOf(es: set<Entity>): set<Handle>
      reads this`bodyOf
    {
      set e | e in es && e in bodyOf :: bodyOf[e]
    }

    /** The centre of the planet `e` is attracted to, in the body set `bs`. */
    function CenterOf(e: Entity, bs: map<Handle, Body>): Option<Vec2>
      reads this`attractable, this`atmospheres, this`bodyOf
      requires e in attractable
    {
      PlanetCenter(attractable[e], AtmosphereBodies(), bs)
    }

    /** No atmosphere body is among the bodies of Attractable entities. */
    lemma AtmospheresNotVisited(es: set<Entity>)
      requires HandlesUnique() && AtmospheresNotAttractable() && es <= AttractedBodies()
      ensures forall h :: h in AtmosphereBodies().Values ==> h !in HandlesOf(es)
    {
    }

    /** The loop shared by gravitate, graviturn and move_player: visit each
        entity of `query` once, resolve the centre of its planet, skip it if
        there is none, and otherwise replace its body by `step`. Bodies of
        other entities do not change. */
    method UpdateAttracted(query: set<Entity>, step: (Entity, Body, Vec2) -> Body)
      requires Valid() && query <= AttractedBodies()
      modifies this`bodies
      ensures bodies.Keys == old(bodies).Keys
      ensures forall e :: e in query ==>
                bodies[bodyOf[e]] == StepIfAttracted(step, e, old(bodies)[bodyOf[e]], CenterOf(e, old(bodies)))
      ensures forall h :: h in old(bodies) && h !in HandlesOf(query) ==> bodies[h] == old(bodies)[h]
    {
      var bs := bodies;
      var todo := query;
      AtmospheresNotVisited(query);
      while todo != {}
        invariant todo <= query
        invariant bs.Keys == bodies.Keys
        invariant forall e :: e in query && e !in todo ==>
                    bs[bodyOf[e]] == StepIfAttracted(step, e, bodies[bodyOf[e]], CenterOf(e, bodies))
        invariant forall e :: e in todo ==> bs[bodyOf[e]] == bodies[bodyOf[e]]
        invariant forall h :: h in bodies && h !in HandlesOf(query) ==> bs[h] == bodies[h]
        modifies {}
        decreases todo
      {
        var e :| e in todo;
        CenterFollowsTranslations(attractable[e], AtmosphereBodies(), bodies, bs);
        var center := PlanetCenter(attractable[e], AtmosphereBodies(), bs);
        var handle := bodyOf[e];
        if center.Some? {
          bs := bs[handle := step(e, bs[handle], center.value)];
        }
        todo := todo - {e};
      }
      bodies := bs;
    }

    /** gravitate: every Attractable body with a resolvable planet within
        range is pulled towards it; every other body is unchanged. */
    method Gravitate(ops: FloatOps)
      requires Valid()
      modifies this`bodies
      ensures Valid()
      ensures bodies.Keys == old(bodies).Keys
      ensures forall e :: e in AttractedBodies() ==>
                var body := old(bodies)[bodyOf[e]];
                bodies[bodyOf[e]] == Pull(body, GravityForce(CenterOf(e, old(bodies)), body.translation, ops))
      ensures forall h :: h in old(bodies) && h !in HandlesOf(AttractedBodies()) ==> bodies[h] == old(bodies)[h]
    {
      UpdateAttracted(AttractedBodies(), (e, body: Body, center) => Pull(body, GravityForce(Some(center), body.translation, ops)));
    }

    /** graviturn: every player attracted to a resolvable planet is turned
        upright relative to it; no body's translation changes, and bodies
        of other entities do not change at all. */
    method Graviturn(ops: FloatOps)
      requires Valid()
      modifies this`bodies
      ensures Valid()
      ensures bodies.Keys == old(bodies).Keys
      ensures forall h :: h in bodies ==> bodies[h].translation == old(bodies)[h].translation
      ensures forall e :: e in PlayerBodies() ==>
                var body := old(bodies)[bodyOf[e]];
                bodies[bodyOf[e]] ==
                  match CenterOf(e, old(bodies))
                  case None => body
                  case Some(c) => body.(rotation := TargetAngle(Sub(c, body.translation), body.translation, ops))
      ensures forall h :: h in old(bodies) && h !in HandlesOf(PlayerBodies()) ==> bodies[h] == old(bodies)[h]
    {
      UpdateAttracted(PlayerBodies(),
        (e, body: Body, center) => body.(rotation := TargetAngle(Sub(center, body.translation), body.translation, ops)));
    }

    /** move_player: every player attracted to a resolvable planet moves as
        Locomote says for its grounded flag and the pressed keys; bodies of
        other entities do not change. */
    method MovePlayer(pressed: set<Key>, dt: real, ops: FloatOps)
      requires Valid()
      modifies this`bodies
      ensures Valid()
      ensures bodies.Keys == old(bodies).Keys
      ensures forall e :: e in PlayerBodies() ==>
                var body := old(bodies)[bodyOf[e]];
                bodies[bodyOf[e]] ==
                  match CenterOf(e, old(bodies))
                  case None => body
                  case Some(c) => Locomote(body, c, players[e], pressed, dt, ops)
      ensures forall h :: h in old(bodies) && h !in HandlesOf(PlayerBodies()) ==> bodies[h] == old(bodies)[h]
    {
      var grounded := players;
      var step := (e, body, center) => Locomote(body, center, e in grounded && grounded[e], pressed, dt, ops);
      UpdateAttracted(PlayerBodies(), step);
      forall e | e in PlayerBodies()
        ensures bodies[bodyOf[e]] == StepIfAttracted(step, e, old(bodies)[bodyOf[e]], CenterOf(e, old(bodies)))
        ensures (e in grounded && grounded[e]) == players[e]
      {
      }
    }

    /** One proximity event: every Attractable participant is updated
        against the first participant that is an atmosphere. */
    method HandleProximity(event: ProximityEvent)
      modifies this`attractable
      ensures attractable == ProximityEffect(old(attractable), handleToEntity, AtmosphereBodies().Keys, event)
    {
      var entities := ProximityParticipants(handleToEntity, event);
      var found := FindFirst(entities, AtmosphereBodies().Keys);
      if found.Some? {
        var atmosphere := found.value;
        var i := 0;
        while i < |entities|
          invariant 0 <= i <= |entities|
          invariant attractable.Keys == old(attractable).Keys
          invariant forall e :: e in attractable ==>
                      attractable[e] == if e in entities[..i]
                                        then ProximityUpdate(old(attractable)[e], atmosphere, event.newStatus)
                                        else old(attractable)[e]
        {
          var entity := entities[i];
          if entity in attractable {
            UpdateIdempotent(old(attractable)[entity], atmosphere, event.newStatus);
            attractable := attractable[entity := ProximityUpdate(attractable[entity], atmosphere, event.newStatus)];
          }
          assert entities[..i + 1] == entities[..i] + [entity];
          i := i + 1;
        }
        assert entities[..i] == entities;
      }
    }

    /** The bullets among `entities` are queued for despawning, in order. */
    method DespawnBullets(entities: seq<Entity>)
      modifies this`despawns
      ensures despawns == old(despawns) + HitBullets(entities, bullets)
    {
      var i := 0;
      while i < |entities|
        invariant 0 <= i <= |entities|
        invariant despawns == old(despawns) + HitBullets(entities[..i], bullets)
      {
        if entities[i] in bullets {
          despawns := despawns + [entities[i]];
        }
        assert entities[..i + 1][..i] == entities[..i];
        i := i + 1;
      }
      assert entities[..i] == entities;
    }

    /** Every player among `entities` gets the grounded flag `isStarted`. */
    method SetGrounded(entities: seq<Entity>, isStarted: bool)
      modifies this`players
      ensures players.Keys == old(players).Keys
      ensures forall p :: p in players ==> players[p] == if p in entities then isStarted else old(players)[p]
    {
      var j := 0;
      while j < |entities|
        invariant 0 <= j <= |entities|
        invariant players.Keys == old(players).Keys
        invariant forall p :: p in players ==> players[p] == if p in entities[..j] then isStarted else old(players)[p]
      {
        var entity := entities[j];
        if entity in players {
          players := players[entity := isStarted];
        }
        assert entities[..j + 1] == entities[..j] + [entity];
        j := j + 1;
      }
      assert entities[..j] == entities;
    }

    /** One contact event: despawn every bullet taking part, then, if a
        planet takes part, set every participating player's grounded flag
        to whether the contact started. */
    method HandleContact(event: ContactEvent)
      modifies this`players, this`despawns
      ensures despawns == old(despawns) + HitBullets(ContactParticipants(handleToEntity, event), bullets)
      ensures players == GroundedEffect(old(players), planets, ContactParticipants(handleToEntity, event), event.Started?)
    {
      var isStarted := match event case Started(_, _) => true case Stopped(_, _) => false;
      var entities := ContactParticipants(handleToEntity, event);
      DespawnBullets(entities);
      if exists e :: e in entities && e in planets {
        SetGrounded(entities, isStarted);
      }
    }

    /** The proximity half of physics_events: pop and handle events until
        the queue is empty. */
    method DrainProximityQueue()
      modifies this`attractable, this`proximityQueue
      ensures proximityQueue == []
      ensures attractable == DrainProximity(old(attractable), handleToEntity, AtmosphereBodies().Keys, old(proximityQueue))
    {
      ghost var events := proximityQueue;
      ghost var k := 0;
      while proximityQueue != []
        invariant k <= |events| && proximityQueue == events[k..]
        invariant attractable == DrainProximity(old(attractable), handleToEntity, AtmosphereBodies().Keys, events[..k])
        decreases |proximityQueue|
      {
        var event := proximityQueue[0];
        proximityQueue := proximityQueue[1..];
        HandleProximity(event);
        assert events[..k + 1][..k] == events[..k];
        k := k + 1;
      }
      assert events[..k] == events;
    }

    /** The contact half of physics_events: pop and handle events until the
        queue is empty. */
    method DrainContactQueue()
      modifies this`players, this`despawns, this`contactQueue
      ensures contactQueue == []
      ensures players == DrainContacts(old(players), handleToEntity, planets, old(contactQueue))
      ensures despawns == old(despawns) + DespawnCommands(handleToEntity, bullets, old(contactQueue))
    {
      ghost var events := contactQueue;
      ghost var n := 0;
      while contactQueue != []
        invariant n <= |events| && contactQueue == events[n..]
        invariant players == DrainContacts(old(players), handleToEntity, planets, events[..n])
        invariant despawns == old(despawns) + DespawnCommands(handleToEntity, bullets, events[..n])
        decreases |contactQueue|
      {
        var event := contactQueue[0];
        contactQueue := contactQueue[1..];
        HandleContact(event);
        DrainContactsStep(old(players), handleToEntity, planets, events, n);
        DespawnCommandsStep(handleToEntity, bullets, events, n);
        n := n + 1;
      }
      assert events[..n] == events;
    }

    /** physics_events: drain the proximity queue, then the contact queue. */
    method PhysicsEvents()
      requires Valid()
      modifies this`attractable, this`players, this`despawns, this`proximityQueue, this`contactQueue
      ensures Valid()
      ensures proximityQueue == [] && contactQueue == []
      ensures attractable == DrainProximity(old(attractable), handleToEntity, AtmosphereBodies().Keys, old(proximityQueue))
      ensures players == DrainContacts(old(players), handleToEntity, planets, old(contactQueue))
      ensures despawns == old(despawns) + DespawnCommands(handleToEntity, bullets, old(contactQueue))
    {
      DrainProximityQueue();
      DrainContactQueue();
    }
  }
}
