/** Contact events: two bodies starting or stopping to touch. A contact
    despawns every bullet taking part, and a contact with a planet sets the
    grounded flag of every player taking part. */
module ContactEvents {
  import opened Registry

  datatype ContactEvent = Started(handle1: Handle, handle2: Handle) | Stopped(handle1: Handle, handle2: Handle)

  /** The entities taking part in an event; unresolvable handles are dropped. */
  function ContactParticipants(lookup: map<Handle, Entity>, event: ContactEvent): seq<Entity>
  {
    Resolve(lookup, [event.handle1, event.handle2])
  }

  /** The despawn commands one event queues, in participant order. */
  function HitBullets(entities: seq<Entity>, bullets: set<Entity>): (hit: seq<Entity>)
    ensures forall e :: e in hit <==> e in entities && e in bullets
    decreases |entities|
  {
    if entities == [] then []
    else
      var last := entities[|entities| - 1];
      assert entities == entities[..|entities| - 1] + [last];
      HitBullets(entities[..|entities| - 1], bullets) + (if last in bullets then [last] else [])
  }

  /** The despawn commands a whole queue of events adds, first to last. */
  function DespawnCommands(lookup: map<Handle, Entity>, bullets: set<Entity>, events: seq<ContactEvent>): (commands: seq<Entity>)
    ensures forall e :: e in commands ==> e in bullets
    decreases |events|
  {
    if events == [] then []
    else
      DespawnCommands(lookup, bullets, events[..|events| - 1])
        + HitBullets(ContactParticipants(lookup, events[|events| - 1]), bullets)
  }

  /** True when `e` takes part in some event of the queue. */
  ghost predicate TakesPart(lookup: map<Handle, Entity>, events: seq<ContactEvent>, e: Entity)
  {
    exists k :: 0 <= k < |events| && e in ContactParticipants(lookup, events[k])
  }

  /** A despawn is queued for exactly the bullets that take part in some
      contact event, started or stopped; nothing else is ever queued. */
  lemma {:induction false} DespawnedIffHit(lookup: map<Handle, Entity>, bullets: set<Entity>,
                                           events: seq<ContactEvent>, e: Entity)
    ensures e in DespawnCommands(lookup, bullets, events) <==> e in bullets && TakesPart(lookup, events, e)
    decreases |events|
  {
    if events != [] {
      var prefix := events[..|events| - 1];
      var last := ContactParticipants(lookup, events[|events| - 1]);
      DespawnedIffHit(lookup, bullets, prefix, e);
      assert DespawnCommands(lookup, bullets, events)
             == DespawnCommands(lookup, bullets, prefix) + HitBullets(last, bullets);
      TakesPartSplit(lookup, events, e);
    }
  }

  /** Taking part in a non-empty queue is taking part in all but its last
      event, or in its last event. */
  lemma TakesPartSplit(lookup: map<Handle, Entity>, events: seq<ContactEvent>, e: Entity)
    requires events != []
    ensures TakesPart(lookup, events, e) <==>
            TakesPart(lookup, events[..|events| - 1], e) || e in ContactParticipants(lookup, events[|events| - 1])
  {
  }

  /** True when some participant is a planet. */
  predicate TouchesPlanet(entities: seq<Entity>, planets: set<Entity>)
  {
    exists e :: e in entities && e in planets
  }

  /** The effect of one event on the players' grounded flags: with a planet
      taking part, every player taking part becomes grounded on a start and
      airborne on a stop; without one, nothing changes. */
  function GroundedEffect(players: map<Entity, bool>, planets: set<Entity>, entities: seq<Entity>, isStarted: bool)
    : (r: map<Entity, bool>)
    ensures r.Keys == players.Keys
  {
    if TouchesPlanet(entities, planets) then
      map p | p in players :: if p in entities then isStarted else players[p]
    else players
  }

  /** The effect of a whole queue of events on the grounded flags. */
  function DrainContacts(players: map<Entity, bool>, lookup: map<Handle, Entity>, planets: set<Entity>,
                         events: seq<ContactEvent>): (r: map<Entity, bool>)
    ensures r.Keys == players.Keys
    decreases |events|
  {
    if events == [] then players
    else
      var last := events[|events| - 1];
      GroundedEffect(DrainContacts(players, lookup, planets, events[..|events| - 1]), planets,
                     ContactParticipants(lookup, last), last.Started?)
  }

  /** Whether the latest event in which `player` touches a planet started
      or stopped that contact; None when there is no such event. */
  function LastPlanetContact(lookup: map<Handle, Entity>, planets: set<Entity>, player: Entity,
                             events: seq<ContactEvent>): Option<bool>
    decreases |events|
  {
    if events == [] then None
    else
      var last := events[|events| - 1];
      var entities := ContactParticipants(lookup, last);
      if player in entities && TouchesPlanet(entities, planets) then Some(last.Started?)
      else LastPlanetContact(lookup, planets, player, events[..|events| - 1])
  }

  /** A player's grounded flag after the queue is drained is whether its
      latest contact with a planet started; a player with no planet contact
      in the queue keeps its flag. */
  lemma {:induction false} GroundedTracksPlanetContact(players: map<Entity, bool>, lookup: map<Handle, Entity>,
                                                       planets: set<Entity>, events: seq<ContactEvent>, player: Entity)
    requires player in players
    ensures DrainContacts(players, lookup, planets, events)[player] ==
            match LastPlanetContact(lookup, planets, player, events)
            case Some(started) => started
            case None => players[player]
    decreases |events|
  {
    if events != [] {
      GroundedTracksPlanetContact(players, lookup, planets, events[..|events| - 1], player);
    }
  }

  /** Contacts without a planet (bullet against bullet, say) never change
      any player's grounded flag. */
  lemma {:induction false} NoPlanetKeepsGrounded(players: map<Entity, bool>, lookup: map<Handle, Entity>,
                                                 planets: set<Entity>, events: seq<ContactEvent>)
    requires forall k :: 0 <= k < |events| ==> !TouchesPlanet(ContactParticipants(lookup, events[k]), planets)
    ensures DrainContacts(players, lookup, planets, events) == players
    decreases |events|
  {
    if events != [] {
      var prefix := events[..|events| - 1];
      assert forall k :: 0 <= k < |prefix| ==> prefix[k] == events[k];
      NoPlanetKeepsGrounded(players, lookup, planets, prefix);
    }
  }

  /** Draining one more event of the queue is applying its effect to the
      drained flags. */
  lemma DrainContactsStep(players: map<Entity, bool>, lookup: map<Handle, Entity>, planets: set<Entity>,
                          events: seq<ContactEvent>, n: nat)
    requires n < |events|
    ensures DrainContacts(players, lookup, planets, events[..n + 1])
            == GroundedEffect(DrainContacts(players, lookup, planets, events[..n]), planets,
                              ContactParticipants(lookup, events[n]), events[n].Started?)
  {
    assert events[..n + 1][..n] == events[..n];
  }

  /** Draining one more event of the queue appends the despawns it queues. */
  lemma DespawnCommandsStep(lookup: map<Handle, Entity>, bullets: set<Entity>, events: seq<ContactEvent>, n: nat)
    requires n < |events|
    ensures DespawnCommands(lookup, bullets, events[..n + 1])
            == DespawnCommands(lookup, bullets, events[..n]) + HitBullets(ContactParticipants(lookup, events[n]), bullets)
  {
    assert events[..n + 1][..n] == events[..n];
  }

  /** How many times `e` is named among the participants of the queue's
      events, counted per event and per handle. */
  function Occurrences(lookup: map<Handle, Entity>, events: seq<ContactEvent>, e: Entity): nat
    decreases |events|
  {
    if events == [] then 0
    else Occurrences(lookup, events[..|events| - 1], e) + multiset(ContactParticipants(lookup, events[|events| - 1]))[e]
  }

  /** One event queues a bullet once for each handle that names it. */
  lemma {:induction false} HitBulletsCount(entities: seq<Entity>, bullets: set<Entity>, e: Entity)
    ensures multiset(HitBullets(entities, bullets))[e] == if e in bullets then multiset(entities)[e] else 0
    decreases |entities|
  {
    if entities != [] {
      var prefix, last := entities[..|entities| - 1], entities[|entities| - 1];
      assert entities == prefix + [last];
      HitBulletsCount(prefix, bullets, e);
    }
  }

  /** The despawns are not deduplicated: within one drain a bullet is queued
      as many times as it is named among the events' participants, since the
      set of bullets only changes once the queued despawns are applied. */
  lemma {:induction false} DespawnCount(lookup: map<Handle, Entity>, bullets: set<Entity>,
                                        events: seq<ContactEvent>, e: Entity)
    ensures multiset(DespawnCommands(lookup, bullets, events))[e]
            == if e in bullets then Occurrences(lookup, events, e) else 0
    decreases |events|
  {
    if events != [] {
      DespawnCount(lookup, bullets, events[..|events| - 1], e);
      HitBulletsCount(ContactParticipants(lookup, events[|events| - 1]), bullets, e);
    }
  }

  /** A bullet taking part in two contact events of the same tick is queued
      for despawn at least twice, whichever handle names it in each. */
  lemma BulletQueuedTwice(lookup: map<Handle, Entity>, bullets: set<Entity>, first: ContactEvent, second: ContactEvent,
                          bullet: Entity)
    requires bullet in bullets
    requires bullet in ContactParticipants(lookup, first) && bullet in ContactParticipants(lookup, second)
    ensures multiset(DespawnCommands(lookup, bullets, [first, second]))[bullet] >= 2
  {
    var events := [first, second];
    DespawnCount(lookup, bullets, events, bullet);
    var once := events[..1];
    assert once == [first] && once[..0] == [];
    assert Occurrences(lookup, once, bullet) == multiset(ContactParticipants(lookup, first))[bullet];
    assert Occurrences(lookup, events, bullet)
           == Occurrences(lookup, once, bullet) + multiset(ContactParticipants(lookup, second))[bullet];
  }
}
