/** Proximity events: a body entering or leaving a planet's atmosphere
    sensor, and the attraction reference each such event updates. */
module ProximityEvents {
  import opened Registry

  datatype Proximity = Intersecting | WithinMargin | Disjoint

  datatype ProximityEvent = ProximityEvent(collider1: Handle, collider2: Handle, newStatus: Proximity)

  /** The entities taking part in an event; unresolvable handles are dropped. */
  function ProximityParticipants(lookup: map<Handle, Entity>, event: ProximityEvent): seq<Entity>
  {
    Resolve(lookup, [event.collider1, event.collider2])
  }

  /** How one attraction reference reacts to an event of `atmosphere`:
      entering sets it, leaving clears it only while it still names that
      atmosphere, and a status within the margin leaves it alone. */
  function ProximityUpdate(attractedTo: Option<Entity>, atmosphere: Entity, status: Proximity): (r: Option<Entity>)
    ensures status == Intersecting ==> r == Some(atmosphere)
    ensures status == WithinMargin ==> r == attractedTo
    ensures status == Disjoint && attractedTo == Some(atmosphere) ==> r == None
    ensures status == Disjoint && attractedTo != Some(atmosphere) ==> r == attractedTo
  {
    match status
    case Intersecting => Some(atmosphere)
    case WithinMargin => attractedTo
    case Disjoint => if attractedTo == Some(atmosphere) then None else attractedTo
  }

  /** The effect of one event on the map from Attractable entities to their
      references: the first participant that is an atmosphere decides, and
      every Attractable participant is updated; every other entity keeps its
      reference. */
  function ProximityEffect(attractable: map<Entity, Option<Entity>>, lookup: map<Handle, Entity>,
                           atmospheres: set<Entity>, event: ProximityEvent): (r: map<Entity, Option<Entity>>)
    ensures r.Keys == attractable.Keys
    ensures forall e :: e in attractable && e !in ProximityParticipants(lookup, event) ==> r[e] == attractable[e]
  {
    var entities := ProximityParticipants(lookup, event);
    match FindFirst(entities, atmospheres)
    case None => attractable
    case Some(atmosphere) =>
      map e | e in attractable ::
        if e in entities then ProximityUpdate(attractable[e], atmosphere, event.newStatus) else attractable[e]
  }

  /** The effect of a whole queue of events, handled first to last. */
  function DrainProximity(attractable: map<Entity, Option<Entity>>, lookup: map<Handle, Entity>,
                          atmospheres: set<Entity>, events: seq<ProximityEvent>): (r: map<Entity, Option<Entity>>)
    ensures r.Keys == attractable.Keys
    decreases |events|
  {
    if events == [] then attractable
    else
      var before := DrainProximity(attractable, lookup, atmospheres, events[..|events| - 1]);
      ProximityEffect(before, lookup, atmospheres, events[|events| - 1])
  }

  /** Applying the same update twice is applying it once, so an entity that
      appears twice among the participants is updated as if once. */
  lemma UpdateIdempotent(attractedTo: Option<Entity>, atmosphere: Entity, status: Proximity)
    ensures ProximityUpdate(ProximityUpdate(attractedTo, atmosphere, status), atmosphere, status)
            == ProximityUpdate(attractedTo, atmosphere, status)
  {
  }

  /** Two handles name at most two entities; if they name a body and an
      atmosphere, those are all of them, so the atmosphere is found. */
  lemma PairFindsAtmosphere(lookup: map<Handle, Entity>, event: ProximityEvent, atmospheres: set<Entity>,
                            body: Entity, atmosphere: Entity)
    requires body !in atmospheres && atmosphere in atmospheres
    requires body in ProximityParticipants(lookup, event) && atmosphere in ProximityParticipants(lookup, event)
    ensures FindFirst(ProximityParticipants(lookup, event), atmospheres) == Some(atmosphere)
  {
  }

  /** An event with the status Intersecting between a body and an
      atmosphere makes the body attracted to that atmosphere. */
  lemma EnterAttracts(attractable: map<Entity, Option<Entity>>, lookup: map<Handle, Entity>,
                      atmospheres: set<Entity>, event: ProximityEvent, body: Entity, atmosphere: Entity)
    requires event.newStatus == Intersecting
    requires body in attractable && body !in atmospheres && atmosphere in atmospheres
    requires body in ProximityParticipants(lookup, event) && atmosphere in ProximityParticipants(lookup, event)
    ensures ProximityEffect(attractable, lookup, atmospheres, event)[body] == Some(atmosphere)
  {
  }

  /** An event with the status Disjoint between a body and an atmosphere
      clears the body's reference only if it names that atmosphere. */
  lemma ExitReleasesOnlyItsOwn(attractable: map<Entity, Option<Entity>>, lookup: map<Handle, Entity>,
                               atmospheres: set<Entity>, event: ProximityEvent, body: Entity, atmosphere: Entity)
    requires event.newStatus == Disjoint
    requires body in attractable && body !in atmospheres && atmosphere in atmospheres
    requires body in ProximityParticipants(lookup, event) && atmosphere in ProximityParticipants(lookup, event)
    ensures ProximityEffect(attractable, lookup, atmospheres, event)[body]
            == if attractable[body] == Some(atmosphere) then None else attractable[body]
  {
  }

  /** An event that is within the margin, or that has no atmosphere among
      its resolved participants, changes nothing. */
  ghost predicate Inert(lookup: map<Handle, Entity>, atmospheres: set<Entity>, event: ProximityEvent)
  {
    || event.newStatus == WithinMargin
    || forall e :: e in ProximityParticipants(lookup, event) ==> e !in atmospheres
  }

  lemma InertEventChangesNothing(attractable: map<Entity, Option<Entity>>, lookup: map<Handle, Entity>,
                                 atmospheres: set<Entity>, event: ProximityEvent)
    requires Inert(lookup, atmospheres, event)
    ensures ProximityEffect(attractable, lookup, atmospheres, event) == attractable
  {
  }

  /** A queue of inert events changes nothing. */
  lemma {:induction false} DrainInert(attractable: map<Entity, Option<Entity>>, lookup: map<Handle, Entity>,
                                      atmospheres: set<Entity>, events: seq<ProximityEvent>)
    requires forall k :: 0 <= k < |events| ==> Inert(lookup, atmospheres, events[k])
    ensures DrainProximity(attractable, lookup, atmospheres, events) == attractable
    decreases |events|
  {
    if events != [] {
      var prefix := events[..|events| - 1];
      DrainInert(attractable, lookup, atmospheres, prefix);
      InertEventChangesNothing(attractable, lookup, atmospheres, events[|events| - 1]);
    }
  }

  /** Draining a queue in two parts is draining it at once. */
  lemma {:induction false} DrainAppend(attractable: map<Entity, Option<Entity>>, lookup: map<Handle, Entity>,
                                       atmospheres: set<Entity>, first: seq<ProximityEvent>, second: seq<ProximityEvent>)
    ensures DrainProximity(attractable, lookup, atmospheres, first + second)
            == DrainProximity(DrainProximity(attractable, lookup, atmospheres, first), lookup, atmospheres, second)
    decreases |second|
  {
    if second == [] {
      assert first + second == first;
    } else {
      var all := first + second;
      assert all[..|all| - 1] == first + second[..|second| - 1];
      assert all[|all| - 1] == second[|second| - 1];
      DrainAppend(attractable, lookup, atmospheres, first, second[..|second| - 1]);
    }
  }

  /** An event after which `body` keeps its reference to `atmosphere`: it
      does not involve the body, or it is inert, or it is an exit from some
      other atmosphere. */
  ghost predicate Retains(lookup: map<Handle, Entity>, atmospheres: set<Entity>, event: ProximityEvent,
                          body: Entity, atmosphere: Entity)
  {
    || body !in ProximityParticipants(lookup, event)
    || Inert(lookup, atmospheres, event)
    || (event.newStatus == Disjoint && atmosphere !in ProximityParticipants(lookup, event))
  }

  lemma RetainsKeeps(attractable: map<Entity, Option<Entity>>, lookup: map<Handle, Entity>,
                     atmospheres: set<Entity>, event: ProximityEvent, body: Entity, atmosphere: Entity)
    requires body in attractable && attractable[body] == Some(atmosphere)
    requires Retains(lookup, atmospheres, event, body, atmosphere)
    ensures ProximityEffect(attractable, lookup, atmospheres, event)[body] == Some(atmosphere)
  {
  }

  /** Last enter wins: once a body has entered an atmosphere, it stays
      attracted to it through every later event that retains it — in
      particular through a late exit from an atmosphere it had entered
      before. */
  lemma {:induction false} LastEnterWins(attractable: map<Entity, Option<Entity>>, lookup: map<Handle, Entity>,
                                         atmospheres: set<Entity>, events: seq<ProximityEvent>, k: nat,
                                         body: Entity, atmosphere: Entity)
    requires k < |events|
    requires body in attractable && body !in atmospheres && atmosphere in atmospheres
    requires events[k].newStatus == Intersecting
    requires body in ProximityParticipants(lookup, events[k]) && atmosphere in ProximityParticipants(lookup, events[k])
    requires forall j :: k < j < |events| ==> Retains(lookup, atmospheres, events[j], body, atmosphere)
    ensures DrainProximity(attractable, lookup, atmospheres, events)[body] == Some(atmosphere)
    decreases |events|
  {
    var prefix := events[..|events| - 1];
    var before := DrainProximity(attractable, lookup, atmospheres, prefix);
    if k == |events| - 1 {
      EnterAttracts(before, lookup, atmospheres, events[k], body, atmosphere);
    } else {
      assert forall j :: k < j < |prefix| ==> prefix[j] == events[j];
      LastEnterWins(attractable, lookup, atmospheres, prefix, k, body, atmosphere);
      RetainsKeeps(before, lookup, atmospheres, events[|events| - 1], body, atmosphere);
    }
  }

  /** The scenario: enter A, enter B, exit A leaves the body attracted to B. */
  lemma StaleExitIgnored(attractable: map<Entity, Option<Entity>>, lookup: map<Handle, Entity>,
                         atmospheres: set<Entity>, body: Entity, a: Entity, b: Entity,
                         bodyHandle: Handle, aHandle: Handle, bHandle: Handle)
    requires body in attractable && body !in atmospheres
    requires a in atmospheres && b in atmospheres && a != b
    requires bodyHandle in lookup && lookup[bodyHandle] == body
    requires aHandle in lookup && lookup[aHandle] == a
    requires bHandle in lookup && lookup[bHandle] == b
    ensures DrainProximity(attractable, lookup, atmospheres,
                           [ProximityEvent(bodyHandle, aHandle, Intersecting),
                            ProximityEvent(bHandle, bodyHandle, Intersecting),
                            ProximityEvent(aHandle, bodyHandle, Disjoint)])[body] == Some(b)
  {
    var events := [ProximityEvent(bodyHandle, aHandle, Intersecting),
                   ProximityEvent(bHandle, bodyHandle, Intersecting),
                   ProximityEvent(aHandle, bodyHandle, Disjoint)];
    assert body in ProximityParticipants(lookup, events[1]) && b in ProximityParticipants(lookup, events[1]);
    assert ProximityParticipants(lookup, events[2]) == [a, body];
    LastEnterWins(attractable, lookup, atmospheres, events, 1, body, b);
  }

  /** A body's reference only ever names an atmosphere (or nothing). */
  ghost predicate RefersToAtmospheres(attractable: map<Entity, Option<Entity>>, atmospheres: set<Entity>)
  {
    forall e :: e in attractable && attractable[e].Some? ==> attractable[e].value in atmospheres
  }

  lemma {:induction false} DrainRefersToAtmospheres(attractable: map<Entity, Option<Entity>>, lookup: map<Handle, Entity>,
                                                    atmospheres: set<Entity>, events: seq<ProximityEvent>)
    requires RefersToAtmospheres(attractable, atmospheres)
    ensures RefersToAtmospheres(DrainProximity(attractable, lookup, atmospheres, events), atmospheres)
    decreases |events|
  {
    if events != [] {
      DrainRefersToAtmospheres(attractable, lookup, atmospheres, events[..|events| - 1]);
    }
  }

  /** An entity that takes part in no event of the queue keeps its
      reference, whether it is set or not. */
  lemma {:induction false} DrainUninvolvedKeeps(attractable: map<Entity, Option<Entity>>, lookup: map<Handle, Entity>,
                                                atmospheres: set<Entity>, events: seq<ProximityEvent>, body: Entity)
    requires body in attractable
    requires forall k :: 0 <= k < |events| ==> body !in ProximityParticipants(lookup, events[k])
    ensures DrainProximity(attractable, lookup, atmospheres, events)[body] == attractable[body]
    decreases |events|
  {
    if events != [] {
      var prefix := events[..|events| - 1];
      assert forall k :: 0 <= k < |prefix| ==> prefix[k] == events[k];
      DrainUninvolvedKeeps(attractable, lookup, atmospheres, prefix, body);
    }
  }

  /** The reference of one body traced through the queue on its own: only
      the events it takes part in, and that find an atmosphere, update it. */
  function BodyReference(start: Option<Entity>, lookup: map<Handle, Entity>, atmospheres: set<Entity>,
                         events: seq<ProximityEvent>, body: Entity): Option<Entity>
    decreases |events|
  {
    if events == [] then start
    else
      var before := BodyReference(start, lookup, atmospheres, events[..|events| - 1], body);
      var last := events[|events| - 1];
      var entities := ProximityParticipants(lookup, last);
      if body !in entities then before
      else match FindFirst(entities, atmospheres)
        case None => before
        case Some(atmosphere) => ProximityUpdate(before, atmosphere, last.newStatus)
  }

  /** Draining the queue updates every Attractable body independently of
      the others: its final reference is its own trace through the events. */
  lemma {:induction false} DrainIsPerBody(attractable: map<Entity, Option<Entity>>, lookup: map<Handle, Entity>,
                                          atmospheres: set<Entity>, events: seq<ProximityEvent>, body: Entity)
    requires body in attractable
    ensures DrainProximity(attractable, lookup, atmospheres, events)[body]
            == BodyReference(attractable[body], lookup, atmospheres, events, body)
    decreases |events|
  {
    if events != [] {
      DrainIsPerBody(attractable, lookup, atmospheres, events[..|events| - 1], body);
    }
  }

  /** The scenario: enter A, then exit A leaves the body with no reference. */
  lemma EnterThenExitReleases(attractable: map<Entity, Option<Entity>>, lookup: map<Handle, Entity>,
                              atmospheres: set<Entity>, body: Entity, a: Entity,
                              bodyHandle: Handle, aHandle: Handle)
    requires body in attractable && body !in atmospheres && a in atmospheres
    requires bodyHandle in lookup && lookup[bodyHandle] == body
    requires aHandle in lookup && lookup[aHandle] == a
    ensures DrainProximity(attractable, lookup, atmospheres,
                           [ProximityEvent(bodyHandle, aHandle, Intersecting),
                            ProximityEvent(aHandle, bodyHandle, Disjoint)])[body] == None
  {
    var events := [ProximityEvent(bodyHandle, aHandle, Intersecting), ProximityEvent(aHandle, bodyHandle, Disjoint)];
    assert events[..1][..0] == [] && events[..1][0] == events[0];
    var entered := DrainProximity(attractable, lookup, atmospheres, events[..1]);
    EnterAttracts(attractable, lookup, atmospheres, events[0], body, a);
    ExitReleasesOnlyItsOwn(entered, lookup, atmospheres, events[1], body, a);
  }
}
