/** What the game sees of the engine's entity and body registries: entity
    and handle identifiers, rigid bodies, and the lookups that turn the
    handles an event carries back into entities. */
module Registry {
  import opened Geometry

  datatype Option<T> = None | Some(value: T)

  type Entity = nat
  type Handle = nat

  /** A rigid body as the game sees it: its position (translation and
      rotation angle) and what the game applied to it in the current step,
      the accumulated force and the accumulated impulse. */
  datatype Body = Body(translation: Vec2, rotation: real, force: Vec2, impulse: Vec2)

  /** The entities a list of handles resolves to, in order; a handle the
      lookup does not know is dropped. */
  function Resolve(lookup: map<Handle, Entity>, handles: seq<Handle>): (entities: seq<Entity>)
    ensures |entities| <= |handles|
    ensures forall e :: e in entities <==> exists h :: h in handles && h in lookup && lookup[h] == e
  {
    if handles == [] then []
    else
      var rest := Resolve(lookup, handles[1..]);
      assert forall h :: h in handles[1..] ==> h in handles;
      if handles[0] in lookup then [lookup[handles[0]]] + rest else rest
  }

  /** The first of `entities` that belongs to `s`, if any. */
  function FindFirst(entities: seq<Entity>, s: set<Entity>): (found: Option<Entity>)
    ensures found.None? <==> forall i :: 0 <= i < |entities| ==> entities[i] !in s
    ensures found.Some? ==>
      found.value in s &&
      exists i :: 0 <= i < |entities| && entities[i] == found.value &&
                  forall j :: 0 <= j < i ==> entities[j] !in s
  {
    if entities == [] then None
    else if entities[0] in s then Some(entities[0])
    else
      var found := FindFirst(entities[1..], s);
      assert found.Some? ==> exists i :: 1 <= i < |entities| && entities[i] == found.value &&
                                         forall j :: 0 <= j < i ==> entities[j] !in s by {
        if found.Some? {
          var i :| 0 <= i < |entities[1..]| && entities[1..][i] == found.value &&
                   forall j :: 0 <= j < i ==> entities[1..][j] !in s;
          assert entities[i + 1] == found.value;
          assert forall j :: 0 <= j < i + 1 ==> entities[j] !in s by {
            forall j | 0 <= j < i + 1 ensures entities[j] !in s {
              if j > 0 { assert entities[j] == entities[1..][j - 1]; }
            }
          }
        }
      }
      found
  }
}
