/**
 * The solver's world as the physics system sees it: the bodies it holds and the
 * calls made on it. Its numerics are not modelled: what `step` does to the bodies
 * is supplied by the caller.
 */
module PhysicsWorld {
  import opened Common
  import opened Components
  import opened ShapeBuilder

  /** A solver body; `userData` is the owning entity's id, if any. */
  datatype RigidBody = RigidBody(
    userData: Option<EntityId>, isStatic: bool, sleeping: bool,
    position: Vec2, rotation: int, shapes: seq<Shape>)

  /** One call made on the world. */
  datatype WorldCall =
    | CreateBodyDefCall(entityId: EntityId, body: BodyComponent, shapes: seq<Shape>, transform: Transform)
    | DestroyBodyCall(entityId: EntityId)
    | StepCall(deltaTime: int)

  /** The body `createBodyDef` adds: owned by the entity, posed by its transform. */
  function NewBody(entityId: EntityId, body: BodyComponent, shapes: seq<Shape>, transform: Transform): RigidBody
  {
    RigidBody(Some(entityId), body.kind == Static, false, transform.translation, transform.rotation, shapes)
  }

  /** The bodies left after `destroyBody(entityId)`: those not owned by that entity, in order. */
  function RemoveBody(bodies: seq<RigidBody>, entityId: EntityId): (r: seq<RigidBody>)
    ensures |r| <= |bodies|
    ensures forall b :: b in r <==> b in bodies && b.userData != Some(entityId)
    decreases |bodies|
  {
    if bodies == [] then []
    else (if bodies[0].userData == Some(entityId) then [] else [bodies[0]]) + RemoveBody(bodies[1..], entityId)
  }

  /** Destroying a body that does not exist is a no-op. */
  lemma {:induction false} RemoveAbsentBody(bodies: seq<RigidBody>, entityId: EntityId)
    requires forall i :: 0 <= i < |bodies| ==> bodies[i].userData != Some(entityId)
    ensures RemoveBody(bodies, entityId) == bodies
    decreases |bodies|
  {
    if bodies != [] {
      RemoveAbsentBody(bodies[1..], entityId);
      assert [bodies[0]] + bodies[1..] == bodies;
    }
  }

  /** Destroying the same entity's body twice is the same as destroying it once. */
  lemma RemoveBodyIdempotent(bodies: seq<RigidBody>, entityId: EntityId)
    ensures RemoveBody(RemoveBody(bodies, entityId), entityId) == RemoveBody(bodies, entityId)
  {
    var r := RemoveBody(bodies, entityId);
    assert forall i :: 0 <= i < |r| ==> r[i] in r;
    RemoveAbsentBody(r, entityId);
  }

  /** The bodies left after `destroyBody` for each id of `ids`, in order. */
  function RemoveAll(bodies: seq<RigidBody>, ids: seq<EntityId>): seq<RigidBody>
    decreases |ids|
  {
    if ids == [] then bodies else RemoveBody(RemoveAll(bodies, ids[..|ids| - 1]), ids[|ids| - 1])
  }

  /** Draining a queue removes exactly the bodies owned by a queued entity. */
  lemma {:induction false} RemoveAllRemovesQueued(bodies: seq<RigidBody>, ids: seq<EntityId>)
    ensures forall b :: b in RemoveAll(bodies, ids) <==> b in bodies && (b.userData.None? || b.userData.value !in ids)
    decreases |ids|
  {
    if ids != [] {
      var front := ids[..|ids| - 1];
      RemoveAllRemovesQueued(bodies, front);
      assert ids == front + [ids[|ids| - 1]];
    }
  }

  /** The solver world: an identity of its own, shared by every system that uses it. */
  class World {
    const gravity: Vec2
    const scale: int
    /** The bodies `getAllBodies()` returns. */
    var bodies: seq<RigidBody>
    /** The calls made on this world, oldest first. */
    var log: seq<WorldCall>

    /** `physicsContext.createWorld(gravity, scale)`. */
    constructor (gravity: Vec2, scale: int)
      ensures this.gravity == gravity && this.scale == scale
      ensures bodies == [] && log == []
    {
      this.gravity := gravity;
      this.scale := scale;
      bodies := [];
      log := [];
    }

    method CreateBodyDef(entityId: EntityId, body: BodyComponent, shapes: seq<Shape>, transform: Transform)
      modifies this
      ensures log == old(log) + [CreateBodyDefCall(entityId, body, shapes, transform)]
      ensures bodies == old(bodies) + [NewBody(entityId, body, shapes, transform)]
    {
      log := log + [CreateBodyDefCall(entityId, body, shapes, transform)];
      bodies := bodies + [NewBody(entityId, body, shapes, transform)];
    }

    method DestroyBody(entityId: EntityId)
      modifies this
      ensures log == old(log) + [DestroyBodyCall(entityId)]
      ensures bodies == RemoveBody(old(bodies), entityId)
    {
      log := log + [DestroyBodyCall(entityId)];
      bodies := RemoveBody(bodies, entityId);
    }

    /** `step(deltaTime)`; `solve` is what the solver makes of the bodies it steps. */
    method Step(deltaTime: int, solve: seq<RigidBody> -> seq<RigidBody>)
      modifies this
      ensures log == old(log) + [StepCall(deltaTime)]
      ensures bodies == solve(old(bodies))
    {
      log := log + [StepCall(deltaTime)];
      bodies := solve(bodies);
    }
  }
}
