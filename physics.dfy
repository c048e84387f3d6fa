/**
 * The physics system: body creation on entity creation, the deferred destruction
 * queue, and the per-frame drain, step and pull-back of the solver's state.
 */
module Physics {
  import opened Common
  import opened Components
  import opened Entities
  import opened ContactBridge
  import opened ShapeBuilder
  import opened PhysicsWorld
  import opened StatePullBack

  /** `createContactListener`: the shape with the four contact listeners of its entity added. */
  function CreateContactListener(shape: Shape, entityId: EntityId, trigger: Option<ContactTrigger>): (s: Shape)
    ensures s.kind == shape.kind && s.def == shape.def
    ensures s.listeners == shape.listeners + ContactListenerSet(entityId, trigger)
  {
    shape.(listeners := shape.listeners + ContactListenerSet(entityId, trigger))
  }

  /**
   * The `createBodyDef` call `createBody` makes for an entity, or None when it makes
   * none. The shape list has one shape, which carries its listeners already.
   */
  function BodyDefCall(entityId: EntityId, entity: Entity): (c: Option<WorldCall>)
    ensures c.Some? <==> CanCreateBody(entity)
    ensures c.Some? ==> c.value.CreateBodyDefCall? && c.value.entityId == entityId
                        && c.value.body == entity.body.value && c.value.transform == entity.transform.value
                        && |c.value.shapes| == 1
                        && c.value.shapes[0].listeners == ContactListenerSet(entityId, entity.contactTrigger)
                        && CarriesFixture(c.value.shapes[0].def, entity.fixture.value)
                        && c.value.shapes[0].kind == CreateShape(entity).value.kind
                        && c.value.shapes[0].def == CreateShape(entity).value.def
  {
    match CreateShape(entity)
    case None => None
    case Some(shape) =>
      Some(CreateBodyDefCall(entityId, entity.body.value,
                             [CreateContactListener(shape, entityId, entity.contactTrigger)],
                             entity.transform.value))
  }

  /**
   * `createBody`, bound to the world: when the guard holds, builds the shape, attaches
   * the listeners, then makes one `createBodyDef` call; otherwise does nothing.
   * It triggers no event: the entity manager is not touched.
   */
  method CreateBody(world: World, entityId: EntityId, entity: Entity)
    modifies world
    ensures BodyDefCall(entityId, entity).None? ==> world.log == old(world.log) && world.bodies == old(world.bodies)
    ensures BodyDefCall(entityId, entity).Some? ==>
              var c := BodyDefCall(entityId, entity).value;
              world.log == old(world.log) + [c]
              && world.bodies == old(world.bodies) + [NewBody(entityId, c.body, c.shapes, c.transform)]
  {
    var created := CreateShape(entity);
    if created.None? {
      return;
    }
    var shape := CreateContactListener(created.value, entityId, entity.contactTrigger);
    world.CreateBodyDef(entityId, entity.body.value, [shape], entity.transform.value);
  }

  /** The `destroyBody` calls for a queue, in queue order. */
  function DestroyCalls(ids: seq<EntityId>): (cs: seq<WorldCall>)
    ensures |cs| == |ids|
    ensures forall i :: 0 <= i < |cs| ==> cs[i] == DestroyBodyCall(ids[i])
  {
    seq(|ids|, i requires 0 <= i < |ids| => DestroyBodyCall(ids[i]))
  }

  /** `destroyBodies`: one `destroyBody` per id, in order. */
  method DestroyBodies(world: World, entityIds: seq<EntityId>)
    modifies world
    ensures world.log == old(world.log) + DestroyCalls(entityIds)
    ensures world.bodies == RemoveAll(old(world.bodies), entityIds)
  {
    var i := 0;
    while i < |entityIds|
      invariant 0 <= i <= |entityIds|
      invariant world.log == old(world.log) + DestroyCalls(entityIds[..i])
      invariant world.bodies == RemoveAll(old(world.bodies), entityIds[..i])
    {
      assert entityIds[..i + 1][..i] == entityIds[..i];
      world.DestroyBody(entityIds[i]);
      assert DestroyCalls(entityIds[..i + 1]) == DestroyCalls(entityIds[..i]) + [DestroyBodyCall(entityIds[i])];
      i := i + 1;
    }
    assert entityIds[..i] == entityIds;
  }

  /**
   * `incrementState`: for each body, in order, copies the pose of an eligible body
   * into its entity's transform and requests a world-transform refresh for it.
   */
  method IncrementState(em: EntityManager, rigidBodies: seq<RigidBody>)
    modifies em`transforms, em`worldTransformUpdates
    ensures em.transforms == PullBack(rigidBodies, old(em.transforms))
    ensures em.worldTransformUpdates == old(em.worldTransformUpdates) + UpdatedIds(rigidBodies, old(em.transforms))
  {
    var i := 0;
    while i < |rigidBodies|
      invariant 0 <= i <= |rigidBodies|
      invariant em.transforms == PullBack(rigidBodies[..i], old(em.transforms))
      invariant em.worldTransformUpdates == old(em.worldTransformUpdates) + UpdatedIds(rigidBodies[..i], old(em.transforms))
    {
      assert rigidBodies[..i + 1][..i] == rigidBodies[..i];
      var body := rigidBodies[i];
      i := i + 1;
      if body.isStatic || body.sleeping {
        continue;
      }
      if body.userData.None? || body.userData.value == "" {
        continue;
      }
      var id := body.userData.value;
      var position := body.position;
      if id !in em.transforms || position.x == 0 || position.y == 0 {
        continue;
      }
      em.transforms := em.transforms[id := em.transforms[id].(translation := position, rotation := body.rotation)];
      em.UpdateWorldTransform(id);
    }
    assert rigidBodies[..i] == rigidBodies;
  }

  /** The calls one `process` makes on the world: the queue drained in order, then one step. */
  function ProcessCalls(queue: seq<EntityId>, deltaTimeInMs: int): seq<WorldCall>
  {
    DestroyCalls(queue) + [StepCall(deltaTimeInMs)]
  }

  /**
   * In one frame every queued id is destroyed, once and in queue order, before the
   * only step, and the step gets the frame's delta time unchanged; no body is created.
   */
  lemma DrainPrecedesStep(queue: seq<EntityId>, deltaTimeInMs: int)
    ensures var cs := ProcessCalls(queue, deltaTimeInMs);
            |cs| == |queue| + 1
            && (forall i :: 0 <= i < |queue| ==> cs[i] == DestroyBodyCall(queue[i]))
            && cs[|queue|] == StepCall(deltaTimeInMs)
            && (forall i :: 0 <= i < |cs| ==> (cs[i].StepCall? <==> i == |queue|) && !cs[i].CreateBodyDefCall?)
  {
  }

  /** The configuration read by `init`. */
  datatype PhysicsConfig = PhysicsConfig(gravity: Vec2, scale: int)

  /** `spell.physicsWorlds`: the world slot shared by all systems of a scene. */
  class PhysicsWorlds {
    var main: World?

    constructor (main: World?)
      ensures this.main == main
    {
      this.main := main;
    }
  }

  class PhysicsSystem {
    const config: PhysicsConfig
    var world: World?
    var removedEntitiesQueue: seq<EntityId>

    constructor (config: PhysicsConfig)
      ensures this.config == config && world == null && removedEntitiesQueue == []
    {
      this.config := config;
      world := null;
      removedEntitiesQueue := [];
    }

    /** `init`: reuses the shared main world, or creates one and shares it. */
    method Init(worlds: PhysicsWorlds)
      modifies this`world, worlds
      ensures world != null && world == worlds.main
      ensures old(worlds.main) != null ==> world == old(worlds.main)
      ensures old(worlds.main) == null ==>
                fresh(world) && world.gravity == config.gravity && world.scale == config.scale
                && world.bodies == [] && world.log == []
      ensures removedEntitiesQueue == old(removedEntitiesQueue)
    {
      world := worlds.main;
      if world == null {
        var created := new World(config.gravity, config.scale);
        world := created;
        worlds.main := created;
      }
    }

    /** The entity-removed handler: appends the id and does not touch the world. */
    method OnEntityRemoved(entityId: EntityId)
      modifies this`removedEntitiesQueue
      ensures removedEntitiesQueue == old(removedEntitiesQueue) + [entityId]
    {
      removedEntitiesQueue := removedEntitiesQueue + [entityId];
    }

    /**
     * `process`: drains the queue into `destroyBody` calls and clears it, steps the
     * world by `deltaTimeInMs`, then pulls the stepped bodies' poses back into the
     * transform table. What happens inside the step is supplied by the caller:
     * `solve` is what the solver makes of the drained bodies, `contacts` are the
     * listener calls it makes while stepping, `removals` are the entities that
     * handlers of those events remove, whose ids reach the queue during the step, and
     * `stepTransforms` is the transform table as those handlers leave it, which the
     * pull-back reads.
     */
    method Process(em: EntityManager, timeInMs: int, deltaTimeInMs: int,
                   solve: seq<RigidBody> -> seq<RigidBody>, contacts: seq<ContactCall>, removals: seq<EntityId>,
                   stepTransforms: map<EntityId, Transform>)
      requires world != null
      modifies this`removedEntitiesQueue, world, em`events, em`transforms, em`worldTransformUpdates
      ensures removedEntitiesQueue == removals
      ensures world.log == old(world.log) + ProcessCalls(old(removedEntitiesQueue), deltaTimeInMs)
      ensures world.bodies == solve(RemoveAll(old(world.bodies), old(removedEntitiesQueue)))
      ensures em.events == old(em.events) + ContactLog(contacts)
      ensures em.transforms == PullBack(world.bodies, stepTransforms)
      ensures em.worldTransformUpdates == old(em.worldTransformUpdates) + UpdatedIds(world.bodies, stepTransforms)
    {
      var world := this.world;
      if |removedEntitiesQueue| > 0 {
        DestroyBodies(world, removedEntitiesQueue);
        removedEntitiesQueue := [];
      }
      world.Step(deltaTimeInMs, solve);
      // The listener calls and removal notifications made while the solver steps.
      DispatchContacts(em, contacts);
      var j := 0;
      while j < |removals|
        invariant 0 <= j <= |removals|
        invariant removedEntitiesQueue == removals[..j]
        modifies this`removedEntitiesQueue
      {
        OnEntityRemoved(removals[j]);
        assert removals[..j + 1] == removals[..j] + [removals[j]];
        j := j + 1;
      }
      assert removals[..j] == removals;
      em.transforms := stepTransforms;
      IncrementState(em, world.bodies);
    }
  }
}
