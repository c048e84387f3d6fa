/** The part of the entity manager the physics system talks to: events, transform refresh and the transform table. */
module Entities {
  import opened Common
  import opened Components

  /** The solver's per-contact object handed to `preSolve` listeners, which may veto the contact. */
  datatype Arbiter = Arbiter(accepted: bool)

  /** One element of an event's parameter list. */
  datatype Param = Ref(id: EntityId) | Token(text: string) | ArbiterArg(arbiter: Arbiter) | Undefined

  /** One `triggerEvent(entityId, eventId, params)` call. */
  datatype Event = Event(entityId: EntityId, eventId: string, params: seq<Param>)

  class EntityManager {
    /** Every event triggered so far, oldest first. */
    var events: seq<Event>
    /** Every `updateWorldTransform(id)` call so far, oldest first. */
    var worldTransformUpdates: seq<EntityId>
    /** The transform component table, keyed by entity id. */
    var transforms: map<EntityId, Transform>

    constructor (transforms: map<EntityId, Transform>)
      ensures this.events == [] && this.worldTransformUpdates == [] && this.transforms == transforms
    {
      this.events := [];
      this.worldTransformUpdates := [];
      this.transforms := transforms;
    }

    method TriggerEvent(entityId: EntityId, eventId: string, params: seq<Param>)
      modifies this`events
      ensures events == old(events) + [Event(entityId, eventId, params)]
    {
      events := events + [Event(entityId, eventId, params)];
    }

    method UpdateWorldTransform(entityId: EntityId)
      modifies this`worldTransformUpdates
      ensures worldTransformUpdates == old(worldTransformUpdates) + [entityId]
    {
      worldTransformUpdates := worldTransformUpdates + [entityId];
    }
  }
}
