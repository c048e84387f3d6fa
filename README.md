# Entity–physics synchronisation and visibility bookkeeping, modelled in Dafny

This project models two systems of the Spell engine demo.

The **physics system** (`library/demo_physics/physics.js`) bridges the entity-component store and a rigid-body solver:

- `createBody` checks an entity's components and builds a shape descriptor. It attaches four contact listeners and registers one body with the world.
- The contact listeners turn solver callbacks (`begin`, `end`, `preSolve`, `progress`) into entity events. A begin contact may also fire an author-configured trigger event.
- Entity-removal notifications only append the id to a queue.
- Each `process` drains that queue into `destroyBody` calls, then steps the world. It then copies the pose of every non-static, awake, owned, non-degenerate body into that entity's transform.

The **visibility system** (`library/spell/system/visibility.js`) keeps three kinds of state:

- the screen size;
- the active camera id;
- the entities drawn in the ui and background passes.

Its `process` publishes these maps. It does nothing when the active camera has no camera or no transform component.

## How the model is organised

- `common.dfy`, `components.dfy`: entity ids, optional values, 2D vectors, and the physics components.
- `text_split.dfy`: JavaScript's `split(',')` and its inverse `Join`, with round-trip lemmas in both directions.
- `entities.dfy`: the entity manager, as a class. It holds an append-only event log of `(entityId, eventId, params)` records, a log of `updateWorldTransform` calls, and the transform component table.
- `contact_bridge.dfy`: the listeners, written as data that records what each closure captures, and the events each one triggers.
- `shape_builder.dfy`: the guard of `createBody` and the shape descriptor.
- `physics_world.dfy`: the solver world, as a class. It holds the body list that `getAllBodies` returns and a log of the calls made on it.
- `state_pull_back.dfy`: a specification function of what `incrementState` does to the transform table, with lemmas.
- `physics.dfy`: `createBody`, `destroyBodies`, `incrementState`, and the system class with `init`, the removal handler and `process`.
- `visibility.dfy`: the visibility system class and the `spell` fields it writes.

How foreign things are modelled:

- The solver's calls are recorded, not simulated. `createMaterial`, `createBoxVertices`, `createCircleShape` and `createPolygonShape` become symbolic records of their arguments.
- `world.step` is a logged call. What happens inside it is supplied to `Process`. It gets a function that gives the solver's bodies after stepping the drained world, and the listener calls the solver makes while stepping. It also gets the ids of the entities that handlers of those events remove; these reach the queue during the step. Finally it gets the transform table as those handlers leave it, which the pull-back then reads.
- The region query of the visibility system is a function parameter. The model states which inputs it receives, not how it computes.
- `process` reads `this.transforms`, a field the physics system never assigns: the engine fills it in with the transform component table. The model keeps that table as `EntityManager.transforms`.
- Floats are modelled as integers. JavaScript falsiness is written out: a number is falsy when it is zero, an id when it is absent or empty.

The model follows the code in these details, which are easy to misread:

- The shape precedence is circle, then box, then polygon.
- A body is skipped on readback when **either** coordinate is zero, not only when both are.
- `step` receives `deltaTimeInMs` unchanged.
- The trigger's parameter string is split at every begin contact, not once at creation. The model's listener holds the trigger value it captured at creation. This gives the same events only while the trigger component is not changed in place after the body is created.

## Model

| member | source | states |
|---|---|---|
| `TextSplit.Split` | library/demo_physics/physics.js:55 | `parameters.split(',')` yields at least one token, and no token contains a comma |
| `TextSplit.JoinSplit` | library/demo_physics/physics.js:55 | joining the split tokens with commas gives back the parameter string |
| `TextSplit.SplitJoin` | library/demo_physics/physics.js:55 | splitting comma-joined, comma-free tokens gives back those tokens |
| `Entities.EntityManager.TriggerEvent` | library/demo_physics/physics.js:44 | `triggerEvent` appends exactly one `(entityId, eventId, params)` record to the event log |
| `Entities.EntityManager.UpdateWorldTransform` | library/demo_physics/physics.js:155 | `updateWorldTransform(id)` appends exactly that id to the refresh log |
| `ContactBridge.ContactListenerSet` | library/demo_physics/physics.js:49-77 | four listeners, in the order begin, end, preSolve, progress; each captures the owning entity and its trigger |
| `ContactBridge.ContactEvent` | library/demo_physics/physics.js:41-47 | the event goes to the owning entity; its first parameter is the other body's `userData`, followed by the extra parameters |
| `ContactBridge.ContactEvents` | library/demo_physics/physics.js:49-76 | one or two events, all on the owner, each with the other entity first. `onBeginContact`, `onEndContact`, `preSolve` with the arbiter added, or `progress`. A second event exists iff the contact is a begin and a trigger exists. That event is `contactTrigger.eventId` with the split parameters, and it comes second |
| `ContactBridge.AsymmetricContactNotification` | library/demo_physics/physics.js:41-47 | no event of a listener targets the other entity of the pair |
| `ContactBridge.TriggerParametersRoundTrip` | library/demo_physics/physics.js:54-56 | the trigger event's parameters after the other id are comma-free tokens whose comma-join is the configured parameter string |
| `ContactBridge.TriggerContactEntityEvent` | library/demo_physics/physics.js:41-47 | appends exactly the one `ContactEvent` to the entity manager's log |
| `ContactBridge.OnContact` | library/demo_physics/physics.js:51-76 | a solver callback appends exactly `ContactEvents` to the log, so the generic begin event precedes the trigger event |
| `ContactBridge.UserDataParam` | library/demo_physics/physics.js:42 | the other entity's parameter is its body's `userData`: its id, or `undefined` when the body has none |
| `ContactBridge.ContactLog` | library/demo_physics/physics.js:49-76 | the events of a sequence of listener calls: each call's `ContactEvents`, in call order |
| `ContactBridge.ContactLogTargetsOwners` | library/demo_physics/physics.js:41-47 | every event of a sequence of listener calls targets the owner of one of the called listeners |
| `ContactBridge.DispatchContacts` | library/demo_physics/physics.js:49-76 | the solver calling listeners one after another appends exactly `ContactLog` of those calls |
| `ContactBridge.ConcatAsWritten` | library/demo_physics/physics.js:44 | `[entityIdB].concat(params)`: an array is spread; an omitted argument becomes a second element `undefined` |
| `ContactBridge.ContactEventAsWritten` | library/demo_physics/physics.js:41-47 | as written, an event whose caller omits `params` carries `[otherId, undefined]` |
| `ContactBridge.OmittedParamsBecomeUndefined` | library/demo_physics/physics.js:52-74 | for begin, end and progress, the as-written generic event has exactly one `undefined` parameter more than the corrected one, so the two differ |
| `ShapeBuilder.CanCreateBody` | library/demo_physics/physics.js:88-92 | the guard: body, fixture and transform present, and at least one of box, circle and convex polygon |
| `ShapeBuilder.CreateShape` | library/demo_physics/physics.js:79-118 | a shape exists iff body, fixture and transform are present and some shape component is. The descriptor carries friction, density, category and mask bits and the sensor flag. A circle gives a circle shape with its radius, even when a box or polygon is present. Otherwise a box gives `createBoxVertices(w, h)`. Otherwise the vertices are `[polygon.vertices]` |
| `ShapeBuilder.ShapeFollowsFirstPresentVariant` | library/demo_physics/physics.js:107-118 | with body, fixture and transform present, a shape is built iff some variant is present, and it describes the first one in the order circle, box, polygon |
| `PhysicsWorld.RemoveBody` | library/demo_physics/physics.js:128 | `destroyBody(id)` keeps exactly the bodies not owned by `id` |
| `PhysicsWorld.RemoveAll` | library/demo_physics/physics.js:126-130 | the bodies left after `destroyBody` for each queued id in turn |
| `PhysicsWorld.NewBody` | library/demo_physics/physics.js:122 | the body `createBodyDef` is assumed to add: owned by the entity, static iff the body component is, awake, posed by the transform, with the given shapes |
| `PhysicsWorld.RemoveAbsentBody` | library/demo_physics/physics.js:128 | destroying the body of an entity that has none leaves the world unchanged |
| `PhysicsWorld.RemoveBodyIdempotent` | library/demo_physics/physics.js:128 | destroying the same entity twice is the same as destroying it once |
| `PhysicsWorld.RemoveAllRemovesQueued` | library/demo_physics/physics.js:126-130 | after draining a queue, exactly the bodies not owned by a queued entity remain |
| `PhysicsWorld.World.constructor` | library/demo_physics/physics.js:169 | `createWorld(gravity, scale)` yields an empty world with that gravity and scale |
| `PhysicsWorld.World.CreateBodyDef` | library/demo_physics/physics.js:122 | logs the call and adds one body owned by the entity, posed by the transform |
| `PhysicsWorld.World.DestroyBody` | library/demo_physics/physics.js:128 | logs the call and removes that entity's bodies |
| `PhysicsWorld.World.Step` | library/demo_physics/physics.js:231 | logs the step with its time argument; the bodies become the solver's outcome for the bodies it stepped |
| `StatePullBack.Eligible` | library/demo_physics/physics.js:138-149 | a body is copied back only if it is not static, not sleeping, has a truthy id and both coordinates are non-zero |
| `StatePullBack.Writes` | library/demo_physics/physics.js:138-149 | the full skip condition reversed: an eligible body whose entity has a transform in the table |
| `StatePullBack.PullBack` | library/demo_physics/physics.js:135-153 | the transform table after visiting the bodies in order, each eligible body with a transform setting that transform's translation and rotation |
| `StatePullBack.UpdatedIds` | library/demo_physics/physics.js:135-156 | the `updateWorldTransform` ids of that pass, one per writing body, in body order |
| `StatePullBack.PullBackKeepsKeys` | library/demo_physics/physics.js:147-153 | the pull-back never adds or removes a transform |
| `StatePullBack.PullBackLeavesUntouched` | library/demo_physics/physics.js:138-149 | a transform is unchanged when no eligible body refers to it. A body is ineligible when it is static, sleeping, id-less, or has a zero coordinate. Bodies of other entities never change it |
| `StatePullBack.PullBackCopiesPose` | library/demo_physics/physics.js:146-153 | with one body per entity, an eligible body whose entity has a transform sets that translation to the body's position and the rotation to its rotation; other transform fields are kept |
| `StatePullBack.UpdatedIdsExactlyWritten` | library/demo_physics/physics.js:149-155 | `updateWorldTransform(id)` is called iff some body of `id` writes its pose |
| `StatePullBack.UpdatedIdsAtMostOnce` | library/demo_physics/physics.js:151-155 | with one body per entity, each entity's world transform is refreshed at most once per pass |
| `Physics.CreateContactListener` | library/demo_physics/physics.js:49-77 | the shape gains exactly the four listeners of its entity; its kind and descriptor are unchanged |
| `Physics.BodyDefCall` | library/demo_physics/physics.js:79-123 | a `createBodyDef` call exists iff the guard holds. It takes the entity id, the body component, the transform and a one-element shape list built from the fixture, and that shape already carries its listeners, with the kind and descriptor `CreateShape` gives |
| `Physics.CreateBody` | library/demo_physics/physics.js:79-123 | when the guard fails, the world is unchanged. Otherwise exactly one `createBodyDef` call is logged and one body added. The entity manager is not touched |
| `Physics.DestroyCalls` | library/demo_physics/physics.js:126-130 | one `destroyBody` per queued id, in queue order |
| `Physics.DestroyBodies` | library/demo_physics/physics.js:126-130 | logs `destroyBody` for every queued id in order, and removes those entities' bodies |
| `Physics.IncrementState` | library/demo_physics/physics.js:132-157 | the transform table becomes `PullBack` of the bodies, and the refresh log gains `UpdatedIds`, in body order |
| `Physics.ProcessCalls` | library/demo_physics/physics.js:226-231 | the world calls of one `process`: a `destroyBody` per queued id, then `step(deltaTimeInMs)` |
| `Physics.DrainPrecedesStep` | library/demo_physics/physics.js:226-231 | the world calls `process` makes itself are the queued destroys, in order, then one step with `deltaTimeInMs` unchanged; `process` itself creates no body |
| `Physics.PhysicsSystem.constructor` | library/demo_physics/physics.js:34-39 | no world yet, empty removal queue |
| `Physics.PhysicsSystem.Init` | library/demo_physics/physics.js:165-173 | reuses `physicsWorlds.main` when set; otherwise creates a fresh world from the config and stores it there; afterwards `world == physicsWorlds.main` |
| `Physics.PhysicsSystem.OnEntityRemoved` | library/demo_physics/physics.js:176 | the id is appended to the queue; nothing else, and not the world, changes |
| `Physics.PhysicsSystem.Process` | library/demo_physics/physics.js:221-234 | the world log gains the queued destroys, then one step. The step sees the drained world and yields the solver's bodies. The event log gains the events of the listener calls made during the step, and only those (events the handlers trigger themselves are left out). The queue ends holding exactly the ids removed during the step. Transforms and refreshes follow the pull-back of the stepped bodies over the table the handlers left |
| `Visibility.VisibilitySystem.constructor` | library/spell/system/visibility.js:112-122 | the configured screen size, no current camera, both pass maps empty |
| `Visibility.VisibilitySystem.OnScreenResize` | library/spell/system/visibility.js:23-28 | the screen size becomes the given size; nothing else changes |
| `Visibility.VisibilitySystem.OnCameraChanged` | library/spell/system/visibility.js:33-38 | the current camera is the entity when the camera is active, and undefined otherwise |
| `Visibility.VisibilitySystem.OnVisualObjectCreated` | library/spell/system/visibility.js:44-71 | no visual object or pass `world`: no change. A missing composite component throws, with no change. Pass `ui` or `background`: exactly that map gains `{children, layer, id, parent}` under the id, and the other map is kept. Any other pass: no change. Entries stay filed under their own id |
| `Visibility.CameraKey` | library/spell/system/visibility.js:87-89 | the property key of the camera and transform lookups: the current camera id, or `"undefined"` when it is undefined |
| `Visibility.VisibilitySystem.Process` | library/spell/system/visibility.js:86-102 | with no camera or no transform for the current camera id, nothing on `spell` is written. Otherwise it publishes the region query's answer and both pass maps unchanged |

## Left out

- Event-bus subscription and unsubscription in `init` and `destroy` of both systems: registration glue. The handlers are modelled as the methods they bind (`CreateBody`, `OnEntityRemoved`, and the visibility handlers).
- The empty `activate` and `deactivate` hooks of both systems: they have no behaviour.
- The solver's numerics: integration, contact detection, sleeping, and the geometry `createBoxVertices` produces. What the step makes of the bodies, and which listener calls it makes, are inputs of `Process`.
- `PhysicsWorld.World.CreateBodyDef` and `PhysicsWorld.World.DestroyBody`: solver calls whose real effect is foreign. The model assumes that `createBodyDef` adds one body owned by the entity and that `destroyBody` removes the bodies owned by that id.
- The `bodies` argument of `incrementState` (`this.bodies`, never read) and the `timeInMs` argument of `process` (never read) carry no behaviour.
- Aliasing: the JavaScript shares one transform object between the entity and `createBodyDef`. It also shares the pass maps between the visibility system and `spell`. The begin listener also keeps a reference to the contact trigger component and re-reads its `eventId` and `parameters` at every contact, so an in-place change to it alters later trigger events. The model copies values, so a handler's later update is not seen through `spell` until the next `process`.
- The removal handler binds `Array.prototype.push`, which appends every argument it receives. The model assumes the removal notification passes only the entity id.
- In visibility's `process`, three steps are not modelled: the aspect-ratio division, `createEffectiveCameraDimensions` (its source is not part of this model) and `getEntityIdsByRegion`. They are folded into the `regionQuery` parameter, which receives the camera translation, the camera, its scale and the screen size.
- `Physics.PhysicsSystem.Process`: entities that event handlers create during the step are not modelled. Their `createBodyDef` calls would enter the world log between the drain and the pull-back, so `DrainPrecedesStep` speaks only of the calls `process` makes itself. The listener calls, the removals, the transform table the handlers leave and the solver's result are inputs. They are not derived from the world's bodies and their listeners, nor from each other: the model does not tie a removed entity to a missing transform. The `triggerEvent` and `updateWorldTransform` calls that the step's event handlers make themselves are not modelled either: the contract's event log holds only the listener events, and its refresh log only the pull-back's `UpdatedIds`.
- `StatePullBack.PullBackCopiesPose` and `StatePullBack.UpdatedIdsAtMostOnce` assume one body per entity (`UniqueOwners`). Nothing in the model establishes this: `createBodyDef` appends without a check, and the solver's result is an input. With several bodies, the last writing body of an entity decides its pose. That case is covered only by the definition of `PullBack`, not by a lemma.
- A contact trigger without `parameters`: `contactTrigger.parameters.split(',')` then throws after `onBeginContact` was already triggered. The model's trigger always has a parameter string.
- Floating-point positions and angles (integers here), and `NaN` as a falsy coordinate.
- `library/demo_box2d/bodyTest.js` (input, audio and impulses of a demo) and `library/demo_physics/moonEventHandler.js` (empty handlers) are not part of this model.

## Findings

| source | as written | input that shows it | evidently intended | confidence | as-written member | corrected member |
|---|---|---|---|---|---|---|
| library/demo_physics/physics.js:44 | `[ entityIdB ].concat( params )` with `params` omitted by the begin, end and progress listeners | an `end` contact with other entity `"b"` triggers `onEndContact` with params `["b", undefined]`, two elements | params `["b"]`, the other entity's id alone | not executed; follows from JavaScript `concat`, which appends a non-array argument, `undefined` included | `ContactBridge.ContactEventAsWritten` (shown by `ContactBridge.OmittedParamsBecomeUndefined`) | `ContactBridge.ContactEvent`, used by `ContactBridge.ContactEvents` and `ContactBridge.OnContact` |
