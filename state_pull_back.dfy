/** What `incrementState` does to the transform table: the solver's pose copied into transforms. */
module StatePullBack {
  import opened Common
  import opened Components
  import opened PhysicsWorld

  /**
   * A body whose pose is copied back, the transform table aside: not static, not
   * sleeping, a truthy entity id, and both coordinates truthy (a zero coordinate is falsy).
   */
  predicate Eligible(b: RigidBody)
  {
    !b.isStatic && !b.sleeping && b.userData.Some? && b.userData.value != ""
    && b.position.x != 0 && b.position.y != 0
  }

  /** The body's pose is written when it is eligible and its entity has a transform. */
  predicate Writes(b: RigidBody, transforms: map<EntityId, Transform>)
  {
    Eligible(b) && b.userData.value in transforms
  }

  /** A transform with translation and rotation taken from the body, other fields kept. */
  function Posed(t: Transform, b: RigidBody): Transform
  {
    t.(translation := b.position, rotation := b.rotation)
  }

  /** The effect of one iteration of the loop on the table. */
  function Apply(b: RigidBody, transforms: map<EntityId, Transform>): map<EntityId, Transform>
  {
    if Writes(b, transforms) then
      transforms[b.userData.value := Posed(transforms[b.userData.value], b)]
    else transforms
  }

  /** The table after visiting every body of `bodies` in order. */
  function PullBack(bodies: seq<RigidBody>, transforms: map<EntityId, Transform>): map<EntityId, Transform>
    decreases |bodies|
  {
    if bodies == [] then transforms
    else Apply(bodies[|bodies| - 1], PullBack(bodies[..|bodies| - 1], transforms))
  }

  /** The `updateWorldTransform` calls made while visiting `bodies`, in order. */
  function UpdatedIds(bodies: seq<RigidBody>, transforms: map<EntityId, Transform>): seq<EntityId>
    decreases |bodies|
  {
    if bodies == [] then []
    else
      var front := bodies[..|bodies| - 1];
      var b := bodies[|bodies| - 1];
      UpdatedIds(front, transforms)
      + (if Writes(b, PullBack(front, transforms)) then [b.userData.value] else [])
  }

  /** At most one body per entity, as the solver keeps it. */
  predicate UniqueOwners(bodies: seq<RigidBody>)
  {
    forall i, j :: 0 <= i < j < |bodies| && bodies[i].userData.Some? ==> bodies[i].userData != bodies[j].userData
  }

  /** The pull-back never adds or drops an entity's transform. */
  lemma {:induction false} PullBackKeepsKeys(bodies: seq<RigidBody>, transforms: map<EntityId, Transform>)
    ensures PullBack(bodies, transforms).Keys == transforms.Keys
    decreases |bodies|
  {
    if bodies != [] {
      PullBackKeepsKeys(bodies[..|bodies| - 1], transforms);
    }
  }

  /**
   * A transform that no eligible body refers to is left as it was: static, sleeping
   * and zero-coordinate bodies, and bodies of other entities, never change it.
   */
  lemma {:induction false} PullBackLeavesUntouched(bodies: seq<RigidBody>, transforms: map<EntityId, Transform>, id: EntityId)
    requires id in transforms
    requires forall i :: 0 <= i < |bodies| && bodies[i].userData == Some(id) ==> !Eligible(bodies[i])
    ensures id in PullBack(bodies, transforms) && PullBack(bodies, transforms)[id] == transforms[id]
    decreases |bodies|
  {
    if bodies != [] {
      PullBackLeavesUntouched(bodies[..|bodies| - 1], transforms, id);
    }
  }

  /**
   * With one body per entity, an eligible body whose entity has a transform leaves
   * that transform with exactly the body's position and rotation.
   */
  lemma {:induction false} PullBackCopiesPose(bodies: seq<RigidBody>, transforms: map<EntityId, Transform>, k: nat)
    requires UniqueOwners(bodies)
    requires k < |bodies| && Writes(bodies[k], transforms)
    ensures var id := bodies[k].userData.value;
            id in PullBack(bodies, transforms) && PullBack(bodies, transforms)[id] == Posed(transforms[id], bodies[k])
    decreases |bodies|
  {
    var front := bodies[..|bodies| - 1];
    var last := bodies[|bodies| - 1];
    var id := bodies[k].userData.value;
    PullBackKeepsKeys(front, transforms);
    if k == |bodies| - 1 {
      forall i | 0 <= i < |front|
        ensures front[i].userData != Some(id)
      {
        assert front[i] == bodies[i];
      }
      PullBackLeavesUntouched(front, transforms, id);
    } else {
      assert UniqueOwners(front) by {
        forall i, j | 0 <= i < j < |front| && front[i].userData.Some?
          ensures front[i].userData != front[j].userData
        {
          assert front[i] == bodies[i] && front[j] == bodies[j];
        }
      }
      assert front[k] == bodies[k];
      PullBackCopiesPose(front, transforms, k);
      assert last.userData != Some(id);
    }
  }

  /** With one body per entity, each entity's world transform is refreshed at most once per pass. */
  lemma {:induction false} UpdatedIdsAtMostOnce(bodies: seq<RigidBody>, transforms: map<EntityId, Transform>, id: EntityId)
    requires UniqueOwners(bodies)
    ensures multiset(UpdatedIds(bodies, transforms))[id] <= 1
    decreases |bodies|
  {
    if bodies != [] {
      var front := bodies[..|bodies| - 1];
      var last := bodies[|bodies| - 1];
      assert UniqueOwners(front) by {
        forall i, j | 0 <= i < j < |front| && front[i].userData.Some?
          ensures front[i].userData != front[j].userData
        {
          assert front[i] == bodies[i] && front[j] == bodies[j];
        }
      }
      UpdatedIdsAtMostOnce(front, transforms, id);
      var tail := if Writes(last, PullBack(front, transforms)) then [last.userData.value] else [];
      assert UpdatedIds(bodies, transforms) == UpdatedIds(front, transforms) + tail;
      if tail == [id] {
        forall k | 0 <= k < |front|
          ensures front[k].userData != Some(id)
        {
          assert front[k] == bodies[k];
        }
        UpdatedIdsExactlyWritten(front, transforms, id);
      }
    }
  }

  /** An entity's world transform is refreshed exactly when one of its bodies writes its pose. */
  lemma {:induction false} UpdatedIdsExactlyWritten(bodies: seq<RigidBody>, transforms: map<EntityId, Transform>, id: EntityId)
    ensures id in UpdatedIds(bodies, transforms)
            <==> exists k :: 0 <= k < |bodies| && bodies[k].userData == Some(id) && Writes(bodies[k], transforms)
    decreases |bodies|
  {
    if bodies != [] {
      var front := bodies[..|bodies| - 1];
      var last := bodies[|bodies| - 1];
      UpdatedIdsExactlyWritten(front, transforms, id);
      PullBackKeepsKeys(front, transforms);
      assert Writes(last, PullBack(front, transforms)) == Writes(last, transforms);
      if exists k :: 0 <= k < |bodies| && bodies[k].userData == Some(id) && Writes(bodies[k], transforms) {
        var k :| 0 <= k < |bodies| && bodies[k].userData == Some(id) && Writes(bodies[k], transforms);
        if k < |front| {
          assert front[k] == bodies[k];
        }
      }
      if exists k :: 0 <= k < |front| && front[k].userData == Some(id) && Writes(front[k], transforms) {
        var k :| 0 <= k < |front| && front[k].userData == Some(id) && Writes(front[k], transforms);
        assert bodies[k] == front[k];
      }
    }
  }
}
