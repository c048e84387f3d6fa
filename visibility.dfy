/**
 * The visibility system's bookkeeping: screen size, the active camera, the
 * entities drawn in the ui and background passes, and what `process` publishes.
 */
module Visibility {
  import opened Common
  import opened Components

  datatype Camera = Camera(active: bool, width: int, height: int)
  datatype VisualObject = VisualObject(pass: string, layer: int)
  datatype Composite = Composite(childrenIds: seq<EntityId>, parentId: Option<EntityId>)

  /** The components of a newly created entity that the visual-object handler reads. */
  datatype VisualEntity = VisualEntity(visualObject: Option<VisualObject>, composite: Option<Composite>)

  /** The `entityInfo` record of a ui or background pass entry. */
  datatype EntityInfo = EntityInfo(children: seq<EntityId>, layer: int, id: EntityId, parent: Option<EntityId>)

  /** The key a JavaScript object lookup uses: an undefined id reads property "undefined". */
  function CameraKey(id: Option<EntityId>): EntityId
  {
    match id
    case None => "undefined"
    case Some(k) => k
  }

  /** The fields of the shared `spell` object that `process` writes; None until written. */
  class SpellFrame {
    var worldPassEntities: Option<seq<EntityId>>
    var uiPassEntities: Option<map<EntityId, EntityInfo>>
    var backgroundPassEntities: Option<map<EntityId, EntityInfo>>

    constructor ()
      ensures worldPassEntities.None? && uiPassEntities.None? && backgroundPassEntities.None?
    {
      worldPassEntities := None;
      uiPassEntities := None;
      backgroundPassEntities := None;
    }
  }

  class VisibilitySystem {
    var screenSize: Vec2
    var currentCameraId: Option<EntityId>
    var uiPassEntities: map<EntityId, EntityInfo>
    var backgroundPassEntities: map<EntityId, EntityInfo>

    /** Every pass entry is filed under the id of the entity it describes. */
    predicate EntriesKeyedById()
      reads this
    {
      && (forall k :: k in uiPassEntities ==> uiPassEntities[k].id == k)
      && (forall k :: k in backgroundPassEntities ==> backgroundPassEntities[k].id == k)
    }

    /** The constructor; `currentScreenSize` is the configuration value of that name. */
    constructor (currentScreenSize: Vec2)
      ensures screenSize == currentScreenSize && currentCameraId.None?
      ensures uiPassEntities == map[] && backgroundPassEntities == map[]
      ensures EntriesKeyedById()
    {
      screenSize := currentScreenSize;
      currentCameraId := None;
      uiPassEntities := map[];
      backgroundPassEntities := map[];
    }

    /** The screen-resize handler. */
    method OnScreenResize(size: Vec2)
      modifies this`screenSize
      ensures screenSize == size
    {
      screenSize := size;
    }

    /** The camera handler, run when a camera component is created or updated. */
    method OnCameraChanged(camera: Camera, entityId: EntityId)
      modifies this`currentCameraId
      ensures currentCameraId == if camera.active then Some(entityId) else None
    {
      currentCameraId := if camera.active then Some(entityId) else None;
    }

    /**
     * The visual-object handler. An entity without a visual object, or drawn in the
     * world pass, is ignored. Any other entity must have a composite component (else
     * the lookup of its children throws, `thrown`, before anything changes); its
     * record goes into the ui or background map by pass, and any other pass is ignored.
     */
    method OnVisualObjectCreated(entityId: EntityId, entity: VisualEntity) returns (thrown: bool)
      modifies this`uiPassEntities, this`backgroundPassEntities
      ensures old(EntriesKeyedById()) ==> EntriesKeyedById()
      ensures thrown <==> entity.visualObject.Some? && entity.visualObject.value.pass != "world" && entity.composite.None?
      ensures (thrown || entity.visualObject.None? || entity.visualObject.value.pass !in {"ui", "background"})
              ==> uiPassEntities == old(uiPassEntities) && backgroundPassEntities == old(backgroundPassEntities)
      ensures !thrown && entity.visualObject.Some? && entity.visualObject.value.pass in {"ui", "background"} ==>
                var info := EntityInfo(entity.composite.value.childrenIds, entity.visualObject.value.layer,
                                       entityId, entity.composite.value.parentId);
                if entity.visualObject.value.pass == "ui" then
                  uiPassEntities == old(uiPassEntities)[entityId := info] && backgroundPassEntities == old(backgroundPassEntities)
                else
                  backgroundPassEntities == old(backgroundPassEntities)[entityId := info] && uiPassEntities == old(uiPassEntities)
    {
      thrown := false;
      if entity.visualObject.None? || entity.visualObject.value.pass == "world" {
        return;
      }
      var visualObject := entity.visualObject.value;
      if entity.composite.None? {
        thrown := true;
        return;
      }
      var composite := entity.composite.value;
      var info := EntityInfo(composite.childrenIds, visualObject.layer, entityId, composite.parentId);
      if visualObject.pass == "ui" {
        uiPassEntities := uiPassEntities[entityId := info];
      } else if visualObject.pass == "background" {
        backgroundPassEntities := backgroundPassEntities[entityId := info];
      }
    }

    /**
     * `process`. Without a camera and a transform for the current camera id it
     * writes nothing. Otherwise it publishes the region query's answer as the world
     * pass and its own ui and background maps unchanged. `regionQuery` stands for
     * `getEntityIdsByRegion` applied to the camera translation and the effective
     * camera dimensions, which are computed from the camera, its scale and the screen size.
     */
    method Process(spell: SpellFrame, cameras: map<EntityId, Camera>, transforms: map<EntityId, Transform>,
                   regionQuery: (Vec2, Camera, Vec2, Vec2) -> seq<EntityId>)
      modifies spell
      ensures var key := CameraKey(currentCameraId);
              if key in cameras && key in transforms then
                spell.worldPassEntities == Some(regionQuery(transforms[key].translation, cameras[key], transforms[key].scale, screenSize))
                && spell.uiPassEntities == Some(uiPassEntities)
                && spell.backgroundPassEntities == Some(backgroundPassEntities)
              else
                spell.worldPassEntities == old(spell.worldPassEntities)
                && spell.uiPassEntities == old(spell.uiPassEntities)
                && spell.backgroundPassEntities == old(spell.backgroundPassEntities)
    {
      var key := CameraKey(currentCameraId);
      if key !in cameras || key !in transforms {
        return;
      }
      var camera := cameras[key];
      var transform := transforms[key];
      spell.worldPassEntities := Some(regionQuery(transform.translation, camera, transform.scale, screenSize));
      spell.uiPassEntities := Some(uiPassEntities);
      spell.backgroundPassEntities := Some(backgroundPassEntities);
    }
  }
}
