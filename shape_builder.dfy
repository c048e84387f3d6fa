/** Body-creation guard and the shape descriptor `createBody` builds from an entity's components. */
module ShapeBuilder {
  import opened Common
  import opened Components
  import opened ContactBridge

  /** The argument of `Physics.createMaterial`. */
  datatype Material = Material(dynamicFriction: int, density: int)

  /**
   * The `vertices` of a polygon descriptor: the solver's `createBoxVertices(w, h)`
   * (kept symbolic, its geometry is the solver's) or a list of vertex lists.
   */
  datatype Vertices = BoxVertices(width: int, height: int) | VertexLists(lists: seq<seq<Vec2>>)

  /** The `shapeDef` object; `radius` and `vertices` are set only by their own branch. */
  datatype ShapeDef = ShapeDef(
    material: Material, group: int, mask: int, sensor: bool,
    radius: Option<int>, vertices: Option<Vertices>)

  /** Which of `createCircleShape` and `createPolygonShape` made the shape. */
  datatype ShapeKind = CircleKind | PolygonKind

  /** A solver shape: its descriptor and the contact listeners attached to it. */
  datatype Shape = Shape(kind: ShapeKind, def: ShapeDef, listeners: seq<ContactHandler>)

  /** The guard of `createBody`: body, fixture, transform and at least one shape are present. */
  predicate CanCreateBody(e: Entity)
  {
    e.body.Some? && e.fixture.Some? && e.transform.Some?
    && (e.boxShape.Some? || e.circleShape.Some? || e.convexPolygonShape.Some?)
  }

  /** The fixture's part of the descriptor: material, collision filter and sensor flag. */
  predicate CarriesFixture(d: ShapeDef, f: Fixture)
  {
    d.material == Material(f.friction, f.density)
    && d.group == f.categoryBits && d.mask == f.maskBits && d.sensor == f.isSensor
  }

  /**
   * The shape `createBody` builds for an entity, before listeners are attached, or
   * None when the guard fails. A circle wins over a box, and a box over a polygon.
   */
  function CreateShape(e: Entity): (r: Option<Shape>)
    ensures r.Some? <==> CanCreateBody(e)
    ensures r.Some? ==> CarriesFixture(r.value.def, e.fixture.value) && r.value.listeners == []
    ensures r.Some? && e.circleShape.Some? ==>
              r.value.kind == CircleKind && r.value.def.radius == Some(e.circleShape.value.radius)
              && r.value.def.vertices.None?
    ensures r.Some? && e.circleShape.None? && e.boxShape.Some? ==>
              r.value.kind == PolygonKind && r.value.def.radius.None?
              && r.value.def.vertices == Some(BoxVertices(e.boxShape.value.dimensions.x, e.boxShape.value.dimensions.y))
    ensures r.Some? && e.circleShape.None? && e.boxShape.None? ==>
              r.value.kind == PolygonKind && r.value.def.radius.None?
              && r.value.def.vertices == Some(VertexLists([e.convexPolygonShape.value.vertices]))
  {
    if !CanCreateBody(e) then None
    else
      var f := e.fixture.value;
      var base := ShapeDef(Material(f.friction, f.density), f.categoryBits, f.maskBits, f.isSensor, None, None);
      if e.circleShape.Some? then
        Some(Shape(CircleKind, base.(radius := Some(e.circleShape.value.radius)), []))
      else
        var vertices :=
          if e.boxShape.Some? then BoxVertices(e.boxShape.value.dimensions.x, e.boxShape.value.dimensions.y)
          else VertexLists([e.convexPolygonShape.value.vertices]);
        Some(Shape(PolygonKind, base.(vertices := Some(vertices)), []))
  }

  /** The shape components as a tagged union. */
  datatype ShapeVariant = CircleVariant(circle: CircleShape) | BoxVariant(box: BoxShape) | PolygonVariant(polygon: ConvexPolygonShape)

  /** The shape components present on an entity. */
  function PresentVariants(e: Entity): (vs: seq<ShapeVariant>)
    ensures |vs| <= 3
  {
    (if e.circleShape.Some? then [CircleVariant(e.circleShape.value)] else [])
    + (if e.boxShape.Some? then [BoxVariant(e.boxShape.value)] else [])
    + (if e.convexPolygonShape.Some? then [PolygonVariant(e.convexPolygonShape.value)] else [])
  }

  /** Geometry of a descriptor built from one variant alone. */
  predicate DescribesVariant(s: Shape, v: ShapeVariant)
  {
    match v
    case CircleVariant(c) => s.kind == CircleKind && s.def.radius == Some(c.radius) && s.def.vertices.None?
    case BoxVariant(b) =>
      s.kind == PolygonKind && s.def.radius.None? && s.def.vertices == Some(BoxVertices(b.dimensions.x, b.dimensions.y))
    case PolygonVariant(p) =>
      s.kind == PolygonKind && s.def.radius.None? && s.def.vertices == Some(VertexLists([p.vertices]))
  }

  /**
   * Given body, fixture and transform, a shape is built exactly when some variant
   * is present, and it describes the variant that comes first in the order
   * circle, box, polygon. With exactly one variant present, that variant decides.
   */
  lemma ShapeFollowsFirstPresentVariant(e: Entity)
    requires e.body.Some? && e.fixture.Some? && e.transform.Some?
    ensures CreateShape(e).Some? <==> |PresentVariants(e)| >= 1
    ensures CreateShape(e).Some? ==> DescribesVariant(CreateShape(e).value, PresentVariants(e)[0])
  {
  }
}
