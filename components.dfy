/** The entity components the physics system reads (body, fixture, shapes, transform, trigger). */
module Components {
  import opened Common

  datatype BodyKind = Static | Dynamic | Kinematic

  /** Authored body data: its kind and initial velocity. */
  datatype BodyComponent = BodyComponent(kind: BodyKind, velocity: Vec2)

  /** Material and collision-filter data of the body's one fixture. */
  datatype Fixture = Fixture(friction: int, density: int, categoryBits: int, maskBits: int, isSensor: bool)

  datatype BoxShape = BoxShape(dimensions: Vec2)
  datatype CircleShape = CircleShape(radius: int)
  datatype ConvexPolygonShape = ConvexPolygonShape(vertices: seq<Vec2>)

  /** Pose of an entity; `scale` stands for the fields the physics system never writes. */
  datatype Transform = Transform(translation: Vec2, rotation: int, scale: Vec2)

  /** An author-configured event fired on every begin contact, with comma-separated parameters. */
  datatype ContactTrigger = ContactTrigger(eventId: string, parameters: string)

  /** The components of one entity as delivered with its creation notification. */
  datatype Entity = Entity(
    body: Option<BodyComponent>,
    fixture: Option<Fixture>,
    boxShape: Option<BoxShape>,
    circleShape: Option<CircleShape>,
    convexPolygonShape: Option<ConvexPolygonShape>,
    transform: Option<Transform>,
    contactTrigger: Option<ContactTrigger>)
}
