/** The component values the game attaches to entities, the closed set of
    renderer shapes, and the entity record itself. The entity store is a
    sequence of such records, in spawn order. */
module Components {
  import opened Wrappers

  /** Where an entity sits (world or screen coordinates). */
  datatype Position = Position(x: real, y: real)

  datatype Velocity = Velocity(x: real, y: real)

  /** A body that attracts and that the ship crashes into. */
  datatype Celestial = Celestial(mass: real, radius: real)

  /** The piloted craft: its facing angle and its tank. */
  datatype SpaceShip = SpaceShip(angle: real, fuel: real, initialFuel: real)

  /** The goal rectangle's extents; its Position is the top-left corner. */
  datatype EndZone = EndZone(width: real, height: real)

  /** What a renderer draws. */
  datatype Shape =
    | Sprite(image: string)
    | Rect(width: real, height: real, color: string)
    | Text(text: string, color: string, style: string)

  /** A renderer: its shape, its draw order and whether it is drawn in screen
      space, ignoring the camera. */
  datatype Renderer = Renderer(shape: Shape, z: int, fixed: bool)

  /** The draw order and fixed flag a renderer carries when freshly built by
      the renderer module's constructors, which are not part of this model. */
  datatype Fresh = Fresh(z: int, fixed: bool)

  /** `Renderer::sprite`: a freshly built sprite renderer. */
  function SpriteRenderer(image: string, made: Fresh): Renderer {
    Renderer(Sprite(image), made.z, made.fixed)
  }

  /** `Renderer::rect`: a freshly built filled-rectangle renderer. */
  function RectRenderer(width: real, height: real, color: string, made: Fresh): Renderer {
    Renderer(Rect(width, height, color), made.z, made.fixed)
  }

  /** `set_z`: only the draw order changes. */
  function SetZ(r: Renderer, z: int): Renderer {
    r.(z := z)
  }

  /** `set_fixed`: only the screen-space flag changes. */
  function SetFixed(r: Renderer, fixed: bool): Renderer {
    r.(fixed := fixed)
  }

  /** One row of the entity store: each component is present or absent, and
      `fuelHud` is the FuelHUD marker. */
  datatype Entity = Entity(
    renderer: Option<Renderer>,
    position: Option<Position>,
    velocity: Option<Velocity>,
    spaceShip: Option<SpaceShip>,
    celestial: Option<Celestial>,
    endZone: Option<EndZone>,
    fuelHud: bool)

  /** An entity with no components at all. */
  const Bare := Entity(None, None, None, None, None, None, false)

  /** The entity store: entities in spawn order. */
  type World = seq<Entity>
}
