/** The constructors that build the component bundle of each kind of level
    entity. */
module Common {
  import opened Wrappers
  import opened Components
  import Input
  import Hud

  /** Colour of the end zone's translucent rectangle. */
  const EndZoneColor: string := "rgba(250, 126, 55, 0.7)"
  /** Side of the square end zone. */
  const EndZoneSide: real := 100.0

  /** The static backdrop: the space sprite at the screen origin, drawn first
      and in screen space, whatever the renderer constructor's defaults. */
  function Background(made: Fresh): (e: Entity)
    ensures e.renderer.Some? && e.renderer.value.shape == Sprite("space.png")
    ensures e.renderer.value.z == -100 && e.renderer.value.fixed
    ensures e.position == Some(Position(0.0, 0.0))
    ensures e.velocity.None? && e.spaceShip.None? && e.celestial.None? && e.endZone.None? && !e.fuelHud
  {
    var renderer := SetFixed(SetZ(SpriteRenderer("space.png", made), -100), true);
    Bare.(renderer := Some(renderer), position := Some(Position(0.0, 0.0)))
  }

  /** The piloted craft at (x, y) moving at (vx, vy), facing angle 0, with a
      full tank of `fuel`. */
  function Spaceship(x: real, y: real, vx: real, vy: real, fuel: real, made: Fresh): (e: Entity)
    ensures e.renderer.Some? && e.renderer.value.shape == Sprite("spaceship.png")
    ensures e.position == Some(Position(x, y)) && e.velocity == Some(Velocity(vx, vy))
    ensures e.spaceShip.Some? && e.spaceShip.value.angle == 0.0
    ensures e.spaceShip.value.fuel == fuel && e.spaceShip.value.initialFuel == fuel
    ensures e.celestial.None? && e.endZone.None? && !e.fuelHud
  {
    Bare.(renderer := Some(SpriteRenderer("spaceship.png", made)),
          position := Some(Position(x, y)),
          velocity := Some(Velocity(vx, vy)),
          spaceShip := Some(SpaceShip(0.0, fuel, fuel)))
  }

  /** A freshly built craft is one the input system steers, and with a
      non-empty tank it shows a full fuel gauge: height 96, top edge at 653. */
  lemma FreshShipIsFlownAndFull(x: real, y: real, vx: real, vy: real, fuel: real, made: Fresh, gauge: Entity)
    requires fuel > 0.0 && Hud.IsGauge(gauge)
    ensures Input.Piloted(Spaceship(x, y, vx, vy, fuel, made))
    ensures var shown := Hud.ShowFuel(gauge, Spaceship(x, y, vx, vy, fuel, made).spaceShip.value);
      Hud.GaugeHeight(shown) == 96.0 && shown.position.value.y == 653.0
  {
  }

  /** A body that can attract and be crashed into: positive mass and a
      collision radius that is not negative. */
  predicate Attractor(e: Entity) {
    e.celestial.Some? && e.celestial.value.mass > 0.0 && e.celestial.value.radius >= 0.0
  }

  /** The earth sprite at (x, y): mass 5 and collision radius 100. */
  function Earth(x: real, y: real, made: Fresh): (e: Entity)
    ensures e.renderer.Some? && e.renderer.value.shape == Sprite("earth.png")
    ensures e.position == Some(Position(x, y))
    ensures e.celestial == Some(Celestial(5.0, 100.0))
    ensures Attractor(e)
    ensures e.velocity.None? && e.spaceShip.None? && e.endZone.None? && !e.fuelHud
  {
    Bare.(renderer := Some(SpriteRenderer("earth.png", made)),
          position := Some(Position(x, y)),
          celestial := Some(Celestial(5.0, 100.0)))
  }

  /** `p` lies strictly inside the zone whose top-left corner is `corner`. */
  predicate Inside(p: Position, corner: Position, zone: EndZone) {
    corner.x < p.x < corner.x + zone.width && corner.y < p.y < corner.y + zone.height
  }

  /** The goal square centred on (x, y): its top-left corner is half a side
      up and left of (x, y), so (x, y) is its centre and lies inside it, and
      its rectangle is drawn with exactly the zone's extents. */
  function EndZoneAt(x: real, y: real, made: Fresh): (e: Entity)
    ensures e.position.Some? && e.endZone.Some? && e.renderer.Some?
    ensures e.endZone.value == EndZone(EndZoneSide, EndZoneSide)
    ensures e.position.value.x + e.endZone.value.width / 2.0 == x
    ensures e.position.value.y + e.endZone.value.height / 2.0 == y
    ensures Inside(Position(x, y), e.position.value, e.endZone.value)
    ensures e.renderer.value.shape == Rect(e.endZone.value.width, e.endZone.value.height, EndZoneColor)
    ensures e.velocity.None? && e.spaceShip.None? && e.celestial.None? && !e.fuelHud
  {
    Bare.(renderer := Some(RectRenderer(EndZoneSide, EndZoneSide, EndZoneColor, made)),
          position := Some(Position(x - 50.0, y - 50.0)),
          endZone := Some(EndZone(EndZoneSide, EndZoneSide)))
  }
}
