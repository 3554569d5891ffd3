/** The fuel gauge: a filled rectangle whose height follows the ship's tank
    while its bottom edge stays put. */
module Hud {
  import opened Wrappers
  import opened Components

  /** Height of the gauge when the tank is full. */
  const BarHeight: real := 96.0
  /** Screen y of the gauge's top edge when the tank is full. */
  const BarTop: real := 653.0

  /** A tank the gauge can show. `max(fuel * 96 / initial, 0)` is 0 for an
      empty tank over a zero capacity (the quotient is NaN or negative
      infinity, which `max` discards); only positive fuel over a zero capacity
      yields an unbounded bar. */
  predicate Showable(fuel: real, initialFuel: real) {
    initialFuel != 0.0 || fuel <= 0.0
  }

  /** The gauge's height for a tank holding `fuel` out of `initialFuel`:
      the fuel's share of the full bar, never negative. */
  function FuelHeight(fuel: real, initialFuel: real): (h: real)
    requires Showable(fuel, initialFuel)
    ensures h >= 0.0
    ensures initialFuel > 0.0 && fuel >= 0.0 ==> h * initialFuel == fuel * BarHeight
    ensures initialFuel >= 0.0 && fuel <= 0.0 ==> h == 0.0
    ensures fuel == initialFuel && initialFuel != 0.0 ==> h == BarHeight
    ensures initialFuel > 0.0 && fuel <= initialFuel ==> h <= BarHeight
  {
    if initialFuel == 0.0 then 0.0
    else
      var share := (fuel * BarHeight) / initialFuel;
      ShareAtMost(fuel, initialFuel);
      if share > 0.0 then share else 0.0
  }

  /** A part no larger than the whole is at most the full bar. */
  lemma ShareAtMost(fuel: real, initialFuel: real)
    requires initialFuel != 0.0
    ensures 0.0 < initialFuel && fuel <= initialFuel ==> (fuel * BarHeight) / initialFuel <= BarHeight
  {
  }

  /** A fuller tank never shows a shorter bar. */
  lemma FuelHeightMonotone(f1: real, f2: real, initialFuel: real)
    requires initialFuel > 0.0 && f1 <= f2
    ensures FuelHeight(f1, initialFuel) <= FuelHeight(f2, initialFuel)
  {
  }

  /** The entities the system redraws: FuelHUD-tagged, with a Position and a
      rectangle renderer. */
  predicate IsGauge(e: Entity) {
    e.fuelHud && e.position.Some? && e.renderer.Some? && e.renderer.value.shape.Rect?
  }

  /** The gauge's height, for an entity that is a gauge. */
  function GaugeHeight(e: Entity): real
    requires IsGauge(e)
  {
    e.renderer.value.shape.height
  }

  /** Redraw one entity for `ship`'s tank: a gauge gets the bar's height and
      the top edge that keeps its bottom edge at BarTop + BarHeight; any other
      entity, including a FuelHUD entity drawn by a non-rectangle, is untouched. */
  function ShowFuel(e: Entity, ship: SpaceShip): (r: Entity)
    requires Showable(ship.fuel, ship.initialFuel)
    ensures !IsGauge(e) ==> r == e
    ensures IsGauge(r) == IsGauge(e)
    ensures IsGauge(e) ==> GaugeHeight(r) == FuelHeight(ship.fuel, ship.initialFuel)
    ensures IsGauge(e) ==> r.position.value.y + GaugeHeight(r) == BarTop + BarHeight
    ensures IsGauge(e) ==> r.position.value.x == e.position.value.x
    ensures IsGauge(e) ==>
      && r.renderer.value.shape.width == e.renderer.value.shape.width
      && r.renderer.value.shape.color == e.renderer.value.shape.color
      && r.renderer.value.z == e.renderer.value.z
      && r.renderer.value.fixed == e.renderer.value.fixed
    ensures r.velocity == e.velocity && r.spaceShip == e.spaceShip && r.celestial == e.celestial
    ensures r.endZone == e.endZone && r.fuelHud == e.fuelHud
  {
    if IsGauge(e) then
      var rd := e.renderer.value;
      var h := FuelHeight(ship.fuel, ship.initialFuel);
      e.(renderer := Some(rd.(shape := rd.shape.(height := h))),
         position := Some(e.position.value.(y := BarTop + (BarHeight - h))))
    else e
  }

  /** What a full and an empty tank show. */
  lemma GaugeExtremes(e: Entity, ship: SpaceShip)
    requires IsGauge(e) && ship.initialFuel >= 0.0 && Showable(ship.fuel, ship.initialFuel)
    ensures 0.0 < ship.initialFuel == ship.fuel ==>
      GaugeHeight(ShowFuel(e, ship)) == 96.0 && ShowFuel(e, ship).position.value.y == 653.0
    ensures ship.fuel <= 0.0 ==>
      GaugeHeight(ShowFuel(e, ship)) == 0.0 && ShowFuel(e, ship).position.value.y == 749.0
  {
  }

  /** Redrawing for a second ship erases every trace of the first: only the
      last tank read shows. */
  lemma ShowFuelOverwrites(e: Entity, s1: SpaceShip, s2: SpaceShip)
    requires Showable(s1.fuel, s1.initialFuel) && Showable(s2.fuel, s2.initialFuel)
    ensures ShowFuel(ShowFuel(e, s1), s2) == ShowFuel(e, s2)
  {
  }

  /** Every entity redrawn for `ship`. */
  function ShowAll(world: World, ship: SpaceShip): (r: World)
    requires Showable(ship.fuel, ship.initialFuel)
    ensures |r| == |world|
    ensures forall i :: 0 <= i < |world| ==> r[i] == ShowFuel(world[i], ship)
  {
    seq(|world|, i requires 0 <= i < |world| => ShowFuel(world[i], ship))
  }

  /** Every ship's tank is one the gauge can show. */
  predicate TanksDefined(world: World) {
    forall i :: 0 <= i < |world| && world[i].spaceShip.Some? ==>
      Showable(world[i].spaceShip.value.fuel, world[i].spaceShip.value.initialFuel)
  }

  /** The tank of the last entity among the first `n` that carries a
      SpaceShip, if any does. */
  function LastShip(world: World, n: nat): (r: Option<SpaceShip>)
    requires n <= |world|
    ensures r.None? <==> forall k :: 0 <= k < n ==> world[k].spaceShip.None?
    ensures r.Some? ==>
      exists k ::
        && 0 <= k < n && world[k].spaceShip == r
        && (forall j :: k < j < n ==> world[j].spaceShip.None?)
  {
    if n == 0 then None
    else if world[n - 1].spaceShip.Some? then world[n - 1].spaceShip
    else LastShip(world, n - 1)
  }

  /** The world once the system has read the tank `last`, or untouched if no
      ship has been read. */
  function Shown(world: World, last: Option<SpaceShip>): World
    requires last.Some? ==> Showable(last.value.fuel, last.value.initialFuel)
  {
    match last
    case None => world
    case Some(s) => ShowAll(world, s)
  }

  /** A ship's pass over the whole store replaces whatever an earlier pass
      showed. */
  lemma ShowAllOverwrites(world: World, last: Option<SpaceShip>, ship: SpaceShip)
    requires last.Some? ==> Showable(last.value.fuel, last.value.initialFuel)
    requires Showable(ship.fuel, ship.initialFuel)
    ensures ShowAll(Shown(world, last), ship) == ShowAll(world, ship)
  {
  }

  /** The inner loop of `system_hud`: redraws every gauge of the store for
      `ship`'s tank, in store order. */
  method RedrawGauges(world: World, ship: SpaceShip) returns (r: World)
    requires Showable(ship.fuel, ship.initialFuel)
    ensures r == ShowAll(world, ship)
  {
    r := world;
    var j := 0;
    while j < |r|
      invariant 0 <= j <= |r| == |world|
      invariant forall k :: 0 <= k < j ==> r[k] == ShowFuel(world[k], ship)
      invariant forall k :: j <= k < |r| ==> r[k] == world[k]
    {
      if IsGauge(r[j]) {
        var rd := r[j].renderer.value;
        var h := FuelHeight(ship.fuel, ship.initialFuel);
        r := r[j := r[j].(renderer := Some(rd.(shape := rd.shape.(height := h))),
                          position := Some(r[j].position.value.(y := BarTop + (BarHeight - h))))];
      }
      j := j + 1;
    }
  }

  /** Some entity carries a SpaceShip. */
  predicate HasShip(world: World) {
    exists k :: 0 <= k < |world| && world[k].spaceShip.Some?
  }

  /** `system_hud`: for every ship in turn, redraw every gauge for that ship's
      tank. Each ship's pass overwrites the previous one, so the gauges end up
      showing the tank of the last ship in the store; with no ship the world is
      unchanged. */
  method SystemHud(world: World) returns (r: World)
    requires TanksDefined(world)
    ensures |r| == |world|
    ensures !HasShip(world) ==> r == world
    ensures forall i :: 0 <= i < |world| && !IsGauge(world[i]) ==> r[i] == world[i]
    ensures forall i :: 0 <= i < |world| ==> IsGauge(r[i]) == IsGauge(world[i])
    ensures HasShip(world) ==>
      forall i :: 0 <= i < |world| && IsGauge(r[i]) ==>
        r[i].position.value.y + GaugeHeight(r[i]) == BarTop + BarHeight
    ensures HasShip(world) ==>
      exists k ::
        && 0 <= k < |world| && world[k].spaceShip.Some?
        && (forall j :: k < j < |world| ==> world[j].spaceShip.None?)
        && forall i :: 0 <= i < |world| ==> r[i] == ShowFuel(world[i], world[k].spaceShip.value)
  {
    r := world;
    var i := 0;
    while i < |r|
      invariant 0 <= i <= |world| == |r|
      invariant r == Shown(world, LastShip(world, i))
    {
      if r[i].spaceShip.Some? {
        var ship := r[i].spaceShip.value;
        assert world[i].spaceShip == Some(ship);
        ShowAllOverwrites(world, LastShip(world, i), ship);
        r := RedrawGauges(r, ship);
      }
      i := i + 1;
    }
    var last := LastShip(world, |world|);
    if last.Some? {
      var k :| 0 <= k < |world| && world[k].spaceShip == last &&
        (forall j :: k < j < |world| ==> world[j].spaceShip.None?);
      assert forall i :: 0 <= i < |world| ==> r[i] == ShowFuel(world[i], last.value);
    }
  }
}
