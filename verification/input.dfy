/** The player-input system: one control tick of every piloted entity. */
module Input {
  import opened Wrappers
  import opened Components

  /** A velocity is committed only while its speed stays below this. */
  const MaxSpeed: real := 1000.0
  /** Speed gained per second of holding "forward". */
  const SpeedIncrement: real := 1000.0
  /** Speed lost per second of holding "brake". */
  const SpeedDecrement: real := 600.0
  /** Fuel burnt per second by each held control. */
  const BurnRate: real := 10.0

  /** The normalised input state read once per tick. */
  datatype Controls = Controls(forward: bool, brake: bool)

  /** The floating-point library's trigonometry, left uninterpreted: no
      property below depends on its values. */
  datatype Trig = Trig(cos: real -> real, sin: real -> real, atan2: (real, real) -> real)

  function SpeedSquared(v: Velocity): real {
    v.x * v.x + v.y * v.y
  }

  /** The speed test `sqrt(x*x + y*y) < MaxSpeed`, stated without the square
      root; over the reals the two agree because MaxSpeed is positive. */
  predicate UnderCap(v: Velocity) {
    SpeedSquared(v) < MaxSpeed * MaxSpeed
  }

  /** 1 for a held control, 0 otherwise. */
  function Held(b: bool): real {
    if b then 1.0 else 0.0
  }

  /** Reference definition of the thrust a burning tick aims for: "forward"
      pushes along the heading `angle`, "brake" pulls back along the same
      heading, each scaled by the elapsed time. */
  function Candidate(t: Trig, angle: real, v: Velocity, c: Controls, delta: real): Velocity {
    var push := Held(c.forward) * SpeedIncrement * delta - Held(c.brake) * SpeedDecrement * delta;
    Velocity(v.x + push * t.cos(angle), v.y + push * t.sin(angle))
  }

  /** One tick for one ship, in the order the system performs it: face the
      direction of travel; with fuel left, let each held control adjust a
      candidate velocity and burn fuel; keep the candidate only under the cap. */
  function ShipStep(t: Trig, ship: SpaceShip, v: Velocity, c: Controls, delta: real): (r: (SpaceShip, Velocity))
    ensures r.0.angle == t.atan2(v.y, v.x)
    ensures r.0.initialFuel == ship.initialFuel
    ensures ship.fuel <= 0.0 ==> r.0.fuel == ship.fuel && r.1 == v
    ensures ship.fuel > 0.0 ==>
      r.0.fuel == ship.fuel - (Held(c.forward) + Held(c.brake)) * BurnRate * delta
    ensures !c.forward && !c.brake ==> r.0.fuel == ship.fuel && r.1 == v
    ensures ship.fuel > 0.0 ==>
      var cand := Candidate(t, t.atan2(v.y, v.x), v, c, delta);
      (UnderCap(cand) ==> r.1 == cand) && (!UnderCap(cand) ==> r.1 == v)
    ensures r.1 != v ==> UnderCap(r.1)
  {
    var angle := t.atan2(v.y, v.x);
    var (cand, fuel) :=
      if ship.fuel > 0.0 then
        var (v1, f1) :=
          if c.forward then
            (Velocity(v.x + SpeedIncrement * delta * t.cos(angle), v.y + SpeedIncrement * delta * t.sin(angle)),
             ship.fuel - delta * BurnRate)
          else (v, ship.fuel);
        if c.brake then
          (Velocity(v1.x - SpeedDecrement * delta * t.cos(angle), v1.y - SpeedDecrement * delta * t.sin(angle)),
           f1 - delta * BurnRate)
        else (v1, f1)
      else (v, ship.fuel);
    (ship.(angle := angle, fuel := fuel), if UnderCap(cand) then cand else v)
  }

  /** The entities the system's query visits: those with both a SpaceShip and
      a Velocity. */
  predicate Piloted(e: Entity) {
    e.spaceShip.Some? && e.velocity.Some?
  }

  /** The system's effect on one entity. */
  function EntityStep(t: Trig, e: Entity, c: Controls, delta: real): (r: Entity)
    ensures !Piloted(e) ==> r == e
    ensures Piloted(r) == Piloted(e)
    ensures Piloted(e) ==>
      (r.spaceShip.value, r.velocity.value) == ShipStep(t, e.spaceShip.value, e.velocity.value, c, delta)
    ensures r.renderer == e.renderer && r.position == e.position && r.celestial == e.celestial
    ensures r.endZone == e.endZone && r.fuelHud == e.fuelHud
  {
    if Piloted(e) then
      var s := ShipStep(t, e.spaceShip.value, e.velocity.value, c, delta);
      e.(spaceShip := Some(s.0), velocity := Some(s.1))
    else e
  }

  /** `system_spacecraft_input`: visits the store in order and steps every
      piloted entity, leaving all others as they were. */
  method SystemSpacecraftInput(t: Trig, world: World, c: Controls, delta: real) returns (r: World)
    ensures |r| == |world|
    ensures forall i :: 0 <= i < |world| ==> r[i] == EntityStep(t, world[i], c, delta)
    ensures forall i :: 0 <= i < |world| && !Piloted(world[i]) ==> r[i] == world[i]
  {
    r := world;
    var i := 0;
    while i < |r|
      invariant 0 <= i <= |r| == |world|
      invariant forall j :: 0 <= j < i ==> r[j] == EntityStep(t, world[j], c, delta)
      invariant forall j :: i <= j < |r| ==> r[j] == world[j]
    {
      var e := r[i];
      if e.spaceShip.Some? && e.velocity.Some? {
        var s := ShipStep(t, e.spaceShip.value, e.velocity.value, c, delta);
        r := r[i := e.(spaceShip := Some(s.0), velocity := Some(s.1))];
      }
      i := i + 1;
    }
  }

  /** One frame's worth of input: the controls held and the elapsed time. */
  datatype Tick = Tick(controls: Controls, delta: real)

  /** A ship flown through a sequence of ticks. */
  function Fly(t: Trig, ship: SpaceShip, v: Velocity, ticks: seq<Tick>): (SpaceShip, Velocity)
    decreases |ticks|
  {
    if ticks == [] then (ship, v)
    else
      var s := ShipStep(t, ship, v, ticks[0].controls, ticks[0].delta);
      Fly(t, s.0, s.1, ticks[1..])
  }

  /** Fuel exhaustion: once the tank is at or below zero, no later tick
      changes the velocity or the fuel, whatever is held. */
  lemma {:induction false} DryTankIsInert(t: Trig, ship: SpaceShip, v: Velocity, ticks: seq<Tick>)
    requires ship.fuel <= 0.0
    ensures Fly(t, ship, v, ticks).0.fuel == ship.fuel
    ensures Fly(t, ship, v, ticks).1 == v
    decreases |ticks|
  {
    if ticks != [] {
      var s := ShipStep(t, ship, v, ticks[0].controls, ticks[0].delta);
      DryTankIsInert(t, s.0, s.1, ticks[1..]);
    }
  }

  /** With non-negative frame times the tank never refills. */
  lemma {:induction false} FuelNeverRises(t: Trig, ship: SpaceShip, v: Velocity, ticks: seq<Tick>)
    requires forall k :: 0 <= k < |ticks| ==> ticks[k].delta >= 0.0
    ensures Fly(t, ship, v, ticks).0.fuel <= ship.fuel
    decreases |ticks|
  {
    if ticks != [] {
      var s := ShipStep(t, ship, v, ticks[0].controls, ticks[0].delta);
      FuelNeverRises(t, s.0, s.1, ticks[1..]);
    }
  }

  /** The speed cap over a whole flight: the final velocity is either the one
      the flight started with (every candidate rejected or none tried) or one
      strictly below the cap. */
  lemma {:induction false} CapHolds(t: Trig, ship: SpaceShip, v: Velocity, ticks: seq<Tick>)
    ensures Fly(t, ship, v, ticks).1 == v || UnderCap(Fly(t, ship, v, ticks).1)
    decreases |ticks|
  {
    if ticks != [] {
      var s := ShipStep(t, ship, v, ticks[0].controls, ticks[0].delta);
      CapHolds(t, s.0, s.1, ticks[1..]);
    }
  }
}
