/** The level loader: turns the parsed level description into the initial
    entity store of one level. */
module Levels {
  import opened Wrappers
  import opened Components
  import Seqs
  import Common

  /** A kind of planet the levels may place. */
  datatype PlanetDef = PlanetDef(id: string, sprite: string, radius: real, mass: real, fix: bool)

  /** One placement of a planet kind, named by its `id`. */
  datatype Planet = Planet(planetRef: string, x: real, y: real)

  /** A label drawn over the level. */
  datatype TextDef = TextDef(text: string, color: string, style: string, x: real, y: real)

  /** Where the craft starts, how fast it moves and how much fuel it has. */
  datatype ShipDef = ShipDef(x: real, y: real, vx: real, vy: real, fuel: real)

  /** The centre of the end zone. */
  datatype End = End(x: real, y: real)

  /** One level's description. */
  datatype WorldDef = WorldDef(
    id: int,
    background: bool,
    planets: seq<Planet>,
    texts: Option<seq<TextDef>>,
    spaceship: ShipDef,
    end: End)

  /** The whole parsed description: the levels and the planet kinds they share. */
  datatype Root = Root(worlds: seq<WorldDef>, planets: seq<PlanetDef>)

  /** The constructors the loader calls whose bodies are not part of this
      model: the draw order and fixed flag of a fresh renderer, the orbiting
      planet (sprite, x, y, vx, vy, mass, radius), the fixed planet (sprite, x,
      y, mass, radius), the text label (text, color, style, x, y), and the HUD
      entities appended to every level. */
  datatype Collaborators = Collaborators(
    made: Fresh,
    planet: (string, real, real, real, real, real, real) -> Entity,
    fixplanet: (string, real, real, real, real) -> Entity,
    text: (string, string, string, real, real) -> Entity,
    hud: seq<Entity>)

  /** Initial velocity given to every planet that is not fixed. */
  const OrbitVx: real := 0.0
  const OrbitVy: real := 400.0

  /** The first level description with the requested id. */
  function FindWorld(worlds: seq<WorldDef>, level: int): (r: Option<WorldDef>)
    ensures r.None? <==> forall k :: 0 <= k < |worlds| ==> worlds[k].id != level
    ensures forall i ::
      && 0 <= i < |worlds| && worlds[i].id == level
      && (forall j :: 0 <= j < i ==> worlds[j].id != level)
      ==> r == Some(worlds[i])
  {
    var found := Seqs.FindFirst(worlds, (w: WorldDef) => w.id == level);
    if found.Some? then Some(worlds[found.value]) else None
  }

  /** The first planet kind whose id is `name`. */
  function Resolve(defs: seq<PlanetDef>, name: string): (r: Option<PlanetDef>)
    ensures r.None? <==> forall k :: 0 <= k < |defs| ==> defs[k].id != name
    ensures forall i ::
      && 0 <= i < |defs| && defs[i].id == name
      && (forall j :: 0 <= j < i ==> defs[j].id != name)
      ==> r == Some(defs[i])
  {
    var found := Seqs.FindFirst(defs, (d: PlanetDef) => d.id == name);
    if found.Some? then Some(defs[found.value]) else None
  }

  /** The entity for placement `p` of kind `d`: a fixed planet when the kind
      says so, otherwise an orbiting one launched at (0, 400). */
  function PlanetEntity(env: Collaborators, d: PlanetDef, p: Planet): (e: Entity)
    ensures d.fix ==> e == env.fixplanet(d.sprite, p.x, p.y, d.mass, d.radius)
    ensures !d.fix ==> e == env.planet(d.sprite, p.x, p.y, 0.0, 400.0, d.mass, d.radius)
  {
    if d.fix then env.fixplanet(d.sprite, p.x, p.y, d.mass, d.radius)
    else env.planet(d.sprite, p.x, p.y, OrbitVx, OrbitVy, d.mass, d.radius)
  }

  /** The entities spawned for one placement: one if its kind is known,
      none otherwise. */
  function SpawnPlanet(env: Collaborators, defs: seq<PlanetDef>, p: Planet): seq<Entity> {
    match Resolve(defs, p.planetRef)
    case None => []
    case Some(d) => [PlanetEntity(env, d, p)]
  }

  /** The entities spawned for a run of placements, in placement order, each
      resolved against `defs`; a placement naming no known kind spawns nothing. */
  function SpawnPlanets(env: Collaborators, defs: seq<PlanetDef>, ps: seq<Planet>): (r: seq<Entity>)
    ensures |r| <= |ps|
  {
    if ps == [] then []
    else SpawnPlanet(env, defs, ps[0]) + SpawnPlanets(env, defs, ps[1..])
  }

  /** A run of placements none of whose kinds is known spawns nothing. */
  lemma {:induction false} UnknownRefsSpawnNothing(env: Collaborators, defs: seq<PlanetDef>, ps: seq<Planet>)
    requires forall k :: 0 <= k < |ps| ==> Resolve(defs, ps[k].planetRef).None?
    ensures SpawnPlanets(env, defs, ps) == []
    decreases |ps|
  {
    if ps != [] {
      assert Resolve(defs, ps[0].planetRef).None?;
      assert forall k :: 0 <= k < |ps[1..]| ==> ps[1..][k] == ps[k + 1];
      UnknownRefsSpawnNothing(env, defs, ps[1..]);
    }
  }

  /** Spawning a concatenation of placements spawns each part in turn. */
  lemma {:induction false} SpawnPlanetsAppend(env: Collaborators, defs: seq<PlanetDef>, ps1: seq<Planet>, ps2: seq<Planet>)
    ensures SpawnPlanets(env, defs, ps1 + ps2) == SpawnPlanets(env, defs, ps1) + SpawnPlanets(env, defs, ps2)
    decreases |ps1|
  {
    if ps1 == [] {
      assert ps1 + ps2 == ps2;
    } else {
      var head := SpawnPlanet(env, defs, ps1[0]);
      assert (ps1 + ps2)[0] == ps1[0];
      assert (ps1 + ps2)[1..] == ps1[1..] + ps2;
      calc {
        SpawnPlanets(env, defs, ps1 + ps2);
        head + SpawnPlanets(env, defs, ps1[1..] + ps2);
        { SpawnPlanetsAppend(env, defs, ps1[1..], ps2); }
        head + (SpawnPlanets(env, defs, ps1[1..]) + SpawnPlanets(env, defs, ps2));
        SpawnPlanets(env, defs, ps1) + SpawnPlanets(env, defs, ps2);
      }
    }
  }

  /** A single placement spawns what its one-placement run spawns. */
  lemma SpawnSingle(env: Collaborators, defs: seq<PlanetDef>, p: Planet)
    ensures SpawnPlanets(env, defs, [p]) == SpawnPlanet(env, defs, p)
  {
  }

  /** A placement inside a run contributes its own entities between those of
      its neighbours. */
  lemma SpawnAround(env: Collaborators, defs: seq<PlanetDef>, ps1: seq<Planet>, p: Planet, ps2: seq<Planet>)
    ensures SpawnPlanets(env, defs, ps1 + [p] + ps2) ==
      SpawnPlanets(env, defs, ps1) + SpawnPlanet(env, defs, p) + SpawnPlanets(env, defs, ps2)
  {
    SpawnSingle(env, defs, p);
    SpawnPlanetsAppend(env, defs, ps1, [p]);
    SpawnPlanetsAppend(env, defs, ps1 + [p], ps2);
  }

  /** Exactly one entity per resolvable placement, and none for a placement
      that names an unknown kind, whatever surrounds it. */
  lemma OnePlanetPerKnownRef(env: Collaborators, defs: seq<PlanetDef>, ps1: seq<Planet>, p: Planet, ps2: seq<Planet>)
    ensures Resolve(defs, p.planetRef).None? ==>
      SpawnPlanets(env, defs, ps1 + [p] + ps2) == SpawnPlanets(env, defs, ps1) + SpawnPlanets(env, defs, ps2)
    ensures Resolve(defs, p.planetRef).Some? ==>
      SpawnPlanets(env, defs, ps1 + [p] + ps2) ==
        SpawnPlanets(env, defs, ps1) + [PlanetEntity(env, Resolve(defs, p.planetRef).value, p)] + SpawnPlanets(env, defs, ps2)
  {
    SpawnAround(env, defs, ps1, p, ps2);
    var left := SpawnPlanets(env, defs, ps1);
    var right := SpawnPlanets(env, defs, ps2);
    if Resolve(defs, p.planetRef).None? {
      assert SpawnPlanet(env, defs, p) == [];
      assert left + [] + right == left + right;
    }
  }

  /** When every placement resolves, the i-th entity is the i-th placement's. */
  lemma {:induction false} AllKnownSpawnInOrder(env: Collaborators, defs: seq<PlanetDef>, ps: seq<Planet>)
    requires forall k :: 0 <= k < |ps| ==> Resolve(defs, ps[k].planetRef).Some?
    ensures |SpawnPlanets(env, defs, ps)| == |ps|
    ensures forall k :: 0 <= k < |ps| ==>
      SpawnPlanets(env, defs, ps)[k] == PlanetEntity(env, Resolve(defs, ps[k].planetRef).value, ps[k])
    decreases |ps|
  {
    if ps != [] {
      AllKnownSpawnInOrder(env, defs, ps[1..]);
      assert forall k :: 1 <= k < |ps| ==> ps[1..][k - 1] == ps[k];
    }
  }

  /** The text labels, in order; none when the level lists none. */
  function SpawnTexts(env: Collaborators, texts: Option<seq<TextDef>>): (r: seq<Entity>)
    ensures texts.None? ==> r == []
    ensures texts.Some? ==> |r| == |texts.value|
    ensures texts.Some? ==> forall k :: 0 <= k < |r| ==>
      var t := texts.value[k]; r[k] == env.text(t.text, t.color, t.style, t.x, t.y)
  {
    match texts
    case None => []
    case Some(ts) =>
      seq(|ts|, i requires 0 <= i < |ts| => env.text(ts[i].text, ts[i].color, ts[i].style, ts[i].x, ts[i].y))
  }

  /** The entities of a found level, in spawn order: background if asked
      for, planets, texts, then the craft and the end zone. */
  function LevelEntities(env: Collaborators, defs: seq<PlanetDef>, w: WorldDef): seq<Entity> {
    (if w.background then [Common.Background(env.made)] else [])
    + SpawnPlanets(env, defs, w.planets)
    + SpawnTexts(env, w.texts)
    + [Common.Spaceship(w.spaceship.x, w.spaceship.y, w.spaceship.vx, w.spaceship.vy, w.spaceship.fuel, env.made),
       Common.EndZoneAt(w.end.x, w.end.y, env.made)]
  }

  /** `load_level`: the entities of the first level with id `level`, followed
      by the HUD; only the HUD when no level has that id. */
  function LoadLevel(root: Root, level: int, env: Collaborators): (r: World)
    ensures (forall k :: 0 <= k < |root.worlds| ==> root.worlds[k].id != level) ==> r == env.hud
    ensures forall i ::
      && 0 <= i < |root.worlds| && root.worlds[i].id == level
      && (forall j :: 0 <= j < i ==> root.worlds[j].id != level)
      ==> r == LevelEntities(env, root.planets, root.worlds[i]) + env.hud
    ensures |r| >= |env.hud| && r[|r| - |env.hud|..] == env.hud
  {
    match FindWorld(root.worlds, level)
    case None => [] + env.hud
    case Some(w) => LevelEntities(env, root.planets, w) + env.hud
  }

  /** Each piece of a five-part concatenation is recovered by slicing. */
  lemma Slices<T>(a: seq<T>, b: seq<T>, c: seq<T>, d: seq<T>, e: seq<T>)
    ensures var r := a + b + c + d + e;
      && |r| == |a| + |b| + |c| + |d| + |e|
      && r[..|a|] == a
      && r[|a| .. |a| + |b|] == b
      && r[|a| + |b| .. |a| + |b| + |c|] == c
      && r[|a| + |b| + |c| .. |a| + |b| + |c| + |d|] == d
      && r[|a| + |b| + |c| + |d| ..] == e
  {
  }

  /** The layout of a loaded level: a background first exactly when the
      level asks for one, then its planets and texts in order, then the one
      craft and the one end zone, then the HUD. */
  lemma LoadedLayout(root: Root, level: int, env: Collaborators, w: WorldDef)
    requires FindWorld(root.worlds, level) == Some(w)
    ensures var r := LoadLevel(root, level, env);
      var b := if w.background then 1 else 0;
      var planets := SpawnPlanets(env, root.planets, w.planets);
      var texts := SpawnTexts(env, w.texts);
      var n := |r| - |env.hud|;
      && |r| == b + |planets| + |texts| + 2 + |env.hud|
      && (w.background ==> r[0] == Common.Background(env.made))
      && r[b .. b + |planets|] == planets
      && r[b + |planets| .. n - 2] == texts
      && r[n - 2] == Common.Spaceship(w.spaceship.x, w.spaceship.y, w.spaceship.vx, w.spaceship.vy, w.spaceship.fuel, env.made)
      && r[n - 1] == Common.EndZoneAt(w.end.x, w.end.y, env.made)
      && r[n..] == env.hud
  {
    var bg: seq<Entity> := if w.background then [Common.Background(env.made)] else [];
    var planets := SpawnPlanets(env, root.planets, w.planets);
    var texts := SpawnTexts(env, w.texts);
    var tail := [Common.Spaceship(w.spaceship.x, w.spaceship.y, w.spaceship.vx, w.spaceship.vy, w.spaceship.fuel, env.made),
                 Common.EndZoneAt(w.end.x, w.end.y, env.made)];
    var r := LoadLevel(root, level, env);
    assert r == bg + planets + texts + tail + env.hud;
    Slices(bg, planets, texts, tail, env.hud);
    var n := |r| - |env.hud|;
    assert r[n - 2 .. n] == tail;
  }
}
