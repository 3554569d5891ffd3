# Orbital Bus: a Dafny model of the game logic core

Orbital Bus is a browser minigame. A spacecraft flies among planets that
attract it and must reach a square end zone before its fuel runs out. The game
keeps its objects in an entity-component store and runs a fixed set of systems
over that store every frame.

This project models four pieces of that logic as pure functions over `real`
numbers and immutable datatypes:

- **The input system.** It runs once per tick for every entity that has both a
  `SpaceShip` and a `Velocity`. The ship turns to face its direction of travel.
  While fuel is left, "forward" and "brake" each adjust a candidate velocity
  along that heading and each burn `10·Δt` fuel. The candidate is kept only if
  its speed is below `MAX_SPEED`.
- **The fuel gauge (HUD) system.** Every rectangle tagged `FuelHUD` is resized
  to the ship's share of its tank, and its top edge moves so that its bottom
  edge stays at y = 749.
- **The entity constructors.** These build the background, the spaceship, the
  earth and the end zone.
- **The level loader.** Given an already-parsed level description, it emits the
  entities of the requested level in a fixed order and then appends the HUD.

The entity store is a `seq<Entity>`. Entities are kept in spawn order. Each
`Entity` holds an optional value for every component the core uses, plus the
`FuelHUD` marker. A store query visits entities in sequence order.

Some collaborators have bodies that are not part of this model. They are
passed in as parameters, so every property holds whatever they compute:

- `Input.Trig` carries cosine, sine and atan2 as function values.
- `Components.Fresh` gives the draw order and fixed flag of a freshly built
  renderer.
- `Levels.Collaborators` carries the planet, fixed-planet and text
  constructors, and the HUD entities that `build_hud` appends.

Modules: `Wrappers` (Option), `Seqs` (first match in a sequence), `Components`
(component datatypes, renderer, entity), `Input`, `Hud`, `Common`
(constructors), `Levels`.

## Model

| member | source | states |
|---|---|---|
| Input.ShipStep | src/input.rs:16-38 | The ship's angle becomes atan2(vy, vx) of the velocity before the step, whatever the fuel and the controls. With fuel ≤ 0, fuel and velocity are unchanged. With fuel > 0, fuel drops by exactly 10·Δt per held control (0, 1 or 2 times). With nothing held, nothing but the angle changes. Under fuel > 0, the new velocity is the reference candidate (forward adds 1000·Δt·(cos a, sin a), brake subtracts 600·Δt·(cos a, sin a), with the same a) exactly when that candidate is under the cap; otherwise it is the old velocity, even though fuel was spent. A velocity that changed is strictly under the speed cap. |
| Input.EntityStep | src/input.rs:17-38 | An entity lacking SpaceShip or Velocity is returned unchanged. A piloted entity gets exactly the ship-step result. Its renderer, position, celestial, end zone and FuelHUD marker never change. |
| Input.SystemSpacecraftInput | src/input.rs:16-41 | The store keeps its length. Every entity is stepped in place by the per-entity step. Every entity without both SpaceShip and Velocity is left untouched. |
| Input.DryTankIsInert | src/input.rs:21-38 | Once fuel ≤ 0, any sequence of later ticks, with any controls held, leaves both the fuel and the velocity as they were. |
| Input.FuelNeverRises | src/input.rs:25-30 | With non-negative frame times, the fuel after any sequence of ticks is at most the starting fuel. |
| Input.CapHolds | src/input.rs:34-38 | After any sequence of ticks, the velocity is either the starting one or strictly under the speed cap. |
| Hud.FuelHeight | src/hud.rs:13 | The bar height is never negative. For 0 ≤ fuel and a positive tank, height·initial = fuel·96 (the fuel's share of the bar). Fuel ≤ 0 over a non-negative tank gives 0, including a zero tank, where `max` discards the NaN or −∞ quotient. A full non-zero tank gives 96. Fuel ≤ initial gives at most 96. |
| Hud.FuelHeightMonotone | src/hud.rs:13 | For a positive tank, more fuel never gives a shorter bar. |
| Hud.ShowFuel | src/hud.rs:11-14 | Only a FuelHUD-tagged entity with a Position and a rectangle renderer changes; a FuelHUD entity drawn by a sprite or text is untouched. A gauge's height becomes the fuel height. Its bottom edge (y + height) lands at 749. Its x, width, colour, z and fixed flag, and all other components, stay as they were. |
| Hud.GaugeExtremes | src/hud.rs:13-14 | A full positive tank shows height 96 with top edge y = 653. An empty or overdrawn tank shows height 0 with y = 749, also when the tank's capacity is zero. |
| Hud.ShowFuelOverwrites | src/hud.rs:10-14 | Redrawing a gauge for a second ship erases the first ship's reading. |
| Hud.LastShip | src/hud.rs:10 | Gives None exactly when no entity among the first n has a SpaceShip. Otherwise it gives the tank of the last entity among them that does. |
| Hud.RedrawGauges | src/hud.rs:11-15 | One pass of the inner loop: every entity of the store becomes its one-ship redraw, so gauges get the ship's height and y, and all else is kept. |
| Hud.ShowAllOverwrites | src/hud.rs:10-15 | A ship's pass over the store replaces whatever an earlier ship's pass showed. |
| Hud.SystemHud | src/hud.rs:9-19 | With no SpaceShip in the store, the store is unchanged. Otherwise there is a last ship in the store, and every entity equals its redraw for that ship's tank. So each gauge shows that tank with its bottom edge at 749, and keeps its x, width, colour, z, fixed flag and other components. Non-gauge entities are untouched, and gauge-ness is preserved. |
| Common.Background | src/levels/common.rs:5-14 | A space.png sprite at (0, 0) with z = −100 and fixed = true, whatever the renderer's defaults, and no other component. |
| Common.Spaceship | src/levels/common.rs:16-32 | Position (x, y), velocity (vx, vy), angle 0, and fuel = initial fuel = the given fuel, drawn by a spaceship.png sprite. |
| Common.FreshShipIsFlownAndFull | src/levels/common.rs:16-32 | A fresh ship is visited by the input system. With positive fuel, it makes every gauge show a full bar (height 96, y = 653). |
| Common.Earth | src/levels/common.rs:34-45 | An earth.png sprite at (x, y) with Celestial mass 5 and radius 100, which is a valid attractor (mass > 0, radius ≥ 0). |
| Common.EndZoneAt | src/levels/common.rs:47-58 | Top-left corner (x − 50, y − 50) and size 100 × 100, so (x, y) is the centre and lies strictly inside. The renderer is a rectangle with exactly the zone's extents. |
| Seqs.FindFirst | src/levels/mod.rs:69 | Gives the index of the first element that satisfies the predicate. Gives None exactly when no element does. |
| Levels.FindWorld | src/levels/mod.rs:69 | Gives None exactly when no world has the id. Otherwise it gives the first world with the id, even when several share it. |
| Levels.Resolve | src/levels/mod.rs:75 | Gives None exactly when no planet kind has the name. Otherwise it gives the first kind with that id, even when several share it. |
| Levels.PlanetEntity | src/levels/mod.rs:76-80 | `fix` selects the fixed-planet constructor. Otherwise the orbiting constructor is used, with initial velocity (0, 400). |
| Levels.SpawnPlanets | src/levels/mod.rs:74-82 | Planet placements spawn at most one entity each. |
| Levels.UnknownRefsSpawnNothing | src/levels/mod.rs:74-82 | Placements whose names resolve to no kind spawn no entity. |
| Levels.SpawnPlanetsAppend | src/levels/mod.rs:74-82 | Planet spawning is applied placement by placement: a concatenation of placement lists spawns the concatenation of the parts' entities. |
| Levels.SpawnAround | src/levels/mod.rs:74-82 | Inside any run, a placement contributes its own spawns between those of its neighbours. |
| Levels.OnePlanetPerKnownRef | src/levels/mod.rs:74-82 | Whatever surrounds it, a placement with a known kind contributes exactly its one entity, at its position in the order. A placement with an unknown name contributes nothing. |
| Levels.AllKnownSpawnInOrder | src/levels/mod.rs:74-82 | When every placement resolves, there is one entity per placement, and the i-th is built from the i-th placement and its first matching kind. |
| Levels.SpawnTexts | src/levels/mod.rs:84-88 | No texts listed gives no entities. Otherwise there is one label entity per text, in order. |
| Levels.LoadLevel | src/levels/mod.rs:66-96 | With no world of the requested id, the result is exactly the HUD entities. Otherwise it is the first such world's entities followed by the HUD. The HUD is always the suffix. |
| Levels.LoadedLayout | src/levels/mod.rs:68-96 | A found level is laid out in this order: a background first when the world's flag asks for one (the length counts 1 for it exactly then), its planets, its texts, exactly one spaceship, then one end zone, then the HUD. |

## Left out

- Floating point is not modelled: `f64` is `real`, so there is no rounding.
- Hud.FuelHeight: a zero initial tank is handled as the source's `f64::max` handles it only where that gives a number. With fuel ≤ 0 over a zero tank, the quotient is NaN or −∞, `max` discards it, and the bar is empty (height 0, y 749); the model gives the same. Positive fuel over a zero tank gives a bar of height +∞ in the source. The model excludes that case through its requires, because a real number cannot represent it.
- Hud.SystemHud: requires that no ship has positive fuel over a zero initial tank, for the same reason.
- The speed test `sqrt(x*x + y*y) < 1000` is stated as `x*x + y*y < 1000*1000`. Over the reals the two agree.
- Trigonometry is not modelled. `cos`, `sin` and `atan2` are parameters with no assumed values.
- Store iteration order is an assumption. `hecs` iterates archetype by archetype, and the model fixes that order as spawn order. It only matters for `system_hud` when the store holds more than one ship: the last ship visited decides the gauge.
- Renderer painting, the image cache and the `ImageStore` are left out. Building a sprite renderer registers the image there; the model drops that side effect because it is asset I/O.
- The renderer constructors `Renderer::sprite`/`rect`/`text` are not part of this model. They are modelled through `Components.Fresh`, and `set_z`/`set_fixed` as field updates. One `Fresh` value serves both the sprite and the rectangle constructor, which assumes they give the same default z and fixed flag. No proved property depends on that assumption: the background overrides both fields, and the other constructors' properties say nothing about them.
- `common::planet`, `common::fixplanet`, `common::text` and `hud::build_hud` are not part of this model, so their results are parameters. `build_hud` is modelled as appending a fixed list of entities, regardless of the store's contents.
- Level parsing (`load_levels`: the RON text and serde) is not modelled, and neither is its panic on corrupt data. The loader takes the parsed `Root` as input. The `i32` ids are `int`, since only equality is used on them.
- Browser glue is not modelled: the wasm entry point, the frame loop, canvas painting, DOM wrappers, the level-select page and its `localStorage`. It is all I/O.
- The hand-written level files are not modelled. They are static data with no behaviour.
- The other per-frame systems (gravity, collision, camera, draw order) are out of scope for this model, which covers input, the fuel gauge and level construction.
- `Position` follows the `{x, y}` shape used by the constructors. `src/dynamics.rs` shows an older `{x, y, angle}` revision.
