# Space strategy game core: entities, factions and the faction AI

This project models the game-state core of a browser space strategy game
played on an unbounded square grid. It covers:

- **The entity manager** (`EntityManager`). It holds the list of ships and
  stations and creates them. It moves a ship in two steps: the move starts,
  and the ship's cell is committed when the animation completes. It finds
  an entity from a picked mesh. It keeps the single pending "move to" order
  of the context menu. At game start it lays out the player's home fleet and
  one outpost per other faction.
- **The faction registry** (`FactionManager`). It holds four factions,
  chooses the first one as the player's, looks factions up by id, and picks
  a random non-player faction.
- **The faction AI pass** (`FactionAI`). For every faction flagged for AI
  control, it sends each idle ship somewhere with probability one half. It
  also lets each station build a ship when its two-minute cooldown has
  elapsed.
- **The grid helpers.** These are the world↔grid conversions,
  `randomInt`, and the ray-hit → cell lookup.

The environment is passed in explicitly:

- `Math.random()` is a stream of draws in [0, 1) held by a `Host`.
- Ids and meshes of new entities come from the same `Host`.
- `Date.now()` is a `now` parameter.

The AI pass is written as it is in the source. The registry gives no faction
the `factionAi` flag (`FactionAI.RegistryHasNoManagedFaction`), and no code
ever sets `isMoving`, so the idle-ship test never holds
(`FactionAI.CreatedEntitiesAreNeverIdle`). As a result, a pass over the game's
own registry does nothing. The model keeps those filters as written and
proves what the pass would do for any faction list.

Files:
- `wrappers.dfy`: `Option`.
- `sequences.dfy`: `Filter` (the model of `Array.prototype.filter`) and its
  lemmas.
- `utils.dfy`, `grid.dfy`, `factions.dfy`, `entities.dfy`,
  `faction_ai.dfy`: one module per source file.
- `environment.dfy`: the `Host` (random draws and new identities).

## Model

| member | source | states |
|---|---|---|
| Utils.Round | src/utils.js:7-8 | `Math.round`: the integer n with n − ½ ≤ v < n + ½ (halves round up) |
| Utils.RoundOfInteger | src/utils.js:7-8 | rounding an integer gives it back |
| Utils.WorldToGrid | src/utils.js:5-10 | the cell is the nearest lattice point to the point's x and z; elevation is not consulted |
| Utils.GridToWorld | src/utils.js:13-19 | the point keeps the given elevation (0 when none is given) and lies on the lattice; `GridRoundTrip` is its inverse |
| Utils.WorldToGridIgnoresElevation | src/utils.js:5-10 | changing a point's elevation never changes its cell |
| Utils.GridRoundTrip | src/utils.js:5-19 | `worldToGrid(gridToWorld(x, y, e)) = (x, y)` for every elevation, including the default 0 |
| Utils.LiftOfCellIsPoint | src/utils.js:5-19 | lifting a point's cell back at the point's own elevation gives the point exactly when its x and z are integers |
| Utils.RandomInt | src/utils.js:38-40 | for min ≤ max and a draw in [0, 1), the result lies in [min, max] |
| Utils.RandomIntSingleton | src/utils.js:38-40 | `randomInt(m, m)` is m whatever the draw |
| Utils.RandomIndex | src/faction-ai.js:75 | `Math.floor(Math.random() * n)` equals `randomInt(0, n − 1)` and is a valid index |
| Grid.GetGridCoords | src/grid.js:42-52 | no hit gives no cell; a hit gives the cell nearest to the hit point's x and z |
| Grid.GetGridCoordsIgnoresHeight | src/grid.js:47-51 | the hit point's height plays no part in the cell |
| Grid.GetGridCoordsIsWorldToGrid | src/grid.js:47-51 | the lookup agrees with `worldToGrid` on every hit point |
| Grid.GetGridCoordsOfLatticePoint | src/grid.js:47-51 | a hit on a lattice point gives that lattice point |
| Factions.RegistryShape | src/factions.js:4-9 | four factions with distinct ids, none flagged for AI |
| Factions.FactionManager.constructor | src/factions.js:4-11 | the list is the registry and there is no player faction yet |
| Factions.FactionManager.Init | src/factions.js:14-16 | the player faction becomes the first registry entry |
| Factions.GetFaction | src/factions.js:27-29 | `None` exactly when no faction has the id; otherwise the first faction with that id |
| Factions.GetFactionOnRegistry | src/factions.js:27-29 | every registry entry is found by its own id |
| Factions.NonPlayerFactions | src/factions.js:33 | the candidates are exactly the factions whose id differs from the player's |
| Factions.GetRandomFaction | src/factions.js:32-36 | `None` (undefined) exactly when every faction has the player's id; otherwise a faction of the list that is not the player's |
| Factions.OthersFollowHead | src/factions.js:33 | with the player at the head of a list of distinct ids, the candidates are the rest of the list, in order |
| Factions.RandomFactionFollowsHead | src/factions.js:32-36 | in that case the pick is always one of the entries after the head |
| Factions.RegistryOthers | src/factions.js:33 | on the registry, the player's rivals are its last three entries |
| Factions.RandomFactionOnRegistry | src/factions.js:32-36 | on the registry, the random faction is always one of the three rivals |
| Factions.IsPlayerFaction | src/factions.js:39-41 | factions are compared by id only; the player faction is passed in rather than read from the manager |
| Factions.ExactlyOnePlayerFaction | src/factions.js:39-41 | after `init`, `isPlayerFaction` holds for the first registry entry and for no other |
| Environment.Host.Random | src/faction-ai.js:38 | `Math.random()`: the next value of the draw stream, always in [0, 1); exactly one draw is consumed |
| Environment.Host.NewIdentity | src/entities.js:40 | the id and mesh of a new entity are the next identity of the stream; the timestamp and random suffix are not modelled |
| Entities.EntityManager.constructor | src/entities.js:6-10 | no entities, no pending ship, not waiting for a target |
| Entities.EntityManager.Init | src/entities.js:13-16 | the entity list is emptied and nothing else changes |
| Entities.EntityManager.CreateShip | src/entities.js:19-53 | exactly one new ship of velocity 10 with the given faction and cell is appended; nothing else in the list changes |
| Entities.EntityManager.CreateStation | src/entities.js:56-90 | exactly one new station with the given faction and cell is appended; nothing else in the list changes |
| Entities.EntityManager.MoveShipTo | src/entities.js:93-141 | a move starts exactly when the entity is a ship; the pending completion targets the requested cell; the ship's cell does not change yet |
| Entities.EntityManager.CompleteMove | src/entities.js:125-128 | on completion the ship's cell becomes exactly the target cell |
| Entities.FindEntityByMesh | src/entities.js:144-146 | `None` exactly when no entity shows the mesh (itself or as a child); otherwise the first entity in list order that does |
| Entities.GetAllMeshes | src/entities.js:166-168 | one mesh per entity, in list order |
| Entities.MeshesResolve | src/entities.js:144-168 | every mesh offered for picking resolves to its own entity or to an earlier one showing the same mesh |
| Entities.EntityManager.SetTargetShipForMove | src/entities.js:149-152 | the ship is remembered and the manager waits for a target |
| Entities.EntityManager.HandleMoveTargetSelection | src/entities.js:155-163 | handled exactly when waiting with a ship; then the order is cleared and a move to the chosen cell starts if the entity is a ship; otherwise nothing changes |
| Entities.EntityManager.Cancel | src/main.js:150-153 | the pending order is dropped and the manager stops waiting |
| Entities.EntityManager.CreatePlayerHome | src/entities.js:172-178 | appends the player's three ships and station, at their fixed cells, in order |
| Entities.EntityManager.CreateOutpost | src/entities.js:183-193 | appends the i-th rival's two ships and station on the diagonal at 10(i+1), +2 and +4 |
| Entities.EntityManager.CreateInitialEntities | src/entities.js:171-194 | appends exactly the initial layout: the player's home, then one outpost per non-player faction in registry order |
| Entities.OutpostsShape | src/entities.js:183-193 | the outposts take three entities per rival, and the i-th group is the i-th rival's outpost |
| Entities.InitialLayoutShape | src/entities.js:171-194 | the layout has 4 + 3·rivals entries: the first four belong to the player, and each later group of three is one rival's outpost |
| Entities.InitialLayoutOnRegistry | src/entities.js:171-194 | on the registry, the game starts with 13 entities |
| FactionAI.LastCreation | src/faction-ai.js:103 | a station with no entry reads as last producing at time 0 (the `\|\| 0`); otherwise its recorded time |
| FactionAI.Ready | src/faction-ai.js:106 | a station with no entry is ready once the clock reads two minutes; otherwise two minutes after its recorded time |
| FactionAI.AfterAttempt | src/faction-ai.js:106-122 | after an attempt the station is not ready at that instant; a station that was ready is stamped `now`; a station that was not ready leaves the table unchanged |
| FactionAI.Producers | src/faction-ai.js:44-48 | the stations of a run of attempts that make a ship, in order: as many as the attempts produce, each one of the attempted stations |
| FactionAI.UnrecordedStationIsReady | src/faction-ai.js:103-106 | a station with no entry counts as last producing at time 0 |
| FactionAI.AttemptCoolsStation | src/faction-ai.js:106-122 | right after an attempt, at the same instant, the station is not ready |
| FactionAI.AtMostOneShipWithinCooldown | src/faction-ai.js:106-122 | two attempts less than two minutes apart make at most one ship |
| FactionAI.ReadyAgainAfterCooldown | src/faction-ai.js:106-122 | two minutes after producing, a station produces again |
| FactionAI.AttemptIsLocal | src/faction-ai.js:122 | an attempt changes only its own station's entry |
| FactionAI.AttemptAllCoolsAll | src/faction-ai.js:44-48 | after one attempt per station, no attempted station is ready at that instant |
| FactionAI.CoerceOffset | src/faction-ai.js:82 | a zero offset becomes (1, 0); any other offset is kept; the result is never zero |
| FactionAI.StationOffset | src/faction-ai.js:108-112 | the offset lies within three cells per axis and is never (0, 0) |
| FactionAI.StationOffsetLandsNear | src/faction-ai.js:108-119 | a ship placed by a station lands within three cells of it, never on its own cell |
| FactionAI.RandomStepStaysInRange | src/faction-ai.js:57-63 | a random step stays within 50 cells of the ship's cell on each axis |
| FactionAI.AttemptPlanCount | src/faction-ai.js:28-48 | a pass attempts a station as many times as it occurs in the list times the number of managed factions sharing its faction id, and never attempts a non-station |
| FactionAI.EachStationAttemptedOnce | src/faction-ai.js:28-48 | with distinct faction ids, each station of a managed faction gets exactly one attempt per pass and every other entity none |
| FactionAI.RegistryHasNoManagedFaction | src/faction-ai.js:23-25 | no registry faction carries `factionAi`, so a pass acts for nobody |
| FactionAI.CreatedEntitiesAreNeverIdle | src/faction-ai.js:35 | entities without `isMoving` never pass the idle-ship test |
| FactionAI.FactionAi.constructor | src/faction-ai.js:8 | the cooldown table starts empty |
| FactionAI.FactionAi.TryCreateShipFromStation | src/faction-ai.js:101-124 | exactly when the cooldown has elapsed, one new ship of the station's faction is appended and the station is stamped `now`; the ship's cell is the station's cell plus the coerced offset of the next two draws, and its id is the next identity; when not ready, no draw is consumed and nothing is created |
| FactionAI.FactionAi.MoveShipRandomly | src/faction-ai.js:53-98 | non-ships get no move; a draw below 0.7, or no station, gives a step within 50 cells; otherwise the target is next to some station |
| FactionAI.FactionAi.IssueMoves | src/faction-ai.js:35-41 | every order goes to one of the given ships, and there are at most as many orders as ships |
| FactionAI.FactionAi.AttemptStations | src/faction-ai.js:44-48 | the table becomes one attempt per station in order; the new entities are exactly the ships made, and the k-th ship made comes from, and sits next to, the k-th station that was ready (`Producers`) |
| FactionAI.FactionAi.DecideForFaction | src/faction-ai.js:28-49 | attempts exactly the faction's stations from the list at the start of the pass; the k-th ship made comes from the k-th of those stations that was ready; orders go only to its idle ships from that list |
| FactionAI.FactionAi.MakeDecisions | src/faction-ai.js:21-50 | the whole pass is the attempt plan over managed factions; it appends only new ships of velocity 10, each next to one of the attempted stations and of that station's faction; it orders only idle ships of managed factions, and does nothing (no draws) when no faction is managed |

## Left out

- Rendering is not modelled. This covers Three.js meshes, geometry, materials, the scene, and `EntityManager.init`'s scene argument. A mesh is an opaque handle.
- The animation library is not modelled: tween duration, easing, heading, per-frame updates and overlapping tweens on one ship. A move is the pending `Tween` value, and `CompleteMove` is its `onComplete`.
- Id generation is not modelled: the timestamp-and-random string, and its own `Math.random` draw. New ids and meshes come from the host. Ids are not assumed distinct, because the source does not enforce that.
- The timer is not modelled: `FactionAI.init` and its `setInterval`. The model covers one `makeDecisions` pass, called by its environment.
- FactionAI.FactionAi.MakeDecisions reads the clock once per pass. The source reads `Date.now()` at each station, and a synchronous pass spans no noticeable time.
- Factions.FactionManager.Init does not model the page update that shows the player's faction (DOM).
- Picking is not modelled: `getIntersects`, camera controls, the context-menu DOM and `main.js` wiring. Their calls into the core are modelled as `SetTargetShipForMove`, `HandleMoveTargetSelection` and `Cancel`. Configuration constants are written in where used.
- Entities.EntityManager.Cancel clears the pending order unconditionally. The Escape handler clears it only when waiting. The results are the same, because a ship is pending only while waiting.
- Entities.EntityManager.CreateInitialEntities requires a chosen player faction. The source throws a TypeError on a null player faction, and this error path is not modelled.
- Coordinates are exact reals, not IEEE doubles. Rounding at halves follows `Math.round` (toward +∞).
- Factions.IsPlayerFaction and Factions.GetRandomFaction take the player faction as an argument. The source reads `this.playerFaction` and throws a TypeError when it is still null; that error path is not modelled.
- FactionAI.FactionAi.MakeDecisions states only that each new ship sits next to one of the attempted stations. It does not state which station made which ship. That pairing is stated one faction at a time, by `AttemptStations` and `DecideForFaction`.
- FactionAI.FactionAi.IssueMoves does not state which ships receive orders, because that depends on how many draws each `moveShipRandomly` call consumes.
- FactionAI.FactionAi.MoveShipRandomly does not state which station is chosen. It states only that the target is next to some station of the list.
- `meshChildren` is always empty for the entities the game creates. `FindEntityByMesh` still consults it.
