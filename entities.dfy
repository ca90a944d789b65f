/**
 * The entity store of entities.js: the list of ships and stations, their
 * creation, the two-step ship move (start, then commit on completion), the
 * mesh lookup, and the single-slot "move to" order.
 */
module Entities {
  import opened Wrappers
  import opened Utils
  import opened Factions
  import opened Environment

  /** The `type` tag; only ships carry a `velocity` (always 10). */
  datatype Kind = Ship(velocity: int) | Station

  const ShipVelocity: int := 10

  /**
   * A ship or station record. Everything but `gridPosition` is fixed at
   * creation; `isMoving` stands for a property no code ever sets, so it is
   * `None` (JavaScript's `undefined`) on every entity the game creates.
   */
  class Entity {
    const id: string
    const kind: Kind
    const faction: Faction
    const mesh: MeshHandle
    const meshChildren: seq<MeshHandle>
    const isMoving: Option<bool>
    var gridPosition: Cell

    constructor (ident: Identity, kind: Kind, faction: Faction, gridPosition: Cell)
      ensures id == ident.id && mesh == ident.mesh && meshChildren == [] && isMoving == None
      ensures this.kind == kind && this.faction == faction && this.gridPosition == gridPosition
    {
      id := ident.id;
      mesh := ident.mesh;
      meshChildren := [];
      isMoving := None;
      this.kind := kind;
      this.faction := faction;
      this.gridPosition := gridPosition;
    }
  }

  /**
   * A ship animation in flight: the `onComplete` callback of the tween that
   * `moveShipTo` starts, which will set `ship.gridPosition` to `target`.
   */
  datatype Tween = Tween(ship: Entity, target: Cell)

  /** The predicate `findEntityByMesh` searches with: the mesh itself or one of its children. */
  predicate ShowsMesh(e: Entity, m: MeshHandle)
  {
    e.mesh == m || m in e.meshChildren
  }

  /** `findEntityByMesh` over the entity list: the first entity, in list order, that shows the mesh. */
  function FindEntityByMesh(entities: seq<Entity>, m: MeshHandle): (r: Option<Entity>)
    ensures r.None? <==> forall i :: 0 <= i < |entities| ==> !ShowsMesh(entities[i], m)
    ensures r.Some? ==> exists i :: 0 <= i < |entities| && entities[i] == r.value && ShowsMesh(r.value, m) &&
                                    forall j :: 0 <= j < i ==> !ShowsMesh(entities[j], m)
  {
    if entities == [] then None
    else if ShowsMesh(entities[0], m) then Some(entities[0])
    else
      var r := FindEntityByMesh(entities[1..], m);
      if r.Some? then
        ghost var i :| 0 <= i < |entities[1..]| && entities[1..][i] == r.value && ShowsMesh(r.value, m) &&
                       forall j :: 0 <= j < i ==> !ShowsMesh(entities[1..][j], m);
        assert entities[i + 1] == r.value;
        r
      else
        r
  }

  /** `getAllMeshes`: the mesh of every entity, in list order. */
  function GetAllMeshes(entities: seq<Entity>): (ms: seq<MeshHandle>)
    ensures |ms| == |entities|
    ensures forall i :: 0 <= i < |entities| ==> ms[i] == entities[i].mesh
  {
    seq(|entities|, i requires 0 <= i < |entities| => entities[i].mesh)
  }

  /**
   * Every mesh `getAllMeshes` offers for ray picking resolves back to an
   * entity: the one it came from, or an earlier one showing the same mesh.
   */
  lemma MeshesResolve(entities: seq<Entity>, k: nat)
    requires k < |entities|
    ensures FindEntityByMesh(entities, GetAllMeshes(entities)[k]).Some?
    ensures forall e :: FindEntityByMesh(entities, GetAllMeshes(entities)[k]) == Some(e) ==>
              exists i :: 0 <= i <= k && entities[i] == e
  {
    var m := GetAllMeshes(entities)[k];
    assert ShowsMesh(entities[k], m);
  }

  /** What one creation call in `createInitialEntities` asks for. */
  datatype Spawn = Spawn(kind: Kind, faction: Faction, cell: Cell)

  /** The player's starting fleet: three ships and a station. */
  function PlayerHome(player: Faction): (r: seq<Spawn>)
  {
    [ Spawn(Ship(ShipVelocity), player, Cell(-10, -10)),
      Spawn(Ship(ShipVelocity), player, Cell(-8, -12)),
      Spawn(Ship(ShipVelocity), player, Cell(-12, -8)),
      Spawn(Station, player, Cell(-10, -14)) ]
  }

  /** The outpost of the `index`-th other faction: two ships and a station on the diagonal. */
  function Outpost(f: Faction, index: nat): (r: seq<Spawn>)
  {
    var base := 10 * (index + 1);
    [ Spawn(Ship(ShipVelocity), f, Cell(base, base)),
      Spawn(Ship(ShipVelocity), f, Cell(base + 2, base + 2)),
      Spawn(Station, f, Cell(base + 4, base + 4)) ]
  }

  function Outposts(others: seq<Faction>): (r: seq<Spawn>)
  {
    if others == [] then []
    else Outposts(others[..|others| - 1]) + Outpost(others[|others| - 1], |others| - 1)
  }

  /** Everything `createInitialEntities` creates, in creation order. */
  function InitialLayout(player: Faction, others: seq<Faction>): (r: seq<Spawn>)
  {
    PlayerHome(player) + Outposts(others)
  }

  /** Creating one more outpost extends the layout by that outpost's three spawns. */
  lemma InitialLayoutSnoc(player: Faction, others: seq<Faction>, i: nat)
    requires i < |others|
    ensures InitialLayout(player, others[..i + 1]) == InitialLayout(player, others[..i]) + Outpost(others[i], i)
  {
    assert others[..i + 1][..i] == others[..i];
  }

  lemma {:induction false} OutpostsShape(others: seq<Faction>)
    ensures |Outposts(others)| == 3 * |others|
    ensures forall j, m :: 0 <= j < |others| && 0 <= m < 3 ==> Outposts(others)[3 * j + m] == Outpost(others[j], j)[m]
  {
    if others != [] {
      var init := others[..|others| - 1];
      OutpostsShape(init);
      forall j, m | 0 <= j < |others| && 0 <= m < 3
        ensures Outposts(others)[3 * j + m] == Outpost(others[j], j)[m]
      {
        if j < |init| {
          assert others[j] == init[j];
        }
      }
    }
  }

  /**
   * The starting layout: three player ships and one player station first,
   * then two ships and one station for each other faction, each owned by the
   * faction it was made for.
   */
  lemma InitialLayoutShape(player: Faction, others: seq<Faction>)
    ensures |InitialLayout(player, others)| == 4 + 3 * |others|
    ensures forall i :: 0 <= i < 4 ==> InitialLayout(player, others)[i].faction == player &&
                                       (InitialLayout(player, others)[i].kind.Ship? <==> i < 3)
    ensures forall j :: 0 <= j < |others| ==>
              var block := InitialLayout(player, others)[4 + 3 * j .. 4 + 3 * j + 3];
              block == Outpost(others[j], j) &&
              block[0].kind.Ship? && block[1].kind.Ship? && block[2].kind.Station? &&
              block[0].faction == block[1].faction == block[2].faction == others[j]
  {
    OutpostsShape(others);
    forall j | 0 <= j < |others|
      ensures InitialLayout(player, others)[4 + 3 * j .. 4 + 3 * j + 3] == Outpost(others[j], j)
    {
      assert Outposts(others)[3 * j] == Outpost(others[j], j)[0];
      assert Outposts(others)[3 * j + 1] == Outpost(others[j], j)[1];
      assert Outposts(others)[3 * j + 2] == Outpost(others[j], j)[2];
    }
  }

  /** With the registry and `init`'s player faction, the game starts with 13 entities. */
  lemma InitialLayoutOnRegistry()
    ensures |InitialLayout(Registry[0], NonPlayerFactions(Registry, Registry[0]))| == 13
  {
    RegistryOthers();
    InitialLayoutShape(Registry[0], Registry[1..]);
  }

  /** A freshly created entity as a creation call describes it. */
  ghost predicate Realises(e: Entity, s: Spawn)
    reads e
  {
    e.kind == s.kind && e.faction == s.faction && e.gridPosition == s.cell && e.isMoving == None
  }

  /** A run of freshly created entities matches, one for one, the creation calls that made them. */
  ghost predicate Built(es: seq<Entity>, layout: seq<Spawn>)
    reads set e | e in es
  {
    |es| == |layout| && forall i :: 0 <= i < |es| ==> Realises(es[i], layout[i])
  }

  lemma BuiltAppend(es: seq<Entity>, layout: seq<Spawn>, more: seq<Entity>, moreLayout: seq<Spawn>)
    requires Built(es, layout) && Built(more, moreLayout)
    ensures Built(es + more, layout + moreLayout)
  {
    forall i | 0 <= i < |es + more|
      ensures Realises((es + more)[i], (layout + moreLayout)[i])
    {
      if i >= |es| {
        assert (es + more)[i] == more[i - |es|];
      }
    }
  }

  /** `EntityManager`: the entity list and the pending "move to" order. */
  class EntityManager {
    var entities: seq<Entity>
    var targetShip: Entity?
    var waitingForMoveTarget: bool

    /** A ship is pending only while the manager waits for a move target. */
    ghost predicate Valid()
      reads this`targetShip, this`waitingForMoveTarget
    {
      !waitingForMoveTarget ==> targetShip == null
    }

    constructor ()
      ensures Valid()
      ensures entities == [] && targetShip == null && !waitingForMoveTarget
    {
      entities := [];
      targetShip := null;
      waitingForMoveTarget := false;
    }

    /** `init`: empties the entity list (the scene handle is not modelled; the pending order is left as is). */
    method Init()
      modifies this`entities
      ensures entities == []
      ensures old(Valid()) ==> Valid()
    {
      entities := [];
    }

    /** `createShip`: appends a new ship on the given cell; no occupancy check is made. */
    method CreateShip(gridX: int, gridY: int, faction: Faction, ident: Identity) returns (ship: Entity)
      modifies this`entities
      ensures fresh(ship)
      ensures entities == old(entities) + [ship]
      ensures old(Valid()) ==> Valid()
      ensures ship.kind == Ship(ShipVelocity) && ship.faction == faction && ship.gridPosition == Cell(gridX, gridY)
      ensures ship.id == ident.id && ship.mesh == ident.mesh && ship.isMoving == None
    {
      ship := new Entity(ident, Ship(ShipVelocity), faction, Cell(gridX, gridY));
      entities := entities + [ship];
    }

    /** `createStation`: appends a new station (no velocity) on the given cell. */
    method CreateStation(gridX: int, gridY: int, faction: Faction, ident: Identity) returns (station: Entity)
      modifies this`entities
      ensures fresh(station)
      ensures entities == old(entities) + [station]
      ensures old(Valid()) ==> Valid()
      ensures station.kind == Station && station.faction == faction && station.gridPosition == Cell(gridX, gridY)
      ensures station.id == ident.id && station.mesh == ident.mesh && station.isMoving == None
    {
      station := new Entity(ident, Station, faction, Cell(gridX, gridY));
      entities := entities + [station];
    }

    /**
     * `moveShipTo`: nothing happens for a null or non-ship entity; otherwise
     * an animation towards the target starts. Nothing changes now: the new
     * cell is committed only by `CompleteMove`, when the animation ends.
     */
    method MoveShipTo(ship: Entity?, targetGridX: int, targetGridY: int) returns (t: Option<Tween>)
      ensures t.None? <==> ship == null || !ship.kind.Ship?
      ensures t.Some? ==> t.value.ship == ship && t.value.target == Cell(targetGridX, targetGridY)
    {
      if ship == null || !ship.kind.Ship? {
        return None;
      }
      t := Some(Tween(ship, Cell(targetGridX, targetGridY)));
    }

    /** The tween's `onComplete`: the ship's cell becomes exactly the requested one. */
    method CompleteMove(t: Tween)
      modifies t.ship
      ensures t.ship.gridPosition == t.target
    {
      t.ship.gridPosition := t.target;
    }

    /** `setTargetShipForMove`: remembers the ship and starts waiting for a target cell. */
    method SetTargetShipForMove(ship: Entity?)
      modifies this`targetShip, this`waitingForMoveTarget
      ensures Valid()
      ensures targetShip == ship && waitingForMoveTarget
    {
      targetShip := ship;
      waitingForMoveTarget := true;
    }

    /**
     * `handleMoveTargetSelection`: with a ship pending, moves it to the cell,
     * clears the pending order and reports true; otherwise reports false and
     * changes nothing.
     */
    method HandleMoveTargetSelection(gridX: int, gridY: int) returns (handled: bool, t: Option<Tween>)
      modifies this`targetShip, this`waitingForMoveTarget
      ensures old(Valid()) ==> Valid()
      ensures handled <==> old(waitingForMoveTarget) && old(targetShip) != null
      ensures handled ==> targetShip == null && !waitingForMoveTarget
      ensures handled ==> (t.Some? <==> old(targetShip).kind.Ship?)
      ensures handled && t.Some? ==> t.value == Tween(old(targetShip), Cell(gridX, gridY))
      ensures !handled ==> t.None? && targetShip == old(targetShip) && waitingForMoveTarget == old(waitingForMoveTarget)
    {
      if waitingForMoveTarget && targetShip != null {
        t := MoveShipTo(targetShip, gridX, gridY);
        targetShip := null;
        waitingForMoveTarget := false;
        return true, t;
      }
      return false, None;
    }

    /** The "Cancel" menu entry and the Escape key: the pending order is dropped. */
    method Cancel()
      modifies this`targetShip, this`waitingForMoveTarget
      ensures Valid()
      ensures targetShip == null && !waitingForMoveTarget
    {
      targetShip := null;
      waitingForMoveTarget := false;
    }

    /** The body of the `forEach` in `createInitialEntities`: the outpost of the `index`-th other faction. */
    method CreateOutpost(f: Faction, index: nat, host: Host) returns (ghost made: seq<Entity>)
      modifies this`entities, host`issued
      ensures entities == old(entities) + made
      ensures Built(made, Outpost(f, index))
      ensures forall e :: e in made ==> fresh(e)
    {
      var base := 10 * (index + 1);
      var ident := host.NewIdentity();
      var a := CreateShip(base, base, f, ident);
      ident := host.NewIdentity();
      var b := CreateShip(base + 2, base + 2, f, ident);
      ident := host.NewIdentity();
      var c := CreateStation(base + 4, base + 4, f, ident);
      made := [a, b, c];
    }

    /** The first four calls of `createInitialEntities`: the player's three ships and station. */
    method CreatePlayerHome(player: Faction, host: Host) returns (ghost made: seq<Entity>)
      modifies this`entities, host`issued
      ensures entities == old(entities) + made
      ensures Built(made, PlayerHome(player))
      ensures forall e :: e in made ==> fresh(e)
    {
      var ident := host.NewIdentity();
      var a := CreateShip(-10, -10, player, ident);
      ident := host.NewIdentity();
      var b := CreateShip(-8, -12, player, ident);
      ident := host.NewIdentity();
      var c := CreateShip(-12, -8, player, ident);
      ident := host.NewIdentity();
      var d := CreateStation(-10, -14, player, ident);
      made := [a, b, c, d];
    }

    /**
     * `createInitialEntities`: the player's fleet, then an outpost per other
     * faction; `made` is the run of entities it appends.
     */
    method CreateInitialEntities(fm: FactionManager, host: Host) returns (ghost made: seq<Entity>)
      requires fm.playerFaction.Some?
      modifies this`entities, host`issued
      ensures entities == old(entities) + made
      ensures Built(made, InitialLayout(fm.playerFaction.value, NonPlayerFactions(fm.factions, fm.playerFaction.value)))
      ensures forall e :: e in made ==> fresh(e)
    {
      var player := fm.playerFaction.value;
      made := CreatePlayerHome(player, host);

      var others := NonPlayerFactions(fm.factions, player);
      var index := 0;
      assert others[..0] == [];
      while index < |others|
        invariant 0 <= index <= |others|
        invariant entities == old(entities) + made
        invariant Built(made, InitialLayout(player, others[..index]))
        invariant forall e :: e in made ==> fresh(e)
      {
        ghost var done := InitialLayout(player, others[..index]);
        ghost var outpost := CreateOutpost(others[index], index, host);
        BuiltAppend(made, done, outpost, Outpost(others[index], index));
        InitialLayoutSnoc(player, others, index);
        Sequences.AppendAssoc(old(entities), made, outpost);
        made := made + outpost;
        index := index + 1;
      }
      assert others[..index] == others;
    }
  }

}
