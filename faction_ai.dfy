/**
 * The AI pass of faction-ai.js. `Date.now()` is the `now` argument and
 * `Math.random()` is the host's draw stream, so one pass is deterministic.
 */
module FactionAI {
  import opened Wrappers
  import opened Sequences
  import opened Utils
  import opened Factions
  import opened Environment
  import opened Entities

  /** Milliseconds a station waits between two ships: two minutes. */
  const ShipCreationCooldown: int := 2 * 60 * 1000

  /** How far, per axis, a random move may go from the ship's cell. */
  const MoveRange: int := 50

  /** How far, per axis, a ship is placed or sent from a station. */
  const StationRange: int := 3

  // ---------------------------------------------------------------------------
  // The cooldown table

  /** `stationCooldowns[id] || 0`: a station with no entry counts as last producing at time 0. */
  function LastCreation(cooldowns: map<string, int>, id: string): (t: int)
    ensures id !in cooldowns ==> t == 0
    ensures id in cooldowns ==> t == cooldowns[id]
  {
    if id in cooldowns then cooldowns[id] else 0
  }

  /** The cooldown test of `tryCreateShipFromStation`. */
  function Ready(cooldowns: map<string, int>, id: string, now: int): (b: bool)
    ensures id !in cooldowns ==> (b <==> now >= ShipCreationCooldown)
    ensures id in cooldowns ==> (b <==> now >= cooldowns[id] + ShipCreationCooldown)
  {
    now - LastCreation(cooldowns, id) >= ShipCreationCooldown
  }

  /** The table after one production attempt: stamped with `now` exactly when a ship is made. */
  function AfterAttempt(cooldowns: map<string, int>, id: string, now: int): (r: map<string, int>)
    ensures !Ready(r, id, now)
    ensures Ready(cooldowns, id, now) ==> LastCreation(r, id) == now
    ensures !Ready(cooldowns, id, now) ==> r == cooldowns
  {
    if Ready(cooldowns, id, now) then cooldowns[id := now] else cooldowns
  }

  /** A station that has never produced is ready as soon as the clock reads two minutes. */
  lemma UnrecordedStationIsReady(cooldowns: map<string, int>, id: string, now: int)
    requires id !in cooldowns
    ensures Ready(cooldowns, id, now) <==> now >= ShipCreationCooldown
  {
  }

  /** Right after an attempt, at the same instant, the station is not ready, whatever happened. */
  lemma AttemptCoolsStation(cooldowns: map<string, int>, id: string, now: int)
    ensures !Ready(AfterAttempt(cooldowns, id, now), id, now)
  {
  }

  /** Two attempts less than two minutes apart produce at most one ship between them. */
  lemma AtMostOneShipWithinCooldown(cooldowns: map<string, int>, id: string, first: int, second: int)
    requires second - first < ShipCreationCooldown
    ensures !(Ready(cooldowns, id, first) && Ready(AfterAttempt(cooldowns, id, first), id, second))
  {
  }

  /** Once the cooldown has elapsed after a production, the next attempt produces again. */
  lemma ReadyAgainAfterCooldown(cooldowns: map<string, int>, id: string, first: int, second: int)
    requires Ready(cooldowns, id, first)
    requires second - first >= ShipCreationCooldown
    ensures Ready(AfterAttempt(cooldowns, id, first), id, second)
  {
  }

  /** An attempt touches only its own station's entry. */
  lemma AttemptIsLocal(cooldowns: map<string, int>, id: string, other: string, now: int)
    requires other != id
    ensures LastCreation(AfterAttempt(cooldowns, id, now), other) == LastCreation(cooldowns, other)
  {
  }

  /** The table after an attempt on each station in turn. */
  function AttemptAll(cooldowns: map<string, int>, stations: seq<Entity>, now: int): (r: map<string, int>)
  {
    if stations == [] then cooldowns
    else AfterAttempt(AttemptAll(cooldowns, stations[..|stations| - 1], now), stations[|stations| - 1].id, now)
  }

  /** How many of those attempts produce a ship. */
  function Produced(cooldowns: map<string, int>, stations: seq<Entity>, now: int): (n: nat)
  {
    if stations == [] then 0
    else
      var earlier := stations[..|stations| - 1];
      Produced(cooldowns, earlier, now) +
      (if Ready(AttemptAll(cooldowns, earlier, now), stations[|stations| - 1].id, now) then 1 else 0)
  }

  /** The stations among those attempts that produce a ship, in the order they produce. */
  function Producers(cooldowns: map<string, int>, stations: seq<Entity>, now: int): (r: seq<Entity>)
    ensures |r| == Produced(cooldowns, stations, now)
    ensures forall s :: s in r ==> s in stations
  {
    if stations == [] then []
    else
      var earlier := stations[..|stations| - 1];
      var last := stations[|stations| - 1];
      Producers(cooldowns, earlier, now) + if Ready(AttemptAll(cooldowns, earlier, now), last.id, now) then [last] else []
  }

  /**
   * After one attempt on each station, no station is ready any more, and
   * every entry of the table either kept its old value or was stamped `now`.
   */
  lemma {:induction false} AttemptAllCoolsAll(cooldowns: map<string, int>, stations: seq<Entity>, now: int)
    ensures forall i :: 0 <= i < |stations| ==> !Ready(AttemptAll(cooldowns, stations, now), stations[i].id, now)
    ensures forall id :: LastCreation(AttemptAll(cooldowns, stations, now), id) in {LastCreation(cooldowns, id), now}
  {
    if stations != [] {
      var earlier := stations[..|stations| - 1];
      var last := stations[|stations| - 1];
      var mid := AttemptAll(cooldowns, earlier, now);
      AttemptAllCoolsAll(cooldowns, earlier, now);
      forall i | 0 <= i < |stations|
        ensures !Ready(AttemptAll(cooldowns, stations, now), stations[i].id, now)
      {
        if stations[i].id != last.id {
          assert stations[i] == earlier[i];
          AttemptIsLocal(mid, last.id, stations[i].id, now);
        }
      }
      forall id
        ensures LastCreation(AttemptAll(cooldowns, stations, now), id) in {LastCreation(cooldowns, id), now}
      {
        if id != last.id {
          AttemptIsLocal(mid, last.id, id, now);
        }
      }
    }
  }

  /** One more attempt, on the next station of the list. */
  lemma AttemptSnoc(cooldowns: map<string, int>, stations: seq<Entity>, k: nat, now: int)
    requires k < |stations|
    ensures AttemptAll(cooldowns, stations[..k + 1], now) ==
            AfterAttempt(AttemptAll(cooldowns, stations[..k], now), stations[k].id, now)
    ensures Produced(cooldowns, stations[..k + 1], now) ==
            Produced(cooldowns, stations[..k], now) + if Ready(AttemptAll(cooldowns, stations[..k], now), stations[k].id, now) then 1 else 0
    ensures Producers(cooldowns, stations[..k + 1], now) ==
            Producers(cooldowns, stations[..k], now) + if Ready(AttemptAll(cooldowns, stations[..k], now), stations[k].id, now) then [stations[k]] else []
  {
    assert stations[..k + 1][..k] == stations[..k];
  }

  /** Attempting two runs of stations one after the other is attempting their concatenation. */
  lemma {:induction false} AttemptAllAppend(cooldowns: map<string, int>, a: seq<Entity>, b: seq<Entity>, now: int)
    ensures AttemptAll(cooldowns, a + b, now) == AttemptAll(AttemptAll(cooldowns, a, now), b, now)
    ensures Produced(cooldowns, a + b, now) == Produced(cooldowns, a, now) + Produced(AttemptAll(cooldowns, a, now), b, now)
  {
    if b == [] {
      assert a + b == a;
    } else {
      var init := b[..|b| - 1];
      assert (a + b)[..|a + b| - 1] == a + init;
      AttemptAllAppend(cooldowns, a, init, now);
    }
  }

  // ---------------------------------------------------------------------------
  // Offsets

  /** A ship is placed or sent within this many cells of an anchor, per axis. */
  predicate Within(target: Cell, anchor: Cell, range: int)
  {
    -range <= target.x - anchor.x <= range && -range <= target.y - anchor.y <= range
  }

  /** Next to a station: within three cells on each axis, and not on the station's own cell. */
  predicate NearStation(target: Cell, station: Cell)
  {
    Within(target, station, StationRange) && target != station
  }

  /** The (0, 0) guard of faction-ai.js: a zero offset becomes (1, 0); any other offset is kept. */
  function CoerceOffset(offsetX: int, offsetY: int): (d: Cell)
    ensures d != Cell(0, 0)
    ensures offsetX == 0 && offsetY == 0 ==> d == Cell(1, 0)
    ensures Cell(offsetX, offsetY) != Cell(0, 0) ==> d == Cell(offsetX, offsetY)
    ensures d.y == offsetY
    ensures -StationRange <= offsetX <= StationRange && -StationRange <= offsetY <= StationRange ==>
              -StationRange <= d.x <= StationRange
  {
    if offsetX == 0 && offsetY == 0 then Cell(1, offsetY) else Cell(offsetX, offsetY)
  }

  /** The offset `tryCreateShipFromStation` and `moveShipRandomly` compute from two draws. */
  function StationOffset(drawX: real, drawY: real): (d: Cell)
    requires 0.0 <= drawX < 1.0 && 0.0 <= drawY < 1.0
    ensures d != Cell(0, 0)
    ensures -StationRange <= d.x <= StationRange && -StationRange <= d.y <= StationRange
  {
    CoerceOffset(RandomInt(-StationRange, StationRange, drawX), RandomInt(-StationRange, StationRange, drawY))
  }

  /** Adding a coerced station offset always lands next to the station, never on it. */
  lemma StationOffsetLandsNear(station: Cell, drawX: real, drawY: real)
    requires 0.0 <= drawX < 1.0 && 0.0 <= drawY < 1.0
    ensures NearStation(Cell(station.x + StationOffset(drawX, drawY).x, station.y + StationOffset(drawX, drawY).y), station)
  {
  }

  /** A random step of `randomInt(-50, 50)` per axis stays within fifty cells. */
  lemma RandomStepStaysInRange(origin: Cell, drawX: real, drawY: real)
    requires 0.0 <= drawX < 1.0 && 0.0 <= drawY < 1.0
    ensures Within(Cell(origin.x + RandomInt(-MoveRange, MoveRange, drawX), origin.y + RandomInt(-MoveRange, MoveRange, drawY)),
                   origin, MoveRange)
  {
  }

  // ---------------------------------------------------------------------------
  // The filters of `makeDecisions`

  /** The `faction.factionAi` test. */
  predicate IsManaged(f: Faction)
  {
    f.factionAi
  }

  /** The factions `makeDecisions` acts for. */
  function Managed(factions: seq<Faction>): (r: seq<Faction>)
  {
    Filter(factions, IsManaged)
  }

  /** The `entity.faction.id === faction.id` test. */
  function OwnerIs(id: string): Entity -> bool
  {
    (e: Entity) => e.faction.id == id
  }

  /** The entities whose faction has the given id. */
  function OwnedBy(entities: seq<Entity>, id: string): (r: seq<Entity>)
  {
    Filter<Entity>(entities, OwnerIs(id))
  }

  predicate IsStation(e: Entity)
  {
    e.kind.Station?
  }

  /** The `type === 'ship' && isMoving === false` test. */
  predicate IsIdleShip(e: Entity)
  {
    e.kind.Ship? && e.isMoving == Some(false)
  }

  /** The stations a pass attempts production on, in the order it attempts them. */
  function AttemptPlan(managed: seq<Faction>, entities: seq<Entity>): (r: seq<Entity>)
  {
    if managed == [] then []
    else AttemptPlan(managed[..|managed| - 1], entities) + Filter<Entity>(OwnedBy(entities, managed[|managed| - 1].id), IsStation)
  }

  lemma AttemptPlanSnoc(managed: seq<Faction>, i: nat, entities: seq<Entity>)
    requires i < |managed|
    ensures AttemptPlan(managed[..i + 1], entities) ==
            AttemptPlan(managed[..i], entities) + Filter<Entity>(OwnedBy(entities, managed[i].id), IsStation)
  {
    assert managed[..i + 1][..i] == managed[..i];
  }

  /** The bookkeeping of one faction's turn in the pass: its stations extend the plan, the table and the count. */
  lemma PassStep(managed: seq<Faction>, i: nat, start: seq<Entity>, table: map<string, int>,
                 plan: seq<Entity>, stations: seq<Entity>, made: seq<Entity>, more: seq<Entity>, now: int)
    requires i < |managed| && plan == AttemptPlan(managed[..i], start)
    requires stations == Filter<Entity>(OwnedBy(start, managed[i].id), IsStation)
    requires |made| == Produced(table, plan, now) && |more| == Produced(AttemptAll(table, plan, now), stations, now)
    ensures plan + stations == AttemptPlan(managed[..i + 1], start)
    ensures AttemptAll(table, plan + stations, now) == AttemptAll(AttemptAll(table, plan, now), stations, now)
    ensures |made + more| == Produced(table, plan + stations, now)
  {
    AttemptAllAppend(table, plan, stations, now);
    AttemptPlanSnoc(managed, i, start);
  }

  /** How many of the factions carry the given id. */
  function CountId(factions: seq<Faction>, id: string): (n: nat)
  {
    if factions == [] then 0
    else CountId(factions[..|factions| - 1], id) + (if factions[|factions| - 1].id == id then 1 else 0)
  }

  /**
   * A pass attempts each entity once for every managed faction that shares
   * the entity's faction id, and only if it is a station.
   */
  lemma {:induction false} AttemptPlanCount(managed: seq<Faction>, entities: seq<Entity>, x: Entity)
    ensures multiset(AttemptPlan(managed, entities))[x] ==
            if IsStation(x) then multiset(entities)[x] * CountId(managed, x.faction.id) else 0
  {
    if managed != [] {
      var init := managed[..|managed| - 1];
      var last := managed[|managed| - 1];
      var m := multiset(entities)[x];
      var c := CountId(init, x.faction.id);
      var total := CountId(managed, x.faction.id);
      AttemptPlanCount(init, entities, x);
      AttemptPlanStep(managed, entities, x);
      if !IsStation(x) {
      } else if last.id == x.faction.id {
        assert total == c + 1;
        MultiplySucc(m, c);
        assert multiset(AttemptPlan(managed, entities))[x] == m * c + m;
      } else {
        assert total == c;
        assert multiset(AttemptPlan(managed, entities))[x] == m * c;
      }
    }
  }

  /** The last managed faction adds each of its stations to the plan as often as the entity list holds it. */
  lemma AttemptPlanStep(managed: seq<Faction>, entities: seq<Entity>, x: Entity)
    requires managed != []
    ensures multiset(AttemptPlan(managed, entities))[x] ==
            multiset(AttemptPlan(managed[..|managed| - 1], entities))[x] +
            if IsStation(x) && x.faction.id == managed[|managed| - 1].id then multiset(entities)[x] else 0
  {
    var last := managed[|managed| - 1];
    var here: seq<Entity> := Filter<Entity>(OwnedBy(entities, last.id), IsStation);
    var before: seq<Entity> := AttemptPlan(managed[..|managed| - 1], entities);
    StationsOwnedCount(entities, last.id, x);
    assert AttemptPlan(managed, entities) == before + here;
    assert multiset(before + here)[x] == multiset(before)[x] + multiset(here)[x];
  }

  lemma MultiplySucc(m: nat, c: nat)
    ensures m * (c + 1) == m * c + m
  {
  }

  /** One faction's share of the plan holds each of its stations as often as the entity list does. */
  lemma StationsOwnedCount(entities: seq<Entity>, id: string, x: Entity)
    ensures multiset(Filter<Entity>(OwnedBy(entities, id), IsStation))[x] ==
            if IsStation(x) && x.faction.id == id then multiset(entities)[x] else 0
  {
    var owned: seq<Entity> := OwnedBy(entities, id);
    var stations: seq<Entity> := Filter<Entity>(owned, IsStation);
    FilterCount<Entity>(owned, IsStation, x);
    FilterCount<Entity>(entities, OwnerIs(id), x);
    assert multiset(stations)[x] == if IsStation(x) then multiset(owned)[x] else 0;
    assert multiset(owned)[x] == if x.faction.id == id then multiset(entities)[x] else 0;
  }

  lemma {:induction false} CountIdOfDistinct(factions: seq<Faction>, id: string)
    requires DistinctIds(factions)
    ensures CountId(factions, id) == if exists i :: 0 <= i < |factions| && factions[i].id == id then 1 else 0
  {
    if factions != [] {
      var init := factions[..|factions| - 1];
      CountIdOfDistinct(init, id);
      if exists i :: 0 <= i < |init| && init[i].id == id {
        var i :| 0 <= i < |init| && init[i].id == id;
        assert factions[i].id == id;
      }
      if exists i :: 0 <= i < |factions| && factions[i].id == id {
        var i :| 0 <= i < |factions| && factions[i].id == id;
        if i < |init| {
          assert init[i].id == id;
        }
      }
    }
  }

  /** Keeping some of a list of factions with distinct ids keeps the ids distinct. */
  lemma {:induction false} FilterKeepsDistinctIds(factions: seq<Faction>, p: Faction -> bool)
    requires DistinctIds(factions)
    ensures DistinctIds(Filter(factions, p))
  {
    if factions != [] {
      var init := factions[..|factions| - 1];
      var last := factions[|factions| - 1];
      FilterKeepsDistinctIds(init, p);
      var kept := Filter(init, p);
      forall i | 0 <= i < |kept|
        ensures kept[i].id != last.id
      {
        var a :| 0 <= a < |init| && init[a] == kept[i];
        assert factions[a] == init[a];
      }
    }
  }

  /**
   * With distinct faction ids and no entity listed twice, every station owned
   * by a managed faction receives exactly one attempt per pass, and no other
   * entity receives any.
   */
  lemma EachStationAttemptedOnce(factions: seq<Faction>, entities: seq<Entity>, k: nat)
    requires DistinctIds(factions)
    requires k < |entities| && forall j :: 0 <= j < |entities| && j != k ==> entities[j] != entities[k]
    ensures multiset(AttemptPlan(Managed(factions), entities))[entities[k]] ==
            if IsStation(entities[k]) && exists f :: f in factions && IsManaged(f) && f.id == entities[k].faction.id
            then 1 else 0
  {
    var managed := Managed(factions);
    var x := entities[k];
    FilterKeepsDistinctIds(factions, IsManaged);
    AttemptPlanCount(managed, entities, x);
    CountIdOfDistinct(managed, x.faction.id);
    if exists f :: f in factions && IsManaged(f) && f.id == x.faction.id {
      var f :| f in factions && IsManaged(f) && f.id == x.faction.id;
      var a :| 0 <= a < |factions| && factions[a] == f;
      assert f in managed;
    }
    OccursOnce<Entity>(entities, k);
  }

  // ---------------------------------------------------------------------------
  // The AI object

  /** A ship made by a station: an ordinary new ship of the station's faction, next to the station. */
  ghost predicate Spawned(e: Entity, station: Entity)
    reads e`gridPosition, station`gridPosition
  {
    e.kind == Ship(ShipVelocity) && e.isMoving == None && e.faction == station.faction &&
    NearStation(e.gridPosition, station.gridPosition)
  }

  /** Every move order went to an idle ship of the original list owned by a managed faction. */
  ghost predicate MovesFrom(moves: seq<Tween>, start: seq<Entity>, managed: seq<Faction>)
  {
    forall t :: t in moves ==> t.ship in start && IsIdleShip(t.ship) && exists f :: f in managed && f.id == t.ship.faction.id
  }

  lemma MovesAppend(moves: seq<Tween>, more: seq<Tween>, start: seq<Entity>, managed: seq<Faction>, i: nat)
    requires MovesFrom(moves, start, managed) && i < |managed|
    requires forall t :: t in more ==> t.ship in start && IsIdleShip(t.ship) && t.ship.faction.id == managed[i].id
    ensures MovesFrom(moves + more, start, managed)
  {
    forall t | t in moves + more
      ensures t.ship in start && IsIdleShip(t.ship) && exists f :: f in managed && f.id == t.ship.faction.id
    {
      if t in more {
        assert managed[i] in managed;
      }
    }
  }

  /** Entities as the game creates them never carry `isMoving`, so none of them is ever idle. */
  lemma CreatedEntitiesAreNeverIdle(entities: seq<Entity>)
    requires forall i :: 0 <= i < |entities| ==> entities[i].isMoving == None
    ensures forall i :: 0 <= i < |entities| ==> !IsIdleShip(entities[i])
  {
  }

  /** None of the registry's factions carries `factionAi`, so a pass over the registry acts for nobody. */
  lemma RegistryHasNoManagedFaction()
    ensures Managed(Registry) == []
  {
    RegistryShape();
    FilterNone(Registry, IsManaged);
  }

  /** Every entity of `made` was made by one of `stations`. */
  /** The i-th ship of `made` was made by the i-th station of `producers`. */
  ghost predicate SpawnedBy(made: seq<Entity>, producers: seq<Entity>)
    reads (set e | e in made)`gridPosition, (set s | s in producers)`gridPosition
  {
    |made| == |producers| && forall i :: 0 <= i < |made| ==> Spawned(made[i], producers[i])
  }

  lemma SpawnedByAppend(made: seq<Entity>, producers: seq<Entity>, more: seq<Entity>, moreProducers: seq<Entity>)
    requires SpawnedBy(made, producers) && SpawnedBy(more, moreProducers)
    ensures SpawnedBy(made + more, producers + moreProducers)
  {
    forall i | 0 <= i < |made + more|
      ensures Spawned((made + more)[i], (producers + moreProducers)[i])
    {
      if i >= |made| {
        assert (made + more)[i] == more[i - |made|];
        assert (producers + moreProducers)[i] == moreProducers[i - |made|];
      }
    }
  }

  ghost predicate SpawnedFrom(made: seq<Entity>, stations: seq<Entity>)
    reads (set e | e in made)`gridPosition, (set s | s in stations)`gridPosition
  {
    forall e :: e in made ==> exists s :: s in stations && Spawned(e, s)
  }

  /** Ships paired with producers drawn from `stations` were each made by one of `stations`. */
  lemma SpawnedByIsFrom(made: seq<Entity>, producers: seq<Entity>, stations: seq<Entity>)
    requires SpawnedBy(made, producers) && forall s :: s in producers ==> s in stations
    ensures SpawnedFrom(made, stations)
  {
    forall e | e in made
      ensures exists s :: s in stations && Spawned(e, s)
    {
      var i :| 0 <= i < |made| && made[i] == e;
      assert producers[i] in producers;
    }
  }

  lemma SpawnedAreShips(made: seq<Entity>, stations: seq<Entity>)
    requires SpawnedFrom(made, stations)
    ensures forall e :: e in made ==> !IsStation(e) && !IsIdleShip(e)
  {
    forall e | e in made
      ensures !IsStation(e) && !IsIdleShip(e)
    {
      var s :| s in stations && Spawned(e, s);
    }
  }

  lemma SpawnedAppend(made: seq<Entity>, stations: seq<Entity>, more: seq<Entity>, moreStations: seq<Entity>)
    requires SpawnedFrom(made, stations) && SpawnedFrom(more, moreStations)
    ensures SpawnedFrom(made + more, stations + moreStations)
  {
    forall e | e in made + more
      ensures exists s :: s in stations + moreStations && Spawned(e, s)
    {
      if e in made {
        var s :| s in stations && Spawned(e, s);
        assert s in stations + moreStations;
      } else {
        var s :| s in moreStations && Spawned(e, s);
        assert s in stations + moreStations;
      }
    }
  }


  /** Growing the list by non-stations leaves every faction's station list as it was. */
  lemma GrowthKeepsStations(entities: seq<Entity>, added: seq<Entity>, id: string)
    requires forall i :: 0 <= i < |added| ==> !IsStation(added[i])
    ensures Filter<Entity>(OwnedBy(entities + added, id), IsStation) == Filter<Entity>(OwnedBy(entities, id), IsStation)
  {
    FilterAppend<Entity>(entities, added, OwnerIs(id));
    FilterAppend<Entity>(OwnedBy(entities, id), OwnedBy(added, id), IsStation);
    FilterNone<Entity>(OwnedBy(added, id), IsStation);
    assert Filter<Entity>(OwnedBy(entities, id), IsStation) + [] == Filter<Entity>(OwnedBy(entities, id), IsStation);
  }

  /** `FactionAI`: the per-station cooldown table, updated in place. */
  class FactionAi {
    var stationCooldowns: map<string, int>

    constructor ()
      ensures stationCooldowns == map[]
    {
      stationCooldowns := map[];
    }

    /**
     * `tryCreateShipFromStation` at time `now`: when the cooldown has elapsed,
     * one ship of the station's faction is appended next to the station and
     * the station's entry is stamped `now`; otherwise nothing changes.
     */
    method TryCreateShipFromStation(em: EntityManager, station: Entity, now: int, host: Host) returns (ghost made: seq<Entity>)
      requires host.Valid()
      modifies this`stationCooldowns, em`entities, host`drawn, host`issued
      ensures stationCooldowns == AfterAttempt(old(stationCooldowns), station.id, now)
      ensures em.entities == old(em.entities) + made
      ensures |made| == if Ready(old(stationCooldowns), station.id, now) then 1 else 0
      ensures forall e :: e in made ==> fresh(e) && Spawned(e, station)
      ensures Ready(old(stationCooldowns), station.id, now) ==>
                host.drawn == old(host.drawn) + 2 && host.issued == old(host.issued) + 1 &&
                made[0].id == host.identities(old(host.issued)).id &&
                made[0].gridPosition ==
                  var d := StationOffset(host.draws(old(host.drawn)), host.draws(old(host.drawn) + 1));
                  Cell(station.gridPosition.x + d.x, station.gridPosition.y + d.y)
      ensures !Ready(old(stationCooldowns), station.id, now) ==> host.drawn == old(host.drawn) && host.issued == old(host.issued)
    {
      made := [];
      var lastCreation := LastCreation(stationCooldowns, station.id);
      if now - lastCreation >= ShipCreationCooldown {
        var drawX := host.Random();
        var drawY := host.Random();
        var offset := CoerceOffset(RandomInt(-StationRange, StationRange, drawX), RandomInt(-StationRange, StationRange, drawY));
        assert offset == StationOffset(drawX, drawY);
        var ident := host.NewIdentity();
        var ship := em.CreateShip(station.gridPosition.x + offset.x, station.gridPosition.y + offset.y, station.faction, ident);
        made := [ship];
        stationCooldowns := stationCooldowns[station.id := now];
      }
    }

    /**
     * `moveShipRandomly`: with a first draw below 0.7 a random step of up to
     * 50 cells per axis; otherwise a cell next to a station picked among all
     * stations of every faction, or a random step when there is no station.
     */
    method MoveShipRandomly(em: EntityManager, ship: Entity, host: Host) returns (t: Option<Tween>)
      requires host.Valid()
      modifies host`drawn
      ensures t.Some? <==> ship.kind.Ship?
      ensures t.Some? ==> t.value.ship == ship
      ensures t.Some? && (host.draws(old(host.drawn)) < 0.7 || Filter<Entity>(em.entities, IsStation) == []) ==>
                Within(t.value.target, ship.gridPosition, MoveRange)
      ensures t.Some? && host.draws(old(host.drawn)) >= 0.7 && Filter<Entity>(em.entities, IsStation) != [] ==>
                exists s :: s in em.entities && IsStation(s) && NearStation(t.value.target, s.gridPosition)
    {
      var branch := host.Random();
      var stations := Filter<Entity>(em.entities, IsStation);
      if branch < 0.7 || |stations| == 0 {
        var drawX := host.Random();
        var drawY := host.Random();
        RandomStepStaysInRange(ship.gridPosition, drawX, drawY);
        var targetX := ship.gridPosition.x + RandomInt(-MoveRange, MoveRange, drawX);
        var targetY := ship.gridPosition.y + RandomInt(-MoveRange, MoveRange, drawY);
        t := em.MoveShipTo(ship, targetX, targetY);
      } else {
        var pick := host.Random();
        RandomIndex(|stations|, pick);
        var targetStation := stations[(pick * |stations| as real).Floor];
        var drawX := host.Random();
        var drawY := host.Random();
        var offset := CoerceOffset(RandomInt(-StationRange, StationRange, drawX), RandomInt(-StationRange, StationRange, drawY));
        StationOffsetLandsNear(targetStation.gridPosition, drawX, drawY);
        t := em.MoveShipTo(ship, targetStation.gridPosition.x + offset.x, targetStation.gridPosition.y + offset.y);
      }
    }

    /** The ship loop of `makeDecisions`: each ship gets a move order when its draw is below 0.5. */
    method IssueMoves(em: EntityManager, ships: seq<Entity>, host: Host) returns (moves: seq<Tween>)
      requires host.Valid()
      modifies host`drawn
      ensures |moves| <= |ships|
      ensures forall t :: t in moves ==> t.ship in ships
    {
      moves := [];
      var j := 0;
      while j < |ships|
        invariant 0 <= j <= |ships| && |moves| <= j
        invariant forall t :: t in moves ==> t.ship in ships[..j]
      {
        var r := host.Random();
        if r < 0.5 {
          var t := MoveShipRandomly(em, ships[j], host);
          if t.Some? {
            moves := moves + [t.value];
          }
        }
        j := j + 1;
      }
    }

    /** The station loop of `makeDecisions`: one production attempt per station, in order. */
    method AttemptStations(em: EntityManager, stations: seq<Entity>, now: int, host: Host) returns (ghost made: seq<Entity>)
      requires host.Valid()
      modifies this`stationCooldowns, em`entities, host`drawn, host`issued
      ensures stationCooldowns == AttemptAll(old(stationCooldowns), stations, now)
      ensures em.entities == old(em.entities) + made
      ensures |made| == Produced(old(stationCooldowns), stations, now)
      ensures forall e :: e in made ==> fresh(e)
      ensures SpawnedFrom(made, stations)
      ensures SpawnedBy(made, Producers(old(stationCooldowns), stations, now))
    {
      ghost var table := stationCooldowns;
      made := [];
      var k := 0;
      assert stations[..0] == [];
      while k < |stations|
        invariant 0 <= k <= |stations|
        invariant stationCooldowns == AttemptAll(table, stations[..k], now)
        invariant em.entities == old(em.entities) + made
        invariant |made| == Produced(table, stations[..k], now)
        invariant forall e :: e in made ==> fresh(e)
        invariant SpawnedBy(made, Producers(table, stations[..k], now))
      {
        ghost var one := AttemptNext(em, stations, k, now, host, table, made);
        AppendAssoc(old(em.entities), made, one);
        made := made + one;
        k := k + 1;
      }
      assert stations[..k] == stations;
      SpawnedByIsFrom(made, Producers(table, stations, now), stations);
    }

    /** One turn of the station loop: the attempt on `stations[k]`, as seen from the loop. */
    method AttemptNext(em: EntityManager, stations: seq<Entity>, k: nat, now: int, host: Host,
                       ghost table: map<string, int>, ghost made: seq<Entity>) returns (ghost one: seq<Entity>)
      requires host.Valid() && k < |stations|
      requires stationCooldowns == AttemptAll(table, stations[..k], now)
      requires |made| == Produced(table, stations[..k], now)
      requires SpawnedBy(made, Producers(table, stations[..k], now))
      modifies this`stationCooldowns, em`entities, host`drawn, host`issued
      ensures stationCooldowns == AttemptAll(table, stations[..k + 1], now)
      ensures em.entities == old(em.entities) + one
      ensures |made + one| == Produced(table, stations[..k + 1], now)
      ensures forall e :: e in one ==> fresh(e)
      ensures SpawnedBy(made + one, Producers(table, stations[..k + 1], now))
    {
      AttemptSnoc(table, stations, k, now);
      one := TryCreateShipFromStation(em, stations[k], now, host);
      SpawnedByAppend(made, Producers(table, stations[..k], now), one, if |one| == 1 then [stations[k]] else []);
    }

    /**
     * The body of the `forEach` in `makeDecisions`, for one managed faction:
     * move orders for its idle ships, then one attempt per station it owns.
     * `start` is the list as the pass found it; everything added since is a
     * station-made ship, neither a station nor idle.
     */
    method DecideForFaction(faction: Faction, em: EntityManager, now: int, host: Host,
                            ghost start: seq<Entity>, ghost added: seq<Entity>)
      returns (moves: seq<Tween>, ghost stations: seq<Entity>, ghost made: seq<Entity>)
      requires host.Valid()
      requires em.entities == start + added
      requires forall e :: e in added ==> !IsStation(e) && !IsIdleShip(e)
      modifies this`stationCooldowns, em`entities, host`drawn, host`issued
      ensures stations == Filter<Entity>(OwnedBy(start, faction.id), IsStation)
      ensures stationCooldowns == AttemptAll(old(stationCooldowns), stations, now)
      ensures em.entities == old(em.entities) + made
      ensures |made| == Produced(old(stationCooldowns), stations, now)
      ensures forall e :: e in made ==> fresh(e)
      ensures SpawnedFrom(made, stations)
      ensures SpawnedBy(made, Producers(old(stationCooldowns), stations, now))
      ensures forall t :: t in moves ==> t.ship in start && IsIdleShip(t.ship) && t.ship.faction.id == faction.id
    {
      var factionEntities := OwnedBy(em.entities, faction.id);
      var ships := Filter<Entity>(factionEntities, IsIdleShip);
      moves := IssueMoves(em, ships, host);
      forall t | t in moves
        ensures t.ship in start && IsIdleShip(t.ship) && t.ship.faction.id == faction.id
      {
        assert t.ship in factionEntities && IsIdleShip(t.ship);
        assert OwnerIs(faction.id)(t.ship);
        assert t.ship !in added;
      }
      forall k | 0 <= k < |added|
        ensures !IsStation(added[k])
      {
        assert added[k] in added;
      }
      GrowthKeepsStations(start, added, faction.id);
      var siteList := Filter<Entity>(factionEntities, IsStation);
      made := AttemptStations(em, siteList, now, host);
      stations := siteList;
    }

    /**
     * One faction's turn of the pass, as seen from the pass: the state before
     * is that after `managed[..i]`, the state after that after `managed[..i + 1]`.
     */
    method TakeTurn(managed: seq<Faction>, i: nat, em: EntityManager, now: int, host: Host, ghost start: seq<Entity>,
                    ghost table: map<string, int>, ghost plan: seq<Entity>, ghost made: seq<Entity>, ghost sofar: seq<Tween>)
      returns (issued: seq<Tween>, ghost stations: seq<Entity>, ghost more: seq<Entity>)
      requires host.Valid() && i < |managed|
      requires plan == AttemptPlan(managed[..i], start)
      requires stationCooldowns == AttemptAll(table, plan, now)
      requires em.entities == start + made && |made| == Produced(table, plan, now)
      requires SpawnedFrom(made, plan) && MovesFrom(sofar, start, managed)
      modifies this`stationCooldowns, em`entities, host`drawn, host`issued
      ensures plan + stations == AttemptPlan(managed[..i + 1], start)
      ensures stationCooldowns == AttemptAll(table, plan + stations, now)
      ensures em.entities == start + (made + more)
      ensures |made + more| == Produced(table, plan + stations, now)
      ensures forall e :: e in more ==> fresh(e)
      ensures SpawnedFrom(made + more, plan + stations) && MovesFrom(sofar + issued, start, managed)
    {
      SpawnedAreShips(made, plan);
      issued, stations, more := DecideForFaction(managed[i], em, now, host, start, made);
      PassStep(managed, i, start, table, plan, stations, made, more, now);
      SpawnedAppend(made, plan, more, stations);
      MovesAppend(sofar, issued, start, managed, i);
      AppendAssoc(start, made, more);
    }

    /**
     * `makeDecisions`: for each faction whose `factionAi` is set, move orders
     * for its idle ships and one production attempt for each of its stations.
     * `attempted` records the stations attempted, in order, and `made` the
     * ships they produced.
     */
    method MakeDecisions(fm: FactionManager, em: EntityManager, now: int, host: Host)
      returns (moves: seq<Tween>, ghost attempted: seq<Entity>, ghost made: seq<Entity>)
      requires host.Valid()
      modifies this`stationCooldowns, em`entities, host`drawn, host`issued
      ensures attempted == AttemptPlan(Managed(fm.factions), old(em.entities))
      ensures stationCooldowns == AttemptAll(old(stationCooldowns), attempted, now)
      ensures em.entities == old(em.entities) + made
      ensures |made| == Produced(old(stationCooldowns), attempted, now)
      ensures forall e :: e in made ==> fresh(e)
      ensures SpawnedFrom(made, attempted)
      ensures MovesFrom(moves, old(em.entities), Managed(fm.factions))
      ensures Managed(fm.factions) == [] ==> moves == [] && host.drawn == old(host.drawn) && host.issued == old(host.issued)
    {
      var managed := Managed(fm.factions);
      ghost var start := em.entities;
      ghost var table := stationCooldowns;
      moves, attempted, made := [], [], [];
      var i := 0;
      assert managed[..0] == [];
      while i < |managed|
        invariant 0 <= i <= |managed|
        invariant attempted == AttemptPlan(managed[..i], start)
        invariant stationCooldowns == AttemptAll(table, attempted, now)
        invariant em.entities == start + made
        invariant |made| == Produced(table, attempted, now)
        invariant forall e :: e in made ==> fresh(e)
        invariant SpawnedFrom(made, attempted)
        invariant MovesFrom(moves, start, managed)
        invariant |managed| == 0 ==> moves == [] && host.drawn == old(host.drawn) && host.issued == old(host.issued)
      {
        var issued, stations, more := TakeTurn(managed, i, em, now, host, start, table, attempted, made, moves);
        moves := moves + issued;
        attempted := attempted + stations;
        made := made + more;
        i := i + 1;
      }
      assert managed[..i] == managed;
    }
  }

}
