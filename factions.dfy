/** The faction registry of factions.js. */
module Factions {
  import opened Wrappers
  import opened Sequences
  import Utils

  /**
   * A faction record. `factionAi` stands for the optional JavaScript property
   * of that name, which the AI pass tests for truthiness: none of the
   * registry's entries carries it, so it is `false` in all four.
   */
  datatype Faction = Faction(id: string, name: string, color: int, factionAi: bool)

  /** The four factions, in registry order; the first is the player's. */
  const Registry: seq<Faction> := [
    Faction("player", "Player Faction", 0x3498db, false),
    Faction("alpha", "Alpha Federation", 0xe74c3c, false),
    Faction("beta", "Beta Coalition", 0x2ecc71, false),
    Faction("gamma", "Gamma Empire", 0xf39c12, false)
  ]

  /** No two registry entries share an id. */
  predicate DistinctIds(fs: seq<Faction>)
  {
    forall i, j :: 0 <= i < j < |fs| ==> fs[i].id != fs[j].id
  }

  lemma RegistryShape()
    ensures |Registry| == 4
    ensures DistinctIds(Registry)
    ensures forall i :: 0 <= i < |Registry| ==> !Registry[i].factionAi
  {
    assert Registry[1].id[0] == 'a' && Registry[2].id[0] == 'b' && Registry[3].id[0] == 'g';
  }

  /** `FactionManager`: the faction list and the player faction chosen by `init` (null until then). */
  class FactionManager {
    const factions: seq<Faction>
    var playerFaction: Option<Faction>

    constructor ()
      ensures factions == Registry && playerFaction == None
    {
      factions := Registry;
      playerFaction := None;
    }

    /** `FactionManager.init`: the first entry becomes the player faction (the page update is not modelled). */
    method Init()
      requires factions == Registry
      modifies this`playerFaction
      ensures playerFaction == Some(factions[0])
    {
      playerFaction := Some(factions[0]);
    }
  }

  /** `getFaction`: the first faction with the given id, if there is one (`Array.prototype.find`). */
  function GetFaction(factions: seq<Faction>, id: string): (r: Option<Faction>)
    ensures r.None? <==> forall i :: 0 <= i < |factions| ==> factions[i].id != id
    ensures r.Some? ==> exists i :: 0 <= i < |factions| && factions[i] == r.value && r.value.id == id &&
                                    forall j :: 0 <= j < i ==> factions[j].id != id
  {
    if factions == [] then None
    else if factions[0].id == id then Some(factions[0])
    else
      var r := GetFaction(factions[1..], id);
      if r.Some? then
        ghost var i :| 0 <= i < |factions[1..]| && factions[1..][i] == r.value && r.value.id == id &&
                       forall j :: 0 <= j < i ==> factions[1..][j].id != id;
        assert factions[i + 1] == r.value;
        r
      else
        r
  }

  /** `isPlayerFaction`: factions are compared by id only. */
  predicate IsPlayerFaction(player: Faction, f: Faction)
  {
    f.id == player.id
  }

  /** The `faction.id !== playerFaction.id` test. */
  function NotPlayer(player: Faction): Faction -> bool
  {
    (f: Faction) => !IsPlayerFaction(player, f)
  }

  /** The factions `getRandomFaction` chooses among: every entry whose id differs from the player's. */
  function NonPlayerFactions(factions: seq<Faction>, player: Faction): (r: seq<Faction>)
    ensures forall i :: 0 <= i < |r| ==> r[i] in factions && !IsPlayerFaction(player, r[i])
    ensures forall i :: 0 <= i < |factions| && !IsPlayerFaction(player, factions[i]) ==> factions[i] in r
  {
    Filter(factions, NotPlayer(player))
  }

  /**
   * `getRandomFaction` with the value of `Math.random()` passed in as `r`;
   * `None` stands for the `undefined` that indexing an empty list yields.
   */
  function GetRandomFaction(factions: seq<Faction>, player: Faction, r: real): (f: Option<Faction>)
    requires 0.0 <= r < 1.0
    ensures f.None? <==> forall i :: 0 <= i < |factions| ==> IsPlayerFaction(player, factions[i])
    ensures f.Some? ==> f.value in factions && !IsPlayerFaction(player, f.value)
  {
    var others := NonPlayerFactions(factions, player);
    if |others| == 0 then None
    else
      Utils.RandomIndex(|others|, r);
      Some(others[Utils.RandomInt(0, |others| - 1, r)])
  }

  /** After `init` on the registry, exactly the first entry is the player's faction. */
  lemma ExactlyOnePlayerFaction()
    ensures forall i :: 0 <= i < |Registry| ==> (IsPlayerFaction(Registry[0], Registry[i]) <==> i == 0)
  {
    RegistryShape();
  }

  /** When the player's faction heads a list of distinct ids, the other factions are the rest of the list, in order. */
  lemma {:induction false} OthersFollowHead(fs: seq<Faction>)
    requires |fs| > 0 && DistinctIds(fs)
    ensures NonPlayerFactions(fs, fs[0]) == fs[1..]
  {
    forall i | 1 <= i < |fs| ensures NotPlayer(fs[0])(fs[i]) {
      assert fs[0].id != fs[i].id;
    }
    FilterSkipsHead(fs, NotPlayer(fs[0]));
  }

  /** With the player at the head of a list of distinct ids, the random pick is one of the entries after it. */
  lemma RandomFactionFollowsHead(fs: seq<Faction>, r: real)
    requires |fs| > 1 && DistinctIds(fs) && 0.0 <= r < 1.0
    ensures exists i :: 1 <= i < |fs| && GetRandomFaction(fs, fs[0], r) == Some(fs[i])
  {
    OthersFollowHead(fs);
    var n := |fs| - 1;
    Utils.RandomIndex(n, r);
    var k := Utils.RandomInt(0, n - 1, r);
    assert fs[1..][k] == fs[k + 1];
  }

  /** On the registry, the other factions are the last three entries. */
  lemma RegistryOthers()
    ensures NonPlayerFactions(Registry, Registry[0]) == Registry[1..]
  {
    RegistryShape();
    OthersFollowHead(Registry);
  }

  /** On the registry, the random pick is always one of the three other factions. */
  lemma RandomFactionOnRegistry(r: real)
    requires 0.0 <= r < 1.0
    ensures exists i :: 1 <= i < |Registry| && GetRandomFaction(Registry, Registry[0], r) == Some(Registry[i])
  {
    RegistryShape();
    RandomFactionFollowsHead(Registry, r);
  }

  /** `getFaction` on the registry finds every entry by its own id. */
  lemma GetFactionOnRegistry(i: nat)
    requires i < |Registry|
    ensures GetFaction(Registry, Registry[i].id) == Some(Registry[i])
  {
    RegistryShape();
  }

}
