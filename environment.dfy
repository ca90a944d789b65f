/**
 * What the browser supplies to the simulation and the model takes as given:
 * the stream of `Math.random()` values, and the id and mesh that each newly
 * created entity receives from the clock and from the scene.
 */
module Environment {

  /** An opaque handle to a scene object (a Three.js mesh). */
  type MeshHandle = nat

  /** The id string and the mesh a new entity is built with. */
  datatype Identity = Identity(id: string, mesh: MeshHandle)

  class Host {
    /** The successive results of `Math.random()`. */
    const draws: nat -> real
    /** How many of them have been consumed. */
    var drawn: nat
    /** The identities handed to successive new entities. */
    const identities: nat -> Identity
    /** How many of them have been handed out. */
    var issued: nat

    /** `Math.random()` only ever yields values in [0, 1). */
    ghost predicate Valid()
    {
      forall n: nat :: 0.0 <= draws(n) < 1.0
    }

    constructor (draws: nat -> real, identities: nat -> Identity)
      requires forall n: nat :: 0.0 <= draws(n) < 1.0
      ensures Valid()
      ensures this.draws == draws && this.identities == identities
      ensures drawn == 0 && issued == 0
    {
      this.draws := draws;
      this.identities := identities;
      drawn := 0;
      issued := 0;
    }

    /** `Math.random()`: the next value of the stream. */
    method Random() returns (r: real)
      requires Valid()
      modifies this`drawn
      ensures r == draws(old(drawn)) && drawn == old(drawn) + 1
      ensures 0.0 <= r < 1.0
    {
      r := draws(drawn);
      drawn := drawn + 1;
    }

    /** The id and mesh for the next entity to be created. */
    method NewIdentity() returns (ident: Identity)
      modifies this`issued
      ensures ident == identities(old(issued)) && issued == old(issued) + 1
    {
      ident := identities(issued);
      issued := issued + 1;
    }
  }

}
