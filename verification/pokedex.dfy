/**
 * The caught-Pokémon registry of internal/pokedex/pokedex.go: a map from a
 * Pokémon's name to its details. `Add` stores a record under its own name,
 * replacing any earlier one; `Get`, `Has` and `GetAll` only read.
 */
module Pokedex {
  import opened PokemonLookup

  /** The zero value of PokemonDetails, which `Get` returns for an absent name. */
  const ZeroDetails: PokemonDetails := PokemonDetails("", 0, 0, 0, map[], [])

  class Pokedex {
    var pokemon: map<string, PokemonDetails>

    /** Every record is stored under its own name. */
    ghost predicate Valid()
      reads this
    {
      forall n :: n in pokemon ==> pokemon[n].name == n
    }

    /** NewPokedex: an empty registry. */
    constructor ()
      ensures Valid() && pokemon == map[]
    {
      pokemon := map[];
    }

    /** Stores `p` under `p.name`, replacing any record of that name; all other names keep their records. */
    method Add(p: PokemonDetails)
      requires Valid()
      modifies this
      ensures Valid()
      ensures pokemon == old(pokemon)[p.name := p]
    {
      pokemon := pokemon[p.name := p];
    }

    /** The record stored under `name` and true, or the zero record and false. */
    method Get(name: string) returns (p: PokemonDetails, found: bool)
      ensures found <==> name in pokemon
      ensures found ==> p == pokemon[name]
      ensures !found ==> p == ZeroDetails
    {
      if name in pokemon {
        p, found := pokemon[name], true;
      } else {
        p, found := ZeroDetails, false;
      }
    }

    /** Whether a record is stored under `name`: the same flag `Get` reports. */
    method Has(name: string) returns (found: bool)
      ensures found <==> name in pokemon
    {
      found := name in pokemon;
    }

    /** Every stored record exactly once, in no particular order. */
    method GetAll() returns (all: seq<PokemonDetails>)
      requires Valid()
      ensures |all| == |pokemon|
      ensures forall i :: 0 <= i < |all| ==> all[i].name in pokemon && pokemon[all[i].name] == all[i]
      ensures forall n :: n in pokemon ==> pokemon[n] in all
      ensures forall i, j :: 0 <= i < j < |all| ==> all[i].name != all[j].name
    {
      all := [];
      var pending := pokemon.Keys;
      while pending != {}
        invariant pending <= pokemon.Keys
        invariant |all| + |pending| == |pokemon|
        invariant forall i :: 0 <= i < |all| ==> all[i].name in pokemon && pokemon[all[i].name] == all[i]
        invariant forall i :: 0 <= i < |all| ==> all[i].name !in pending
        invariant forall n :: n in pokemon && n !in pending ==> pokemon[n] in all
        invariant forall i, j :: 0 <= i < j < |all| ==> all[i].name != all[j].name
        decreases pending
      {
        var n :| n in pending;
        all := all + [pokemon[n]];
        pending := pending - {n};
      }
    }
  }
}
