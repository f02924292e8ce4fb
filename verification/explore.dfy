/**
 * The area-encounter lookup of internal/pokeapi/explore.go: the same
 * cache-aside read as the listing, keyed by `mapBaseUrl + area`, returning
 * the names of the Pokémon encountered in the area. It never touches the
 * config record.
 */
module Explore {
  import opened Wrappers
  import opened PokeCache
  import opened PokeApi

  /** A named reference to a Pokémon, as it appears in an encounter. */
  datatype Pokemon = Pokemon(name: string, url: string)

  datatype PokemonEncounter = PokemonEncounter(pokemon: Pokemon)

  datatype LocationAreaDetail = LocationAreaDetail(pokemonEncounters: seq<PokemonEncounter>)

  /** The non-200 error text of this fetch, spelled as in the source. */
  const AreaFetchFailedMessage: string := "failed to getch data from PokeAPI"

  /** Every non-200 status of an area fetch yields the same error. */
  function AreaRejection(status: int): ApiError
  {
    Rejected(AreaFetchFailedMessage)
  }

  /** `names` are the encountered Pokémon's names, one for one and in order. */
  ghost predicate ListsEncounterNames(names: seq<string>, encounters: seq<PokemonEncounter>)
  {
    |names| == |encounters| && forall i :: 0 <= i < |encounters| ==> names[i] == encounters[i].pokemon.name
  }

  /** The append loop that collects the encountered Pokémon's names. */
  method CollectEncounterNames(encounters: seq<PokemonEncounter>) returns (names: seq<string>)
    ensures ListsEncounterNames(names, encounters)
  {
    names := [];
    for i := 0 to |encounters|
      invariant ListsEncounterNames(names, encounters[..i])
    {
      names := names + [encounters[i].pokemon.name];
    }
    assert encounters[..|encounters|] == encounters;
  }

  /** What one area lookup returns, given the read-through's outcome. */
  ghost predicate AreaResult(outcome: Result<LocationAreaDetail, ApiError>, result: Result<seq<string>, ApiError>)
  {
    match outcome
    case Success(detail) => result.Success? && ListsEncounterNames(result.value, detail.pokemonEncounters)
    case Failure(e) => result == Failure(e)
  }

  /** Looks up the Pokémon found in `area`, reading `c.mapBaseUrl + area` through the cache as `FallThroughLookup` specifies. */
  method GetPokemonFromArea(area: string, c: Config, cache: Cache, server: string -> HttpReply,
                            decode: Bytes -> Option<LocationAreaDetail>, now: nat)
    returns (result: Result<seq<string>, ApiError>, fetched: bool)
    modifies cache
    ensures var l := FallThroughLookup(old(cache.entries), c.mapBaseUrl + area, server, decode, now, AreaRejection);
      && cache.entries == l.entries
      && fetched == l.fetched
      && AreaResult(l.outcome, result)
  {
    var url := c.mapBaseUrl + area;
    var data, ok := cache.Get(url);
    if ok {
      var cached := decode(data);
      if cached.Some? {
        var names := CollectEncounterNames(cached.value.pokemonEncounters);
        return Success(names), false;
      }
    }

    fetched := true;
    var reply := server(url);
    if reply.TransportError? {
      return Failure(IoError), fetched;
    }
    if reply.statusCode != StatusOK {
      return Failure(Rejected(AreaFetchFailedMessage)), fetched;
    }
    if reply.body.None? {
      return Failure(IoError), fetched;
    }
    var body := reply.body.value;
    cache.Add(url, body, now);

    var response := decode(body);
    if response.None? {
      return Failure(Malformed), fetched;
    }
    var names := CollectEncounterNames(response.value.pokemonEncounters);
    result := Success(names);
  }

  /**
   * Two lookups of an area the cache does not yet hold, against a server that
   * answers 200 with a body that decodes: the first goes to the network, the
   * second is served from the cache, and both return the same names.
   */
  method ExploreTwice(area: string, c: Config, cache: Cache, server: string -> HttpReply,
                      decode: Bytes -> Option<LocationAreaDetail>, now: nat, now': nat)
    returns (first: Result<seq<string>, ApiError>, second: Result<seq<string>, ApiError>,
             fetchedFirst: bool, fetchedSecond: bool)
    requires c.mapBaseUrl + area !in cache.entries
    requires server(c.mapBaseUrl + area).Reply? && server(c.mapBaseUrl + area).statusCode == StatusOK
    requires server(c.mapBaseUrl + area).body.Some? && decode(server(c.mapBaseUrl + area).body.value).Some?
    modifies cache
    ensures fetchedFirst && !fetchedSecond
    ensures first.Success? && first == second
  {
    var url := c.mapBaseUrl + area;
    ghost var entries := cache.entries;
    TwoLookupsFetchOnce(entries, url, server, decode, now, now', AreaRejection);
    first, fetchedFirst := GetPokemonFromArea(area, c, cache, server, decode, now);
    second, fetchedSecond := GetPokemonFromArea(area, c, cache, server, decode, now');
    ghost var detail := decode(server(url).body.value).value;
    assert ListsEncounterNames(first.value, detail.pokemonEncounters);
    assert ListsEncounterNames(second.value, detail.pokemonEncounters);
    assert first.value == second.value;
  }
}
