/**
 * The Pokémon detail lookup of internal/pokeapi/pokemon.go.
 *
 * `GetPokemon` reads `pokemonBaseUrl + name` through the cache with two
 * differences from the other fetches: a cached body that fails to decode is a
 * final error (no network fallback), and a 404 reply yields its own
 * "pokemon not found" error. `ConvertToPokemonDetails` flattens the stat list
 * into a name-to-value map (a later stat of the same name wins) and the type
 * list into a sequence of names.
 */
module PokemonLookup {
  import opened Wrappers
  import opened PokeCache
  import opened PokeApi

  /** pokemonStatAPI: `base_stat` and `stat.name`. */
  datatype StatEntry = StatEntry(baseStat: int, statName: string)

  /** pokemonTypeAPI: `type.name`. */
  datatype TypeEntry = TypeEntry(typeName: string)

  /** pokemonAPIResponse: the decoded detail payload. */
  datatype PokemonApiResponse = PokemonApiResponse(
    name: string, baseExperience: int, height: int, weight: int,
    stats: seq<StatEntry>, types: seq<TypeEntry>)

  /** PokemonDetails: the flattened record handed to callers. */
  datatype PokemonDetails = PokemonDetails(
    name: string, baseExperience: int, height: int, weight: int,
    stats: map<string, int>, types: seq<string>)

  const NotFoundMessage: string := "pokemon not found"

  /** A 404 is "pokemon not found"; every other non-200 status is the generic fetch failure. */
  function DetailRejection(status: int): ApiError
  {
    if status == StatusNotFound then Rejected(NotFoundMessage) else Rejected(FetchFailedMessage)
  }

  /** The stats map built by assigning the entries one after another, left to right. */
  function StatsOf(stats: seq<StatEntry>): map<string, int>
    decreases |stats|
  {
    if stats == [] then map[]
    else
      var last := stats[|stats| - 1];
      StatsOf(stats[..|stats| - 1])[last.statName := last.baseStat]
  }

  /** The type names, appended one after another. */
  function TypeNamesOf(types: seq<TypeEntry>): seq<string>
    decreases |types|
  {
    if types == [] then []
    else TypeNamesOf(types[..|types| - 1]) + [types[|types| - 1].typeName]
  }

  /** convertToPokemonDetails as a function of the decoded payload. */
  function DetailsOf(r: PokemonApiResponse): PokemonDetails
  {
    PokemonDetails(r.name, r.baseExperience, r.height, r.weight, StatsOf(r.stats), TypeNamesOf(r.types))
  }

  /** Entry `i` is the last stat entry carrying its name. */
  ghost predicate LastOfItsName(stats: seq<StatEntry>, i: int)
  {
    0 <= i < |stats| && forall j :: i < j < |stats| ==> stats[j].statName != stats[i].statName
  }

  /** The keys of the stats map are exactly the stat names of the payload. */
  lemma {:induction false} StatsOfKeys(stats: seq<StatEntry>)
    ensures StatsOf(stats).Keys == set i | 0 <= i < |stats| :: stats[i].statName
    decreases |stats|
  {
    if stats != [] {
      var init := stats[..|stats| - 1];
      StatsOfKeys(init);
      assert forall i :: 0 <= i < |init| ==> init[i] == stats[i];
      var names := set i | 0 <= i < |stats| :: stats[i].statName;
      var initNames := set i | 0 <= i < |init| :: init[i].statName;
      assert names == initNames + {stats[|stats| - 1].statName} by {
        forall n | n in names ensures n in initNames + {stats[|stats| - 1].statName} {
          var i :| 0 <= i < |stats| && stats[i].statName == n;
          if i < |init| { assert init[i].statName == n; }
        }
      }
    }
  }

  /** Each stat name maps to the base stat of the last entry with that name. */
  lemma {:induction false} StatsOfLastWins(stats: seq<StatEntry>, i: int)
    requires LastOfItsName(stats, i)
    ensures stats[i].statName in StatsOf(stats)
    ensures StatsOf(stats)[stats[i].statName] == stats[i].baseStat
    decreases |stats|
  {
    if i < |stats| - 1 {
      var init := stats[..|stats| - 1];
      assert LastOfItsName(init, i);
      StatsOfLastWins(init, i);
    }
  }

  /** The type names are the payload's types, one for one and in order. */
  lemma {:induction false} TypeNamesOfAt(types: seq<TypeEntry>)
    ensures |TypeNamesOf(types)| == |types|
    ensures forall i :: 0 <= i < |types| ==> TypeNamesOf(types)[i] == types[i].typeName
    decreases |types|
  {
    if types != [] {
      TypeNamesOfAt(types[..|types| - 1]);
    }
  }

  /** convertToPokemonDetails: the stats loop into a map and the types loop into a fixed-size slice. */
  method ConvertToPokemonDetails(r: PokemonApiResponse) returns (d: PokemonDetails)
    ensures d == DetailsOf(r)
    ensures d.name == r.name && d.baseExperience == r.baseExperience
    ensures d.height == r.height && d.weight == r.weight
    ensures d.stats.Keys == set i | 0 <= i < |r.stats| :: r.stats[i].statName
    ensures forall i :: LastOfItsName(r.stats, i) ==> d.stats[r.stats[i].statName] == r.stats[i].baseStat
    ensures |d.types| == |r.types| && forall i :: 0 <= i < |r.types| ==> d.types[i] == r.types[i].typeName
  {
    var stats: map<string, int> := map[];
    for i := 0 to |r.stats|
      invariant stats == StatsOf(r.stats[..i])
    {
      assert r.stats[..i + 1][..i] == r.stats[..i];
      stats := stats[r.stats[i].statName := r.stats[i].baseStat];
    }
    assert r.stats[..|r.stats|] == r.stats;

    var types := new string[|r.types|];
    for i := 0 to |r.types|
      invariant forall k :: 0 <= k < i ==> types[k] == r.types[k].typeName
    {
      types[i] := r.types[i].typeName;
    }
    TypeNamesOfAt(r.types);
    assert types[..] == TypeNamesOf(r.types);

    d := PokemonDetails(r.name, r.baseExperience, r.height, r.weight, stats, types[..]);
    StatsOfKeys(r.stats);
    forall i | LastOfItsName(r.stats, i) ensures d.stats[r.stats[i].statName] == r.stats[i].baseStat {
      StatsOfLastWins(r.stats, i);
    }
  }

  /** A payload with the single stat speed 35 and the single type electric flattens to exactly those. */
  lemma FlattenSingleStatAndType(r: PokemonApiResponse)
    requires r.stats == [StatEntry(35, "speed")] && r.types == [TypeEntry("electric")]
    ensures DetailsOf(r).stats == map["speed" := 35]
    ensures DetailsOf(r).types == ["electric"]
  {
    assert r.stats[..0] == [] && r.types[..0] == [];
    assert StatsOf(r.stats) == StatsOf(r.stats[..0])["speed" := 35];
    assert TypeNamesOf(r.types) == TypeNamesOf(r.types[..0]) + ["electric"];
  }

  /** What one detail lookup returns, given the read-through's outcome. */
  function DetailResult(outcome: Result<PokemonApiResponse, ApiError>): Result<PokemonDetails, ApiError>
  {
    match outcome
    case Success(r) => Success(DetailsOf(r))
    case Failure(e) => Failure(e)
  }

  /** Looks up a Pokémon's details, reading `c.pokemonBaseUrl + pokemonName` through the cache as `TerminalLookup` specifies. */
  method GetPokemon(pokemonName: string, c: Config, cache: Cache, server: string -> HttpReply,
                    decode: Bytes -> Option<PokemonApiResponse>, now: nat)
    returns (result: Result<PokemonDetails, ApiError>, fetched: bool)
    modifies cache
    ensures var l := TerminalLookup(old(cache.entries), c.pokemonBaseUrl + pokemonName, server, decode, now, DetailRejection);
      && cache.entries == l.entries
      && fetched == l.fetched
      && result == DetailResult(l.outcome)
  {
    var url := c.pokemonBaseUrl + pokemonName;
    var data, ok := cache.Get(url);
    if ok {
      var cached := decode(data);
      if cached.None? {
        return Failure(MalformedCached), false;
      }
      var details := ConvertToPokemonDetails(cached.value);
      return Success(details), false;
    }

    fetched := true;
    var reply := server(url);
    if reply.TransportError? {
      return Failure(IoError), fetched;
    }
    if reply.statusCode == StatusNotFound {
      return Failure(Rejected(NotFoundMessage)), fetched;
    }
    if reply.statusCode != StatusOK {
      return Failure(Rejected(FetchFailedMessage)), fetched;
    }
    if reply.body.None? {
      return Failure(IoError), fetched;
    }
    var body := reply.body.value;
    cache.Add(url, body, now);

    var response := decode(body);
    if response.None? {
      return Failure(Malformed), fetched;
    }
    var details := ConvertToPokemonDetails(response.value);
    result := Success(details);
  }

  /**
   * On the network path a 404 is "pokemon not found", any other non-200 status
   * is the generic fetch failure, the two errors differ, and neither caches
   * anything.
   */
  lemma NotFoundIsDistinct(entries: map<string, Entry>, url: string, server: string -> HttpReply,
                           decode: Bytes -> Option<PokemonApiResponse>, now: nat)
    requires url !in entries
    requires server(url).Reply? && server(url).statusCode != StatusOK
    ensures var l := TerminalLookup(entries, url, server, decode, now, DetailRejection);
      && l.fetched && l.entries == entries
      && (server(url).statusCode == StatusNotFound ==> l.outcome == Failure(Rejected(NotFoundMessage)))
      && (server(url).statusCode != StatusNotFound ==> l.outcome == Failure(Rejected(FetchFailedMessage)))
    ensures Rejected(NotFoundMessage) != Rejected(FetchFailedMessage)
  {
  }

  /** A cached body that does not decode fails the lookup without a network call and stays cached. */
  lemma BadCachedBodyIsTerminal(entries: map<string, Entry>, url: string, server: string -> HttpReply,
                                decode: Bytes -> Option<PokemonApiResponse>, now: nat)
    requires url in entries && decode(entries[url].val).None?
    ensures TerminalLookup(entries, url, server, decode, now, DetailRejection) == Lookup(Failure(MalformedCached), entries, false)
  {
  }

  /**
   * A 200 body is cached before it is decoded, so the next lookup of the same
   * name takes the cache path: it makes no network call and returns the same
   * outcome as the first, whether that was success or a decode failure.
   */
  lemma SecondDetailLookupUsesCache(entries: map<string, Entry>, url: string, b: Bytes,
                                    server: string -> HttpReply,
                                    decode: Bytes -> Option<PokemonApiResponse>, now: nat, now': nat)
    requires url !in entries
    requires server(url) == Reply(StatusOK, Some(b))
    ensures var l := TerminalLookup(entries, url, server, decode, now, DetailRejection);
            var l' := TerminalLookup(l.entries, url, server, decode, now', DetailRejection);
      && l.fetched && !l'.fetched && l'.entries == l.entries
      && (decode(b).Some? ==> l.outcome == l'.outcome == Success(decode(b).value))
      && (decode(b).None? ==> l.outcome == Failure(Malformed) && l'.outcome == Failure(MalformedCached))
  {
  }
}
