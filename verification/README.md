# pokedexcli core, modelled in Dafny

pokedexcli is a command-line client for the public PokeAPI catalogue. This
project models the stateful core beneath its REPL, and proves properties of
that model:

- **the expiring response cache** (`PokeCache`, from `internal/pokecache/cache.go`):
  a class holding a map from URL to `Entry(val, createdAt)` and an immutable
  reap `interval`. `Add` inserts or replaces an entry. `Get` looks up a key
  without checking its age. `ReapAt(now)` is one tick of the reap loop, and it
  deletes exactly the entries with `now - createdAt > interval`.
- **the cache-aside read-through** (`PokeApi`) that every fetch performs. It is
  specified once, as functions of the cache's entry map:
  - `FallThroughLookup` is the variant of `map.go` and `explore.go`: a cached
    body that does not decode is fetched again.
  - `TerminalLookup` is the variant of `pokemon.go`: a cached body that does
    not decode is a final error.
  - `FetchAndCache` is the network half they share: status check, body read,
    `cache.Add`, then decoding.
- **the paginated listing** (`Maps`, from `map.go`). `MapsForward` and
  `MapsBackward` select the cursor URL or the base URL. `GetMaps` reads the page
  through the cache, overwrites both cursors of the `Config` record on success
  (on a cache hit as well as a network fetch), and returns the area names in
  order.
- **the area-encounter lookup** (`Explore`, from `explore.go`). It is keyed by
  `mapBaseUrl + area` and returns the encountered Pokémon's names in order. It
  never touches the config record.
- **the detail lookup** (`PokemonLookup`, from `pokemon.go`):
  - a 404 reply gives the "pokemon not found" error;
  - a cached body that does not decode is terminal;
  - `ConvertToPokemonDetails` flattens the stat list into a map, where a later
    entry with the same name wins, and flattens the type list into a sequence
    of names.
- **the caught-Pokémon registry** (`Pokedex`, from `internal/pokedex/pokedex.go`):
  a class holding a map from name to record, with `Add`, `Get`, `Has` and
  `GetAll`.

The network and JSON are parameters of the fetch methods:

- The network is `server: string -> HttpReply`. A reply is either a transport
  error, or a status code together with the outcome of reading the body.
- JSON decoding is an arbitrary partial function `decode: Bytes -> Option<T>`.
  Every property holds for every decoder.
- The clock is a `now: nat` argument.
- The process-wide `cache` and `Conf` globals are passed as explicit `Cache`
  and `Config` objects. `Config.Initial` builds `Conf`'s initial value.

Each fetch method returns `fetched`, which says whether it used the network.
The "fetched once" properties are stated with it.

Two details of the code that the model keeps as written:

- When a cached body does not decode, `map.go` (lines 49-61) and `explore.go`
  (lines 25-34) fall through to the network, while `pokemon.go` (lines 45-49)
  returns an error instead. The two variants are modelled separately.
- In `explore.go` (line 43) the non-200 error text is "failed to getch data
  from PokeAPI". The model keeps that spelling (`Explore.AreaFetchFailedMessage`).

## Model

| member | source | states |
|---|---|---|
| `PokeCache.Cache.constructor` | internal/pokecache/cache.go:19-23 | a new cache has no entries and exactly the given interval |
| `PokeCache.Cache.Add` | internal/pokecache/cache.go:28-36 | the entry for the key becomes (val, now), replacing value and timestamp; every other key keeps its entry |
| `PokeCache.Cache.Get` | internal/pokecache/cache.go:38-47 | returns (val, true) exactly when the key is present, whatever its age, and ([], false) otherwise; reads only |
| `PokeCache.Cache.ReapAt` | internal/pokecache/cache.go:53-60 | removes exactly the entries with now - createdAt > interval; every other entry is kept unchanged |
| `PokeCache.ReapKeepsOnlyFresh` | internal/pokecache/cache.go:55-59 | every entry left by a reap is unchanged and no older than the interval; every entry no older than the interval is left |
| `PokeCache.ReapIdempotent` | internal/pokecache/cache.go:55-59 | reaping twice at the same time equals reaping once |
| `PokeCache.ReapAfterAdd` | internal/pokecache/cache_test.go:48-84 | an entry added at t survives a reap at now iff now - t <= interval, and then still holds its value |
| `PokeApi.Config.constructor` | internal/pokeapi/config.go:3-8 | the record holds exactly the given base URLs and cursors |
| `PokeApi.Config.Initial` | internal/pokeapi/config.go:10-15 | the initial record has the public location-area and pokemon base URLs and empty cursors |
| `PokeApi.FetchAndCache` | internal/pokeapi/map.go:64-85 | always a network call; the cache is unchanged or gains only the URL's entry stamped now; a success is what the newly cached bytes decode to |
| `PokeApi.FallThroughLookup` | internal/pokeapi/map.go:49-85 | the network is used iff the cache has no decodable body for the URL; a hit leaves the cache unchanged and returns the cached decode; at most the URL's entry is written; a success is what the cache now holds for the URL |
| `PokeApi.TerminalLookup` | internal/pokeapi/pokemon.go:45-76 | the network is used iff the URL is not cached; a cached body that decodes is returned as that decode, and one that does not is the cached-decode error, not a fetch; at most the URL's entry is written; a success is what the cache now holds for the URL |
| `PokeApi.RejectedStatusCachesNothing` | internal/pokeapi/map.go:70-72 | a non-200 status yields the rejection error and leaves the cache unchanged |
| `PokeApi.IoErrorCachesNothing` | internal/pokeapi/map.go:64-77 | a transport or body-read error yields the I/O error and leaves the cache unchanged |
| `PokeApi.OkBodyCachedBeforeDecode` | internal/pokeapi/map.go:79-85 | a 200 body is stored under the URL at now whether or not it decodes; the outcome is its decode or the decode error |
| `PokeApi.SecondLookupIsHit` | internal/pokeapi/map.go:49-61 | after a successful read-through, another one for the same URL makes no network call, changes nothing and returns the same response |
| `PokeApi.TwoLookupsFetchOnce` | internal/pokeapi/explore.go:25-51 | for an uncached URL with a 200 decodable reply, two read-throughs make exactly one network call and return equal results |
| `PokeApi.LookupAcrossReap` | internal/pokecache/cache.go:49-62 | a body fetched at now is still served from the cache after a reap no later than now + interval, and is fetched again after a later reap |
| `Maps.CollectAreaNames` | internal/pokeapi/map.go:90-93 | the names have the length and order of the areas, one name per area; no areas give no names |
| `Maps.GetMaps` | internal/pokeapi/map.go:47-96 | cache changes as FallThroughLookup says; on success returns the page's area names and sets both cursors from the page (hit or fetch); on any failure returns the error and leaves the cursors; base URLs unchanged |
| `Maps.MapsForward` | internal/pokeapi/map.go:23-33 | a GetMaps step on mapNextUrl when it is non-empty, otherwise on mapBaseUrl |
| `Maps.MapsBackward` | internal/pokeapi/map.go:35-45 | a GetMaps step on mapPrevUrl when it is non-empty, otherwise on mapBaseUrl |
| `Maps.CursorsAfterListing` | internal/pokeapi/map_test.go:219-253 | after a forward listing step succeeds with a page (from the cache or the network), the next forward step requests the page's next link and the next backward step its previous link, the base URL where a link is empty; after a failed step both requests are unchanged |
| `Explore.CollectEncounterNames` | internal/pokeapi/explore.go:58-61 | the names are the encounters' Pokémon names, one for one and in order; no encounters give no names |
| `Explore.GetPokemonFromArea` | internal/pokeapi/explore.go:23-64 | reads mapBaseUrl + area through FallThroughLookup with its own rejection text; returns the encounter names or the error; the config record is not modified |
| `Explore.ExploreTwice` | internal/pokeapi/explore_test.go:126-181 | two lookups of an uncached area with a 200 decodable reply: the first fetches, the second does not, and both return the same names |
| `PokemonLookup.StatsOfKeys` | internal/pokeapi/pokemon.go:83-86 | the stats map's keys are exactly the stat names of the payload |
| `PokemonLookup.StatsOfLastWins` | internal/pokeapi/pokemon.go:83-86 | each stat name maps to the base stat of the last entry carrying that name |
| `PokemonLookup.TypeNamesOfAt` | internal/pokeapi/pokemon.go:89-92 | the type names have the payload's length and types[i] is the i-th type's name |
| `PokemonLookup.ConvertToPokemonDetails` | internal/pokeapi/pokemon.go:81-102 | name, base experience, height and weight are copied; stats keys are the stat names with last-wins values; types are the type names in order |
| `PokemonLookup.FlattenSingleStatAndType` | internal/pokeapi/pokemon.go:81-92 | one stat speed 35 and one type electric flatten to {speed: 35} and ["electric"] |
| `PokemonLookup.GetPokemon` | internal/pokeapi/pokemon.go:42-79 | reads pokemonBaseUrl + name through TerminalLookup; returns the converted details or the error; the config record is not modified |
| `PokemonLookup.NotFoundIsDistinct` | internal/pokeapi/pokemon.go:59-64 | on the network path a 404 is "pokemon not found", any other non-200 is the generic failure, the two differ, and neither caches anything |
| `PokemonLookup.BadCachedBodyIsTerminal` | internal/pokeapi/pokemon.go:45-49 | a cached body that does not decode gives the cached-decode error with no network call and no cache change |
| `PokemonLookup.SecondDetailLookupUsesCache` | internal/pokeapi/pokemon.go:71-76 | after a 200 reply, the next lookup of the same name takes the cache path with no network call, returning the same details (or, for an undecodable body, the terminal cached-decode error) |
| `Pokedex.Pokedex.constructor` | internal/pokedex/pokedex.go:14-18 | a new registry is empty |
| `Pokedex.Pokedex.Add` | internal/pokedex/pokedex.go:20-24 | the record is stored under its name, replacing any earlier one; other names keep their records; every record stays under its own name |
| `Pokedex.Pokedex.Get` | internal/pokedex/pokedex.go:26-31 | returns (record, true) when the name is stored and (zero record, false) otherwise; reads only |
| `Pokedex.Pokedex.Has` | internal/pokedex/pokedex.go:44-49 | true exactly when the name is stored, the flag Get reports; reads only |
| `Pokedex.Pokedex.GetAll` | internal/pokedex/pokedex.go:33-42 | returns as many records as stored names, each a stored record, every stored record present, no name twice; order unspecified |

## Left out

- Locking and the background reaper. The `sync.Mutex` of the cache and of the Pokedex, and the `reapLoop` goroutine with its ticker (internal/pokecache/cache.go:24, 49-53), are concurrency. A reap is one explicit `ReapAt(now)` step, and operations are sequential.
- Real time. `time.Now()` and `time.Since` become the `now: nat` argument, and `time.Duration` becomes a `nat` interval. The production interval of five minutes (internal/pokeapi/pokeapi.go:9) is any interval here.
- HTTP. `http.Get`, `io.ReadAll` and `res.Body.Close` are abstracted as `HttpReply`. The server is a function of the URL, so a server that answers the same URL differently on repeated requests is not modelled.
- Error values. The error objects of `http.Get`, `io.ReadAll` and `json.Unmarshal` are collapsed into `IoError` and `Malformed`. The wrapped cause inside "failed to unmarshal cached data: %w" is not kept (`MalformedCached`).
- JSON. `encoding/json` is the `decode` parameter, so field names, null handling and the wire syntax are not modelled. A Go nil slice or nil byte slice is an empty sequence.
- Logging. The `fmt.Printf`/`Println` diagnostics in `GetMaps` (internal/pokeapi/map.go:48, 59, 80) are output only.
- The command loop. commands.go and main.go are left out: REPL dispatch, printing, `os.Exit`, and the `float64` catch chance with its `rand.Float64` roll.
- `cleanInput` is not part of this model: its source is not among the files modelled.
- Go map iteration order. `ReapAt` and `GetAll` visit keys in an arbitrary order (`:|`). `GetAll` promises no order, only the content.
