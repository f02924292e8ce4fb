/**
 * The paginated location-area listing of internal/pokeapi/map.go.
 *
 * `MapsForward` and `MapsBackward` pick the URL from the config's cursors and
 * call `GetMaps`, which reads the page through the cache (falling through to
 * the network when the cached bytes do not decode), overwrites both cursors
 * from the decoded page on success, and returns the area names in order.
 */
module Maps {
  import opened Wrappers
  import opened PokeCache
  import opened PokeApi

  datatype LocationArea = LocationArea(name: string, url: string)

  /** A listing page: the total count, the two cursors and this page's areas. */
  datatype LocationAreaResponse = LocationAreaResponse(count: int, next: string, previous: string, results: seq<LocationArea>)

  /** Every non-200 status of a listing fetch yields the same error. */
  function ListingRejection(status: int): ApiError
  {
    Rejected(FetchFailedMessage)
  }

  /** The URL a listing step requests: the cursor when set, the base URL otherwise. */
  function CursorUrl(base: string, cursor: string): string
  {
    if cursor == "" then base else cursor
  }

  /** `names` are the areas' names, one for one and in order. */
  ghost predicate ListsAreaNames(names: seq<string>, areas: seq<LocationArea>)
  {
    |names| == |areas| && forall i :: 0 <= i < |areas| ==> names[i] == areas[i].name
  }

  /** The append loop that collects the names of a page's areas. */
  method CollectAreaNames(areas: seq<LocationArea>) returns (names: seq<string>)
    ensures ListsAreaNames(names, areas)
  {
    names := [];
    for i := 0 to |areas|
      invariant ListsAreaNames(names, areas[..i])
    {
      names := names + [areas[i].name];
    }
    assert areas[..|areas|] == areas;
  }

  /**
   * What one `GetMaps(url)` does, relative to the state before it: the cache
   * changes as `FallThroughLookup` says; on success the result lists the
   * page's area names and both cursors are overwritten from the page; on
   * failure the error is returned and the cursors are left alone. The base
   * URLs never change.
   */
  twostate predicate ListingStep(c: Config, cache: Cache, url: string, server: string -> HttpReply,
                                 decode: Bytes -> Option<LocationAreaResponse>, now: nat,
                                 new result: Result<seq<string>, ApiError>, fetched: bool)
    reads c, cache
  {
    var l := FallThroughLookup(old(cache.entries), url, server, decode, now, ListingRejection);
    && cache.entries == l.entries
    && fetched == l.fetched
    && c.mapBaseUrl == old(c.mapBaseUrl)
    && c.pokemonBaseUrl == old(c.pokemonBaseUrl)
    && match l.outcome
       case Success(page) =>
         && result.Success? && ListsAreaNames(result.value, page.results)
         && c.mapNextUrl == page.next && c.mapPrevUrl == page.previous
       case Failure(e) =>
         && result == Failure(e)
         && c.mapNextUrl == old(c.mapNextUrl) && c.mapPrevUrl == old(c.mapPrevUrl)
  }

  /** Fetches the listing page at `url` through the cache and updates the cursors from it; `FallThroughLookup` specifies the read. */
  method GetMaps(url: string, c: Config, cache: Cache, server: string -> HttpReply,
                 decode: Bytes -> Option<LocationAreaResponse>, now: nat)
    returns (result: Result<seq<string>, ApiError>, fetched: bool)
    modifies c`mapNextUrl, c`mapPrevUrl, cache
    ensures ListingStep(c, cache, url, server, decode, now, result, fetched)
  {
    var data, ok := cache.Get(url);
    if ok {
      var cached := decode(data);
      if cached.Some? {
        c.mapNextUrl := cached.value.next;
        c.mapPrevUrl := cached.value.previous;
        var names := CollectAreaNames(cached.value.results);
        return Success(names), false;
      }
    }

    fetched := true;
    var reply := server(url);
    if reply.TransportError? {
      return Failure(IoError), fetched;
    }
    if reply.statusCode != StatusOK {
      return Failure(Rejected(FetchFailedMessage)), fetched;
    }
    if reply.body.None? {
      return Failure(IoError), fetched;
    }
    var body := reply.body.value;
    cache.Add(url, body, now);

    var response := decode(body);
    if response.None? {
      return Failure(Malformed), fetched;
    }
    c.mapNextUrl := response.value.next;
    c.mapPrevUrl := response.value.previous;
    var names := CollectAreaNames(response.value.results);
    result := Success(names);
  }

  /** Lists the next page: requests `mapNextUrl`, or `mapBaseUrl` when there is no next cursor. */
  method MapsForward(c: Config, cache: Cache, server: string -> HttpReply,
                     decode: Bytes -> Option<LocationAreaResponse>, now: nat)
    returns (result: Result<seq<string>, ApiError>, fetched: bool)
    modifies c`mapNextUrl, c`mapPrevUrl, cache
    ensures ListingStep(c, cache, CursorUrl(old(c.mapBaseUrl), old(c.mapNextUrl)), server, decode, now, result, fetched)
  {
    var url := CursorUrl(c.mapBaseUrl, c.mapNextUrl);
    result, fetched := GetMaps(url, c, cache, server, decode, now);
  }

  /** Lists the previous page: requests `mapPrevUrl`, or `mapBaseUrl` when there is no previous cursor. */
  method MapsBackward(c: Config, cache: Cache, server: string -> HttpReply,
                      decode: Bytes -> Option<LocationAreaResponse>, now: nat)
    returns (result: Result<seq<string>, ApiError>, fetched: bool)
    modifies c`mapNextUrl, c`mapPrevUrl, cache
    ensures ListingStep(c, cache, CursorUrl(old(c.mapBaseUrl), old(c.mapPrevUrl)), server, decode, now, result, fetched)
  {
    var url := CursorUrl(c.mapBaseUrl, c.mapPrevUrl);
    result, fetched := GetMaps(url, c, cache, server, decode, now);
  }

  /**
   * One forward listing step, returning the URLs the following forward and
   * backward steps will request. When the step succeeds with `page`, they are
   * `page.next` and `page.previous` (the base URL where a link is empty),
   * whether the page came from the cache or the network; when it fails, they
   * are the ones this step had.
   */
  method CursorsAfterListing(c: Config, cache: Cache, server: string -> HttpReply,
                             decode: Bytes -> Option<LocationAreaResponse>, now: nat)
    returns (result: Result<seq<string>, ApiError>, nextForward: string, nextBackward: string)
    modifies c`mapNextUrl, c`mapPrevUrl, cache
    ensures var l := FallThroughLookup(old(cache.entries), CursorUrl(old(c.mapBaseUrl), old(c.mapNextUrl)),
                                       server, decode, now, ListingRejection);
      match l.outcome
      case Success(page) =>
        && nextForward == (if page.next == "" then old(c.mapBaseUrl) else page.next)
        && nextBackward == (if page.previous == "" then old(c.mapBaseUrl) else page.previous)
      case Failure(_) =>
        && nextForward == CursorUrl(old(c.mapBaseUrl), old(c.mapNextUrl))
        && nextBackward == CursorUrl(old(c.mapBaseUrl), old(c.mapPrevUrl))
  {
    var fetched;
    result, fetched := MapsForward(c, cache, server, decode, now);
    nextForward := CursorUrl(c.mapBaseUrl, c.mapNextUrl);
    nextBackward := CursorUrl(c.mapBaseUrl, c.mapPrevUrl);
  }
}
