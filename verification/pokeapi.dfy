/**
 * What the three catalogue fetches of package pokeapi share: the cursor and
 * base-URL record (internal/pokeapi/config.go), the shape of an HTTP reply,
 * the errors a fetch can return, and the cache-aside read-through they all
 * perform against the shared `Cache`.
 *
 * The network is a function from URL to reply, so that repeated calls can be
 * compared; JSON decoding is an arbitrary partial function `decode` from bytes
 * to a typed response. The read-through is specified here once, as a function
 * of the cache's entry map, in the two variants the source contains:
 * `FallThroughLookup` (map.go, explore.go: a cached body that fails to decode
 * is re-fetched) and `TerminalLookup` (pokemon.go: it is an error).
 */
module PokeApi {
  import opened Wrappers
  import opened PokeCache

  /** The config record: the base URLs and the two listing cursors ("" = no cursor). */
  class Config {
    var mapBaseUrl: string
    var mapNextUrl: string
    var mapPrevUrl: string
    var pokemonBaseUrl: string

    constructor (mapBaseUrl: string, mapNextUrl: string, mapPrevUrl: string, pokemonBaseUrl: string)
      ensures this.mapBaseUrl == mapBaseUrl && this.mapNextUrl == mapNextUrl
      ensures this.mapPrevUrl == mapPrevUrl && this.pokemonBaseUrl == pokemonBaseUrl
    {
      this.mapBaseUrl := mapBaseUrl;
      this.mapNextUrl := mapNextUrl;
      this.mapPrevUrl := mapPrevUrl;
      this.pokemonBaseUrl := pokemonBaseUrl;
    }

    /** The process-wide initial record `Conf`: public API base URLs, no cursors. */
    constructor Initial()
      ensures mapBaseUrl == "https://pokeapi.co/api/v2/location-area/"
      ensures mapNextUrl == "" && mapPrevUrl == ""
      ensures pokemonBaseUrl == "https://pokeapi.co/api/v2/pokemon/"
    {
      mapBaseUrl := "https://pokeapi.co/api/v2/location-area/";
      mapNextUrl := "";
      mapPrevUrl := "";
      pokemonBaseUrl := "https://pokeapi.co/api/v2/pokemon/";
    }
  }

  /**
   * One `http.Get`: a transport error, or a status code with the result of
   * reading the body (`None` when `io.ReadAll` fails).
   */
  datatype HttpReply = TransportError | Reply(statusCode: int, body: Option<Bytes>)

  const StatusOK: int := 200
  const StatusNotFound: int := 404

  /** The errors a fetch returns. */
  datatype ApiError =
    | IoError                    // the error of http.Get or io.ReadAll, passed on
    | Rejected(message: string)  // errors.New(...) for a status other than 200
    | Malformed                  // json.Unmarshal failed on a freshly fetched body
    | MalformedCached            // "failed to unmarshal cached data: ..." (pokemon.go only)

  const FetchFailedMessage: string := "failed to fetch data from PokeAPI"

  /** The outcome of one read-through: the decoded response or error, the cache afterwards, and whether the network was used. */
  datatype Lookup<T> = Lookup(outcome: Result<T, ApiError>, entries: map<string, Entry>, fetched: bool)

  /** The cache holds bytes for `url` and `decode` accepts them. */
  predicate DecodableHit<T>(entries: map<string, Entry>, url: string, decode: Bytes -> Option<T>)
  {
    url in entries && decode(entries[url].val).Some?
  }

  /** `after` is `before` with the entry for `url` written at time `now`. */
  predicate StoredAt(before: map<string, Entry>, after: map<string, Entry>, url: string, now: nat)
  {
    url in after && after[url].createdAt == now && after == before[url := after[url]]
  }

  /** The network half of every fetch: status check, body read, `cache.Add`, then decoding. */
  function FetchAndCache<T>(entries: map<string, Entry>, url: string, reply: HttpReply,
                            decode: Bytes -> Option<T>, now: nat, reject: int -> ApiError): (l: Lookup<T>)
    ensures l.fetched
    ensures l.entries == entries || StoredAt(entries, l.entries, url, now)
    ensures l.outcome.Success? ==> StoredAt(entries, l.entries, url, now) && decode(l.entries[url].val) == Some(l.outcome.value)
  {
    match reply
    case TransportError => Lookup(Failure(IoError), entries, true)
    case Reply(status, body) =>
      if status != StatusOK then Lookup(Failure(reject(status)), entries, true)
      else match body
        case None => Lookup(Failure(IoError), entries, true)
        case Some(b) =>
          var stored := entries[url := Entry(b, now)];
          match decode(b)
          case None => Lookup(Failure(Malformed), stored, true)
          case Some(v) => Lookup(Success(v), stored, true)
  }

  /** Read-through of map.go and explore.go: a cached body that decodes is used, anything else goes to the network. */
  function FallThroughLookup<T>(entries: map<string, Entry>, url: string, server: string -> HttpReply,
                                decode: Bytes -> Option<T>, now: nat, reject: int -> ApiError): (l: Lookup<T>)
    ensures l.fetched <==> !DecodableHit(entries, url, decode)
    ensures !l.fetched ==> l.entries == entries && l.outcome == Success(decode(entries[url].val).value)
    ensures l.entries == entries || StoredAt(entries, l.entries, url, now)
    ensures l.outcome.Success? ==> url in l.entries && decode(l.entries[url].val) == Some(l.outcome.value)
  {
    if DecodableHit(entries, url, decode) then Lookup(Success(decode(entries[url].val).value), entries, false)
    else FetchAndCache(entries, url, server(url), decode, now, reject)
  }

  /** Read-through of pokemon.go: any cached body is final, and one that does not decode is an error. */
  function TerminalLookup<T>(entries: map<string, Entry>, url: string, server: string -> HttpReply,
                             decode: Bytes -> Option<T>, now: nat, reject: int -> ApiError): (l: Lookup<T>)
    ensures l.fetched <==> url !in entries
    ensures !l.fetched ==> l.entries == entries
    ensures url in entries && decode(entries[url].val).None? ==> l.outcome == Failure(MalformedCached)
    ensures url in entries && decode(entries[url].val).Some? ==> l.outcome == Success(decode(entries[url].val).value)
    ensures l.entries == entries || StoredAt(entries, l.entries, url, now)
    ensures l.outcome.Success? ==> url in l.entries && decode(l.entries[url].val) == Some(l.outcome.value)
  {
    if url in entries then
      match decode(entries[url].val)
      case None => Lookup(Failure(MalformedCached), entries, false)
      case Some(v) => Lookup(Success(v), entries, false)
    else FetchAndCache(entries, url, server(url), decode, now, reject)
  }

  /** On the network path, a non-200 status is the rejection error and leaves the cache as it was. */
  lemma RejectedStatusCachesNothing<T>(entries: map<string, Entry>, url: string, reply: HttpReply,
                                       decode: Bytes -> Option<T>, now: nat, reject: int -> ApiError)
    requires reply.Reply? && reply.statusCode != StatusOK
    ensures FetchAndCache(entries, url, reply, decode, now, reject) == Lookup(Failure(reject(reply.statusCode)), entries, true)
  {
  }

  /** On the network path, a transport or read error changes nothing in the cache. */
  lemma IoErrorCachesNothing<T>(entries: map<string, Entry>, url: string, reply: HttpReply,
                                decode: Bytes -> Option<T>, now: nat, reject: int -> ApiError)
    requires reply.TransportError? || (reply.statusCode == StatusOK && reply.body.None?)
    ensures FetchAndCache(entries, url, reply, decode, now, reject) == Lookup(Failure(IoError), entries, true)
  {
  }

  /** A 200 body is cached under the URL before it is decoded, so it stays cached even when decoding fails. */
  lemma OkBodyCachedBeforeDecode<T>(entries: map<string, Entry>, url: string, b: Bytes,
                                    decode: Bytes -> Option<T>, now: nat, reject: int -> ApiError)
    ensures var l := FetchAndCache(entries, url, Reply(StatusOK, Some(b)), decode, now, reject);
      && l.entries == entries[url := Entry(b, now)]
      && (decode(b).None? ==> l.outcome == Failure(Malformed))
      && (decode(b).Some? ==> l.outcome == Success(decode(b).value))
  {
  }

  /**
   * After a successful read-through, a second one for the same URL is a cache
   * hit: no network call, no change to the cache, the same decoded response.
   */
  lemma SecondLookupIsHit<T>(entries: map<string, Entry>, url: string,
                             server: string -> HttpReply, server': string -> HttpReply,
                             decode: Bytes -> Option<T>, now: nat, now': nat,
                             reject: int -> ApiError, reject': int -> ApiError)
    requires FallThroughLookup(entries, url, server, decode, now, reject).outcome.Success?
    ensures var l := FallThroughLookup(entries, url, server, decode, now, reject);
            var l' := FallThroughLookup(l.entries, url, server', decode, now', reject');
            !l'.fetched && l'.entries == l.entries && l'.outcome == l.outcome
  {
  }

  /**
   * Two read-throughs of a URL the cache does not hold, with a 200 reply that
   * decodes, make exactly one network call and return equal results.
   */
  lemma TwoLookupsFetchOnce<T>(entries: map<string, Entry>, url: string,
                               server: string -> HttpReply, decode: Bytes -> Option<T>,
                               now: nat, now': nat, reject: int -> ApiError)
    requires url !in entries
    requires server(url).Reply? && server(url).statusCode == StatusOK
    requires server(url).body.Some? && decode(server(url).body.value).Some?
    ensures var l := FallThroughLookup(entries, url, server, decode, now, reject);
            var l' := FallThroughLookup(l.entries, url, server, decode, now', reject);
            && l.fetched && !l'.fetched
            && l.outcome == l'.outcome == Success(decode(server(url).body.value).value)
  {
  }

  /**
   * A reap between two read-throughs: a body fetched at `now` is still served
   * from the cache by a reap at `reapTime` no later than `now + interval`, and
   * is fetched again after a reap later than that.
   */
  lemma LookupAcrossReap<T>(entries: map<string, Entry>, url: string,
                            server: string -> HttpReply, decode: Bytes -> Option<T>,
                            now: nat, interval: nat, reapTime: nat, now': nat,
                            reject: int -> ApiError)
    requires FallThroughLookup(entries, url, server, decode, now, reject).fetched
    requires FallThroughLookup(entries, url, server, decode, now, reject).outcome.Success?
    ensures var l := FallThroughLookup(entries, url, server, decode, now, reject);
            var l' := FallThroughLookup(Reaped(l.entries, interval, reapTime), url, server, decode, now', reject);
            && (reapTime - now <= interval ==> !l'.fetched && l'.outcome == l.outcome)
            && (reapTime - now > interval ==> l'.fetched)
  {
  }
}
