/**
 * The expiring response cache of internal/pokecache/cache.go.
 *
 * A `Cache` maps a request URL to the raw response bytes and the time they
 * were stored. `Get` never looks at an entry's age; only a reap pass removes
 * entries, and it removes exactly those older than the cache's interval.
 * The clock is an explicit `now` argument, and the background ticker is
 * reduced to one reap step, `ReapAt(now)`.
 */
module PokeCache {

  type Bytes = seq<bv8>

  /** cacheEntry: a payload and its creation time. */
  datatype Entry = Entry(val: Bytes, createdAt: nat)

  /** The reap test: more than `interval` has passed since the entry was created. */
  predicate IsStale(e: Entry, interval: nat, now: nat)
  {
    now - e.createdAt > interval
  }

  /** The entry map that one reap pass at `now` leaves behind. */
  function Reaped(entries: map<string, Entry>, interval: nat, now: nat): map<string, Entry>
  {
    map k | k in entries && !IsStale(entries[k], interval, now) :: entries[k]
  }

  class Cache {
    var entries: map<string, Entry>
    const interval: nat

    /** NewCache: an empty cache with the given reap interval. */
    constructor (interval: nat)
      ensures entries == map[]
      ensures this.interval == interval
    {
      entries := map[];
      this.interval := interval;
    }

    /** Inserts or replaces the entry for `key`; value and timestamp are both overwritten. */
    method Add(key: string, val: Bytes, now: nat)
      modifies this
      ensures entries == old(entries)[key := Entry(val, now)]
    {
      entries := entries[key := Entry(val, now)];
    }

    /** Looks `key` up without checking its age; an absent key yields the empty payload and false. */
    method Get(key: string) returns (val: Bytes, ok: bool)
      ensures ok <==> key in entries
      ensures ok ==> val == entries[key].val
      ensures !ok ==> val == []
    {
      if key in entries {
        val, ok := entries[key].val, true;
      } else {
        val, ok := [], false;
      }
    }

    /** One tick of the reap loop: visits every key and deletes the stale ones. */
    method ReapAt(now: nat)
      modifies this
      ensures forall k :: k in entries <==> k in old(entries) && !IsStale(old(entries)[k], interval, now)
      ensures forall k :: k in entries ==> entries[k] == old(entries)[k]
      ensures entries == Reaped(old(entries), interval, now)
    {
      var pending := entries.Keys;
      while pending != {}
        invariant pending <= old(entries).Keys
        invariant forall k :: k in entries <==>
          k in old(entries) && (k in pending || !IsStale(old(entries)[k], interval, now))
        invariant forall k :: k in entries ==> entries[k] == old(entries)[k]
        decreases pending
      {
        var k :| k in pending;
        if IsStale(entries[k], interval, now) {
          entries := entries - {k};
        }
        pending := pending - {k};
      }
    }
  }

  /** Every entry a reap keeps is unchanged and no older than the interval. */
  lemma ReapKeepsOnlyFresh(entries: map<string, Entry>, interval: nat, now: nat)
    ensures forall k :: k in Reaped(entries, interval, now) ==>
      k in entries && Reaped(entries, interval, now)[k] == entries[k] && now - entries[k].createdAt <= interval
    ensures forall k :: k in entries && now - entries[k].createdAt <= interval ==> k in Reaped(entries, interval, now)
  {
  }

  /** Reaping twice at the same time removes nothing more than reaping once. */
  lemma ReapIdempotent(entries: map<string, Entry>, interval: nat, now: nat)
    ensures Reaped(Reaped(entries, interval, now), interval, now) == Reaped(entries, interval, now)
  {
  }

  /** An entry added at `t` survives a reap at `now` exactly when it is not older than the interval. */
  lemma ReapAfterAdd(entries: map<string, Entry>, key: string, val: Bytes, t: nat, interval: nat, now: nat)
    ensures key in Reaped(entries[key := Entry(val, t)], interval, now) <==> now - t <= interval
    ensures now - t <= interval ==> Reaped(entries[key := Entry(val, t)], interval, now)[key].val == val
  {
  }
}
