/** The in-process TTL cache of upstream responses, keyed by request URL.
    Expiry is lazy: `Get` drops an expired entry when it reads it, and
    `CleanupExpired` (also run by `Stats`) is the only eager sweep.
    Clock readings are explicit integer parameters (`now`). */
module Cache {
  import opened Json

  /** One stored response and the clock reading at which it was stored. */
  datatype Entry = Entry(data: Payload, timestamp: int)

  /** The record `stats` reports. */
  datatype CacheStats = CacheStats(
    totalEntries: nat,
    activeEntries: nat,
    expiredCleaned: nat,
    ttlSeconds: int)

  /** An entry stored at `timestamp` is expired at `now` once its age
      strictly exceeds the TTL; an age equal to the TTL is still live. */
  predicate Expired(ttl: int, timestamp: int, now: int) {
    now - timestamp > ttl
  }

  /** What a read of `key` at `now` yields: the stored data of a live entry, nothing otherwise. */
  function Lookup(m: map<string, Entry>, ttl: int, key: string, now: int): (r: Option<Payload>)
    ensures r.Some? <==> key in m && !Expired(ttl, m[key].timestamp, now)
    ensures r.Some? ==> r.value == m[key].data
  {
    if key in m && !Expired(ttl, m[key].timestamp, now) then Some(m[key].data) else None
  }

  /** The keys whose entries are expired at `now`. */
  function ExpiredKeys(m: map<string, Entry>, ttl: int, now: int): (ks: set<string>)
    ensures ks <= m.Keys
    ensures forall k :: k in m ==> (k in ks <==> Expired(ttl, m[k].timestamp, now))
  {
    set k | k in m && Expired(ttl, m[k].timestamp, now)
  }

  /** The cache contents after a sweep at `now`: every live entry, unchanged, and nothing else. */
  function Sweep(m: map<string, Entry>, ttl: int, now: int): (r: map<string, Entry>)
    ensures forall k :: k in r <==> k in m && !Expired(ttl, m[k].timestamp, now)
    ensures forall k :: k in r ==> r[k] == m[k]
  {
    map k | k in m && !Expired(ttl, m[k].timestamp, now) :: m[k]
  }

  /** The expiry boundary is strict: live at age `ttl`, expired at any greater age. */
  lemma ExpiryBoundary(ttl: int, timestamp: int, now: int)
    ensures !Expired(ttl, timestamp, timestamp + ttl)
    ensures Expired(ttl, timestamp, now) <==> now > timestamp + ttl
  {
  }

  /** Once expired, an entry stays expired as the clock advances. */
  lemma ExpiryMonotone(ttl: int, timestamp: int, now: int, later: int)
    requires Expired(ttl, timestamp, now) && now <= later
    ensures Expired(ttl, timestamp, later)
  {
  }

  /** Sweeping is removal of exactly the expired keys, and the count removed
      is the difference in size. */
  lemma SweepRemovesExpired(m: map<string, Entry>, ttl: int, now: int)
    ensures Sweep(m, ttl, now) == m - ExpiredKeys(m, ttl, now)
    ensures |Sweep(m, ttl, now)| == |m| - |ExpiredKeys(m, ttl, now)|
  {
  }

  /** A second sweep at the same instant finds nothing to remove. */
  lemma SweepIdempotent(m: map<string, Entry>, ttl: int, now: int)
    ensures ExpiredKeys(Sweep(m, ttl, now), ttl, now) == {}
    ensures Sweep(Sweep(m, ttl, now), ttl, now) == Sweep(m, ttl, now)
  {
  }

  /** A sweep is invisible to readers: every key reads the same before and after. */
  lemma SweepPreservesLookups(m: map<string, Entry>, ttl: int, now: int, key: string)
    ensures Lookup(Sweep(m, ttl, now), ttl, key, now) == Lookup(m, ttl, key, now)
  {
  }

  /** After storing `data` under `key` at `storedAt`, a read at `now` returns
      `data` exactly while the entry's age is at most the TTL, and reads of
      other keys are unaffected. */
  lemma LookupAfterStore(m: map<string, Entry>, ttl: int, key: string, data: Payload,
                         storedAt: int, now: int, other: string)
    requires other != key
    ensures Lookup(m[key := Entry(data, storedAt)], ttl, key, now)
            == if now - storedAt <= ttl then Some(data) else None
    ensures Lookup(m[key := Entry(data, storedAt)], ttl, other, now) == Lookup(m, ttl, other, now)
  {
  }

  class CacheManager {
    /** The stored entries, keyed by request URL. */
    var entries: map<string, Entry>
    /** The TTL in seconds, fixed at construction. */
    const ttlSeconds: int

    constructor (ttlMinutes: int)
      ensures entries == map[]
      ensures ttlSeconds == ttlMinutes * 60
    {
      entries := map[];
      ttlSeconds := ttlMinutes * 60;
    }

    /** Returns the data of a live entry; an expired entry is deleted on the way. */
    method Get(key: string, now: int) returns (r: Option<Payload>)
      modifies this
      ensures r == Lookup(old(entries), ttlSeconds, key, now)
      ensures key !in old(entries) ==> r == None && entries == old(entries)
      ensures key in old(entries) && Expired(ttlSeconds, old(entries)[key].timestamp, now) ==>
                r == None && entries == old(entries) - {key}
      ensures key in old(entries) && !Expired(ttlSeconds, old(entries)[key].timestamp, now) ==>
                r == Some(old(entries)[key].data) && entries == old(entries)
    {
      if key !in entries {
        return None;
      }
      var entry := entries[key];
      if Expired(ttlSeconds, entry.timestamp, now) {
        entries := entries - {key};
        return None;
      }
      return Some(entry.data);
    }

    /** Replaces the entry for `key` wholesale with `data` stamped `now`. */
    method Set(key: string, data: Payload, now: int)
      modifies this
      ensures entries == old(entries)[key := Entry(data, now)]
      ensures ttlSeconds >= 0 ==> Lookup(entries, ttlSeconds, key, now) == Some(data)
    {
      entries := entries[key := Entry(data, now)];
    }

    method Clear()
      modifies this
      ensures entries == map[]
      ensures forall key, now :: Lookup(entries, ttlSeconds, key, now) == None
    {
      entries := map[];
    }

    /** Deletes every expired entry and returns how many were deleted. */
    method CleanupExpired(now: int) returns (count: nat)
      modifies this
      ensures entries == Sweep(old(entries), ttlSeconds, now)
      ensures count == |ExpiredKeys(old(entries), ttlSeconds, now)|
      ensures count == |old(entries)| - |entries|
    {
      var expiredKeys := ExpiredKeys(entries, ttlSeconds, now);
      var pending := expiredKeys;
      while pending != {}
        invariant pending <= expiredKeys
        invariant entries == old(entries) - (expiredKeys - pending)
        decreases pending
      {
        var key :| key in pending;
        entries := entries - {key};
        pending := pending - {key};
      }
      SweepRemovesExpired(old(entries), ttlSeconds, now);
      count := |expiredKeys|;
    }

    /** Reports the size before and after a sweep, which it performs. */
    method Stats(now: int) returns (s: CacheStats)
      modifies this
      ensures entries == Sweep(old(entries), ttlSeconds, now)
      ensures s.totalEntries == |old(entries)|
      ensures s.expiredCleaned == |ExpiredKeys(old(entries), ttlSeconds, now)|
      ensures s.activeEntries == |entries|
      ensures s.activeEntries == s.totalEntries - s.expiredCleaned
      ensures s.ttlSeconds == ttlSeconds
    {
      var totalEntries := |entries|;
      var expiredCount := CleanupExpired(now);
      var activeEntries := |entries|;
      s := CacheStats(totalEntries, activeEntries, expiredCount, ttlSeconds);
    }
  }
}
