/** The hit-caching strategies of the tracking manager: the no-batching
    strategy, which sends each hit at once and remembers the keys of those
    it had to cache, and the batching-on-failure strategy, which pools hits
    and activations, purges a visitor's pending hits when consent is
    refused, and sends each pool as one batch. Transport outcomes and
    the fresh unique ids of hit keys are inputs; the hit cache itself is
    recorded as the list of calls made to it. */
module HitCaching {
  import opened Common
  import opened OrderedMap
  import opened Hits
  import opened Tracking

  /** `generateHitKey`: the visitor id, a colon, then a fresh unique id. */
  function HitKey(visitorId: Option<string>, uuid: string): (k: string)
    ensures visitorId.GetOr("") + ":" <= k
    ensures k[|visitorId.GetOr("") + ":"|..] == uuid
  {
    visitorId.GetOr("") + ":" + uuid
  }

  /** Keys built for one visitor from different unique ids differ. */
  lemma HitKeysDiffer(visitorId: Option<string>, uuid1: string, uuid2: string)
    requires uuid1 != uuid2
    ensures HitKey(visitorId, uuid1) != HitKey(visitorId, uuid2)
  {
    var prefix := visitorId.GetOr("") + ":";
    assert HitKey(visitorId, uuid1)[|prefix|..] == uuid1;
  }

  /** NoBatchingContinuousCachingStrategy. */
  class NoBatchingStrategy {
    /** Keys of the hits cached after a failed send, not yet flushed. */
    var cacheHitKeys: seq<string>
    /** Hits and activations posted successfully. */
    var sentHits: seq<Hit>
    var sentActivations: seq<Hit>
    /** The argument of every `cacheHit` call, in order. */
    var cacheCalls: seq<seq<Hit>>
    /** The argument of every `flushHits` call, in order. */
    var flushCalls: seq<seq<string>>

    constructor()
      ensures cacheHitKeys == [] && sentHits == [] && sentActivations == []
      ensures cacheCalls == [] && flushCalls == []
    {
      cacheHitKeys := [];
      sentHits := [];
      sentActivations := [];
      cacheCalls := [];
      flushCalls := [];
    }

    /** `addHit`: a delivered hit changes no bookkeeping; an undelivered one
        gets a fresh key, which is appended to `cacheHitKeys`, and is cached
        on its own. */
    method AddHit(hit: Hit, outcome: Outcome, uuid: string) returns (stored: Hit)
      modifies this
      ensures outcome.Sent? ==>
        stored == hit && sentHits == old(sentHits) + [hit] &&
        cacheHitKeys == old(cacheHitKeys) && cacheCalls == old(cacheCalls)
      ensures outcome.Thrown? ==>
        var key := HitKey(hit.visitorId, uuid);
        stored == hit.(key := Some(key)) && sentHits == old(sentHits) &&
        cacheHitKeys == old(cacheHitKeys) + [key] && cacheCalls == old(cacheCalls) + [[stored]]
      ensures sentActivations == old(sentActivations) && flushCalls == old(flushCalls)
    {
      if outcome.Sent? {
        sentHits := sentHits + [hit];
        stored := hit;
      } else {
        var key := HitKey(hit.visitorId, uuid);
        stored := hit.(key := Some(key));
        cacheHitKeys := cacheHitKeys + [key];
        cacheCalls := cacheCalls + [[stored]];
      }
    }

    /** `activateFlag`: the same bookkeeping for an activation. */
    method ActivateFlag(hit: Hit, outcome: Outcome, uuid: string) returns (stored: Hit)
      modifies this
      ensures outcome.Sent? ==>
        stored == hit && sentActivations == old(sentActivations) + [hit] &&
        cacheHitKeys == old(cacheHitKeys) && cacheCalls == old(cacheCalls)
      ensures outcome.Thrown? ==>
        var key := HitKey(hit.visitorId, uuid);
        stored == hit.(key := Some(key)) && sentActivations == old(sentActivations) &&
        cacheHitKeys == old(cacheHitKeys) + [key] && cacheCalls == old(cacheCalls) + [[stored]]
      ensures sentHits == old(sentHits) && flushCalls == old(flushCalls)
    {
      if outcome.Sent? {
        sentActivations := sentActivations + [hit];
        stored := hit;
      } else {
        var key := HitKey(hit.visitorId, uuid);
        stored := hit.(key := Some(key));
        cacheHitKeys := cacheHitKeys + [key];
        cacheCalls := cacheCalls + [[stored]];
      }
    }

    /** `notConsent`: the keys the shared purge returns (an input here),
        followed by every cached key, are flushed in one call, after which
        no cached key remains, whichever visitor it belonged to. With
        nothing to flush nothing happens. */
    method NotConsent(purgedKeys: seq<string>)
      modifies this
      ensures purgedKeys + old(cacheHitKeys) == [] ==>
        cacheHitKeys == old(cacheHitKeys) && flushCalls == old(flushCalls)
      ensures purgedKeys + old(cacheHitKeys) != [] ==>
        flushCalls == old(flushCalls) + [purgedKeys + old(cacheHitKeys)] && cacheHitKeys == []
      ensures sentHits == old(sentHits) && sentActivations == old(sentActivations)
      ensures cacheCalls == old(cacheCalls)
    {
      var merged := purgedKeys + cacheHitKeys;
      if merged == [] {
        return;
      }
      flushCalls := flushCalls + [merged];
      cacheHitKeys := [];
    }
  }

  /** The age from which a pooled hit is no longer sent, in milliseconds
      (DEFAULT_HIT_CACHE_TIME_MS: four hours). */
  const DEFAULT_HIT_CACHE_TIME_MS: int := 14400000

  /** A pooled hit, and whether it was loaded back from the hit cache. */
  datatype PoolEntry = PoolEntry(hit: Hit, fromCache: bool)

  type Pool = OMap<string, PoolEntry>

  /** An entry a consent refusal by `visitorId` removes: one of that
      visitor's hits that is not itself a consent event. */
  predicate Doomed(e: PoolEntry, visitorId: Option<string>) {
    e.hit.visitorId == visitorId && !IsConsentHit(e.hit)
  }

  /** The pool without the entries a consent refusal removes, in order. */
  function Purged(pool: Pool, visitorId: Option<string>): (r: Pool)
    ensures forall p :: p in r <==> p in pool && !Doomed(p.1, visitorId)
    ensures |r| <= |pool|
  {
    if |pool| == 0 then []
    else if Doomed(pool[0].1, visitorId) then Purged(pool[1..], visitorId)
    else [pool[0]] + Purged(pool[1..], visitorId)
  }

  /** The keys of the removed entries that came from the cache, in pool
      order: those the cache must forget. */
  function PurgedCacheKeys(pool: Pool, visitorId: Option<string>): (r: seq<string>)
    ensures forall k :: k in r <==>
      exists p :: p in pool && Doomed(p.1, visitorId) && p.1.fromCache && p.0 == k
  {
    if |pool| == 0 then []
    else
      var rest := PurgedCacheKeys(pool[1..], visitorId);
      assert forall p :: p in pool <==> p == pool[0] || p in pool[1..];
      if Doomed(pool[0].1, visitorId) && pool[0].1.fromCache then [pool[0].0] + rest else rest
  }

  /** Purging twice removes nothing more, and leaves nothing to flush. */
  lemma {:induction false} PurgeIdempotent(pool: Pool, visitorId: Option<string>)
    ensures Purged(Purged(pool, visitorId), visitorId) == Purged(pool, visitorId)
    ensures PurgedCacheKeys(Purged(pool, visitorId), visitorId) == []
    decreases |pool|
  {
    if |pool| > 0 {
      PurgeIdempotent(pool[1..], visitorId);
    }
  }

  /** Purging keeps pool order: the purge of a concatenation is the purge of
      each part, in turn. */
  lemma {:induction false} PurgedAppend(a: Pool, b: Pool, visitorId: Option<string>)
    ensures Purged(a + b, visitorId) == Purged(a, visitorId) + Purged(b, visitorId)
    decreases |a|
  {
    if |a| == 0 {
      assert a + b == b;
    } else {
      var ab := a + b;
      assert ab[0] == a[0];
      assert ab[1..] == a[1..] + b;
      PurgedAppend(a[1..], b, visitorId);
      if Doomed(a[0].1, visitorId) {
        assert Purged(ab, visitorId) == Purged(ab[1..], visitorId);
        assert Purged(a, visitorId) == Purged(a[1..], visitorId);
      } else {
        assert Purged(ab, visitorId) == [a[0]] + Purged(ab[1..], visitorId);
        assert Purged(a, visitorId) == [a[0]] + Purged(a[1..], visitorId);
      }
    }
  }

  /** The keys a purge flushes keep pool order in the same way. */
  lemma {:induction false} PurgedCacheKeysAppend(a: Pool, b: Pool, visitorId: Option<string>)
    ensures PurgedCacheKeys(a + b, visitorId) ==
      PurgedCacheKeys(a, visitorId) + PurgedCacheKeys(b, visitorId)
    decreases |a|
  {
    if |a| == 0 {
      assert a + b == b;
    } else {
      var ab := a + b;
      assert ab[0] == a[0];
      assert ab[1..] == a[1..] + b;
      PurgedCacheKeysAppend(a[1..], b, visitorId);
      if Doomed(a[0].1, visitorId) && a[0].1.fromCache {
        assert PurgedCacheKeys(ab, visitorId) == [a[0].0] + PurgedCacheKeys(ab[1..], visitorId);
        assert PurgedCacheKeys(a, visitorId) == [a[0].0] + PurgedCacheKeys(a[1..], visitorId);
      } else {
        assert PurgedCacheKeys(ab, visitorId) == PurgedCacheKeys(ab[1..], visitorId);
        assert PurgedCacheKeys(a, visitorId) == PurgedCacheKeys(a[1..], visitorId);
      }
    }
  }

  /** The keys of every entry that came from the cache, in pool order. */
  function CacheKeys(pool: Pool): (r: seq<string>)
    ensures forall k :: k in r <==> exists p :: p in pool && p.1.fromCache && p.0 == k
  {
    if |pool| == 0 then []
    else
      var rest := CacheKeys(pool[1..]);
      assert forall p :: p in pool <==> p == pool[0] || p in pool[1..];
      if pool[0].1.fromCache then [pool[0].0] + rest else rest
  }

  /** The cached keys of a concatenation are those of each part, in turn. */
  lemma {:induction false} CacheKeysAppend(a: Pool, b: Pool)
    ensures CacheKeys(a + b) == CacheKeys(a) + CacheKeys(b)
    decreases |a|
  {
    if |a| == 0 {
      assert a + b == b;
    } else {
      assert (a + b)[0] == a[0];
      assert (a + b)[1..] == a[1..] + b;
      CacheKeysAppend(a[1..], b);
    }
  }

  /** The pooled hits, in pool order. */
  function PoolHits(pool: Pool): (r: seq<Hit>)
    ensures |r| == |pool|
    ensures forall i :: 0 <= i < |pool| ==> r[i] == pool[i].1.hit
  {
    seq(|pool|, i requires 0 <= i < |pool| => pool[i].1.hit)
  }

  /** The hits young enough to be sent at time `now`, in pool order. */
  function FreshHits(pool: Pool, now: int): (r: seq<Hit>)
    ensures forall h :: h in r <==>
      exists p :: p in pool && p.1.hit == h && now - h.createdAt < DEFAULT_HIT_CACHE_TIME_MS
    ensures |r| <= |pool|
  {
    if |pool| == 0 then []
    else
      var rest := FreshHits(pool[1..], now);
      assert forall p :: p in pool <==> p == pool[0] || p in pool[1..];
      if now - pool[0].1.hit.createdAt < DEFAULT_HIT_CACHE_TIME_MS then [pool[0].1.hit] + rest else rest
  }

  /** The fresh hits of a concatenation are those of each part, in turn. */
  lemma {:induction false} FreshHitsAppend(a: Pool, b: Pool, now: int)
    ensures FreshHits(a + b, now) == FreshHits(a, now) + FreshHits(b, now)
    decreases |a|
  {
    if |a| == 0 {
      assert a + b == b;
    } else {
      assert (a + b)[0] == a[0];
      assert (a + b)[1..] == a[1..] + b;
      FreshHitsAppend(a[1..], b, now);
    }
  }

  /** BatchingOnFailedCachingStrategy. */
  class BatchingOnFailedStrategy {
    var hitsPool: Pool
    var activatePool: Pool
    /** Every batch of hits and of activations posted, in order. */
    var sentHitBatches: seq<seq<Hit>>
    var sentActivateBatches: seq<seq<Hit>>
    /** The argument of every `cacheHit` and `flushHits` call, in order. */
    var cacheCalls: seq<seq<Hit>>
    var flushCalls: seq<seq<string>>

    constructor()
      ensures hitsPool == [] && activatePool == []
      ensures sentHitBatches == [] && sentActivateBatches == [] && cacheCalls == [] && flushCalls == []
    {
      hitsPool := [];
      activatePool := [];
      sentHitBatches := [];
      sentActivateBatches := [];
      cacheCalls := [];
      flushCalls := [];
    }

    /** `hydrateHitsPoolQueue`: a hit loaded back from the cache under its key. */
    method HydrateHitsPool(key: string, hit: Hit)
      modifies this
      ensures hitsPool == Put(old(hitsPool), key, PoolEntry(hit, true))
      ensures activatePool == old(activatePool) && sentHitBatches == old(sentHitBatches)
      ensures sentActivateBatches == old(sentActivateBatches)
      ensures cacheCalls == old(cacheCalls) && flushCalls == old(flushCalls)
    {
      hitsPool := Put(hitsPool, key, PoolEntry(hit, true));
    }

    /** `hydrateActivatePoolQueue`. */
    method HydrateActivatePool(key: string, hit: Hit)
      modifies this
      ensures activatePool == Put(old(activatePool), key, PoolEntry(hit, true))
      ensures hitsPool == old(hitsPool) && sentHitBatches == old(sentHitBatches)
      ensures sentActivateBatches == old(sentActivateBatches)
      ensures cacheCalls == old(cacheCalls) && flushCalls == old(flushCalls)
    {
      activatePool := Put(activatePool, key, PoolEntry(hit, true));
    }

    /** `notConsent`: removes the visitor's pending hits and activations,
        consent events excepted, and flushes from the cache, in one call,
        the keys of the removed entries that came from it. */
    method NotConsent(visitorId: Option<string>)
      modifies this
      ensures hitsPool == Purged(old(hitsPool), visitorId)
      ensures activatePool == Purged(old(activatePool), visitorId)
      ensures var keys := PurgedCacheKeys(old(hitsPool), visitorId) + PurgedCacheKeys(old(activatePool), visitorId);
        flushCalls == old(flushCalls) + (if keys == [] then [] else [keys])
      ensures sentHitBatches == old(sentHitBatches) && sentActivateBatches == old(sentActivateBatches)
      ensures cacheCalls == old(cacheCalls)
    {
      var keys := PurgedCacheKeys(hitsPool, visitorId) + PurgedCacheKeys(activatePool, visitorId);
      hitsPool := Purged(hitsPool, visitorId);
      activatePool := Purged(activatePool, visitorId);
      if keys != [] {
        flushCalls := flushCalls + [keys];
      }
    }

    /** `addHit`: the hit joins the pool under a fresh key; a consent
        refusal then purges its visitor's pending entries. */
    method AddHit(hit: Hit, uuid: string) returns (stored: Hit)
      modifies this
      ensures var key := HitKey(hit.visitorId, uuid);
        stored == hit.(key := Some(key)) &&
        var added := Put(old(hitsPool), key, PoolEntry(stored, false));
        if IsConsentRefusal(hit) then
          hitsPool == Purged(added, hit.visitorId) &&
          activatePool == Purged(old(activatePool), hit.visitorId) &&
          var keys := PurgedCacheKeys(added, hit.visitorId) + PurgedCacheKeys(old(activatePool), hit.visitorId);
          flushCalls == old(flushCalls) + (if keys == [] then [] else [keys])
        else
          hitsPool == added && activatePool == old(activatePool) && flushCalls == old(flushCalls)
      ensures sentHitBatches == old(sentHitBatches) && sentActivateBatches == old(sentActivateBatches)
      ensures cacheCalls == old(cacheCalls)
    {
      var key := HitKey(hit.visitorId, uuid);
      stored := hit.(key := Some(key));
      hitsPool := Put(hitsPool, key, PoolEntry(stored, false));
      if IsConsentRefusal(hit) {
        NotConsent(hit.visitorId);
      }
    }

    /** `activateFlag`: the activation joins its pool under a fresh key. */
    method ActivateFlag(hit: Hit, uuid: string) returns (stored: Hit)
      modifies this
      ensures var key := HitKey(hit.visitorId, uuid);
        stored == hit.(key := Some(key)) &&
        activatePool == Put(old(activatePool), key, PoolEntry(stored, false))
      ensures hitsPool == old(hitsPool) && flushCalls == old(flushCalls) && cacheCalls == old(cacheCalls)
      ensures sentHitBatches == old(sentHitBatches) && sentActivateBatches == old(sentActivateBatches)
    {
      var key := HitKey(hit.visitorId, uuid);
      stored := hit.(key := Some(key));
      activatePool := Put(activatePool, key, PoolEntry(stored, false));
    }

    /** Sending the activation pool as one batch: on success the pool is
        emptied and the keys of its cached entries are flushed (when there
        are any); on failure the pool stays and is cached in one call. An
        empty pool sends nothing. */
    method SendActivateBatch(outcome: Outcome)
      modifies this
      ensures old(activatePool) == [] ==>
        activatePool == [] && sentActivateBatches == old(sentActivateBatches) &&
        cacheCalls == old(cacheCalls) && flushCalls == old(flushCalls)
      ensures old(activatePool) != [] && outcome.Sent? ==>
        activatePool == [] &&
        sentActivateBatches == old(sentActivateBatches) + [PoolHits(old(activatePool))] &&
        cacheCalls == old(cacheCalls) &&
        var keys := CacheKeys(old(activatePool));
        flushCalls == old(flushCalls) + (if keys == [] then [] else [keys])
      ensures old(activatePool) != [] && outcome.Thrown? ==>
        activatePool == old(activatePool) && sentActivateBatches == old(sentActivateBatches) &&
        cacheCalls == old(cacheCalls) + [PoolHits(old(activatePool))] && flushCalls == old(flushCalls)
      ensures hitsPool == old(hitsPool) && sentHitBatches == old(sentHitBatches)
    {
      if activatePool == [] {
        return;
      }
      if outcome.Sent? {
        sentActivateBatches := sentActivateBatches + [PoolHits(activatePool)];
        var keys := CacheKeys(activatePool);
        activatePool := [];
        if keys != [] {
          flushCalls := flushCalls + [keys];
        }
      } else {
        cacheCalls := cacheCalls + [PoolHits(activatePool)];
      }
    }

    /** Sending the hits pool as one batch at time `now`: hits that reached
        DEFAULT_HIT_CACHE_TIME_MS are left out of the batch. On success the
        pool is emptied and the keys of its cached entries are flushed (when
        there are any); on failure the pool stays and every pending hit is
        cached in one call. With no hit to send nothing happens. */
    method SendHitsBatch(now: int, outcome: Outcome)
      modifies this
      ensures FreshHits(old(hitsPool), now) == [] ==>
        hitsPool == old(hitsPool) && sentHitBatches == old(sentHitBatches) &&
        cacheCalls == old(cacheCalls) && flushCalls == old(flushCalls)
      ensures FreshHits(old(hitsPool), now) != [] && outcome.Sent? ==>
        hitsPool == [] &&
        sentHitBatches == old(sentHitBatches) + [FreshHits(old(hitsPool), now)] &&
        cacheCalls == old(cacheCalls) &&
        var keys := CacheKeys(old(hitsPool));
        flushCalls == old(flushCalls) + (if keys == [] then [] else [keys])
      ensures FreshHits(old(hitsPool), now) != [] && outcome.Thrown? ==>
        hitsPool == old(hitsPool) && sentHitBatches == old(sentHitBatches) &&
        cacheCalls == old(cacheCalls) + [PoolHits(old(hitsPool))] && flushCalls == old(flushCalls)
      ensures activatePool == old(activatePool) && sentActivateBatches == old(sentActivateBatches)
    {
      var batch := FreshHits(hitsPool, now);
      if batch == [] {
        return;
      }
      if outcome.Sent? {
        sentHitBatches := sentHitBatches + [batch];
        var keys := CacheKeys(hitsPool);
        hitsPool := [];
        if keys != [] {
          flushCalls := flushCalls + [keys];
        }
      } else {
        cacheCalls := cacheCalls + [PoolHits(hitsPool)];
      }
    }

    /** `sendBatch`: the activation pool, then the hits pool. Each pool that
        has something to send is emptied when its batch goes through and kept
        when it fails; the cache sees the failed activation pool before the
        failed hits pool, and the flushed keys in the same order. */
    method SendBatch(now: int, activateOutcome: Outcome, hitsOutcome: Outcome)
      modifies this
      ensures var aSent := old(activatePool) != [] && activateOutcome.Sent?;
        var aFailed := old(activatePool) != [] && activateOutcome.Thrown?;
        var hSent := FreshHits(old(hitsPool), now) != [] && hitsOutcome.Sent?;
        var hFailed := FreshHits(old(hitsPool), now) != [] && hitsOutcome.Thrown?;
        var aKeys := CacheKeys(old(activatePool));
        var hKeys := CacheKeys(old(hitsPool));
        activatePool == (if aSent then [] else old(activatePool)) &&
        hitsPool == (if hSent then [] else old(hitsPool)) &&
        sentActivateBatches == old(sentActivateBatches) + (if aSent then [PoolHits(old(activatePool))] else []) &&
        sentHitBatches == old(sentHitBatches) + (if hSent then [FreshHits(old(hitsPool), now)] else []) &&
        cacheCalls == old(cacheCalls) + (if aFailed then [PoolHits(old(activatePool))] else []) +
                                        (if hFailed then [PoolHits(old(hitsPool))] else []) &&
        flushCalls == old(flushCalls) + (if aSent && aKeys != [] then [aKeys] else []) +
                                        (if hSent && hKeys != [] then [hKeys] else [])
    {
      SendActivateBatch(activateOutcome);
      SendHitsBatch(now, hitsOutcome);
    }
  }
}
