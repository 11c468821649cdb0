/** The per-IP answer cache of internal/repquery/querier.go: bounded, with a shorter life for
    negative answers. */
module QueryCache {
  import opened Reputation
  import Dedup

  datatype Answer = Answer(record: ScoreRecord, subnets: int, ok: bool)

  datatype Entry = Entry(answer: Answer, at: nat)

  /** Negative answers live a fifth as long. */
  function TtlOf(answer: Answer, ttl: nat): nat { if answer.ok then ttl else ttl / 5 }

  predicate Fresh(e: Entry, now: nat, ttl: nat) { now - e.at < TtlOf(e.answer, ttl) }

  /** A positive answer is fresh for the whole life, a negative one for a fifth of it. */
  lemma FreshIs(e: Entry, now: nat, ttl: nat)
    ensures Fresh(e, now, ttl) <==> now - e.at < if e.answer.ok then ttl else ttl / 5
  {
  }

  type Cache = map<string, Entry>

  ghost predicate OldestOfFull(cache: Cache, key: string, now: nat, ttl: nat, max: nat) {
    && key in cache && |cache| == max
    && forall j :: j in cache ==> Fresh(cache[j], now, ttl) && cache[key].at <= cache[j].at
  }

  ghost predicate Subcache(small: Cache, big: Cache) {
    forall k :: k in small ==> k in big && small[k] == big[k]
  }

  class Querier {
    const max: nat
    const ttl: nat
    var cache: Cache
    ghost var latest: Cache // the last answer fetched for each IP
    ghost var lastNow: nat

    ghost predicate Valid()
      reads this
    {
      && max >= 1 && |cache| <= max && "" !in cache
      && Subcache(cache, latest)
      && (forall k :: k in latest ==> latest[k].at <= lastNow)
    }

    constructor (max: nat, ttl: nat)
      requires max >= 1
      ensures Valid() && cache == map[] && latest == map[] && lastNow == 0
      ensures this.max == max && this.ttl == ttl
    {
      this.max, this.ttl := max, ttl;
      cache, latest, lastNow := map[], map[], 0;
    }

    /** Drops expired answers first, then the single oldest if still at capacity. */
    method Evict(now: nat)
      requires max >= 1 && "" !in cache && |cache| == max
      modifies this`cache
      ensures Subcache(cache, old(cache)) && |cache| < max
      ensures forall k :: k in old(cache) && k !in cache && Fresh(old(cache)[k], now, ttl) ==>
                OldestOfFull(old(cache), k, now, ttl, max)
    {
      ghost var before := cache;
      var rest := cache.Keys;
      while rest != {}
        invariant Subcache(cache, before)
        invariant forall k :: k in before && k !in cache ==> !Fresh(before[k], now, ttl)
        invariant rest <= before.Keys
        invariant forall k :: k in cache && k !in rest ==> Fresh(before[k], now, ttl)
        decreases rest
      {
        var k :| k in rest;
        rest := rest - {k};
        if k in cache && !Fresh(cache[k], now, ttl) {
          cache := cache - {k};
        }
      }
      Dedup.SubsetSize(cache.Keys, before.Keys);
      if |cache| < max {
        return;
      }
      assert cache.Keys == before.Keys;
      var oldestKey := "";
      var oldest := 0;
      var first := true;
      rest := cache.Keys;
      while rest != {}
        invariant rest <= cache.Keys
        invariant if first then rest == cache.Keys else oldestKey in cache && oldest == cache[oldestKey].at
        invariant forall k :: k in cache && k !in rest ==> oldest <= cache[k].at
        decreases rest
      {
        var k :| k in rest;
        if first || cache[k].at < oldest {
          oldest, oldestKey, first := cache[k].at, k, false;
        }
        rest := rest - {k};
      }
      if oldestKey != "" {
        assert OldestOfFull(before, oldestKey, now, ttl, max);
        assert (cache - {oldestKey}).Keys == cache.Keys - {oldestKey};
        cache := cache - {oldestKey};
      }
    }

    /** Caches an answer, evicting if the cache is full. */
    method Store(ip: string, fetched: Answer, later: nat)
      requires max >= 1 && |cache| <= max && "" !in cache && ip != ""
      modifies this`cache
      ensures |cache| <= max && "" !in cache && ip in cache && cache[ip] == Entry(fetched, later)
      ensures Subcache(cache - {ip}, old(cache))
      ensures forall k :: k in old(cache) && k !in cache && Fresh(old(cache)[k], later, ttl) ==>
                OldestOfFull(old(cache), k, later, ttl, max)
    {
      hide Fresh, OldestOfFull;
      if |cache| >= max {
        Evict(later);
      }
      assert cache[ip := Entry(fetched, later)].Keys == cache.Keys + {ip};
      cache := cache[ip := Entry(fetched, later)];
    }

    /** A fresh cached answer is served as it is; otherwise `fetched`, the merged answer of the
        aggregators obtained by `later`, is cached and served. Either way the caller gets the last
        answer fetched for the IP. */
    method Query(ip: string, fetched: Answer, now: nat, later: nat) returns (answer: Answer)
      requires Valid() && ip != "" && lastNow <= now <= later
      modifies this
      ensures Valid()
      ensures var hit := ip in old(cache) && Fresh(old(cache)[ip], now, ttl);
              && latest == (if hit then old(latest) else old(latest)[ip := Entry(fetched, later)])
              && (hit ==> cache == old(cache) && Fresh(latest[ip], now, ttl))
              && (!hit ==> ip in cache)
      ensures var cached := ip in old(cache) && now - old(cache)[ip].at < (if old(cache)[ip].answer.ok then ttl else ttl / 5);
              if cached then answer == old(cache)[ip].answer && cache == old(cache)
              else answer == fetched && ip in cache && cache[ip] == Entry(fetched, later)
      ensures ip in latest && answer == latest[ip].answer
      ensures Subcache(cache - {ip}, old(cache))
      ensures forall k :: k in old(cache) && k !in cache && Fresh(old(cache)[k], later, ttl) ==>
                OldestOfFull(old(cache), k, later, ttl, max)
    {
      if ip in cache { FreshIs(cache[ip], now, ttl); }
      hide Fresh, OldestOfFull;
      if ip in cache && Fresh(cache[ip], now, ttl) {
        lastNow := later;
        return cache[ip].answer;
      }
      ghost var before := cache;
      Store(ip, fetched, later);
      latest := latest[ip := Entry(fetched, later)];
      lastNow := later;
      assert forall k :: k in cache && k != ip ==> k in cache - {ip};
      return fetched;
    }
  }
}
