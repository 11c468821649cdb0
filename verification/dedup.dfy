/** The bounded, TTL'd set of event keys of internal/node/dedup.go, compared with an unbounded one. */
module Dedup {

  /** An entry made at `at` still counts at `now`. */
  predicate Live(at: nat, now: nat, ttl: int) { now - at < ttl }

  /** The unbounded TTL set: first seen wins until the entry expires. */
  predicate IdealSeen(ideal: map<string, nat>, key: string, now: nat, ttl: int) {
    key in ideal && Live(ideal[key], now, ttl)
  }

  function IdealAfter(ideal: map<string, nat>, key: string, now: nat, ttl: int): map<string, nat> {
    if IdealSeen(ideal, key, now, ttl) then ideal else ideal[key := now]
  }

  /** `after` is `before` without its expired entries and, if that left no room, without one live
      entry that no other entry is older than. */
  ghost predicate Evicted(before: map<string, nat>, after: map<string, nat>, now: nat, ttl: int, max: nat) {
    && (forall k :: k in after ==> k in before && after[k] == before[k] && Live(before[k], now, ttl))
    && (forall k :: k in before && k !in after && Live(before[k], now, ttl) ==>
          && (forall j :: j in before && Live(before[j], now, ttl) ==> before[k] <= before[j])
          && |after| + 1 >= max)
    && (forall j, k :: j in before && k in before && j !in after && k !in after ==>
          Live(before[j], now, ttl) && Live(before[k], now, ttl) ==> j == k)
  }

  lemma RemoveOne(m: map<string, nat>, k: string)
    requires k in m
    ensures |m - {k}| == |m| - 1
  {
    assert (m - {k}).Keys == m.Keys - {k};
  }

  lemma SubmapSize(small: map<string, nat>, big: map<string, nat>)
    requires forall k :: k in small ==> k in big
    ensures |small| <= |big|
    ensures |small| == |big| ==> small.Keys == big.Keys
  {
    SubsetSize(small.Keys, big.Keys);
  }

  lemma {:induction false} SubsetSize(a: set<string>, b: set<string>)
    requires a <= b
    ensures |a| <= |b|
    ensures |a| == |b| ==> a == b
  {
    if a != {} {
      var x :| x in a;
      SubsetSize(a - {x}, b - {x});
    }
  }

  lemma InsertSize(m: map<string, nat>, k: string, v: nat)
    ensures |m[k := v]| == if k in m then |m| else |m| + 1
  {
    assert m[k := v].Keys == m.Keys + {k};
  }

  /** `key` is as old as any entry of a cache full of live entries. */
  ghost predicate OldestOfFull(seen: map<string, nat>, key: string, now: nat, ttl: int, max: nat) {
    && key in seen && |seen| == max
    && forall j :: j in seen ==> Live(seen[j], now, ttl) && seen[key] <= seen[j]
  }

  lemma LiveDropMeansFull(before: map<string, nat>, after: map<string, nat>, k: string, now: nat, ttl: int, max: nat)
    requires Evicted(before, after, now, ttl, max) && |before| <= max
    requires k in before && k !in after && Live(before[k], now, ttl)
    ensures OldestOfFull(before, k, now, ttl, max)
  {
    var both := after[k := before[k]];
    InsertSize(after, k, before[k]);
    SubmapSize(both, before);
    assert forall j :: j in before ==> j in both.Keys;
  }

  /** The cache holds the unbounded set's entries, some expired ones excepted. */
  ghost predicate Agrees(seen: map<string, nat>, ideal: map<string, nat>, now: nat, ttl: int) {
    && (forall k :: k in seen ==> k in ideal && ideal[k] == seen[k])
    && (forall k :: k in ideal && k !in seen ==> !Live(ideal[k], now, ttl))
  }

  ghost predicate NoLiveDropped(before: map<string, nat>, after: map<string, nat>, now: nat, ttl: int) {
    forall k :: k in before && Live(before[k], now, ttl) ==> k in after
  }

  /** What marking a key did to the cache. */
  ghost predicate Marked(before: map<string, nat>, after: map<string, nat>, key: string, now: nat, ttl: int) {
    && key in after
    && (if key in before && Live(before[key], now, ttl) then after == before else after[key] == now)
    && (forall k :: k in after && k != key ==> k in before && after[k] == before[k])
  }

  lemma MarkingAgrees(before: map<string, nat>, after: map<string, nat>, ideal: map<string, nat>, key: string, last: nat, now: nat, ttl: int)
    requires Agrees(before, ideal, last, ttl) && last <= now && Marked(before, after, key, now, ttl)
    ensures (key in before && Live(before[key], now, ttl)) == IdealSeen(ideal, key, now, ttl)
    ensures NoLiveDropped(before, after, now, ttl) ==> Agrees(after, IdealAfter(ideal, key, now, ttl), now, ttl)
  {
  }

  // ---------------------------------------------------------------- what a run of the cache forgets

  /** One call of Seen: the cache before and after it, the key, and the clock reading. */
  datatype Call = Call(before: map<string, nat>, after: map<string, nat>, key: string, now: nat)

  /** The call found a live entry. */
  predicate Answer(c: Call, ttl: int) { c.key in c.before && Live(c.before[c.key], c.now, ttl) }

  /** The call dropped a live entry for `key`, an oldest of a cache full of live entries. */
  ghost predicate Crowded(c: Call, key: string, ttl: int, max: nat) { OldestOfFull(c.before, key, c.now, ttl, max) }

  ghost predicate CallOk(c: Call, ttl: int, max: nat) {
    && Marked(c.before, c.after, c.key, c.now, ttl)
    && forall k :: k in c.before && k !in c.after && Live(c.before[k], c.now, ttl) ==> Crowded(c, k, ttl, max)
  }

  /** Calls in clock order, each on the cache the one before it left. */
  ghost predicate Trail(calls: seq<Call>, ttl: int, max: nat) {
    && (forall i :: 0 <= i < |calls| ==> CallOk(calls[i], ttl, max))
    && (forall i :: 0 < i < |calls| ==> calls[i].before == calls[i - 1].after && calls[i - 1].now <= calls[i].now)
  }

  /** After call `i` marked its key anew: the entry still stands, or its life is over, or it was crowded out. */
  ghost predicate StandsOrGone(calls: seq<Call>, i: nat, j: nat, ttl: int, max: nat)
    requires i < j <= |calls|
  {
    || (calls[i].key in calls[j - 1].after && calls[j - 1].after[calls[i].key] == calls[i].now)
    || calls[j - 1].now - calls[i].now >= ttl
    || (exists l :: i < l < j && Crowded(calls[l], calls[i].key, ttl, max))
  }

  lemma {:induction false} EntryStands(calls: seq<Call>, i: nat, j: nat, ttl: int, max: nat)
    requires Trail(calls, ttl, max) && i < j <= |calls| && !Answer(calls[i], ttl)
    ensures StandsOrGone(calls, i, j, ttl, max)
    decreases j
  {
    hide OldestOfFull;
    assert CallOk(calls[j - 1], ttl, max);
    if i + 1 < j {
      EntryStands(calls, i, j - 1, ttl, max);
      assert calls[j - 1].before == calls[j - 2].after && calls[j - 2].now <= calls[j - 1].now;
    }
  }

  /** Between two calls that did not find their key, the second after the first had marked it, either the
      entry's life ran out or a cache full of live entries crowded it out. */
  lemma ForgottenOnlyByAgeOrCrowding(calls: seq<Call>, i: nat, j: nat, ttl: int, max: nat)
    requires Trail(calls, ttl, max) && i < j < |calls| && calls[i].key == calls[j].key
    requires !Answer(calls[i], ttl) && !Answer(calls[j], ttl)
    ensures calls[j].now - calls[i].now >= ttl || exists l :: i < l < j && Crowded(calls[l], calls[i].key, ttl, max)
  {
    EntryStands(calls, i, j, ttl, max);
    hide OldestOfFull, CallOk;
    assert calls[j].before == calls[j - 1].after && calls[j - 1].now <= calls[j].now;
  }

  /** The calls lead from the empty cache to `seen`. */
  ghost predicate TrailTo(calls: seq<Call>, seen: map<string, nat>, lastNow: nat, ttl: int, max: nat) {
    && Trail(calls, ttl, max)
    && (if calls == [] then seen == map[] else calls[|calls| - 1].after == seen && calls[|calls| - 1].now <= lastNow)
  }

  lemma TrailSnoc(calls: seq<Call>, before: map<string, nat>, after: map<string, nat>, key: string, last: nat, now: nat, ttl: int, max: nat)
    requires TrailTo(calls, before, last, ttl, max) && last <= now && Marked(before, after, key, now, ttl)
    requires forall k :: k in before && k !in after && Live(before[k], now, ttl) ==> OldestOfFull(before, k, now, ttl, max)
    ensures TrailTo(calls + [Call(before, after, key, now)], after, now, ttl, max)
  {
    var c := Call(before, after, key, now);
    assert CallOk(c, ttl, max);
    hide CallOk;
  }

  class DedupCache {
    const max: nat
    const ttl: int
    var seen: map<string, nat>
    ghost var ideal: map<string, nat>
    ghost var lastNow: nat
    ghost var droppedLive: bool
    ghost var calls: seq<Call> // every call of Seen

    ghost predicate Valid()
      reads this
    {
      && TrailTo(calls, seen, lastNow, ttl, max)
      && max >= 1 && |seen| <= max && "" !in seen
      && (forall k :: k in seen ==> seen[k] <= lastNow)
      && (!droppedLive ==> Agrees(seen, ideal, lastNow, ttl))
    }

    constructor (max: nat, ttl: int)
      requires max >= 1
      ensures Valid() && seen == map[] && ideal == map[] && lastNow == 0 && !droppedLive && calls == []
      ensures this.max == max && this.ttl == ttl
    {
      this.max, this.ttl := max, ttl;
      seen, ideal, lastNow, droppedLive, calls := map[], map[], 0, false, [];
    }

    /** Drops expired entries first, then the single oldest if still at capacity. */
    method EvictOldest(now: nat)
      requires max >= 1 && "" !in seen && |seen| >= max
      modifies this`seen
      ensures Evicted(old(seen), seen, now, ttl, max)
      ensures |seen| < |old(seen)|
    {
      ghost var before := seen;
      var rest := seen.Keys;
      while rest != {}
        invariant forall k :: k in seen ==> k in before && seen[k] == before[k]
        invariant forall k :: k in before && k !in seen ==> !Live(before[k], now, ttl)
        invariant rest <= before.Keys
        invariant forall k :: k in seen && k !in rest ==> Live(before[k], now, ttl)
        decreases rest
      {
        var k :| k in rest;
        rest := rest - {k};
        if k in seen && !Live(seen[k], now, ttl) {
          seen := seen - {k};
        }
      }
      SubmapSize(seen, before);
      if |seen| < max {
        return;
      }
      ghost var live := seen;
      var oldestKey := "";
      var oldest := 0;
      var first := true;
      rest := seen.Keys;
      while rest != {}
        invariant rest <= seen.Keys
        invariant if first then rest == seen.Keys else oldestKey in seen && oldest == seen[oldestKey]
        invariant forall k :: k in seen && k !in rest ==> oldest <= seen[k]
        decreases rest
      {
        var k :| k in rest;
        if first || seen[k] < oldest {
          oldest, oldestKey, first := seen[k], k, false;
        }
        rest := rest - {k};
      }
      if oldestKey != "" {
        RemoveOne(seen, oldestKey);
        seen := seen - {oldestKey};
      }
    }

    /** Evicts if the cache is full. */
    method MakeRoom(now: nat)
      requires max >= 1 && |seen| <= max && "" !in seen
      modifies this`seen
      ensures |seen| < max
      ensures forall k :: k in seen ==> k in old(seen) && seen[k] == old(seen)[k]
      ensures forall k :: k in old(seen) && k !in seen && Live(old(seen)[k], now, ttl) ==>
                OldestOfFull(old(seen), k, now, ttl, max)
    {
      ghost var before := seen;
      if |seen| >= max {
        EvictOldest(now);
        forall k | k in before && k !in seen && Live(before[k], now, ttl)
          ensures OldestOfFull(before, k, now, ttl, max)
        {
          LiveDropMeansFull(before, seen, k, now, ttl, max);
        }
      }
    }

    /** Marks `key` and reports whether it was present and unexpired. */
    method Mark(key: string, now: nat) returns (dup: bool)
      requires max >= 1 && |seen| <= max && "" !in seen && key != ""
      modifies this`seen
      ensures |seen| <= max && "" !in seen
      ensures dup == (key in old(seen) && Live(old(seen)[key], now, ttl))
      ensures Marked(old(seen), seen, key, now, ttl)
      ensures forall k :: k in old(seen) && k !in seen && Live(old(seen)[k], now, ttl) ==>
                OldestOfFull(old(seen), k, now, ttl, max)
    {
      hide OldestOfFull, Live;
      if key in seen && Live(seen[key], now, ttl) {
        return true;
      }
      MakeRoom(now);
      InsertSize(seen, key, now);
      seen := seen[key := now];
      return false;
    }

    /** Until a live entry is dropped for lack of room, the answer is that of the unbounded TTL set. */
    method Seen(key: string, now: nat) returns (dup: bool)
      requires Valid() && key != "" && lastNow <= now
      modifies this
      ensures Valid() && lastNow == now && calls == old(calls) + [Call(old(seen), seen, key, now)]
      ensures dup == (key in old(seen) && now - old(seen)[key] < ttl)
      ensures key in seen && seen[key] == if dup then old(seen)[key] else now
      ensures Marked(old(seen), seen, key, now, ttl)
      ensures forall k :: k in old(seen) && k !in seen && Live(old(seen)[k], now, ttl) ==>
                OldestOfFull(old(seen), k, now, ttl, max)
      ensures ideal == IdealAfter(old(ideal), key, now, ttl)
      ensures !old(droppedLive) ==> dup == IdealSeen(old(ideal), key, now, ttl)
      ensures droppedLive == (old(droppedLive) || !NoLiveDropped(old(seen), seen, now, ttl))
    {
      ghost var before, was, last := seen, ideal, lastNow;
      hide TrailTo;
      dup := Mark(key, now);
      assert forall k :: k in seen ==> seen[k] <= now;
      hide TrailTo, OldestOfFull, Agrees, IdealAfter, IdealSeen, NoLiveDropped, Marked;
      TrailSnoc(calls, before, seen, key, last, now, ttl, max);
      calls := calls + [Call(before, seen, key, now)];
      if !droppedLive {
        MarkingAgrees(before, seen, was, key, last, now, ttl);
      }
      ideal := IdealAfter(ideal, key, now, ttl);
      droppedLive := droppedLive || !NoLiveDropped(before, seen, now, ttl);
      lastNow := now;
    }
  }
}
