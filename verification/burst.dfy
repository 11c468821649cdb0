/** Sliding burst windows of internal/rules/burst.go: timestamps per (ip, reason), evicted lazily by
    the counts themselves. */
module Burst {
  import opened NetUtil

  datatype BurstKey = BurstKey(ip: Text, reason: string)

  type Windows = map<BurstKey, seq<nat>>

  function At(w: Windows, k: BurstKey): seq<nat> { if k in w then w[k] else [] }

  /** Drops the leading timestamps before `cutoff`. */
  function DropBefore(ts: seq<nat>, cutoff: int): seq<nat> {
    if ts != [] && ts[0] < cutoff then DropBefore(ts[1..], cutoff) else ts
  }

  function Recorded(w: Windows, k: BurstKey, now: nat): Windows { w[k := At(w, k) + [now]] }

  /** The windows after a count: the key's list is trimmed, and gone if nothing is left. */
  function Trimmed(w: Windows, k: BurstKey, cutoff: int): Windows {
    var live := DropBefore(At(w, k), cutoff);
    if live == [] then w - {k} else w[k := live]
  }

  // ---------------------------------------------------------------- counting a history

  predicate Sorted(ts: seq<nat>) { forall i, j :: 0 <= i < j < |ts| ==> ts[i] <= ts[j] }

  /** How many of the timestamps lie at `cutoff` or later. */
  ghost function CountFrom(ts: seq<nat>, cutoff: int): nat {
    if ts == [] then 0 else (if ts[0] >= cutoff then 1 else 0) + CountFrom(ts[1..], cutoff)
  }

  lemma {:induction false} AllFrom(ts: seq<nat>, cutoff: int)
    requires forall i :: 0 <= i < |ts| ==> ts[i] >= cutoff
    ensures CountFrom(ts, cutoff) == |ts| && DropBefore(ts, cutoff) == ts
  {
    if ts != [] { AllFrom(ts[1..], cutoff); }
  }

  /** On a sorted history the trimmed list is what a full scan would count. */
  lemma {:induction false} TrimCounts(ts: seq<nat>, cutoff: int)
    requires Sorted(ts)
    ensures |DropBefore(ts, cutoff)| == CountFrom(ts, cutoff)
    ensures Sorted(DropBefore(ts, cutoff))
  {
    if ts != [] {
      if ts[0] < cutoff { TrimCounts(ts[1..], cutoff); } else { AllFrom(ts, cutoff); }
    }
  }

  /** Starting the count later can only lose timestamps. */
  lemma {:induction false} CountFromSuffix(ts: seq<nat>, d: nat, cutoff: int)
    requires Sorted(ts) && d <= |ts|
    ensures CountFrom(ts[d..], cutoff) <= CountFrom(ts, cutoff)
    ensures CountFrom(ts[d..], cutoff) == CountFrom(ts, cutoff) <==> forall i :: 0 <= i < d ==> ts[i] < cutoff
  {
    if d > 0 {
      CountFromSuffix(ts[1..], d - 1, cutoff);
      assert ts[1..][d - 1..] == ts[d..];
      assert forall i :: 1 <= i < d ==> ts[i] == ts[1..][i - 1];
    }
  }

  lemma {:induction false} DropIsSuffix(ts: seq<nat>, cutoff: int) returns (n: nat)
    ensures n <= |ts| && DropBefore(ts, cutoff) == ts[n..]
    ensures forall i :: 0 <= i < n ==> ts[i] < cutoff
  {
    if ts != [] && ts[0] < cutoff {
      var m := DropIsSuffix(ts[1..], cutoff);
      n := m + 1;
      assert forall i :: 1 <= i < n ==> ts[i] == ts[1..][i - 1];
    } else {
      n := 0;
    }
  }

  ghost function Dropped(dropped: map<BurstKey, nat>, k: BurstKey): nat { if k in dropped then dropped[k] else 0 }

  /** The kept timestamps are all recorded ones but the first `d`. */
  ghost predicate Keeps(kept: seq<nat>, history: seq<nat>, d: nat, lastNow: nat) {
    && Sorted(history) && d <= |history| && kept == history[d..]
    && forall i :: 0 <= i < |history| ==> history[i] <= lastNow
  }

  /** None of the first `d` timestamps, the evicted ones, lies at `cutoff` or later. */
  ghost predicate EvictedBefore(history: seq<nat>, d: nat, cutoff: int) {
    forall i :: 0 <= i < d && i < |history| ==> history[i] < cutoff
  }

  lemma KeepsRecord(kept: seq<nat>, history: seq<nat>, d: nat, lastNow: nat, now: nat)
    requires Keeps(kept, history, d, lastNow) && lastNow <= now
    ensures Keeps(kept + [now], history + [now], d, now)
  {
  }

  /** Trimming evicts a further prefix, counts no more than the true number, and counts exactly the
      true number iff no evicted timestamp lies in the window. */
  lemma KeepsTrim(kept: seq<nat>, history: seq<nat>, d: nat, lastNow: nat, cutoff: int) returns (more: nat)
    requires Keeps(kept, history, d, lastNow)
    ensures more >= d && Keeps(DropBefore(kept, cutoff), history, more, lastNow)
    ensures forall c :: c >= cutoff && EvictedBefore(history, d, c) ==> EvictedBefore(history, more, c)
    ensures |DropBefore(kept, cutoff)| <= CountFrom(history, cutoff)
    ensures |DropBefore(kept, cutoff)| == CountFrom(history, cutoff) <==> EvictedBefore(history, d, cutoff)
  {
    var n := DropIsSuffix(kept, cutoff);
    more := d + n;
    assert forall i :: d <= i < more ==> history[i] == kept[i - d];
    assert Sorted(kept);
    TrimCounts(kept, cutoff);
    CountFromSuffix(history, d, cutoff);
  }

  lemma KeepsLater(kept: seq<nat>, history: seq<nat>, d: nat, lastNow: nat, now: nat)
    requires Keeps(kept, history, d, lastNow) && lastNow <= now
    ensures Keeps(kept, history, d, now)
  {
  }

  lemma TrimmedAt(w: Windows, k: BurstKey, cutoff: int, j: BurstKey)
    ensures At(Trimmed(w, k, cutoff), j) == if j == k then DropBefore(At(w, k), cutoff) else At(w, j)
  {
    hide DropBefore;
  }

  ghost predicate AllKept(entries: Windows, history: Windows, dropped: map<BurstKey, nat>, lastNow: nat) {
    forall k :: Keeps(At(entries, k), At(history, k), Dropped(dropped, k), lastNow)
  }

  lemma AllKeptRecord(entries: Windows, history: Windows, dropped: map<BurstKey, nat>, lastNow: nat, k: BurstKey, now: nat)
    requires AllKept(entries, history, dropped, lastNow) && lastNow <= now
    ensures AllKept(Recorded(entries, k, now), Recorded(history, k, now), dropped, now)
  {
    var e, h := Recorded(entries, k, now), Recorded(history, k, now);
    forall j
      ensures Keeps(At(e, j), At(h, j), Dropped(dropped, j), now)
    {
      hide Keeps, Recorded;
      AllKeptAt(entries, history, dropped, lastNow, j);
      RecordedAt(entries, k, now, j);
      RecordedAt(history, k, now, j);
      if j == k {
        KeepsRecord(At(entries, k), At(history, k), Dropped(dropped, k), lastNow, now);
      } else {
        KeepsLater(At(entries, j), At(history, j), Dropped(dropped, j), lastNow, now);
      }
    }
  }

  lemma RecordedAt(w: Windows, k: BurstKey, now: nat, j: BurstKey)
    ensures At(Recorded(w, k, now), j) == if j == k then At(w, k) + [now] else At(w, j)
  {
  }

  lemma AllKeptTrim(entries: Windows, history: Windows, dropped: map<BurstKey, nat>, lastNow: nat, k: BurstKey, now: nat,
                    cutoff: int, more: nat)
    requires AllKept(entries, history, dropped, lastNow) && lastNow <= now
    requires Keeps(DropBefore(At(entries, k), cutoff), At(history, k), more, lastNow)
    ensures AllKept(Trimmed(entries, k, cutoff), history, dropped[k := more], now)
  {
    var e, d := Trimmed(entries, k, cutoff), dropped[k := more];
    forall j
      ensures Keeps(At(e, j), At(history, j), Dropped(d, j), now)
    {
      hide Keeps, DropBefore, Trimmed;
      assert Keeps(At(entries, j), At(history, j), Dropped(dropped, j), lastNow);
      TrimmedAt(entries, k, cutoff, j);
      KeepsLater(At(e, j), At(history, j), Dropped(d, j), lastNow, now);
    }
  }

  /** The timestamps from the first one at `cutoff` or later. */
  method LiveFrom(ts: seq<nat>, cutoff: int) returns (live: seq<nat>)
    ensures live == DropBefore(ts, cutoff)
  {
    var i := 0;
    while i < |ts| && ts[i] < cutoff
      invariant 0 <= i <= |ts|
      invariant DropBefore(ts, cutoff) == DropBefore(ts[i..], cutoff)
    {
      i := i + 1;
    }
    live := ts[i..];
  }

  class BurstStore {
    var entries: Windows
    ghost var history: Windows            // every timestamp ever recorded
    ghost var dropped: map<BurstKey, nat> // how many of them counts have evicted
    ghost var lastNow: nat

    ghost predicate Valid()
      reads this
    {
      AllKept(entries, history, dropped, lastNow)
    }

    constructor ()
      ensures Valid() && entries == map[] && history == map[] && dropped == map[] && lastNow == 0
    {
      entries, history, dropped, lastNow := map[], map[], map[], 0;
    }

    method Record(k: BurstKey, now: nat)
      requires Valid() && lastNow <= now
      modifies this
      ensures Valid() && lastNow == now && dropped == old(dropped)
      ensures entries == Recorded(old(entries), k, now) && history == Recorded(old(history), k, now)
    {
      hide AllKept;
      AllKeptRecord(entries, history, dropped, lastNow, k, now);
      entries := entries[k := At(entries, k) + [now]];
      history := history[k := At(history, k) + [now]];
      lastNow := now;
    }

    /** The count never exceeds the true number of recorded events in the window, and equals it
        exactly when no earlier count evicted one of them. */
    method Count(k: BurstKey, window: int, now: nat) returns (n: nat)
      requires Valid() && lastNow <= now
      modifies this
      ensures Valid() && lastNow == now && history == old(history)
      ensures entries == Trimmed(old(entries), k, now - window) && n == |At(entries, k)|
      ensures forall j :: j != k ==> Dropped(dropped, j) == Dropped(old(dropped), j)
      ensures n <= CountFrom(At(history, k), now - window)
      ensures var d := Dropped(old(dropped), k);
              && (n == CountFrom(At(history, k), now - window) <==> EvictedBefore(At(history, k), d, now - window))
              && (EvictedBefore(At(history, k), d, now - window) ==>
                    EvictedBefore(At(history, k), Dropped(dropped, k), now - window))
    {
      hide AllKept, Keeps, CountFrom, EvictedBefore, DropBefore;
      var cutoff := now - window;
      var ts := At(entries, k);
      var live := LiveFrom(ts, cutoff);
      assert Keeps(ts, At(history, k), Dropped(dropped, k), lastNow) by {
        AllKeptAt(entries, history, dropped, lastNow, k);
      }
      ghost var more := KeepsTrim(ts, At(history, k), Dropped(dropped, k), lastNow, cutoff);
      AllKeptTrim(entries, history, dropped, lastNow, k, now, cutoff, more);
      dropped := dropped[k := more];
      lastNow := now;
      if |live| == 0 {
        entries := entries - {k};
        return 0;
      }
      entries := entries[k := live];
      return |live|;
    }
  }

  lemma AllKeptAt(entries: Windows, history: Windows, dropped: map<BurstKey, nat>, lastNow: nat, k: BurstKey)
    requires AllKept(entries, history, dropped, lastNow)
    ensures Keeps(At(entries, k), At(history, k), Dropped(dropped, k), lastNow)
  {
  }

  /** A count over a short window evicts what a later count over a longer one should see. */
  lemma MixedWindowsUndercount(k: BurstKey, t: nat, now: nat, short: int, long: int)
    requires now - long <= t < now - short
    ensures var w := Recorded(map[], k, t);
            && CountFrom(At(w, k), now - long) == 1
            && At(Trimmed(Trimmed(w, k, now - short), k, now - long), k) == []
  {
    var w := Recorded(map[], k, t);
    var ts := At(w, k);
    assert ts == [] + [t] == [t] && ts[1..] == [];
    assert DropBefore(ts, now - short) == DropBefore(ts[1..], now - short) == [];
    TrimmedAt(w, k, now - short, k);
    TrimmedAt(Trimmed(w, k, now - short), k, now - long, k);
  }
}
