/** The processing-rate governor of internal/resources: a ring of ten 100ms buckets with a shed
    decision under hysteresis, refined against the plain log of the calls made on it. */
module Governor {

  const BUCKETS := 10

  /** One call on the governor, with the tick it read. `Asked` is a call of Shed; `gate` marks the
      call by which the node admits or drops one remote event. */
  datatype Call =
    | Charged(tick: nat)
    | Asked(tick: nat, gate: bool)
    | Metered(tick: nat)

  // ---------------------------------------------------------------- what the log says

  ghost predicate InOrder(log: seq<Call>) {
    forall i, j :: 0 <= i < j < |log| ==> log[i].tick <= log[j].tick
  }

  /** The number of charges in the log at ticks lo..hi. */
  ghost function Charges(log: seq<Call>, lo: int, hi: int): nat {
    if log == [] then 0 else
      var c := log[|log| - 1];
      Charges(log[..|log| - 1], lo, hi) + if c.Charged? && lo <= c.tick <= hi then 1 else 0
  }

  /** The rate at a tick: the charges of the last ten ticks. */
  ghost function RateAt(log: seq<Call>, tick: int): nat { Charges(log, tick - BUCKETS + 1, tick) }

  ghost predicate Enters(log: seq<Call>, tick: nat, budget: real) { RateAt(log, tick) as real >= budget }

  ghost predicate Leaves(log: seq<Call>, tick: nat, budget: real) { RateAt(log, tick) as real <= budget * 0.8 }

  /** The shed state after the calls of the log. */
  ghost predicate Shedding(log: seq<Call>, budget: real) {
    if log == [] then false else
      var before, c := log[..|log| - 1], log[|log| - 1];
      if !c.Asked? then Shedding(before, budget)
      else if Shedding(before, budget) then !Leaves(before, c.tick, budget)
      else Enters(before, c.tick, budget)
  }

  /** Shedding means: some Shed call saw the budget reached and none since saw four fifths of it. */
  ghost predicate EnteredAndNotLeft(log: seq<Call>, budget: real, i: int) {
    && 0 <= i < |log| && log[i].Asked? && Enters(log[..i], log[i].tick, budget)
    && forall j :: i < j < |log| && log[j].Asked? ==> !Leaves(log[..j], log[j].tick, budget)
  }

  lemma {:induction false} SheddingIsHysteresis(log: seq<Call>, budget: real)
    requires budget > 0.0
    ensures Shedding(log, budget) <==> exists i :: EnteredAndNotLeft(log, budget, i)
  {
    if log != [] {
      var n := |log| - 1;
      var before, c := log[..n], log[n];
      SheddingIsHysteresis(before, budget);
      assert Enters(before, c.tick, budget) ==> !Leaves(before, c.tick, budget);
      hide Enters, Leaves;
      assert forall j :: 0 <= j < n ==> before[j] == log[j] && before[..j] == log[..j];
      if Shedding(log, budget) {
        if c.Asked? && Enters(before, c.tick, budget) {
          assert EnteredAndNotLeft(log, budget, n);
        } else {
          var i :| EnteredAndNotLeft(before, budget, i);
          assert EnteredAndNotLeft(log, budget, i);
        }
      }
      if i :| EnteredAndNotLeft(log, budget, i) {
        if i < n { assert EnteredAndNotLeft(before, budget, i); }
      }
    }
  }

  /** How many entries of the log are charges of the ten ticks up to `tick`. */
  ghost function RecentCharges(log: seq<Call>, tick: int): set<int> {
    set i | 0 <= i < |log| && log[i].Charged? && tick - 10 < log[i].tick <= tick
  }

  lemma {:induction false} RateCounts(log: seq<Call>, tick: int)
    ensures RateAt(log, tick) == |RecentCharges(log, tick)|
  {
    if log != [] {
      var n := |log| - 1;
      var before := log[..n];
      RateCounts(before, tick);
      var recent := log[n].Charged? && tick - 10 < log[n].tick <= tick;
      assert RecentCharges(log, tick) == RecentCharges(before, tick) + if recent then {n} else {};
      assert n !in RecentCharges(before, tick);
    }
  }

  /** A call of Shed starts shedding when the last ten ticks hold the budget or more, and ends it when they
      hold four fifths of it or less; no other call changes the state. */
  lemma ShedChangesWhen(log: seq<Call>, c: Call, budget: real)
    ensures var rate := |RecentCharges(log, c.tick)| as real;
            && (!c.Asked? ==> Shedding(log + [c], budget) == Shedding(log, budget))
            && (c.Asked? && !Shedding(log, budget) ==> (Shedding(log + [c], budget) <==> rate >= budget))
            && (c.Asked? && Shedding(log, budget) ==> (!Shedding(log + [c], budget) <==> 5.0 * rate <= 4.0 * budget))
    ensures !Shedding([], budget)
  {
    RateCounts(log, c.tick);
    assert (log + [c])[..|log + [c]| - 1] == log;
    hide RateAt, RecentCharges;
  }

  // ---------------------------------------------------------------- the ring

  /** The latest tick up to `last` that falls into bucket `r`. */
  ghost function TickOf(last: int, r: int): int { last - (last - r) % BUCKETS }

  lemma TickOfIs(last: int, r: int)
    requires 0 <= r < BUCKETS
    ensures last - BUCKETS < TickOf(last, r) <= last && TickOf(last, r) % BUCKETS == r
  {
  }

  lemma TickOfUnique(last: int, r: int, t: int)
    requires 0 <= r < BUCKETS && last - BUCKETS < t <= last && t % BUCKETS == r
    ensures t == TickOf(last, r)
  {
  }

  lemma TickOfNext(last: int, r: int)
    requires 0 <= r < BUCKETS
    ensures TickOf(last + 1, r) == if r == (last + 1) % BUCKETS then last + 1 else TickOf(last, r)
  {
    TickOfIs(last, r);
    TickOfIs(last + 1, r);
    hide TickOf;
    if r == (last + 1) % BUCKETS {
      TickOfUnique(last + 1, r, last + 1);
    } else {
      TickOfUnique(last + 1, r, TickOf(last, r));
    }
  }

  ghost function ChargesAt(log: seq<Call>, tick: int): nat { Charges(log, tick, tick) }

  /** The charges of the last ten ticks, bucket by bucket. */
  ghost function BucketSum(log: seq<Call>, last: int, k: nat): nat {
    if k == 0 then 0 else BucketSum(log, last, k - 1) + ChargesAt(log, TickOf(last, k - 1))
  }

  lemma {:induction false} BucketSumExtends(log: seq<Call>, c: Call, last: int, k: nat)
    requires k <= BUCKETS
    ensures BucketSum(log + [c], last, k) == BucketSum(log, last, k)
              + if c.Charged? && last - BUCKETS < c.tick <= last && c.tick % BUCKETS < k then 1 else 0
  {
    if k > 0 {
      BucketSumExtends(log, c, last, k - 1);
      assert (log + [c])[..|log|] == log;
      TickOfIs(last, k - 1);
      hide TickOf;
      if c.Charged? && last - BUCKETS < c.tick <= last && c.tick % BUCKETS == k - 1 {
        TickOfUnique(last, k - 1, c.tick);
      }
    }
  }

  lemma {:induction false} EmptyBuckets(last: int, k: nat)
    ensures BucketSum([], last, k) == 0
  {
    if k > 0 { EmptyBuckets(last, k - 1); }
  }

  lemma {:induction false} BucketsHoldTheWindow(log: seq<Call>, last: int)
    ensures BucketSum(log, last, BUCKETS) == RateAt(log, last)
  {
    if log == [] {
      EmptyBuckets(last, BUCKETS);
    } else {
      var before, c := log[..|log| - 1], log[|log| - 1];
      BucketsHoldTheWindow(before, last);
      BucketSumExtends(before, c, last, BUCKETS);
      assert before + [c] == log;
    }
  }

  lemma {:induction false} NoLaterCharges(log: seq<Call>, lo: int, hi: int)
    requires forall i :: 0 <= i < |log| ==> log[i].tick < lo
    ensures Charges(log, lo, hi) == 0
  {
    if log != [] { NoLaterCharges(log[..|log| - 1], lo, hi); }
  }

  class Governor {
    const maxPerSec: real
    const counts: array<nat>
    var lastTick: int
    var shedding: bool
    ghost var log: seq<Call>

    ghost predicate Valid()
      reads this, counts
    {
      && counts.Length == BUCKETS
      && lastTick >= -1
      && InOrder(log)
      && (forall i :: 0 <= i < |log| ==> log[i].tick <= lastTick)
      && (forall r :: 0 <= r < BUCKETS ==> counts[r] == if lastTick < 0 then 0 else ChargesAt(log, TickOf(lastTick, r)))
      && (maxPerSec <= 0.0 ==> !shedding)
      && (maxPerSec > 0.0 ==> shedding == Shedding(log, maxPerSec))
    }

    constructor (maxPerSec: real)
      ensures Valid() && this.maxPerSec == maxPerSec && log == [] && lastTick == -1 && fresh(counts)
    {
      this.maxPerSec := maxPerSec;
      counts := new nat[BUCKETS](_ => 0);
      lastTick, shedding, log := -1, false, [];
    }

    /** Zeros the buckets of the ticks from `lastTick` (exclusive) to `t`. */
    method ZeroElapsed(t: nat)
      requires counts.Length == BUCKETS && 0 <= lastTick < t
      modifies counts
      ensures forall r :: 0 <= r < BUCKETS ==> counts[r] == if TickOf(t, r) > lastTick then 0 else old(counts[r])
    {
      hide TickOf;
      var elapsed := t - lastTick;
      ghost var before := counts[..];
      forall r | 0 <= r < BUCKETS
        ensures TickOf(lastTick, r) <= lastTick && TickOf(t, r) > t - BUCKETS
      {
        TickOfIs(lastTick, r);
        TickOfIs(t, r);
      }
      if elapsed >= BUCKETS {
        for i := 0 to BUCKETS
          invariant forall r :: 0 <= r < i ==> counts[r] == 0
        {
          counts[i] := 0;
        }
      } else {
        for i := 1 to elapsed + 1
          invariant forall r :: 0 <= r < BUCKETS ==>
                      counts[r] == if TickOf(lastTick + i - 1, r) > lastTick then 0 else before[r]
        {
          ghost var now := lastTick + i;
          forall r | 0 <= r < BUCKETS
            ensures TickOf(now, r) == if r == now % BUCKETS then now else TickOf(now - 1, r)
          {
            TickOfNext(now - 1, r);
          }
          counts[(lastTick + i) % BUCKETS] := 0;
        }
      }
    }

    method Advance(t: nat)
      requires Valid() && lastTick <= t
      modifies this`lastTick, counts
      ensures Valid() && lastTick == t
    {
      if lastTick < 0 {
        assert log == [];
        lastTick := t;
        return;
      }
      if t - lastTick <= 0 {
        return;
      }
      ZeroElapsed(t);
      hide TickOf, ChargesAt;
      forall r | 0 <= r < BUCKETS
        ensures counts[r] == ChargesAt(log, TickOf(t, r))
      {
        AdvanceBucket(log, lastTick, t, r);
      }
      lastTick := t;
    }

    /** The events of the last ten ticks. */
    method RateLocked() returns (sum: nat)
      requires Valid() && lastTick >= 0
      ensures sum == RateAt(log, lastTick)
    {
      sum := 0;
      for i := 0 to BUCKETS
        invariant sum == BucketSum(log, lastTick, i)
      {
        sum := sum + counts[i];
      }
      BucketsHoldTheWindow(log, lastTick);
    }

    method Charge(t: nat)
      requires Valid() && lastTick <= t
      modifies this, counts
      ensures Valid() && lastTick == if maxPerSec <= 0.0 then old(lastTick) else t
      ensures log == if maxPerSec <= 0.0 then old(log) else old(log) + [Charged(t)]
    {
      if maxPerSec <= 0.0 {
        return;
      }
      Advance(t);
      ghost var before := log;
      hide TickOf;
      counts[t % BUCKETS] := counts[t % BUCKETS] + 1;
      log := log + [Charged(t)];
      assert log[..|log| - 1] == before;
      forall r | 0 <= r < BUCKETS
        ensures TickOf(t, r) == t <==> r == t % BUCKETS
      {
        TickOfIs(t, r);
        TickOfUnique(t, t % BUCKETS, t);
      }
    }

    /** Shed is decided on the rate of the last ten ticks, by the hysteresis of the call log. */
    method Shed(t: nat, ghost gate: bool) returns (shed: bool)
      requires Valid() && lastTick <= t
      modifies this, counts
      ensures Valid() && lastTick == if maxPerSec <= 0.0 then old(lastTick) else t
      ensures log == if maxPerSec <= 0.0 then old(log) else old(log) + [Asked(t, gate)]
      ensures shed == (maxPerSec > 0.0 && Shedding(log, maxPerSec))
    {
      if maxPerSec <= 0.0 {
        return false;
      }
      Advance(t);
      var rate := RateLocked();
      if shedding {
        if rate as real <= maxPerSec * 0.8 {
          shedding := false;
        }
      } else if rate as real >= maxPerSec {
        shedding := true;
      }
      ghost var before := log;
      log := log + [Asked(t, gate)];
      assert log[..|log| - 1] == before;
      return shedding;
    }

    method Rate(t: nat) returns (rate: nat)
      requires Valid() && lastTick <= t
      modifies this, counts
      ensures Valid() && lastTick == t && log == old(log) + [Metered(t)]
      ensures rate == RateAt(log, t)
    {
      Advance(t);
      rate := RateLocked();
      ghost var before := log;
      log := log + [Metered(t)];
      assert log[..|log| - 1] == before;
    }
  }

  /** Moving on to tick `t` keeps a bucket whose tick is still in the window and empties the rest. */
  lemma AdvanceBucket(log: seq<Call>, last: int, t: nat, r: int)
    requires 0 <= r < BUCKETS && last < t
    requires forall i :: 0 <= i < |log| ==> log[i].tick <= last
    ensures TickOf(last, r) <= last
    ensures TickOf(t, r) > last ==> ChargesAt(log, TickOf(t, r)) == 0
    ensures TickOf(t, r) <= last ==> t - last < BUCKETS && TickOf(t, r) == TickOf(last, r)
  {
    TickOfIs(last, r);
    TickOfIs(t, r);
    hide TickOf;
    if TickOf(t, r) > last {
      NoLaterCharges(log, TickOf(t, r), TickOf(t, r));
    } else {
      TickOfUnique(last, r, TickOf(t, r));
    }
  }
}
