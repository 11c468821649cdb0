/** Decay sweeps between observations: each one decays the stored score from the same `lastSeen`
    again, so sweeps compound. */
module Sweeps {
  import opened Powers
  import opened Reputation

  function SweepAll(rec: ScoreRecord, ts: seq<Time>, p: Params): ScoreRecord {
    if ts == [] then rec else Sweep(SweepAll(rec, ts[..|ts| - 1], p), ts[|ts| - 1], p)
  }

  /** The ticks charged by all sweeps together, each counted from `last`. */
  function TotalElapsed(last: Time, ts: seq<Time>): nat {
    if ts == [] then 0 else TotalElapsed(last, ts[..|ts| - 1]) + Elapsed(last, ts[|ts| - 1])
  }

  /** Any number of sweeps is one exponential over the summed ticks; nothing else changes. */
  lemma {:induction false} SweepsCompound(rec: ScoreRecord, ts: seq<Time>, p: Params)
    requires rec.lastSeen != 0
    ensures SweepAll(rec, ts, p) == rec.(score := Times(rec.score, Retention(p.halfLife, TotalElapsed(rec.lastSeen, ts))))
  {
    if ts == [] {
      assert Retention(p.halfLife, 0) == 1.0;
    } else {
      var early, now := ts[..|ts| - 1], ts[|ts| - 1];
      SweepsCompound(rec, early, p);
      var m, n := TotalElapsed(rec.lastSeen, early), Elapsed(rec.lastSeen, now);
      RetentionAdd(p.halfLife, m, n);
      TimesAssociates(rec.score, Retention(p.halfLife, m), Retention(p.halfLife, n));
      DecayIsScaling(SweepAll(rec, early, p).score, rec.lastSeen, now, p.halfLife);
    }
  }

  lemma {:induction false} ElapsedEarlier(last: Time, ts: seq<Time>)
    ensures TotalElapsed(last, ts) > 0 <==> exists i :: 0 <= i < |ts| && ts[i] > last
  {
    if ts != [] {
      var early := ts[..|ts| - 1];
      ElapsedEarlier(last, early);
      assert forall i :: 0 <= i < |early| ==> early[i] == ts[i];
    }
  }

  lemma RetentionOrder(h: HalfLife, m: nat, n: nat)
    requires ValidHalfLife(h)
    ensures 0.0 <= Retention(h, m + n) <= Retention(h, n)
    ensures Retention(h, m + n) < Retention(h, n) <==> h.PerTick? && m > 0
  {
    RetentionUnit(h, m + n);
    if h.PerTick? { PowAntitone(h.d, n, m + n); }
  }

  /** Sweeps never leave more than the single exponential from the last observation, and they leave
      strictly less exactly when a positive score met an earlier sweep at positive elapsed time. */
  lemma SweepBound(rec: ScoreRecord, ts: seq<Time>, p: Params)
    requires ValidParams(p) && rec.lastSeen != 0 && 0.0 <= rec.score && ts != []
    ensures var swept := SweepAll(rec, ts, p).score;
            var single := DecayScore(rec.score, rec.lastSeen, ts[|ts| - 1], p.halfLife);
            && 0.0 <= swept <= single
            && (swept < single <==>
                  rec.score > 0.0 && p.halfLife.PerTick? && exists i :: 0 <= i < |ts| - 1 && ts[i] > rec.lastSeen)
  {
    var early, now := ts[..|ts| - 1], ts[|ts| - 1];
    var m, n := TotalElapsed(rec.lastSeen, early), Elapsed(rec.lastSeen, now);
    ElapsedEarlier(rec.lastSeen, early);
    assert forall i :: 0 <= i < |early| ==> early[i] == ts[i];
    RetentionOrder(p.halfLife, m, n);
    SweepsCompound(rec, ts, p);
    DecayIsScaling(rec.score, rec.lastSeen, now, p.halfLife);
    assert TotalElapsed(rec.lastSeen, ts) == m + n;
    hide *;
    TimesOrder(rec.score, Retention(p.halfLife, m + n), Retention(p.halfLife, n));
  }
}
