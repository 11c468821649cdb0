/** How far one voice, repeated within a tick, can take a score: to any level below 100, within its
    budget. */
module Reach {
  import opened Powers
  import opened Reputation

  /** The same change, `n` times. */
  function Repeats(c: Change, n: nat): seq<Change> { if n == 0 then [] else Repeats(c, n - 1) + [c] }

  function ApplyMany(rec: ScoreRecord, c: Change, n: nat, p: Params): ScoreRecord {
    if n == 0 then rec else Apply(ApplyMany(rec, c, n - 1, p), c, p)
  }

  lemma {:induction false} RepeatsAre(c: Change, n: nat)
    ensures |Repeats(c, n)| == n && forall i :: 0 <= i < n ==> Repeats(c, n)[i] == c
  {
    if n > 0 { RepeatsAre(c, n - 1); }
  }

  lemma {:induction false} ReplayRepeats(h: seq<Change>, c: Change, n: nat, p: Params)
    ensures Replay(h + Repeats(c, n), p) == ApplyMany(Replay(h, p), c, n, p)
  {
    hide Apply, Replay;
    if n == 0 {
      assert h + [] == h;
    } else {
      var early := Repeats(c, n - 1);
      ReplayRepeats(h, c, n - 1, p);
      assert Repeats(c, n) == early + [c] && ApplyMany(Replay(h, p), c, n, p) == Apply(Replay(h + early, p), c, p);
      hide *;
      ReplaySnoc(h + early, c, p);
      assert h + (early + [c]) == h + early + [c];
    }
  }

  // ---------------------------------------------------------------- scores stay below 100

  /** Since no vote has the power of 100 points, no score ever gets there. */
  lemma ApplyStaysBelow(rec: ScoreRecord, c: Change, p: Params)
    requires ValidParams(p) && ValidChange(c) && InRange(rec, p) && rec.score < 100.0
    ensures Apply(rec, c, p).score < 100.0
  {
    var s := Current(rec, c.now, p);
    DecayBounds(rec.score, rec.lastSeen, c.now, p.halfLife);
    match c
    case Report(obs, now) =>
      var w, div := WeightFor(obs.reason), Damping(rec.subnetsSeen, obs.subnet, p.diversityRepeat);
      VotePointsBounds(s, obs.trust, w, div);
      GapShrinks(s, obs.trust, w, div);
      PowerBounds(obs.trust, w, div);
      TimesSign(100.0 - s, 1.0 - Power(obs.trust, w, div) / 100.0);
      hide VotePoints, Power, WeightFor, Damping, Times, DecayScore;
    case Dispute(obs, now) =>
      var div := if obs.anchored then Damping(rec.disputeSubnetsSeen, obs.subnet, p.diversityRepeat) else 1.0;
      DisputeScales(s, obs.trust, p.disputeWeight, div);
      hide DisputePoints, Power, Damping, Times, DecayScore;
    case Swept(now) =>
  }

  lemma {:induction false} ScoresStayBelow(h: seq<Change>, p: Params)
    requires ValidParams(p) && ValidHistory(h)
    ensures Replay(h, p).score < 100.0
  {
    if h != [] {
      hide Apply, InRange, ValidChange;
      var g := h[..|h| - 1];
      ScoresStayBelow(g, p);
      ReplayInRange(g, p);
      ApplyStaysBelow(Replay(g, p), h[|h| - 1], p);
    }
  }

  // ---------------------------------------------------------------- one repetition

  /** A report that no subnet damps. */
  predicate Voice(c: Change) { c.Report? && c.obs.subnet == "" && 0.0 < c.obs.trust <= 1.0 && c.now >= 1 }

  /** What each repetition adds at least, below the level. */
  function LeastGain(trust: real, level: real): real { trust * 2.0 * (1.0 - level / 100.0) }

  lemma GainIsPositive(trust: real, level: real)
    requires 0.0 < trust && 0.0 <= level < 100.0
    ensures LeastGain(trust, level) > 0.0
  {
    TimesSign(trust, 2.0);
    TimesSign(Times(trust, 2.0), 1.0 - level / 100.0);
    assert LeastGain(trust, level) == Times(Times(trust, 2.0), 1.0 - level / 100.0);
  }

  lemma GainAtLeast(s: real, trust: real, weight: real, level: real)
    requires 0.0 <= s <= level < 100.0 && 0.0 < trust && 2.0 <= weight
    ensures VotePoints(s, trust, weight, 1.0) >= LeastGain(trust, level)
  {
    TimesSign(trust, 2.0);
    TimesMonotone(2.0, weight, trust, trust);
    TimesCommutes(2.0, trust);
    TimesCommutes(weight, trust);
    TimesMonotone(Times(trust, 2.0), Times(trust, weight), 1.0 - level / 100.0, 1.0 - s / 100.0);
    assert VotePoints(s, trust, weight, 1.0) == Times(Times(trust, weight), 1.0 - s / 100.0);
    assert LeastGain(trust, level) == Times(Times(trust, 2.0), 1.0 - level / 100.0);
  }

  /** Ready for `c`: in range, below 100, and with nothing to decay. */
  ghost predicate Poised(rec: ScoreRecord, c: Change, p: Params) {
    InRange(rec, p) && rec.score < 100.0 && (rec.lastSeen == 0 || rec.lastSeen == c.now)
  }

  /** The level is within what the voice may still add. */
  ghost predicate WithinBudget(rec: ScoreRecord, c: Change, level: real, p: Params)
    requires Voice(c)
  {
    c.obs.anchored || level <= rec.score + p.strangerCap - rec.strangerContrib
  }

  /** `after` differs from `before` by a climb: what a stranger added is on its account. */
  ghost predicate Climbed(before: ScoreRecord, after: ScoreRecord, c: Change)
    requires Voice(c)
  {
    && before.score <= after.score
    && after.strangerContrib == (if c.obs.anchored then before.strangerContrib else before.strangerContrib + after.score - before.score)
    && after.disputeContrib == before.disputeContrib && after.disputeSubnetsSeen == before.disputeSubnetsSeen
    && after.subnetsSeen == before.subnetsSeen
  }

  /** One repetition gains at least the least gain, or is above the level already. */
  lemma VoiceStep(rec: ScoreRecord, c: Change, level: real, p: Params)
    requires ValidParams(p) && Voice(c) && Poised(rec, c, p) && 0.0 <= level < 100.0 && WithinBudget(rec, c, level, p)
    ensures var after := Apply(rec, c, p);
            && Poised(after, c, p) && after.lastSeen == c.now && Climbed(rec, after, c) && WithinBudget(after, c, level, p)
            && after.score >= Min(level, rec.score + LeastGain(c.obs.trust, level))
  {
    ApplyKeepsRange(rec, c, p);
    ApplyStaysBelow(rec, c, p);
    NoDecayAtOnce(rec, p);
    assert Current(rec, c.now, p) == rec.score;
    var w := WeightFor(c.obs.reason);
    assert w >= 2.0;
    VotePointsBounds(rec.score, c.obs.trust, w, 1.0);
    if rec.score <= level { GainAtLeast(rec.score, c.obs.trust, w, level); }
    hide VotePoints, WeightFor, LeastGain, DecayScore;
  }

  /** After `n` repetitions from `start`. */
  ghost predicate Climbing(start: ScoreRecord, rec: ScoreRecord, c: Change, n: nat, level: real, p: Params)
    requires Voice(c)
  {
    && Poised(rec, c, p) && Climbed(start, rec, c) && WithinBudget(rec, c, level, p) && (n > 0 ==> rec.lastSeen == c.now)
    && rec.score >= Min(level, Times(n as real, LeastGain(c.obs.trust, level)))
  }

  lemma ClimbStep(start: ScoreRecord, rec: ScoreRecord, c: Change, n: nat, level: real, p: Params)
    requires ValidParams(p) && Voice(c) && 0.0 <= level < 100.0 && Climbing(start, rec, c, n, level, p)
    ensures Climbing(start, Apply(rec, c, p), c, n + 1, level, p)
  {
    VoiceStep(rec, c, level, p);
    hide Apply, LeastGain, Poised, Times;
    var gain := LeastGain(c.obs.trust, level);
    TimesSplits((n + 1) as real, n as real, 1.0, gain);
    GainIsPositive(c.obs.trust, level);
    TimesOne(gain);
    MinOrder(level, rec.score, Times(n as real, gain), gain);
  }

  lemma MinOrder(level: real, score: real, reached: real, gain: real)
    requires score >= Min(level, reached) && gain >= 0.0
    ensures Min(level, score + gain) >= Min(level, reached + gain)
  {
  }

  lemma TimesOne(x: real)
    ensures Times(1.0, x) == x && Times(0.0, x) == 0.0
  {
  }

  lemma {:induction false} Climbs(start: ScoreRecord, c: Change, n: nat, level: real, p: Params)
    requires ValidParams(p) && Voice(c) && 0.0 <= level < 100.0 && Poised(start, c, p) && WithinBudget(start, c, level, p)
    ensures Climbing(start, ApplyMany(start, c, n, p), c, n, level, p)
  {
    if n == 0 {
      hide LeastGain, Times, Apply;
      TimesOne(LeastGain(c.obs.trust, level));
    } else {
      hide Apply, Climbing, Poised, WithinBudget;
      Climbs(start, c, n - 1, level, p);
      ClimbStep(start, ApplyMany(start, c, n - 1, p), c, n - 1, level, p);
    }
  }

  lemma EnoughGains(gain: real, level: real) returns (n: nat)
    requires gain > 0.0 && level >= 0.0
    ensures n >= 1 && Times(n as real, gain) >= level
  {
    var ratio := level / gain;
    assert ratio >= 0.0;
    n := ratio.Floor + 1;
    TimesOrder(gain, ratio, n as real);
    TimesCommutes(gain, n as real);
    assert Times(gain, ratio) == level;
  }

  /** Enough repetitions reach any level below 100 that is within the voice's budget. */
  lemma ReachLevel(start: ScoreRecord, c: Change, level: real, p: Params) returns (n: nat)
    requires ValidParams(p) && Voice(c) && 0.0 <= level < 100.0 && Poised(start, c, p) && WithinBudget(start, c, level, p)
    ensures n >= 1
    ensures var rec := ApplyMany(start, c, n, p);
            rec.score >= level && Poised(rec, c, p) && rec.lastSeen == c.now && Climbed(start, rec, c)
  {
    GainIsPositive(c.obs.trust, level);
    n := EnoughGains(LeastGain(c.obs.trust, level), level);
    Climbs(start, c, n, level, p);
    hide ApplyMany, Poised, Climbed, LeastGain, Times;
  }

  /** A stranger can spend the whole of what is left of the budget, if that leaves the score below 100. */
  lemma SpendBudget(start: ScoreRecord, c: Change, p: Params) returns (n: nat)
    requires ValidParams(p) && Voice(c) && !c.obs.anchored && Poised(start, c, p)
    requires start.score + p.strangerCap - start.strangerContrib < 100.0
    ensures n >= 1
    ensures var rec := ApplyMany(start, c, n, p);
            && rec.score == start.score + p.strangerCap - start.strangerContrib && rec.lastSeen == c.now
            && Poised(rec, c, p) && Climbed(start, rec, c)
  {
    hide ApplyMany;
    n := ReachLevel(start, c, start.score + p.strangerCap - start.strangerContrib, p);
  }
}
