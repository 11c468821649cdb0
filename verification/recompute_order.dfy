/** How the recomputed score moves with the evidence. */
module RecomputeOrder {
  import opened Powers
  import opened Reputation
  import opened Recompute

  lemma GapLeftUnit(q: real, r: real, g: nat, m: nat)
    requires 0.0 <= q && 0.0 <= Times(r, q) && m <= g
    ensures 0.0 <= GapLeft(q, r, g, m) <= 1.0
  {
    PowUnit(Rest(q), m);
    PowUnit(Rest(Times(r, q)), g - m);
    TimesShrinks(Pow(Rest(q), m), Pow(Rest(Times(r, q)), g - m));
  }

  lemma {:induction false} MoreGroupsLeaveLess(q: real, r: real, g: nat, h: nat, subnets: int)
    requires 0.0 <= q && 0.0 <= Times(r, q) && g <= h
    ensures GapLeft(q, r, h, FullVotes(h, subnets)) <= GapLeft(q, r, g, FullVotes(g, subnets))
    decreases h
  {
    if g < h {
      hide Times, Pow, GapLeft;
      MoreGroupsLeaveLess(q, r, g, h - 1, subnets);
      GapLeftStep(q, r, h - 1, subnets);
      GapLeftUnit(q, r, h - 1, FullVotes(h - 1, subnets));
      TimesShrinks(GapLeft(q, r, h - 1, FullVotes(h - 1, subnets)),
                   if h - 1 <= MaxInt(subnets, 1) then Rest(q) else Rest(Times(r, q)));
    }
  }

  /** Turning one damped vote into a full one cannot widen the gap. */
  lemma OneMoreFullVote(q: real, r: real, g: nat, m: nat)
    requires 0.0 <= Times(r, q) <= q && m < g
    ensures GapLeft(q, r, g, m + 1) <= GapLeft(q, r, g, m)
  {
    var a, b := Rest(q), Rest(Times(r, q));
    var x, y := Pow(a, m), Pow(b, g - m - 1);
    PowUnit(a, m);
    PowUnit(b, g - m - 1);
    assert Pow(a, m + 1) == Times(a, x) && Pow(b, g - m) == Times(b, y);
    hide *;
    TimesAssociates(a, x, y);
    TimesCommutes(b, y);
    TimesAssociates(x, y, b);
    TimesCommutes(Times(x, y), b);
    TimesSign(x, y);
    TimesMonotone(a, b, Times(x, y), Times(x, y));
    GapLeftIs(q, r, g, m);
    GapLeftIs(q, r, g, m + 1);
  }

  lemma GapLeftIs(q: real, r: real, g: nat, m: nat)
    requires m <= g
    ensures GapLeft(q, r, g, m) == Times(Pow(Rest(q), m), Pow(Rest(Times(r, q)), g - m))
  {
  }

  lemma {:induction false} MoreFullVotesLeaveLess(q: real, r: real, g: nat, m: nat, n: nat)
    requires 0.0 <= Times(r, q) <= q && m <= n <= g
    ensures GapLeft(q, r, g, n) <= GapLeft(q, r, g, m)
    decreases n
  {
    if m < n {
      MoreFullVotesLeaveLess(q, r, g, m, n - 1);
      OneMoreFullVote(q, r, g, n - 1);
    }
  }

  /** Stronger votes leave less. */
  lemma StrongerLeaveLess(q: real, t: real, r: real, g: nat, m: nat)
    requires 0.0 <= q <= t && 0.0 <= Times(r, q) <= Times(r, t) && m <= g
    ensures GapLeft(t, r, g, m) <= GapLeft(q, r, g, m)
  {
    PowMonotone(Rest(t), Rest(q), m);
    PowMonotone(Rest(Times(r, t)), Rest(Times(r, q)), g - m);
    TimesMonotone(Pow(Rest(t), m), Pow(Rest(q), m), Pow(Rest(Times(r, t)), g - m), Pow(Rest(Times(r, q)), g - m));
  }

  lemma GroupScoreMonotone(q: real, k: real, r: real, g: nat, h: nat, m: int, n: int)
    requires 0.0 <= Times(r, q) <= q <= k && Times(r, q) <= Times(r, k) <= k && g <= h && m <= n
    ensures 0.0 <= GroupScore(q, r, g, m) <= GroupScore(k, r, h, n) <= 100.0
  {
    hide Times, Pow, GapLeft;
    MoreGroupsLeaveLess(q, r, g, h, m);
    MoreFullVotesLeaveLess(q, r, h, FullVotes(h, m), FullVotes(h, n));
    StrongerLeaveLess(q, k, r, h, FullVotes(h, n));
    GapLeftUnit(q, r, g, FullVotes(g, m));
    GapLeftUnit(k, r, h, FullVotes(h, n));
  }

  lemma StrangerStepMonotone(s: real, t: real, q: real, k: real, cap: real)
    requires 0.0 <= s <= t <= 100.0 && 0.0 <= q <= k && 0.0 <= cap
    ensures StrangerStep(s, q, cap) <= StrangerStep(t, k, cap)
    ensures t <= StrangerStep(t, k, cap) <= 100.0
    ensures s <= StrangerStep(s, q, cap) <= 100.0
  {
    hide Times;
    TimesSign(k, 100.0 - t);
    TimesSign(q, 100.0 - s);
    TimesMonotone(q, k, 100.0 - t, 100.0 - t);
    if q <= 1.0 {
      TimesSplits(100.0 - s, 100.0 - t, t - s, q);
      TimesShrinks(t - s, q);
      TimesCommutes(t - s, q);
    } else {
      TimesMonotone(1.0, q, 100.0 - t, 100.0 - t);
      TimesIdentity(100.0 - t);
    }
  }

  lemma TimesIdentity(x: real)
    ensures Times(1.0, x) == x
  {
  }

  lemma DisputedMonotone(s: real, t: real, trust: real, weight: real, m: nat, n: nat)
    requires 0.0 <= s <= t && 0.0 <= trust && 0.0 <= weight && n <= m
    ensures DisputedScore(s, trust, weight, m) <= DisputedScore(t, trust, weight, n)
  {
    TimesSign(trust, weight);
    assert VoteStrength(trust, weight) == Times(trust, weight) / 100.0;
    var f := Max(1.0 - VoteStrength(trust, weight), 0.0);
    PowUnit(f, m);
    PowAntitone(f, n, m);
    TimesMonotone(s, t, Pow(f, m), Pow(f, n));
  }

  ghost predicate AtMostAsDamning(v: Votes, w: Votes) {
    && v.trust == w.trust && v.weight <= w.weight
    && v.groups <= w.groups && v.subnets <= w.subnets
    && (v.strangers ==> w.strangers)
    && v.disputes >= w.disputes
  }

  lemma UndecayedMonotone(v: Votes, w: Votes, p: Params)
    requires ValidParams(p) && ValidVotes(v) && ValidVotes(w) && AtMostAsDamning(v, w)
    ensures UndecayedScore(v, p) <= UndecayedScore(w, p)
  {
    hide Times, VoteStrength, GroupScore, StrangerStep, DisputedScore;
    var q, k, r := VoteStrength(v.trust, v.weight), VoteStrength(w.trust, w.weight), p.diversityRepeat;
    Strength(v.trust, v.weight, r);
    Strength(w.trust, w.weight, r);
    StrengthMonotone(v.trust, v.weight, w.weight);
    TimesOrder(r, q, k);
    GroupScoreMonotone(q, k, r, v.groups, w.groups, v.subnets, w.subnets);
    var s, t := GroupScore(q, r, v.groups, v.subnets), GroupScore(k, r, w.groups, w.subnets);
    StrangerStepMonotone(s, t, q, k, p.strangerCap);
    var s', t' := if v.strangers then StrangerStep(s, q, p.strangerCap) else s,
                  if w.strangers then StrangerStep(t, k, p.strangerCap) else t;
    DisputedMonotone(s', t', v.trust, p.disputeWeight, v.disputes, w.disputes);
  }

  lemma StrengthMonotone(trust: real, lo: real, hi: real)
    requires 0.0 <= trust && 0.0 <= lo <= hi
    ensures VoteStrength(trust, lo) <= VoteStrength(trust, hi)
  {
    TimesMonotone(trust, trust, lo, hi);
    assert VoteStrength(trust, lo) == Times(trust, lo) / 100.0 && VoteStrength(trust, hi) == Times(trust, hi) / 100.0;
  }

  lemma GreatestWeightUnique(scenarios: seq<string>, v: real, w: real)
    requires IsGreatestWeight(scenarios, v) && IsGreatestWeight(scenarios, w)
    ensures v == w
  {
  }

  lemma DecayMonotone(s: real, t: real, last: Time, now: Time, h: HalfLife)
    requires ValidHalfLife(h) && s <= t
    ensures DecayScore(s, last, now, h) <= DecayScore(t, last, now, h)
  {
    DecayIsScaling(s, last, now, h);
    DecayIsScaling(t, last, now, h);
    var x := Retention(h, Elapsed(last, now));
    RetentionUnit(h, Elapsed(last, now));
    hide *;
    TimesSign(t - s, x);
    TimesSplits(t, s, t - s, x);
  }

  /** More groups, more subnets, strangers, fewer disputing subnets or a heavier greatest scenario
      never lower the recomputed score; scenarios matter only through that greatest weight. */
  lemma RecomputeMonotone(a: Evidence, b: Evidence, x: real, y: real, discount: real, now: Time, p: Params)
    requires ValidParams(p)
    requires a.windowLast == b.windowLast && a.evidenceWeight == b.evidenceWeight
    requires IsGreatestWeight(a.scenarios, x) && IsGreatestWeight(b.scenarios, y) && x <= y
    requires Bucket(a, "groups") <= Bucket(b, "groups") && Bucket(a, "subnets") <= Bucket(b, "subnets")
    requires Bucket(a, "dispute_subnets") >= Bucket(b, "dispute_subnets")
    requires a.strangersPresent ==> b.strangersPresent
    ensures RecomputedScore(a, x, discount, now, p) <= RecomputedScore(b, y, discount, now, p)
  {
    hide UndecayedScore, DecayScore;
    assert DEFAULT_WEIGHT <= x <= 50.0 && DEFAULT_WEIGHT <= y <= 50.0;
    var v, w := VotesOf(a, x, discount), VotesOf(b, y, discount);
    assert v.trust == w.trust;
    if v.trust < 0.0 { return; }
    UndecayedMonotone(v, w, p);
    DecayMonotone(UndecayedScore(v, p), UndecayedScore(w, p), a.windowLast, now, p.halfLife);
  }
}
