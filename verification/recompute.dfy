/** The federated recompute of internal/repquery: an evidence aggregate is folded into synthetic
    votes under the consumer's own parameters. */
module Recompute {
  import opened Powers
  import opened Reputation

  const MAX_EVIDENCE_FOLDS := 64

  /** The aggregator's claimed weight; a float64 on the wire. */
  datatype Weight = NaN | Num(value: real)

  datatype Evidence = Evidence(
    scenarios: seq<string>,
    windowFirst: Time,
    windowLast: Time,
    diversityBuckets: map<string, int>,
    strangersPresent: bool,
    evidenceWeight: Weight)

  function Bucket(ev: Evidence, dimension: string): int {
    if dimension in ev.diversityBuckets then ev.diversityBuckets[dimension] else 0
  }

  function MinInt(x: int, y: int): int { if x <= y then x else y }

  function MaxInt(x: int, y: int): int { if x >= y then x else y }

  function Folds(n: int): nat { MaxInt(MinInt(n, MAX_EVIDENCE_FOLDS), 0) }

  function ClampedWeight(w: Weight): real {
    if w.NaN? || w.value < 0.0 then 0.0 else Min(w.value, 1.0)
  }

  // ---------------------------------------------------------------- synthetic subnet names

  function Digit(d: nat): char
    requires d < 10
  {
    '0' + d as char
  }

  function Itoa(n: nat): string {
    if n < 10 then [Digit(n)] else Itoa(n / 10) + [Digit(n % 10)]
  }

  lemma {:induction false} ItoaInjective(m: nat, n: nat)
    requires Itoa(m) == Itoa(n)
    ensures m == n
  {
    var s, t := Itoa(m), Itoa(n);
    assert s[|s| - 1] == Digit(m % 10) && t[|t| - 1] == Digit(n % 10);
    assert m % 10 == n % 10;
    if m >= 10 && n >= 10 {
      assert s[..|s| - 1] == Itoa(m / 10) && t[..|t| - 1] == Itoa(n / 10);
      ItoaInjective(m / 10, n / 10);
    } else {
      ItoaNonEmpty(m / 10);
      ItoaNonEmpty(n / 10);
    }
  }

  lemma ItoaNonEmpty(n: nat)
    ensures |Itoa(n)| >= 1 && '0' <= Itoa(n)[0] <= '9'
  {
    if n >= 10 { ItoaNonEmpty(n / 10); }
  }

  /** `prefix` followed by each of the numbers below `n`. */
  function Numbered(prefix: string, n: nat): seq<string> {
    seq(n, (i: nat) => prefix + Itoa(i))
  }

  lemma NumberedIsFresh(prefix: string, n: nat)
    ensures prefix + Itoa(n) !in Numbered(prefix, n)
    ensures Numbered(prefix, n) + [prefix + Itoa(n)] == Numbered(prefix, n + 1)
  {
    if prefix + Itoa(n) in Numbered(prefix, n) {
      var i :| 0 <= i < n && Numbered(prefix, n)[i] == prefix + Itoa(n);
      assert (prefix + Itoa(i))[|prefix|..] == Itoa(i) && (prefix + Itoa(n))[|prefix|..] == Itoa(n);
      ItoaInjective(i, n);
    }
  }

  lemma RepeatIsNotNumbered(n: nat)
    ensures "fed-repeat" !in Numbered("fed-", n)
    ensures forall i :: 0 <= i < n ==> Numbered("fed-", n)[i] != ""
  {
    var prefix, name := "fed-", "fed-repeat";
    forall i | 0 <= i < n
      ensures Numbered(prefix, n)[i] != name
    {
      ItoaNonEmpty(i);
      assert (prefix + Itoa(i))[4] == Itoa(i)[0];
    }
  }

  // ---------------------------------------------------------------- the scenario that votes

  /** The greatest local weight among the scenarios, or the default weight if there are none. */
  ghost predicate IsGreatestWeight(scenarios: seq<string>, w: real) {
    if scenarios == [] then w == DEFAULT_WEIGHT
    else (exists s :: s in scenarios && WeightFor(s) == w) && forall s :: s in scenarios ==> WeightFor(s) <= w
  }

  method MaxWeightScenario(scenarios: seq<string>) returns (best: string)
    ensures IsGreatestWeight(scenarios, WeightFor(best))
    ensures scenarios == [] ==> best == ""
    ensures scenarios != [] ==> best in scenarios
  {
    best := "";
    var bestW := -1.0;
    for i := 0 to |scenarios|
      invariant i == 0 ==> best == "" && bestW == -1.0
      invariant i > 0 ==> best in scenarios[..i] && bestW == WeightFor(best)
      invariant forall j :: 0 <= j < i ==> WeightFor(scenarios[j]) <= bestW
    {
      var w := WeightFor(scenarios[i]);
      if w > bestW {
        bestW, best := w, scenarios[i];
      }
    }
  }

  // ---------------------------------------------------------------- closed form

  /** How many of `g` group votes count in full: one per synthetic subnet, and the first of those
      that share a subnet. */
  function FullVotes(g: nat, subnets: int): nat { MinInt(g, MaxInt(subnets, 1) + 1) }

  /** The strength q of a vote, as a fraction of 1. */
  function VoteStrength(trust: real, weight: real): real { trust * weight / 100.0 }

  /** The fraction of a gap that one vote of strength `q` leaves: none if the vote is stronger than the gap. */
  function Rest(q: real): real { Max(1.0 - q, 0.0) }

  /** The fraction of the gap to 100 that `g` votes of strength `q` leave, `m` of them in full. */
  function GapLeft(q: real, r: real, g: nat, m: nat): real
    requires m <= g
  {
    Times(Pow(Rest(q), m), Pow(Rest(Times(r, q)), g - m))
  }

  function GroupScore(q: real, r: real, g: nat, subnets: int): real {
    100.0 - 100.0 * GapLeft(q, r, g, FullVotes(g, subnets))
  }

  /** One stranger vote of strength `q`, capped. */
  function StrangerStep(s: real, q: real, cap: real): real {
    Min(s + Min(Times(q, 100.0 - s), cap), 100.0)
  }

  /** `n` disputes from distinct anchored subnets. */
  function DisputedScore(s: real, trust: real, disputeWeight: real, n: nat): real {
    Times(s, Pow(Max(1.0 - VoteStrength(trust, disputeWeight), 0.0), n))
  }

  /** The numbers an aggregate contributes to its score. */
  datatype Votes = Votes(trust: real, weight: real, groups: nat, subnets: int, strangers: bool, disputes: nat)

  function UndecayedScore(v: Votes, p: Params): real {
    var s := GroupScore(VoteStrength(v.trust, v.weight), p.diversityRepeat, v.groups, v.subnets);
    var t := if v.strangers then StrangerStep(s, VoteStrength(v.trust, v.weight), p.strangerCap) else s;
    DisputedScore(t, v.trust, p.disputeWeight, v.disputes)
  }

  function VotesOf(ev: Evidence, weight: real, discount: real): Votes {
    Votes(ClampedWeight(ev.evidenceWeight) * discount, weight,
          Folds(Bucket(ev, "groups")), Bucket(ev, "subnets"), ev.strangersPresent,
          Folds(Bucket(ev, "dispute_subnets")))
  }

  function RecomputedScore(ev: Evidence, weight: real, discount: real, now: Time, p: Params): real {
    var v := VotesOf(ev, weight, discount);
    if v.trust < 0.0 then 0.0 else DecayScore(UndecayedScore(v, p), ev.windowLast, now, p.halfLife)
  }

  ghost predicate ValidVotes(v: Votes) { 0.0 <= v.trust && DEFAULT_WEIGHT <= v.weight <= 50.0 }

  // ---------------------------------------------------------------- the fold follows the closed form

  lemma Strength(trust: real, weight: real, r: real)
    requires 0.0 <= trust && 0.0 <= weight && 0.0 <= r <= 1.0
    ensures var q := VoteStrength(trust, weight);
            && 0.0 <= q
            && Power(trust, weight, 1.0) / 100.0 == q
            && Power(trust, weight, r) / 100.0 == Times(r, q)
            && 0.0 <= Times(r, q) <= q
  {
    var q := VoteStrength(trust, weight);
    TimesSign(trust, weight);
    assert q == Times(trust, weight) / 100.0;
    TimesShrinks(q, r);
    TimesCommutes(q, r);
    assert Power(trust, weight, r) == Times(Times(trust, weight), r);
    ScaledProduct(Times(trust, weight), r);
  }

  lemma ScaledProduct(x: real, r: real)
    ensures Times(x, r) / 100.0 == Times(r, x / 100.0)
  {
  }

  /** Vote number `g` (from 0) multiplies the gap by the full or the damped factor. */
  lemma GapLeftStep(q: real, r: real, g: nat, subnets: int)
    ensures var left := GapLeft(q, r, g, FullVotes(g, subnets));
            GapLeft(q, r, g + 1, FullVotes(g + 1, subnets))
            == Times(left, if g <= MaxInt(subnets, 1) then Rest(q) else Rest(Times(r, q)))
  {
    hide Times, Rest;
    var m := FullVotes(g, subnets);
    var a, b := Rest(q), Rest(Times(r, q));
    if g <= MaxInt(subnets, 1) {
      assert m == g && FullVotes(g + 1, subnets) == g + 1;
      TimesAssociates(a, Pow(a, m), Pow(b, 0));
      TimesCommutes(a, Times(Pow(a, m), Pow(b, 0)));
    } else {
      assert FullVotes(g + 1, subnets) == m;
      TimesCommutes(b, Pow(b, g - m));
      TimesAssociates(Pow(a, m), Pow(b, g - m), b);
    }
  }

  /** A vote on a score leaves its share of the gap, or nothing of it. */
  lemma GapVote(s: real, left: real, k: real, trust: real, weight: real, div: real)
    requires s == 100.0 - 100.0 * left && k == Power(trust, weight, div) / 100.0 && 0.0 <= left <= 1.0 && 0.0 <= k
    ensures Min(s + VotePoints(s, trust, weight, div), 100.0) == 100.0 - 100.0 * Times(left, Rest(k))
    ensures 0.0 <= Times(left, Rest(k)) <= 1.0
  {
    GapShrinks(s, trust, weight, div);
    assert 100.0 - s == 100.0 * left;
    ScaledTimes(left, 1.0 - k);
    TimesShrinks(left, Rest(k));
    TimesSign(left, k - 1.0);
    TimesSplits(0.0, 1.0 - k, k - 1.0, left);
    TimesSign(left, 0.0);
    hide VotePoints, Times, Power;
  }

  lemma ScaledTimes(x: real, y: real)
    ensures Times(100.0 * x, y) == 100.0 * Times(x, y)
  {
  }

  /** What the group fold leaves behind after `i` votes. */
  ghost predicate FoldState(rec: ScoreRecord, i: nat, full: nat, at: Time, v: Votes, p: Params) {
    && rec.score == GroupScore(VoteStrength(v.trust, v.weight), p.diversityRepeat, i, v.subnets)
    && rec.lastSeen == (if i == 0 then 0 else at)
    && rec.strangerContrib == 0.0
    && rec.disputeSubnetsSeen == []
    && rec.subnetsSeen == Numbered("fed-", MinInt(i, full)) + if i > full then ["fed-repeat"] else []
  }

  function FoldSubnet(i: nat, full: nat): string {
    if i >= full then "fed-repeat" else "fed-" + Itoa(i)
  }

  lemma FullVotesSwitch(i: nat, v: Votes, full: nat)
    requires i < v.groups && full == MinInt(v.groups, MaxInt(v.subnets, 1))
    ensures i <= full <==> i <= MaxInt(v.subnets, 1)
  {
  }

  lemma FoldSubnetDamping(seen: seq<string>, i: nat, full: nat, r: real)
    requires seen == Numbered("fed-", MinInt(i, full)) + if i > full then ["fed-repeat"] else []
    ensures var u := FoldSubnet(i, full);
            && u != ""
            && Damping(seen, u, r) == (if i <= full then 1.0 else r)
            && AppendNew(seen, u) == Numbered("fed-", MinInt(i + 1, full)) + if i + 1 > full then ["fed-repeat"] else []
  {
    var prefix := "fed-";
    NumberedIsFresh(prefix, i);
    RepeatIsNotNumbered(MinInt(i, full));
    if i > full { assert seen[|seen| - 1] == "fed-repeat"; }
  }

  lemma FoldStep(rec: ScoreRecord, i: nat, full: nat, at: Time, obs: Observation, v: Votes, p: Params)
    requires ValidParams(p) && ValidVotes(v) && i < v.groups && at != 0
    requires full == MinInt(v.groups, MaxInt(v.subnets, 1))
    requires FoldState(rec, i, full, at, v, p)
    requires obs.anchored && obs.trust == v.trust && WeightFor(obs.reason) == v.weight && obs.subnet == FoldSubnet(i, full)
    requires 0.0 <= rec.score <= 100.0
    ensures FoldState(Accumulate(rec, obs, at, p), i + 1, full, at, v, p)
    ensures 0.0 <= Accumulate(rec, obs, at, p).score <= 100.0
  {
    hide Times, VotePoints, WeightFor, Numbered, GapLeft, FoldSubnet, VoteStrength;
    NoDecayAtOnce(rec, p);
    assert Current(rec, at, p) == rec.score;
    FoldSubnetDamping(rec.subnetsSeen, i, full, p.diversityRepeat);
    var div := Damping(rec.subnetsSeen, obs.subnet, p.diversityRepeat);
    hide Damping;
    var q, r := VoteStrength(v.trust, v.weight), p.diversityRepeat;
    Strength(v.trust, v.weight, r);
    GapLeftStep(q, r, i, v.subnets);
    FullVotesSwitch(i, v, full);
    GapVote(rec.score, GapLeft(q, r, i, FullVotes(i, v.subnets)), if i <= full then q else Times(r, q), v.trust, v.weight, div);
    hide Rest;
  }

  lemma ScaledGap(x: real, s: real)
    ensures Times(x, 1.0 - s / 100.0) == Times(x / 100.0, 100.0 - s)
  {
  }

  /** A stranger vote from no subnet on a record without stranger points. */
  lemma StrangerFold(rec: ScoreRecord, at: Time, obs: Observation, v: Votes, p: Params)
    requires ValidParams(p) && ValidVotes(v) && 0.0 <= rec.score <= 100.0
    requires rec.lastSeen == 0 || rec.lastSeen == at
    requires rec.strangerContrib == 0.0
    requires !obs.anchored && obs.subnet == "" && obs.trust == v.trust && WeightFor(obs.reason) == v.weight
    ensures Accumulate(rec, obs, at, p).score == StrangerStep(rec.score, VoteStrength(v.trust, v.weight), p.strangerCap)
    ensures 0.0 <= Accumulate(rec, obs, at, p).score <= 100.0
  {
    hide Times, VotePoints, WeightFor, VoteStrength, Power;
    NoDecayAtOnce(rec, p);
    VotePointsAre(rec.score, v.trust, v.weight, 1.0);
    ScaledGap(Power(v.trust, v.weight, 1.0), rec.score);
    Strength(v.trust, v.weight, 1.0);
    TimesSign(VoteStrength(v.trust, v.weight), 100.0 - rec.score);
  }

  // ---------------------------------------------------------------- negative trust

  /** A vote of negative trust takes a score that is not positive no higher. */
  lemma NegativeVote(rec: ScoreRecord, obs: Observation, at: Time, p: Params)
    requires ValidParams(p) && obs.trust < 0.0 && rec.score <= 0.0 && (rec.lastSeen == 0 || rec.lastSeen == at)
    ensures Accumulate(rec, obs, at, p).score <= 0.0
  {
    NoDecayAtOnce(rec, p);
    var w, div := WeightFor(obs.reason), Damping(rec.subnetsSeen, obs.subnet, p.diversityRepeat);
    VotePointsAre(rec.score, obs.trust, w, div);
    TimesSign(-obs.trust, w);
    TimesSign(Times(-obs.trust, w), div);
    assert Power(-obs.trust, w, div) == Times(Times(-obs.trust, w), div) == -Power(obs.trust, w, div);
    TimesSign(Power(-obs.trust, w, div), 1.0 - rec.score / 100.0);
    assert Times(Power(-obs.trust, w, div), 1.0 - rec.score / 100.0) == -Times(Power(obs.trust, w, div), 1.0 - rec.score / 100.0);
    hide VotePoints, Power, Times, WeightFor, Damping;
  }

  /** So does a dispute of negative trust. */
  lemma NegativeDispute(rec: ScoreRecord, obs: Observation, at: Time, p: Params)
    requires ValidParams(p) && obs.trust < 0.0 && obs.anchored && rec.score <= 0.0 && (rec.lastSeen == 0 || rec.lastSeen == at)
    ensures ApplyDispute(rec, obs, at, p).score <= 0.0
  {
    NoDecayAtOnce(rec, p);
    var w, div := p.disputeWeight, Damping(rec.disputeSubnetsSeen, obs.subnet, p.diversityRepeat);
    DisputePointsAre(rec.score, obs.trust, w, div);
    TimesSign(-obs.trust, w);
    TimesSign(Times(-obs.trust, w), div);
    var k := Power(obs.trust, w, div) / 100.0;
    assert Power(-obs.trust, w, div) == Times(Times(-obs.trust, w), div) == -Power(obs.trust, w, div);
    TimesSign(-rec.score, -k);
    assert Times(-rec.score, -k) == Times(rec.score, k);
    hide DisputePoints, Power, Times, Damping;
  }

  lemma NegativeDecay(s: real, last: Time, now: Time, h: HalfLife)
    requires ValidHalfLife(h) && s <= 0.0
    ensures DecayScore(s, last, now, h) <= 0.0
  {
    DecayIsScaling(s, last, now, h);
    RetentionUnit(h, Elapsed(last, now));
    TimesSign(-s, Retention(h, Elapsed(last, now)));
    TimesSplits(0.0, s, -s, Retention(h, Elapsed(last, now)));
    TimesSign(0.0, Retention(h, Elapsed(last, now)));
  }

  /** What the dispute fold leaves behind after `i` disputes of a record scored `s`. */
  ghost predicate DisputeState(rec: ScoreRecord, s: real, i: nat, at: Time, trust: real, p: Params) {
    && 0.0 <= rec.score
    && rec.score == DisputedScore(s, trust, p.disputeWeight, i)
    && (rec.lastSeen == 0 || rec.lastSeen == at)
    && rec.disputeSubnetsSeen == Numbered("fed-d", i)
  }

  lemma DisputeFold(rec: ScoreRecord, s: real, i: nat, at: Time, obs: Observation, p: Params)
    requires ValidParams(p) && 0.0 <= obs.trust && at != 0
    requires DisputeState(rec, s, i, at, obs.trust, p)
    requires obs.anchored && obs.subnet == "fed-d" + Itoa(i)
    ensures DisputeState(ApplyDispute(rec, obs, at, p), s, i + 1, at, obs.trust, p)
  {
    hide Times, DisputePoints, VoteStrength, Numbered;
    NoDecayAtOnce(rec, p);
    var prefix := "fed-d";
    NumberedIsFresh(prefix, i);
    DisputeScales(rec.score, obs.trust, p.disputeWeight, 1.0);
    var f := Max(1.0 - VoteStrength(obs.trust, p.disputeWeight), 0.0);
    FullPower(obs.trust, p.disputeWeight);
    TimesAssociates(s, Pow(f, i), f);
    TimesCommutes(f, Pow(f, i));
  }

  lemma FullPower(trust: real, weight: real)
    ensures Power(trust, weight, 1.0) / 100.0 == VoteStrength(trust, weight)
  {
  }

  lemma EmptyFold(full: nat, at: Time, v: Votes, p: Params)
    ensures FoldState(EMPTY_RECORD, 0, full, at, v, p)
  {
    assert GapLeft(VoteStrength(v.trust, v.weight), p.diversityRepeat, 0, 0) == 1.0;
    assert Numbered("fed-", 0) == [];
  }

  /** The fold after `i` votes: on the closed form, or at most 0 if the trust is negative. */
  ghost predicate Folded(rec: ScoreRecord, i: nat, full: nat, at: Time, v: Votes, p: Params) {
    if v.trust < 0.0 then rec.score <= 0.0 && (rec.lastSeen == 0 || rec.lastSeen == at) && rec.disputeSubnetsSeen == []
    else FoldState(rec, i, full, at, v, p) && 0.0 <= rec.score <= 100.0
  }

  lemma FoldedStep(rec: ScoreRecord, i: nat, full: nat, at: Time, obs: Observation, v: Votes, p: Params)
    requires ValidParams(p) && DEFAULT_WEIGHT <= v.weight <= 50.0 && i < v.groups && at != 0
    requires full == MinInt(v.groups, MaxInt(v.subnets, 1)) && Folded(rec, i, full, at, v, p)
    requires obs.anchored && obs.trust == v.trust && WeightFor(obs.reason) == v.weight && obs.subnet == FoldSubnet(i, full)
    ensures Folded(Accumulate(rec, obs, at, p), i + 1, full, at, v, p)
  {
    hide Accumulate, FoldState;
    if v.trust < 0.0 { NegativeVote(rec, obs, at, p); } else { FoldStep(rec, i, full, at, obs, v, p); }
    StrangerFoldKeeps(rec, at, obs, p);
  }

  lemma FoldedNone(full: nat, at: Time, v: Votes, p: Params)
    ensures Folded(EMPTY_RECORD, 0, full, at, v, p)
  {
    EmptyFold(full, at, v, p);
    hide FoldState;
  }

  /** One synthetic anchored vote per counted group. */
  method FoldGroups(groups: nat, fullVotes: nat, reason: string, at: Time, v: Votes, p: Params) returns (folded: ScoreRecord)
    requires ValidParams(p) && at != 0
    requires groups == v.groups && fullVotes == MinInt(v.groups, MaxInt(v.subnets, 1)) && WeightFor(reason) == v.weight
    ensures Folded(folded, groups, fullVotes, at, v, p)
  {
    folded := EMPTY_RECORD;
    FoldedNone(fullVotes, at, v, p);
    assert DEFAULT_WEIGHT <= v.weight <= 50.0;
    for i := 0 to groups
      invariant Folded(folded, i, fullVotes, at, v, p)
    {
      hide *;
      var subnet := "fed-" + Itoa(i);
      if i >= fullVotes {
        subnet := "fed-repeat";
      }
      var obs := Observation(reason, "fed", "fed", v.trust, true, subnet);
      assert subnet == FoldSubnet(i, fullVotes) by { FoldSubnetIs(i, fullVotes); }
      FoldedStep(folded, i, fullVotes, at, obs, v, p);
      folded := Accumulate(folded, obs, at, p);
    }
  }

  lemma FoldSubnetIs(i: nat, full: nat)
    ensures FoldSubnet(i, full) == if i >= full then "fed-repeat" else "fed-" + Itoa(i)
  {
  }

  /** The record after `i` disputes, likewise. */
  ghost predicate DisputesFolded(rec: ScoreRecord, s: real, i: nat, at: Time, trust: real, p: Params) {
    if trust < 0.0 then rec.score <= 0.0 && (rec.lastSeen == 0 || rec.lastSeen == at) else DisputeState(rec, s, i, at, trust, p)
  }

  lemma DisputesFoldedStep(rec: ScoreRecord, s: real, i: nat, at: Time, obs: Observation, p: Params)
    requires ValidParams(p) && at != 0 && DisputesFolded(rec, s, i, at, obs.trust, p)
    requires obs.anchored && obs.subnet == "fed-d" + Itoa(i)
    ensures DisputesFolded(ApplyDispute(rec, obs, at, p), s, i + 1, at, obs.trust, p)
  {
    hide ApplyDispute, DisputeState;
    if obs.trust < 0.0 {
      NegativeDispute(rec, obs, at, p);
      DisputeLastSeen(rec, obs, at, p);
    } else {
      DisputeFold(rec, s, i, at, obs, p);
    }
  }

  lemma DisputeLastSeen(rec: ScoreRecord, obs: Observation, at: Time, p: Params)
    ensures ApplyDispute(rec, obs, at, p).lastSeen == at
  {
  }

  /** One full-weight dispute per disputing subnet. */
  method FoldDisputes(rec: ScoreRecord, n: int, at: Time, trust: real, p: Params) returns (folded: ScoreRecord)
    requires ValidParams(p) && at != 0 && (rec.lastSeen == 0 || rec.lastSeen == at) && rec.disputeSubnetsSeen == []
    requires if trust < 0.0 then rec.score <= 0.0 else 0.0 <= rec.score
    ensures if trust < 0.0 then folded.score <= 0.0 else folded.score == DisputedScore(rec.score, trust, p.disputeWeight, MaxInt(n, 0))
  {
    folded := rec;
    NoDisputesYet(rec, at, trust, p);
    for i := 0 to MaxInt(n, 0)
      invariant DisputesFolded(folded, rec.score, i, at, trust, p)
    {
      hide *;
      var obs := Observation("", "fed-dispute", "", trust, true, "fed-d" + Itoa(i));
      DisputesFoldedStep(folded, rec.score, i, at, obs, p);
      folded := ApplyDispute(folded, obs, at, p);
    }
  }

  lemma NoDisputesYet(rec: ScoreRecord, at: Time, trust: real, p: Params)
    requires (rec.lastSeen == 0 || rec.lastSeen == at) && rec.disputeSubnetsSeen == []
    requires if trust < 0.0 then rec.score <= 0.0 else 0.0 <= rec.score
    ensures DisputesFolded(rec, rec.score, 0, at, trust, p)
  {
    assert Numbered("fed-d", 0) == [];
  }

  lemma DisputedInRange(s: real, trust: real, weight: real, n: nat)
    requires 0.0 <= s <= 100.0 && 0.0 <= trust && 0.0 <= weight
    ensures 0.0 <= DisputedScore(s, trust, weight, n) <= 100.0
  {
    TimesSign(trust, weight);
    assert VoteStrength(trust, weight) == Times(trust, weight) / 100.0;
    var f := Max(1.0 - VoteStrength(trust, weight), 0.0);
    PowUnit(f, n);
    TimesShrinks(s, Pow(f, n));
  }

  /** Clamps the aggregator's numbers: the weight to [0,1], the counts to the number of folds. */
  method CountVotes(ev: Evidence, voteWeight: real, discount: real) returns (v: Votes, fullVotes: nat)
    ensures v == VotesOf(ev, voteWeight, discount)
    ensures fullVotes == MinInt(v.groups, MaxInt(v.subnets, 1))
  {
    var weight := if ev.evidenceWeight.NaN? || ev.evidenceWeight.value < 0.0 then 0.0 else ev.evidenceWeight.value;
    if weight > 1.0 {
      weight := 1.0;
    }
    var groups := Bucket(ev, "groups");
    if groups > MAX_EVIDENCE_FOLDS {
      groups := MAX_EVIDENCE_FOLDS;
    }
    if groups < 0 {
      groups := 0;
    }
    var subnets := Bucket(ev, "subnets");
    if subnets < 1 {
      subnets := 1;
    }
    fullVotes := groups;
    if subnets < fullVotes {
      fullVotes := subnets;
    }
    var disputeSubnets := Bucket(ev, "dispute_subnets");
    if disputeSubnets > MAX_EVIDENCE_FOLDS {
      disputeSubnets := MAX_EVIDENCE_FOLDS;
    }
    v := Votes(weight * discount, voteWeight, groups, Bucket(ev, "subnets"), ev.strangersPresent, MaxInt(disputeSubnets, 0));
  }

  /** All synthetic votes: the groups, then the strangers' one capped vote, then the disputes. */
  method FoldVotes(ev: Evidence, fullVotes: nat, reason: string, v: Votes, p: Params) returns (folded: ScoreRecord)
    requires ValidParams(p) && ev.windowLast != 0
    requires fullVotes == MinInt(v.groups, MaxInt(v.subnets, 1)) && WeightFor(reason) == v.weight
    ensures if v.trust < 0.0 then folded.score <= 0.0 else folded.score == UndecayedScore(v, p) && 0.0 <= folded.score <= 100.0
  {
    hide WeightFor, Accumulate, Numbered, GroupScore, DisputedScore, VoteStrength, Times, DecayScore, StrangerStep;
    WeightInRange(reason);
    folded := FoldGroups(v.groups, fullVotes, reason, ev.windowLast, v, p);
    if v.strangers {
      var obs := Observation(reason, "fed-stranger", "", v.trust, false, "");
      var undamped := p.(diversityRepeat := 1.0);
      if v.trust < 0.0 { NegativeVote(folded, obs, ev.windowLast, undamped); } else { StrangerFold(folded, ev.windowLast, obs, v, undamped); }
      StrangerFoldKeeps(folded, ev.windowLast, obs, undamped);
      folded := Accumulate(folded, obs, ev.windowLast, undamped);
    }
    if v.trust >= 0.0 { DisputedInRange(folded.score, v.trust, p.disputeWeight, v.disputes); }
    folded := FoldDisputes(folded, v.disputes, ev.windowLast, v.trust, p);
  }

  lemma WeightInRange(reason: string)
    ensures DEFAULT_WEIGHT <= WeightFor(reason) <= 50.0
  {
  }

  /** The score of an aggregate written out from the evidence: g groups, at most 64, of which
      m = min(g, max(subnets, 1) + 1) vote in full, one capped stranger vote, at most 64 disputes, one decay. */
  ghost predicate ClosedForm(ev: Evidence, weight: real, discount: real, now: Time, p: Params, score: real) {
    var b := ev.diversityBuckets;
    var groups := if "groups" !in b || b["groups"] < 0 then 0 else if b["groups"] > 64 then 64 else b["groups"];
    var subnets := if "subnets" !in b || b["subnets"] < 1 then 1 else b["subnets"];
    var disputes := if "dispute_subnets" !in b || b["dispute_subnets"] < 0 then 0
                    else if b["dispute_subnets"] > 64 then 64 else b["dispute_subnets"];
    var claimed := if ev.evidenceWeight.NaN? || ev.evidenceWeight.value < 0.0 then 0.0
                   else if ev.evidenceWeight.value > 1.0 then 1.0 else ev.evidenceWeight.value;
    var trust := Times(claimed, discount);
    var q, k := Times(trust, weight) / 100.0, Times(trust, p.disputeWeight) / 100.0;
    var full := if groups <= subnets + 1 then groups else subnets + 1;
    var left := Times(Pow(Max(1.0 - q, 0.0), full), Pow(Max(1.0 - Times(p.diversityRepeat, q), 0.0), groups - full));
    var s := 100.0 - 100.0 * left;
    var t := if ev.strangersPresent then Min(s + Min(Times(q, 100.0 - s), p.strangerCap), 100.0) else s;
    score == if trust < 0.0 then 0.0
             else DecayScore(Times(t, Pow(Max(1.0 - k, 0.0), disputes)), ev.windowLast, now, p.halfLife)
  }

  lemma RecomputedMeetsClosedForm(ev: Evidence, weight: real, discount: real, now: Time, p: Params)
    ensures ClosedForm(ev, weight, discount, now, p, RecomputedScore(ev, weight, discount, now, p))
  {
    VotesAre(ev, weight, discount);
    var v := VotesOf(ev, weight, discount);
    StrengthIs(v.trust, v.weight);
    StrengthIs(v.trust, p.disputeWeight);
    hide Times, Pow, DecayScore, VotesOf, VoteStrength;
  }

  lemma StrengthIs(trust: real, weight: real)
    ensures VoteStrength(trust, weight) == Times(trust, weight) / 100.0
  {
  }

  /** The clamped numbers that vote. */
  lemma VotesAre(ev: Evidence, weight: real, discount: real)
    ensures var b, v := ev.diversityBuckets, VotesOf(ev, weight, discount);
            && v.groups == (if "groups" !in b || b["groups"] < 0 then 0 else if b["groups"] > 64 then 64 else b["groups"])
            && v.subnets == (if "subnets" !in b then 0 else b["subnets"])
            && v.disputes == (if "dispute_subnets" !in b || b["dispute_subnets"] < 0 then 0
                              else if b["dispute_subnets"] > 64 then 64 else b["dispute_subnets"])
            && v.trust == Times(if ev.evidenceWeight.NaN? || ev.evidenceWeight.value < 0.0 then 0.0
                                else if ev.evidenceWeight.value > 1.0 then 1.0 else ev.evidenceWeight.value, discount)
            && v.weight == weight && v.strangers == ev.strangersPresent
  {
  }

  /** The recomputed record carries the closed-form score and metadata only: no groups, no
      reporters, no corroboration. */
  method RecordFromEvidence(ev: Evidence, now: Time, p: Params, discount: real) returns (rec: ScoreRecord)
    requires ValidParams(p)
    ensures ev.windowLast == 0 ==> rec == EMPTY_RECORD
    ensures ev.windowLast != 0 ==>
              exists weight ::
                && IsGreatestWeight(ev.scenarios, weight) && rec.score == RecomputedScore(ev, weight, discount, now, p)
                && ClosedForm(ev, weight, discount, now, p, rec.score)
                && rec == EMPTY_RECORD.(score := rec.score, reasons := ev.scenarios, firstSeen := ev.windowFirst, lastSeen := ev.windowLast)
    ensures 0.0 <= rec.score <= 100.0
  {
    if ev.windowLast == 0 {
      return EMPTY_RECORD;
    }
    var reason := MaxWeightScenario(ev.scenarios);
    hide *;
    var v, fullVotes := CountVotes(ev, WeightFor(reason), discount);
    var folded := FoldVotes(ev, fullVotes, reason, v, p);
    assert ValidHalfLife(p.halfLife) by { ParamsHalfLife(p); }
    if v.trust < 0.0 {
      NegativeDecay(folded.score, ev.windowLast, now, p.halfLife);
    } else {
      DecayBounds(folded.score, ev.windowLast, now, p.halfLife);
    }
    var score := DecayScore(folded.score, ev.windowLast, now, p.halfLife);
    if score > 100.0 {
      score := 100.0;
    }
    if score < 0.0 {
      score := 0.0;
    }
    rec := EMPTY_RECORD.(score := score, reasons := ev.scenarios, firstSeen := ev.windowFirst, lastSeen := ev.windowLast);
    assert score == RecomputedScore(ev, WeightFor(reason), discount, now, p) by {
      RecomputedScoreIs(ev, WeightFor(reason), discount, now, p);
    }
    RecomputedMeetsClosedForm(ev, WeightFor(reason), discount, now, p);
  }

  lemma ParamsHalfLife(p: Params)
    requires ValidParams(p)
    ensures ValidHalfLife(p.halfLife)
  {
  }

  lemma RecomputedScoreIs(ev: Evidence, weight: real, discount: real, now: Time, p: Params)
    ensures var v := VotesOf(ev, weight, discount);
            RecomputedScore(ev, weight, discount, now, p)
            == if v.trust < 0.0 then 0.0 else DecayScore(UndecayedScore(v, p), ev.windowLast, now, p.halfLife)
  {
    hide UndecayedScore, DecayScore;
  }

  lemma StrangerFoldKeeps(rec: ScoreRecord, at: Time, obs: Observation, p: Params)
    ensures Accumulate(rec, obs, at, p).lastSeen == at
    ensures Accumulate(rec, obs, at, p).disputeSubnetsSeen == rec.disputeSubnetsSeen
  {
  }
}
