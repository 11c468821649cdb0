/** Two runs of the scoring engine compared: what un-anchored reporters can add to a score. */
module StrangerBound {
  import opened Powers
  import opened Reputation

  /** Reports, disputes and sweeps in clock order. */
  ghost predicate ClockOrdered(h: seq<Change>) {
    ValidHistory(h) && forall i, j :: 0 <= i < j < |h| ==> h[i].now <= h[j].now
  }

  ghost predicate NoSweeps(h: seq<Change>) { forall i :: 0 <= i < |h| ==> !h[i].Swept? }

  predicate FromStranger(c: Change) { c.Report? && !c.obs.anchored }

  /** The same history with every stranger report deleted. */
  function WithoutStrangers(h: seq<Change>): seq<Change> {
    if h == [] then [] else
      var rest := WithoutStrangers(h[..|h| - 1]);
      if FromStranger(h[|h| - 1]) then rest else rest + [h[|h| - 1]]
  }

  // ---------------------------------------------------------------- one step, two scores

  /** Scaling both scores by a factor in [0,1] does not widen the gap between them. */
  lemma ScalingKeepsGap(s: real, a: real, c: real, k: real)
    requires 0.0 <= k <= 1.0 && 0.0 <= c && s <= a + c
    ensures Times(s, k) <= Times(a, k) + c
  {
    var gap := s - a;
    TimesSplits(s, a, gap, k);
    if gap >= 0.0 {
      TimesShrinks(gap, k);
    } else {
      TimesSign(-gap, k);
      TimesSplits(0.0, gap, -gap, k);
      TimesSign(0.0, k);
    }
  }

  /** More damping, less power. */
  lemma PowerMonotone(trust: real, weight: real, lo: real, hi: real)
    requires 0.0 <= trust && 0.0 <= weight && 0.0 <= lo <= hi
    ensures 0.0 <= Power(trust, weight, lo) <= Power(trust, weight, hi)
  {
    var x := Times(trust, weight);
    TimesSign(trust, weight);
    TimesOrder(x, lo, hi);
    assert Power(trust, weight, lo) == Times(x, lo) && Power(trust, weight, hi) == Times(x, hi);
  }

  /** A vote on the higher score counts for no more than the same vote on the lower one. */
  lemma VoteKeepsGap(s: real, a: real, c: real, trust: real, weight: real, lo: real, hi: real)
    requires 0.0 <= s <= 100.0 && s <= a + c && 0.0 <= c
    requires 0.0 <= trust <= 1.0 && 0.0 <= weight <= 50.0 && 0.0 <= lo <= hi <= 1.0
    ensures s + VotePoints(s, trust, weight, lo) <= a + VotePoints(a, trust, weight, hi) + c
  {
    PowerMonotone(trust, weight, lo, hi);
    PowerBounds(trust, weight, hi);
    GapShrinks(s, trust, weight, lo);
    GapShrinks(a, trust, weight, hi);
    var x, y := 1.0 - Power(trust, weight, lo) / 100.0, 1.0 - Power(trust, weight, hi) / 100.0;
    TimesOrder(100.0 - s, y, x);
    ScalingKeepsGap(100.0 - a, 100.0 - s, c, y);
  }

  lemma DisputeKeepsGap(s: real, a: real, c: real, trust: real, weight: real, div: real)
    requires 0.0 <= s && 0.0 <= a && s <= a + c && 0.0 <= c
    requires 0.0 <= trust && 0.0 <= weight && 0.0 <= div
    ensures Max(s - DisputePoints(s, trust, weight, div), 0.0) <= Max(a - DisputePoints(a, trust, weight, div), 0.0) + c
  {
    DisputeScales(s, trust, weight, div);
    DisputeScales(a, trust, weight, div);
    ScalingKeepsGap(s, a, c, Max(1.0 - Power(trust, weight, div) / 100.0, 0.0));
  }

  /** A dispute under budget moves the scores and the spent budgets of both runs against each other,
      so it never widens the two gaps taken together. */
  lemma CappedDisputeKeepsGap(s: real, a: real, spentS: real, spentA: real, cap: real, k: real)
    requires 0.0 <= s && 0.0 <= a && 0.0 <= spentS <= cap && 0.0 <= spentA <= cap && 0.0 <= k
    requires k <= 1.0 || cap == 0.0
    ensures var x, y := Min(Times(s, k), Max(cap - spentS, 0.0)), Min(Times(a, k), Max(cap - spentA, 0.0));
            Max(Max(s - x, 0.0) - Max(a - y, 0.0), 0.0) + Max(spentS + x - (spentA + y), 0.0)
            <= Max(s - a, 0.0) + Max(spentS - spentA, 0.0)
  {
    TimesSign(s, k);
    TimesSign(a, k);
    if k <= 1.0 {
      TimesShrinks(s, k);
      TimesShrinks(a, k);
      if s >= a {
        TimesShrinks(s - a, k);
        TimesSplits(s, a, s - a, k);
      } else {
        TimesShrinks(a - s, k);
        TimesSplits(a, s, a - s, k);
      }
    }
  }

  // ---------------------------------------------------------------- the relation both runs keep

  /** How far the full run `f` stands above the run `a` without strangers: in score, and in dispute
      budget already spent. */
  ghost function Lead(f: ScoreRecord, a: ScoreRecord, now: Time, p: Params): real {
    Max(Current(f, now, p) - Current(a, now, p), 0.0) + Max(f.disputeContrib - a.disputeContrib, 0.0)
  }

  ghost predicate Related(f: ScoreRecord, a: ScoreRecord, p: Params) {
    && InRange(f, p) && InRange(a, p)
    && a.lastSeen <= f.lastSeen
    && (a.lastSeen == 0 ==> a.score == 0.0)
    && (f.lastSeen == 0 ==> f.score == 0.0)
    && (forall u :: u in a.subnetsSeen ==> u in f.subnetsSeen)
    && a.disputeSubnetsSeen == f.disputeSubnetsSeen
    && Lead(f, a, f.lastSeen, p) <= f.strangerContrib
  }

  /** The lead does not grow until any later reading. */
  lemma RelatedLater(f: ScoreRecord, a: ScoreRecord, now: Time, p: Params)
    requires ValidParams(p) && Related(f, a, p) && f.lastSeen <= now
    ensures Lead(f, a, now, p) <= f.strangerContrib
    ensures 0.0 <= Current(f, now, p) <= 100.0 && 0.0 <= Current(a, now, p) <= 100.0
  {
    DecayBounds(f.score, f.lastSeen, now, p.halfLife);
    DecayBounds(a.score, a.lastSeen, now, p.halfLife);
    NoDecayAtOnce(f, p);
    if f.lastSeen != 0 {
      var x, y := Retention(p.halfLife, now - f.lastSeen), Current(a, f.lastSeen, p);
      RetentionUnit(p.halfLife, now - f.lastSeen);
      ScalingKeepsGap(f.score, y, Max(f.score - y, 0.0), x);
      DecayIsScaling(f.score, f.lastSeen, now, p.halfLife);
      DecayIsScaling(y, f.lastSeen, now, p.halfLife);
      if a.lastSeen == 0 {
        TimesSign(y, x);
      } else {
        DecayComposes(a.score, a.lastSeen, f.lastSeen, now, p.halfLife);
      }
    }
  }

  lemma AnchoredReportKeeps(f: ScoreRecord, a: ScoreRecord, c: Change, p: Params)
    requires ValidParams(p) && ValidChange(c) && AnchoredReport(c) && Related(f, a, p) && f.lastSeen <= c.now
    ensures Related(Apply(f, c, p), Apply(a, c, p), p)
  {
    ApplyKeepsRange(f, c, p);
    ApplyKeepsRange(a, c, p);
    RelatedLater(f, a, c.now, p);
    var s, t := Current(f, c.now, p), Current(a, c.now, p);
    var w := WeightFor(c.obs.reason);
    var lo := Damping(f.subnetsSeen, c.obs.subnet, p.diversityRepeat);
    var hi := Damping(a.subnetsSeen, c.obs.subnet, p.diversityRepeat);
    VoteKeepsGap(s, t, Max(s - t, 0.0), c.obs.trust, w, lo, hi);
    VotePointsBounds(s, c.obs.trust, w, lo);
    VotePointsBounds(t, c.obs.trust, w, hi);
    NoDecayAtOnce(Apply(a, c, p), p);
    NoDecayAtOnce(Apply(f, c, p), p);
  }

  lemma AnchoredDisputeKeeps(f: ScoreRecord, a: ScoreRecord, c: Change, p: Params)
    requires ValidParams(p) && ValidChange(c) && AnchoredDispute(c) && Related(f, a, p) && f.lastSeen <= c.now
    ensures Related(Apply(f, c, p), Apply(a, c, p), p)
  {
    ApplyKeepsRange(f, c, p);
    ApplyKeepsRange(a, c, p);
    RelatedLater(f, a, c.now, p);
    var s, t := Current(f, c.now, p), Current(a, c.now, p);
    var div := Damping(f.disputeSubnetsSeen, c.obs.subnet, p.diversityRepeat);
    DisputeKeepsGap(s, t, Max(s - t, 0.0), c.obs.trust, p.disputeWeight, div);
    NoDecayAtOnce(Apply(a, c, p), p);
    NoDecayAtOnce(Apply(f, c, p), p);
  }

  /** An un-anchored dispute in terms of its power. */
  lemma StrangerDisputeIs(rec: ScoreRecord, c: Change, p: Params)
    requires ValidParams(p) && ValidChange(c) && c.Dispute? && !c.obs.anchored && InRange(rec, p)
    ensures var s, k := Current(rec, c.now, p), Power(c.obs.trust, p.disputeWeight, 1.0) / 100.0;
            var x := Min(Times(s, k), Max(p.strangerCap - rec.disputeContrib, 0.0));
            && 0.0 <= k && (p.disputeWeight <= 100.0 ==> k <= 1.0)
            && Apply(rec, c, p) == rec.(score := Max(s - x, 0.0), lastSeen := c.now, disputeContrib := rec.disputeContrib + x)
  {
    var s, trust := Current(rec, c.now, p), c.obs.trust;
    DisputePointsAre(s, trust, p.disputeWeight, 1.0);
    TimesSign(trust, p.disputeWeight);
    TimesShrinks(p.disputeWeight, trust);
    TimesCommutes(p.disputeWeight, trust);
    assert Power(trust, p.disputeWeight, 1.0) == Times(trust, p.disputeWeight);
    hide DisputePoints, Power, Times, DecayScore;
  }

  lemma StrangerDisputeKeeps(f: ScoreRecord, a: ScoreRecord, c: Change, p: Params)
    requires ValidParams(p) && ValidChange(c) && c.Dispute? && !c.obs.anchored && Related(f, a, p) && f.lastSeen <= c.now
    requires p.disputeWeight <= 100.0 || p.strangerCap == 0.0
    ensures Related(Apply(f, c, p), Apply(a, c, p), p)
  {
    hide Apply, Times, Power, Current;
    ApplyKeepsRange(f, c, p);
    ApplyKeepsRange(a, c, p);
    RelatedLater(f, a, c.now, p);
    StrangerDisputeIs(f, c, p);
    StrangerDisputeIs(a, c, p);
    CappedDisputeKeepsGap(Current(f, c.now, p), Current(a, c.now, p), f.disputeContrib, a.disputeContrib, p.strangerCap,
                          Power(c.obs.trust, p.disputeWeight, 1.0) / 100.0);
    NoDecayAtOnce(Apply(a, c, p), p);
    NoDecayAtOnce(Apply(f, c, p), p);
  }

  /** Only the full run moves, by no more than what it adds to the stranger budget. */
  lemma StrangerReportKeeps(f: ScoreRecord, a: ScoreRecord, c: Change, p: Params)
    requires ValidParams(p) && ValidChange(c) && FromStranger(c) && Related(f, a, p) && f.lastSeen <= c.now
    ensures Related(Apply(f, c, p), a, p)
  {
    ApplyKeepsRange(f, c, p);
    RelatedLater(f, a, c.now, p);
    NoDecayAtOnce(Apply(f, c, p), p);
    VotePointsBounds(Current(f, c.now, p), c.obs.trust, WeightFor(c.obs.reason),
                     Damping(f.subnetsSeen, c.obs.subnet, p.diversityRepeat));
    hide VotePoints, WeightFor;
  }

  /** Without decay a sweep changes nothing. */
  lemma IdleSweep(rec: ScoreRecord, c: Change, p: Params)
    requires c.Swept? && p.halfLife.NoDecay?
    ensures Apply(rec, c, p) == rec
  {
  }

  lemma RelatedStep(f: ScoreRecord, a: ScoreRecord, c: Change, p: Params)
    requires ValidParams(p) && ValidChange(c) && Related(f, a, p) && f.lastSeen <= c.now
    requires p.disputeWeight <= 100.0 || p.strangerCap == 0.0
    requires c.Swept? ==> p.halfLife.NoDecay?
    ensures Related(Apply(f, c, p), if FromStranger(c) then a else Apply(a, c, p), p)
  {
    hide Apply, Related;
    match c {
      case Report(obs, _) => if obs.anchored { AnchoredReportKeeps(f, a, c, p); } else { StrangerReportKeeps(f, a, c, p); }
      case Dispute(obs, _) => if obs.anchored { AnchoredDisputeKeeps(f, a, c, p); } else { StrangerDisputeKeeps(f, a, c, p); }
      case Swept(_) =>
        IdleSweep(f, c, p);
        IdleSweep(a, c, p);
    }
  }

  lemma WithoutSnoc(h: seq<Change>, c: Change, p: Params)
    ensures WithoutStrangers([]) == []
    ensures WithoutStrangers(h + [c]) == WithoutStrangers(h) + if FromStranger(c) then [] else [c]
    ensures Replay(WithoutStrangers(h + [c]), p)
         == if FromStranger(c) then Replay(WithoutStrangers(h), p) else Apply(Replay(WithoutStrangers(h), p), c, p)
  {
    hide Apply;
    assert (h + [c])[..|h + [c]| - 1] == h;
    ReplaySnoc(WithoutStrangers(h), c, p);
  }

  lemma LastSeenStep(rec: ScoreRecord, c: Change, p: Params)
    ensures Apply(rec, c, p).lastSeen == if c.Swept? then rec.lastSeen else c.now
  {
  }

  lemma EmptyRelated(p: Params)
    requires ValidParams(p)
    ensures Related(Replay([], p), Replay(WithoutStrangers([]), p), p) && Replay([], p).lastSeen == 0
  {
    NoDecayAtOnce(EMPTY_RECORD, p);
  }

  lemma OrderedParts(h: seq<Change>)
    requires ClockOrdered(h) && h != []
    ensures ClockOrdered(h[..|h| - 1]) && ValidChange(h[|h| - 1])
    ensures |h| >= 2 ==> h[|h| - 2].now <= h[|h| - 1].now
    ensures NoSweeps(h) ==> NoSweeps(h[..|h| - 1]) && !h[|h| - 1].Swept?
  {
    hide ValidChange;
  }

  lemma {:induction false} RunsStayRelated(h: seq<Change>, p: Params)
    requires ValidParams(p) && ClockOrdered(h) && (NoSweeps(h) || p.halfLife.NoDecay?)
    requires p.disputeWeight <= 100.0 || p.strangerCap == 0.0
    ensures Related(Replay(h, p), Replay(WithoutStrangers(h), p), p)
    ensures Replay(h, p).lastSeen <= if h == [] then 0 else h[|h| - 1].now
  {
    hide *;
    if h == [] {
      EmptyRelated(p);
    } else {
      var g, c := h[..|h| - 1], h[|h| - 1];
      assert g + [c] == h;
      OrderedParts(h);
      RunsStayRelated(g, p);
      ReplaySnoc(g, c, p);
      WithoutSnoc(g, c, p);
      RelatedStep(Replay(g, p), Replay(WithoutStrangers(g), p), c, p);
      LastSeenStep(Replay(g, p), c, p);
    }
  }

  /** Whenever it is read, the score stands at most `strangerCap` above the score of the same
      history with all stranger reports deleted. */
  lemma StrangersAddAtMostTheCap(h: seq<Change>, now: Time, p: Params)
    requires ValidParams(p) && ClockOrdered(h) && (NoSweeps(h) || p.halfLife.NoDecay?)
    requires p.disputeWeight <= 100.0 || p.strangerCap == 0.0
    requires h != [] ==> h[|h| - 1].now <= now
    ensures Current(Replay(h, p), now, p) <= Current(Replay(WithoutStrangers(h), p), now, p) + p.strangerCap
  {
    RunsStayRelated(h, p);
    hide Replay, WithoutStrangers, Current;
    RelatedLater(Replay(h, p), Replay(WithoutStrangers(h), p), now, p);
  }
}
