/** What un-anchored disputes can take from a score: over every history, at most the cap. */
module StrangerVotes {
  import opened Powers
  import opened Reputation
  import opened StrangerBound
  import StrangerExact

  predicate StrangerDispute(c: Change) { c.Dispute? && !c.obs.anchored }

  /** The same history with every un-anchored dispute deleted. */
  function WithoutDisputes(h: seq<Change>): seq<Change> {
    if h == [] then [] else
      var rest := WithoutDisputes(h[..|h| - 1]);
      if StrangerDispute(h[|h| - 1]) then rest else rest + [h[|h| - 1]]
  }

  lemma WithoutDisputesSnoc(h: seq<Change>, c: Change, p: Params)
    ensures Replay(WithoutDisputes(h + [c]), p)
         == if StrangerDispute(c) then Replay(WithoutDisputes(h), p) else Apply(Replay(WithoutDisputes(h), p), c, p)
  {
    hide Apply;
    assert (h + [c])[..|h + [c]| - 1] == h;
    ReplaySnoc(WithoutDisputes(h), c, p);
  }

  // ---------------------------------------------------------------- the relation both runs keep

  /** How far the full run `f` lags behind the run `g` without the disputes: in score, and in report
      budget already spent. */
  ghost function Lag(f: ScoreRecord, g: ScoreRecord, now: Time, p: Params): real {
    Max(Current(g, now, p) - Current(f, now, p), 0.0) + Max(f.strangerContrib - g.strangerContrib, 0.0)
  }

  ghost predicate Follows(f: ScoreRecord, g: ScoreRecord, p: Params) {
    && InRange(f, p) && InRange(g, p) && g.lastSeen <= f.lastSeen
    && (g.lastSeen == 0 ==> g.score == 0.0) && (f.lastSeen == 0 ==> f.score == 0.0)
    && f.subnetsSeen == g.subnetsSeen && f.disputeSubnetsSeen == g.disputeSubnetsSeen
    && Lag(f, g, f.lastSeen, p) <= f.disputeContrib
  }

  /** The lag does not grow until any later reading. */
  lemma FollowsLater(f: ScoreRecord, g: ScoreRecord, now: Time, p: Params)
    requires ValidParams(p) && Follows(f, g, p) && f.lastSeen <= now
    ensures Lag(f, g, now, p) <= f.disputeContrib
    ensures 0.0 <= Current(f, now, p) <= 100.0 && 0.0 <= Current(g, now, p) <= 100.0
  {
    DecayBounds(f.score, f.lastSeen, now, p.halfLife);
    DecayBounds(g.score, g.lastSeen, now, p.halfLife);
    NoDecayAtOnce(f, p);
    if f.lastSeen != 0 {
      var x, y := Retention(p.halfLife, now - f.lastSeen), Current(g, f.lastSeen, p);
      DecayBounds(g.score, g.lastSeen, f.lastSeen, p.halfLife);
      RetentionUnit(p.halfLife, now - f.lastSeen);
      ScalingKeepsGap(y, f.score, Max(y - f.score, 0.0), x);
      DecayIsScaling(f.score, f.lastSeen, now, p.halfLife);
      DecayIsScaling(y, f.lastSeen, now, p.halfLife);
      if g.lastSeen == 0 {
        TimesSign(y, x);
      } else {
        DecayComposes(g.score, g.lastSeen, f.lastSeen, now, p.halfLife);
      }
    }
  }

  /** An un-anchored report in terms of the gap to 100: it takes its share of the gap, or what is left of
      the budget. */
  lemma StrangerReportIs(rec: ScoreRecord, c: Change, p: Params)
    requires ValidParams(p) && ValidChange(c) && FromStranger(c) && InRange(rec, p)
    ensures var s, k := Current(rec, c.now, p),
                        Power(c.obs.trust, WeightFor(c.obs.reason), Damping(rec.subnetsSeen, c.obs.subnet, p.diversityRepeat)) / 100.0;
            var x := Min(Times(100.0 - s, k), Max(p.strangerCap - rec.strangerContrib, 0.0));
            && 0.0 <= k <= 1.0 && Apply(rec, c, p).score == 100.0 - Max(100.0 - s - x, 0.0)
            && Apply(rec, c, p).strangerContrib == rec.strangerContrib + x
  {
    var s, trust, w := Current(rec, c.now, p), c.obs.trust, WeightFor(c.obs.reason);
    var div := Damping(rec.subnetsSeen, c.obs.subnet, p.diversityRepeat);
    DecayBounds(rec.score, rec.lastSeen, c.now, p.halfLife);
    VotePointsAre(s, trust, w, div);
    VotePointsBounds(s, trust, w, div);
    PowerBounds(trust, w, div);
    ScaleMoves(Power(trust, w, div), 100.0 - s);
    assert 1.0 - s / 100.0 == (100.0 - s) / 100.0;
    hide VotePoints, Power, WeightFor, Damping, Times, DecayScore;
  }

  lemma AnchoredReportFollows(f: ScoreRecord, g: ScoreRecord, c: Change, p: Params)
    requires ValidParams(p) && ValidChange(c) && AnchoredReport(c) && Follows(f, g, p) && f.lastSeen <= c.now
    ensures Follows(Apply(f, c, p), Apply(g, c, p), p)
  {
    ApplyKeepsRange(f, c, p);
    ApplyKeepsRange(g, c, p);
    FollowsLater(f, g, c.now, p);
    var s, t, w := Current(f, c.now, p), Current(g, c.now, p), WeightFor(c.obs.reason);
    var div := Damping(f.subnetsSeen, c.obs.subnet, p.diversityRepeat);
    VoteKeepsGap(t, s, Max(t - s, 0.0), c.obs.trust, w, div, div);
    VotePointsBounds(s, c.obs.trust, w, div);
    VotePointsBounds(t, c.obs.trust, w, div);
    NoDecayAtOnce(Apply(f, c, p), p);
    NoDecayAtOnce(Apply(g, c, p), p);
    hide VotePoints, WeightFor, Damping, DecayScore;
  }

  /** The budgeted report narrows or keeps the lag. */
  lemma StrangerReportLags(f: ScoreRecord, g: ScoreRecord, c: Change, p: Params)
    requires ValidParams(p) && ValidChange(c) && FromStranger(c) && Follows(f, g, p) && f.lastSeen <= c.now
    ensures var f', g' := Apply(f, c, p), Apply(g, c, p);
            Max(g'.score - f'.score, 0.0) + Max(f'.strangerContrib - g'.strangerContrib, 0.0) <= f.disputeContrib
  {
    hide Apply, Times, Power, Current, WeightFor, Damping;
    FollowsLater(f, g, c.now, p);
    StrangerReportIs(f, c, p);
    StrangerReportIs(g, c, p);
    CappedDisputeKeepsGap(100.0 - Current(f, c.now, p), 100.0 - Current(g, c.now, p), f.strangerContrib, g.strangerContrib,
                          p.strangerCap,
                          Power(c.obs.trust, WeightFor(c.obs.reason), Damping(f.subnetsSeen, c.obs.subnet, p.diversityRepeat)) / 100.0);
  }

  lemma StrangerReportFollows(f: ScoreRecord, g: ScoreRecord, c: Change, p: Params)
    requires ValidParams(p) && ValidChange(c) && FromStranger(c) && Follows(f, g, p) && f.lastSeen <= c.now
    ensures Follows(Apply(f, c, p), Apply(g, c, p), p)
  {
    hide Apply, Current, AppendNew;
    StrangerReportLags(f, g, c, p);
    ReportShape(f, c, p);
    ReportShape(g, c, p);
    ApplyKeepsRange(f, c, p);
    ApplyKeepsRange(g, c, p);
    NoDecayAtOnce(Apply(f, c, p), p);
    NoDecayAtOnce(Apply(g, c, p), p);
  }

  /** What a report does to the fields beside score and budget. */
  lemma ReportShape(rec: ScoreRecord, c: Change, p: Params)
    requires c.Report?
    ensures var after := Apply(rec, c, p);
            && after.lastSeen == c.now && after.disputeContrib == rec.disputeContrib
            && after.disputeSubnetsSeen == rec.disputeSubnetsSeen
            && after.subnetsSeen == if c.obs.subnet != "" then AppendNew(rec.subnetsSeen, c.obs.subnet) else rec.subnetsSeen
  {
  }

  lemma AnchoredDisputeFollows(f: ScoreRecord, g: ScoreRecord, c: Change, p: Params)
    requires ValidParams(p) && ValidChange(c) && AnchoredDispute(c) && Follows(f, g, p) && f.lastSeen <= c.now
    ensures Follows(Apply(f, c, p), Apply(g, c, p), p)
  {
    ApplyKeepsRange(f, c, p);
    ApplyKeepsRange(g, c, p);
    FollowsLater(f, g, c.now, p);
    var s, t := Current(f, c.now, p), Current(g, c.now, p);
    DisputeKeepsGap(t, s, Max(t - s, 0.0), c.obs.trust, p.disputeWeight, Damping(f.disputeSubnetsSeen, c.obs.subnet, p.diversityRepeat));
    NoDecayAtOnce(Apply(f, c, p), p);
    NoDecayAtOnce(Apply(g, c, p), p);
    hide DisputePoints, Damping, DecayScore;
  }

  /** Only the full run moves, by no more than what it adds to the dispute budget. */
  lemma StrangerDisputeFollows(f: ScoreRecord, g: ScoreRecord, c: Change, p: Params)
    requires ValidParams(p) && ValidChange(c) && StrangerDispute(c) && Follows(f, g, p) && f.lastSeen <= c.now
    ensures Follows(Apply(f, c, p), g, p)
  {
    hide Apply, Times, Power, Current;
    ApplyKeepsRange(f, c, p);
    FollowsLater(f, g, c.now, p);
    StrangerDisputeIs(f, c, p);
    TimesSign(Current(f, c.now, p), Power(c.obs.trust, p.disputeWeight, 1.0) / 100.0);
    NoDecayAtOnce(Apply(f, c, p), p);
  }

  /** A sweep costs the run that was seen later no more ticks. */
  lemma SweepFollows(f: ScoreRecord, g: ScoreRecord, c: Change, p: Params)
    requires ValidParams(p) && ValidChange(c) && c.Swept? && Follows(f, g, p) && f.lastSeen <= c.now
    ensures Follows(Apply(f, c, p), Apply(g, c, p), p)
  {
    ApplyKeepsRange(f, c, p);
    ApplyKeepsRange(g, c, p);
    FollowsLater(f, g, c.now, p);
    var swept := Apply(g, c, p);
    DecayBounds(swept.score, swept.lastSeen, f.lastSeen, p.halfLife);
    NoDecayAtOnce(Apply(f, c, p), p);
    hide DecayScore;
  }

  lemma FollowsStep(f: ScoreRecord, g: ScoreRecord, c: Change, p: Params)
    requires ValidParams(p) && ValidChange(c) && Follows(f, g, p) && f.lastSeen <= c.now
    ensures Follows(Apply(f, c, p), if StrangerDispute(c) then g else Apply(g, c, p), p)
  {
    hide Apply, Follows;
    match c {
      case Report(obs, _) => if obs.anchored { AnchoredReportFollows(f, g, c, p); } else { StrangerReportFollows(f, g, c, p); }
      case Dispute(obs, _) => if obs.anchored { AnchoredDisputeFollows(f, g, c, p); } else { StrangerDisputeFollows(f, g, c, p); }
      case Swept(_) => SweepFollows(f, g, c, p);
    }
  }

  lemma NothingFollows(p: Params)
    requires ValidParams(p)
    ensures Follows(Replay([], p), Replay(WithoutDisputes([]), p), p) && Replay([], p).lastSeen == 0
  {
    NoDecayAtOnce(EMPTY_RECORD, p);
  }

  lemma {:induction false} RunsFollow(h: seq<Change>, p: Params)
    requires ValidParams(p) && ClockOrdered(h)
    ensures Follows(Replay(h, p), Replay(WithoutDisputes(h), p), p)
    ensures Replay(h, p).lastSeen <= if h == [] then 0 else h[|h| - 1].now
  {
    hide *;
    if h == [] {
      NothingFollows(p);
    } else {
      var b, c := h[..|h| - 1], h[|h| - 1];
      assert b + [c] == h;
      OrderedParts(h);
      RunsFollow(b, p);
      ReplaySnoc(b, c, p);
      WithoutDisputesSnoc(b, c, p);
      FollowsStep(Replay(b, p), Replay(WithoutDisputes(b), p), c, p);
      LastSeenStep(Replay(b, p), c, p);
    }
  }

  /** A flood of un-anchored disputes cannot clear a score: over all histories, sweeps included, and for
      every dispute weight, deleting them raises it by at most the cap. */
  lemma StrangersTakeAtMostTheCap(h: seq<Change>, now: Time, p: Params)
    requires ValidParams(p) && StrangerExact.ReadAt(h, now)
    ensures Current(Replay(WithoutDisputes(h), p), now, p) <= Current(Replay(h, p), now, p) + p.strangerCap
  {
    RunsFollow(h, p);
    hide Replay, WithoutDisputes, Current;
    FollowsLater(Replay(h, p), Replay(WithoutDisputes(h), p), now, p);
  }
}
