/** When strangers can lower a score: exactly when one names a subnet before its first anchored report. */
module StrangerLowering {
  import opened Powers
  import opened Reputation
  import opened StrangerBound
  import StrangerExact

  // ---------------------------------------------------------------- usurped subnets

  ghost predicate AnchoredSubnet(h: seq<Change>, u: string) {
    u != "" && exists i :: 0 <= i < |h| && AnchoredReport(h[i]) && h[i].obs.subnet == u
  }

  ghost predicate StrangerSubnet(h: seq<Change>, u: string) {
    u != "" && exists i :: 0 <= i < |h| && FromStranger(h[i]) && h[i].obs.subnet == u
  }

  /** Report `j`, anchored and trusted, is the first anchored one of a subnet a stranger named before. */
  ghost predicate Usurps(h: seq<Change>, j: int) {
    && 0 <= j < |h| && AnchoredReport(h[j]) && h[j].obs.trust > 0.0
    && StrangerSubnet(h[..j], h[j].obs.subnet) && !AnchoredSubnet(h[..j], h[j].obs.subnet)
  }

  ghost predicate Usurped(h: seq<Change>) { exists j :: Usurps(h, j) }

  lemma UsurpedSnoc(h: seq<Change>, c: Change)
    ensures Usurped(h + [c]) <==> Usurped(h) || Usurps(h + [c], |h|)
  {
    hide AnchoredSubnet, StrangerSubnet;
    var longer := h + [c];
    assert forall j :: 0 <= j < |h| ==> longer[j] == h[j] && longer[..j] == h[..j];
    if j :| Usurps(h, j) { assert Usurps(longer, j); }
    if Usurped(longer) {
      var j :| Usurps(longer, j);
      if j < |h| { assert Usurps(h, j); }
    }
  }

  lemma AnchoredSubnetSnoc(h: seq<Change>, c: Change, u: string)
    ensures AnchoredSubnet(h + [c], u) <==> AnchoredSubnet(h, u) || (u != "" && AnchoredReport(c) && c.obs.subnet == u)
    ensures !AnchoredSubnet([], u)
  {
    var longer := h + [c];
    assert longer[|h|] == c && forall i :: 0 <= i < |h| ==> longer[i] == h[i];
  }

  /** Without strangers the list holds the anchored subnets. */
  lemma {:induction false} KeptSubnets(h: seq<Change>, u: string, p: Params)
    ensures u in Replay(WithoutStrangers(h), p).subnetsSeen <==> AnchoredSubnet(h, u)
  {
    hide *;
    if h == [] {
      AnchoredSubnetSnoc(h, Swept(0), u);
      NothingSeen(u, p);
    } else {
      var g, c := h[..|h| - 1], h[|h| - 1];
      assert g + [c] == h;
      KeptSubnets(g, u, p);
      AnchoredSubnetSnoc(g, c, u);
      WithoutSnoc(g, c, p);
      SubnetStep(Replay(WithoutStrangers(g), p), c, u, p);
    }
  }

  lemma NothingSeen(u: string, p: Params)
    ensures u !in Replay(WithoutStrangers([]), p).subnetsSeen
  {
  }

  lemma SubnetStep(rec: ScoreRecord, c: Change, u: string, p: Params)
    ensures !FromStranger(c) ==>
              (u in Apply(rec, c, p).subnetsSeen <==> u in rec.subnetsSeen || (u != "" && AnchoredReport(c) && c.obs.subnet == u))
    ensures FromStranger(c) ==> !AnchoredReport(c)
  {
    ApplyListsStep(rec, c, p);
    hide Apply;
  }

  /** With strangers it holds their subnets as well. */
  lemma FullSubnets(h: seq<Change>, u: string, p: Params)
    ensures u in Replay(h, p).subnetsSeen <==> AnchoredSubnet(h, u) || StrangerSubnet(h, u)
  {
    ReplayLists(h, p);
    hide Replay;
  }

  /** Both lists damp a report alike, unless it usurps. */
  lemma DampedAlike(h: seq<Change>, c: Change, p: Params)
    requires AnchoredReport(c)
    ensures var f, a := Replay(h, p), Replay(WithoutStrangers(h), p);
            && (c.obs.subnet in a.subnetsSeen ==> c.obs.subnet in f.subnetsSeen)
            && (Usurps(h + [c], |h|) <==>
                  c.obs.trust > 0.0 && c.obs.subnet != "" && c.obs.subnet in f.subnetsSeen && c.obs.subnet !in a.subnetsSeen)
  {
    KeptSubnets(h, c.obs.subnet, p);
    FullSubnets(h, c.obs.subnet, p);
    assert (h + [c])[..|h|] == h;
    hide Replay, WithoutStrangers;
  }

  // ---------------------------------------------------------------- no usurping, no lowering

  /** The full run stands no lower, in score and in dispute budget spent. */
  ghost predicate Dominates(f: ScoreRecord, a: ScoreRecord, p: Params) {
    && InRange(f, p) && InRange(a, p) && a.lastSeen <= f.lastSeen
    && (a.lastSeen == 0 ==> a.score == 0.0) && (f.lastSeen == 0 ==> f.score == 0.0)
    && a.disputeSubnetsSeen == f.disputeSubnetsSeen
    && Current(a, f.lastSeen, p) <= f.score && a.disputeContrib <= f.disputeContrib
  }

  lemma DominatesLater(f: ScoreRecord, a: ScoreRecord, now: Time, p: Params)
    requires ValidParams(p) && Dominates(f, a, p) && f.lastSeen <= now
    ensures 0.0 <= Current(a, now, p) <= Current(f, now, p) <= 100.0
  {
    DecayBounds(f.score, f.lastSeen, now, p.halfLife);
    DecayBounds(a.score, a.lastSeen, now, p.halfLife);
    if f.lastSeen != 0 {
      var x, y := Retention(p.halfLife, now - f.lastSeen), Current(a, f.lastSeen, p);
      RetentionUnit(p.halfLife, now - f.lastSeen);
      ScalingKeepsGap(y, f.score, 0.0, x);
      DecayIsScaling(f.score, f.lastSeen, now, p.halfLife);
      DecayIsScaling(y, f.lastSeen, now, p.halfLife);
      if a.lastSeen == 0 {
        TimesSign(y, x);
      } else {
        DecayComposes(a.score, a.lastSeen, f.lastSeen, now, p.halfLife);
      }
    }
  }

  lemma ReportKeepsDominance(f: ScoreRecord, a: ScoreRecord, c: Change, p: Params)
    requires ValidParams(p) && ValidChange(c) && AnchoredReport(c) && Dominates(f, a, p) && f.lastSeen <= c.now
    requires c.obs.trust == 0.0
             || Damping(f.subnetsSeen, c.obs.subnet, p.diversityRepeat) == Damping(a.subnetsSeen, c.obs.subnet, p.diversityRepeat)
    ensures Dominates(Apply(f, c, p), Apply(a, c, p), p)
  {
    ApplyKeepsRange(f, c, p);
    ApplyKeepsRange(a, c, p);
    DominatesLater(f, a, c.now, p);
    NoDecayAtOnce(Apply(a, c, p), p);
    var s, t, w := Current(f, c.now, p), Current(a, c.now, p), WeightFor(c.obs.reason);
    var x, y := Damping(f.subnetsSeen, c.obs.subnet, p.diversityRepeat), Damping(a.subnetsSeen, c.obs.subnet, p.diversityRepeat);
    VotePointsBounds(s, c.obs.trust, w, x);
    VotePointsBounds(t, c.obs.trust, w, y);
    if x == y { VoteKeepsGap(t, s, 0.0, c.obs.trust, w, x, x); } else { Untrusted(t, w, y); Untrusted(s, w, x); }
    hide VotePoints, WeightFor, Damping, DecayScore;
  }

  lemma Untrusted(s: real, weight: real, div: real)
    ensures VotePoints(s, 0.0, weight, div) == 0.0
  {
  }

  lemma DisputeKeepsDominance(f: ScoreRecord, a: ScoreRecord, c: Change, p: Params)
    requires ValidParams(p) && ValidChange(c) && c.Dispute? && Dominates(f, a, p) && f.lastSeen <= c.now
    ensures Dominates(Apply(f, c, p), Apply(a, c, p), p)
  {
    ApplyKeepsRange(f, c, p);
    ApplyKeepsRange(a, c, p);
    DominatesLater(f, a, c.now, p);
    NoDecayAtOnce(Apply(a, c, p), p);
    var s, t := Current(f, c.now, p), Current(a, c.now, p);
    if c.obs.anchored {
      DisputeKeepsGap(t, s, 0.0, c.obs.trust, p.disputeWeight, Damping(f.disputeSubnetsSeen, c.obs.subnet, p.diversityRepeat));
      hide DisputePoints, Damping, DecayScore;
    } else {
      hide Apply, Times, Power, Current;
      StrangerDisputeIs(f, c, p);
      StrangerDisputeIs(a, c, p);
      var k := Power(c.obs.trust, p.disputeWeight, 1.0) / 100.0;
      DearerDispute(s, t, f.disputeContrib, a.disputeContrib, p.strangerCap, k);
    }
  }

  /** The higher score pays more of its smaller budget, and stays the higher. */
  lemma DearerDispute(s: real, t: real, spentS: real, spentT: real, cap: real, k: real)
    requires 0.0 <= t <= s && 0.0 <= spentT <= spentS <= cap && 0.0 <= k
    ensures var x, y := Min(Times(s, k), Max(cap - spentS, 0.0)), Min(Times(t, k), Max(cap - spentT, 0.0));
            Max(t - y, 0.0) <= Max(s - x, 0.0) && spentT + y <= spentS + x
  {
    TimesMonotone(t, s, k, k);
    TimesSplits(s, t, s - t, k);
    if k <= 1.0 {
      TimesShrinks(s - t, k);
      TimesShrinks(s, k);
      TimesShrinks(t, k);
    } else {
      TimesMonotone(1.0, k, t, t);
      TimesCommutes(k, t);
      assert Times(1.0, t) == t;
    }
  }

  lemma StrangerKeepsDominance(f: ScoreRecord, a: ScoreRecord, c: Change, p: Params)
    requires ValidParams(p) && ValidChange(c) && FromStranger(c) && Dominates(f, a, p) && f.lastSeen <= c.now
    ensures Dominates(Apply(f, c, p), a, p)
  {
    ApplyKeepsRange(f, c, p);
    DominatesLater(f, a, c.now, p);
    VotePointsBounds(Current(f, c.now, p), c.obs.trust, WeightFor(c.obs.reason),
                     Damping(f.subnetsSeen, c.obs.subnet, p.diversityRepeat));
    hide VotePoints, WeightFor, DecayScore;
  }

  /** A sweep costs the run that was seen later no more ticks. */
  lemma SweepKeepsDominance(f: ScoreRecord, a: ScoreRecord, c: Change, p: Params)
    requires ValidParams(p) && ValidChange(c) && c.Swept? && Dominates(f, a, p) && f.lastSeen <= c.now
    ensures Dominates(Apply(f, c, p), Apply(a, c, p), p)
  {
    ApplyKeepsRange(f, c, p);
    ApplyKeepsRange(a, c, p);
    DominatesLater(f, a, c.now, p);
    var swept := Apply(a, c, p);
    DecayBounds(swept.score, swept.lastSeen, f.lastSeen, p.halfLife);
    hide DecayScore;
  }

  lemma {:induction false} RunsStayDominated(h: seq<Change>, p: Params)
    requires ValidParams(p) && ClockOrdered(h) && (p.diversityRepeat == 1.0 || !Usurped(h))
    ensures Dominates(Replay(h, p), Replay(WithoutStrangers(h), p), p)
    ensures Replay(h, p).lastSeen <= if h == [] then 0 else h[|h| - 1].now
  {
    hide *;
    if h == [] {
      EmptyDominates(p);
    } else {
      var g, c := h[..|h| - 1], h[|h| - 1];
      assert g + [c] == h;
      OrderedParts(h);
      UsurpedSnoc(g, c);
      RunsStayDominated(g, p);
      ReplaySnoc(g, c, p);
      WithoutSnoc(g, c, p);
      DominatesStep(g, c, p);
      LastSeenStep(Replay(g, p), c, p);
    }
  }

  lemma EmptyDominates(p: Params)
    requires ValidParams(p)
    ensures Dominates(Replay([], p), Replay(WithoutStrangers([]), p), p) && Replay([], p).lastSeen == 0
  {
    NoDecayAtOnce(EMPTY_RECORD, p);
  }

  lemma DominatesStep(g: seq<Change>, c: Change, p: Params)
    requires ValidParams(p) && ValidChange(c) && Dominates(Replay(g, p), Replay(WithoutStrangers(g), p), p)
    requires Replay(g, p).lastSeen <= c.now && (p.diversityRepeat == 1.0 || !Usurps(g + [c], |g|))
    ensures var a := Replay(WithoutStrangers(g), p);
            Dominates(Apply(Replay(g, p), c, p), if FromStranger(c) then a else Apply(a, c, p), p)
  {
    hide Apply, Dominates, Replay, WithoutStrangers, Usurps;
    var f, a := Replay(g, p), Replay(WithoutStrangers(g), p);
    match c {
      case Report(obs, _) =>
        if obs.anchored {
          DampedAlike(g, c, p);
          ReportKeepsDominance(f, a, c, p);
        } else {
          StrangerKeepsDominance(f, a, c, p);
        }
      case Dispute(obs, _) => DisputeKeepsDominance(f, a, c, p);
      case Swept(_) => SweepKeepsDominance(f, a, c, p);
    }
  }

  /** If a repeated subnet counts in full, or nobody's subnet is usurped, then deleting the strangers'
      reports never raises the score, whenever it is read. */
  lemma StrangersNeverLower(h: seq<Change>, now: Time, p: Params)
    requires ValidParams(p) && StrangerExact.ReadAt(h, now) && (p.diversityRepeat == 1.0 || !Usurped(h))
    ensures Current(Replay(h, p), now, p) >= Current(Replay(WithoutStrangers(h), p), now, p)
  {
    RunsStayDominated(h, p);
    hide Replay, WithoutStrangers, Current, Usurped;
    DominatesLater(Replay(h, p), Replay(WithoutStrangers(h), p), now, p);
  }

  // ---------------------------------------------------------------- usurping lowers

  /** Parameters under which strangers can do nothing but damp. */
  const DAMPING_ONLY := Params(NoDecay, 0.0, 0.5, 1.0)

  /** The full run stands no higher, and lower once a subnet was usurped. */
  ghost predicate Behind(f: ScoreRecord, a: ScoreRecord, lower: bool) {
    && InRange(f, DAMPING_ONLY) && InRange(a, DAMPING_ONLY)
    && f.score <= a.score < 100.0 && (lower ==> f.score < a.score)
    && a.disputeSubnetsSeen == f.disputeSubnetsSeen
  }

  lemma DampedVote(s: real, t: real, trust: real, weight: real, lo: real, hi: real, lower: bool)
    requires 0.0 <= s <= t < 100.0 && 0.0 <= trust <= 1.0 && 0.0 <= weight <= 50.0 && 0.0 <= lo <= hi <= 1.0
    requires lower ==> s < t || (trust > 0.0 && weight > 0.0 && lo < hi)
    ensures s + VotePoints(s, trust, weight, lo) <= t + VotePoints(t, trust, weight, hi) < 100.0
    ensures lower ==> s + VotePoints(s, trust, weight, lo) < t + VotePoints(t, trust, weight, hi)
  {
    PowerMonotone(trust, weight, lo, hi);
    PowerBounds(trust, weight, hi);
    GapShrinks(s, trust, weight, lo);
    GapShrinks(t, trust, weight, hi);
    var x, y := 1.0 - Power(trust, weight, lo) / 100.0, 1.0 - Power(trust, weight, hi) / 100.0;
    TimesSign(100.0 - t, y);
    TimesOrder(100.0 - s, y, x);
    TimesOrder(y, 100.0 - t, 100.0 - s);
    TimesCommutes(y, 100.0 - t);
    TimesCommutes(y, 100.0 - s);
    if trust > 0.0 && weight > 0.0 && lo < hi {
      TimesSign(trust, weight);
      TimesOrder(Times(trust, weight), lo, hi);
      assert Power(trust, weight, lo) == Times(Times(trust, weight), lo) && Power(trust, weight, hi) == Times(Times(trust, weight), hi);
    }
  }

  lemma ReportKeepsBehind(g: seq<Change>, f: ScoreRecord, a: ScoreRecord, c: Change, lower: bool)
    requires ValidChange(c) && AnchoredReport(c) && Behind(f, a, lower)
    requires c.obs.subnet in a.subnetsSeen ==> c.obs.subnet in f.subnetsSeen
    requires Usurps(g + [c], |g|) ==>
               c.obs.trust > 0.0 && c.obs.subnet != "" && c.obs.subnet in f.subnetsSeen && c.obs.subnet !in a.subnetsSeen
    ensures Behind(Apply(f, c, DAMPING_ONLY), Apply(a, c, DAMPING_ONLY), lower || Usurps(g + [c], |g|))
  {
    var p := DAMPING_ONLY;
    ApplyKeepsRange(f, c, p);
    ApplyKeepsRange(a, c, p);
    assert Current(f, c.now, p) == f.score && Current(a, c.now, p) == a.score;
    var w := WeightFor(c.obs.reason);
    var lo, hi := Damping(f.subnetsSeen, c.obs.subnet, 0.5), Damping(a.subnetsSeen, c.obs.subnet, 0.5);
    assert Usurps(g + [c], |g|) ==> lo < hi;
    DampedVote(f.score, a.score, c.obs.trust, w, lo, hi, lower || Usurps(g + [c], |g|));
    VotePointsBounds(f.score, c.obs.trust, w, lo);
    hide VotePoints, WeightFor, Damping, Usurps;
  }

  lemma DisputeKeepsBehind(f: ScoreRecord, a: ScoreRecord, c: Change, lower: bool)
    requires ValidChange(c) && c.Dispute? && Behind(f, a, lower)
    ensures Behind(Apply(f, c, DAMPING_ONLY), Apply(a, c, DAMPING_ONLY), lower)
  {
    var p := DAMPING_ONLY;
    ApplyKeepsRange(f, c, p);
    ApplyKeepsRange(a, c, p);
    assert Current(f, c.now, p) == f.score && Current(a, c.now, p) == a.score;
    var div := if c.obs.anchored then Damping(f.disputeSubnetsSeen, c.obs.subnet, 0.5) else 1.0;
    DisputeScales(f.score, c.obs.trust, 1.0, div);
    DisputeScales(a.score, c.obs.trust, 1.0, div);
    PowerBounds(c.obs.trust, 1.0, div);
    var k := Max(1.0 - Power(c.obs.trust, 1.0, div) / 100.0, 0.0);
    TimesOrder(k, f.score, a.score);
    TimesCommutes(k, f.score);
    TimesCommutes(k, a.score);
    TimesShrinks(a.score, k);
    hide DisputePoints, Damping, Power, Times;
  }

  lemma OthersKeepBehind(f: ScoreRecord, a: ScoreRecord, c: Change, lower: bool)
    requires ValidChange(c) && (FromStranger(c) || c.Swept?) && Behind(f, a, lower)
    ensures Behind(Apply(f, c, DAMPING_ONLY), if FromStranger(c) then a else Apply(a, c, DAMPING_ONLY), lower)
  {
    var p := DAMPING_ONLY;
    if FromStranger(c) {
      ApplyKeepsRange(f, c, p);
      assert Current(f, c.now, p) == f.score;
      VotePointsBounds(f.score, c.obs.trust, WeightFor(c.obs.reason), Damping(f.subnetsSeen, c.obs.subnet, 0.5));
      hide VotePoints, WeightFor, Damping;
    } else {
      IdleSweep(f, c, p);
      IdleSweep(a, c, p);
    }
  }

  lemma BehindStep(g: seq<Change>, c: Change, lower: bool)
    requires ValidChange(c) && Behind(Replay(g, DAMPING_ONLY), Replay(WithoutStrangers(g), DAMPING_ONLY), lower)
    ensures var f, a := Replay(g, DAMPING_ONLY), Replay(WithoutStrangers(g), DAMPING_ONLY);
            Behind(Apply(f, c, DAMPING_ONLY), if FromStranger(c) then a else Apply(a, c, DAMPING_ONLY), lower || Usurps(g + [c], |g|))
  {
    hide Apply, Behind, Replay, WithoutStrangers, StrangerSubnet, AnchoredSubnet;
    var f, a := Replay(g, DAMPING_ONLY), Replay(WithoutStrangers(g), DAMPING_ONLY);
    if AnchoredReport(c) {
      DampedAlike(g, c, DAMPING_ONLY);
      ReportKeepsBehind(g, f, a, c, lower);
    } else if c.Dispute? {
      DisputeKeepsBehind(f, a, c, lower);
    } else {
      OthersKeepBehind(f, a, c, lower);
    }
  }

  lemma {:induction false} RunsFallBehind(h: seq<Change>)
    requires ValidHistory(h)
    ensures Behind(Replay(h, DAMPING_ONLY), Replay(WithoutStrangers(h), DAMPING_ONLY), Usurped(h))
  {
    hide *;
    if h == [] {
      NobodyBehind();
    } else {
      var g, c := h[..|h| - 1], h[|h| - 1];
      assert g + [c] == h;
      HistoryParts(h);
      UsurpedSnoc(g, c);
      RunsFallBehind(g);
      ReplaySnoc(g, c, DAMPING_ONLY);
      WithoutSnoc(g, c, DAMPING_ONLY);
      BehindStep(g, c, Usurped(g));
    }
  }

  lemma NobodyBehind()
    ensures Behind(Replay([], DAMPING_ONLY), Replay(WithoutStrangers([]), DAMPING_ONLY), Usurped([]))
  {
  }

  lemma HistoryParts(h: seq<Change>)
    requires ValidHistory(h) && h != []
    ensures ValidHistory(h[..|h| - 1]) && ValidChange(h[|h| - 1])
  {
    hide ValidChange;
  }

  /** At some reading, under some valid parameters, the strangers' reports have lowered the score. */
  ghost predicate CanLower(h: seq<Change>) {
    exists p: Params, now: Time ::
      && ValidParams(p) && StrangerExact.ReadAt(h, now)
      && Current(Replay(h, p), now, p) < Current(Replay(WithoutStrangers(h), p), now, p)
  }

  /** Strangers can lower a score iff a trusted anchored report is the first anchored one of a subnet
      that a stranger named earlier. */
  lemma LoweringIsExact(h: seq<Change>)
    requires ClockOrdered(h)
    ensures CanLower(h) <==> Usurped(h)
  {
    if !Usurped(h) {
      forall p: Params, now: Time | ValidParams(p) && StrangerExact.ReadAt(h, now)
        ensures Current(Replay(h, p), now, p) >= Current(Replay(WithoutStrangers(h), p), now, p)
      {
        StrangersNeverLower(h, now, p);
      }
    } else {
      RunsFallBehind(h);
      hide Replay, WithoutStrangers, Usurped;
      var p, now := DAMPING_ONLY, if h == [] then 0 else h[|h| - 1].now;
      assert ValidParams(p) && StrangerExact.ReadAt(h, now);
      assert Current(Replay(h, p), now, p) < Current(Replay(WithoutStrangers(h), p), now, p);
    }
  }

  // ---------------------------------------------------------------- one configuration

  /** Some history and reading at which the strangers' reports have lowered the score. */
  ghost predicate LowersSomewhere(p: Params) {
    exists h: seq<Change>, now: Time ::
      StrangerExact.ReadAt(h, now) && Current(Replay(h, p), now, p) < Current(Replay(WithoutStrangers(h), p), now, p)
  }

  function Named(trust: real, anchored: bool): Change { Report(Observation("", "r", "", trust, anchored, "x"), 1) }

  /** A stranger worth less than the damping costs, then the first anchored report of its subnet. */
  lemma NamedFirst(p: Params)
    requires ValidParams(p) && p.diversityRepeat < 1.0
    ensures var s, a := Named((1.0 - p.diversityRepeat) / 2.0, false), Named(1.0, true);
            Apply(Apply(EMPTY_RECORD, s, p), a, p).score < Apply(EMPTY_RECORD, a, p).score
  {
    var r := p.diversityRepeat;
    var s, a := Named((1.0 - r) / 2.0, false), Named(1.0, true);
    var first := Apply(EMPTY_RECORD, s, p);
    NoDecayAtOnce(first, p);
    assert WeightFor("") == 2.0;
    assert first.subnetsSeen == ["x"] && 0.0 <= first.score <= 1.0 - r;
    assert VotePoints(first.score, 1.0, 2.0, r) == Times(2.0 - first.score / 50.0, r);
    TimesMonotone(2.0 - first.score / 50.0, 2.0, r, r);
    assert Times(2.0, r) == 2.0 * r;
    hide Times;
  }

  /** For a configuration: strangers never lower any score iff a repeated subnet counts in full. */
  lemma LoweringPerConfiguration(p: Params)
    requires ValidParams(p)
    ensures !LowersSomewhere(p) <==> p.diversityRepeat == 1.0
  {
    if p.diversityRepeat == 1.0 {
      forall h: seq<Change>, now: Time | StrangerExact.ReadAt(h, now)
        ensures Current(Replay(h, p), now, p) >= Current(Replay(WithoutStrangers(h), p), now, p)
      {
        StrangersNeverLower(h, now, p);
      }
    } else {
      var s, a := Named((1.0 - p.diversityRepeat) / 2.0, false), Named(1.0, true);
      NamedFirst(p);
      TwoReports(s, a, p);
      NoDecayAtOnce(Replay([s, a], p), p);
      NoDecayAtOnce(Replay(WithoutStrangers([s, a]), p), p);
      LastSeenStep(Apply(EMPTY_RECORD, s, p), a, p);
      LastSeenStep(EMPTY_RECORD, a, p);
      hide Apply, Replay, WithoutStrangers, Current;
      assert StrangerExact.ReadAt([s, a], 1);
    }
  }

  lemma TwoReports(s: Change, a: Change, p: Params)
    requires FromStranger(s) && !FromStranger(a)
    ensures Replay([s, a], p) == Apply(Apply(EMPTY_RECORD, s, p), a, p)
    ensures Replay(WithoutStrangers([s, a]), p) == Apply(EMPTY_RECORD, a, p)
  {
    hide Apply, FromStranger, Replay, WithoutStrangers;
    assert [] + [s] == [s] && [s] + [a] == [s, a];
    ReplaySnoc([], s, p);
    ReplaySnoc([s], a, p);
    WithoutSnoc([], s, p);
    WithoutSnoc([s], a, p);
  }
}
