/** The scoring algebra of internal/reputation: lazy decay, logistic accumulation under a
    cumulative stranger budget, proportional disputes, and the record they maintain. */
module Reputation {
  import opened Powers

  /** Clock reading in ticks; 0 is the zero time, which marks a record never written. */
  type Time = nat

  /** `PerTick(d)` keeps the fraction `d` of a score each tick; `NoDecay` is a half-life <= 0. */
  datatype HalfLife = NoDecay | PerTick(d: real)

  datatype Params = Params(
    halfLife: HalfLife,
    strangerCap: real,
    diversityRepeat: real,
    disputeWeight: real)

  ghost predicate ValidParams(p: Params) {
    && (p.halfLife.PerTick? ==> 0.0 < p.halfLife.d < 1.0)
    && 0.0 <= p.strangerCap
    && 0.0 < p.diversityRepeat <= 1.0
    && 0.0 < p.disputeWeight
  }

  datatype ScoreRecord = ScoreRecord(
    score: real,
    corroboration: nat,
    firstSeen: Time,
    lastSeen: Time,
    reasons: seq<string>,
    reporterIDs: seq<string>,
    groups: seq<string>,
    strangerSeen: bool,
    strangerContrib: real,
    subnetsSeen: seq<string>,
    disputeSubnetsSeen: seq<string>,
    disputeContrib: real)

  const EMPTY_RECORD := ScoreRecord(0.0, 0, 0, 0, [], [], [], false, 0.0, [], [], 0.0)

  datatype Observation = Observation(
    reason: string,
    reporterID: string,
    group: string,
    trust: real,
    anchored: bool,
    subnet: string)

  const DEFAULT_WEIGHT := 2.0

  function WeightFor(reason: string): (w: real)
    ensures DEFAULT_WEIGHT <= w <= 50.0
  {
    match reason
    case "ssh-auth-success" => 40.0
    case "ssh-auth-bruteforce" => 10.0
    case "ssh-post-auth-command" => 10.0
    case "ssh-probe" => 2.0
    case "ssh-unknown" => 2.0
    case "smtp-auth-bruteforce" => 10.0
    case "smtp-auth-success" => 40.0
    case "smtp-probe" => 2.0
    case "smtp-spamtrap" => 50.0
    case "imap-auth-bruteforce" => 10.0
    case "imap-auth-success" => 30.0
    case "imap-probe" => 2.0
    case "pop3-auth-bruteforce" => 10.0
    case _ => DEFAULT_WEIGHT
  }

  /** The scenarios in order of weight: a spamtrap hit, successful logins, attempts at them, and all else. */
  lemma ScenarioWeights(reason: string)
    ensures WeightFor("smtp-spamtrap") == 50.0
    ensures WeightFor("ssh-auth-success") == WeightFor("smtp-auth-success") == 40.0 && WeightFor("imap-auth-success") == 30.0
    ensures reason in {"ssh-auth-bruteforce", "ssh-post-auth-command", "smtp-auth-bruteforce", "imap-auth-bruteforce", "pop3-auth-bruteforce"} ==>
              WeightFor(reason) == 10.0
    ensures reason !in {"smtp-spamtrap", "ssh-auth-success", "smtp-auth-success", "imap-auth-success", "ssh-auth-bruteforce",
                        "ssh-post-auth-command", "smtp-auth-bruteforce", "imap-auth-bruteforce", "pop3-auth-bruteforce"} ==>
              WeightFor(reason) == 2.0
  {
  }

  function Min(x: real, y: real): real { if x <= y then x else y }

  function Max(x: real, y: real): real { if x >= y then x else y }

  // ---------------------------------------------------------------- decay

  function Elapsed(last: Time, now: Time): nat { if now < last then 0 else now - last }

  function Retention(h: HalfLife, ticks: nat): real {
    match h
    case NoDecay => 1.0
    case PerTick(d) => Pow(d, ticks)
  }

  function DecayScore(score: real, last: Time, now: Time, h: HalfLife): real {
    if score == 0.0 || h.NoDecay? then score else score * Retention(h, Elapsed(last, now))
  }

  ghost predicate ValidHalfLife(h: HalfLife) { h.PerTick? ==> 0.0 < h.d < 1.0 }

  lemma RetentionUnit(h: HalfLife, n: nat)
    requires ValidHalfLife(h)
    ensures 0.0 < Retention(h, n) <= 1.0
    ensures Retention(h, 0) == 1.0
  {
    if h.PerTick? { PowUnit(h.d, n); }
  }

  lemma RetentionAdd(h: HalfLife, m: nat, n: nat)
    ensures Retention(h, m + n) == Times(Retention(h, m), Retention(h, n))
  {
    if h.PerTick? { PowAdd(h.d, m, n); }
  }

  /** Whatever the score, decay multiplies it by the retained fraction. */
  lemma DecayIsScaling(s: real, last: Time, now: Time, h: HalfLife)
    ensures DecayScore(s, last, now, h) == Times(s, Retention(h, Elapsed(last, now)))
  {
  }

  lemma DecayBounds(s: real, last: Time, now: Time, h: HalfLife)
    requires ValidHalfLife(h) && 0.0 <= s
    ensures 0.0 <= DecayScore(s, last, now, h) <= s
  {
    DecayIsScaling(s, last, now, h);
    RetentionUnit(h, Elapsed(last, now));
    TimesShrinks(s, Retention(h, Elapsed(last, now)));
  }

  /** No decay for a reading at or before the last one, nor without a half-life. */
  lemma DecayNeverRunsBack(s: real, last: Time, now: Time, h: HalfLife)
    requires now <= last || h.NoDecay?
    ensures DecayScore(s, last, now, h) == s
  {
    DecayIsScaling(s, last, now, h);
    if now <= last && h.PerTick? { assert Pow(h.d, 0) == 1.0; }
  }

  /** Reading a score at `b` and again at `c` loses nothing against reading it once at `c`. */
  lemma DecayComposes(s: real, a: Time, b: Time, c: Time, h: HalfLife)
    requires a <= b <= c
    ensures DecayScore(DecayScore(s, a, b, h), b, c, h) == DecayScore(s, a, c, h)
  {
    DecayIsScaling(s, a, b, h);
    DecayIsScaling(DecayScore(s, a, b, h), b, c, h);
    DecayIsScaling(s, a, c, h);
    RetentionAdd(h, b - a, c - b);
    TimesAssociates(s, Retention(h, b - a), Retention(h, c - b));
    assert Elapsed(a, c) == (b - a) + (c - b);
  }

  /** After the number of ticks in which the retained fraction halves, so has the score. */
  lemma HalfLifeHalves(s: real, last: Time, half: nat, d: real)
    requires Pow(d, half) == 0.5
    ensures DecayScore(s, last, last + half, PerTick(d)) == s / 2.0
  {
    DecayIsScaling(s, last, last + half, PerTick(d));
  }

  // ---------------------------------------------------------------- accumulation

  function AppendNew(xs: seq<string>, x: string): seq<string> {
    if x in xs then xs else xs + [x]
  }

  /** The stored score brought forward to `now`. */
  function Current(rec: ScoreRecord, now: Time, p: Params): real {
    if rec.lastSeen != 0 then DecayScore(rec.score, rec.lastSeen, now, p.halfLife) else rec.score
  }

  /** A subnet already on the list counts for less; the empty subnet is never damped. */
  function Damping(seen: seq<string>, subnet: string, repeat: real): real {
    if subnet != "" && subnet in seen then repeat else 1.0
  }

  /** Points an un-capped report adds to score `s`. */
  function VotePoints(s: real, trust: real, weight: real, div: real): real {
    trust * weight * (1.0 - s / 100.0) * div
  }

  /** Points an un-capped dispute takes from score `s`. */
  function DisputePoints(s: real, trust: real, weight: real, div: real): real {
    trust * weight * (s / 100.0) * div
  }

  function Accumulate(rec: ScoreRecord, obs: Observation, now: Time, p: Params): ScoreRecord {
    var s := Current(rec, now, p);
    var full := VotePoints(s, obs.trust, WeightFor(obs.reason),
                           Damping(rec.subnetsSeen, obs.subnet, p.diversityRepeat));
    var contrib := if obs.anchored then full else Min(full, Max(p.strangerCap - rec.strangerContrib, 0.0));
    var groups := if obs.anchored && obs.group != "" then AppendNew(rec.groups, obs.group) else rec.groups;
    rec.(score := Min(s + contrib, 100.0),
         corroboration := |groups|,
         firstSeen := if rec.firstSeen == 0 then now else rec.firstSeen,
         lastSeen := now,
         reasons := AppendNew(rec.reasons, obs.reason),
         reporterIDs := AppendNew(rec.reporterIDs, obs.reporterID),
         groups := groups,
         strangerSeen := rec.strangerSeen || !obs.anchored,
         strangerContrib := if obs.anchored then rec.strangerContrib else rec.strangerContrib + contrib,
         subnetsSeen := if obs.subnet != "" then AppendNew(rec.subnetsSeen, obs.subnet) else rec.subnetsSeen)
  }

  function ApplyDispute(rec: ScoreRecord, obs: Observation, now: Time, p: Params): ScoreRecord {
    var s := Current(rec, now, p);
    var diversity := if obs.anchored then Damping(rec.disputeSubnetsSeen, obs.subnet, p.diversityRepeat) else 1.0;
    var full := DisputePoints(s, obs.trust, p.disputeWeight, diversity);
    var reduction := if obs.anchored then full else Min(full, Max(p.strangerCap - rec.disputeContrib, 0.0));
    rec.(score := Max(s - reduction, 0.0),
         lastSeen := now,
         disputeContrib := if obs.anchored then rec.disputeContrib else rec.disputeContrib + reduction,
         disputeSubnetsSeen := if obs.anchored && obs.subnet != ""
                               then AppendNew(rec.disputeSubnetsSeen, obs.subnet)
                               else rec.disputeSubnetsSeen)
  }

  /** A decay sweep stores the decayed score and leaves `lastSeen` where it was. */
  function Sweep(rec: ScoreRecord, now: Time, p: Params): ScoreRecord {
    if rec.lastSeen == 0 then rec
    else rec.(score := DecayScore(rec.score, rec.lastSeen, now, p.halfLife))
  }

  lemma NoDecayAtOnce(rec: ScoreRecord, p: Params)
    ensures Current(rec, rec.lastSeen, p) == rec.score
  {
    DecayIsScaling(rec.score, rec.lastSeen, rec.lastSeen, p.halfLife);
    assert Retention(p.halfLife, 0) == 1.0;
  }

  // ---------------------------------------------------------------- histories

  /** Everything that ever changes one key's record. */
  datatype Change =
    | Report(obs: Observation, now: Time)
    | Dispute(obs: Observation, now: Time)
    | Swept(now: Time)

  function Apply(rec: ScoreRecord, c: Change, p: Params): ScoreRecord {
    match c
    case Report(obs, now) => Accumulate(rec, obs, now, p)
    case Dispute(obs, now) => ApplyDispute(rec, obs, now, p)
    case Swept(now) => Sweep(rec, now, p)
  }

  function Replay(h: seq<Change>, p: Params): ScoreRecord {
    if h == [] then EMPTY_RECORD else Apply(Replay(h[..|h| - 1], p), h[|h| - 1], p)
  }

  lemma ReplaySnoc(h: seq<Change>, c: Change, p: Params)
    ensures Replay(h + [c], p) == Apply(Replay(h, p), c, p)
    ensures Replay([], p) == EMPTY_RECORD
  {
    hide Apply;
    assert (h + [c])[..|h + [c]| - 1] == h;
  }

  predicate ValidObservation(obs: Observation) { 0.0 <= obs.trust <= 1.0 }

  predicate ValidChange(c: Change) {
    1 <= c.now && (c.Swept? || ValidObservation(c.obs))
  }

  predicate ValidHistory(h: seq<Change>) { forall i :: 0 <= i < |h| ==> ValidChange(h[i]) }

  ghost predicate AnchoredReport(c: Change) { c.Report? && c.obs.anchored }

  ghost predicate AnchoredDispute(c: Change) { c.Dispute? && c.obs.anchored }

  ghost predicate DuplicateFree(xs: seq<string>) {
    forall i, j :: 0 <= i < j < |xs| ==> xs[i] != xs[j]
  }

  // ---------------------------------------------------------------- one step's arithmetic

  /** The power of a vote, in points out of 100. */
  function Power(trust: real, weight: real, div: real): real { trust * weight * div }

  lemma PowerBounds(trust: real, weight: real, div: real)
    requires 0.0 <= trust <= 1.0 && 0.0 <= weight <= 50.0 && 0.0 <= div <= 1.0
    ensures 0.0 <= Power(trust, weight, div) <= 50.0
  {
    TimesShrinks(weight, trust);
    TimesCommutes(weight, trust);
    TimesShrinks(Times(trust, weight), div);
    assert Power(trust, weight, div) == Times(Times(trust, weight), div);
  }

  lemma VotePointsAre(s: real, trust: real, weight: real, div: real)
    ensures VotePoints(s, trust, weight, div) == Times(Power(trust, weight, div), 1.0 - s / 100.0)
  {
    var x, u := Times(trust, weight), 1.0 - s / 100.0;
    TimesAssociates(x, u, div);
    TimesCommutes(u, div);
    TimesAssociates(x, div, u);
  }

  lemma GapIdentity(s: real, q: real)
    ensures Times(100.0 - s, 1.0 - q / 100.0) == 100.0 - s - Times(q, 1.0 - s / 100.0)
  {
  }

  /** An un-capped report is affine in the score: it shrinks the gap to 100 by 1 - q/100. */
  lemma GapShrinks(s: real, trust: real, weight: real, div: real)
    ensures 100.0 - (s + VotePoints(s, trust, weight, div)) == Times(100.0 - s, 1.0 - Power(trust, weight, div) / 100.0)
  {
    VotePointsAre(s, trust, weight, div);
    GapIdentity(s, Power(trust, weight, div));
  }

  lemma VotePointsBounds(s: real, trust: real, weight: real, div: real)
    requires 0.0 <= s <= 100.0 && 0.0 <= trust <= 1.0 && 0.0 <= weight <= 50.0 && 0.0 <= div <= 1.0
    ensures 0.0 <= VotePoints(s, trust, weight, div)
    ensures s + VotePoints(s, trust, weight, div) <= 100.0
  {
    PowerBounds(trust, weight, div);
    GapShrinks(s, trust, weight, div);
    TimesShrinks(100.0 - s, 1.0 - Power(trust, weight, div) / 100.0);
  }

  /** An un-capped dispute scales the score by one minus its power. */
  lemma DisputeScales(s: real, trust: real, weight: real, div: real)
    requires 0.0 <= s && 0.0 <= trust && 0.0 <= weight && 0.0 <= div
    ensures var k := Power(trust, weight, div) / 100.0;
            && 0.0 <= k
            && 0.0 <= DisputePoints(s, trust, weight, div)
            && Max(s - DisputePoints(s, trust, weight, div), 0.0) == Times(s, Max(1.0 - k, 0.0))
  {
    var x := Times(trust, weight);
    TimesSign(trust, weight);
    TimesSign(x, div);
    assert Power(trust, weight, div) == Times(x, div);
    var k := Power(trust, weight, div) / 100.0;
    DisputePointsAre(s, trust, weight, div);
    TimesSign(s, k);
    TimesSplits(1.0, k, 1.0 - k, s);
    assert Times(s, 1.0) == s;
    TimesSign(s, 1.0 - k);
    TimesSign(s, k - 1.0);
    TimesSplits(0.0, 1.0 - k, k - 1.0, s);
    TimesSign(s, 0.0);
  }

  lemma DisputePointsAre(s: real, trust: real, weight: real, div: real)
    ensures DisputePoints(s, trust, weight, div) == Times(s, Power(trust, weight, div) / 100.0)
  {
    var x, u := Times(trust, weight), s / 100.0;
    TimesAssociates(x, u, div);
    TimesCommutes(u, div);
    TimesAssociates(x, div, u);
    ScaleMoves(Power(trust, weight, div), s);
  }

  lemma ScaleMoves(q: real, s: real)
    ensures Times(q, s / 100.0) == Times(s, q / 100.0)
  {
  }

  /** An anchored report closes a fixed share of the gap between the decayed score and 100, its
      trust times its weight in points, less when its subnet was seen before. */
  lemma AnchoredReportClosesGap(rec: ScoreRecord, obs: Observation, now: Time, p: Params)
    requires ValidParams(p) && InRange(rec, p) && ValidObservation(obs) && obs.anchored
    ensures var q := Power(obs.trust, WeightFor(obs.reason), Damping(rec.subnetsSeen, obs.subnet, p.diversityRepeat));
            100.0 - Accumulate(rec, obs, now, p).score == Times(100.0 - Current(rec, now, p), 1.0 - q / 100.0)
  {
    var s, div := Current(rec, now, p), Damping(rec.subnetsSeen, obs.subnet, p.diversityRepeat);
    DecayBounds(rec.score, rec.lastSeen, now, p.halfLife);
    VotePointsBounds(s, obs.trust, WeightFor(obs.reason), div);
    GapShrinks(s, obs.trust, WeightFor(obs.reason), div);
    hide VotePoints, Power, WeightFor, Damping, Times, DecayScore;
  }

  /** An anchored dispute scales the decayed score down by its power, to zero at the least. */
  lemma AnchoredDisputeScales(rec: ScoreRecord, obs: Observation, now: Time, p: Params)
    requires ValidParams(p) && InRange(rec, p) && ValidObservation(obs) && obs.anchored
    ensures var k := Power(obs.trust, p.disputeWeight, Damping(rec.disputeSubnetsSeen, obs.subnet, p.diversityRepeat)) / 100.0;
            ApplyDispute(rec, obs, now, p).score == Times(Current(rec, now, p), Max(1.0 - k, 0.0))
  {
    var s, div := Current(rec, now, p), Damping(rec.disputeSubnetsSeen, obs.subnet, p.diversityRepeat);
    DecayBounds(rec.score, rec.lastSeen, now, p.halfLife);
    DisputeScales(s, obs.trust, p.disputeWeight, div);
    hide DisputePoints, Power, Damping, Times, DecayScore;
  }

  // ---------------------------------------------------------------- records are functions of history

  /** Score and budgets stay in range. */
  ghost predicate InRange(rec: ScoreRecord, p: Params) {
    && 0.0 <= rec.score <= 100.0
    && 0.0 <= rec.strangerContrib <= p.strangerCap
    && 0.0 <= rec.disputeContrib <= p.strangerCap
  }

  lemma ApplyKeepsRange(rec: ScoreRecord, c: Change, p: Params)
    requires ValidParams(p) && ValidChange(c) && InRange(rec, p)
    ensures InRange(Apply(rec, c, p), p)
  {
    DecayBounds(rec.score, rec.lastSeen, c.now, p.halfLife);
    var s := Current(rec, c.now, p);
    match c
    case Report(obs, now) =>
      VotePointsBounds(s, obs.trust, WeightFor(obs.reason), Damping(rec.subnetsSeen, obs.subnet, p.diversityRepeat));
    case Dispute(obs, now) =>
      var div := if obs.anchored then Damping(rec.disputeSubnetsSeen, obs.subnet, p.diversityRepeat) else 1.0;
      DisputeScales(s, obs.trust, p.disputeWeight, div);
      assert 0.0 <= DisputePoints(s, obs.trust, p.disputeWeight, div);
    case Swept(now) =>
  }

  lemma {:induction false} ReplayInRange(h: seq<Change>, p: Params)
    requires ValidParams(p) && ValidHistory(h)
    ensures InRange(Replay(h, p), p)
  {
    if h != [] {
      ReplayInRange(h[..|h| - 1], p);
      ApplyKeepsRange(Replay(h[..|h| - 1], p), h[|h| - 1], p);
    }
  }

  /** `g` names the Person behind some anchored report of the history. */
  ghost predicate ReportingGroup(h: seq<Change>, g: string) {
    g != "" && exists i :: 0 <= i < |h| && AnchoredReport(h[i]) && h[i].obs.group == g
  }

  ghost predicate ReportingSubnet(h: seq<Change>, u: string) {
    u != "" && exists i :: 0 <= i < |h| && h[i].Report? && h[i].obs.subnet == u
  }

  ghost predicate AnchoredDisputingSubnet(h: seq<Change>, u: string) {
    u != "" && exists i :: 0 <= i < |h| && AnchoredDispute(h[i]) && h[i].obs.subnet == u
  }

  ghost predicate StrangerReported(h: seq<Change>) {
    exists i :: 0 <= i < |h| && h[i].Report? && !h[i].obs.anchored
  }

  /** The record's lists name exactly the distinct contributors of a history. */
  ghost predicate ListsOf(rec: ScoreRecord, h: seq<Change>) {
    && DuplicateFree(rec.groups) && DuplicateFree(rec.subnetsSeen) && DuplicateFree(rec.disputeSubnetsSeen)
    && rec.corroboration == |rec.groups|
    && (forall g :: g in rec.groups <==> ReportingGroup(h, g))
    && (forall u :: u in rec.subnetsSeen <==> ReportingSubnet(h, u))
    && (forall u :: u in rec.disputeSubnetsSeen <==> AnchoredDisputingSubnet(h, u))
    && (rec.strangerSeen <==> StrangerReported(h))
  }

  /** How one change updates the lists. */
  ghost predicate ListsStep(before: ScoreRecord, after: ScoreRecord, c: Change) {
    && after.groups == (if AnchoredReport(c) && c.obs.group != "" then AppendNew(before.groups, c.obs.group) else before.groups)
    && after.subnetsSeen == (if c.Report? && c.obs.subnet != "" then AppendNew(before.subnetsSeen, c.obs.subnet) else before.subnetsSeen)
    && after.disputeSubnetsSeen == (if AnchoredDispute(c) && c.obs.subnet != ""
                                    then AppendNew(before.disputeSubnetsSeen, c.obs.subnet) else before.disputeSubnetsSeen)
    && after.corroboration == (if c.Report? then |after.groups| else before.corroboration)
    && after.strangerSeen == (before.strangerSeen || (c.Report? && !c.obs.anchored))
  }

  lemma ApplyListsStep(rec: ScoreRecord, c: Change, p: Params)
    ensures ListsStep(rec, Apply(rec, c, p), c)
  {
  }

  lemma AppendNewIsSetInsert(xs: seq<string>, x: string)
    requires DuplicateFree(xs)
    ensures DuplicateFree(AppendNew(xs, x))
    ensures forall y :: y in AppendNew(xs, x) <==> y in xs || y == x
  {
  }

  lemma ContributorsExtend(g: seq<Change>, c: Change, x: string)
    ensures ReportingGroup(g + [c], x) <==> ReportingGroup(g, x) || (x != "" && AnchoredReport(c) && c.obs.group == x)
    ensures ReportingSubnet(g + [c], x) <==> ReportingSubnet(g, x) || (x != "" && c.Report? && c.obs.subnet == x)
    ensures AnchoredDisputingSubnet(g + [c], x) <==>
              AnchoredDisputingSubnet(g, x) || (x != "" && AnchoredDispute(c) && c.obs.subnet == x)
    ensures StrangerReported(g + [c]) <==> StrangerReported(g) || (c.Report? && !c.obs.anchored)
  {
    var h := g + [c];
    assert h[|g|] == c;
    assert forall i :: 0 <= i < |g| ==> h[i] == g[i];
  }

  lemma ListsExtend(before: ScoreRecord, after: ScoreRecord, g: seq<Change>, c: Change)
    requires ListsOf(before, g) && ListsStep(before, after, c)
    ensures ListsOf(after, g + [c])
  {
    if !c.Swept? {
      AppendNewIsSetInsert(before.groups, c.obs.group);
      AppendNewIsSetInsert(before.subnetsSeen, c.obs.subnet);
      AppendNewIsSetInsert(before.disputeSubnetsSeen, c.obs.subnet);
    }
    ContributorsExtend(g, c, "");
    forall x
      ensures x in after.groups <==> ReportingGroup(g + [c], x)
      ensures x in after.subnetsSeen <==> ReportingSubnet(g + [c], x)
      ensures x in after.disputeSubnetsSeen <==> AnchoredDisputingSubnet(g + [c], x)
    {
      ContributorsExtend(g, c, x);
    }
  }

  lemma {:induction false} ReplayLists(h: seq<Change>, p: Params)
    ensures ListsOf(Replay(h, p), h)
  {
    if h != [] {
      var g, c := h[..|h| - 1], h[|h| - 1];
      ReplayLists(g, p);
      ApplyListsStep(Replay(g, p), c, p);
      ListsExtend(Replay(g, p), Apply(Replay(g, p), c, p), g, c);
      assert g + [c] == h;
    }
  }

  ghost predicate ReportedReason(h: seq<Change>, x: string) { exists i :: 0 <= i < |h| && h[i].Report? && h[i].obs.reason == x }

  ghost predicate ReportedBy(h: seq<Change>, x: string) { exists i :: 0 <= i < |h| && h[i].Report? && h[i].obs.reporterID == x }

  /** Change `i` is the first report. */
  ghost predicate FirstReportAt(h: seq<Change>, i: int) {
    0 <= i < |h| && h[i].Report? && forall j :: 0 <= j < i ==> !h[j].Report?
  }

  /** Change `i` is the last report or dispute. */
  ghost predicate LastTouchAt(h: seq<Change>, i: int) {
    0 <= i < |h| && !h[i].Swept? && forall j :: i < j < |h| ==> h[j].Swept?
  }

  /** The record names the distinct reasons and reporters, the time of the first report and that of the last
      report or dispute. */
  ghost predicate NamesOf(rec: ScoreRecord, h: seq<Change>) {
    && DuplicateFree(rec.reasons) && DuplicateFree(rec.reporterIDs)
    && (forall x :: x in rec.reasons <==> ReportedReason(h, x)) && (forall x :: x in rec.reporterIDs <==> ReportedBy(h, x))
    && (forall i :: FirstReportAt(h, i) ==> rec.firstSeen == h[i].now)
    && (forall i :: LastTouchAt(h, i) ==> rec.lastSeen == h[i].now)
    && ((forall i :: 0 <= i < |h| ==> !h[i].Report?) ==> rec.firstSeen == 0)
    && ((forall i :: 0 <= i < |h| ==> h[i].Swept?) ==> rec.lastSeen == 0)
  }

  /** How one change updates them. */
  lemma NamesStep(rec: ScoreRecord, c: Change, p: Params)
    ensures var after := Apply(rec, c, p);
            && after.reasons == (if c.Report? then AppendNew(rec.reasons, c.obs.reason) else rec.reasons)
            && after.reporterIDs == (if c.Report? then AppendNew(rec.reporterIDs, c.obs.reporterID) else rec.reporterIDs)
            && after.firstSeen == (if c.Report? && rec.firstSeen == 0 then c.now else rec.firstSeen)
            && after.lastSeen == (if c.Swept? then rec.lastSeen else c.now)
  {
  }

  lemma NamesExtend(g: seq<Change>, c: Change, x: string)
    ensures ReportedReason(g + [c], x) <==> ReportedReason(g, x) || (c.Report? && c.obs.reason == x)
    ensures ReportedBy(g + [c], x) <==> ReportedBy(g, x) || (c.Report? && c.obs.reporterID == x)
  {
    var h := g + [c];
    assert h[|g|] == c;
    assert forall i :: 0 <= i < |g| ==> h[i] == g[i];
  }

  lemma TimesExtend(g: seq<Change>, c: Change)
    ensures forall i :: FirstReportAt(g + [c], i) ==> (i < |g| && FirstReportAt(g, i)) || (i == |g| && c.Report? && forall j :: 0 <= j < |g| ==> !g[j].Report?)
    ensures forall i :: LastTouchAt(g + [c], i) ==> (i < |g| && c.Swept? && LastTouchAt(g, i)) || (i == |g| && !c.Swept?)
  {
    var h := g + [c];
    assert h[|g|] == c;
    assert forall i :: 0 <= i < |g| ==> h[i] == g[i];
  }

  lemma {:induction false} FirstReportExists(h: seq<Change>)
    ensures (exists i :: FirstReportAt(h, i)) || forall i :: 0 <= i < |h| ==> !h[i].Report?
  {
    if h != [] {
      var n := |h| - 1;
      FirstReportExists(h[..n]);
      if i :| FirstReportAt(h[..n], i) { assert FirstReportAt(h, i); } else if h[n].Report? { assert FirstReportAt(h, n); }
    }
  }

  lemma NamesJoin(before: ScoreRecord, after: ScoreRecord, g: seq<Change>, c: Change)
    requires NamesOf(before, g) && ValidHistory(g + [c])
    requires after.reasons == (if c.Report? then AppendNew(before.reasons, c.obs.reason) else before.reasons)
    requires after.reporterIDs == (if c.Report? then AppendNew(before.reporterIDs, c.obs.reporterID) else before.reporterIDs)
    ensures DuplicateFree(after.reasons) && DuplicateFree(after.reporterIDs)
    ensures forall x :: x in after.reasons <==> ReportedReason(g + [c], x)
    ensures forall x :: x in after.reporterIDs <==> ReportedBy(g + [c], x)
  {
    hide ReportedReason, ReportedBy, FirstReportAt, LastTouchAt;
    if c.Report? {
      AppendNewIsSetInsert(before.reasons, c.obs.reason);
      AppendNewIsSetInsert(before.reporterIDs, c.obs.reporterID);
    }
    forall x
      ensures x in after.reasons <==> ReportedReason(g + [c], x)
      ensures x in after.reporterIDs <==> ReportedBy(g + [c], x)
    {
      NamesExtend(g, c, x);
    }
  }

  lemma TimesJoin(before: ScoreRecord, after: ScoreRecord, g: seq<Change>, c: Change)
    requires NamesOf(before, g) && ValidHistory(g + [c])
    requires after.firstSeen == (if c.Report? && before.firstSeen == 0 then c.now else before.firstSeen)
    requires after.lastSeen == (if c.Swept? then before.lastSeen else c.now)
    ensures var h := g + [c];
            && (forall i :: FirstReportAt(h, i) ==> after.firstSeen == h[i].now)
            && (forall i :: LastTouchAt(h, i) ==> after.lastSeen == h[i].now)
            && ((forall i :: 0 <= i < |h| ==> !h[i].Report?) ==> after.firstSeen == 0)
            && ((forall i :: 0 <= i < |h| ==> h[i].Swept?) ==> after.lastSeen == 0)
  {
    var h := g + [c];
    TimesExtend(g, c);
    FirstReportExists(g);
    assert h[|g|] == c && forall i :: 0 <= i < |g| ==> h[i] == g[i];
    if i :| FirstReportAt(g, i) { assert before.firstSeen == g[i].now && ValidChange(h[i]); }
    hide AppendNew, ReportedReason, ReportedBy;
  }

  lemma {:induction false} ReplayNames(h: seq<Change>, p: Params)
    requires ValidHistory(h)
    ensures NamesOf(Replay(h, p), h)
  {
    if h != [] {
      var g, c := h[..|h| - 1], h[|h| - 1];
      assert g + [c] == h;
      ReplayNames(g, p);
      NamesStep(Replay(g, p), c, p);
      hide Apply, ReportedReason, ReportedBy, FirstReportAt, LastTouchAt, AppendNew, DuplicateFree;
      NamesJoin(Replay(g, p), Replay(h, p), g, c);
      TimesJoin(Replay(g, p), Replay(h, p), g, c);
    }
  }

  /** Every reachable record is in range and its lists are those of its history. */
  lemma RecordOfHistory(h: seq<Change>, p: Params)
    requires ValidParams(p) && ValidHistory(h)
    ensures InRange(Replay(h, p), p) && ListsOf(Replay(h, p), h)
  {
    ReplayInRange(h, p);
    ReplayLists(h, p);
  }
}
