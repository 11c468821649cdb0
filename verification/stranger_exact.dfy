/** For which parameters the bound on strangers holds of all histories. */
module StrangerExact {
  import opened Powers
  import opened Reputation
  import opened StrangerBound
  import opened Reach

  /** Read at `now`, after the whole history, the score keeps the bound. */
  ghost predicate Bounded(h: seq<Change>, now: Time, p: Params) {
    Current(Replay(h, p), now, p) <= Current(Replay(WithoutStrangers(h), p), now, p) + p.strangerCap
  }

  ghost predicate ReadAt(h: seq<Change>, now: Time) { ClockOrdered(h) && (h != [] ==> h[|h| - 1].now <= now) }

  /** A cap of 100 bounds everything. */
  lemma WideCapBounds(h: seq<Change>, now: Time, p: Params)
    requires ValidParams(p) && ReadAt(h, now) && p.strangerCap >= 100.0
    ensures Bounded(h, now, p)
  {
    KeptAreValid(h);
    ReplayInRange(h, p);
    ReplayInRange(WithoutStrangers(h), p);
    var f, a := Replay(h, p), Replay(WithoutStrangers(h), p);
    DecayBounds(f.score, f.lastSeen, now, p.halfLife);
    DecayBounds(a.score, a.lastSeen, now, p.halfLife);
  }

  lemma {:induction false} KeptAreValid(h: seq<Change>)
    requires ValidHistory(h)
    ensures ValidHistory(WithoutStrangers(h))
  {
    hide ValidChange, FromStranger;
    if h != [] { KeptAreValid(h[..|h| - 1]); }
  }

  /** Repeating a stranger adds nothing to the history without strangers, repeating anyone else adds it all. */
  lemma {:induction false} WithoutRepeats(h: seq<Change>, c: Change, n: nat, p: Params)
    ensures FromStranger(c) ==> WithoutStrangers(h + Repeats(c, n)) == WithoutStrangers(h)
    ensures !FromStranger(c) ==> WithoutStrangers(h + Repeats(c, n)) == WithoutStrangers(h) + Repeats(c, n)
  {
    hide *;
    RepeatsSnoc(c, n);
    if n == 0 {
      assert h + [] == h && WithoutStrangers(h) + [] == WithoutStrangers(h);
    } else {
      WithoutRepeats(h, c, n - 1, p);
      WithoutSnoc(h + Repeats(c, n - 1), c, p);
      SnocApart(h, Repeats(c, n - 1), c);
      SnocApart(WithoutStrangers(h), Repeats(c, n - 1), c);
      if FromStranger(c) { assert WithoutStrangers(h) + [] == WithoutStrangers(h); }
    }
  }

  lemma RepeatsSnoc(c: Change, n: nat)
    ensures Repeats(c, n) == if n == 0 then [] else Repeats(c, n - 1) + [c]
  {
  }

  lemma SnocApart(a: seq<Change>, b: seq<Change>, c: Change)
    ensures a + (b + [c]) == a + b + [c]
  {
  }

  // ---------------------------------------------------------------- wasted disputes

  /** A first report worth `x` points. */
  function WorthReport(x: real, anchored: bool, now: Time): Change { Report(Observation("", "r", "", x / 2.0, anchored, ""), now) }

  function FullDispute(now: Time): Change { Dispute(Observation("", "d", "", 1.0, false, ""), now) }

  function FullVoice(anchored: bool, now: Time): Change { Report(Observation("", "v", "", 1.0, anchored, ""), now) }

  lemma FirstReport(x: real, anchored: bool, now: Time, p: Params)
    requires ValidParams(p) && 0.0 <= x <= 2.0 && (anchored || x <= p.strangerCap) && now >= 1
    ensures ValidChange(WorthReport(x, anchored, now))
    ensures Apply(EMPTY_RECORD, WorthReport(x, anchored, now), p)
         == EMPTY_RECORD.(score := x, strangerContrib := if anchored then 0.0 else x, firstSeen := now, lastSeen := now,
                          reasons := [""], reporterIDs := ["r"], strangerSeen := !anchored)
  {
  }

  /** A full-trust stranger dispute, capped, in plain numbers. */
  lemma FullDisputeIs(rec: ScoreRecord, p: Params)
    requires ValidParams(p) && InRange(rec, p) && (rec.lastSeen == 0 || rec.lastSeen == 1)
    ensures ValidChange(FullDispute(1)) && InRange(Apply(rec, FullDispute(1), p), p)
    ensures var x := Min(Times(rec.score, p.disputeWeight / 100.0), p.strangerCap - rec.disputeContrib);
            Apply(rec, FullDispute(1), p)
            == rec.(score := Max(rec.score - x, 0.0), lastSeen := 1, disputeContrib := rec.disputeContrib + x)
  {
    ApplyKeepsRange(rec, FullDispute(1), p);
    NoDecayAtOnce(rec, p);
    StrangerDisputeIs(rec, FullDispute(1), p);
    assert Power(1.0, p.disputeWeight, 1.0) == p.disputeWeight;
    hide Apply, Power, Times, DecayScore;
  }

  /** From equal scores the same anchored voice makes equal scores. */
  lemma {:induction false} SameClimb(f: ScoreRecord, a: ScoreRecord, c: Change, n: nat, p: Params)
    requires Voice(c) && c.obs.anchored && f.score == a.score
    requires (f.lastSeen == 0 || f.lastSeen == c.now) && (a.lastSeen == 0 || a.lastSeen == c.now)
    ensures ApplyMany(f, c, n, p).score == ApplyMany(a, c, n, p).score
    ensures ApplyMany(f, c, n, p).lastSeen == if n == 0 then f.lastSeen else c.now
    ensures ApplyMany(a, c, n, p).lastSeen == if n == 0 then a.lastSeen else c.now
  {
    if n > 0 {
      hide Apply;
      SameClimb(f, a, c, n - 1, p);
      SameStep(ApplyMany(f, c, n - 1, p), ApplyMany(a, c, n - 1, p), c, p);
    }
  }

  lemma SameStep(f: ScoreRecord, a: ScoreRecord, c: Change, p: Params)
    requires Voice(c) && c.obs.anchored && f.score == a.score
    requires (f.lastSeen == 0 || f.lastSeen == c.now) && (a.lastSeen == 0 || a.lastSeen == c.now)
    ensures Apply(f, c, p).score == Apply(a, c, p).score && Apply(f, c, p).lastSeen == c.now && Apply(a, c, p).lastSeen == c.now
  {
    NoDecayAtOnce(f, p);
    NoDecayAtOnce(a, p);
    hide WeightFor, VotePoints, DecayScore;
  }

  /** A first dispute spends `m` points of the full run's budget on a score worth less, and nothing of
      the other run's. */
  lemma FirstWaste(m: real, p: Params)
    requires ValidParams(p) && p.disputeWeight > 100.0 && 0.0 < m <= 1.0 && m <= p.strangerCap
    ensures var x := m / (p.disputeWeight / 100.0);
            var f := Apply(Apply(EMPTY_RECORD, WorthReport(x, false, 1), p), FullDispute(1), p);
            var a := Apply(EMPTY_RECORD, FullDispute(1), p);
            && 0.0 < x < m && InRange(f, p) && InRange(a, p)
            && f.score == 0.0 && f.lastSeen == 1 && f.disputeContrib == m && f.strangerContrib == x
            && a.score == 0.0 && a.lastSeen == 1 && a.disputeContrib == 0.0
  {
    var k := p.disputeWeight / 100.0;
    var x := m / k;
    Shares(m, k);
    FirstReport(x, false, 1, p);
    FullDisputeIs(Apply(EMPTY_RECORD, WorthReport(x, false, 1), p), p);
    FullDisputeIs(EMPTY_RECORD, p);
    assert Times(0.0, k) == 0.0;
    hide Apply, Times;
  }

  /** A second dispute, on equal scores worth more than either budget, spends what is left of both. */
  lemma SecondWaste(f: ScoreRecord, a: ScoreRecord, p: Params)
    requires ValidParams(p) && p.disputeWeight > 100.0 && InRange(f, p) && InRange(a, p)
    requires f.score == a.score && p.strangerCap <= f.score && f.lastSeen == 1 && a.lastSeen == 1 && a.disputeContrib == 0.0
    ensures var f', a' := Apply(f, FullDispute(1), p), Apply(a, FullDispute(1), p);
            && f'.score == f.score - p.strangerCap + f.disputeContrib && a'.score == a.score - p.strangerCap
            && InRange(f', p) && f'.strangerContrib == f.strangerContrib && f'.lastSeen == 1 && a'.lastSeen == 1
  {
    hide Apply, Times;
    FullDisputeIs(f, p);
    FullDisputeIs(a, p);
    Exceeds(f.score, p.disputeWeight / 100.0);
  }

  /** After the first waste both runs climb to the cap, and the second leaves the full run ahead by
      what the first one wasted. */
  lemma WastedBudget(m: real, n: nat, p: Params)
    requires ValidParams(p) && p.disputeWeight > 100.0 && 0.0 < m <= 1.0 && m <= p.strangerCap < 100.0
    requires var a := ApplyMany(Apply(EMPTY_RECORD, FullDispute(1), p), FullVoice(true, 1), n, p);
             n >= 1 && p.strangerCap <= a.score && a.score + m <= 100.0
    ensures var x := m / (p.disputeWeight / 100.0);
            var d, v := FullDispute(1), FullVoice(true, 1);
            var f := Apply(ApplyMany(Apply(Apply(EMPTY_RECORD, WorthReport(x, false, 1), p), d, p), v, n, p), d, p);
            var a := Apply(ApplyMany(Apply(EMPTY_RECORD, d, p), v, n, p), d, p);
            && 0.0 < x < m && Poised(f, FullVoice(false, 1), p) && f.lastSeen == 1 && f.strangerContrib == x
            && f.score == a.score + m && a.lastSeen == 1 && f.score + p.strangerCap - x < 100.0
  {
    hide ApplyMany, Apply, Times, LeastGain, InRange;
    FirstWaste(m, p);
    var x := m / (p.disputeWeight / 100.0);
    var d, v := FullDispute(1), FullVoice(true, 1);
    var f, a := Apply(Apply(EMPTY_RECORD, WorthReport(x, false, 1), p), d, p), Apply(EMPTY_RECORD, d, p);
    SameClimb(f, a, v, n, p);
    Climbs(f, v, n, 0.0, p);
    Climbs(a, v, n, 0.0, p);
    SecondWaste(ApplyMany(f, v, n, p), ApplyMany(a, v, n, p), p);
  }

  lemma Shares(m: real, k: real)
    requires k > 1.0 && m > 0.0
    ensures Times(m / k, k) == m && 0.0 < m / k < m
  {
    var x := m / k;
    assert x * k == m;
    assert x > 0.0 by { Quotient(m, k); }
    Exceeds(x, k);
  }

  lemma Quotient(m: real, k: real)
    requires k > 0.0 && m > 0.0
    ensures m / k > 0.0
  {
  }

  lemma Exceeds(s: real, k: real)
    requires s >= 0.0 && k > 1.0
    ensures Times(s, k) >= s && (s > 0.0 ==> Times(s, k) > s)
  {
    TimesSign(s, k - 1.0);
    TimesSplits(k, 1.0, k - 1.0, s);
    assert Times(s, 1.0) == s;
  }

  function WasteHistory(r: Change, d: Change, v: Change, n: nat, u: Change, l: nat): seq<Change> {
    [r, d] + Repeats(v, n) + [d] + Repeats(u, l)
  }

  lemma WasteReplays(r: Change, d: Change, v: Change, n: nat, u: Change, l: nat, p: Params)
    requires FromStranger(r) && !FromStranger(d) && !FromStranger(v) && FromStranger(u)
    ensures Replay(WasteHistory(r, d, v, n, u, l), p)
         == ApplyMany(Apply(ApplyMany(Apply(Apply(EMPTY_RECORD, r, p), d, p), v, n, p), d, p), u, l, p)
    ensures Replay(WithoutStrangers(WasteHistory(r, d, v, n, u, l)), p)
         == Apply(ApplyMany(Apply(EMPTY_RECORD, d, p), v, n, p), d, p)
  {
    hide FromStranger, Apply, Replay, WithoutStrangers, ApplyMany, Repeats;
    ReplaySnoc([], r, p);
    ReplaySnoc([r], d, p);
    WithoutSnoc([], r, p);
    WithoutSnoc([r], d, p);
    assert [] + [r] == [r] && [r] + [d] == [r, d] && [] + [d] == [d];
    ReplaySnoc([], d, p);
    var h1, w1 := [r, d] + Repeats(v, n), [d] + Repeats(v, n);
    ReplayRepeats([r, d], v, n, p);
    ReplayRepeats([d], v, n, p);
    WithoutRepeats([r, d], v, n, p);
    assert WithoutStrangers(h1) == w1;
    ReplaySnoc(h1, d, p);
    ReplaySnoc(w1, d, p);
    WithoutSnoc(h1, d, p);
    ReplayRepeats(h1 + [d], u, l, p);
    WithoutRepeats(h1 + [d], u, l, p);
  }

  lemma AtOneTick(r: Change, d: Change, v: Change, n: nat, u: Change, l: nat)
    requires forall c :: c in [r, d, v, u] ==> ValidChange(c) && c.now == 1 && !c.Swept?
    ensures var h := WasteHistory(r, d, v, n, u, l); ReadAt(h, 1) && NoSweeps(h)
  {
    hide ValidChange;
    RepeatsAre(v, n);
    RepeatsAre(u, l);
    var h := WasteHistory(r, d, v, n, u, l);
    assert r in [r, d, v, u] && d in [r, d, v, u] && v in [r, d, v, u] && u in [r, d, v, u];
    forall i | 0 <= i < |h|
      ensures ValidChange(h[i]) && h[i].now == 1 && !h[i].Swept?
    {
      assert h[i] in [r, d, v, u];
    }
  }

  lemma Breaks(h: seq<Change>, now: Time, p: Params)
    requires Current(Replay(h, p), now, p) > Current(Replay(WithoutStrangers(h), p), now, p) + p.strangerCap
    ensures !Bounded(h, now, p)
  {
    hide Replay, WithoutStrangers, Current;
  }

  lemma WastePlan(p: Params) returns (x: real, n: nat, l: nat)
    requires ValidParams(p) && p.disputeWeight > 100.0 && 0.0 < p.strangerCap < 100.0
    ensures 0.0 < x <= 1.0 && x <= p.strangerCap
    ensures var d, v, u := FullDispute(1), FullVoice(true, 1), FullVoice(false, 1);
            var f := ApplyMany(Apply(ApplyMany(Apply(Apply(EMPTY_RECORD, WorthReport(x, false, 1), p), d, p), v, n, p), d, p), u, l, p);
            var a := Apply(ApplyMany(Apply(EMPTY_RECORD, d, p), v, n, p), d, p);
            Current(f, 1, p) > Current(a, 1, p) + p.strangerCap
  {
    var d, v, u := FullDispute(1), FullVoice(true, 1), FullVoice(false, 1);
    var a := Apply(EMPTY_RECORD, d, p);
    FullDisputeIs(EMPTY_RECORD, p);
    assert Times(0.0, p.disputeWeight / 100.0) == 0.0;
    hide Apply, ApplyMany, Times, DecayScore;
    n := ReachLevel(a, v, p.strangerCap, p);
    var m := Min(Min(1.0, p.strangerCap), 100.0 - ApplyMany(a, v, n, p).score);
    WastedBudget(m, n, p);
    x := m / (p.disputeWeight / 100.0);
    var f := Apply(ApplyMany(Apply(Apply(EMPTY_RECORD, WorthReport(x, false, 1), p), d, p), v, n, p), d, p);
    l := SpendBudget(f, u, p);
    NoDecayAtOnce(ApplyMany(f, u, l, p), p);
    NoDecayAtOnce(Apply(ApplyMany(a, v, n, p), d, p), p);
  }

  lemma WasteVoices(x: real)
    requires 0.0 < x <= 1.0
    ensures forall c :: c in [WorthReport(x, false, 1), FullDispute(1), FullVoice(true, 1), FullVoice(false, 1)] ==>
              ValidChange(c) && c.now == 1 && !c.Swept?
    ensures FromStranger(WorthReport(x, false, 1)) && FromStranger(FullVoice(false, 1))
    ensures !FromStranger(FullDispute(1)) && !FromStranger(FullVoice(true, 1))
  {
  }

  /** Beyond a dispute weight of 100 a dispute can cost more budget than it takes off the score, so
      strangers can waste the budget of one run and spend that of the other. */
  lemma WastedDisputesBreakTheBound(p: Params)
    requires ValidParams(p) && p.disputeWeight > 100.0 && 0.0 < p.strangerCap < 100.0
    ensures exists h: seq<Change>, now: Time :: ReadAt(h, now) && NoSweeps(h) && !Bounded(h, now, p)
  {
    hide *;
    var x, n, l := WastePlan(p);
    var r, d, v, u := WorthReport(x, false, 1), FullDispute(1), FullVoice(true, 1), FullVoice(false, 1);
    WasteVoices(x);
    WasteReplays(r, d, v, n, u, l, p);
    AtOneTick(r, d, v, n, u, l);
    Breaks(WasteHistory(r, d, v, n, u, l), 1, p);
  }

  // ---------------------------------------------------------------- sweeps

  /** The record as it stands at `now`. */
  function Refreshed(rec: ScoreRecord, now: Time, p: Params): ScoreRecord {
    rec.(score := Current(rec, now, p), lastSeen := now)
  }

  lemma {:induction false} ManyFromRefreshed(rec: ScoreRecord, c: Change, n: nat, p: Params)
    requires Voice(c) && n >= 1 && rec.firstSeen != 0
    ensures ApplyMany(rec, c, n, p) == ApplyMany(Refreshed(rec, c.now, p), c, n, p)
  {
    var r := Refreshed(rec, c.now, p);
    if n == 1 {
      NoDecayAtOnce(r, p);
      hide WeightFor, VotePoints, DecayScore;
      assert ApplyMany(rec, c, 1, p) == Apply(ApplyMany(rec, c, 0, p), c, p);
      assert ApplyMany(r, c, 1, p) == Apply(ApplyMany(r, c, 0, p), c, p);
    } else {
      hide Apply, Refreshed;
      ManyFromRefreshed(rec, c, n - 1, p);
    }
  }

  lemma SweepReplays(r: Change, u: Change, n: nat, w: Change, p: Params)
    requires !FromStranger(r) && FromStranger(u) && !FromStranger(w)
    ensures var h := [r] + Repeats(u, n) + [w];
            && Replay(h, p) == Apply(ApplyMany(Apply(EMPTY_RECORD, r, p), u, n, p), w, p)
            && Replay(WithoutStrangers(h), p) == Apply(Apply(EMPTY_RECORD, r, p), w, p)
  {
    hide FromStranger, Apply, Replay, WithoutStrangers, ApplyMany, Repeats;
    ReplaySnoc([], r, p);
    WithoutSnoc([], r, p);
    assert [] + [r] == [r];
    var h1 := [r] + Repeats(u, n);
    ReplayRepeats([r], u, n, p);
    WithoutRepeats([r], u, n, p);
    ReplaySnoc(h1, w, p);
    WithoutSnoc(h1, w, p);
  }

  ghost predicate NoDisputes(h: seq<Change>) { forall i :: 0 <= i < |h| ==> !h[i].Dispute? }

  lemma SweptInOrder(r: Change, u: Change, n: nat, w: Change)
    requires ValidChange(r) && ValidChange(u) && ValidChange(w) && r.now == 1 && u.now == 2 && w.now == 2
    requires !r.Dispute? && !u.Dispute? && !w.Dispute?
    ensures ReadAt([r] + Repeats(u, n) + [w], 2) && NoDisputes([r] + Repeats(u, n) + [w])
  {
    hide ValidChange;
    RepeatsAre(u, n);
  }

  /** What one tick, and a sweep at its end, leave of a score. */
  lemma OneTick(s: real, p: Params)
    requires ValidParams(p) && p.halfLife.PerTick?
    ensures DecayScore(s, 1, 2, p.halfLife) == Times(s, p.halfLife.d) && DecayScore(s, 2, 2, p.halfLife) == s
    ensures s > 0.0 ==> 0.0 < Times(Times(s, p.halfLife.d), p.halfLife.d) < Times(s, p.halfLife.d) < s
  {
    var d := p.halfLife.d;
    assert Pow(d, 0) == 1.0 && Pow(d, 1) == Times(d, 1.0) == d;
    DecayIsScaling(s, 1, 2, p.halfLife);
    if s > 0.0 {
      TimesSign(s, d);
      TimesShrinks(s, d);
      TimesSign(Times(s, d), d);
      TimesShrinks(Times(s, d), d);
    }
  }

  lemma SweepPlan(p: Params) returns (s: real, n: nat)
    requires ValidParams(p) && p.halfLife.PerTick? && p.strangerCap < 100.0
    ensures 0.0 < s <= 1.0
    ensures var first := Apply(EMPTY_RECORD, WorthReport(s, true, 1), p);
            Current(Apply(ApplyMany(first, FullVoice(false, 2), n, p), Swept(2), p), 2, p)
            > Current(Apply(first, Swept(2), p), 2, p) + p.strangerCap
  {
    s := Min(1.0, (100.0 - p.strangerCap) / 2.0);
    var u := FullVoice(false, 2);
    FirstReport(s, true, 1, p);
    OneTick(s, p);
    OneTick(Times(s, p.halfLife.d), p);
    var first := Apply(EMPTY_RECORD, WorthReport(s, true, 1), p);
    var g := Refreshed(first, 2, p);
    hide Times, Apply, ApplyMany, DecayScore;
    n := SpendBudget(g, u, p);
    ManyFromRefreshed(first, u, n, p);
    SweepIs(ApplyMany(first, u, n, p), p);
    SweepIs(first, p);
    OneTick(ApplyMany(first, u, n, p).score, p);
  }

  lemma SweepVoices(s: real)
    requires 0.0 < s <= 1.0
    ensures ValidChange(WorthReport(s, true, 1)) && ValidChange(FullVoice(false, 2)) && ValidChange(Swept(2))
    ensures !FromStranger(WorthReport(s, true, 1)) && FromStranger(FullVoice(false, 2)) && !FromStranger(Swept(2))
    ensures WorthReport(s, true, 1).now == 1 && FullVoice(false, 2).now == 2
    ensures !WorthReport(s, true, 1).Dispute? && !FullVoice(false, 2).Dispute?
  {
  }

  /** With decay, a stranger report renews `lastSeen`, so a later sweep costs the full run fewer ticks
      than the run without strangers. */
  lemma SweepsBreakTheBound(p: Params)
    requires ValidParams(p) && p.halfLife.PerTick? && p.strangerCap < 100.0
    ensures exists h: seq<Change>, now: Time :: ReadAt(h, now) && NoDisputes(h) && !Bounded(h, now, p)
  {
    hide *;
    var s, n := SweepPlan(p);
    SweepVoices(s);
    var r, u, w := WorthReport(s, true, 1), FullVoice(false, 2), Swept(2);
    SweepReplays(r, u, n, w, p);
    SweptInOrder(r, u, n, w);
    Breaks([r] + Repeats(u, n) + [w], 2, p);
  }

  lemma SweepIs(rec: ScoreRecord, p: Params)
    requires rec.lastSeen != 0
    ensures Apply(rec, Swept(2), p) == rec.(score := DecayScore(rec.score, rec.lastSeen, 2, p.halfLife))
  {
    hide DecayScore;
  }

  // ---------------------------------------------------------------- exactly when

  /** Strangers stay within the cap, over all histories without sweeps, iff a dispute cannot waste
      budget or there is none to waste; over all histories, iff moreover nothing decays. A cap of 100
      always bounds. */
  lemma BoundIsExact(p: Params)
    requires ValidParams(p)
    ensures (forall h, now :: ReadAt(h, now) && NoSweeps(h) ==> Bounded(h, now, p))
       <==> p.disputeWeight <= 100.0 || p.strangerCap == 0.0 || p.strangerCap >= 100.0
    ensures (forall h, now :: ReadAt(h, now) ==> Bounded(h, now, p))
       <==> p.strangerCap >= 100.0 || (p.halfLife.NoDecay? && (p.disputeWeight <= 100.0 || p.strangerCap == 0.0))
  {
    forall h, now | ReadAt(h, now)
      ensures p.strangerCap >= 100.0 ==> Bounded(h, now, p)
      ensures (NoSweeps(h) || p.halfLife.NoDecay?) && (p.disputeWeight <= 100.0 || p.strangerCap == 0.0) ==> Bounded(h, now, p)
    {
      if p.strangerCap >= 100.0 { WideCapBounds(h, now, p); }
      if (NoSweeps(h) || p.halfLife.NoDecay?) && (p.disputeWeight <= 100.0 || p.strangerCap == 0.0) {
        StrangersAddAtMostTheCap(h, now, p);
      }
    }
    hide ReadAt, NoSweeps, Bounded;
    if p.disputeWeight > 100.0 && 0.0 < p.strangerCap < 100.0 { WastedDisputesBreakTheBound(p); }
    if p.halfLife.PerTick? && p.strangerCap < 100.0 { SweepsBreakTheBound(p); }
  }
}
