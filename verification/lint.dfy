/** The load-time lint of block rules against the scores that strangers alone can reach. */
module Lint {
  import opened Powers
  import opened NetUtil
  import opened Reputation
  import opened Reach
  import opened Burst
  import opened Rules

  // ---------------------------------------------------------------- records strangers can make

  /** No anchored reporter ever reported the key. */
  ghost predicate StrangerOnly(h: seq<Change>) { forall i :: 0 <= i < |h| ==> !AnchoredReport(h[i]) }

  /** Without anchored reports the score stays within what strangers paid in. */
  lemma StrangerStep(rec: ScoreRecord, c: Change, p: Params)
    requires ValidParams(p) && ValidChange(c) && InRange(rec, p) && rec.score <= rec.strangerContrib && !AnchoredReport(c)
    ensures Apply(rec, c, p).score <= Apply(rec, c, p).strangerContrib
  {
    DecayBounds(rec.score, rec.lastSeen, c.now, p.halfLife);
    if c.Dispute? {
      var div := if c.obs.anchored then Damping(rec.disputeSubnetsSeen, c.obs.subnet, p.diversityRepeat) else 1.0;
      DisputeScales(Current(rec, c.now, p), c.obs.trust, p.disputeWeight, div);
    }
  }

  lemma {:induction false} StrangerScore(h: seq<Change>, p: Params)
    requires ValidParams(p) && ValidHistory(h) && StrangerOnly(h)
    ensures Replay(h, p).score <= Replay(h, p).strangerContrib
  {
    if h != [] {
      var g := h[..|h| - 1];
      StrangerScore(g, p);
      ReplayInRange(g, p);
      StrangerStep(Replay(g, p), h[|h| - 1], p);
    }
  }

  /** What strangers alone can make of a record. */
  lemma StrangerRecord(h: seq<Change>, p: Params)
    requires ValidParams(p) && ValidHistory(h) && StrangerOnly(h)
    ensures var rec := Replay(h, p);
            && rec.groups == [] && rec.corroboration == 0 && rec.score <= p.strangerCap
            && (StrangerReported(h) ==> rec.strangerSeen)
  {
    StrangerScore(h, p);
    RecordOfHistory(h, p);
    var rec := Replay(h, p);
    hide Replay;
    assert forall g :: !ReportingGroup(h, g);
    MembersOf(rec.groups);
  }

  lemma MembersOf(xs: seq<string>)
    ensures xs != [] ==> exists x :: x in xs
  {
    if xs != [] { assert xs[0] in xs; }
  }

  // ---------------------------------------------------------------- soundness of the lint

  /** With no burst on record, only a block rule without a burst condition can block. */
  lemma {:induction false} NoRuleNoBlock(rules: seq<Rule>, k: BurstKey, rec: ScoreRecord, w: Windows, memo: map<int, nat>, now: nat)
    requires At(w, k) == [] && forall x :: x in memo ==> memo[x] == 0
    requires forall i :: 0 <= i < |rules| && rules[i].action.Block? && rules[i].minBurst <= 0 ==> !StaticMatch(rules[i], k.reason, rec)
    ensures !Scan(rules, k, rec, w, memo, now).0.action.Block?
  {
    if rules != [] {
      hide StaticMatch, Trimmed;
      var r := rules[0];
      assert forall i :: 0 <= i < |rules[1..]| ==> rules[1..][i] == rules[i + 1];
      if !StaticMatch(r, k.reason, rec) {
        NoRuleNoBlock(rules[1..], k, rec, w, memo, now);
      } else if r.minBurst > 0 {
        TrimmedAt(w, k, now - r.burstWindow, k);
        var w' := if r.burstWindow in memo then w else Trimmed(w, k, now - r.burstWindow);
        NoRuleNoBlock(rules[1..], k, rec, w', memo[r.burstWindow := 0], now);
      }
    }
  }

  /** No warning: the lint is silent, or in legacy mode the threshold is out of strangers' reach. */
  ghost predicate Silent(rules: seq<Rule>, fallback: real, strangerCap: real) {
    if rules == [] then fallback > strangerCap else LintSilent(rules, strangerCap)
  }

  /** Under silent rules, no record that strangers alone made gets a block. */
  lemma SilentNeverBlocks(rules: seq<Rule>, fallback: real, h: seq<Change>, k: BurstKey, w: Windows, now: nat, p: Params)
    requires ValidParams(p) && Silent(rules, fallback, p.strangerCap)
    requires ValidHistory(h) && StrangerOnly(h) && StrangerReported(h) && At(w, k) == []
    ensures !Evaluated(rules, fallback, k, Replay(h, p), w, now).0.action.Block?
  {
    hide Replay, Scan, StrangerOnly, ValidHistory, StrangerReported;
    StrangerRecord(h, p);
    if rules != [] {
      forall i | 0 <= i < |rules| && rules[i].action.Block? && rules[i].minBurst <= 0
        ensures !StaticMatch(rules[i], k.reason, Replay(h, p))
      {
        assert StrangerSafe(rules[i], p.strangerCap);
      }
      NoRuleNoBlock(rules, k, Replay(h, p), w, map[], now);
    }
  }

  // ---------------------------------------------------------------- a warning is real

  /** A history in which strangers, and no anchored peer, reported the key. */
  ghost predicate StrangersAlone(h: seq<Change>) { ValidHistory(h) && StrangerOnly(h) && StrangerReported(h) }

  /** A stranger who repeats a report reaches any level within the cap and below 100. */
  lemma StrangersReach(reason: string, level: real, p: Params) returns (h: seq<Change>)
    requires ValidParams(p) && level <= p.strangerCap && level < 100.0
    ensures StrangersAlone(h) && Replay(h, p).score >= level
  {
    hide Apply, ApplyMany, Replay, Climbed, Repeats;
    var c := Report(Observation(reason, "", "", 1.0, false, ""), 1);
    ReplaySnoc([], c, p);
    var n := ReachLevel(EMPTY_RECORD, c, Max(level, 0.0), p);
    h := Repeats(c, n);
    RepeatsAre(c, n);
    ReplayRepeats([], c, n, p);
    assert [] + h == h;
    assert h[0] == c;
  }

  /** Strangers alone can bring a record to a level iff it is within the cap and below 100. */
  lemma ReachIsExact(level: real, p: Params)
    requires ValidParams(p)
    ensures (exists h :: StrangersAlone(h) && Replay(h, p).score >= level) <==> level <= p.strangerCap && level < 100.0
  {
    if level <= p.strangerCap && level < 100.0 { var h := StrangersReach("", level, p); }
    hide Replay, StrangerOnly, ValidHistory;
    forall h | StrangersAlone(h)
      ensures Replay(h, p).score <= p.strangerCap && Replay(h, p).score < 100.0
    {
      StrangerRecord(h, p);
      ScoresStayBelow(h, p);
    }
  }

  /** Some history of strangers alone makes the rules say block, with no burst on record. */
  ghost predicate StrangersCanBlock(rules: seq<Rule>, fallback: real, ip: Text, p: Params) {
    exists h, reason, now ::
      StrangersAlone(h) && Evaluated(rules, fallback, BurstKey(ip, reason), Replay(h, p), map[], now).0.action.Block?
  }

  /** A reason the pattern accepts. */
  function Accepted(pattern: string): (reason: string)
    ensures pattern == "" || MatchReason(pattern, reason)
  {
    if |pattern| > 0 && pattern[|pattern| - 1] == '*' then pattern[..|pattern| - 1] else pattern
  }

  /** For a single block rule the warning is exact but for a score no record reaches: strangers can
      make the rule block iff the lint speaks and the rule asks for less than 100. */
  lemma LintIsExact(r: Rule, fallback: real, ip: Text, p: Params)
    requires ValidParams(p) && r.action.Block?
    ensures StrangersCanBlock([r], fallback, ip, p) <==> !LintSilent([r], p.strangerCap) && r.minScore < 100.0
  {
    var rules := [r];
    if LintSilent(rules, p.strangerCap) {
      forall h, reason, now | StrangersAlone(h)
        ensures !Evaluated(rules, fallback, BurstKey(ip, reason), Replay(h, p), map[], now).0.action.Block?
      {
        SilentNeverBlocks(rules, fallback, h, BurstKey(ip, reason), map[], now, p);
      }
    } else if r.minScore >= 100.0 {
      forall h, reason, now | StrangersAlone(h)
        ensures !Evaluated(rules, fallback, BurstKey(ip, reason), Replay(h, p), map[], now).0.action.Block?
      {
        ScoresStayBelow(h, p);
        NoRuleNoBlock(rules, BurstKey(ip, reason), Replay(h, p), map[], map[], now);
      }
    } else {
      assert !StrangerSafe(rules[0], p.strangerCap);
      var reason := Accepted(r.reason);
      var h := StrangersReach(reason, r.minScore, p);
      hide Replay, MatchReason;
      assert StaticMatch(r, reason, Replay(h, p));
      assert Evaluated(rules, fallback, BurstKey(ip, reason), Replay(h, p), map[], 1).0.action.Block?;
    }
  }

  /** In legacy mode strangers can make the node's rules say block iff the threshold is at most the cap
      and below 100; the load-time warning asks for strictly less than the cap. */
  lemma LegacyIsExact(fallback: real, ip: Text, p: Params)
    requires ValidParams(p)
    ensures StrangersCanBlock([], fallback, ip, p) <==> fallback <= p.strangerCap && fallback < 100.0
  {
    ReachIsExact(fallback, p);
    hide Replay;
    var rules: seq<Rule> := [];
    forall h, reason, now
      ensures Evaluated(rules, fallback, BurstKey(ip, reason), Replay(h, p), map[], now).0.action.Block?
         <==> Replay(h, p).score >= fallback
    {
    }
    if h: seq<Change> :| StrangersAlone(h) && Replay(h, p).score >= fallback {
      assert Evaluated(rules, fallback, BurstKey(ip, ""), Replay(h, p), map[], 1).0.action.Block?;
    }
  }

  /** The load-time warning is silent though strangers can make the rules say block exactly when the
      threshold equals the cap, below 100; it speaks though they cannot exactly when neither number is
      below 100. */
  lemma LegacyWarningMisses(fallback: real, ip: Text, p: Params)
    requires ValidParams(p)
    ensures !LegacyWarns([], fallback, p.strangerCap) && StrangersCanBlock([], fallback, ip, p)
       <==> fallback == p.strangerCap && p.strangerCap < 100.0
    ensures LegacyWarns([], fallback, p.strangerCap) && !StrangersCanBlock([], fallback, ip, p)
       <==> 100.0 <= fallback < p.strangerCap
  {
    LegacyIsExact(fallback, ip, p);
  }
}
