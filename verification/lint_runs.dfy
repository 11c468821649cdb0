/** Soundness of the rule lint against the running node. */
module LintRuns {
  import opened NetUtil
  import opened Reputation
  import opened ScoreStore
  import opened Burst
  import opened Rules
  import opened Wire
  import opened Trust
  import opened Relay
  import opened NodeModel
  import opened NodeRuns
  import opened Lint

  // ---------------------------------------------------------------- bursts need anchored reports

  /** Evaluation only ever trims the windows. */
  lemma {:induction false} ScanTrims(rules: seq<Rule>, k: BurstKey, rec: ScoreRecord, w: Windows, memo: map<int, nat>, now: nat, j: BurstKey)
    requires At(w, j) == []
    ensures At(Scan(rules, k, rec, w, memo, now).1, j) == []
  {
    if rules != [] {
      hide StaticMatch, Trimmed;
      var r := rules[0];
      TrimmedAt(w, k, now - r.burstWindow, j);
      var w' := if r.burstWindow in memo then w else Trimmed(w, k, now - r.burstWindow);
      var count := if r.burstWindow in memo then memo[r.burstWindow] else |At(w', k)|;
      ScanTrims(rules[1..], k, rec, w, memo, now, j);
      ScanTrims(rules[1..], k, rec, w', memo[r.burstWindow := count], now, j);
    }
  }

  lemma JudgeBursts(cfg: Config, s: NodeState, key: Text, obs: Observation, now: Time, remote: bool, j: BurstKey)
    requires At(s.bursts, j) == [] && (obs.anchored ==> j.ip != key)
    ensures At(Judge(cfg, s, key, obs, now, remote).bursts, j) == []
  {
    hide Scan, Accumulate;
    var k := BurstKey(key, obs.reason);
    var rec := Accumulate(Get(s.store, key), obs, now, cfg.params);
    var fed := if obs.anchored then Recorded(s.bursts, k, now) else s.bursts;
    ScanTrims(s.rules, k, rec, fed, map[], now, j);
  }

  /** A window that a step starts belongs to a key it took an anchored report of. */
  lemma StepBursts(cfg: Config, s: NodeState, i: Input, j: BurstKey)
    requires ValidConfig(cfg) && At(s.bursts, j) == []
    requires var c := ChangeFor(cfg, s, i, j.ip); c.Some? ==> !AnchoredReport(c.value)
    ensures At(Step(cfg, s, i).bursts, j) == []
  {
    hide Judge, Protected, Resolved, Vetted, ApplyDispute, Sweep, Reloaded, Stamped, HopsOk, RelayOk, IsVote, Forwards, Discount;
    if i.Local? && ScoredLocal(cfg, i) {
      JudgeBursts(cfg, s, KeyOf(cfg, i.e).value, LocalObservation(cfg, i.e), i.now, false, j);
    } else if i.Remote? && ScoredReport(cfg, s, i).Some? {
      var vetted := s.(trust := Vetted(cfg, s.trust, i.e, i.now));
      JudgeBursts(cfg, vetted, KeyOf(cfg, i.e).value, RemoteObservation(cfg, i.e, ScoredReport(cfg, s, i).value), i.now, true, j);
    }
  }

  lemma {:induction false} BurstsNeedAnchors(cfg: Config, run: seq<Input>, j: BurstKey)
    requires ValidConfig(cfg) && StrangerOnly(KeyHistory(cfg, run, j.ip))
    ensures At(Run(cfg, run).bursts, j) == []
  {
    hide *;
    RunStep(cfg, run);
    HistoryStep(cfg, run, j.ip);
    if run == [] {
      FreshHasNoBursts(j);
    } else {
      var before, i := run[..|run| - 1], run[|run| - 1];
      var c := ChangeFor(cfg, Run(cfg, before), i, j.ip);
      StrangerOnlyParts(KeyHistory(cfg, before, j.ip), c);
      BurstsNeedAnchors(cfg, before, j);
      StepBursts(cfg, Run(cfg, before), i, j);
    }
  }

  lemma FreshHasNoBursts(j: BurstKey)
    ensures At(FRESH.bursts, j) == []
  {
  }

  lemma StrangerOnlyParts(h: seq<Change>, c: Option<Change>)
    requires StrangerOnly(h + if c.None? then [] else [c.value])
    ensures StrangerOnly(h) && (c.Some? ==> !AnchoredReport(c.value))
  {
    var longer := h + if c.None? then [] else [c.value];
    assert forall i :: 0 <= i < |h| ==> h[i] == longer[i];
    if c.Some? { assert longer[|h|] == c.value; }
  }

  // ---------------------------------------------------------------- the lint over runs

  /** What Evaluate answers when step `i` is scored in state `s`. */
  ghost function RemoteVerdict(cfg: Config, s: NodeState, i: Input): Verdict
    requires ValidConfig(cfg) && i.Remote? && ScoredReport(cfg, s, i).Some?
  {
    Evaluation(cfg, s, KeyOf(cfg, i.e).value, RemoteObservation(cfg, i.e, ScoredReport(cfg, s, i).value), i.now).0
  }

  /** The node blocks on a report only if Evaluate said so: the step appends nothing else that blocks. */
  lemma BlockFollowsVerdict(cfg: Config, s: NodeState, i: Input, key: Text)
    requires ValidConfig(cfg) && i.Remote? && ScoredReport(cfg, s, i).Some? && !RemoteVerdict(cfg, s, i).action.Block?
    ensures Blocked(key, true) in Step(cfg, s, i).log ==> Blocked(key, true) in s.log
  {
    hide Accumulate, Evaluated, Protected, Resolved, Vetted, HopsOk, RelayOk, IsVote, Forwards, RemoteObservation;
  }

  lemma ScoredReportIsAChange(cfg: Config, s: NodeState, i: Input)
    requires ValidConfig(cfg) && i.Remote? && ScoredReport(cfg, s, i).Some?
    ensures KeyOf(cfg, i.e).Some?
    ensures var obs := RemoteObservation(cfg, i.e, ScoredReport(cfg, s, i).value);
            ChangeFor(cfg, s, i, KeyOf(cfg, i.e).value) == Some(Report(obs, i.now)) && obs.reason == i.e.reason
  {
    hide Protected, Resolved, Vetted, HopsOk, RelayOk, IsVote;
  }

  lemma VerdictIs(cfg: Config, s: NodeState, i: Input, key: Text, obs: Observation)
    requires ValidConfig(cfg) && i.Remote? && ScoredReport(cfg, s, i).Some? && KeyOf(cfg, i.e) == Some(key)
    requires obs == RemoteObservation(cfg, i.e, ScoredReport(cfg, s, i).value) && !obs.anchored
    ensures RemoteVerdict(cfg, s, i)
         == Evaluated(s.rules, cfg.fallback, BurstKey(key, obs.reason), Apply(Get(s.store, key), Report(obs, i.now), cfg.params), s.bursts, i.now).0
  {
    hide Accumulate, Evaluated, Protected, ScoredReport, RemoteObservation;
  }

  lemma StrangerReportedLast(h: seq<Change>, c: Change)
    requires c.Report? && !AnchoredReport(c)
    ensures StrangerReported(h + [c])
  {
    assert (h + [c])[|h|] == c;
  }

  lemma NotAnchored(obs: Observation, now: Time)
    requires !AnchoredReport(Report(obs, now))
    ensures !obs.anchored
  {
  }

  /** While the lint is silent on the rules in force, no report of a key that only un-anchored peers
      ever reported gets a block from the rules, even before the node's own downgrade. */
  lemma LintIsSound(cfg: Config, run: seq<Input>, i: Input)
    requires ValidConfig(cfg) && Clocked(run + [i])
    requires i.Remote? && ScoredReport(cfg, Run(cfg, run), i).Some?
    requires Silent(Run(cfg, run).rules, cfg.fallback, cfg.params.strangerCap)
    requires KeyOf(cfg, i.e).Some? && StrangerOnly(KeyHistory(cfg, run + [i], KeyOf(cfg, i.e).value))
    ensures !RemoteVerdict(cfg, Run(cfg, run), i).action.Block?
  {
    var key := KeyOf(cfg, i.e).value;
    assert ValidParams(cfg.params);
    hide *;
    var s, longer := Run(cfg, run), run + [i];
    var h, obs := KeyHistory(cfg, run, key), RemoteObservation(cfg, i.e, ScoredReport(cfg, s, i).value);
    var c := Report(obs, i.now);
    ScoredReportIsAChange(cfg, s, i);
    assert longer[..|longer| - 1] == run && longer[|longer| - 1] == i;
    HistoryStep(cfg, longer, key);
    assert KeyHistory(cfg, longer, key) == h + [c];
    StrangerOnlyParts(h, Some(c));
    NotAnchored(obs, i.now);
    BurstsNeedAnchors(cfg, run, BurstKey(key, obs.reason));
    StoreIsReplay(cfg, run, key);
    ReplaySnoc(h, c, cfg.params);
    HistoriesAreValid(cfg, longer, key);
    StrangerReportedLast(h, c);
    SilentNeverBlocks(s.rules, cfg.fallback, h + [c], BurstKey(key, obs.reason), s.bursts, i.now, cfg.params);
    VerdictIs(cfg, s, i, key, obs);
  }
}
