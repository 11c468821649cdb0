/** Safety over whole runs of a node, from an empty store. */
module NodeRuns {
  import opened NetUtil
  import opened NeverBlock
  import opened Powers
  import opened Reputation
  import opened ScoreStore
  import opened Burst
  import opened Rules
  import opened Wire
  import opened Trust
  import opened Relay
  import opened NodeModel

  // ---------------------------------------------------------------- clocked runs

  predicate HasNow(i: Input) { i.Local? || i.Remote? || i.OwnVote? || i.SweepKey? || i.ReloadTrust? }

  function Clock(run: seq<Input>): Time {
    if run == [] then 1
    else if HasNow(run[|run| - 1]) then run[|run| - 1].now
    else Clock(run[..|run| - 1])
  }

  /** The clock never runs backwards and never reads the zero time. */
  ghost predicate Clocked(run: seq<Input>) {
    run == [] ||
    (Clocked(run[..|run| - 1]) && (HasNow(run[|run| - 1]) ==> Clock(run[..|run| - 1]) <= run[|run| - 1].now))
  }

  lemma {:induction false} ClockPositive(run: seq<Input>)
    requires Clocked(run)
    ensures Clock(run) >= 1
  {
    if run != [] { ClockPositive(run[..|run| - 1]); }
  }

  // ---------------------------------------------------------------- trust over runs

  /** Judging an event changes the records, the bursts and the log only. */
  lemma JudgeKeepsRest(cfg: Config, s: NodeState, key: Text, obs: Observation, now: Time, remote: bool)
    ensures var t := Judge(cfg, s, key, obs, now, remote);
            && t.trust == s.trust && t.rules == s.rules && t.materialised == s.materialised
            && t.disputed == s.disputed && t.pending == s.pending
  {
  }

  /** The trust state a step leaves behind. */
  function TrustAfter(cfg: Config, s: NodeState, i: Input): TrustState {
    if i.ReloadTrust? then Reloaded(s.trust, i.anchors, i.certs, i.blocked, i.now, cfg.certSigOk)
    else if i.Remote? then Vetted(cfg, s.trust, i.e, i.now)
    else s.trust
  }

  lemma StepTrust(cfg: Config, s: NodeState, i: Input)
    requires ValidConfig(cfg)
    ensures Step(cfg, s, i).trust == s.trust || Step(cfg, s, i).trust == TrustAfter(cfg, s, i)
  {
    hide Judge, Vetted, Reloaded, Resolved, ApplyDispute, Protected;
    match i {
      case Local(e, now, dbOk) =>
        if KeyOf(cfg, e).Some? { JudgeKeepsRest(cfg, s, KeyOf(cfg, e).value, LocalObservation(cfg, e), now, false); }
      case Remote(e, from, subnet, now, shed, dup, shedBridge, dbOk) =>
        if KeyOf(cfg, e).Some? {
          var vetted := s.(trust := Vetted(cfg, s.trust, e, now));
          var r := Resolved(vetted.trust, e.reporterID, now, cfg.strangerWeight);
          JudgeKeepsRest(cfg, vetted, KeyOf(cfg, e).value, RemoteObservation(cfg, e, r), now, true);
        }
      case _ =>
    }
  }

  lemma {:induction false} TrustStaysSound(cfg: Config, run: seq<Input>)
    requires ValidConfig(cfg) && Clocked(run)
    ensures Sound(Run(cfg, run).trust, Clock(run), cfg.certSigOk)
  {
    if run != [] {
      hide Sound, Step, Reloaded;
      var before, i := run[..|run| - 1], run[|run| - 1];
      TrustStaysSound(cfg, before);
      var s := Run(cfg, before);
      SoundLater(s.trust, Clock(before), Clock(run), cfg.certSigOk);
      StepTrust(cfg, s, i);
      match i {
        case Remote(e, from, subnet, now, shed, dup, shedBridge, dbOk) =>
          VettedSound(cfg, s.trust, e, now);
        case ReloadTrust(anchors, certs, blocked, now) =>
          ReloadKeepsSound(s.trust, anchors, certs, blocked, now, cfg.certSigOk);
        case _ =>
      }
    } else {
      assert forall c :: c !in FRESH.trust.certs && c !in FRESH.trust.anchors;
    }
  }

  // ---------------------------------------------------------------- each record is the replay of its key's history

  /** A remote event that reaches the record: its resolution, or nothing. */
  ghost function ScoredReport(cfg: Config, s: NodeState, i: Input): Option<Resolution>
    requires ValidConfig(cfg) && i.Remote?
  {
    if Admitted(cfg, s, i.e, i.from, i.shed) && !IsVote(i.e) && HopsOk(i.e, cfg.selfID)
       && !Protected(cfg, KeyOf(cfg, i.e).value) && !i.dup && i.dbOk
    then Some(Resolved(Vetted(cfg, s.trust, i.e, i.now), i.e.reporterID, i.now, cfg.strangerWeight))
    else None
  }

  ghost predicate ScoredVote(cfg: Config, s: NodeState, i: Input)
    requires i.Remote?
  {
    Admitted(cfg, s, i.e, i.from, i.shed) && IsVote(i.e) && !i.dup && i.dbOk
  }

  ghost predicate ScoredLocal(cfg: Config, i: Input)
    requires ValidConfig(cfg) && i.Local?
  {
    KeyOf(cfg, i.e).Some? && !Protected(cfg, KeyOf(cfg, i.e).value) && i.dbOk
  }

  /** What a step does to the record of key `k`. */
  ghost function ChangeFor(cfg: Config, s: NodeState, i: Input, k: Text): Option<Change>
    requires ValidConfig(cfg)
  {
    match i
    case Local(e, now, dbOk) =>
      if ScoredLocal(cfg, i) && KeyOf(cfg, e) == Some(k) then Some(Report(LocalObservation(cfg, e), now)) else None
    case Remote(e, _, _, now, _, _, _, _) =>
      if KeyOf(cfg, e) != Some(k) then None
      else if ScoredReport(cfg, s, i).Some? then Some(Report(RemoteObservation(cfg, e, ScoredReport(cfg, s, i).value), now))
      else if ScoredVote(cfg, s, i)
      then Some(Dispute(DisputeObservation(e, Resolved(Vetted(cfg, s.trust, e, now), e.reporterID, now, cfg.strangerWeight)), now))
      else None
    case OwnVote(ip, now, dbOk) =>
      if ip != k || !dbOk then None
      else
        var r := Resolved(s.trust, cfg.selfID, now, cfg.strangerWeight);
        Some(Dispute(Observation("", cfg.selfID, "", r.weight, r.anchored, cfg.homeSubnet), now))
    case SweepKey(key, now, dbOk) => if key == k && k in s.store && dbOk then Some(Swept(now)) else None
    case _ => None
  }

  /** `after` holds what the step's change makes of the record of `k`. */
  ghost predicate Follows(cfg: Config, s: NodeState, after: NodeState, c: Option<Change>, k: Text) {
    Get(after.store, k) == if c.None? then Get(s.store, k) else Apply(Get(s.store, k), c.value, cfg.params)
  }

  lemma LocalFollows(cfg: Config, s: NodeState, i: Input, k: Text)
    requires ValidConfig(cfg) && i.Local?
    ensures Follows(cfg, s, LocalStep(cfg, s, i.e, i.now, i.dbOk), ChangeFor(cfg, s, i, k), k)
  {
    hide Accumulate, Evaluation, Protected, Resolved, Vetted, ScoredReport, ScoredVote, Stamped;
  }

  lemma RemoteFollows(cfg: Config, s: NodeState, i: Input, k: Text)
    requires ValidConfig(cfg) && i.Remote?
    ensures Follows(cfg, s, RemoteStep(cfg, s, i), ChangeFor(cfg, s, i, k), k)
  {
    hide Accumulate, ApplyDispute, Evaluation, Vetted, Resolved, Protected, RemoteObservation, HopsOk, IsVote, RelayOk, Forwards,
      DisputeObservation, KeyOf;
  }

  lemma OthersFollow(cfg: Config, s: NodeState, i: Input, k: Text)
    requires ValidConfig(cfg) && !i.Local? && !i.Remote?
    ensures Follows(cfg, s, Step(cfg, s, i), ChangeFor(cfg, s, i, k), k)
  {
    hide LocalStep, RemoteStep, ApplyDispute, Sweep, Resolved, Protected, Reloaded, ScoredReport, ScoredVote, ScoredLocal;
  }

  lemma StepIs(cfg: Config, s: NodeState, i: Input)
    requires ValidConfig(cfg)
    ensures i.Local? ==> Step(cfg, s, i) == LocalStep(cfg, s, i.e, i.now, i.dbOk)
    ensures i.Remote? ==> Step(cfg, s, i) == RemoteStep(cfg, s, i)
  {
    hide LocalStep, RemoteStep;
  }

  lemma StepFollowsChange(cfg: Config, s: NodeState, i: Input, k: Text)
    requires ValidConfig(cfg)
    ensures Follows(cfg, s, Step(cfg, s, i), ChangeFor(cfg, s, i, k), k)
  {
    hide *;
    StepIs(cfg, s, i);
    if i.Local? {
      LocalFollows(cfg, s, i, k);
    } else if i.Remote? {
      RemoteFollows(cfg, s, i, k);
    } else {
      OthersFollow(cfg, s, i, k);
    }
  }

  /** The changes a run makes to one key's record, in order. */
  ghost function KeyHistory(cfg: Config, run: seq<Input>, k: Text): seq<Change>
    requires ValidConfig(cfg)
  {
    if run == [] then []
    else
      var before := run[..|run| - 1];
      var c := ChangeFor(cfg, Run(cfg, before), run[|run| - 1], k);
      KeyHistory(cfg, before, k) + if c.None? then [] else [c.value]
  }

  lemma RunStep(cfg: Config, run: seq<Input>)
    requires ValidConfig(cfg)
    ensures run == [] ==> Run(cfg, run) == FRESH
    ensures run != [] ==> Run(cfg, run) == Step(cfg, Run(cfg, run[..|run| - 1]), run[|run| - 1])
  {
    hide Step;
  }

  lemma RunSnoc(cfg: Config, run: seq<Input>, i: Input)
    requires ValidConfig(cfg)
    ensures Run(cfg, run + [i]) == Step(cfg, Run(cfg, run), i) && Run(cfg, []) == FRESH
  {
    RunStep(cfg, run + [i]);
    RunStep(cfg, []);
    hide Step, Run;
    assert (run + [i])[..|run + [i]| - 1] == run;
  }

  lemma HistoryStep(cfg: Config, run: seq<Input>, k: Text)
    requires ValidConfig(cfg)
    ensures run == [] ==> KeyHistory(cfg, run, k) == []
    ensures run != [] ==>
              var before := run[..|run| - 1];
              var c := ChangeFor(cfg, Run(cfg, before), run[|run| - 1], k);
              KeyHistory(cfg, run, k) == KeyHistory(cfg, before, k) + if c.None? then [] else [c.value]
  {
    hide ChangeFor, Run;
  }

  lemma {:induction false} StoreIsReplay(cfg: Config, run: seq<Input>, k: Text)
    requires ValidConfig(cfg)
    ensures Get(Run(cfg, run).store, k) == Replay(KeyHistory(cfg, run, k), cfg.params)
  {
    hide *;
    RunStep(cfg, run);
    HistoryStep(cfg, run, k);
    if run == [] {
      ReplaySnoc([], Swept(0), cfg.params);
      FreshIsEmpty(k);
    } else {
      var before, i := run[..|run| - 1], run[|run| - 1];
      StoreIsReplay(cfg, before, k);
      StepFollowsChange(cfg, Run(cfg, before), i, k);
      FollowsMeans(cfg, Run(cfg, before), Run(cfg, run), ChangeFor(cfg, Run(cfg, before), i, k), k);
      var c := ChangeFor(cfg, Run(cfg, before), i, k);
      if c.Some? {
        ReplaySnoc(KeyHistory(cfg, before, k), c.value, cfg.params);
      } else {
        assert KeyHistory(cfg, before, k) + [] == KeyHistory(cfg, before, k);
      }
    }
  }

  lemma FollowsMeans(cfg: Config, s: NodeState, after: NodeState, c: Option<Change>, k: Text)
    requires Follows(cfg, s, after, c, k)
    ensures Get(after.store, k) == if c.None? then Get(s.store, k) else Apply(Get(s.store, k), c.value, cfg.params)
  {
    hide Apply;
  }

  lemma FreshIsEmpty(k: Text)
    ensures Get(FRESH.store, k) == EMPTY_RECORD
  {
  }

  lemma DiscountBounds(cfg: Config, weight: real)
    requires 0.0 <= weight <= 1.0
    ensures 0.0 <= weight * Discount(cfg) <= 1.0
  {
    TimesShrinks(weight, Discount(cfg));
    assert weight * Discount(cfg) == Times(weight, Discount(cfg));
  }

  lemma VettedSound(cfg: Config, t: TrustState, e: Event, now: Time)
    requires Sound(t, now, cfg.certSigOk)
    ensures Sound(Vetted(cfg, t, e, now), now, cfg.certSigOk)
  {
    hide Sound;
    if e.vouch.Some? { WithCertKeepsSound(t, e.vouch.value, now, cfg.certSigOk); }
  }

  /** The resolution a remote event meets is in range, and anchored only for a vouched reporter. */
  lemma RemoteResolution(cfg: Config, run: seq<Input>, e: Event, now: Time)
    requires ValidConfig(cfg) && Clocked(run) && Clock(run) <= now
    ensures var t := Vetted(cfg, Run(cfg, run).trust, e, now);
            var r := Resolved(t, e.reporterID, now, cfg.strangerWeight);
            && 0.0 <= r.weight <= 1.0 && 0.0 <= r.weight * Discount(cfg) <= 1.0
            && (r.anchored ==> Vouched(t, e.reporterID, now, cfg.certSigOk))
  {
    hide Run, Sound, Resolved, Vetted, Vouched, Discount;
    var s := Run(cfg, run);
    TrustStaysSound(cfg, run);
    SoundLater(s.trust, Clock(run), now, cfg.certSigOk);
    VettedSound(cfg, s.trust, e, now);
    var t := Vetted(cfg, s.trust, e, now);
    ResolutionSound(t, e.reporterID, now, cfg.strangerWeight, cfg.certSigOk);
    DiscountBounds(cfg, Resolved(t, e.reporterID, now, cfg.strangerWeight).weight);
  }

  lemma ChangesAreValid(cfg: Config, run: seq<Input>, i: Input, k: Text)
    requires ValidConfig(cfg) && Clocked(run + [i])
    ensures var c := ChangeFor(cfg, Run(cfg, run), i, k); c.Some? ==> ValidChange(c.value) && c.value.now == Clock(run + [i])
  {
    hide Run, Resolved, Protected, Admitted, Sound, HopsOk, Discount, Vetted, Vouched, IsVote;
    assert (run + [i])[..|run + [i]| - 1] == run;
    ClockPositive(run);
    var s := Run(cfg, run);
    if i.Remote? {
      RemoteResolution(cfg, run, i.e, i.now);
    } else if i.OwnVote? {
      TrustStaysSound(cfg, run);
      SoundLater(s.trust, Clock(run), i.now, cfg.certSigOk);
      ResolutionSound(s.trust, cfg.selfID, i.now, cfg.strangerWeight, cfg.certSigOk);
    }
  }

  lemma {:induction false} HistoriesAreValid(cfg: Config, run: seq<Input>, k: Text)
    requires ValidConfig(cfg) && Clocked(run)
    ensures ValidHistory(KeyHistory(cfg, run, k))
  {
    HistoryStep(cfg, run, k);
    if run != [] {
      hide ChangeFor, ValidChange, Run, KeyHistory;
      var before, i := run[..|run| - 1], run[|run| - 1];
      HistoriesAreValid(cfg, before, k);
      assert before + [i] == run;
      ChangesAreValid(cfg, before, i, k);
    }
  }

  /** In every reachable state each record is in range and its lists are exactly the distinct
      anchored groups, reporting subnets and anchored disputing subnets of the run. */
  lemma RecordsOfRun(cfg: Config, run: seq<Input>, k: Text)
    requires ValidConfig(cfg) && Clocked(run)
    ensures var rec := Get(Run(cfg, run).store, k);
            InRange(rec, cfg.params) && ListsOf(rec, KeyHistory(cfg, run, k))
  {
    hide Run, Replay, KeyHistory, InRange, ListsOf;
    StoreIsReplay(cfg, run, k);
    HistoriesAreValid(cfg, run, k);
    RecordOfHistory(KeyHistory(cfg, run, k), cfg.params);
  }
}
