/** Runs from an empty store in which a dispute comes too late for a materialise call, and in which it
    lifts a block that this node placed itself. */
module DisputeRuns {
  import opened NetUtil
  import opened NeverBlock
  import opened Reputation
  import opened ScoreStore
  import opened Burst
  import opened Rules
  import opened Wire
  import opened Trust
  import opened Relay
  import opened NodeModel
  import opened NodeRuns
  import opened NodeSafety
  import opened Disputes

  /** A counted vote lifts a block of its key iff the floor of disputing subnets is reached and the key
      carries a live materialise mark, whoever placed the block that stands. */
  lemma DisputeLiftsIff(cfg: Config, run: seq<Input>, i: Input)
    requires ValidConfig(cfg) && i.Remote? && ScoredVote(cfg, Run(cfg, run), i)
    ensures KeyOf(cfg, i.e).Some?
    ensures var key, s, t := KeyOf(cfg, i.e).value, Run(cfg, run), Run(cfg, run + [i]);
            && s.log <= t.log
            && ((exists u :: DisputeUnblocked(key, u) in t.log[|s.log|..]) <==>
                  |Get(t.store, key).disputeSubnetsSeen| >= cfg.unblockMinSubnets && LiveMark(s.log, key))
  {
    RunSnoc(cfg, run, i);
    MarksOfRun(cfg, run);
    VoteEffect(cfg, Run(cfg, run), i);
    hide Run, Step, ScoredVote, LiveMark, KeyOf;
    var key, s, t := KeyOf(cfg, i.e).value, Run(cfg, run), Run(cfg, run + [i]);
    var u := Get(t.store, key).disputeSubnetsSeen;
    if |u| >= cfg.unblockMinSubnets && key in s.materialised {
      assert t.log[|s.log|..][1] == DisputeUnblocked(key, u);
    }
  }

  // ---------------------------------------------------------------- the parts of the runs

  /** The operator trusts the Person whose certificate the voter holds. */
  ghost predicate Trusted(cfg: Config, an: Anchor, ct: PeerCert) {
    && an.weight > 0.0 && an.identityPubkey == EncodePub(ct.personKey) && !AnchorExpired(an, 1) && CertVerifies(ct, 1, cfg.certSigOk)
  }

  ghost predicate Votes(cfg: Config, e: Event, ct: PeerCert, k: Text) {
    && IsVote(e) && KeyOf(cfg, e) == Some(k) && e.reporterID == ct.peerID && e.signature == "" && e.vouch.None? && e.subnetID != ""
  }

  function TrustFile(an: Anchor, ct: PeerCert): Input { ReloadTrust(Loaded([an]), Loaded([ct]), Kept, 1) }

  function VoteOf(e: Event, ct: PeerCert): Input { Remote(e, ct.peerID, "", 1, false, false, false, true) }

  /** The trust state after one anchor and one certificate were loaded. */
  ghost predicate Vouching(cfg: Config, t: TrustState, ct: PeerCert) {
    t.blocked == {} && Resolved(t, ct.peerID, 1, cfg.strangerWeight).anchored
  }

  lemma TrustLoads(cfg: Config, an: Anchor, ct: PeerCert)
    requires ValidConfig(cfg) && Trusted(cfg, an, ct)
    ensures var t := Step(cfg, FRESH, TrustFile(an, ct));
            t == FRESH.(trust := t.trust) && Vouching(cfg, t.trust, ct)
  {
    var i := TrustFile(an, ct);
    OneAnchor(an);
    OneCert(ct, cfg.certSigOk);
    hide CertVerifies, ClampAnchors, MergeCerts;
    assert Step(cfg, FRESH, i).trust == Reloaded(NO_TRUST, i.anchors, i.certs, i.blocked, 1, cfg.certSigOk);
  }

  lemma OneAnchor(an: Anchor)
    requires an.weight > 0.0
    ensures an.identityPubkey in ClampAnchors([an]) && ClampAnchors([an])[an.identityPubkey].validUntil == an.validUntil
  {
    assert [an][..0] == [];
  }

  lemma OneCert(ct: PeerCert, sigOk: PeerCert -> bool)
    requires CertVerifies(ct, 1, sigOk)
    ensures MergeCerts(map[], [ct], 1, sigOk) == map[ct.peerID := ct] && 1 < ct.validUntil
  {
    assert [ct][..0] == [];
  }

  /** Worth a materialised block. */
  ghost predicate Worthy(cfg: Config, k: Text, rec: ScoreRecord, subnets: int)
    requires ValidConfig(cfg)
  {
    cfg.materialize && !Protected(cfg, k) && rec.score >= cfg.blockThreshold && subnets >= cfg.blockMinSubnets
  }

  lemma CheckPasses(cfg: Config, s: NodeState, k: Text, rec: ScoreRecord, subnets: int)
    requires ValidConfig(cfg) && Worthy(cfg, k, rec, subnets) && 0 !in s.pending && k !in s.disputed
    ensures Step(cfg, s, MatCheck(0, k, rec, subnets)) == s.(pending := s.pending[0 := Checked(k, |s.log|)])
  {
    hide Protected;
  }

  /** One vote from the trusted voter's subnet, on a record no one disputed yet. */
  lemma VoteCounts(cfg: Config, s: NodeState, e: Event, ct: PeerCert, k: Text)
    requires ValidConfig(cfg) && Votes(cfg, e, ct, k) && Vouching(cfg, s.trust, ct) && ct.peerID != ""
    requires cfg.unblockMinSubnets <= 1 && Get(s.store, k).disputeSubnetsSeen == []
    ensures var t := Step(cfg, s, VoteOf(e, ct));
            && t.disputed == s.disputed + {k} && t.materialised == s.materialised - {k} && t.pending == s.pending
            && t.log == s.log + [Suppressed(k)] + if k in s.materialised then [DisputeUnblocked(k, [e.subnetID])] else []
  {
    hide Resolved, KeyOf;
    var obs := DisputeObservation(e, Resolved(s.trust, ct.peerID, 1, cfg.strangerWeight));
    var rec := Get(s.store, k);
    assert Admitted(cfg, s, e, ct.peerID, false);
    OneDispute(rec, obs, cfg.params);
    hide ApplyDispute;
    assert Step(cfg, s, VoteOf(e, ct)) == VoteStep(cfg, s, e, 1, false, true);
  }

  lemma OneDispute(rec: ScoreRecord, obs: Observation, p: Params)
    requires obs.anchored && obs.subnet != "" && rec.disputeSubnetsSeen == []
    ensures ApplyDispute(rec, obs, 1, p).disputeSubnetsSeen == [obs.subnet]
  {
    hide Current, DisputePoints;
  }

  /** What a networked node publishes of a local report. */
  function Announced(cfg: Config, e: Event, k: Text): seq<Effect> {
    if cfg.networked then [Published(Stamped(cfg, e, k), {Canonical(cfg.homeSubnet)})] else []
  }

  /** In legacy mode one local report of a fresh key blocks it if the scenario alone is worth the threshold. */
  lemma LocalBlocks(cfg: Config, s: NodeState, e: Event, k: Text)
    requires ValidConfig(cfg) && KeyOf(cfg, e) == Some(k) && !Protected(cfg, k) && s.rules == [] && k !in s.store
    requires WeightFor(e.reason) >= cfg.fallback
    ensures var t := Step(cfg, s, Local(e, 1, true));
            && t.trust == s.trust && t.materialised == s.materialised && t.disputed == s.disputed && t.pending == s.pending
            && Get(t.store, k).disputeSubnetsSeen == []
            && t.log == s.log + [Blocked(k, false)] + Announced(cfg, e, k)
  {
    var obs := LocalObservation(cfg, e);
    FirstLocal(cfg, obs);
    JudgeKeepsRest(cfg, s, k, obs, 1, false);
    hide Accumulate, Protected, Stamped, Recorded, RemoteStep;
    assert Evaluation(cfg, s, k, obs, 1).0 == Verdict(Block, "");
    assert Judge(cfg, s, k, obs, 1, false).log == s.log + [Blocked(k, false)];
  }

  lemma FirstLocal(cfg: Config, obs: Observation)
    requires ValidConfig(cfg) && obs.trust == 1.0 && obs.anchored && obs.subnet == ""
    ensures Accumulate(EMPTY_RECORD, obs, 1, cfg.params).score == WeightFor(obs.reason)
    ensures Accumulate(EMPTY_RECORD, obs, 1, cfg.params).disputeSubnetsSeen == []
  {
  }

  // ---------------------------------------------------------------- too late a dispute

  function LateDispute(an: Anchor, ct: PeerCert, k: Text, rec: ScoreRecord, subnets: int, vote: Event): seq<Input> {
    [TrustFile(an, ct), MatCheck(0, k, rec, subnets), VoteOf(vote, ct), MatBlock(0, true), MatMark(0)]
  }

  /** From an empty store: trust, check, dispute, block, mark. The key ends up blocked, marked and
      disputed, and the dispute has lifted nothing. */
  lemma CheckedBeforeDisputeStillBlocks(cfg: Config, an: Anchor, ct: PeerCert, k: Text, rec: ScoreRecord, subnets: int, vote: Event)
    requires ValidConfig(cfg) && Trusted(cfg, an, ct) && Votes(cfg, vote, ct, k) && Worthy(cfg, k, rec, subnets)
    requires cfg.unblockMinSubnets <= 1
    ensures var run := LateDispute(an, ct, k, rec, subnets, vote);
            var t := Run(cfg, run);
            && Clocked(run)
            && t.log == [Suppressed(k), BlockedFor(k, 0), Marked(k)] && k in t.materialised && k in t.disputed
  {
    var i1, i2, i3 := TrustFile(an, ct), MatCheck(0, k, rec, subnets), VoteOf(vote, ct);
    var i4, i5 := MatBlock(0, true), MatMark(0);
    var run := LateDispute(an, ct, k, rec, subnets, vote);
    FiveSteps(cfg, i1, i2, i3, i4, i5);
    AllAtOne(run);
    TrustLoads(cfg, an, ct);
    CertNames(cfg, ct);
    hide Step, Run, Vouching, Trusted, Votes, Worthy, Clocked;
    var s1 := Step(cfg, FRESH, i1);
    CheckPasses(cfg, s1, k, rec, subnets);
    var s2 := Step(cfg, s1, i2);
    VoteCounts(cfg, s2, vote, ct, k);
    var s3 := Step(cfg, s2, i3);
    MaterialiseCompletes(cfg, s3, 0, k, 0);
  }

  lemma CertNames(cfg: Config, ct: PeerCert)
    requires CertVerifies(ct, 1, cfg.certSigOk)
    ensures ct.peerID != ""
  {
  }

  lemma FiveSteps(cfg: Config, i1: Input, i2: Input, i3: Input, i4: Input, i5: Input)
    requires ValidConfig(cfg)
    ensures Run(cfg, [i1, i2, i3, i4, i5]) == Step(cfg, Step(cfg, Step(cfg, Step(cfg, Step(cfg, FRESH, i1), i2), i3), i4), i5)
  {
    hide Run, Step;
    RunSnoc(cfg, [], i1);
    RunSnoc(cfg, [i1], i2);
    RunSnoc(cfg, [i1, i2], i3);
    RunSnoc(cfg, [i1, i2, i3], i4);
    RunSnoc(cfg, [i1, i2, i3, i4], i5);
    assert [] + [i1] == [i1] && [i1] + [i2] == [i1, i2] && [i1, i2] + [i3] == [i1, i2, i3];
    assert [i1, i2, i3] + [i4] == [i1, i2, i3, i4] && [i1, i2, i3, i4] + [i5] == [i1, i2, i3, i4, i5];
  }

  /** A run whose clock always reads 1 is clocked. */
  lemma {:induction false} AllAtOne(run: seq<Input>)
    requires forall i :: i in run && HasNow(i) ==> i.now == 1
    ensures Clocked(run) && Clock(run) == 1
  {
    if run != [] {
      assert run[|run| - 1] in run;
      AllAtOne(run[..|run| - 1]);
    }
  }

  // ---------------------------------------------------------------- a local block lifted

  function LocalThenDispute(an: Anchor, ct: PeerCert, k: Text, rec: ScoreRecord, subnets: int, local: Event, vote: Event): seq<Input> {
    [TrustFile(an, ct), MatCheck(0, k, rec, subnets), MatBlock(0, true), MatMark(0), Local(local, 1, true)] + [VoteOf(vote, ct)]
  }

  /** The run up to the local block. */
  lemma LocalRun(cfg: Config, an: Anchor, ct: PeerCert, k: Text, rec: ScoreRecord, subnets: int, local: Event)
    requires ValidConfig(cfg) && Trusted(cfg, an, ct) && Worthy(cfg, k, rec, subnets)
    requires KeyOf(cfg, local) == Some(k) && WeightFor(local.reason) >= cfg.fallback
    ensures var run := [TrustFile(an, ct), MatCheck(0, k, rec, subnets), MatBlock(0, true), MatMark(0), Local(local, 1, true)];
            var t := Run(cfg, run);
            && Vouching(cfg, t.trust, ct) && k in t.materialised && Get(t.store, k).disputeSubnetsSeen == []
            && t.log == [BlockedFor(k, 0), Marked(k), Blocked(k, false)] + Announced(cfg, local, k)
  {
    var i1, i2, i3, i4, i5 := TrustFile(an, ct), MatCheck(0, k, rec, subnets), MatBlock(0, true), MatMark(0), Local(local, 1, true);
    FiveSteps(cfg, i1, i2, i3, i4, i5);
    TrustLoads(cfg, an, ct);
    assert !Protected(cfg, k);
    hide Step, Run, Vouching, Trusted, Worthy, Protected, KeyOf, WeightFor, Announced;
    var s1 := Step(cfg, FRESH, i1);
    CheckPasses(cfg, s1, k, rec, subnets);
    var s2 := Step(cfg, s1, i2);
    MaterialiseCompletes(cfg, s2, 0, k, 0);
    LocalBlocks(cfg, Step(cfg, Step(cfg, s2, i3), i4), local, k);
  }

  /** From an empty store: trust, check, block, mark, then a local report that blocks the key, then a
      dispute. The dispute lifts the block the node placed on its own evidence. */
  lemma DisputeLiftsLocalBlock(cfg: Config, an: Anchor, ct: PeerCert, k: Text, rec: ScoreRecord, subnets: int, local: Event, vote: Event)
    requires ValidConfig(cfg) && Trusted(cfg, an, ct) && Votes(cfg, vote, ct, k) && Worthy(cfg, k, rec, subnets)
    requires cfg.unblockMinSubnets <= 1 && KeyOf(cfg, local) == Some(k) && WeightFor(local.reason) >= cfg.fallback
    ensures var run := LocalThenDispute(an, ct, k, rec, subnets, local, vote);
            && Clocked(run)
            && Run(cfg, run).log == [BlockedFor(k, 0), Marked(k), Blocked(k, false)] + Announced(cfg, local, k)
                                    + [Suppressed(k), DisputeUnblocked(k, [vote.subnetID])]
  {
    var run := LocalThenDispute(an, ct, k, rec, subnets, local, vote);
    AllAtOne(run);
    CertNames(cfg, ct);
    hide Step, Run, Vouching, Trusted, Votes, Worthy, Clocked, KeyOf, WeightFor, Announced;
    var before := [TrustFile(an, ct), MatCheck(0, k, rec, subnets), MatBlock(0, true), MatMark(0), Local(local, 1, true)];
    LocalRun(cfg, an, ct, k, rec, subnets, local);
    RunSnoc(cfg, before, VoteOf(vote, ct));
    VoteCounts(cfg, Run(cfg, before), vote, ct, k);
  }

  // ---------------------------------------------------------------- a materialised block lifted without a dispute

  function LocalThenSweep(k: Text, rec: ScoreRecord, subnets: int, local: Event): seq<Input> {
    [Local(local, 1, true), MatCheck(0, k, rec, subnets), MatBlock(0, true), MatMark(0), SweepKey(k, 1, true)]
  }

  /** In legacy mode one local report of a fresh key that is worth less than the threshold only scores it. */
  lemma LocalScores(cfg: Config, s: NodeState, e: Event, k: Text)
    requires ValidConfig(cfg) && KeyOf(cfg, e) == Some(k) && !Protected(cfg, k) && s.rules == [] && k !in s.store
    requires WeightFor(e.reason) < cfg.fallback
    ensures var t := Step(cfg, s, Local(e, 1, true));
            && t.materialised == s.materialised && t.disputed == s.disputed && t.pending == s.pending
            && k in t.store && t.store[k].score == WeightFor(e.reason) && t.store[k].lastSeen == 1
            && t.log == s.log + Announced(cfg, e, k)
  {
    var obs := LocalObservation(cfg, e);
    FirstLocal(cfg, obs);
    JudgeKeepsRest(cfg, s, k, obs, 1, false);
    hide Accumulate, Protected, Stamped, Recorded, RemoteStep;
    assert Evaluation(cfg, s, k, obs, 1).0 == UNMATCHED;
    assert Judge(cfg, s, k, obs, 1, false).log == s.log + [];
  }

  /** A sweep of a key seen in this very tick decays nothing, and lifts the block of a low score. */
  lemma SweepAtOnce(cfg: Config, s: NodeState, k: Text)
    requires ValidConfig(cfg) && k in s.store && s.store[k].lastSeen == 1 && s.store[k].score < cfg.unblockThreshold
    ensures var t := Step(cfg, s, SweepKey(k, 1, true));
            t.log == s.log + [SweepUnblocked(k)] && t.materialised == s.materialised && t.disputed == s.disputed
  {
    NoDecayAtOnce(s.store[k], cfg.params);
    hide DecayScore;
  }

  lemma FreshIsBlank()
    ensures FRESH.store == map[] && FRESH.rules == [] && FRESH.pending == map[] && FRESH.log == []
    ensures FRESH.materialised == {} && FRESH.disputed == {}
  {
  }

  lemma SweepRun(cfg: Config, k: Text, rec: ScoreRecord, subnets: int, local: Event)
    requires ValidConfig(cfg) && Worthy(cfg, k, rec, subnets) && KeyOf(cfg, local) == Some(k)
    requires WeightFor(local.reason) < cfg.fallback && WeightFor(local.reason) < cfg.unblockThreshold
    ensures var t := Run(cfg, LocalThenSweep(k, rec, subnets, local));
            && t.log == Announced(cfg, local, k) + [BlockedFor(k, |Announced(cfg, local, k)|), Marked(k), SweepUnblocked(k)]
            && k in t.materialised && k !in t.disputed
  {
    var i1, i2, i3, i4, i5 := Local(local, 1, true), MatCheck(0, k, rec, subnets), MatBlock(0, true), MatMark(0), SweepKey(k, 1, true);
    assert LocalThenSweep(k, rec, subnets, local) == [i1, i2, i3, i4, i5] && !Protected(cfg, k);
    FreshIsBlank();
    hide *;
    FiveSteps(cfg, i1, i2, i3, i4, i5);
    LocalScores(cfg, FRESH, local, k);
    var s1 := Step(cfg, FRESH, i1);
    CheckPasses(cfg, s1, k, rec, subnets);
    var s2 := Step(cfg, s1, i2);
    MaterialiseCompletes(cfg, s2, 0, k, |s1.log|);
    SweepAtOnce(cfg, Step(cfg, Step(cfg, s2, i3), i4), k);
  }

  /** From an empty store: a local report too weak to block, then a materialised block, then a sweep. The
      sweep lifts the block though nobody ever disputed the key, and leaves its mark. */
  lemma SweepLiftsMaterialisedBlock(cfg: Config, k: Text, rec: ScoreRecord, subnets: int, local: Event)
    requires ValidConfig(cfg) && Worthy(cfg, k, rec, subnets) && KeyOf(cfg, local) == Some(k)
    requires WeightFor(local.reason) < cfg.fallback && WeightFor(local.reason) < cfg.unblockThreshold
    ensures var run := LocalThenSweep(k, rec, subnets, local);
            var t := Run(cfg, run);
            && Clocked(run)
            && t.log == Announced(cfg, local, k) + [BlockedFor(k, |Announced(cfg, local, k)|), Marked(k), SweepUnblocked(k)]
            && LiveMark(t.log, k) && k in t.materialised && k !in t.disputed
  {
    var run := LocalThenSweep(k, rec, subnets, local);
    AllAtOne(run);
    hide Run, Worthy, Clocked, KeyOf, WeightFor, Announced, LiveMark, LocalThenSweep;
    SweepRun(cfg, k, rec, subnets, local);
    MarksOfRun(cfg, run);
  }
}
