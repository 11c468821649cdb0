/** Materialised blocks and the disputes that lift them, over every run of a node. */
module Disputes {
  import opened NetUtil
  import opened Reputation
  import opened ScoreStore
  import opened Wire
  import opened Trust
  import opened Relay
  import opened NodeModel
  import opened NodeRuns
  import opened NodeSafety

  // ---------------------------------------------------------------- marks as read off the log

  /** Some materialise call marked the key and no dispute has suppressed it since. */
  ghost predicate LiveMark(log: seq<Effect>, k: Text) {
    exists m :: 0 <= m < |log| && log[m] == Marked(k) && forall j :: m < j < |log| ==> log[j] != Suppressed(k)
  }

  predicate IsMarking(e: Effect) { e.Marked? || e.Suppressed? }

  lemma LiveMarkSnoc(log: seq<Effect>, e: Effect, k: Text)
    ensures LiveMark(log + [e], k) <==> e == Marked(k) || (LiveMark(log, k) && e != Suppressed(k))
    ensures Suppressed(k) in log + [e] <==> Suppressed(k) in log || e == Suppressed(k)
  {
    var longer := log + [e];
    assert longer[|log|] == e && forall j :: 0 <= j < |log| ==> longer[j] == log[j];
    if LiveMark(longer, k) {
      var m :| 0 <= m < |longer| && longer[m] == Marked(k) && forall j :: m < j < |longer| ==> longer[j] != Suppressed(k);
      if m < |log| { assert log[m] == Marked(k) && longer[|log|] != Suppressed(k); }
    }
    if LiveMark(log, k) && e != Suppressed(k) {
      var m :| 0 <= m < |log| && log[m] == Marked(k) && forall j :: m < j < |log| ==> log[j] != Suppressed(k);
      assert longer[m] == Marked(k);
    }
  }

  /** The node's two sets say what the log says. */
  ghost predicate MarksMatch(s: NodeState) {
    forall k :: (k in s.materialised <==> LiveMark(s.log, k)) && (k in s.disputed <==> Suppressed(k) in s.log)
  }

  lemma {:induction false} OthersLeaveMarks(log: seq<Effect>, added: seq<Effect>, k: Text)
    requires forall x :: x in added ==> !IsMarking(x)
    ensures LiveMark(log + added, k) <==> LiveMark(log, k)
    ensures Suppressed(k) in log + added <==> Suppressed(k) in log
  {
    if added == [] {
      assert log + added == log;
    } else {
      var early, e := added[..|added| - 1], added[|added| - 1];
      OthersLeaveMarks(log, early, k);
      assert e in added;
      LiveMarkSnoc(log + early, e, k);
      assert log + early + [e] == log + added;
    }
  }

  // ---------------------------------------------------------------- what each step does to the marks

  /** A counted vote: below the floor nothing happens; from it on the key is suppressed, its mark is
      cleared, and the block is lifted if the mark was there. */
  lemma VoteEffect(cfg: Config, s: NodeState, i: Input)
    requires ValidConfig(cfg) && i.Remote? && ScoredVote(cfg, s, i)
    ensures KeyOf(cfg, i.e).Some?
    ensures var key, t := KeyOf(cfg, i.e).value, Step(cfg, s, i);
            var subnets := Get(t.store, key).disputeSubnetsSeen;
            if |subnets| < cfg.unblockMinSubnets
            then t.log == s.log && t.materialised == s.materialised && t.disputed == s.disputed
            else && t.disputed == s.disputed + {key} && t.materialised == s.materialised - {key}
                 && t.log == s.log + [Suppressed(key)] + if key in s.materialised then [DisputeUnblocked(key, subnets)] else []
  {
    hide ApplyDispute, Vetted, Resolved, RelayOk, Protected, HopsOk;
  }

  /** Steps other than counted votes and materialise marks. */
  lemma QuietStep(cfg: Config, s: NodeState, i: Input) returns (added: seq<Effect>)
    requires ValidConfig(cfg) && !i.MatMark? && (i.Remote? ==> !ScoredVote(cfg, s, i))
    ensures Appends(s, Step(cfg, s, i), added) && forall x :: x in added ==> !IsMarking(x) && !x.DisputeUnblocked?
    ensures Step(cfg, s, i).materialised == s.materialised && Step(cfg, s, i).disputed == s.disputed
  {
    hide Judge, Protected, Resolved, Vetted, ApplyDispute, Sweep, Reloaded, RemoteObservation, Stamped, HopsOk, RelayOk, IsVote, Forwards;
    if i.Local? {
      added := LocalAppends(cfg, s, i);
      if KeyOf(cfg, i.e).Some? { JudgeKeepsRest(cfg, s, KeyOf(cfg, i.e).value, LocalObservation(cfg, i.e), i.now, false); }
    } else if i.Remote? {
      added := RemoteAppends(cfg, s, i);
      if KeyOf(cfg, i.e).Some? {
        var vetted := s.(trust := Vetted(cfg, s.trust, i.e, i.now));
        var r := Resolved(vetted.trust, i.e.reporterID, i.now, cfg.strangerWeight);
        JudgeKeepsRest(cfg, vetted, KeyOf(cfg, i.e).value, RemoteObservation(cfg, i.e, r), i.now, true);
      }
    } else {
      added := OtherAppends(cfg, s, i);
      assert forall x :: x in added ==> !x.Marked? by { OnlyMarksMark(cfg, s, i, added); }
    }
  }

  lemma OnlyMarksMark(cfg: Config, s: NodeState, i: Input, added: seq<Effect>)
    requires ValidConfig(cfg) && !i.Local? && !i.Remote? && !i.MatMark? && Appends(s, Step(cfg, s, i), added)
    ensures forall x :: x in added ==> !x.Marked?
  {
    hide LocalStep, RemoteStep, Sweep, ApplyDispute, Resolved, Reloaded, Protected;
    var t := Step(cfg, s, i);
    assert added == t.log[|s.log|..];
  }

  lemma LiftKeepsMarks(s: NodeState, t: NodeState, key: Text, subnets: seq<string>)
    requires MarksMatch(s) && t.disputed == s.disputed + {key} && t.materialised == s.materialised - {key}
    requires t.log == s.log + [Suppressed(key)] + if key in s.materialised then [DisputeUnblocked(key, subnets)] else []
    ensures MarksMatch(t)
  {
    hide LiveMark;
    var mid := s.log + [Suppressed(key)];
    forall k
      ensures (k in t.materialised <==> LiveMark(t.log, k)) && (k in t.disputed <==> Suppressed(k) in t.log)
    {
      LiveMarkSnoc(s.log, Suppressed(key), k);
      if key in s.materialised { LiveMarkSnoc(mid, DisputeUnblocked(key, subnets), k); } else { assert t.log == mid; }
    }
  }

  lemma VoteKeepsMarks(cfg: Config, s: NodeState, i: Input)
    requires ValidConfig(cfg) && MarksMatch(s) && i.Remote? && ScoredVote(cfg, s, i)
    ensures MarksMatch(Step(cfg, s, i))
  {
    hide Step, LiveMark, ScoredVote, KeyOf;
    VoteEffect(cfg, s, i);
    var key, t := KeyOf(cfg, i.e).value, Step(cfg, s, i);
    var subnets := Get(t.store, key).disputeSubnetsSeen;
    if |subnets| >= cfg.unblockMinSubnets { LiftKeepsMarks(s, t, key, subnets); }
  }

  lemma MarkKeepsMarks(cfg: Config, s: NodeState, i: Input)
    requires ValidConfig(cfg) && MarksMatch(s) && i.MatMark?
    ensures MarksMatch(Step(cfg, s, i))
  {
    hide LiveMark, LocalStep, RemoteStep, OwnVoteStep, SweepStep, MatCheckStep, MatBlockStep;
    if i.call in s.pending {
      forall k { LiveMarkSnoc(s.log, Marked(s.pending[i.call].ip), k); }
    }
  }

  lemma StepKeepsMarks(cfg: Config, s: NodeState, i: Input)
    requires ValidConfig(cfg) && MarksMatch(s)
    ensures MarksMatch(Step(cfg, s, i))
  {
    hide LiveMark, Step, ScoredVote;
    if i.Remote? && ScoredVote(cfg, s, i) {
      VoteKeepsMarks(cfg, s, i);
    } else if i.MatMark? {
      MarkKeepsMarks(cfg, s, i);
    } else {
      var added := QuietStep(cfg, s, i);
      forall k { OthersLeaveMarks(s.log, added, k); }
    }
  }

  /** In every run a key is held as materialised iff it was marked and not suppressed since, and held
      as disputed iff it was ever suppressed. */
  lemma {:induction false} MarksOfRun(cfg: Config, run: seq<Input>)
    requires ValidConfig(cfg)
    ensures MarksMatch(Run(cfg, run))
  {
    RunStep(cfg, run);
    if run != [] {
      hide Run, Step, MarksMatch;
      MarksOfRun(cfg, run[..|run| - 1]);
      StepKeepsMarks(cfg, Run(cfg, run[..|run| - 1]), run[|run| - 1]);
    }
  }

  // ---------------------------------------------------------------- what a dispute lifts

  /** A step lifts a block by dispute only when a materialise call marked the key and no dispute has
      cleared it since, and only with the floor of distinct anchored disputing subnets on record. */
  lemma OnlyDiverseDisputesLift(cfg: Config, run: seq<Input>, i: Input, j: nat)
    requires ValidConfig(cfg) && Clocked(run + [i])
    requires |Run(cfg, run).log| <= j < |Run(cfg, run + [i]).log| && Run(cfg, run + [i]).log[j].DisputeUnblocked?
    ensures var x := Run(cfg, run + [i]).log[j];
            && i.Remote? && ScoredVote(cfg, Run(cfg, run), i) && KeyOf(cfg, i.e) == Some(x.key)
            && LiveMark(Run(cfg, run).log, x.key)
            && |x.subnets| >= cfg.unblockMinSubnets && DuplicateFree(x.subnets)
            && (forall u :: u in x.subnets <==> AnchoredDisputingSubnet(KeyHistory(cfg, run + [i], x.key), u))
  {
    var longer := run + [i];
    assert longer[..|longer| - 1] == run && longer[|longer| - 1] == i;
    RunStep(cfg, longer);
    hide Run, Step, LiveMark, ScoredVote, KeyHistory, KeyOf;
    var s := Run(cfg, run);
    MarksOfRun(cfg, run);
    if !(i.Remote? && ScoredVote(cfg, s, i)) {
      OthersLiftNothing(cfg, s, i);
      assert false;
    }
    VoteEffect(cfg, s, i);
    RecordsOfRun(cfg, longer, KeyOf(cfg, i.e).value);
  }

  lemma OthersLiftNothing(cfg: Config, s: NodeState, i: Input)
    requires ValidConfig(cfg) && (i.Remote? ==> !ScoredVote(cfg, s, i))
    ensures forall j :: |s.log| <= j < |Step(cfg, s, i).log| ==> !Step(cfg, s, i).log[j].DisputeUnblocked?
  {
    if !i.MatMark? {
      hide Step, ScoredVote;
      var added := QuietStep(cfg, s, i);
      assert forall j :: |s.log| <= j < |Step(cfg, s, i).log| ==> Step(cfg, s, i).log[j] in added;
    }
  }

  // ---------------------------------------------------------------- what a check saw, a block relies on

  /** Every pending check and every materialised block saw no suppression of its key. */
  ghost predicate ChecksHold(s: NodeState) {
    && (forall c :: c in s.pending && s.pending[c].Checked? ==>
          s.pending[c].at <= |s.log| && Suppressed(s.pending[c].ip) !in s.log[..s.pending[c].at])
    && (forall j :: 0 <= j < |s.log| && s.log[j].BlockedFor? ==>
          s.log[j].checkedAt <= j && Suppressed(s.log[j].key) !in s.log[..s.log[j].checkedAt])
  }

  lemma StepKeepsChecks(cfg: Config, s: NodeState, i: Input)
    requires ValidConfig(cfg) && MarksMatch(s) && ChecksHold(s)
    ensures ChecksHold(Step(cfg, s, i))
  {
    hide Step, Protected, LiveMark;
    var t := Step(cfg, s, i);
    var added := StepAppends(cfg, s, i);
    StepPending(cfg, s, i);
    assert forall n :: 0 <= n <= |s.log| ==> t.log[..n] == s.log[..n];
    assert s.log[..|s.log|] == s.log;
    forall j | 0 <= j < |t.log| && t.log[j].BlockedFor?
      ensures t.log[j].checkedAt <= j && Suppressed(t.log[j].key) !in t.log[..t.log[j].checkedAt]
    {
      if j >= |s.log| { assert t.log[j] == added[j - |s.log|] && t.log[j] in added; }
    }
  }

  /** A materialise call whose suppression check came after a dispute of the key never blocks it: in
      every run each materialised block was checked at a moment with no suppression before it. */
  lemma {:induction false} ChecksOfRun(cfg: Config, run: seq<Input>)
    requires ValidConfig(cfg)
    ensures ChecksHold(Run(cfg, run))
  {
    RunStep(cfg, run);
    if run != [] {
      hide Run, Step, MarksMatch, ChecksHold;
      var before := run[..|run| - 1];
      ChecksOfRun(cfg, before);
      MarksOfRun(cfg, before);
      StepKeepsChecks(cfg, Run(cfg, before), run[|run| - 1]);
    }
  }

  /** Once a key is suppressed, no call that checks it from then on ever blocks it. */
  lemma DisputeEndsBlocking(cfg: Config, run: seq<Input>, d: nat, j: nat)
    requires ValidConfig(cfg) && d < |Run(cfg, run).log| && j < |Run(cfg, run).log|
    requires var log := Run(cfg, run).log; log[j].BlockedFor? && log[d] == Suppressed(log[j].key)
    ensures Run(cfg, run).log[j].checkedAt <= d
  {
    ChecksOfRun(cfg, run);
    hide Run;
    var log := Run(cfg, run).log;
    var at := log[j].checkedAt;
    assert forall i :: 0 <= i < at ==> log[..at][i] == log[i];
  }

  // ---------------------------------------------------------------- what a materialised block needs

  /** Input `m` of the run is a hit on `ip`, scored and spread widely enough to block, that the node saw
      when its log had length `at`. */
  ghost predicate WorthyHit(cfg: Config, run: seq<Input>, m: int, ip: Text, at: nat)
    requires ValidConfig(cfg)
  {
    && 0 <= m < |run| && run[m].MatCheck? && run[m].ip == ip && |Run(cfg, run[..m]).log| == at
    && cfg.materialize && run[m].rec.score >= cfg.blockThreshold && run[m].evidenceSubnets >= cfg.blockMinSubnets
  }

  ghost predicate HadHit(cfg: Config, run: seq<Input>, ip: Text, at: nat)
    requires ValidConfig(cfg)
  {
    exists m :: WorthyHit(cfg, run, m, ip, at)
  }

  /** Behind every pending check and every materialised block there is such a hit. */
  ghost predicate HitsBehind(cfg: Config, run: seq<Input>, s: NodeState)
    requires ValidConfig(cfg)
  {
    && (forall c :: c in s.pending && s.pending[c].Checked? ==> HadHit(cfg, run, s.pending[c].ip, s.pending[c].at))
    && (forall j :: 0 <= j < |s.log| && s.log[j].BlockedFor? ==> HadHit(cfg, run, s.log[j].key, s.log[j].checkedAt))
  }

  /** A check changes the pending calls only for a hit that is worth a block. */
  lemma CheckMeans(cfg: Config, s: NodeState, i: Input)
    requires ValidConfig(cfg) && i.MatCheck? && Step(cfg, s, i).pending != s.pending
    ensures cfg.materialize && i.rec.score >= cfg.blockThreshold && i.evidenceSubnets >= cfg.blockMinSubnets
    ensures !Protected(cfg, i.ip) && i.ip !in s.disputed
  {
    hide LocalStep, RemoteStep, Protected;
  }

  lemma HadHitLonger(cfg: Config, run: seq<Input>, i: Input, ip: Text, at: nat)
    requires ValidConfig(cfg) && HadHit(cfg, run, ip, at)
    ensures HadHit(cfg, run + [i], ip, at)
  {
    hide Run;
    var m :| WorthyHit(cfg, run, m, ip, at);
    assert (run + [i])[..m] == run[..m];
    assert WorthyHit(cfg, run + [i], m, ip, at);
  }

  lemma NewHit(cfg: Config, run: seq<Input>, i: Input)
    requires ValidConfig(cfg) && i.MatCheck? && Step(cfg, Run(cfg, run), i).pending != Run(cfg, run).pending
    ensures HadHit(cfg, run + [i], i.ip, |Run(cfg, run).log|)
  {
    CheckMeans(cfg, Run(cfg, run), i);
    hide Run, Step;
    assert (run + [i])[..|run|] == run;
    assert WorthyHit(cfg, run + [i], |run|, i.ip, |Run(cfg, run).log|);
  }

  lemma StepKeepsHits(cfg: Config, run: seq<Input>, i: Input)
    requires ValidConfig(cfg) && HitsBehind(cfg, run, Run(cfg, run))
    ensures HitsBehind(cfg, run + [i], Step(cfg, Run(cfg, run), i))
  {
    hide Run, Step, Protected, HadHit;
    var s := Run(cfg, run);
    var t := Step(cfg, s, i);
    var added := StepAppends(cfg, s, i);
    StepPending(cfg, s, i);
    forall c | c in t.pending && t.pending[c].Checked?
      ensures HadHit(cfg, run + [i], t.pending[c].ip, t.pending[c].at)
    {
      if c in s.pending && t.pending[c] == s.pending[c] {
        HadHitLonger(cfg, run, i, t.pending[c].ip, t.pending[c].at);
      } else {
        NewHit(cfg, run, i);
      }
    }
    forall j | 0 <= j < |t.log| && t.log[j].BlockedFor?
      ensures HadHit(cfg, run + [i], t.log[j].key, t.log[j].checkedAt)
    {
      if j >= |s.log| { assert t.log[j] == added[j - |s.log|] && t.log[j] in added; } else { assert t.log[j] == s.log[j]; }
      HadHitLonger(cfg, run, i, t.log[j].key, t.log[j].checkedAt);
    }
  }

  /** In every run each materialised block comes from a hit on its key, with materialisation on, a score at
      the threshold and evidence from the floor of subnets. */
  lemma {:induction false} HitsOfRun(cfg: Config, run: seq<Input>)
    requires ValidConfig(cfg)
    ensures HitsBehind(cfg, run, Run(cfg, run))
  {
    if run == [] {
      RunSnoc(cfg, run, MatMark(0));
    } else {
      hide Run, Step, HitsBehind;
      var before, i := run[..|run| - 1], run[|run| - 1];
      assert before + [i] == run;
      HitsOfRun(cfg, before);
      StepKeepsHits(cfg, before, i);
      RunSnoc(cfg, before, i);
    }
  }

  // ---------------------------------------------------------------- where marks come from

  ghost predicate BlockedBefore(log: seq<Effect>, k: Text, n: int) {
    exists j :: 0 <= j < n && j < |log| && log[j].BlockedFor? && log[j].key == k
  }

  /** A call that enforced its block did so on the log, and a mark follows such a block. */
  ghost predicate MarksFollowBlocks(s: NodeState) {
    && (forall c :: c in s.pending && s.pending[c].Enforced? ==> BlockedBefore(s.log, s.pending[c].ip, |s.log|))
    && (forall j :: 0 <= j < |s.log| && s.log[j].Marked? ==> BlockedBefore(s.log, s.log[j].key, j))
  }

  lemma BlockedBeforeLonger(log: seq<Effect>, added: seq<Effect>, k: Text, n: int, m: int)
    requires BlockedBefore(log, k, n) && n <= m
    ensures BlockedBefore(log + added, k, m)
  {
    var j :| 0 <= j < n && j < |log| && log[j].BlockedFor? && log[j].key == k;
    assert (log + added)[j] == log[j];
  }

  lemma LongerLogKeepsMarks(s: NodeState, t: NodeState, added: seq<Effect>)
    requires MarksFollowBlocks(s) && Appends(s, t, added)
    requires forall x :: x in added && x.Marked? ==> BlockedBefore(s.log, x.key, |s.log|)
    requires forall c :: c in t.pending && t.pending[c].Enforced? ==>
               (c in s.pending && s.pending[c] == t.pending[c]) || BlockedBefore(t.log, t.pending[c].ip, |t.log|)
    ensures MarksFollowBlocks(t)
  {
    hide BlockedBefore;
    forall c | c in t.pending && t.pending[c].Enforced?
      ensures BlockedBefore(t.log, t.pending[c].ip, |t.log|)
    {
      if c in s.pending && s.pending[c] == t.pending[c] {
        BlockedBeforeLonger(s.log, added, t.pending[c].ip, |s.log|, |t.log|);
      }
    }
    forall j | 0 <= j < |t.log| && t.log[j].Marked?
      ensures BlockedBefore(t.log, t.log[j].key, j)
    {
      if j < |s.log| {
        assert t.log[j] == s.log[j];
        BlockedBeforeLonger(s.log, added, s.log[j].key, j, j);
      } else {
        assert t.log[j] == added[j - |s.log|] && t.log[j] in added;
        BlockedBeforeLonger(s.log, added, t.log[j].key, |s.log|, j);
      }
    }
  }

  lemma MatStepKeepsProvenance(cfg: Config, s: NodeState, i: Input)
    requires ValidConfig(cfg) && MarksFollowBlocks(s) && (i.MatBlock? || i.MatMark?)
    ensures MarksFollowBlocks(Step(cfg, s, i))
  {
    hide LocalStep, RemoteStep, OwnVoteStep, SweepStep, MatCheckStep;
    var t := Step(cfg, s, i);
    assert s.log <= t.log;
    var added := t.log[|s.log|..];
    if i.MatBlock? && i.call in s.pending && s.pending[i.call].Checked? {
      assert t.log[|s.log|] == BlockedFor(s.pending[i.call].ip, s.pending[i.call].at);
      assert BlockedBefore(t.log, s.pending[i.call].ip, |t.log|);
    }
    hide Step, MarksFollowBlocks, BlockedBefore, MatBlockStep, MatMarkStep;
    LongerLogKeepsMarks(s, t, added);
  }

  lemma QuietKeepsProvenance(cfg: Config, s: NodeState, i: Input)
    requires ValidConfig(cfg) && MarksFollowBlocks(s) && !i.MatBlock? && !i.MatMark?
    ensures MarksFollowBlocks(Step(cfg, s, i))
  {
    hide Step, Protected, BlockedBefore, MarksFollowBlocks;
    StepPending(cfg, s, i);
    var added: seq<Effect>;
    if i.Remote? { added := RemoteAppends(cfg, s, i); } else { added := QuietStep(cfg, s, i); }
    LongerLogKeepsMarks(s, Step(cfg, s, i), added);
  }

  /** In every run a key is marked as materialised only after a materialise call blocked it. */
  lemma {:induction false} ProvenanceOfRun(cfg: Config, run: seq<Input>)
    requires ValidConfig(cfg)
    ensures MarksFollowBlocks(Run(cfg, run))
  {
    RunStep(cfg, run);
    if run != [] {
      hide Run, Step, MarksFollowBlocks;
      var s, i := Run(cfg, run[..|run| - 1]), run[|run| - 1];
      ProvenanceOfRun(cfg, run[..|run| - 1]);
      if i.MatBlock? || i.MatMark? { MatStepKeepsProvenance(cfg, s, i); } else { QuietKeepsProvenance(cfg, s, i); }
    }
  }

  // ---------------------------------------------------------------- what is not promised

  /** What the last two parts of a materialise call do, whatever happened since its check. */
  lemma MaterialiseCompletes(cfg: Config, s: NodeState, c: nat, ip: Text, at: nat)
    requires ValidConfig(cfg) && c in s.pending && s.pending[c] == Checked(ip, at)
    ensures Step(cfg, Step(cfg, s, MatBlock(c, true)), MatMark(c))
         == s.(log := s.log + [BlockedFor(ip, at), Marked(ip)], materialised := s.materialised + {ip}, pending := s.pending - {c})
  {
  }

  /** A sweep lifts every block whose score has faded below the threshold, a materialised one too, and
      leaves its mark behind. */
  lemma SweepLiftsFadedBlocks(cfg: Config, s: NodeState, ip: Text, now: Time)
    requires ValidConfig(cfg) && ip in s.store && s.store[ip].lastSeen != 0
    ensures var t := Step(cfg, s, SweepKey(ip, now, true));
            && (t.log == s.log + [SweepUnblocked(ip)] <==> Current(s.store[ip], now, cfg.params) < cfg.unblockThreshold)
            && t.materialised == s.materialised
  {
    hide DecayScore;
    assert s.log != s.log + [SweepUnblocked(ip)];
  }
}
