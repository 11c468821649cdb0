/** What a node may do to the firewall, over every run. */
module NodeSafety {
  import opened NetUtil
  import opened NeverBlock
  import opened Reputation
  import opened ScoreStore
  import opened Burst
  import opened Rules
  import opened Wire
  import opened Trust
  import opened Relay
  import opened NodeModel
  import opened NodeRuns
  import NodeSpec

  predicate IsBlock(e: Effect) { e.Blocked? || e.BlockedFor? }

  // ---------------------------------------------------------------- what a step appends to the log

  /** The effects of judging one event. */
  lemma JudgeLog(cfg: Config, s: NodeState, key: Text, obs: Observation, now: Time, remote: bool)
    ensures var t := Judge(cfg, s, key, obs, now, remote);
            && (t.log == s.log || t.log == s.log + [Blocked(key, remote)])
            && (remote && t.log != s.log ==> Get(t.store, key).groups != [])
  {
    hide Accumulate, Evaluation;
  }

  /** The effects of one step, beyond what was logged before. */
  ghost predicate Appends(s: NodeState, t: NodeState, added: seq<Effect>) { t.log == s.log + added }

  lemma RemoteAppends(cfg: Config, s: NodeState, i: Input) returns (added: seq<Effect>)
    requires ValidConfig(cfg) && i.Remote?
    ensures Appends(s, Step(cfg, s, i), added)
    ensures forall x :: x in added ==> !x.BlockedFor? && !x.Marked?
    ensures !ScoredVote(cfg, s, i) ==> forall x :: x in added ==> x.Blocked? || x.Published?
    ensures forall x :: x in added && x.Blocked? ==>
              && !Protected(cfg, x.key) && ScoredReport(cfg, s, i).Some? && KeyOf(cfg, i.e) == Some(x.key)
              && Get(Step(cfg, s, i).store, x.key).groups != []
  {
    hide Judge, Protected, Resolved, Vetted, ApplyDispute, HopsOk, RelayOk, IsVote, Forwards, RemoteObservation;
    added := [];
    var t := Step(cfg, s, i);
    if Admitted(cfg, s, i.e, i.from, i.shed) {
      var key := KeyOf(cfg, i.e).value;
      var vetted := s.(trust := Vetted(cfg, s.trust, i.e, i.now));
      var r := Resolved(vetted.trust, i.e.reporterID, i.now, cfg.strangerWeight);
      if IsVote(i.e) {
        if !i.dup && i.dbOk {
          var subnets := ApplyDispute(Get(s.store, key), DisputeObservation(i.e, r), i.now, cfg.params).disputeSubnetsSeen;
          if |subnets| >= cfg.unblockMinSubnets {
            added := [Suppressed(key)] + if key in s.materialised then [DisputeUnblocked(key, subnets)] else [];
          }
        }
      } else if ScoredReport(cfg, s, i).Some? {
        var obs := RemoteObservation(cfg, i.e, r);
        JudgeLog(cfg, vetted, key, obs, i.now, true);
        var judged := Judge(cfg, vetted, key, obs, i.now, true);
        added := (if judged.log == s.log then [] else [Blocked(key, true)]) + Reemissions(cfg, i.e, i.subnet, i.shedBridge);
        assert t.log == judged.log + Reemissions(cfg, i.e, i.subnet, i.shedBridge);
        assert t.store == judged.store;
      }
    }
  }

  lemma LocalAppends(cfg: Config, s: NodeState, i: Input) returns (added: seq<Effect>)
    requires ValidConfig(cfg) && i.Local?
    ensures Appends(s, Step(cfg, s, i), added)
    ensures forall x :: x in added ==> x.Published? || (x.Blocked? && !x.remote && !Protected(cfg, x.key))
  {
    hide Judge, Protected, Stamped, RemoteStep;
    added := [];
    if ScoredLocal(cfg, i) {
      var key, obs := KeyOf(cfg, i.e).value, LocalObservation(cfg, i.e);
      JudgeLog(cfg, s, key, obs, i.now, false);
      var judged := Judge(cfg, s, key, obs, i.now, false);
      added := (if judged.log == s.log then [] else [Blocked(key, false)])
               + if cfg.networked then [Published(Stamped(cfg, i.e, key), {Canonical(cfg.homeSubnet)})] else [];
    }
  }

  /** Steps that neither score nor dispute append at most one effect of their own kind. */
  lemma OtherAppends(cfg: Config, s: NodeState, i: Input) returns (added: seq<Effect>)
    requires ValidConfig(cfg) && !i.Local? && !i.Remote?
    ensures Appends(s, Step(cfg, s, i), added)
    ensures forall x :: x in added ==> x.SweepUnblocked? || x.BlockedFor? || x.Marked?
    ensures forall x :: x in added && x.BlockedFor? ==>
              i.MatBlock? && i.call in s.pending && s.pending[i.call] == Checked(x.key, x.checkedAt)
  {
    hide LocalStep, RemoteStep, Sweep, ApplyDispute, Resolved, Reloaded, Protected;
    var t := Step(cfg, s, i);
    assert s.log <= t.log;
    added := t.log[|s.log|..];
  }

  /** Whatever a step blocks is unprotected, and what it blocks on a remote report has an anchored
      group on record. */
  lemma StepAppends(cfg: Config, s: NodeState, i: Input) returns (added: seq<Effect>)
    requires ValidConfig(cfg)
    ensures Appends(s, Step(cfg, s, i), added)
    ensures forall x :: x in added && x.Blocked? ==>
              !Protected(cfg, x.key) && (x.remote ==> Get(Step(cfg, s, i).store, x.key).groups != [])
    ensures forall x :: x in added && x.BlockedFor? ==>
              i.MatBlock? && i.call in s.pending && s.pending[i.call] == Checked(x.key, x.checkedAt)
  {
    hide *;
    if i.Local? { added := LocalAppends(cfg, s, i); }
    else if i.Remote? { added := RemoteAppends(cfg, s, i); }
    else { added := OtherAppends(cfg, s, i); }
  }

  // ---------------------------------------------------------------- enforcement gate

  ghost predicate Gated(cfg: Config, s: NodeState)
    requires ValidConfig(cfg)
  {
    && (forall j :: 0 <= j < |s.log| && IsBlock(s.log[j]) ==> !Protected(cfg, s.log[j].key))
    && (forall c :: c in s.pending ==> !Protected(cfg, s.pending[c].ip))
  }

  /** The only way into the pending calls is the check. */
  lemma StepPending(cfg: Config, s: NodeState, i: Input)
    requires ValidConfig(cfg)
    ensures forall c :: c in Step(cfg, s, i).pending ==>
              || (c in s.pending && Step(cfg, s, i).pending[c].ip == s.pending[c].ip
                  && (Step(cfg, s, i).pending[c].Checked? ==> Step(cfg, s, i).pending[c] == s.pending[c]))
              || (i.MatCheck? && Step(cfg, s, i).pending[c] == Checked(i.ip, |s.log|) && i.ip !in s.disputed && !Protected(cfg, i.ip))
    ensures !i.MatBlock? ==> forall c :: c in Step(cfg, s, i).pending && c in s.pending ==> Step(cfg, s, i).pending[c] == s.pending[c]
  {
    hide Judge, Protected, Resolved, Vetted, ApplyDispute, Sweep, Reloaded, RemoteObservation, Stamped, HopsOk, RelayOk, IsVote, Forwards;
    if i.Local? {
      if KeyOf(cfg, i.e).Some? { JudgeKeepsRest(cfg, s, KeyOf(cfg, i.e).value, LocalObservation(cfg, i.e), i.now, false); }
    } else if i.Remote? && KeyOf(cfg, i.e).Some? {
      var vetted := s.(trust := Vetted(cfg, s.trust, i.e, i.now));
      var r := Resolved(vetted.trust, i.e.reporterID, i.now, cfg.strangerWeight);
      JudgeKeepsRest(cfg, vetted, KeyOf(cfg, i.e).value, RemoteObservation(cfg, i.e, r), i.now, true);
    }
  }

  /** No key ever passed to Block or BlockFor is on the never-block list or the whitelist. */
  lemma {:induction false} NothingProtectedIsBlocked(cfg: Config, run: seq<Input>)
    requires ValidConfig(cfg)
    ensures Gated(cfg, Run(cfg, run))
  {
    RunStep(cfg, run);
    hide Run, Step, Protected;
    if run != [] {
      var before, i := run[..|run| - 1], run[|run| - 1];
      NothingProtectedIsBlocked(cfg, before);
      var s := Run(cfg, before);
      var added := StepAppends(cfg, s, i);
      StepPending(cfg, s, i);
      assert forall j :: |s.log| <= j < |Run(cfg, run).log| ==> Run(cfg, run).log[j] in added;
    }
  }

  // ---------------------------------------------------------------- remote blocks are backed

  /** Step `i` of the run is an observation of `k` by this node itself. */
  ghost predicate OwnObservation(cfg: Config, run: seq<Input>, i: int, k: Text)
    requires ValidConfig(cfg)
  {
    0 <= i < |run| && run[i].Local? && ScoredLocal(cfg, run[i]) && KeyOf(cfg, run[i].e) == Some(k)
  }

  /** Step `i` is an authentic report of `k` by a peer whose certificate had verified and whose anchor was
      live then. */
  ghost predicate VouchedObservation(cfg: Config, run: seq<Input>, i: int, k: Text)
    requires ValidConfig(cfg)
  {
    && 0 <= i < |run| && run[i].Remote? && KeyOf(cfg, run[i].e) == Some(k)
    && NodeSpec.Authentic(cfg, Run(cfg, run[..i]).trust.blocked, run[i].e, run[i].from)
    && ScoredReport(cfg, Run(cfg, run[..i]), run[i]).Some?
    && Vouched(Vetted(cfg, Run(cfg, run[..i]).trust, run[i].e, run[i].now), run[i].e.reporterID, run[i].now, cfg.certSigOk)
  }

  ghost predicate Backed(cfg: Config, run: seq<Input>, k: Text)
    requires ValidConfig(cfg)
  {
    exists i :: OwnObservation(cfg, run, i, k) || VouchedObservation(cfg, run, i, k)
  }

  lemma BackedLonger(cfg: Config, run: seq<Input>, k: Text)
    requires ValidConfig(cfg) && run != [] && Backed(cfg, run[..|run| - 1], k)
    ensures Backed(cfg, run, k)
  {
    hide Run, ScoredReport, ScoredLocal, Vouched, KeyOf, Vetted, NodeSpec.Authentic;
    var before := run[..|run| - 1];
    var i :| OwnObservation(cfg, before, i, k) || VouchedObservation(cfg, before, i, k);
    assert before[i] == run[i] && before[..i] == run[..i];
    assert OwnObservation(cfg, run, i, k) || VouchedObservation(cfg, run, i, k);
  }

  lemma ClockedPrefix(run: seq<Input>)
    requires Clocked(run)
    ensures run != [] ==> Clocked(run[..|run| - 1])
  {
  }

  /** An anchored report in a key's history comes from a backing step. */
  lemma {:induction false} AnchoredReportsAreBacked(cfg: Config, run: seq<Input>, k: Text)
    requires ValidConfig(cfg) && Clocked(run)
    requires exists j :: 0 <= j < |KeyHistory(cfg, run, k)| && AnchoredReport(KeyHistory(cfg, run, k)[j])
    ensures Backed(cfg, run, k)
  {
    hide *;
    HistoryStep(cfg, run, k);
    ClockedPrefix(run);
    if run != [] {
      var n := |run| - 1;
      var before, i := run[..n], run[n];
      var h := KeyHistory(cfg, before, k);
      var j :| 0 <= j < |KeyHistory(cfg, run, k)| && AnchoredReport(KeyHistory(cfg, run, k)[j]);
      if j < |h| {
        assert KeyHistory(cfg, run, k)[j] == h[j];
        AnchoredReportsAreBacked(cfg, before, k);
        BackedLonger(cfg, run, k);
      } else {
        assert before + [i] == run;
        BackingStep(cfg, before, i, k);
      }
    }
  }

  lemma BackingStep(cfg: Config, run: seq<Input>, i: Input, k: Text)
    requires ValidConfig(cfg) && Clocked(run + [i])
    requires ChangeFor(cfg, Run(cfg, run), i, k).Some? && AnchoredReport(ChangeFor(cfg, Run(cfg, run), i, k).value)
    ensures Backed(cfg, run + [i], k)
  {
    hide Run, Protected, Admitted, Vetted, Vouched, Resolved, HopsOk, IsVote, Discount, NodeSpec.Authentic;
    var longer, n := run + [i], |run|;
    assert longer[..|longer| - 1] == run && longer[..n] == run && longer[n] == i;
    if i.Local? {
      assert OwnObservation(cfg, longer, n, k);
    } else if i.Remote? {
      NodeSpec.TakesUpIff(cfg, Run(cfg, run), i);
      RemoteResolution(cfg, run, i.e, i.now);
      assert VouchedObservation(cfg, longer, n, k);
    }
  }

  /** A block on the remote path implies an observation of the key, no later than the block, by this
      node or by a vouched peer. */
  lemma {:induction false} RemoteBlocksAreBacked(cfg: Config, run: seq<Input>, k: Text)
    requires ValidConfig(cfg) && Clocked(run) && Blocked(k, true) in Run(cfg, run).log
    ensures Backed(cfg, run, k)
  {
    RunStep(cfg, run);
    hide Run, Step, Backed, KeyHistory;
    if run != [] {
      var before, i := run[..|run| - 1], run[|run| - 1];
      var s := Run(cfg, before);
      if Blocked(k, true) in s.log {
        RemoteBlocksAreBacked(cfg, before, k);
        BackedLonger(cfg, run, k);
      } else {
        var added := StepAppends(cfg, s, i);
        assert Blocked(k, true) in added;
        RecordsOfRun(cfg, run, k);
        var rec := Get(Run(cfg, run).store, k);
        assert ReportingGroup(KeyHistory(cfg, run, k), rec.groups[0]);
        AnchoredReportsAreBacked(cfg, run, k);
      }
    }
  }
}
