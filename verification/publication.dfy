/** What a node's step hands to the transport. */
module Publication {
  import opened NetUtil
  import opened Reputation
  import opened Wire
  import opened Trust
  import opened Relay
  import opened NodeModel
  import opened NodeRuns
  import opened NodeSafety

  /** The one publication of a step, if any: a local report onto the home subnet, or a bridged copy onto
      every joined subnet but the one it came from. */
  ghost function PublishedBy(cfg: Config, s: NodeState, i: Input): (x: Option<Effect>)
    requires ValidConfig(cfg)
    ensures x.Some? ==> x.value.Published?
  {
    if i.Local? && ScoredLocal(cfg, i) && cfg.networked
    then Some(Published(Stamped(cfg, i.e, KeyOf(cfg, i.e).value), {Canonical(cfg.homeSubnet)}))
    else if i.Remote? && ScoredReport(cfg, s, i).Some? && !i.shedBridge && cfg.networked && cfg.bridge && Forwards(i.e, cfg.selfID)
    then Some(Published(Forwarded(i.e, cfg.selfID), cfg.subnets - {i.subnet}))
    else None
  }

  lemma RemotePublishes(cfg: Config, s: NodeState, i: Input) returns (added: seq<Effect>)
    requires ValidConfig(cfg) && i.Remote?
    ensures Appends(s, Step(cfg, s, i), added)
    ensures forall x: Effect :: x.Published? ==> (x in added <==> PublishedBy(cfg, s, i) == Some(x))
  {
    hide Judge, Protected, Resolved, Vetted, ApplyDispute, HopsOk, RelayOk, IsVote, Forwards, RemoteObservation;
    added := [];
    if Admitted(cfg, s, i.e, i.from, i.shed) {
      if IsVote(i.e) {
        added := VoteAppends(cfg, s, i);
      } else if ScoredReport(cfg, s, i).Some? {
        var key := KeyOf(cfg, i.e).value;
        var vetted := s.(trust := Vetted(cfg, s.trust, i.e, i.now));
        var obs := RemoteObservation(cfg, i.e, ScoredReport(cfg, s, i).value);
        JudgeLog(cfg, vetted, key, obs, i.now, true);
        var judged := Judge(cfg, vetted, key, obs, i.now, true);
        added := (if judged.log == s.log then [] else [Blocked(key, true)]) + Reemissions(cfg, i.e, i.subnet, i.shedBridge);
        assert Step(cfg, s, i).log == judged.log + Reemissions(cfg, i.e, i.subnet, i.shedBridge);
      }
    }
  }

  lemma VoteAppends(cfg: Config, s: NodeState, i: Input) returns (added: seq<Effect>)
    requires ValidConfig(cfg) && i.Remote? && Admitted(cfg, s, i.e, i.from, i.shed) && IsVote(i.e)
    ensures Appends(s, Step(cfg, s, i), added) && forall x :: x in added ==> !x.Published?
    ensures PublishedBy(cfg, s, i) == None
  {
    hide Protected, Resolved, Vetted, ApplyDispute, HopsOk, RelayOk, Forwards;
    var t := Step(cfg, s, i);
    assert s.log <= t.log;
    added := t.log[|s.log|..];
  }

  lemma LocalPublishes(cfg: Config, s: NodeState, i: Input) returns (added: seq<Effect>)
    requires ValidConfig(cfg) && i.Local?
    ensures Appends(s, Step(cfg, s, i), added)
    ensures forall x: Effect :: x.Published? ==> (x in added <==> PublishedBy(cfg, s, i) == Some(x))
  {
    hide Judge, Protected, Stamped, RemoteStep, ScoredReport;
    added := [];
    if ScoredLocal(cfg, i) {
      var key, obs := KeyOf(cfg, i.e).value, LocalObservation(cfg, i.e);
      JudgeLog(cfg, s, key, obs, i.now, false);
      var judged := Judge(cfg, s, key, obs, i.now, false);
      added := (if judged.log == s.log then [] else [Blocked(key, false)])
               + if cfg.networked then [Published(Stamped(cfg, i.e, key), {Canonical(cfg.homeSubnet)})] else [];
    }
  }

  /** Every step publishes exactly its publication. */
  lemma StepPublishes(cfg: Config, s: NodeState, i: Input) returns (added: seq<Effect>)
    requires ValidConfig(cfg)
    ensures Appends(s, Step(cfg, s, i), added)
    ensures forall x: Effect :: x.Published? ==> (x in added <==> PublishedBy(cfg, s, i) == Some(x))
  {
    hide Step, ScoredReport, ScoredLocal, Forwards;
    if i.Local? { added := LocalPublishes(cfg, s, i); }
    else if i.Remote? { added := RemotePublishes(cfg, s, i); }
    else { added := OtherAppends(cfg, s, i); }
  }
}
