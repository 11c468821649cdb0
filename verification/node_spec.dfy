/** What a node does with one event, said of the event itself: which events have any effect, what they
    record, when they block and what they publish. Nothing here goes through the machine's own guards. */
module NodeSpec {
  import opened NetUtil
  import opened NeverBlock
  import opened Reputation
  import opened ScoreStore
  import opened Burst
  import opened Rules
  import opened Wire
  import opened Trust
  import opened Relay
  import opened NodeModel
  import opened NodeRuns

  // ---------------------------------------------------------------- which events count

  /** The publisher is known and not blocked, a signature is good, and an event published by another than
      its reporter is signed and passed on by the last hop of its trace. */
  ghost predicate Authentic(cfg: Config, blocked: set<string>, e: Event, from: string) {
    && from != "" && from !in blocked
    && (e.signature != "" ==> cfg.eventSigOk(e))
    && (e.reporterID != from ==> e.signature != "" && e.originTrace != [] && e.originTrace[|e.originTrace| - 1] == from)
  }

  ghost predicate HasKey(cfg: Config, e: Event, key: Text) { NormalizeIP(cfg.parse(e.ip), cfg.ipv6Prefix) == Some(key) }

  /** The event did not pass through this node and has at most eight hops behind it. */
  ghost predicate Fresh(cfg: Config, e: Event) {
    (cfg.selfID != "" ==> forall h :: h in e.originTrace ==> h != cfg.selfID) && |e.originTrace| <= 8
  }

  /** A report that the node takes up, as far as its certificate. */
  ghost predicate TakesUp(cfg: Config, s: NodeState, i: Input, key: Text)
    requires ValidConfig(cfg) && i.Remote?
  {
    && !i.shed && Authentic(cfg, s.trust.blocked, i.e, i.from) && HasKey(cfg, i.e, key)
    && i.e.kind != "vote" && Fresh(cfg, i.e) && !Protected(cfg, key)
  }

  lemma TakesUpIff(cfg: Config, s: NodeState, i: Input)
    requires ValidConfig(cfg) && i.Remote?
    ensures ScoredReport(cfg, s, i).Some? <==> !i.dup && i.dbOk && exists key :: TakesUp(cfg, s, i, key)
    ensures forall key :: TakesUp(cfg, s, i, key) ==> KeyOf(cfg, i.e) == Some(key)
    ensures ScoredVote(cfg, s, i) <==>
              && !i.shed && Authentic(cfg, s.trust.blocked, i.e, i.from) && (exists key :: HasKey(cfg, i.e, key))
              && i.e.kind == "vote" && !i.dup && i.dbOk
  {
    hide Protected, Resolved, Vetted;
    if KeyOf(cfg, i.e).Some? {
      var key := KeyOf(cfg, i.e).value;
      assert HasKey(cfg, i.e, key);
      assert ScoredReport(cfg, s, i).Some? ==> TakesUp(cfg, s, i, key);
    }
  }

  /** A remote event that changes anything at all, a record, the log, a mark or the trust, is authentic and
      was not shed. */
  lemma EffectsAreAuthentic(cfg: Config, run: seq<Input>, i: Input)
    requires ValidConfig(cfg) && i.Remote? && Run(cfg, run + [i]) != Run(cfg, run)
    ensures Authentic(cfg, Run(cfg, run).trust.blocked, i.e, i.from) && !i.shed
  {
    RunSnoc(cfg, run, i);
    hide Run, ReportStep, VoteStep;
    var s := Run(cfg, run);
    assert Admitted(cfg, s, i.e, i.from, i.shed);
  }

  // ---------------------------------------------------------------- what a report records

  /** "" and "default" name one subnet. */
  ghost predicate SameSubnet(a: string, b: string) { a == b || (a in {"", "default"} && b in {"", "default"}) }

  /** An un-anchored report from another subnet loses weight, by a half if the discount makes no sense. */
  function WeightOf(cfg: Config, e: Event, r: Resolution): real {
    if r.anchored || e.subnetID == cfg.homeSubnet || (e.subnetID in {"", "default"} && cfg.homeSubnet in {"", "default"}) then r.weight
    else if 0.0 < cfg.federationDiscount <= 1.0 then r.weight * cfg.federationDiscount
    else r.weight * 0.5
  }

  lemma ObservationIs(cfg: Config, e: Event, r: Resolution)
    ensures RemoteObservation(cfg, e, r) == Observation(e.reason, e.reporterID, r.group, WeightOf(cfg, e, r), r.anchored, e.subnetID)
  {
  }

  /** A report that is taken up adds its reporter's own certificate, if it verifies; nothing else a report
      does touches the trust. */
  lemma ReportTrust(cfg: Config, s: NodeState, i: Input)
    requires ValidConfig(cfg) && i.Remote? && i.e.kind != "vote"
    ensures var t := Step(cfg, s, i).trust;
            if (exists key :: TakesUp(cfg, s, i, key)) && i.e.vouch.Some? && i.e.vouch.value.peerID == i.e.reporterID
            then t == WithCert(s.trust, i.e.vouch.value, i.now, cfg.certSigOk) else t == s.trust
  {
    hide Judge, Protected, Resolved, WithCert, RemoteObservation, Reemissions;
    if KeyOf(cfg, i.e).Some? {
      var key := KeyOf(cfg, i.e).value;
      assert HasKey(cfg, i.e, key);
      var vetted := s.(trust := Vetted(cfg, s.trust, i.e, i.now));
      var r := Resolved(vetted.trust, i.e.reporterID, i.now, cfg.strangerWeight);
      JudgeKeepsRest(cfg, vetted, key, RemoteObservation(cfg, i.e, r), i.now, true);
      assert Step(cfg, s, i).trust != s.trust || Step(cfg, s, i) != s ==> TakesUp(cfg, s, i, key);
    }
  }

  /** The record a report of `key` makes, its verdict, and its effects. */
  ghost predicate Judged(cfg: Config, s: NodeState, t: NodeState, key: Text, obs: Observation, now: Time, remote: bool, published: seq<Effect>) {
    var k := BurstKey(key, obs.reason);
    var rec := Accumulate(Get(s.store, key), obs, now, cfg.params);
    var fed := if obs.anchored then s.bursts[k := At(s.bursts, k) + [now]] else s.bursts;
    var blocks := Evaluated(s.rules, cfg.fallback, k, rec, fed, now).0.action == Block && (remote ==> |rec.groups| > 0);
    && t.store == s.store[key := rec]
    && t.log == s.log + (if blocks then [Blocked(key, remote)] else []) + published
  }

  lemma JudgeIsJudged(cfg: Config, s: NodeState, key: Text, obs: Observation, now: Time, remote: bool, published: seq<Effect>)
    ensures var t := Judge(cfg, s, key, obs, now, remote);
            Judged(cfg, s, t.(log := t.log + published), key, obs, now, remote, published)
  {
    hide Accumulate, Evaluated;
  }

  /** What a bridge passes on: the event as it came, with this node as one more hop, onto every joined
      subnet but the one it came from. */
  ghost function PassedOn(cfg: Config, i: Input): seq<Effect>
    requires i.Remote?
  {
    if !i.shedBridge && cfg.networked && cfg.bridge && cfg.selfID != "" && |i.e.originTrace| < 8
       && (forall h :: h in i.e.originTrace ==> h != cfg.selfID)
    then [Published(i.e.(originTrace := i.e.originTrace + [cfg.selfID]), set n | n in cfg.subnets && n != i.subnet)] else []
  }

  lemma ReemissionsArePassedOn(cfg: Config, i: Input)
    requires i.Remote?
    ensures Reemissions(cfg, i.e, i.subnet, i.shedBridge) == PassedOn(cfg, i)
  {
    assert cfg.subnets - {i.subnet} == set n | n in cfg.subnets && n != i.subnet;
  }

  /** A report the node takes up for the first time is recorded with its reporter's standing, blocked iff
      the rules say so and an anchored group is on record, and passed on iff this node bridges; any other
      report records, blocks and publishes nothing. */
  lemma ReportSpec(cfg: Config, s: NodeState, i: Input)
    requires ValidConfig(cfg) && i.Remote? && i.e.kind != "vote"
    ensures var t := Step(cfg, s, i);
            var r := Resolved(t.trust, i.e.reporterID, i.now, cfg.strangerWeight);
            var obs := Observation(i.e.reason, i.e.reporterID, r.group, WeightOf(cfg, i.e, r), r.anchored, i.e.subnetID);
            && (forall key :: TakesUp(cfg, s, i, key) && !i.dup && i.dbOk ==> Judged(cfg, s, t, key, obs, i.now, true, PassedOn(cfg, i)))
            && ((i.dup || !i.dbOk || forall key :: !TakesUp(cfg, s, i, key)) ==> t.store == s.store && t.log == s.log)
  {
    TakesUpIff(cfg, s, i);
    ReemissionsArePassedOn(cfg, i);
    if ScoredReport(cfg, s, i).Some? {
      ScoredStep(cfg, s, i);
      hide Step, Judge, Judged, Resolved, Vetted, TakesUp, ScoredReport, Reemissions, PassedOn, RemoteObservation, WeightOf;
      var vetted := s.(trust := Vetted(cfg, s.trust, i.e, i.now));
      var r := Resolved(vetted.trust, i.e.reporterID, i.now, cfg.strangerWeight);
      ObservationIs(cfg, i.e, r);
      var key, obs := KeyOf(cfg, i.e).value, RemoteObservation(cfg, i.e, r);
      JudgeKeepsRest(cfg, vetted, key, obs, i.now, true);
      JudgeIsJudged(cfg, vetted, key, obs, i.now, true, PassedOn(cfg, i));
      VettedJudged(cfg, s, vetted, Step(cfg, s, i), key, obs, i.now, PassedOn(cfg, i));
    } else {
      UnscoredStep(cfg, s, i);
    }
  }

  lemma VettedJudged(cfg: Config, s: NodeState, vetted: NodeState, t: NodeState, key: Text, obs: Observation, now: Time, published: seq<Effect>)
    requires vetted == s.(trust := vetted.trust) && Judged(cfg, vetted, t, key, obs, now, true, published)
    ensures Judged(cfg, s, t, key, obs, now, true, published)
  {
    hide Accumulate, Evaluated;
  }

  lemma ScoredStep(cfg: Config, s: NodeState, i: Input)
    requires ValidConfig(cfg) && i.Remote? && ScoredReport(cfg, s, i).Some?
    ensures KeyOf(cfg, i.e).Some?
    ensures var vetted := s.(trust := Vetted(cfg, s.trust, i.e, i.now));
            var r := Resolved(vetted.trust, i.e.reporterID, i.now, cfg.strangerWeight);
            var t := Judge(cfg, vetted, KeyOf(cfg, i.e).value, RemoteObservation(cfg, i.e, r), i.now, true);
            Step(cfg, s, i) == t.(log := t.log + Reemissions(cfg, i.e, i.subnet, i.shedBridge))
  {
    hide Judge, Protected, Resolved, Vetted, RemoteObservation, Reemissions, HopsOk, RelayOk, IsVote;
  }

  lemma UnscoredStep(cfg: Config, s: NodeState, i: Input)
    requires ValidConfig(cfg) && i.Remote? && i.e.kind != "vote" && ScoredReport(cfg, s, i).None?
    ensures Step(cfg, s, i).store == s.store && Step(cfg, s, i).log == s.log
  {
    hide Judge, Protected, Resolved, Vetted, RemoteObservation, Reemissions, HopsOk, RelayOk;
  }

  /** A vote counts once if it is authentic: it disputes the record with its reporter's standing. Any other
      vote leaves records and log alone. */
  lemma VoteSpec(cfg: Config, s: NodeState, i: Input)
    requires ValidConfig(cfg) && i.Remote? && i.e.kind == "vote"
    ensures var t := Step(cfg, s, i);
            var r := Resolved(t.trust, i.e.reporterID, i.now, cfg.strangerWeight);
            var obs := Observation("", i.e.reporterID, "", r.weight, r.anchored, i.e.subnetID);
            var counts := !i.shed && Authentic(cfg, s.trust.blocked, i.e, i.from) && !i.dup && i.dbOk;
            && (forall key :: counts && HasKey(cfg, i.e, key) ==>
                  t.store == s.store[key := ApplyDispute(Get(s.store, key), obs, i.now, cfg.params)])
            && (!counts || (forall key :: !HasKey(cfg, i.e, key)) ==> t.store == s.store && t.log == s.log)
  {
    AdmittedIff(cfg, s, i);
    if KeyOf(cfg, i.e).Some? { assert HasKey(cfg, i.e, KeyOf(cfg, i.e).value); }
    assert forall key :: HasKey(cfg, i.e, key) ==> KeyOf(cfg, i.e) == Some(key);
    hide *;
    if Admitted(cfg, s, i.e, i.from, i.shed) && !i.dup && i.dbOk {
      CountedVote(cfg, s, i);
    } else {
      UncountedVote(cfg, s, i);
    }
  }

  lemma CountedVote(cfg: Config, s: NodeState, i: Input)
    requires ValidConfig(cfg) && i.Remote? && i.e.kind == "vote" && Admitted(cfg, s, i.e, i.from, i.shed) && !i.dup && i.dbOk
    ensures KeyOf(cfg, i.e).Some?
    ensures var t := Step(cfg, s, i);
            var r := Resolved(t.trust, i.e.reporterID, i.now, cfg.strangerWeight);
            var obs := Observation("", i.e.reporterID, "", r.weight, r.anchored, i.e.subnetID);
            var key := KeyOf(cfg, i.e).value;
            t.store == s.store[key := ApplyDispute(Get(s.store, key), obs, i.now, cfg.params)]
  {
    hide ApplyDispute, Resolved, Vetted, Protected, RelayOk, ReportStep, KeyOf;
  }

  lemma UncountedVote(cfg: Config, s: NodeState, i: Input)
    requires ValidConfig(cfg) && i.Remote? && i.e.kind == "vote" && !(Admitted(cfg, s, i.e, i.from, i.shed) && !i.dup && i.dbOk)
    ensures Step(cfg, s, i).store == s.store && Step(cfg, s, i).log == s.log
  {
    hide ApplyDispute, Resolved, Vetted, Protected, RelayOk, ReportStep, KeyOf;
  }

  lemma AdmittedIff(cfg: Config, s: NodeState, i: Input)
    requires i.Remote?
    ensures Admitted(cfg, s, i.e, i.from, i.shed) <==> !i.shed && Authentic(cfg, s.trust.blocked, i.e, i.from) && KeyOf(cfg, i.e).Some?
  {
    hide KeyOf;
  }

  /** A vote not seen before adds its reporter's own certificate as a report does. */
  lemma VoteTrust(cfg: Config, s: NodeState, i: Input)
    requires ValidConfig(cfg) && i.Remote? && i.e.kind == "vote"
    ensures var t := Step(cfg, s, i).trust;
            if !i.shed && Authentic(cfg, s.trust.blocked, i.e, i.from) && !i.dup && (exists key :: HasKey(cfg, i.e, key))
               && i.e.vouch.Some? && i.e.vouch.value.peerID == i.e.reporterID
            then t == WithCert(s.trust, i.e.vouch.value, i.now, cfg.certSigOk) else t == s.trust
  {
    AdmittedIff(cfg, s, i);
    if KeyOf(cfg, i.e).Some? { assert HasKey(cfg, i.e, KeyOf(cfg, i.e).value); }
    hide ApplyDispute, Resolved, WithCert, Protected, Admitted, Authentic, ReportStep;
  }

  /** The node's own vote disputes its record with whatever standing the node has with itself. */
  lemma OwnVoteSpec(cfg: Config, s: NodeState, i: Input)
    requires ValidConfig(cfg) && i.OwnVote?
    ensures var t := Step(cfg, s, i);
            var r := Resolved(s.trust, cfg.selfID, i.now, cfg.strangerWeight);
            var obs := Observation("", cfg.selfID, "", r.weight, r.anchored, cfg.homeSubnet);
            t == if i.dbOk then s.(store := s.store[i.ip := ApplyDispute(Get(s.store, i.ip), obs, i.now, cfg.params)]) else s
  {
    hide ApplyDispute, Resolved, LocalStep, RemoteStep;
  }

  /** A node takes two reports for the same iff reporter, shown key, reason and time agree, as long as only
      the reason holds bars. */
  lemma SameReportIff(cfg: Config, a: Event, b: Event, k: Text, l: Text)
    requires HasKey(cfg, a, k) && HasKey(cfg, b, l)
    requires BarFree(a.reporterID) && BarFree(cfg.show(k)) && BarFree(a.ts) && BarFree(b.reporterID) && BarFree(cfg.show(l)) && BarFree(b.ts)
    ensures ReportId(cfg, a) == ReportId(cfg, b) <==>
              a.reporterID == b.reporterID && cfg.show(k) == cfg.show(l) && a.reason == b.reason && a.ts == b.ts
  {
    if ReportId(cfg, a) == ReportId(cfg, b) {
      DedupKeyIdentifies(a.reporterID, cfg.show(k), a.reason, a.ts, b.reporterID, cfg.show(l), b.reason, b.ts);
    }
  }

  /** A sweep stores the decayed score of a known key, keeps the rest of its record and unblocks the key iff
      that score is below the threshold. */
  lemma SweepSpec(cfg: Config, s: NodeState, i: Input)
    requires ValidConfig(cfg) && i.SweepKey?
    ensures var t := Step(cfg, s, i);
            if i.key !in s.store || !i.dbOk then t == s
            else
              var rec := s.store[i.key];
              var score := if rec.lastSeen == 0 then rec.score else DecayScore(rec.score, rec.lastSeen, i.now, cfg.params.halfLife);
              var shown := if rec.lastSeen == 0 then 0.0 else score;
              t == s.(store := s.store[i.key := rec.(score := score)],
                      log := s.log + if shown < cfg.unblockThreshold then [SweepUnblocked(i.key)] else [])
  {
    hide DecayScore, LocalStep, RemoteStep;
  }

  // ---------------------------------------------------------------- local reports

  /** The event as this node publishes it: its own, from its home subnet, with its certificate, signed. */
  ghost predicate OwnReport(cfg: Config, e: Event, key: Text, out: Event) {
    && out.ip == cfg.show(key) && out.reason == e.reason && out.ts == e.ts && out.kind == e.kind
    && out.reporterID == cfg.selfID && out.subnetID == cfg.homeSubnet && out.vouch == cfg.vouch
    && (cfg.selfID != "" ==> out.originTrace == [cfg.selfID])
    && out.signature == cfg.sign(out.(signature := e.signature))
  }

  /** A local report of an unprotected key is recorded at full trust, blocked iff the rules say so, and
      published onto the home subnet; any other local report does nothing. */
  lemma LocalSpec(cfg: Config, s: NodeState, i: Input)
    requires ValidConfig(cfg) && i.Local?
    ensures var t := Step(cfg, s, i);
            var obs := Observation(i.e.reason, cfg.selfID, cfg.selfID, 1.0, true, "");
            var home := if cfg.homeSubnet == "default" then "" else cfg.homeSubnet;
            && t.trust == s.trust
            && (forall key :: HasKey(cfg, i.e, key) && !Protected(cfg, key) && i.dbOk ==>
                  exists published: seq<Effect> ::
                    && Judged(cfg, s, t, key, obs, i.now, false, published)
                    && (if cfg.networked
                        then |published| == 1 && published[0].Published? && published[0].onto == {home} && OwnReport(cfg, i.e, key, published[0].e)
                        else published == []))
            && (!i.dbOk || (forall key :: HasKey(cfg, i.e, key) ==> Protected(cfg, key)) ==> t == s)
  {
    hide Judge, Protected, Judged, RemoteStep;
    if ScoredLocal(cfg, i) {
      var key, obs := KeyOf(cfg, i.e).value, LocalObservation(cfg, i.e);
      var out := Stamped(cfg, i.e, key);
      var published := if cfg.networked then [Published(out, {Canonical(cfg.homeSubnet)})] else [];
      JudgeKeepsRest(cfg, s, key, obs, i.now, false);
      JudgeIsJudged(cfg, s, key, obs, i.now, false, published);
      assert OwnReport(cfg, i.e, key, out) || !cfg.networked;
      var judged := Judge(cfg, s, key, obs, i.now, false);
      assert judged.log + [] == judged.log;
      assert Judged(cfg, s, Step(cfg, s, i), key, obs, i.now, false, published);
    } else if KeyOf(cfg, i.e).Some? {
      assert HasKey(cfg, i.e, KeyOf(cfg, i.e).value);
    }
  }
}
