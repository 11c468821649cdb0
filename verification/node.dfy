/** The running node: the objects of internal/node/node.go and the methods that change them, each
    proved to take exactly the step of the state machine in NodeModel. */
module NodeObject {
  import opened NetUtil
  import opened NeverBlock
  import opened Reputation
  import opened ScoreStore
  import opened Burst
  import opened Rules
  import opened Wire
  import opened Trust
  import opened Dedup
  import Governor
  import RateLimit
  import opened Relay
  import opened NodeModel
  import NodeRuns
  import NodeSafety
  import Disputes

  method WhitelistContains(whitelist: seq<Text>, ip: Text) returns (found: bool)
    requires forall i :: 0 <= i < |whitelist| ==> Parsed(whitelist[i])
    ensures found <==> Whitelisted(whitelist, ip)
  {
    hide EntryAllows;
    var addr := KeyAddr(ip);
    if addr.None? {
      return false;
    }
    for i := 0 to |whitelist|
      invariant forall j :: 0 <= j < i ==> !EntryAllows(whitelist[j], addr.value)
    {
      if EntryAllows(whitelist[i], addr.value) {
        return true;
      }
    }
    return false;
  }

  /** A cache that holds an unexpired entry. */
  predicate Repeated(seen: map<string, nat>, id: string, now: nat, ttl: int) { id in seen && Live(seen[id], now, ttl) }

  ghost predicate ShedNow(log: seq<Governor.Call>, budget: real) { budget > 0.0 && Governor.Shedding(log, budget) }

  /** The governor's log after one remote event was charged and gated. */
  ghost function GatedLog(log: seq<Governor.Call>, budget: real, tick: nat, gate: nat): seq<Governor.Call> {
    if budget > 0.0 then log + [Governor.Charged(tick)] + [Governor.Asked(gate, true)] else log
  }

  /** The governor's log after one more question that is no gate. */
  ghost function AskedLog(log: seq<Governor.Call>, budget: real, tick: nat): seq<Governor.Call> {
    if budget > 0.0 then log + [Governor.Asked(tick, false)] else log
  }

  /** How many of the ticks lie at lo..hi. */
  ghost function TicksIn(ticks: seq<nat>, lo: int, hi: int): nat {
    if ticks == [] then 0 else
      TicksIn(ticks[..|ticks| - 1], lo, hi) + if lo <= ticks[|ticks| - 1] <= hi then 1 else 0
  }

  /** The admitted events are the gate calls of the governor's log that did not shed. */
  ghost predicate Metered(log: seq<Governor.Call>, budget: real, admitted: seq<nat>) {
    budget > 0.0 ==> forall lo: int, hi: int :: TicksIn(admitted, lo, hi) == RateLimit.Passes(log, budget, lo, hi)
  }

  /** The event gets as far as the dedup cache. */
  ghost predicate ReachesCache(cfg: Config, s: NodeState, e: Event, from: string, shed: bool)
    requires ValidConfig(cfg)
  {
    Admitted(cfg, s, e, from, shed) && (IsVote(e) || (HopsOk(e, cfg.selfID) && !Protected(cfg, KeyOf(cfg, e).value)))
  }

  class Node {
    const cfg: Config
    const engine: Engine
    const burst: BurstStore
    const dedup: DedupCache
    const gov: Governor.Governor
    const trust: TrustStore
    const rules: RuleSet
    var materialised: set<Text>
    var disputed: set<Text>
    ghost var pending: map<nat, Pending>
    ghost var log: seq<Effect> // calls on the sink and the transport
    ghost var inputs: seq<Input> // the steps taken so far
    ghost var admitted: seq<nat> // when the gate let a remote event through

    ghost function Repr(): set<object> {
      {this, engine, burst, dedup, gov, gov.counts, trust}
    }

    /** In any ten consecutive ticks fewer than budget + 1 remote events are admitted, whatever the local
        load; fewer than the budget as long as charge and gate read the same tick. */
    lemma RemoteEventsAreLimited(lo: nat)
      requires Valid() && Traced() && gov.maxPerSec > 0.0
      ensures TicksIn(admitted, lo, lo + Governor.BUCKETS - 1) as real < gov.maxPerSec + 1.0
      ensures RateLimit.ChargedWithGate(gov.log) ==> TicksIn(admitted, lo, lo + Governor.BUCKETS - 1) as real < gov.maxPerSec
    {
      hide RateLimit.Passes, RateLimit.ChargedBeforeGate, RateLimit.ChargedWithGate, Run, NodeRuns.Clocked, TicksIn;
      RateLimit.RemoteRateLimit(gov.log, gov.maxPerSec, lo);
    }

    ghost predicate Valid()
      reads engine, burst, dedup, gov, gov.counts, trust, rules
    {
      && ValidConfig(cfg) && engine.Valid() && burst.Valid() && dedup.Valid() && gov.Valid() && trust.Valid()
      && engine.params == cfg.params && rules.fallback == cfg.fallback
      && trust.strangerWeight == cfg.strangerWeight && trust.sigOk == cfg.certSigOk
      && RateLimit.ChargedBeforeGate(gov.log)
    }

    /** The clock readings of the next call are no earlier than those of the calls before it. */
    ghost predicate Ready(now: Time, tick: nat)
      reads this`inputs, burst, dedup, gov, trust
    {
      1 <= now && burst.lastNow <= now && dedup.lastNow <= now && trust.lastNow <= now && gov.lastTick <= tick
      && NodeRuns.Clock(inputs) <= now
    }

    /** The state of NodeModel that the objects hold. */
    ghost function View(): NodeState
      reads this`materialised, this`disputed, this`pending, this`log, engine, burst, trust, rules
    {
      NodeState(engine.store, burst.entries, rules.rules, trust.state, materialised, disputed, pending, log)
    }

    /** The objects hold what the machine makes of the steps so far. */
    ghost predicate Traced()
      reads this, engine, burst, trust, rules, gov
    {
      ValidConfig(cfg) && View() == Run(cfg, inputs) && NodeRuns.Clocked(inputs) && Metered(gov.log, gov.maxPerSec, admitted)
    }

    /** So everything proved of runs holds of the object: what it blocked was unprotected, its marks are
        those of its log, no call blocked what it had found suppressed, and every record is in range. */
    lemma SafeWheneverTraced(k: Text)
      requires Traced()
      ensures NodeSafety.Gated(cfg, View()) && Disputes.MarksMatch(View()) && Disputes.ChecksHold(View())
      ensures InRange(Get(engine.store, k), cfg.params)
    {
      hide *;
      TracedIs();
      NodeSafety.NothingProtectedIsBlocked(cfg, inputs);
      Disputes.MarksOfRun(cfg, inputs);
      Disputes.ChecksOfRun(cfg, inputs);
      NodeRuns.RecordsOfRun(cfg, inputs, k);
    }

    lemma ValidAndReady(now: Time, tick: nat)
      requires Valid() && Ready(now, tick)
      ensures ValidConfig(cfg) && NodeRuns.Clock(inputs) <= now
    {
    }

    lemma TracedIs()
      requires Traced()
      ensures ValidConfig(cfg) && View() == Run(cfg, inputs) && NodeRuns.Clocked(inputs) && View().store == engine.store
    {
      hide Run, ValidConfig, NodeRuns.Clocked, Metered;
    }

    constructor (cfg: Config, budget: real, dedupMax: nat, dedupTTL: int)
      requires ValidConfig(cfg) && dedupMax >= 1
      ensures Valid() && Traced() && View() == FRESH && fresh(Repr()) && forall now | now >= 1 :: Ready(now, 0)
    {
      hide ValidConfig, Engine.Valid, BurstStore.Valid, DedupCache.Valid, Governor.Governor.Valid, TrustStore.Valid,
        RateLimit.ChargedBeforeGate, ValidParams, Run, NodeRuns.Clocked, NodeRuns.Clock, Metered;
      ConfigParams(cfg);
      NothingMetered(budget);
      BeforeAnything(cfg);
      this.cfg := cfg;
      engine := new Engine(cfg.params);
      burst := new BurstStore();
      dedup := new DedupCache(dedupMax, dedupTTL);
      gov := new Governor.Governor(budget);
      trust := new TrustStore(cfg.strangerWeight, cfg.certSigOk);
      rules := new RuleSet(cfg.fallback, cfg.params.strangerCap);
      materialised, disputed, pending, log, inputs, admitted := {}, {}, map[], [], [], [];
    }

    /** Records an observation, feeds the burst window if it is anchored, evaluates the rules and
        blocks; a remote signal never forces a block without an anchored group. */
    method RecordAndJudge(key: Text, obs: Observation, now: Time, remote: bool, ghost tick: nat)
      requires Valid() && Ready(now, tick) && ValidObservation(obs)
      modifies engine, burst, this`log
      ensures Valid() && Ready(now, tick)
      ensures View() == Judge(cfg, old(View()), key, obs, now, remote)
    {
      hide Accumulate, Evaluated, Recorded, HistoryOf, Parsed, InRange, ValidConfig, RateLimit.ChargedBeforeGate, Engine.Valid, BurstStore.Valid, DedupCache.Valid,
        Governor.Governor.Valid, TrustStore.Valid;
      var _ := engine.Record(key, obs, now, true);
      var k := BurstKey(key, obs.reason);
      if obs.anchored {
        burst.Record(k, now);
      }
      var rec := Get(engine.store, key);
      var v := rules.Evaluate(k, rec, burst, now);
      var action := v.action;
      if remote && action.Block? && |rec.groups| == 0 {
        action := Watch;
      }
      if action.Block? {
        log := log + [Blocked(key, remote)];
      }
    }

    /** Re-publishes an accepted remote event onto every joined subnet but the one it arrived on. */
    method ReemitIfBridge(e: Event, subnet: string, tick: nat) returns (shed: bool)
      requires gov.Valid() && gov.lastTick <= tick && RateLimit.ChargedBeforeGate(gov.log)
      modifies gov, gov.counts, this`log
      ensures gov.Valid() && gov.lastTick <= tick && RateLimit.ChargedBeforeGate(gov.log)
      ensures log == old(log) + Reemissions(cfg, e, subnet, shed) && shed == ShedNow(gov.log, gov.maxPerSec)
      ensures gov.log == AskedLog(old(gov.log), gov.maxPerSec, tick)
    {
      hide Governor.Governor.Valid, RateLimit.ChargedBeforeGate, Governor.Shedding;
      ghost var was := gov.log;
      shed := gov.Shed(tick, false);
      NotAGate(was, Governor.Asked(tick, false));
      if shed || !cfg.networked || cfg.selfID == "" || !cfg.bridge {
        return;
      }
      for i := 0 to |e.originTrace|
        invariant forall j :: 0 <= j < i ==> e.originTrace[j] != cfg.selfID
      {
        if e.originTrace[i] == cfg.selfID {
          return;
        }
      }
      if |e.originTrace| >= MAX_ORIGIN_TRACE_LEN {
        return;
      }
      var out := e.(originTrace := e.originTrace + [cfg.selfID]);
      log := log + [Published(out, cfg.subnets - {subnet})];
    }

    /** Lifts a materialised block once enough distinct anchored subnets dispute it, and suppresses
        the key from then on. */
    method MaybeUnblockDisputed(key: Text, subnets: seq<string>)
      modifies this`materialised, this`disputed, this`log
      ensures var s := old(NodeState(map[], map[], [], NO_TRUST, materialised, disputed, map[], log));
              var t := MaybeUnblock(cfg, s, key, subnets);
              materialised == t.materialised && disputed == t.disputed && log == t.log
    {
      if |subnets| < cfg.unblockMinSubnets {
        return;
      }
      var wasMaterialised := key in materialised;
      disputed := disputed + {key};
      log := log + [Suppressed(key)];
      materialised := materialised - {key};
      if wasMaterialised {
        log := log + [DisputeUnblocked(key, subnets)];
      }
    }

    /** Handles one event from the node's own logs: metered, but never shed. */
    method ProcessLocal(e: Event, now: Time, tick: nat, dbOk: bool)
      requires Valid() && Traced() && Ready(now, tick)
      modifies Repr()
      ensures Valid() && Traced() && Ready(now, tick) && inputs == old(inputs) + [Local(e, now, dbOk)] && admitted == old(admitted)
      ensures View() == LocalStep(cfg, old(View()), e, now, dbOk)
      ensures gov.log == if gov.maxPerSec > 0.0 then old(gov.log) + [Governor.Charged(tick)] else old(gov.log)
      ensures KeyOf(cfg, e).Some? && !Protected(cfg, KeyOf(cfg, e).value) ==>
                ReportId(cfg, e.(reporterID := cfg.selfID)) in dedup.seen
    {
      hide Node.Valid, Node.View, Run, Step, LocalStep, NodeRuns.Clocked, NodeRuns.Clock, NodeRuns.HasNow, Metered, KeyOf, Protected,
        ReportId, ValidConfig;
      ghost var i := Local(e, now, dbOk);
      ghost var s := View();
      ValidAndReady(now, tick);
      NowOf(i);
      TracedStep(cfg, inputs, i);
      NodeRuns.StepIs(cfg, s, i);
      MeteredOther(gov.log, gov.maxPerSec, admitted, Governor.Charged(tick));
      HandleLocal(e, now, tick, dbOk);
      inputs := inputs + [i];
    }

    method HandleLocal(e: Event, now: Time, tick: nat, dbOk: bool)
      requires Valid() && Ready(now, tick)
      modifies Repr()
      ensures Valid() && Ready(now, tick) && inputs == old(inputs) && admitted == old(admitted)
      ensures gov.log == if gov.maxPerSec > 0.0 then old(gov.log) + [Governor.Charged(tick)] else old(gov.log)
      ensures View() == LocalStep(cfg, old(View()), e, now, dbOk)
      ensures KeyOf(cfg, e).Some? && !Protected(cfg, KeyOf(cfg, e).value) ==>
                ReportId(cfg, e.(reporterID := cfg.selfID)) in dedup.seen
    {
      hide DedupKey, NodeRuns.Clock, Dedup.Live, ValidConfig, RateLimit.ChargedBeforeGate, Engine.Valid, BurstStore.Valid, DedupCache.Valid,
        Governor.Governor.Valid, TrustStore.Valid, Judge, ListCovers, Whitelisted, EntryAllows;
      ChargeGovernor(tick);
      var key := NormalizeIP(cfg.parse(e.ip), cfg.ipv6Prefix);
      if key.None? {
        return;
      }
      var k := key.value;
      var covered := IsProtected(k);
      if covered {
        return;
      }
      var out := e.(ip := cfg.show(k), reporterID := cfg.selfID, vouch := cfg.vouch, subnetID := cfg.homeSubnet);
      if cfg.selfID != "" {
        out := out.(originTrace := [cfg.selfID]);
      }
      if cfg.networked {
        out := out.(signature := cfg.sign(out));
      }
      var _ := MarkSeen(out.reporterID, k, out.reason, out.ts, now);
      if !dbOk {
        return;
      }
      RecordAndJudge(k, Observation(e.reason, cfg.selfID, cfg.selfID, 1.0, true, ""), now, false, tick);
      if cfg.networked {
        log := log + [Published(out, {Canonical(cfg.homeSubnet)})];
      }
    }

    /** On the never-block list or the whitelist. */
    method IsProtected(key: Text) returns (yes: bool)
      requires ValidConfig(cfg)
      ensures yes <==> Protected(cfg, key)
    {
      hide EntryAllows, Whitelisted, ListCovers;
      yes := NeverBlock.Contains(cfg.neverBlock, key);
      if !yes {
        yes := WhitelistContains(cfg.whitelist, key);
      }
    }

    method ChargeGovernor(tick: nat)
      requires gov.Valid() && gov.lastTick <= tick && RateLimit.ChargedBeforeGate(gov.log)
      modifies gov, gov.counts
      ensures gov.Valid() && gov.lastTick <= tick && RateLimit.ChargedBeforeGate(gov.log)
      ensures gov.log == if gov.maxPerSec > 0.0 then old(gov.log) + [Governor.Charged(tick)] else old(gov.log)
    {
      hide Governor.Governor.Valid, RateLimit.ChargedBeforeGate;
      ghost var was := gov.log;
      gov.Charge(tick);
      NotAGate(was, Governor.Charged(tick));
    }

    /** Charges a remote event and asks the gate whether to drop it. */
    method Gate(tick: nat, gate: nat) returns (shed: bool)
      requires gov.Valid() && gov.lastTick <= tick <= gate && RateLimit.ChargedBeforeGate(gov.log)
      modifies gov, gov.counts
      ensures gov.Valid() && gov.lastTick <= gate && RateLimit.ChargedBeforeGate(gov.log)
      ensures gov.log == GatedLog(old(gov.log), gov.maxPerSec, tick, gate) && shed == ShedNow(gov.log, gov.maxPerSec)
    {
      ChargeGovernor(tick);
      ghost var was := gov.log;
      hide Governor.Governor.Valid, RateLimit.ChargedBeforeGate, Governor.Shedding;
      shed := gov.Shed(gate, true);
      if gov.maxPerSec > 0.0 { GateFollows(was, tick, gate); }
    }

    /** Marks a report or vote in the dedup cache. */
    method MarkSeen(reporter: string, key: Text, reason: string, ts: string, now: Time) returns (dup: bool)
      requires dedup.Valid() && dedup.lastNow <= now
      modifies dedup
      ensures dedup.Valid() && dedup.lastNow == now
      ensures dup == Repeated(old(dedup.seen), DedupKey(reporter, cfg.show(key), reason, ts), now, dedup.ttl)
      ensures Dedup.Marked(old(dedup.seen), dedup.seen, DedupKey(reporter, cfg.show(key), reason, ts), now, dedup.ttl)
    {
      DedupKeyNonEmpty(reporter, cfg.show(key), reason, ts);
      hide DedupKey, DedupCache.Valid, Dedup.Marked;
      dup := dedup.Seen(DedupKey(reporter, cfg.show(key), reason, ts), now);
    }

    /** Adds a certificate the event carries for its own reporter. */
    method AddVouch(e: Event, now: Time)
      requires trust.Valid() && trust.lastNow <= now && trust.sigOk == cfg.certSigOk
      modifies trust
      ensures trust.Valid() && trust.lastNow <= now && trust.state == Vetted(cfg, old(trust.state), e, now)
    {
      hide TrustStore.Valid, WithCert;
      if e.vouch.Some? && e.vouch.value.peerID == e.reporterID {
        var _ := trust.AddCert(e.vouch.value, now);
      }
    }

    /** Applies a dispute vote; `dup` is what the dedup cache answered. */
    method ProcessDispute(key: Text, e: Event, now: Time, dbOk: bool, ghost tick: nat) returns (dup: bool)
      requires Valid() && Ready(now, tick) && KeyOf(cfg, e) == Some(key)
      modifies this`materialised, this`disputed, this`log, engine, dedup, trust
      ensures Valid() && Ready(now, tick)
      ensures View() == VoteStep(cfg, old(View()), e, now, dup, dbOk)
      ensures dup == Repeated(old(dedup.seen), ReportId(cfg, e), now, dedup.ttl)
      ensures Dedup.Marked(old(dedup.seen), dedup.seen, ReportId(cfg, e), now, dedup.ttl)
    {
      hide DedupKey, Dedup.Marked, ValidConfig, RateLimit.ChargedBeforeGate, Engine.Valid, BurstStore.Valid, DedupCache.Valid,
        Governor.Governor.Valid, TrustStore.Valid, Vetted, Resolved, ApplyDispute;
      dup := MarkSeen(e.reporterID, key, e.reason, e.ts, now);
      if dup {
        return;
      }
      AddVouch(e, now);
      var r := trust.Resolve(e.reporterID, now);
      if !dbOk {
        return;
      }
      var subnets := engine.RecordDispute(key, Observation("", e.reporterID, "", r.weight, r.anchored, e.subnetID), now, dbOk);
      MaybeUnblockDisputed(key, subnets);
    }

    /** The event has not passed through this node and its trace is not over-long. */
    method HopsAreOk(e: Event) returns (ok: bool)
      ensures ok <==> HopsOk(e, cfg.selfID)
    {
      if cfg.selfID != "" {
        for i := 0 to |e.originTrace|
          invariant forall j :: 0 <= j < i ==> e.originTrace[j] != cfg.selfID
        {
          if e.originTrace[i] == cfg.selfID {
            return false;
          }
        }
      }
      return |e.originTrace| <= MAX_ORIGIN_TRACE_LEN;
    }

    /** A report by an un-anchored peer of another subnet counts at a discount. */
    method Weigh(e: Event, r: Resolution) returns (obs: Observation)
      requires 0.0 <= r.weight <= 1.0
      ensures obs == RemoteObservation(cfg, e, r) && ValidObservation(obs)
    {
      var weight := r.weight;
      NodeRuns.DiscountBounds(cfg, weight);
      if !r.anchored && Canonical(e.subnetID) != Canonical(cfg.homeSubnet) {
        var discount := cfg.federationDiscount;
        if discount <= 0.0 || discount > 1.0 {
          discount := 0.5;
        }
        weight := weight * discount;
      }
      obs := Observation(e.reason, e.reporterID, r.group, weight, r.anchored, e.subnetID);
    }

    method ProcessReport(key: Text, e: Event, subnet: string, now: Time, tick: nat, dbOk: bool) returns (dup: bool, shedBridge: bool)
      requires Valid() && Ready(now, tick) && KeyOf(cfg, e) == Some(key)
      modifies Repr()
      ensures Valid() && Ready(now, tick) && inputs == old(inputs) && admitted == old(admitted)
      ensures gov.log == old(gov.log) || gov.log == AskedLog(old(gov.log), gov.maxPerSec, tick)
      ensures if HopsOk(e, cfg.selfID) && !Protected(cfg, key)
              then Dedup.Marked(old(dedup.seen), dedup.seen, ReportId(cfg, e), now, dedup.ttl)
              else dedup.seen == old(dedup.seen)
      ensures View() == ReportStep(cfg, old(View()), e, subnet, now, dup, shedBridge, dbOk)
      ensures dup == (HopsOk(e, cfg.selfID) && !Protected(cfg, key) && Repeated(old(dedup.seen), ReportId(cfg, e), now, dedup.ttl))
    {
      hide DedupKey, Dedup.Marked, ShedNow, AskedLog, Repeated, NodeRuns.Clock, ValidConfig, RateLimit.ChargedBeforeGate, Engine.Valid, BurstStore.Valid, DedupCache.Valid,
        Governor.Governor.Valid, TrustStore.Valid, Vetted, Resolved, Judge, Protected, HopsOk, RemoteObservation, Reemissions;
      dup, shedBridge := false, false;
      var ok := HopsAreOk(e);
      if !ok {
        return;
      }
      var covered := IsProtected(key);
      if covered {
        return;
      }
      AddVouch(e, now);
      dup := MarkSeen(e.reporterID, key, e.reason, e.ts, now);
      if dup {
        return;
      }
      if !dbOk {
        return;
      }
      shedBridge := ScoreAndForward(key, e, subnet, now, tick);
    }

    /** Scores an accepted report at its reporter's weight and re-emits it. */
    method ScoreAndForward(key: Text, e: Event, subnet: string, now: Time, tick: nat) returns (shedBridge: bool)
      requires Valid() && Ready(now, tick)
      modifies engine, burst, gov, gov.counts, this`log
      ensures Valid() && Ready(now, tick)
      ensures var s := old(View());
              var t := Judge(cfg, s, key, RemoteObservation(cfg, e, Resolved(s.trust, e.reporterID, now, cfg.strangerWeight)), now, true);
              View() == t.(log := t.log + Reemissions(cfg, e, subnet, shedBridge))
      ensures gov.log == AskedLog(old(gov.log), gov.maxPerSec, tick) && shedBridge == ShedNow(gov.log, gov.maxPerSec)
    {
      hide ShedNow, NodeRuns.Clock, ValidConfig, RateLimit.ChargedBeforeGate, Engine.Valid, BurstStore.Valid, DedupCache.Valid,
        Governor.Governor.Valid, TrustStore.Valid, Resolved, Judge, RemoteObservation, Reemissions;
      var r := trust.Resolve(e.reporterID, now);
      var obs := Weigh(e, r);
      RecordAndJudge(key, obs, now, true, tick);
      shedBridge := ReemitIfBridge(e, subnet, tick);
    }

    /** Handles one event from the swarm. The results are the answers of the governor's gate, the
        dedup cache and the governor before a re-emission; the three ticks are the clock readings
        behind them. */
    method ProcessRemote(e: Event, from: string, subnet: string, now: Time, tick: nat, gate: nat, again: nat, dbOk: bool)
      returns (shed: bool, dup: bool, shedBridge: bool)
      requires Valid() && Traced() && Ready(now, tick) && tick <= gate <= again
      modifies Repr()
      ensures Valid() && Traced() && Ready(now, again)
      ensures inputs == old(inputs) + [Remote(e, from, subnet, now, shed, dup, shedBridge, dbOk)]
      ensures admitted == old(admitted) + if from != "" && !shed then [gate] else []
      ensures View() == RemoteStep(cfg, old(View()), Remote(e, from, subnet, now, shed, dup, shedBridge, dbOk))
      ensures from != "" ==> shed == ShedNow(GatedLog(old(gov.log), gov.maxPerSec, tick, gate), gov.maxPerSec)
      ensures if from == "" then gov.log == old(gov.log)
              else var gated := GatedLog(old(gov.log), gov.maxPerSec, tick, gate);
                   gov.log == gated || gov.log == AskedLog(gated, gov.maxPerSec, again)
      ensures if ReachesCache(cfg, old(View()), e, from, shed)
              then && dup == Repeated(old(dedup.seen), ReportId(cfg, e), now, dedup.ttl)
                   && Dedup.Marked(old(dedup.seen), dedup.seen, ReportId(cfg, e), now, dedup.ttl)
              else dedup.seen == old(dedup.seen)
    {
      hide Node.Valid, Node.View, Run, Step, RemoteStep, NodeRuns.Clocked, NodeRuns.Clock, NodeRuns.HasNow, Metered, KeyOf, Protected,
        ReportId, ValidConfig, ShedNow, GatedLog, AskedLog, ReachesCache, Repeated, Dedup.Marked;
      ghost var s := View();
      ValidAndReady(now, tick);
      assert admitted + [] == admitted;
      MeteredGate(gov.log, gov.maxPerSec, admitted, tick, gate, again);
      shed, dup, shedBridge := HandleRemote(e, from, subnet, now, tick, gate, again, dbOk);
      if from != "" && !shed { admitted := admitted + [gate]; }
      ghost var i := Remote(e, from, subnet, now, shed, dup, shedBridge, dbOk);
      NowOf(i);
      TracedStep(cfg, inputs, i);
      NodeRuns.StepIs(cfg, s, i);
      inputs := inputs + [i];
    }

    method HandleRemote(e: Event, from: string, subnet: string, now: Time, tick: nat, gate: nat, again: nat, dbOk: bool)
      returns (shed: bool, dup: bool, shedBridge: bool)
      requires Valid() && Ready(now, tick) && tick <= gate <= again
      modifies Repr()
      ensures Valid() && Ready(now, again) && inputs == old(inputs) && admitted == old(admitted)
      ensures View() == RemoteStep(cfg, old(View()), Remote(e, from, subnet, now, shed, dup, shedBridge, dbOk))
      ensures from != "" ==> shed == ShedNow(GatedLog(old(gov.log), gov.maxPerSec, tick, gate), gov.maxPerSec)
      ensures if from == "" then gov.log == old(gov.log)
              else var gated := GatedLog(old(gov.log), gov.maxPerSec, tick, gate);
                   gov.log == gated || gov.log == AskedLog(gated, gov.maxPerSec, again)
      ensures if ReachesCache(cfg, old(View()), e, from, shed)
              then && dup == Repeated(old(dedup.seen), ReportId(cfg, e), now, dedup.ttl)
                   && Dedup.Marked(old(dedup.seen), dedup.seen, ReportId(cfg, e), now, dedup.ttl)
              else dedup.seen == old(dedup.seen)
    {
      hide DedupKey, ShedNow, GatedLog, AskedLog, Repeated, Dedup.Marked, HopsOk, Protected, ValidConfig, RateLimit.ChargedBeforeGate, Engine.Valid, BurstStore.Valid, DedupCache.Valid,
        Governor.Governor.Valid, TrustStore.Valid, VoteStep, ReportStep;
      shed, dup, shedBridge := false, false, false;
      if from == "" {
        return;
      }
      shed := Gate(tick, gate);
      if shed {
        return;
      }
      if e.reporterID != from {
        if |e.signature| == 0 {
          return;
        }
        if |e.originTrace| == 0 || e.originTrace[|e.originTrace| - 1] != from {
          return;
        }
      }
      if from in trust.state.blocked {
        return;
      }
      if |e.signature| > 0 && !cfg.eventSigOk(e) {
        return;
      }
      var key := NormalizeIP(cfg.parse(e.ip), cfg.ipv6Prefix);
      if key.None? {
        return;
      }
      if e.kind == "vote" {
        dup := ProcessDispute(key.value, e, now, dbOk, again);
      } else {
        dup, shedBridge := ProcessReport(key.value, e, subnet, now, again, dbOk);
      }
    }

    /** Decays every stored key in scan order; `failed` are the keys whose database access fails. */
    method RunDecay(keys: seq<Text>, now: Time, failed: set<Text>, ghost tick: nat)
      requires Valid() && Traced() && Ready(now, tick) && forall k :: k in keys ==> k in engine.store
      modifies this`log, this`inputs, engine
      ensures Valid() && Traced() && Ready(now, tick) && |inputs| == |old(inputs)| + |keys|
      ensures View() == SweepKeys(cfg, old(View()), keys, now, failed)
    {
      hide ValidConfig, RateLimit.ChargedBeforeGate, Engine.Valid, BurstStore.Valid, DedupCache.Valid,
        Governor.Governor.Valid, TrustStore.Valid, Run, NodeRuns.Clocked, NodeRuns.Clock, SweepStep;
      ghost var start := View();
      for i := 0 to |keys|
        invariant Valid() && Traced() && Ready(now, tick) && |inputs| == |old(inputs)| + i
        invariant engine.store.Keys == start.store.Keys
        invariant View() == SweepKeys(cfg, start, keys[..i], now, failed)
      {
        assert keys[i] in keys && keys[..i + 1][..i] == keys[..i];
        SweepOne(keys[i], now, keys[i] !in failed, tick);
      }
      assert keys[..|keys|] == keys;
    }

    method SweepOne(k: Text, now: Time, dbOk: bool, ghost tick: nat)
      requires Valid() && Traced() && Ready(now, tick) && k in engine.store
      modifies this`log, this`inputs, engine
      ensures Valid() && Traced() && Ready(now, tick) && inputs == old(inputs) + [SweepKey(k, now, dbOk)]
      ensures View() == SweepStep(cfg, old(View()), k, now, dbOk) && engine.store.Keys == old(engine.store.Keys)
    {
      hide ValidConfig, RateLimit.ChargedBeforeGate, Engine.Valid, BurstStore.Valid, DedupCache.Valid,
        Governor.Governor.Valid, TrustStore.Valid, Sweep, Run, NodeRuns.Clocked, NodeRuns.Clock;
      ghost var i := SweepKey(k, now, dbOk);
      TracedStep(cfg, inputs, i);
      inputs := inputs + [i];
      if !dbOk {
        return;
      }
      var score := engine.Decay(k, now, true);
      if score < cfg.unblockThreshold {
        log := log + [SweepUnblocked(k)];
      }
    }

    /** Applies one of the node's own shared votes to its own record, at start-up. */
    method CountOwnVote(ip: Text, now: Time, dbOk: bool, ghost tick: nat)
      requires Valid() && Traced() && Ready(now, tick)
      modifies this`inputs, engine
      ensures Valid() && Traced() && Ready(now, tick) && inputs == old(inputs) + [OwnVote(ip, now, dbOk)]
      ensures View() == OwnVoteStep(cfg, old(View()), ip, now, dbOk)
    {
      hide ValidConfig, RateLimit.ChargedBeforeGate, Engine.Valid, BurstStore.Valid, DedupCache.Valid,
        Governor.Governor.Valid, TrustStore.Valid, ApplyDispute, Resolved, Run, NodeRuns.Clocked, NodeRuns.Clock;
      ghost var i := OwnVote(ip, now, dbOk);
      TracedStep(cfg, inputs, i);
      inputs := inputs + [i];
      var r := trust.Resolve(cfg.selfID, now);
      var _ := engine.RecordDispute(ip, Observation("", cfg.selfID, "", r.weight, r.anchored, cfg.homeSubnet), now, dbOk);
    }

    /** Blocks a federated hit unless it is protected, too weak or disputed; one uninterrupted call. */
    method MaterialiseFederated(ip: Text, rec: ScoreRecord, subnets: int, sinkOk: bool, ghost call: nat)
      requires Valid() && Traced() && call !in pending
      modifies this`materialised, this`log, this`inputs
      ensures Valid() && Traced() && inputs == old(inputs) + [MatCheck(call, ip, rec, subnets), MatBlock(call, sinkOk), MatMark(call)]
      ensures NodeRuns.Clock(inputs) == NodeRuns.Clock(old(inputs))
      ensures View() == MatMarkStep(MatBlockStep(MatCheckStep(cfg, old(View()), MatCheck(call, ip, rec, subnets)), call, sinkOk), call)
      ensures var worthy := cfg.materialize && !Protected(cfg, ip) && rec.score >= cfg.blockThreshold
                            && subnets >= cfg.blockMinSubnets && ip !in old(disputed);
              && log == old(log) + (if worthy then [BlockedFor(ip, |old(log)|)] else []) + (if worthy && sinkOk then [Marked(ip)] else [])
              && materialised == (if worthy && sinkOk then old(materialised) + {ip} else old(materialised))
              && disputed == old(disputed)
    {
      hide ValidConfig, RateLimit.ChargedBeforeGate, Engine.Valid, BurstStore.Valid, DedupCache.Valid,
        Governor.Governor.Valid, TrustStore.Valid, Protected, Run, NodeRuns.Clocked, NodeRuns.Clock, MatCheckStep, MatBlockStep, MatMarkStep;
      ghost var i1, i2, i3 := MatCheck(call, ip, rec, subnets), MatBlock(call, sinkOk), MatMark(call);
      TracedStep(cfg, inputs, i1);
      TracedStep(cfg, inputs + [i1], i2);
      TracedStep(cfg, inputs + [i1] + [i2], i3);
      CheckBlockMark(ip, rec, subnets, sinkOk, call);
      assert inputs + [i1, i2, i3] == inputs + [i1] + [i2] + [i3];
      inputs := inputs + [i1, i2, i3];
    }

    method CheckBlockMark(ip: Text, rec: ScoreRecord, subnets: int, sinkOk: bool, ghost call: nat)
      requires Valid() && call !in pending
      modifies this`materialised, this`log
      ensures Valid()
      ensures View() == MatMarkStep(MatBlockStep(MatCheckStep(cfg, old(View()), MatCheck(call, ip, rec, subnets)), call, sinkOk), call)
      ensures var worthy := cfg.materialize && !Protected(cfg, ip) && rec.score >= cfg.blockThreshold
                            && subnets >= cfg.blockMinSubnets && ip !in old(disputed);
              && log == old(log) + (if worthy then [BlockedFor(ip, |old(log)|)] else []) + (if worthy && sinkOk then [Marked(ip)] else [])
              && materialised == (if worthy && sinkOk then old(materialised) + {ip} else old(materialised))
              && disputed == old(disputed)
    {
      hide ValidConfig, RateLimit.ChargedBeforeGate, Engine.Valid, BurstStore.Valid, DedupCache.Valid,
        Governor.Governor.Valid, TrustStore.Valid, Protected;
      if !cfg.materialize {
        return;
      }
      var covered := IsProtected(ip);
      if covered {
        return;
      }
      if rec.score < cfg.blockThreshold || subnets < cfg.blockMinSubnets {
        return;
      }
      if ip in disputed {
        return;
      }
      log := log + [BlockedFor(ip, |log|)];
      assert pending[call := Checked(ip, |old(log)|)] - {call} == pending;
      assert pending[call := Checked(ip, |old(log)|)][call := Enforced(ip)] - {call} == pending;
      if !sinkOk {
        return;
      }
      materialised := materialised + {ip};
      log := log + [Marked(ip)];
    }

    method ReloadRules(loaded: seq<Rule>)
      requires Valid() && Traced()
      modifies rules, this`inputs
      ensures Valid() && Traced() && View() == Step(cfg, old(View()), Input.ReloadRules(loaded))
      ensures inputs == old(inputs) + [Input.ReloadRules(loaded)] && NodeRuns.Clock(inputs) == NodeRuns.Clock(old(inputs))
    {
      ghost var i := Input.ReloadRules(loaded);
      TracedStep(cfg, inputs, i);
      inputs := inputs + [i];
      hide Run, NodeRuns.Clocked, NodeRuns.Clock, ValidConfig, RateLimit.ChargedBeforeGate, Engine.Valid, BurstStore.Valid, DedupCache.Valid, Governor.Governor.Valid,
        TrustStore.Valid, KeepValid, LintSilent;
      var _ := rules.Reload(loaded);
    }

    method ReloadTrust(anchors: FileRead<Anchor>, certs: FileRead<PeerCert>, blocked: FileRead<string>, now: Time, ghost tick: nat)
      requires Valid() && Traced() && Ready(now, tick)
      modifies trust, this`inputs
      ensures Valid() && Traced() && Ready(now, tick) && View() == Step(cfg, old(View()), Input.ReloadTrust(anchors, certs, blocked, now))
      ensures inputs == old(inputs) + [Input.ReloadTrust(anchors, certs, blocked, now)]
    {
      ghost var i := Input.ReloadTrust(anchors, certs, blocked, now);
      TracedStep(cfg, inputs, i);
      inputs := inputs + [i];
      hide Run, NodeRuns.Clocked, NodeRuns.Clock, ValidConfig, RateLimit.ChargedBeforeGate, Engine.Valid, BurstStore.Valid, DedupCache.Valid, Governor.Governor.Valid,
        TrustStore.Valid, Reloaded;
      trust.Reload(anchors, certs, blocked, now);
    }
  }

  /** A sweep visits the keys one by one. */
  function SweepKeys(cfg: Config, s: NodeState, keys: seq<Text>, now: Time, failed: set<Text>): NodeState {
    if keys == [] then s
    else
      var k := keys[|keys| - 1];
      SweepStep(cfg, SweepKeys(cfg, s, keys[..|keys| - 1], now, failed), k, now, k !in failed)
  }

  lemma PassesStep(log: seq<Governor.Call>, c: Governor.Call, budget: real, lo: int, hi: int)
    ensures RateLimit.Passes(log + [c], budget, lo, hi)
         == RateLimit.Passes(log, budget, lo, hi)
            + if RateLimit.IsGate(c) && lo <= c.tick <= hi && !Governor.Shedding(log + [c], budget) then 1 else 0
  {
    RateLimit.Appended(log, c, budget, lo, hi);
  }

  lemma NothingMetered(budget: real)
    ensures Metered([], budget, [])
  {
  }

  /** A call that is no gate admits nothing. */
  lemma MeteredOther(log: seq<Governor.Call>, budget: real, admitted: seq<nat>, c: Governor.Call)
    requires Metered(log, budget, admitted) && !RateLimit.IsGate(c)
    ensures Metered(log + [c], budget, admitted)
  {
    hide RateLimit.Passes, TicksIn;
    forall lo: int, hi: int
      ensures budget > 0.0 ==> TicksIn(admitted, lo, hi) == RateLimit.Passes(log + [c], budget, lo, hi)
    {
      PassesStep(log, c, budget, lo, hi);
    }
  }

  lemma TicksSnoc(ticks: seq<nat>, t: nat, lo: int, hi: int)
    ensures TicksIn(ticks + [t], lo, hi) == TicksIn(ticks, lo, hi) + if lo <= t <= hi then 1 else 0
  {
    assert (ticks + [t])[..|ticks + [t]| - 1] == ticks;
  }

  /** A gate admits one event unless it sheds; a question after it changes nothing. */
  lemma MeteredGate(log: seq<Governor.Call>, budget: real, admitted: seq<nat>, tick: nat, gate: nat, again: nat)
    requires Metered(log, budget, admitted)
    ensures var gated := GatedLog(log, budget, tick, gate);
            var after := admitted + if ShedNow(gated, budget) then [] else [gate];
            Metered(gated, budget, after) && Metered(AskedLog(gated, budget, again), budget, after)
  {
    var gated := GatedLog(log, budget, tick, gate);
    var after := admitted + if ShedNow(gated, budget) then [] else [gate];
    if budget > 0.0 {
      MeteredOther(log, budget, admitted, Governor.Charged(tick));
      hide RateLimit.Passes, TicksIn, Governor.Shedding;
      forall lo: int, hi: int
        ensures TicksIn(after, lo, hi) == RateLimit.Passes(gated, budget, lo, hi)
      {
        PassesStep(log + [Governor.Charged(tick)], Governor.Asked(gate, true), budget, lo, hi);
        TicksSnoc(admitted, gate, lo, hi);
        assert admitted + [] == admitted;
      }
      MeteredOther(gated, budget, after, Governor.Asked(again, false));
    }
  }

  lemma ConfigParams(cfg: Config)
    requires ValidConfig(cfg)
    ensures ValidParams(cfg.params) && 0.0 <= cfg.strangerWeight <= 1.0
  {
  }

  lemma BeforeAnything(cfg: Config)
    requires ValidConfig(cfg)
    ensures RateLimit.ChargedBeforeGate([]) && Run(cfg, []) == FRESH && NodeRuns.Clocked([]) && NodeRuns.Clock([]) == 1
  {
    hide ValidConfig;
    NodeRuns.RunStep(cfg, []);
    hide Run;
  }

  lemma NowOf(i: Input)
    ensures i.Local? || i.Remote? ==> NodeRuns.HasNow(i)
  {
  }

  /** Taking one more step extends a run. */
  lemma TracedStep(cfg: Config, inputs: seq<Input>, i: Input)
    requires ValidConfig(cfg) && NodeRuns.Clocked(inputs) && (NodeRuns.HasNow(i) ==> NodeRuns.Clock(inputs) <= i.now)
    ensures Run(cfg, inputs + [i]) == Step(cfg, Run(cfg, inputs), i) && NodeRuns.Clocked(inputs + [i])
    ensures NodeRuns.Clock(inputs + [i]) == if NodeRuns.HasNow(i) then i.now else NodeRuns.Clock(inputs)
  {
    NodeRuns.RunSnoc(cfg, inputs, i);
    hide Run, Step, ValidConfig;
    assert (inputs + [i])[..|inputs + [i]| - 1] == inputs;
  }

  lemma NotAGate(log: seq<Governor.Call>, c: Governor.Call)
    requires RateLimit.ChargedBeforeGate(log) && !RateLimit.IsGate(c)
    ensures RateLimit.ChargedBeforeGate(log + [c])
  {
    assert forall i :: 0 <= i < |log| ==> (log + [c])[i] == log[i] && (log + [c])[..i] == log[..i];
  }

  lemma GateFollows(log: seq<Governor.Call>, tick: nat, gate: nat)
    requires RateLimit.ChargedBeforeGate(log) && log != [] && log[|log| - 1] == Governor.Charged(tick)
    ensures RateLimit.ChargedBeforeGate(log + [Governor.Asked(gate, true)])
  {
    var longer := log + [Governor.Asked(gate, true)];
    assert forall i :: 0 <= i < |log| ==> longer[i] == log[i] && longer[..i] == log[..i];
    assert longer[..|log|] == log;
    assert RateLimit.ArmedSince(log, 0);
  }
}
