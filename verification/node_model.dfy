/** One node as a state machine: every step of internal/node/node.go that touches the records, the
    burst windows, the trust state, the sink or the materialised and disputed marks. */
module NodeModel {
  import opened NetUtil
  import opened NeverBlock
  import opened Reputation
  import opened ScoreStore
  import opened Burst
  import opened Rules
  import opened Wire
  import opened Trust
  import opened Relay

  /** The configuration, and the functions that stand for netip and Ed25519. */
  datatype Config = Config(
    selfID: string,
    networked: bool,
    bridge: bool,
    homeSubnet: string,
    subnets: set<string>,
    ipv6Prefix: nat,
    neverBlock: seq<Prefix>,
    whitelist: seq<Text>,
    params: Params,
    strangerWeight: real,
    federationDiscount: real,
    fallback: real,
    unblockThreshold: real,
    materialize: bool,
    blockThreshold: real,
    blockMinSubnets: int,
    unblockMinSubnets: int,
    vouch: Option<PeerCert>,
    parse: string -> Text,
    show: Text -> string,
    sign: Event -> string,
    eventSigOk: Event -> bool,
    certSigOk: PeerCert -> bool)

  ghost predicate ValidConfig(cfg: Config) {
    && ValidParams(cfg.params)
    && 0.0 <= cfg.strangerWeight <= 1.0
    && cfg.ipv6Prefix <= V6_WIDTH
    && ValidList(cfg.neverBlock)
    && (forall i :: 0 <= i < |cfg.whitelist| ==> Parsed(cfg.whitelist[i]))
  }

  /** A whitelist entry covers an address it names or a prefix that contains it. */
  predicate EntryAllows(entry: Text, a: Addr)
    requires Parsed(entry)
  {
    match entry
    case Bare(b) => Unmap(b) == a
    case Cidr(b, bits) => Covers(Prefix(b.(n := Mask(b.n, Width(b) - bits)), bits), a)
    case Garbage(_) => false
  }

  ghost predicate Whitelisted(whitelist: seq<Text>, ip: Text)
    requires forall i :: 0 <= i < |whitelist| ==> Parsed(whitelist[i])
  {
    KeyAddr(ip).Some? && exists i :: 0 <= i < |whitelist| && EntryAllows(whitelist[i], KeyAddr(ip).value)
  }

  /** On the never-block list or the whitelist. */
  ghost predicate Protected(cfg: Config, ip: Text)
    requires ValidConfig(cfg)
  {
    (KeyAddr(ip).Some? && ListCovers(cfg.neverBlock, KeyAddr(ip).value)) || Whitelisted(cfg.whitelist, ip)
  }

  /** What the outside world sees of a node. */
  datatype Effect =
    | Blocked(key: Text, remote: bool)
    | BlockedFor(key: Text, checkedAt: nat) // the materialise call checked for disputes at this log length
    | Marked(key: Text)
    | Suppressed(key: Text)
    | DisputeUnblocked(key: Text, subnets: seq<string>)
    | SweepUnblocked(key: Text)
    | Published(e: Event, onto: set<string>)

  /** A materialise call between its check, its block and its mark. */
  datatype Pending = Checked(ip: Text, at: nat) | Enforced(ip: Text)

  datatype NodeState = NodeState(
    store: map<Text, ScoreRecord>,
    bursts: Windows,
    rules: seq<Rule>,
    trust: TrustState,
    materialised: set<Text>,
    disputed: set<Text>,
    pending: map<nat, Pending>,
    log: seq<Effect>)

  const FRESH := NodeState(map[], map[], [], NO_TRUST, {}, {}, map[], [])

  /** One step. The answers of the governor, the dedup cache, the database and the sink are part of
      the input. */
  datatype Input =
    | Local(e: Event, now: Time, dbOk: bool)
    | Remote(e: Event, from: string, subnet: string, now: Time, shed: bool, dup: bool, shedBridge: bool, dbOk: bool)
    | OwnVote(ip: Text, now: Time, dbOk: bool)
    | SweepKey(key: Text, now: Time, dbOk: bool)
    | MatCheck(call: nat, ip: Text, rec: ScoreRecord, evidenceSubnets: int)
    | MatBlock(call: nat, sinkOk: bool)
    | MatMark(call: nat)
    | ReloadRules(loaded: seq<Rule>)
    | ReloadTrust(anchors: FileRead<Anchor>, certs: FileRead<PeerCert>, blocked: FileRead<string>, now: Time)

  function KeyOf(cfg: Config, e: Event): Option<Text> { NormalizeIP(cfg.parse(e.ip), cfg.ipv6Prefix) }

  /** The dedup key of an event at a node. */
  function ReportId(cfg: Config, e: Event): string
    requires KeyOf(cfg, e).Some?
  {
    DedupKey(e.reporterID, cfg.show(KeyOf(cfg, e).value), e.reason, e.ts)
  }

  // ---------------------------------------------------------------- scoring and judging one event

  /** What the rules say of a recorded observation, and the burst windows that leaves. Only anchored
      observations feed the burst window. */
  function Evaluation(cfg: Config, s: NodeState, key: Text, obs: Observation, now: Time): (Verdict, Windows) {
    var k := BurstKey(key, obs.reason);
    var rec := Accumulate(Get(s.store, key), obs, now, cfg.params);
    Evaluated(s.rules, cfg.fallback, k, rec, if obs.anchored then Recorded(s.bursts, k, now) else s.bursts, now)
  }

  /** Records the observation, evaluates the rules, and blocks. A remote block needs an anchored group
      on record. */
  function Judge(cfg: Config, s: NodeState, key: Text, obs: Observation, now: Time, remote: bool): NodeState {
    var rec := Accumulate(Get(s.store, key), obs, now, cfg.params);
    var (v, left) := Evaluation(cfg, s, key, obs, now);
    s.(store := s.store[key := rec],
       bursts := left,
       log := s.log + if v.action.Block? && (remote ==> rec.groups != []) then [Blocked(key, remote)] else [])
  }

  function LocalObservation(cfg: Config, e: Event): Observation {
    Observation(e.reason, cfg.selfID, cfg.selfID, 1.0, true, "")
  }

  /** The event as this node signs and publishes it. */
  function Stamped(cfg: Config, e: Event, key: Text): Event {
    var out := e.(ip := cfg.show(key), reporterID := cfg.selfID, vouch := cfg.vouch, subnetID := cfg.homeSubnet,
                  originTrace := if cfg.selfID != "" then [cfg.selfID] else e.originTrace);
    if cfg.networked then out.(signature := cfg.sign(out)) else out
  }

  ghost function LocalStep(cfg: Config, s: NodeState, e: Event, now: Time, dbOk: bool): NodeState
    requires ValidConfig(cfg)
  {
    var key := KeyOf(cfg, e);
    if key.None? || Protected(cfg, key.value) || !dbOk then s
    else
      var s' := Judge(cfg, s, key.value, LocalObservation(cfg, e), now, false);
      if cfg.networked then s'.(log := s'.log + [Published(Stamped(cfg, e, key.value), {Canonical(cfg.homeSubnet)})]) else s'
  }

  /** The guards every remote event passes, report or vote. */
  function Admitted(cfg: Config, s: NodeState, e: Event, from: string, shed: bool): bool {
    && from != "" && !shed && RelayOk(e, from) && from !in s.trust.blocked
    && (e.signature != "" ==> cfg.eventSigOk(e))
    && KeyOf(cfg, e).Some?
  }

  function Discount(cfg: Config): real {
    if cfg.federationDiscount <= 0.0 || cfg.federationDiscount > 1.0 then 0.5 else cfg.federationDiscount
  }

  function RemoteObservation(cfg: Config, e: Event, r: Resolution): Observation {
    var abroad := !r.anchored && Canonical(e.subnetID) != Canonical(cfg.homeSubnet);
    Observation(e.reason, e.reporterID, r.group, if abroad then r.weight * Discount(cfg) else r.weight, r.anchored, e.subnetID)
  }

  function Vetted(cfg: Config, t: TrustState, e: Event, now: Time): TrustState {
    if e.vouch.Some? && e.vouch.value.peerID == e.reporterID then WithCert(t, e.vouch.value, now, cfg.certSigOk) else t
  }

  function Reemissions(cfg: Config, e: Event, subnet: string, shedBridge: bool): seq<Effect> {
    if !shedBridge && cfg.networked && cfg.bridge && Forwards(e, cfg.selfID)
    then [Published(Forwarded(e, cfg.selfID), cfg.subnets - {subnet})] else []
  }

  ghost function ReportStep(cfg: Config, s: NodeState, e: Event, subnet: string, now: Time, dup: bool, shedBridge: bool, dbOk: bool): NodeState
    requires ValidConfig(cfg) && KeyOf(cfg, e).Some?
  {
    var key := KeyOf(cfg, e).value;
    if !HopsOk(e, cfg.selfID) || Protected(cfg, key) then s
    else
      var vetted := s.(trust := Vetted(cfg, s.trust, e, now));
      if dup || !dbOk then vetted
      else
        var r := Resolved(vetted.trust, e.reporterID, now, cfg.strangerWeight);
        var s' := Judge(cfg, vetted, key, RemoteObservation(cfg, e, r), now, true);
        s'.(log := s'.log + Reemissions(cfg, e, subnet, shedBridge))
  }

  /** Enough distinct anchored disputing subnets suppress the key and lift a materialised block. */
  function MaybeUnblock(cfg: Config, s: NodeState, key: Text, subnets: seq<string>): NodeState {
    if |subnets| < cfg.unblockMinSubnets then s
    else s.(disputed := s.disputed + {key},
            materialised := s.materialised - {key},
            log := s.log + [Suppressed(key)] + if key in s.materialised then [DisputeUnblocked(key, subnets)] else [])
  }

  function DisputeObservation(e: Event, r: Resolution): Observation {
    Observation("", e.reporterID, "", r.weight, r.anchored, e.subnetID)
  }

  function VoteStep(cfg: Config, s: NodeState, e: Event, now: Time, dup: bool, dbOk: bool): NodeState
    requires KeyOf(cfg, e).Some?
  {
    if dup then s
    else
      var key := KeyOf(cfg, e).value;
      var vetted := s.(trust := Vetted(cfg, s.trust, e, now));
      if !dbOk then vetted
      else
        var r := Resolved(vetted.trust, e.reporterID, now, cfg.strangerWeight);
        var rec := ApplyDispute(Get(s.store, key), DisputeObservation(e, r), now, cfg.params);
        MaybeUnblock(cfg, vetted.(store := s.store[key := rec]), key, rec.disputeSubnetsSeen)
  }

  ghost function RemoteStep(cfg: Config, s: NodeState, i: Input): NodeState
    requires ValidConfig(cfg) && i.Remote?
  {
    if !Admitted(cfg, s, i.e, i.from, i.shed) then s
    else if IsVote(i.e) then VoteStep(cfg, s, i.e, i.now, i.dup, i.dbOk)
    else ReportStep(cfg, s, i.e, i.subnet, i.now, i.dup, i.shedBridge, i.dbOk)
  }

  /** The node's own shared vote, applied to its own record at start-up. */
  function OwnVoteStep(cfg: Config, s: NodeState, ip: Text, now: Time, dbOk: bool): NodeState {
    if !dbOk then s
    else
      var r := Resolved(s.trust, cfg.selfID, now, cfg.strangerWeight);
      var obs := Observation("", cfg.selfID, "", r.weight, r.anchored, cfg.homeSubnet);
      s.(store := s.store[ip := ApplyDispute(Get(s.store, ip), obs, now, cfg.params)])
  }

  /** One key of a decay sweep: every stored key below the threshold is unblocked. */
  function SweepStep(cfg: Config, s: NodeState, key: Text, now: Time, dbOk: bool): NodeState {
    if key !in s.store || !dbOk then s
    else
      var rec := Sweep(s.store[key], now, cfg.params);
      var score := if rec.lastSeen == 0 then 0.0 else rec.score;
      s.(store := s.store[key := rec],
         log := s.log + if score < cfg.unblockThreshold then [SweepUnblocked(key)] else [])
  }

  ghost function MatCheckStep(cfg: Config, s: NodeState, i: Input): NodeState
    requires ValidConfig(cfg) && i.MatCheck?
  {
    if i.call in s.pending || !cfg.materialize || Protected(cfg, i.ip)
       || i.rec.score < cfg.blockThreshold || i.evidenceSubnets < cfg.blockMinSubnets || i.ip in s.disputed
    then s
    else s.(pending := s.pending[i.call := Checked(i.ip, |s.log|)])
  }

  function MatBlockStep(s: NodeState, call: nat, sinkOk: bool): NodeState {
    if call !in s.pending || !s.pending[call].Checked? then s
    else
      var c := s.pending[call];
      s.(log := s.log + [BlockedFor(c.ip, c.at)],
         pending := if sinkOk then s.pending[call := Enforced(c.ip)] else s.pending - {call})
  }

  function MatMarkStep(s: NodeState, call: nat): NodeState {
    if call !in s.pending || !s.pending[call].Enforced? then s
    else
      var ip := s.pending[call].ip;
      s.(materialised := s.materialised + {ip}, log := s.log + [Marked(ip)], pending := s.pending - {call})
  }

  ghost function Step(cfg: Config, s: NodeState, i: Input): NodeState
    requires ValidConfig(cfg)
  {
    match i
    case Local(e, now, dbOk) => LocalStep(cfg, s, e, now, dbOk)
    case Remote(_, _, _, _, _, _, _, _) => RemoteStep(cfg, s, i)
    case OwnVote(ip, now, dbOk) => OwnVoteStep(cfg, s, ip, now, dbOk)
    case SweepKey(key, now, dbOk) => SweepStep(cfg, s, key, now, dbOk)
    case MatCheck(_, _, _, _) => MatCheckStep(cfg, s, i)
    case MatBlock(call, sinkOk) => MatBlockStep(s, call, sinkOk)
    case MatMark(call) => MatMarkStep(s, call)
    case ReloadRules(loaded) => s.(rules := KeepValid(loaded))
    case ReloadTrust(anchors, certs, blocked, now) =>
      s.(trust := Reloaded(s.trust, anchors, certs, blocked, now, cfg.certSigOk))
  }

  /** The state after a run from an empty store. */
  ghost function Run(cfg: Config, run: seq<Input>): NodeState
    requires ValidConfig(cfg)
  {
    if run == [] then FRESH else Step(cfg, Run(cfg, run[..|run| - 1]), run[|run| - 1])
  }
}
