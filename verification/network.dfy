/** A network of honest nodes and bridges. Each node runs the machine of NodeModel; the transport
    carries what it publishes to any of the other nodes joined to the subnet, each at most once. */
module Network {
  import opened NetUtil
  import opened Reputation
  import opened Wire
  import opened Trust
  import opened Relay
  import opened NodeModel
  import opened NodeRuns
  import opened Publication

  /** The nodes by peer ID, and the signature relation between peer, message and signature. */
  datatype World = World(nodes: map<string, Config>, verify: (string, string, string) -> bool)

  /** Every node runs under its own peer ID, signs with its own key and checks signatures. */
  ghost predicate Honest(world: World) {
    forall n :: n in world.nodes ==> HonestNode(world, n, world.nodes[n])
  }

  ghost predicate HonestNode(world: World, n: string, cfg: Config) {
    && ValidConfig(cfg) && cfg.selfID == n && n != "" && cfg.networked
    && (forall e :: cfg.eventSigOk(e) == world.verify(e.reporterID, SignedMessage(e), e.signature))
    && (forall e :: cfg.sign(e) != "" ==> world.verify(n, SignedMessage(e), cfg.sign(e)))
  }

  /** A copy of a report on its way to one subscriber of one subnet. */
  datatype Packet = Packet(e: Event, from: string, subnet: string, to: string)

  datatype Peer = Peer(state: NodeState, seen: set<string>)

  datatype NetEffect =
    | Noted(n: string, id: string)
    | Forgot(n: string, id: string)
    | Scored(n: string, id: string, e: Event, onto: set<string>)

  datatype Net = Net(peers: map<string, Peer>, flight: seq<Packet>, log: seq<NetEffect>)

  /** `copies` are the deliveries the transport makes of what the step publishes. */
  datatype Move =
    | Originate(n: string, e: Event, now: Time, dbOk: bool, copies: seq<Packet>)
    | Deliver(at: nat, now: Time, shed: bool, shedBridge: bool, dbOk: bool, copies: seq<Packet>)
    | Lose(at: nat)
    | Forget(n: string, id: string)
    | Internal(n: string, i: Input)

  ghost function Start(world: World): Net {
    Net(map n | n in world.nodes :: Peer(FRESH, {}), [], [])
  }

  /** A report that gets as far as the dedup cache. */
  ghost predicate Reaches(cfg: Config, s: NodeState, e: Event, from: string, shed: bool)
    requires ValidConfig(cfg)
  {
    Admitted(cfg, s, e, from, shed) && !IsVote(e) && HopsOk(e, cfg.selfID) && !Protected(cfg, KeyOf(cfg, e).value)
  }

  function Known(cfg: Config, peer: Peer, e: Event): bool { KeyOf(cfg, e).Some? && ReportId(cfg, e) in peer.seen }

  function Arrival(cfg: Config, peer: Peer, p: Packet, m: Move): Input
    requires m.Deliver?
  {
    Remote(p.e, p.from, p.subnet, m.now, m.shed, Known(cfg, peer, p.e), m.shedBridge, m.dbOk)
  }

  /** The transport delivers what was published, if anything, to joined nodes other than its publisher. */
  ghost predicate Broadcast(world: World, x: Option<Effect>, from: string, copies: seq<Packet>)
    requires x.Some? ==> x.value.Published?
  {
    && (copies != [] ==> x.Some?)
    && (forall i, j :: 0 <= i < j < |copies| ==> copies[i] != copies[j])
    && (forall c :: c in copies ==>
          && x.Some? && c.e == x.value.e && c.from == from && c.subnet in x.value.onto
          && c.to != from && c.to in world.nodes && c.subnet in world.nodes[c.to].subnets)
  }

  ghost predicate Legal(world: World, net: Net, m: Move)
    requires Honest(world)
  {
    match m
    case Originate(n, e, now, dbOk, copies) =>
      && n in world.nodes && n in net.peers && !IsVote(e)
      && Broadcast(world, PublishedBy(world.nodes[n], net.peers[n].state, Local(e, now, dbOk)), n, copies)
    case Deliver(at, _, _, _, _, copies) =>
      && at < |net.flight| && net.flight[at].to in world.nodes && net.flight[at].to in net.peers
      && var p := net.flight[at];
      Broadcast(world, PublishedBy(world.nodes[p.to], net.peers[p.to].state, Arrival(world.nodes[p.to], net.peers[p.to], p, m)), p.to, copies)
    case Lose(at) => at < |net.flight|
    case Forget(n, _) => n in net.peers
    case Internal(n, i) => n in world.nodes && n in net.peers && !i.Local? && !i.Remote?
  }

  ghost function Originated(cfg: Config, net: Net, m: Move): Net
    requires ValidConfig(cfg) && m.Originate? && m.n in net.peers
  {
    var peer := net.peers[m.n];
    var i := Local(m.e, m.now, m.dbOk);
    var t := Step(cfg, peer.state, i);
    if KeyOf(cfg, m.e).Some? && !Protected(cfg, KeyOf(cfg, m.e).value) then
      var id := ReportId(cfg, m.e.(reporterID := cfg.selfID));
      Net(net.peers[m.n := Peer(t, peer.seen + {id})], net.flight + m.copies, net.log + [Noted(m.n, id)])
    else
      Net(net.peers[m.n := Peer(t, peer.seen)], net.flight + m.copies, net.log)
  }

  function Without(flight: seq<Packet>, at: nat): seq<Packet>
    requires at < |flight|
  {
    flight[..at] + flight[at + 1..]
  }

  /** What a delivered report does to the dedup cache and the record. */
  ghost function Notes(cfg: Config, peer: Peer, p: Packet, m: Move): seq<NetEffect>
    requires ValidConfig(cfg) && m.Deliver?
  {
    var i := Arrival(cfg, peer, p, m);
    if !Reaches(cfg, peer.state, p.e, p.from, m.shed) || i.dup then []
    else
      var x := PublishedBy(cfg, peer.state, i);
      [Noted(p.to, ReportId(cfg, p.e))]
      + if ScoredReport(cfg, peer.state, i).Some? then [Scored(p.to, ReportId(cfg, p.e), p.e, if x.Some? then x.value.onto else {})] else []
  }

  ghost function Delivered(cfg: Config, net: Net, m: Move): Net
    requires ValidConfig(cfg) && m.Deliver? && m.at < |net.flight| && net.flight[m.at].to in net.peers
  {
    var p := net.flight[m.at];
    var peer := net.peers[p.to];
    var t := Step(cfg, peer.state, Arrival(cfg, peer, p, m));
    var seen := if Reaches(cfg, peer.state, p.e, p.from, m.shed) then peer.seen + {ReportId(cfg, p.e)} else peer.seen;
    Net(net.peers[p.to := Peer(t, seen)], Without(net.flight, m.at) + m.copies, net.log + Notes(cfg, peer, p, m))
  }

  /** One move; an illegal one changes nothing. */
  ghost function Next(world: World, net: Net, m: Move): Net
    requires Honest(world)
  {
    if !Legal(world, net, m) then net
    else
      match m
      case Originate(n, _, _, _, _) => Originated(world.nodes[n], net, m)
      case Deliver(at, _, _, _, _, _) => Delivered(world.nodes[net.flight[at].to], net, m)
      case Lose(at) => net.(flight := Without(net.flight, at))
      case Forget(n, id) =>
        net.(peers := net.peers[n := net.peers[n].(seen := net.peers[n].seen - {id})], log := net.log + [Forgot(n, id)])
      case Internal(n, i) =>
        net.(peers := net.peers[n := net.peers[n].(state := Step(world.nodes[n], net.peers[n].state, i))])
  }

  ghost function Outcome(world: World, moves: seq<Move>): Net
    requires Honest(world)
  {
    if moves == [] then Start(world) else Next(world, Outcome(world, moves[..|moves| - 1]), moves[|moves| - 1])
  }

  // ---------------------------------------------------------------- every copy in flight

  /** The event is, but for its trace, what its reporter stamped and signed. */
  ghost predicate Authentic(world: World, e: Event) {
    && e.reporterID in world.nodes && !IsVote(e)
    && exists raw, key :: e.(originTrace := [e.reporterID]) == Stamped(world.nodes[e.reporterID], raw, key)
  }

  /** The trace starts at the reporter, ends at the publisher, repeats no hop and fits the cap. */
  ghost predicate TraceOk(e: Event, from: string) {
    var t := e.originTrace;
    1 <= |t| <= MAX_ORIGIN_TRACE_LEN && t[0] == e.reporterID && t[|t| - 1] == from && DuplicateFree(t)
  }

  ghost predicate PacketOk(world: World, p: Packet) {
    p.from in world.nodes && p.to in world.nodes && p.from != p.to && TraceOk(p.e, p.from) && Authentic(world, p.e)
  }

  ghost predicate FlightOk(world: World, flight: seq<Packet>) { forall p :: p in flight ==> PacketOk(world, p) }

  lemma StampedIs(world: World, n: string, raw: Event, key: Text)
    requires Honest(world) && n in world.nodes && !IsVote(raw)
    ensures var e := Stamped(world.nodes[n], raw, key);
            TraceOk(e, n) && Authentic(world, e)
  {
    assert HonestNode(world, n, world.nodes[n]);
    hide Honest, HonestNode;
    var e := Stamped(world.nodes[n], raw, key);
    assert e.reporterID == n && e.originTrace == [n];
    assert e.(originTrace := [e.reporterID]) == e;
  }

  lemma ForwardedIs(world: World, e: Event, from: string, self: string)
    requires TraceOk(e, from) && Authentic(world, e) && Forwards(e, self)
    ensures TraceOk(Forwarded(e, self), self) && Authentic(world, Forwarded(e, self))
  {
    hide Stamped;
    var f := Forwarded(e, self);
    assert f.(originTrace := [f.reporterID]) == e.(originTrace := [e.reporterID]);
  }

  lemma OriginateKeepsFlight(world: World, net: Net, m: Move)
    requires Honest(world) && m.Originate? && Legal(world, net, m) && FlightOk(world, net.flight)
    ensures FlightOk(world, net.flight + m.copies)
  {
    assert HonestNode(world, m.n, world.nodes[m.n]);
    hide HonestNode, Stamped, TraceOk, Authentic, Honest;
    if KeyOf(world.nodes[m.n], m.e).Some? { StampedIs(world, m.n, m.e, KeyOf(world.nodes[m.n], m.e).value); }
    assert forall c :: c in m.copies ==> PacketOk(world, c);
  }

  lemma DeliverKeepsFlight(world: World, net: Net, m: Move)
    requires Honest(world) && m.Deliver? && Legal(world, net, m) && FlightOk(world, net.flight)
    ensures FlightOk(world, Without(net.flight, m.at) + m.copies)
  {
    var p := net.flight[m.at];
    assert HonestNode(world, p.to, world.nodes[p.to]);
    hide HonestNode, Stamped, TraceOk, Authentic, Honest, Forwards, Forwarded, ScoredReport;
    assert PacketOk(world, p);
    if Forwards(p.e, p.to) { ForwardedIs(world, p.e, p.from, p.to); }
    assert forall c :: c in m.copies ==> PacketOk(world, c);
  }

  lemma OutcomeStep(world: World, moves: seq<Move>)
    requires Honest(world)
    ensures moves == [] ==> Outcome(world, moves) == Start(world)
    ensures moves != [] ==> Outcome(world, moves) == Next(world, Outcome(world, moves[..|moves| - 1]), moves[|moves| - 1])
  {
    hide Next, Start;
  }

  lemma NextKeepsFlight(world: World, net: Net, m: Move)
    requires Honest(world) && FlightOk(world, net.flight)
    ensures FlightOk(world, Next(world, net, m).flight)
  {
    hide PacketOk, Honest, Step, Notes, Reaches;
    if Legal(world, net, m) {
      if m.Originate? { OriginateKeepsFlight(world, net, m); }
      if m.Deliver? { DeliverKeepsFlight(world, net, m); }
    }
  }

  /** In every run each copy in flight has a sound trace and is otherwise as its reporter signed it. */
  lemma {:induction false} FlightIsSound(world: World, moves: seq<Move>)
    requires Honest(world)
    ensures FlightOk(world, Outcome(world, moves).flight)
  {
    OutcomeStep(world, moves);
    if moves != [] {
      hide FlightOk, Next, Outcome, Honest;
      FlightIsSound(world, moves[..|moves| - 1]);
      NextKeepsFlight(world, Outcome(world, moves[..|moves| - 1]), moves[|moves| - 1]);
    }
  }

  lemma StampedVerifies(world: World, n: string, raw: Event, key: Text)
    requires Honest(world) && n in world.nodes
    ensures var e := Stamped(world.nodes[n], raw, key);
            e.signature != "" ==> world.verify(n, SignedMessage(e), e.signature)
  {
    var cfg := world.nodes[n];
    assert HonestNode(world, n, cfg);
    var e := Stamped(cfg, raw, key);
    var out := raw.(ip := cfg.show(key), reporterID := cfg.selfID, vouch := cfg.vouch, subnetID := cfg.homeSubnet,
                    originTrace := [cfg.selfID]);
    assert e.signature == cfg.sign(out);
    assert SignedMessage(e) == SignedMessage(out);
  }

  /** A signed copy passes the relay guard and the signature check of every node; an unsigned one
      passes the guard iff its reporter published it. */
  lemma SignedCopiesPass(world: World, p: Packet, n: string)
    requires Honest(world) && PacketOk(world, p) && n in world.nodes
    ensures RelayOk(p.e, p.from) <==> p.e.signature != "" || p.e.reporterID == p.from
    ensures p.e.signature != "" ==> world.nodes[n].eventSigOk(p.e)
  {
    var r := p.e.reporterID;
    var raw, key :| p.e.(originTrace := [r]) == Stamped(world.nodes[r], raw, key);
    StampedVerifies(world, r, raw, key);
    assert HonestNode(world, n, world.nodes[n]);
    hide Stamped;
    var e := p.e.(originTrace := [r]);
    assert SignedMessage(e) == SignedMessage(p.e);
  }
}
