/** Forwarding always ends: a bound on all deliveries of every run. */
module Flood {
  import opened NetUtil
  import opened Reputation
  import opened Wire
  import opened Relay
  import opened NodeModel
  import opened NodeRuns
  import opened Publication
  import opened Network

  /** Every (node, joined subnet) pair: the most deliveries one publication can cause. */
  ghost function Links(world: World): set<(string, string)> {
    set n, sn | n in world.nodes && sn in world.nodes[n].subnets :: (n, sn)
  }

  ghost function Fanout(world: World): nat { |Links(world)| }

  lemma {:induction false} DistinctFit<T(!new)>(xs: seq<T>, s: set<T>)
    requires forall i, j :: 0 <= i < j < |xs| ==> xs[i] != xs[j]
    requires forall x :: x in xs ==> x in s
    ensures |xs| <= |s|
  {
    if xs != [] {
      var early, x := xs[..|xs| - 1], xs[|xs| - 1];
      assert x in xs;
      DistinctFit(early, s - {x});
    }
  }

  lemma BroadcastFits(world: World, x: Option<Effect>, from: string, copies: seq<Packet>)
    requires x.Some? ==> x.value.Published?
    requires Broadcast(world, x, from, copies)
    ensures |copies| <= Fanout(world)
  {
    var pairs := seq(|copies|, i requires 0 <= i < |copies| => (copies[i].to, copies[i].subnet));
    assert forall i :: 0 <= i < |copies| ==> copies[i] in copies;
    assert forall i, j :: 0 <= i < j < |pairs| ==> pairs[i] != pairs[j];
    DistinctFit(pairs, Links(world));
  }

  // ---------------------------------------------------------------- weights

  function Product(n: nat, w: nat): nat { n * w }

  lemma ProductFacts(n: nat, k: nat, w: nat)
    ensures n <= k ==> Product(n, w) <= Product(k, w)
    ensures Product(n + 1, w) == Product(n, w) + w
    ensures Product(0, w) == 0
    ensures n >= 1 && w >= 1 ==> Product(n, w) >= 1
  {
  }

  function NatPow(b: nat, n: nat): nat { if n == 0 then 1 else Product(b, NatPow(b, n - 1)) }

  lemma {:induction false} NatPowPositive(b: nat, n: nat)
    requires b >= 1
    ensures NatPow(b, n) >= 1
  {
    if n > 0 {
      NatPowPositive(b, n - 1);
      ProductFacts(b, b, NatPow(b, n - 1));
    }
  }

  /** How many more hops the trace has room for. */
  function Room(e: Event): nat { if |e.originTrace| <= MAX_ORIGIN_TRACE_LEN then MAX_ORIGIN_TRACE_LEN - |e.originTrace| else 0 }

  /** The most deliveries a copy can still cause, its own included. */
  function PacketWeight(k: nat, p: Packet): nat { NatPow(k + 1, Room(p.e)) }

  function Weight(k: nat, flight: seq<Packet>): nat {
    if flight == [] then 0 else Weight(k, flight[..|flight| - 1]) + PacketWeight(k, flight[|flight| - 1])
  }

  lemma {:induction false} WeightAppend(k: nat, a: seq<Packet>, b: seq<Packet>)
    ensures Weight(k, a + b) == Weight(k, a) + Weight(k, b)
  {
    if b == [] {
      assert a + b == a;
    } else {
      var early := b[..|b| - 1];
      WeightAppend(k, a, early);
      assert (a + b)[..|a + b| - 1] == a + early;
    }
  }

  lemma WeightWithout(k: nat, flight: seq<Packet>, at: nat)
    requires at < |flight|
    ensures Weight(k, flight) == Weight(k, Without(flight, at)) + PacketWeight(k, flight[at])
  {
    hide PacketWeight;
    var front, back, one := flight[..at], flight[at + 1..], [flight[at]];
    assert flight == front + (one + back);
    WeightAppend(k, front, one + back);
    WeightAppend(k, one, back);
    WeightAppend(k, front, back);
    assert one[..0] == [];
    assert Weight(k, one) == Weight(k, one[..0]) + PacketWeight(k, flight[at]);
  }

  lemma {:induction false} WeightBound(k: nat, copies: seq<Packet>, w: nat)
    requires forall c :: c in copies ==> PacketWeight(k, c) == w
    ensures Weight(k, copies) == Product(|copies|, w)
  {
    hide PacketWeight, Product;
    if copies == [] {
      ProductFacts(0, 0, w);
    } else {
      var early, c := copies[..|copies| - 1], copies[|copies| - 1];
      assert c in copies;
      WeightBound(k, early, w);
      ProductFacts(|early|, 0, w);
    }
  }

  /** Copies of one forwarded event weigh less together than the event they came from. */
  lemma ForwardingShrinks(world: World, p: Packet, copies: seq<Packet>, self: string)
    requires |copies| <= Fanout(world)
    requires copies != [] ==> Forwards(p.e, self) && forall c :: c in copies ==> c.e == Forwarded(p.e, self)
    ensures Weight(Fanout(world), copies) + 1 <= PacketWeight(Fanout(world), p)
  {
    hide Fanout, Product, Weight;
    var k := Fanout(world);
    NatPowPositive(k + 1, Room(p.e));
    if copies == [] {
      EmptyWeighsNothing(k);
    } else {
      var w := NatPow(k + 1, Room(p.e) - 1);
      NatPowPositive(k + 1, Room(p.e) - 1);
      WeightBound(k, copies, w);
      ProductFacts(|copies|, k, w);
      ProductFacts(k, k, w);
    }
  }

  lemma EmptyWeighsNothing(k: nat)
    ensures Weight(k, []) == 0
  {
  }

  // ---------------------------------------------------------------- counting a run

  /** Deliveries made in a run. */
  ghost function Deliveries(world: World, moves: seq<Move>): nat
    requires Honest(world)
  {
    if moves == [] then 0 else
      var before, m := moves[..|moves| - 1], moves[|moves| - 1];
      Deliveries(world, before) + if m.Deliver? && Legal(world, Outcome(world, before), m) then 1 else 0
  }

  /** Local reports made in a run. */
  ghost function Reports(world: World, moves: seq<Move>): nat
    requires Honest(world)
  {
    if moves == [] then 0 else
      var before, m := moves[..|moves| - 1], moves[|moves| - 1];
      Reports(world, before) + if m.Originate? && Legal(world, Outcome(world, before), m) then 1 else 0
  }

  /** The weight of a copy that has made its first hop. */
  function FirstWeight(k: nat): nat { NatPow(k + 1, MAX_ORIGIN_TRACE_LEN - 1) }

  ghost function ReportWeight(world: World): nat { Product(Fanout(world), FirstWeight(Fanout(world))) }

  lemma OriginateWeight(world: World, net: Net, m: Move)
    requires Honest(world) && m.Originate? && Legal(world, net, m)
    ensures Weight(Fanout(world), Next(world, net, m).flight) <= Weight(Fanout(world), net.flight) + ReportWeight(world)
  {
    hide *;
    var k := Fanout(world);
    OriginateFlight(world, net, m);
    WeightAppend(k, net.flight, m.copies);
    forall c | c in m.copies
      ensures PacketWeight(k, c) == FirstWeight(k)
    {
      FirstHopWeight(k, c);
    }
    WeightBound(k, m.copies, FirstWeight(k));
    ProductFacts(|m.copies|, k, FirstWeight(k));
    ReportWeightIs(world);
  }

  lemma OriginateFlight(world: World, net: Net, m: Move)
    requires Honest(world) && m.Originate? && Legal(world, net, m)
    ensures Next(world, net, m).flight == net.flight + m.copies && |m.copies| <= Fanout(world)
    ensures forall c :: c in m.copies ==> |c.e.originTrace| == 1
  {
    var x := PublishedBy(world.nodes[m.n], net.peers[m.n].state, Local(m.e, m.now, m.dbOk));
    BroadcastFits(world, x, m.n, m.copies);
    assert HonestNode(world, m.n, world.nodes[m.n]);
    hide Fanout, Honest, Step;
  }

  lemma FirstHopWeight(k: nat, p: Packet)
    requires |p.e.originTrace| == 1
    ensures PacketWeight(k, p) == FirstWeight(k)
  {
    hide NatPow;
  }

  lemma ReportWeightIs(world: World)
    ensures ReportWeight(world) == Product(Fanout(world), FirstWeight(Fanout(world)))
  {
    hide Product, FirstWeight, Fanout;
  }

  lemma DeliverWeight(world: World, net: Net, m: Move)
    requires Honest(world) && m.Deliver? && Legal(world, net, m)
    ensures Weight(Fanout(world), Next(world, net, m).flight) + 1 <= Weight(Fanout(world), net.flight)
  {
    var k, p := Fanout(world), net.flight[m.at];
    var x := PublishedBy(world.nodes[p.to], net.peers[p.to].state, Arrival(world.nodes[p.to], net.peers[p.to], p, m));
    BroadcastFits(world, x, p.to, m.copies);
    assert HonestNode(world, p.to, world.nodes[p.to]);
    assert Next(world, net, m).flight == Without(net.flight, m.at) + m.copies;
    hide Fanout, Next, NatPow, Honest, HonestNode, Weight, PacketWeight, Forwards, Forwarded, Without, ScoredReport;
    ForwardingShrinks(world, p, m.copies, p.to);
    WeightWithout(k, net.flight, m.at);
    WeightAppend(k, Without(net.flight, m.at), m.copies);
  }

  lemma OtherWeight(world: World, net: Net, m: Move)
    requires Honest(world) && !(m.Originate? && Legal(world, net, m)) && !(m.Deliver? && Legal(world, net, m))
    ensures Weight(Fanout(world), Next(world, net, m).flight) <= Weight(Fanout(world), net.flight)
  {
    hide Weight, Fanout, Honest, Step, Broadcast;
    if m.Lose? && m.at < |net.flight| { WeightWithout(Fanout(world), net.flight, m.at); }
  }

  /** In every run the deliveries made, and those the copies in flight can still cause, are bounded by
      the number of local reports: each report is delivered at most k(k+1)^7 times, k the fan-out. */
  lemma {:induction false} FloodEnds(world: World, moves: seq<Move>)
    requires Honest(world)
    ensures Deliveries(world, moves) + Weight(Fanout(world), Outcome(world, moves).flight) <= Product(Reports(world, moves), ReportWeight(world))
  {
    hide *;
    CountStep(world, moves);
    OutcomeStep(world, moves);
    if moves == [] {
      StartIsQuiet(world);
      EmptyWeighsNothing(Fanout(world));
      ProductFacts(0, 0, ReportWeight(world));
    } else {
      var before, m := moves[..|moves| - 1], moves[|moves| - 1];
      var net := Outcome(world, before);
      FloodEnds(world, before);
      if m.Originate? && Legal(world, net, m) {
        OriginateWeight(world, net, m);
        ProductFacts(Reports(world, before), 0, ReportWeight(world));
      } else if m.Deliver? && Legal(world, net, m) {
        DeliverWeight(world, net, m);
      } else {
        OtherWeight(world, net, m);
      }
    }
  }

  lemma StartIsQuiet(world: World)
    ensures Start(world).flight == []
  {
  }

  lemma CountStep(world: World, moves: seq<Move>)
    requires Honest(world)
    ensures moves == [] ==> Deliveries(world, moves) == 0 && Reports(world, moves) == 0
    ensures moves != [] ==>
              var before, m := moves[..|moves| - 1], moves[|moves| - 1];
              var legal := Legal(world, Outcome(world, before), m);
              && Deliveries(world, moves) == Deliveries(world, before) + (if m.Deliver? && legal then 1 else 0)
              && Reports(world, moves) == Reports(world, before) + (if m.Originate? && legal then 1 else 0)
  {
    hide Legal, Outcome, Honest;
  }
}

/** While a node's dedup entry for a report lives, it scores and forwards the report at most once. */
module Once {
  import opened NetUtil
  import opened Reputation
  import opened Wire
  import opened Relay
  import opened NodeModel
  import opened NodeRuns
  import opened Publication
  import opened Network

  /** The node noted the report and has not forgotten it since. */
  ghost predicate Remembered(log: seq<NetEffect>, n: string, id: string) {
    exists m :: 0 <= m < |log| && log[m] == Noted(n, id) && forall j :: m < j < |log| ==> log[j] != Forgot(n, id)
  }

  lemma RememberedSnoc(log: seq<NetEffect>, x: NetEffect, n: string, id: string)
    ensures Remembered(log + [x], n, id) <==> x == Noted(n, id) || (Remembered(log, n, id) && x != Forgot(n, id))
  {
    var longer := log + [x];
    assert longer[|log|] == x && forall j :: 0 <= j < |log| ==> longer[j] == log[j];
    if Remembered(longer, n, id) {
      var m :| 0 <= m < |longer| && longer[m] == Noted(n, id) && forall j :: m < j < |longer| ==> longer[j] != Forgot(n, id);
      if m < |log| { assert log[m] == Noted(n, id) && longer[|log|] != Forgot(n, id); }
    }
    if Remembered(log, n, id) && x != Forgot(n, id) {
      var m :| 0 <= m < |log| && log[m] == Noted(n, id) && forall j :: m < j < |log| ==> log[j] != Forgot(n, id);
      assert longer[m] == Noted(n, id);
    }
  }

  /** The dedup caches hold exactly what the log remembers. */
  ghost predicate SeenMatches(net: Net) {
    forall n, id :: n in net.peers ==> (id in net.peers[n].seen <==> Remembered(net.log, n, id))
  }

  /** A scored report is noted in the same step, was not remembered before, is not the node's own, and
      goes onto joined subnets only. */
  ghost predicate ScoredOk(world: World, log: seq<NetEffect>, j: int)
    requires 0 <= j < |log|
  {
    log[j].Scored? ==>
      && j >= 1 && log[j - 1] == Noted(log[j].n, log[j].id) && !Remembered(log[..j - 1], log[j].n, log[j].id)
      && log[j].n in world.nodes && log[j].e.reporterID != log[j].n && log[j].onto <= world.nodes[log[j].n].subnets
      && KeyOf(world.nodes[log[j].n], log[j].e).Some? && log[j].id == ReportId(world.nodes[log[j].n], log[j].e)
  }

  ghost predicate AllScoredOk(world: World, log: seq<NetEffect>) { forall j :: 0 <= j < |log| ==> ScoredOk(world, log, j) }

  lemma ScoredOkSnoc(world: World, log: seq<NetEffect>, x: NetEffect)
    requires AllScoredOk(world, log) && !x.Scored?
    ensures AllScoredOk(world, log + [x])
  {
    hide Remembered;
    var longer := log + [x];
    forall j | 0 <= j < |longer|
      ensures ScoredOk(world, longer, j)
    {
      if j < |log| {
        assert ScoredOk(world, log, j);
        if j >= 1 { assert longer[..j - 1] == log[..j - 1]; }
      }
    }
  }

  /** A delivered report that is scored. */
  lemma ScoredOkDelivered(world: World, log: seq<NetEffect>, n: string, x: NetEffect)
    requires AllScoredOk(world, log) && x.Scored? && x.n == n && !Remembered(log, n, x.id)
    requires n in world.nodes && x.e.reporterID != n && x.onto <= world.nodes[n].subnets
    requires KeyOf(world.nodes[n], x.e).Some? && x.id == ReportId(world.nodes[n], x.e)
    ensures AllScoredOk(world, log + [Noted(n, x.id), x])
  {
    hide Remembered, KeyOf, ReportId;
    var longer := log + [Noted(n, x.id), x];
    forall j | 0 <= j < |longer|
      ensures ScoredOk(world, longer, j)
    {
      if j < |log| {
        assert ScoredOk(world, log, j);
        if j >= 1 { assert longer[..j - 1] == log[..j - 1]; }
      } else if j == |log| + 1 {
        assert longer[..j - 1] == log;
      }
    }
  }

  /** A report that reaches the dedup cache for the first time is noted, and scored unless the
      database fails; any other delivery leaves no note. */
  ghost predicate NotesOk(cfg: Config, seen: set<string>, after: set<string>, p: Packet, notes: seq<NetEffect>) {
    if notes == [] then after == seen
    else
      && KeyOf(cfg, p.e).Some? && HopsOk(p.e, cfg.selfID)
      && var id := ReportId(cfg, p.e);
      && id !in seen && after == seen + {id} && notes[0] == Noted(p.to, id)
      && (|notes| == 1 || exists onto :: onto <= cfg.subnets && notes == [Noted(p.to, id), Scored(p.to, id, p.e, onto)])
  }

  lemma NotesAre(cfg: Config, peer: Peer, p: Packet, m: Move)
    requires ValidConfig(cfg) && m.Deliver?
    ensures NotesOk(cfg, peer.seen, if Reaches(cfg, peer.state, p.e, p.from, m.shed) then peer.seen + {ReportId(cfg, p.e)} else peer.seen,
                    p, Notes(cfg, peer, p, m))
  {
    hide Protected, HopsOk, IsVote, RelayOk, Forwards, ReportId, ScoredReport, KeyOf;
    var x := PublishedBy(cfg, peer.state, Arrival(cfg, peer, p, m));
    var onto := if x.Some? then x.value.onto else {};
    assert onto <= cfg.subnets;
    if Reaches(cfg, peer.state, p.e, p.from, m.shed) && ReportId(cfg, p.e) in peer.seen {
      assert peer.seen + {ReportId(cfg, p.e)} == peer.seen;
    }
  }

  /** What a delivery changes. */
  lemma DeliveredIs(world: World, net: Net, m: Move)
    requires Honest(world) && m.Deliver? && Legal(world, net, m) && FlightOk(world, net.flight)
    ensures var p, t := net.flight[m.at], Next(world, net, m);
            var cfg, peer := world.nodes[p.to], net.peers[p.to];
            && ValidConfig(cfg)
            && t.log == net.log + Notes(cfg, peer, p, m)
            && t.peers.Keys == net.peers.Keys && (forall n :: n in net.peers && n != p.to ==> t.peers[n] == net.peers[n])
            && NotesOk(cfg, peer.seen, t.peers[p.to].seen, p, Notes(cfg, peer, p, m))
  {
    var p := net.flight[m.at];
    LegalDelivery(world, net, m);
    NotesAre(world.nodes[p.to], net.peers[p.to], p, m);
    hide NotesOk, Notes, Honest, Step, Reaches, Broadcast, PublishedBy, FlightOk, PacketOk, ValidConfig;
  }

  lemma NotedKeepsSeen(net: Net, t: Net, n: string, id: string)
    requires SeenMatches(net) && n in net.peers && t.peers.Keys == net.peers.Keys && t.log == net.log + [Noted(n, id)]
    requires forall x :: x in net.peers ==> t.peers[x].seen == if x == n then net.peers[n].seen + {id} else net.peers[x].seen
    ensures SeenMatches(t)
  {
    hide Remembered;
    forall x, i | x in t.peers
      ensures i in t.peers[x].seen <==> Remembered(t.log, x, i)
    {
      RememberedSnoc(net.log, Noted(n, id), x, i);
    }
  }

  lemma ScoredKeepsSeen(net: Net, t: Net, s: NetEffect)
    requires SeenMatches(net) && s.Scored? && t.peers == net.peers && t.log == net.log + [s]
    ensures SeenMatches(t)
  {
    hide Remembered;
    forall x, i | x in t.peers
      ensures i in t.peers[x].seen <==> Remembered(t.log, x, i)
    {
      RememberedSnoc(net.log, s, x, i);
    }
  }

  lemma DeliverKeepsOnce(world: World, net: Net, m: Move)
    requires Honest(world) && m.Deliver? && Legal(world, net, m) && FlightOk(world, net.flight)
    requires SeenMatches(net) && AllScoredOk(world, net.log)
    ensures SeenMatches(Next(world, net, m)) && AllScoredOk(world, Next(world, net, m).log)
  {
    hide *;
    LegalDelivery(world, net, m);
    var p, t := net.flight[m.at], Next(world, net, m);
    var cfg, peer := world.nodes[p.to], net.peers[p.to];
    DeliveredIs(world, net, m);
    NotesKeepOnce(world, net, t, p, Notes(cfg, peer, p, m));
  }

  lemma NotesKeepOnce(world: World, net: Net, t: Net, p: Packet, notes: seq<NetEffect>)
    requires Honest(world) && PacketOk(world, p) && SeenMatches(net) && AllScoredOk(world, net.log)
    requires p.to in world.nodes && p.to in net.peers && t.peers.Keys == net.peers.Keys && t.log == net.log + notes
    requires forall n :: n in net.peers && n != p.to ==> t.peers[n] == net.peers[n]
    requires NotesOk(world.nodes[p.to], net.peers[p.to].seen, t.peers[p.to].seen, p, notes)
    ensures SeenMatches(t) && AllScoredOk(world, t.log)
  {
    hide Honest, PacketOk, SeenMatches, AllScoredOk, KeyOf, ReportId, HopsOk;
    NotItsOwn(world, p);
    if notes == [] {
      assert t.log == net.log;
      SameKeepsSeen(net, t);
    } else {
      var id := ReportId(world.nodes[p.to], p.e);
      var mid := Net(t.peers, t.flight, net.log + [Noted(p.to, id)]);
      UnseenIsNotRemembered(net, p.to, id);
      NotedKeepsSeen(net, mid, p.to, id);
      if |notes| == 1 {
        assert t == mid;
        ScoredOkSnoc(world, net.log, Noted(p.to, id));
      } else {
        var x := notes[1];
        ScoredOkDelivered(world, net.log, p.to, x);
        assert t.log == mid.log + [x];
        ScoredKeepsSeen(mid, t, x);
      }
    }
  }

  lemma LegalDelivery(world: World, net: Net, m: Move)
    requires Honest(world) && m.Deliver? && Legal(world, net, m) && FlightOk(world, net.flight)
    ensures m.at < |net.flight| && net.flight[m.at].to in world.nodes && net.flight[m.at].to in net.peers
    ensures ValidConfig(world.nodes[net.flight[m.at].to]) && PacketOk(world, net.flight[m.at])
  {
    hide PacketOk, Broadcast, ValidConfig;
    assert HonestNode(world, net.flight[m.at].to, world.nodes[net.flight[m.at].to]);
  }

  lemma SameKeepsSeen(net: Net, t: Net)
    requires SeenMatches(net) && t.peers.Keys == net.peers.Keys && t.log == net.log
    requires forall x :: x in net.peers ==> t.peers[x].seen == net.peers[x].seen
    ensures SeenMatches(t)
  {
    hide Remembered;
  }

  lemma UnseenIsNotRemembered(net: Net, n: string, id: string)
    requires SeenMatches(net) && n in net.peers && id !in net.peers[n].seen
    ensures !Remembered(net.log, n, id)
  {
    hide Remembered;
  }

  /** The reporter of a sound copy is on its trace, so a node it did not pass is not its reporter. */
  lemma NotItsOwn(world: World, p: Packet)
    requires Honest(world) && PacketOk(world, p)
    ensures p.to in world.nodes
    ensures var cfg := world.nodes[p.to]; cfg.selfID == p.to && (HopsOk(p.e, cfg.selfID) ==> p.e.reporterID != p.to)
  {
    assert HonestNode(world, p.to, world.nodes[p.to]);
    hide Honest, Authentic;
    assert p.e.originTrace[0] in p.e.originTrace;
  }

  lemma OriginateKeepsOnce(world: World, net: Net, m: Move)
    requires Honest(world) && m.Originate? && Legal(world, net, m) && SeenMatches(net) && AllScoredOk(world, net.log)
    ensures SeenMatches(Next(world, net, m)) && AllScoredOk(world, Next(world, net, m).log)
  {
    var cfg, t := world.nodes[m.n], Next(world, net, m);
    assert ValidConfig(cfg) by { assert HonestNode(world, m.n, cfg); }
    hide Honest, Broadcast, Step, Protected, Remembered, AllScoredOk, ReportId;
    if KeyOf(cfg, m.e).Some? && !Protected(cfg, KeyOf(cfg, m.e).value) {
      var id := ReportId(cfg, m.e.(reporterID := cfg.selfID));
      assert t.log == net.log + [Noted(m.n, id)];
      assert t.peers[m.n].seen == net.peers[m.n].seen + {id};
      ScoredOkSnoc(world, net.log, Noted(m.n, id));
      NotedKeepsSeen(net, t, m.n, id);
    } else {
      assert t.log == net.log && t.peers[m.n].seen == net.peers[m.n].seen;
    }
  }

  lemma OthersKeepOnce(world: World, net: Net, m: Move)
    requires Honest(world) && !m.Originate? && !m.Deliver? && SeenMatches(net) && AllScoredOk(world, net.log)
    ensures SeenMatches(Next(world, net, m)) && AllScoredOk(world, Next(world, net, m).log)
  {
    hide Honest, Broadcast, Step, Remembered, AllScoredOk;
    if m.Forget? && Legal(world, net, m) {
      ScoredOkSnoc(world, net.log, Forgot(m.n, m.id));
      forall n, i
        ensures Remembered(net.log + [Forgot(m.n, m.id)], n, i) <==> Remembered(net.log, n, i) && Forgot(m.n, m.id) != Forgot(n, i)
      {
        RememberedSnoc(net.log, Forgot(m.n, m.id), n, i);
      }
    }
  }

  lemma {:induction false} OnceOfRun(world: World, moves: seq<Move>)
    requires Honest(world)
    ensures SeenMatches(Outcome(world, moves)) && AllScoredOk(world, Outcome(world, moves).log)
  {
    OutcomeStep(world, moves);
    if moves != [] {
      hide Honest, Next, Outcome, SeenMatches, AllScoredOk, Legal;
      var before, m := moves[..|moves| - 1], moves[|moves| - 1];
      var net := Outcome(world, before);
      OnceOfRun(world, before);
      FlightIsSound(world, before);
      if m.Deliver? {
        if Legal(world, net, m) { DeliverKeepsOnce(world, net, m); } else { IllegalStays(world, net, m); }
      } else if m.Originate? {
        if Legal(world, net, m) { OriginateKeepsOnce(world, net, m); } else { IllegalStays(world, net, m); }
      } else {
        OthersKeepOnce(world, net, m);
      }
    }
  }

  lemma IllegalStays(world: World, net: Net, m: Move)
    requires Honest(world) && !Legal(world, net, m)
    ensures Next(world, net, m) == net
  {
    hide Legal;
  }

  /** Between two scorings of one report at one node, the node's dedup entry for it was lost. */
  lemma ScoredAtMostOnce(world: World, moves: seq<Move>, i: nat, j: nat)
    requires Honest(world) && i < j < |Outcome(world, moves).log|
    requires var log := Outcome(world, moves).log;
             && log[i].Scored? && log[j].Scored? && log[i].n == log[j].n
             && log[i].e.(originTrace := []) == log[j].e.(originTrace := [])
    ensures var log := Outcome(world, moves).log;
            log[i].id == log[j].id && exists m :: i < m < j && log[m] == Forgot(log[j].n, log[j].id)
  {
    hide *;
    OnceOfRun(world, moves);
    ScoredApart(world, Outcome(world, moves).log, i, j);
  }

  lemma ScoredApart(world: World, log: seq<NetEffect>, i: nat, j: nat)
    requires AllScoredOk(world, log) && i < j < |log| && log[i].Scored? && log[j].Scored? && log[i].n == log[j].n
    requires log[i].e.(originTrace := []) == log[j].e.(originTrace := [])
    ensures log[i].id == log[j].id && exists m :: i < m < j && log[m] == Forgot(log[j].n, log[j].id)
  {
    hide KeyOf, ReportId;
    assert ScoredOk(world, log, i) && ScoredOk(world, log, j);
    SameReportSameId(world.nodes[log[i].n], log[i].e, log[j].e);
    var early := log[..j - 1];
    assert early[i - 1] == Noted(log[i].n, log[i].id);
    var m :| i - 1 < m < |early| && early[m] == Forgot(log[j].n, log[j].id);
    assert log[m] == early[m];
  }

  lemma SameReportSameId(cfg: Config, a: Event, b: Event)
    requires a.(originTrace := []) == b.(originTrace := [])
    ensures KeyOf(cfg, a) == KeyOf(cfg, b)
    ensures KeyOf(cfg, a).Some? ==> ReportId(cfg, a) == ReportId(cfg, b)
  {
    var x, y := a.(originTrace := []), b.(originTrace := []);
    assert x.ip == y.ip && x.reporterID == y.reporterID && x.reason == y.reason && x.ts == y.ts;
  }

  /** No node ever scores a report of its own that comes back to it, dedup entry or not. */
  lemma OriginatorNeverScores(world: World, moves: seq<Move>, j: nat)
    requires Honest(world) && j < |Outcome(world, moves).log| && Outcome(world, moves).log[j].Scored?
    ensures Outcome(world, moves).log[j].e.reporterID != Outcome(world, moves).log[j].n
  {
    OnceOfRun(world, moves);
    hide Outcome, Honest;
    assert ScoredOk(world, Outcome(world, moves).log, j);
  }
}
