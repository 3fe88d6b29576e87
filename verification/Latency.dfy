/**
 Latency propagation: one pass over the clients in graph order (capture) and one in
 reverse (playback), each client taking the hull of what it is connected to.
 */
module Latency {
  type PortId = nat

  const UINT32_MAX: int := 0xFFFF_FFFF

  type uint32 = x: int | 0 <= x <= 0xFFFF_FFFF

  datatype Range = Range(min: uint32, max: uint32)

  datatype Mode = Capture | Playback

  datatype Client = Client(inputs: seq<PortId>, outputs: seq<PortId>, driver: bool) {
    /** The ports whose latency comes from their connections. */
    function Fed(mode: Mode): seq<PortId> {
      if mode == Capture then inputs else outputs
    }

    /** The ports whose latency comes from the client itself. */
    function Rest(mode: Mode): seq<PortId> {
      if mode == Capture then outputs else inputs
    }
  }

  type Values = map<PortId, Range>
  type Peers = map<PortId, seq<PortId>>

  function Get(v: Values, p: PortId): Range {
    if p in v then v[p] else Range(0, 0)
  }

  function PeersOf(peers: Peers, p: PortId): seq<PortId> {
    if p in peers then peers[p] else []
  }

  // ----- The hull of a list of ports

  function Widen(r: Range, o: Range): Range {
    Range(if o.min < r.min then o.min else r.min, if o.max > r.max then o.max else r.max)
  }

  function Running(ports: seq<PortId>, v: Values): Range {
    if ports == [] then Range(UINT32_MAX, 0)
    else Widen(Running(ports[..|ports| - 1], v), Get(v, ports[|ports| - 1]))
  }

  function Settle(r: Range): Range {
    if r.min == UINT32_MAX then r.(min := 0) else r
  }

  function Hull(ports: seq<PortId>, v: Values): Range {
    Settle(Running(ports, v))
  }

  lemma {:induction false} RunningBounds(ports: seq<PortId>, v: Values)
    ensures var r := Running(ports, v);
            && (forall p :: p in ports ==> r.min <= Get(v, p).min && Get(v, p).max <= r.max)
            && (r.min == UINT32_MAX || exists p :: p in ports && Get(v, p).min == r.min)
            && (r.max == 0 || exists p :: p in ports && Get(v, p).max == r.max)
    decreases |ports|
  {
    if ports != [] {
      var rest, last := ports[..|ports| - 1], ports[|ports| - 1];
      RunningBounds(rest, v);
      assert ports == rest + [last];
      assert last in ports && forall p :: p in rest ==> p in ports;
    }
  }

  /** The hull is the least range that covers every port; without a port, or with every
      minimum at its top value, the minimum is 0. */
  lemma HullIsHull(ports: seq<PortId>, v: Values)
    ensures var h := Hull(ports, v);
            && (forall p :: p in ports ==> Get(v, p).max <= h.max)
            && (if ports == [] then h == Range(0, 0) else exists p :: p in ports && Get(v, p).max == h.max)
            && (if exists p :: p in ports && Get(v, p).min < UINT32_MAX
                then (forall p :: p in ports ==> h.min <= Get(v, p).min) && exists p :: p in ports && Get(v, p).min == h.min
                else h.min == 0)
  {
    RunningBounds(ports, v);
    if ports != [] { assert ports[0] in ports; }
  }

  ghost predicate AgreeOn(v: Values, w: Values, ports: seq<PortId>) {
    forall p :: p in ports ==> Get(v, p) == Get(w, p)
  }

  lemma {:induction false} HullDependsOn(ports: seq<PortId>, v: Values, w: Values)
    requires AgreeOn(v, w, ports)
    ensures Running(ports, v) == Running(ports, w) && Hull(ports, v) == Hull(ports, w)
    decreases |ports|
  {
    if ports != [] {
      assert ports[|ports| - 1] in ports;
      HullDependsOn(ports[..|ports| - 1], v, w);
    }
  }

  // ----- The passes

  ghost function RecalcAll(ports: seq<PortId>, peers: Peers, v: Values): Values
    decreases |ports|
  {
    if ports == [] then v
    else
      var w := RecalcAll(ports[..|ports| - 1], peers, v);
      var p := ports[|ports| - 1];
      w[p := Hull(PeersOf(peers, p), w)]
  }

  ghost function SetAll(ports: seq<PortId>, r: Range, v: Values): Values
    decreases |ports|
  {
    if ports == [] then v else SetAll(ports[..|ports| - 1], r, v)[ports[|ports| - 1] := r]
  }

  /** What one client does with a latency event. */
  ghost function Deliver(c: Client, mode: Mode, peers: Peers, v: Values): Values {
    var w := RecalcAll(c.Fed(mode), peers, v);
    if c.driver then w else SetAll(c.Rest(mode), Hull(c.Fed(mode), w), w)
  }

  /** The event delivered to each client of a list in turn. */
  ghost function Deliveries(cs: seq<Client>, mode: Mode, peers: Peers, v: Values): Values
    decreases |cs|
  {
    if cs == [] then v
    else Deliver(cs[|cs| - 1], mode, peers, Deliveries(cs[..|cs| - 1], mode, peers, v))
  }

  function Reverse<T>(xs: seq<T>): seq<T>
    ensures |Reverse(xs)| == |xs|
    ensures forall i :: 0 <= i < |xs| ==> Reverse(xs)[i] == xs[|xs| - 1 - i]
  {
    if xs == [] then [] else Reverse(xs[1..]) + [xs[0]]
  }

  class LatencyEngine {
    const clients: seq<Client>
    const driver: Client
    const peers: Peers
    var capture: Values
    var playback: Values

    function Of(mode: Mode): Values
      reads this
    {
      if mode == Capture then capture else playback
    }

    /** jack_port_set_latency_range. */
    method SetRange(p: PortId, mode: Mode, r: Range)
      modifies this`capture, this`playback
      ensures Of(mode) == old(Of(mode))[p := r]
      ensures forall m :: m != mode ==> Of(m) == old(Of(m))
    {
      if mode == Capture { capture := capture[p := r]; } else { playback := playback[p := r]; }
    }

    /** The running minimum and maximum over a list of ports. */
    method FindHull(ports: seq<PortId>, mode: Mode) returns (r: Range)
      ensures r == Hull(ports, Of(mode))
    {
      r := Range(UINT32_MAX, 0);
      for i := 0 to |ports|
        invariant r == Running(ports[..i], Of(mode))
      {
        assert ports[..i + 1][..i] == ports[..i];
        var other := Get(Of(mode), ports[i]);
        if other.max > r.max { r := r.(max := other.max); }
        if other.min < r.min { r := r.(min := other.min); }
      }
      assert ports[..|ports|] == ports;
      if r.min == UINT32_MAX { r := r.(min := 0); }
    }

    /** jack_port_recalculate_latency. */
    method Recalculate(p: PortId, mode: Mode)
      modifies this`capture, this`playback
      ensures Of(mode) == old(Of(mode))[p := Hull(PeersOf(peers, p), old(Of(mode)))]
      ensures forall m :: m != mode ==> Of(m) == old(Of(m))
    {
      var r := FindHull(PeersOf(peers, p), mode);
      SetRange(p, mode, r);
    }

    /** jack_client_handle_latency_callback, without a callback of the client's own. */
    method HandleLatency(c: Client, mode: Mode)
      modifies this`capture, this`playback
      ensures Of(mode) == Deliver(c, mode, peers, old(Of(mode)))
      ensures forall m :: m != mode ==> Of(m) == old(Of(m))
    {
      hide Hull;
      var fed, rest := c.Fed(mode), c.Rest(mode);
      for i := 0 to |fed|
        invariant Of(mode) == RecalcAll(fed[..i], peers, old(Of(mode)))
        invariant forall m :: m != mode ==> Of(m) == old(Of(m))
      {
        assert fed[..i + 1][..i] == fed[..i];
        Recalculate(fed[i], mode);
      }
      assert fed[..|fed|] == fed;
      if c.driver { return; }
      var r := FindHull(fed, mode);
      ghost var w := Of(mode);
      for i := 0 to |rest|
        invariant Of(mode) == SetAll(rest[..i], r, w)
        invariant forall m :: m != mode ==> Of(m) == old(Of(m))
      {
        assert rest[..i + 1][..i] == rest[..i];
        SetRange(rest[i], mode, r);
      }
      assert rest[..|rest|] == rest;
    }

    method DeliverAll(order: seq<Client>, mode: Mode)
      modifies this`capture, this`playback
      ensures Of(mode) == Deliveries(order, mode, peers, old(Of(mode)))
      ensures forall m :: m != mode ==> Of(m) == old(Of(m))
    {
      hide Deliver;
      for i := 0 to |order|
        invariant Of(mode) == Deliveries(order[..i], mode, peers, old(Of(mode)))
        invariant forall m :: m != mode ==> Of(m) == old(Of(m))
      {
        assert order[..i + 1][..i] == order[..i];
        HandleLatency(order[i], mode);
      }
      assert order[..|order|] == order;
    }

    /** jack_compute_new_latency. */
    method ComputeNewLatency()
      modifies this
      ensures capture == Deliver(driver, Capture, peers, Deliveries(clients, Capture, peers, old(capture)))
      ensures playback == Deliver(driver, Playback, peers, Deliveries(Reverse(clients), Playback, peers, old(playback)))
    {
      hide Deliver, Deliveries;
      assert Of(Capture) == capture && Of(Playback) == playback;
      DeliverAll(clients, Capture);
      assert Of(Playback) == old(playback);
      HandleLatency(driver, Capture);
      assert Of(Playback) == old(playback);
      ghost var final := Of(Capture);
      DeliverAll(Reverse(clients), Playback);
      assert Of(Capture) == final;
      HandleLatency(driver, Playback);
      assert Of(Capture) == final;
    }
  }

  // ----- What a delivery does

  ghost predicate AgreeOff(v: Values, w: Values, ports: seq<PortId>) {
    forall p :: p !in ports ==> Get(v, p) == Get(w, p)
  }

  lemma {:induction false} SetAllFacts(ports: seq<PortId>, r: Range, v: Values)
    ensures AgreeOff(SetAll(ports, r, v), v, ports)
    ensures forall p :: p in ports ==> Get(SetAll(ports, r, v), p) == r
    decreases |ports|
  {
    if ports != [] {
      var k := |ports| - 1;
      SetAllFacts(ports[..k], r, v);
      assert ports == ports[..k] + [ports[k]];
    }
  }

  /** The connected ports of a port are ports of the other side. */
  ghost predicate CrossConnected(ports: seq<PortId>, peers: Peers) {
    forall p, q :: p in ports && q in PeersOf(peers, p) ==> q !in ports
  }

  lemma {:induction false} RecalcFacts(ports: seq<PortId>, all: seq<PortId>, peers: Peers, v: Values)
    requires CrossConnected(all, peers) && forall p :: p in ports ==> p in all
    ensures AgreeOff(RecalcAll(ports, peers, v), v, ports)
    ensures forall p :: p in ports ==> Get(RecalcAll(ports, peers, v), p) == Hull(PeersOf(peers, p), v)
    decreases |ports|
  {
    hide Hull;
    if ports != [] {
      var k := |ports| - 1;
      var before, p := RecalcAll(ports[..k], peers, v), ports[k];
      RecalcFacts(ports[..k], all, peers, v);
      assert ports == ports[..k] + [p];
      HullDependsOn(PeersOf(peers, p), before, v);
    }
  }

  // ----- The equations

  /** The equations of one client. */
  ghost predicate Satisfied(c: Client, mode: Mode, peers: Peers, v: Values) {
    && (forall p :: p in c.Fed(mode) ==> Get(v, p) == Hull(PeersOf(peers, p), v))
    && (!c.driver ==> forall q :: q in c.Rest(mode) ==> Get(v, q) == Hull(c.Fed(mode), v))
  }

  ghost predicate Apart(a: seq<PortId>, b: seq<PortId>) {
    forall p :: p in a ==> p !in b
  }

  /** The two sides of a client are different ports, connected across. */
  ghost predicate ClientOk(c: Client, mode: Mode, peers: Peers) {
    Apart(c.Fed(mode), c.Rest(mode)) && CrossConnected(c.Fed(mode), peers)
  }

  /** No client but a driver is connected to itself. */
  ghost predicate NotToSelf(c: Client, mode: Mode, peers: Peers) {
    !c.driver ==> forall p, q :: p in c.Fed(mode) && q in PeersOf(peers, p) ==> q !in c.Rest(mode)
  }

  /** What a delivery changes. */
  ghost function Touched(c: Client, mode: Mode): seq<PortId> {
    c.Fed(mode) + if c.driver then [] else c.Rest(mode)
  }

  lemma DeliverFacts(c: Client, mode: Mode, peers: Peers, v: Values)
    requires ClientOk(c, mode, peers)
    ensures AgreeOff(Deliver(c, mode, peers, v), v, Touched(c, mode))
    ensures forall p :: p in c.Fed(mode) ==> Get(Deliver(c, mode, peers, v), p) == Hull(PeersOf(peers, p), v)
    ensures !c.driver ==> forall q :: q in c.Rest(mode) ==>
              Get(Deliver(c, mode, peers, v), q) == Hull(c.Fed(mode), Deliver(c, mode, peers, v))
  {
    hide Hull;
    var fed, rest := c.Fed(mode), c.Rest(mode);
    RecalcFacts(fed, fed, peers, v);
    if !c.driver {
      var w := RecalcAll(fed, peers, v);
      var r := Hull(fed, w);
      SetAllFacts(rest, r, w);
      HullDependsOn(fed, w, SetAll(rest, r, w));
    }
  }

  /** A client's equations hold right after its delivery. */
  lemma DeliverSatisfies(c: Client, mode: Mode, peers: Peers, v: Values)
    requires ClientOk(c, mode, peers) && NotToSelf(c, mode, peers)
    ensures Satisfied(c, mode, peers, Deliver(c, mode, peers, v))
  {
    hide Hull, Deliver;
    var w := Deliver(c, mode, peers, v);
    DeliverFacts(c, mode, peers, v);
    forall p | p in c.Fed(mode)
      ensures Get(w, p) == Hull(PeersOf(peers, p), w)
    {
      HullDependsOn(PeersOf(peers, p), v, w);
    }
  }

  /** A delivery to a client whose equations hold already changes nothing. */
  lemma DeliverIdle(c: Client, mode: Mode, peers: Peers, v: Values)
    requires ClientOk(c, mode, peers) && Satisfied(c, mode, peers, v)
    ensures AgreeOff(Deliver(c, mode, peers, v), v, [])
  {
    hide Hull, Deliver;
    var w := Deliver(c, mode, peers, v);
    DeliverFacts(c, mode, peers, v);
    HullDependsOn(c.Fed(mode), v, w);
  }

  /** Equations stay satisfied when only unrelated ports change. */
  lemma StaysSatisfied(c: Client, mode: Mode, peers: Peers, v: Values, w: Values, changed: seq<PortId>)
    requires Satisfied(c, mode, peers, v) && AgreeOff(w, v, changed)
    requires Apart(c.Fed(mode), changed) && (!c.driver ==> Apart(c.Rest(mode), changed))
    requires forall p, q :: p in c.Fed(mode) && q in PeersOf(peers, p) ==> q !in changed
    ensures Satisfied(c, mode, peers, w)
  {
    hide Hull;
    HullDependsOn(c.Fed(mode), v, w);
    forall p | p in c.Fed(mode)
      ensures Get(w, p) == Hull(PeersOf(peers, p), w)
    {
      HullDependsOn(PeersOf(peers, p), v, w);
    }
  }

  // ----- The network

  /** Client a's ports feed client b. */
  ghost predicate FeedsInto(a: Client, b: Client, mode: Mode, peers: Peers) {
    exists p, q :: p in b.Fed(mode) && q in PeersOf(peers, p) && q in a.Rest(mode)
  }

  /** Port tables are in order: sides apart, clients apart, connections across. */
  ghost predicate NetOk(order: seq<Client>, mode: Mode, peers: Peers) {
    && (forall i :: 0 <= i < |order| ==> ClientOk(order[i], mode, peers))
    && (forall i, j :: 0 <= i < |order| && 0 <= j < |order| && i != j ==>
          && Apart(order[i].Fed(mode), order[j].Fed(mode)) && Apart(order[i].Fed(mode), order[j].Rest(mode))
          && Apart(order[i].Rest(mode), order[j].Fed(mode)) && Apart(order[i].Rest(mode), order[j].Rest(mode)))
    && (forall i, j :: 0 <= i < |order| && 0 <= j < |order| ==> PeersAcross(order[i], order[j], mode, peers))
  }

  ghost predicate PeersAcross(a: Client, b: Client, mode: Mode, peers: Peers) {
    forall p, q :: p in a.Fed(mode) && q in PeersOf(peers, p) ==> q !in b.Fed(mode)
  }

  /** Connections between clients other than the driver run strictly forward in the order. */
  ghost predicate Forward(order: seq<Client>, mode: Mode, peers: Peers) {
    forall i, j | 0 <= i < |order| && 0 <= j < |order| && !order[i].driver && !order[j].driver ::
      FeedsInto(order[i], order[j], mode, peers) ==> i < j
  }

  /** A later delivery leaves the equations of an earlier client alone. */
  lemma LaterLeavesAlone(order: seq<Client>, mode: Mode, peers: Peers, i: nat, j: nat, v: Values)
    requires NetOk(order, mode, peers) && Forward(order, mode, peers) && i < j < |order|
    requires !order[i].driver && Satisfied(order[i], mode, peers, v)
    ensures Satisfied(order[i], mode, peers, Deliver(order[j], mode, peers, v))
  {
    var a, b := order[i], order[j];
    DeliverFacts(b, mode, peers, v);
    hide Hull, Deliver, Satisfied;
    assert PeersAcross(a, b, mode, peers);
    forall p, q | p in a.Fed(mode) && q in PeersOf(peers, p)
      ensures q !in Touched(b, mode)
    {
      assert q in b.Rest(mode) ==> FeedsInto(b, a, mode, peers);
    }
    StaysSatisfied(a, mode, peers, v, Deliver(b, mode, peers, v), Touched(b, mode));
  }

  lemma {:induction false} PassSatisfies(order: seq<Client>, mode: Mode, peers: Peers, v: Values, n: nat, i: nat)
    requires NetOk(order, mode, peers) && Forward(order, mode, peers) && i < n <= |order| && !order[i].driver
    ensures Satisfied(order[i], mode, peers, Deliveries(order[..n], mode, peers, v))
    decreases n
  {
    hide Satisfied, Deliver;
    assert order[..n][..n - 1] == order[..n - 1];
    var w := Deliveries(order[..n - 1], mode, peers, v);
    if i < n - 1 {
      PassSatisfies(order, mode, peers, v, n - 1, i);
      LaterLeavesAlone(order, mode, peers, i, n - 1, w);
    } else {
      NotFedBySelf(order, mode, peers, i);
      DeliverSatisfies(order[i], mode, peers, w);
    }
  }

  lemma NotFedBySelf(order: seq<Client>, mode: Mode, peers: Peers, i: nat)
    requires Forward(order, mode, peers) && i < |order| && !order[i].driver
    ensures NotToSelf(order[i], mode, peers)
  {
    var c := order[i];
    forall p, q | p in c.Fed(mode) && q in PeersOf(peers, p)
      ensures q !in c.Rest(mode)
    {
      assert q in c.Rest(mode) ==> FeedsInto(c, c, mode, peers);
    }
  }

  /** The driver is the only driver in the list. */
  ghost predicate OneDriver(order: seq<Client>, d: nat) {
    d < |order| && forall i :: 0 <= i < |order| ==> (order[i].driver <==> i == d)
  }

  ghost predicate AllSatisfied(order: seq<Client>, mode: Mode, peers: Peers, v: Values) {
    forall i :: 0 <= i < |order| ==> Satisfied(order[i], mode, peers, v)
  }

  /** One whole pass: everybody in order, then the driver once more. */
  ghost function Pass(order: seq<Client>, driver: Client, mode: Mode, peers: Peers, v: Values): Values {
    Deliver(driver, mode, peers, Deliveries(order, mode, peers, v))
  }

  lemma DriverLast(order: seq<Client>, mode: Mode, peers: Peers, d: nat, i: nat, v: Values)
    requires NetOk(order, mode, peers) && OneDriver(order, d) && i < |order| && i != d
    requires Satisfied(order[i], mode, peers, v)
    ensures Satisfied(order[i], mode, peers, Deliver(order[d], mode, peers, v))
  {
    DeliverFacts(order[d], mode, peers, v);
    hide Hull, Deliver, Satisfied;
    assert PeersAcross(order[i], order[d], mode, peers);
    StaysSatisfied(order[i], mode, peers, v, Deliver(order[d], mode, peers, v), Touched(order[d], mode));
  }

  /** One pass reaches the fixpoint: every equation of every client holds. */
  lemma PassReachesFixpoint(order: seq<Client>, mode: Mode, peers: Peers, d: nat, v: Values)
    requires NetOk(order, mode, peers) && Forward(order, mode, peers) && OneDriver(order, d)
    ensures AllSatisfied(order, mode, peers, Pass(order, order[d], mode, peers, v))
  {
    hide Satisfied, Deliver, Deliveries, NetOk, Forward;
    var w := Deliveries(order, mode, peers, v);
    assert order[..|order|] == order;
    forall i | 0 <= i < |order|
      ensures Satisfied(order[i], mode, peers, Deliver(order[d], mode, peers, w))
    {
      if i == d {
        ClientOkAt(order, mode, peers, d);
        DeliverSatisfies(order[d], mode, peers, w);
      } else {
        PassSatisfies(order, mode, peers, v, |order|, i);
        DriverLast(order, mode, peers, d, i, w);
      }
    }
  }

  lemma ClientOkAt(order: seq<Client>, mode: Mode, peers: Peers, i: nat)
    requires NetOk(order, mode, peers) && i < |order|
    ensures ClientOk(order[i], mode, peers)
  {
  }

  lemma {:induction false} DeliveriesIdle(order: seq<Client>, mode: Mode, peers: Peers, v: Values, n: nat)
    requires NetOk(order, mode, peers) && AllSatisfied(order, mode, peers, v) && n <= |order|
    ensures AgreeOff(Deliveries(order[..n], mode, peers, v), v, [])
    decreases n
  {
    hide Hull, Deliver;
    if n > 0 {
      assert order[..n][..n - 1] == order[..n - 1];
      var w := Deliveries(order[..n - 1], mode, peers, v);
      DeliveriesIdle(order, mode, peers, v, n - 1);
      StaysSatisfied(order[n - 1], mode, peers, v, w, []);
      DeliverIdle(order[n - 1], mode, peers, w);
    }
  }

  /** A second pass changes nothing. */
  lemma SecondPassIdle(order: seq<Client>, mode: Mode, peers: Peers, d: nat, v: Values)
    requires NetOk(order, mode, peers) && OneDriver(order, d) && AllSatisfied(order, mode, peers, v)
    ensures AgreeOff(Pass(order, order[d], mode, peers, v), v, [])
  {
    hide Hull, Deliver, Deliveries;
    assert order[..|order|] == order;
    var w := Deliveries(order, mode, peers, v);
    DeliveriesIdle(order, mode, peers, v, |order|);
    StaysSatisfied(order[d], mode, peers, v, w, []);
    DeliverIdle(order[d], mode, peers, w);
  }

  /** Every connection of a client leads to a client of the list. */
  ghost predicate Closed(order: seq<Client>, mode: Mode, peers: Peers) {
    forall i, p, q :: 0 <= i < |order| && p in order[i].Fed(mode) && q in PeersOf(peers, p) ==>
      Owned(order, mode, q)
  }

  ghost predicate Owned(order: seq<Client>, mode: Mode, q: PortId) {
    exists k :: 0 <= k < |order| && q in order[k].Rest(mode)
  }

  /** v and w agree on the ports of client c that the latency pass computes or uses. */
  ghost predicate AgreeAt(c: Client, mode: Mode, v: Values, w: Values) {
    AgreeOn(v, w, c.Fed(mode)) && AgreeOn(v, w, c.Rest(mode))
  }

  /** The solution is unique, given the driver's own values. */
  lemma {:induction false} SolutionUnique(order: seq<Client>, mode: Mode, peers: Peers, d: nat, v: Values, w: Values, i: nat)
    requires NetOk(order, mode, peers) && Forward(order, mode, peers) && Closed(order, mode, peers)
    requires OneDriver(order, d) && AgreeOn(v, w, order[d].Rest(mode))
    requires AllSatisfied(order, mode, peers, v) && AllSatisfied(order, mode, peers, w)
    requires i < |order|
    ensures AgreeAt(order[i], mode, v, w)
    decreases i == d, i
  {
    var c := order[i];
    assert Satisfied(c, mode, peers, v) && Satisfied(c, mode, peers, w);
    hide Hull;
    forall p | p in c.Fed(mode)
      ensures Get(v, p) == Get(w, p)
    {
      forall q | q in PeersOf(peers, p)
        ensures Get(v, q) == Get(w, q)
      {
        assert Owned(order, mode, q);
        var k :| 0 <= k < |order| && q in order[k].Rest(mode);
        if k != d {
          if i != d { assert FeedsInto(order[k], c, mode, peers); }
          SolutionUnique(order, mode, peers, d, v, w, k);
        }
      }
      HullDependsOn(PeersOf(peers, p), v, w);
    }
    if i != d { HullDependsOn(c.Fed(mode), v, w); }
  }

  // ----- When the order is not forward

  /** The connections between clients other than the driver have no cycle: they go up in rank. */
  ghost predicate Ranked(order: seq<Client>, mode: Mode, peers: Peers, rank: seq<nat>) {
    && |rank| == |order|
    && forall i, j | 0 <= i < |order| && 0 <= j < |order| && !order[i].driver && !order[j].driver ::
         FeedsInto(order[i], order[j], mode, peers) ==> rank[i] < rank[j]
  }

  ghost predicate NoMax(ports: seq<PortId>, v: Values) {
    forall p :: p in ports ==> Get(v, p).max == 0
  }

  lemma HullOfZero(ports: seq<PortId>, v: Values)
    requires NoMax(ports, v)
    ensures Hull(ports, v).max == 0
  {
    RunningBounds(ports, v);
  }

  /** Where the driver supplies nothing, nothing solves the equations but zero. */
  lemma {:induction false} OnlyZero(order: seq<Client>, mode: Mode, peers: Peers, d: nat, rank: seq<nat>, v: Values, i: nat)
    requires Ranked(order, mode, peers, rank) && Closed(order, mode, peers) && OneDriver(order, d)
    requires AllSatisfied(order, mode, peers, v) && NoMax(order[d].Rest(mode), v)
    requires i < |order| && i != d
    ensures NoMax(order[i].Fed(mode), v) && NoMax(order[i].Rest(mode), v)
    decreases rank[i]
  {
    var c := order[i];
    assert Satisfied(c, mode, peers, v);
    hide Hull, Satisfied;
    forall p | p in c.Fed(mode)
      ensures Hull(PeersOf(peers, p), v).max == 0
    {
      forall q | q in PeersOf(peers, p)
        ensures Get(v, q).max == 0
      {
        assert Owned(order, mode, q);
        var k :| 0 <= k < |order| && q in order[k].Rest(mode);
        if k != d {
          assert FeedsInto(order[k], c, mode, peers);
          OnlyZero(order, mode, peers, d, rank, v, k);
        }
      }
      HullOfZero(PeersOf(peers, p), v);
    }
    SatisfiedZero(c, mode, peers, v);
  }

  lemma SatisfiedZero(c: Client, mode: Mode, peers: Peers, v: Values)
    requires Satisfied(c, mode, peers, v) && !c.driver
    requires forall p :: p in c.Fed(mode) ==> Hull(PeersOf(peers, p), v).max == 0
    ensures NoMax(c.Fed(mode), v) && NoMax(c.Rest(mode), v)
  {
    hide Hull;
    HullOfZero(c.Fed(mode), v);
  }

  /** Deliveries to clients that do not touch a port leave it alone. */
  lemma {:induction false} DeliveriesLeave(order: seq<Client>, mode: Mode, peers: Peers, v: Values, m: nat, n: nat, p: PortId)
    requires NetOk(order, mode, peers) && m <= n <= |order|
    requires forall k :: m <= k < n ==> p !in Touched(order[k], mode)
    ensures Get(Deliveries(order[..n], mode, peers, v), p) == Get(Deliveries(order[..m], mode, peers, v), p)
    decreases n
  {
    hide Hull, Deliver;
    if m < n {
      assert order[..n][..n - 1] == order[..n - 1];
      DeliveriesLeave(order, mode, peers, v, m, n - 1, p);
      ClientOkAt(order, mode, peers, n - 1);
      DeliverFacts(order[n - 1], mode, peers, Deliveries(order[..n - 1], mode, peers, v));
    }
  }

  lemma OthersDoNotTouch(order: seq<Client>, mode: Mode, peers: Peers, i: nat, k: nat, p: PortId)
    requires NetOk(order, mode, peers) && i < |order| && k < |order| && k != i
    requires p in order[i].Fed(mode) || p in order[i].Rest(mode)
    ensures p !in Touched(order[k], mode)
  {
  }

  /** Only its own client touches a port. */
  lemma OthersLeave(order: seq<Client>, mode: Mode, peers: Peers, v: Values, i: nat, m: nat, n: nat, p: PortId)
    requires NetOk(order, mode, peers) && i < |order| && m <= n <= |order| && !(m <= i < n)
    requires p in order[i].Fed(mode) || p in order[i].Rest(mode)
    ensures Get(Deliveries(order[..n], mode, peers, v), p) == Get(Deliveries(order[..m], mode, peers, v), p)
  {
    hide NetOk, Touched;
    forall k | m <= k < n
      ensures p !in Touched(order[k], mode)
    {
      OthersDoNotTouch(order, mode, peers, i, k, p);
    }
    DeliveriesLeave(order, mode, peers, v, m, n, p);
  }

  /** A port fed by a client that comes later keeps what that client had before the pass. */
  lemma StaleMax(order: seq<Client>, mode: Mode, peers: Peers, d: nat, i: nat, j: nat, p: PortId, q: PortId, v: Values)
    requires NetOk(order, mode, peers) && OneDriver(order, d) && i < j < |order| && i != d
    requires p in order[i].Fed(mode) && q in PeersOf(peers, p) && q in order[j].Rest(mode)
    ensures Get(Pass(order, order[d], mode, peers, v), p).max >= Get(v, q).max
  {
    hide Hull, Deliver, NetOk, Touched;
    var n := |order|;
    assert order[..n] == order && order[..0] == [] && order[..i + 1][..i] == order[..i];
    OthersLeave(order, mode, peers, v, j, 0, i, q);
    OthersLeave(order, mode, peers, v, i, i + 1, n, p);
    OthersDoNotTouch(order, mode, peers, i, d, p);
    var w := Deliveries(order[..i], mode, peers, v);
    ClientOkAt(order, mode, peers, i);
    ClientOkAt(order, mode, peers, d);
    DeliverFacts(order[i], mode, peers, w);
    DeliverFacts(order[d], mode, peers, Deliveries(order, mode, peers, v));
    HullCovers(PeersOf(peers, p), w, q);
  }

  lemma HullCovers(ports: seq<PortId>, v: Values, q: PortId)
    requires q in ports
    ensures Get(v, q).max <= Hull(ports, v).max
  {
    RunningBounds(ports, v);
  }

  /** A pass leaves the driver's own values alone. */
  lemma DriverKeeps(order: seq<Client>, mode: Mode, peers: Peers, d: nat, v: Values)
    requires NetOk(order, mode, peers) && OneDriver(order, d)
    ensures AgreeOn(Pass(order, order[d], mode, peers, v), v, order[d].Rest(mode))
  {
    hide Hull, Deliver, NetOk;
    var n := |order|;
    assert order[..n] == order && order[..0] == [];
    ClientOkAt(order, mode, peers, d);
    DeliverFacts(order[d], mode, peers, Deliveries(order, mode, peers, v));
    forall q | q in order[d].Rest(mode)
      ensures Get(Pass(order, order[d], mode, peers, v), q) == Get(v, q)
    {
      forall k | 0 <= k < n
        ensures q !in Touched(order[k], mode)
      {
        if k != d { OthersDoNotTouch(order, mode, peers, d, k, q); } else { DriverSide(order[d], mode, peers, q); }
      }
      DeliveriesLeave(order, mode, peers, v, 0, n, q);
    }
  }

  lemma DriverSide(c: Client, mode: Mode, peers: Peers, q: PortId)
    requires c.driver && ClientOk(c, mode, peers) && q in c.Rest(mode)
    ensures q !in Touched(c, mode)
  {
  }

  /** One connection that runs backward is enough for some starting values to be left
      unsettled by the pass. */
  lemma BackwardMisses(order: seq<Client>, mode: Mode, peers: Peers, d: nat, rank: seq<nat>, i: nat, j: nat) returns (v: Values)
    requires NetOk(order, mode, peers) && Closed(order, mode, peers) && OneDriver(order, d)
    requires Ranked(order, mode, peers, rank)
    requires i < j < |order| && i != d && j != d && FeedsInto(order[j], order[i], mode, peers)
    ensures !AllSatisfied(order, mode, peers, Pass(order, order[d], mode, peers, v))
  {
    var p, q :| p in order[i].Fed(mode) && q in PeersOf(peers, p) && q in order[j].Rest(mode);
    v := map[q := Range(0, 1)];
    var w := Pass(order, order[d], mode, peers, v);
    StaleMax(order, mode, peers, d, i, j, p, q, v);
    DriverKeeps(order, mode, peers, d, v);
    OthersDoNotOwn(order, mode, peers, j, d, q);
    hide Hull, Pass, NetOk, FeedsInto;
    assert NoMax(order[d].Rest(mode), w);
    if AllSatisfied(order, mode, peers, w) {
      OnlyZero(order, mode, peers, d, rank, w, i);
    }
  }

  lemma OthersDoNotOwn(order: seq<Client>, mode: Mode, peers: Peers, j: nat, d: nat, q: PortId)
    requires NetOk(order, mode, peers) && j < |order| && d < |order| && j != d && q in order[j].Rest(mode)
    ensures q !in order[d].Rest(mode)
  {
  }

  /** For connections without a cycle, one pass settles every starting state if and only if
      the list is in feed order. */
  lemma PassAlwaysReachesIff(order: seq<Client>, mode: Mode, peers: Peers, d: nat, rank: seq<nat>)
    requires NetOk(order, mode, peers) && Closed(order, mode, peers) && OneDriver(order, d)
    requires Ranked(order, mode, peers, rank)
    ensures (forall v :: AllSatisfied(order, mode, peers, Pass(order, order[d], mode, peers, v))) <==>
            Forward(order, mode, peers)
  {
    hide AllSatisfied, Pass, NetOk, Closed, FeedsInto;
    if Forward(order, mode, peers) {
      forall v
        ensures AllSatisfied(order, mode, peers, Pass(order, order[d], mode, peers, v))
      {
        PassReachesFixpoint(order, mode, peers, d, v);
      }
    } else {
      var j, i :| 0 <= j < |order| && 0 <= i < |order| && !order[j].driver && !order[i].driver
        && FeedsInto(order[j], order[i], mode, peers) && !(j < i);
      assert rank[j] < rank[i];
      var v := BackwardMisses(order, mode, peers, d, rank, i, j);
    }
  }

  // ----- Both directions

  /** For a list whose connections run forward, capture in list order and playback in
      reverse order both reach their fixpoint. */
  lemma BothPasses(clients: seq<Client>, peers: Peers, d: nat, capture: Values, playback: Values)
    requires NetOk(clients, Capture, peers) && Forward(clients, Capture, peers) && OneDriver(clients, d)
    requires NetOk(clients, Playback, peers) && Mutual(clients, peers)
    ensures AllSatisfied(clients, Capture, peers, Pass(clients, clients[d], Capture, peers, capture))
    ensures AllSatisfied(clients, Playback, peers, Pass(Reverse(clients), clients[d], Playback, peers, playback))
  {
    hide Satisfied, Pass;
    PassReachesFixpoint(clients, Capture, peers, d, capture);
    var back := Reverse(clients);
    var e := |clients| - 1 - d;
    ReverseNet(clients, peers);
    assert back[e] == clients[d];
    assert OneDriver(back, e);
    PassReachesFixpoint(back, Playback, peers, e, playback);
    forall i | 0 <= i < |clients|
      ensures Satisfied(clients[i], Playback, peers, Pass(back, clients[d], Playback, peers, playback))
    {
      assert back[|clients| - 1 - i] == clients[i];
    }
  }

  /** Connections are known at both ends: an input among the peers of an output has that
      output among its own peers. */
  ghost predicate Mutual(clients: seq<Client>, peers: Peers) {
    forall i, j, p, q | 0 <= i < |clients| && 0 <= j < |clients| && p in clients[i].outputs && q in clients[j].inputs ::
      q in PeersOf(peers, p) ==> p in PeersOf(peers, q)
  }

  lemma ReverseNet(clients: seq<Client>, peers: Peers)
    requires Forward(clients, Capture, peers) && NetOk(clients, Playback, peers) && Mutual(clients, peers)
    ensures NetOk(Reverse(clients), Playback, peers) && Forward(Reverse(clients), Playback, peers)
  {
    hide NetOk, FeedsInto, Mutual;
    ReverseTables(clients, peers);
    var back, n := Reverse(clients), |clients|;
    forall i, j | 0 <= i < n && 0 <= j < n && !back[i].driver && !back[j].driver
      ensures FeedsInto(back[i], back[j], Playback, peers) ==> i < j
    {
      var a, b := n - 1 - i, n - 1 - j;
      assert back[i] == clients[a] && back[j] == clients[b];
      FeedsBack(clients, peers, a, b);
    }
  }

  lemma FeedsBack(clients: seq<Client>, peers: Peers, a: nat, b: nat)
    requires Mutual(clients, peers) && a < |clients| && b < |clients|
    ensures FeedsInto(clients[a], clients[b], Playback, peers) ==> FeedsInto(clients[b], clients[a], Capture, peers)
  {
    if FeedsInto(clients[a], clients[b], Playback, peers) {
      var p, q :| p in clients[b].Fed(Playback) && q in PeersOf(peers, p) && q in clients[a].Rest(Playback);
      assert q in clients[a].Fed(Capture) && p in PeersOf(peers, q) && p in clients[b].Rest(Capture);
    }
  }

  lemma ReverseTables(clients: seq<Client>, peers: Peers)
    requires NetOk(clients, Playback, peers)
    ensures NetOk(Reverse(clients), Playback, peers)
  {
    hide ClientOk, Apart, PeersAcross;
    var back, n := Reverse(clients), |clients|;
    assert forall i :: 0 <= i < n ==> back[i] == clients[n - 1 - i];
  }
}
