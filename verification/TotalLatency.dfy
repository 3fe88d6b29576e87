/** The total latency of a port (jack_get_port_total_latency and its callers). */
module TotalLatency {
  const WORD: nat := 0x1_0000_0000

  type Frames = n: nat | n < WORD

  datatype Connection = Connection(source: nat, destination: nat)

  datatype Port = Port(inUse: bool, latency: Frames, output: bool, terminal: bool, connections: seq<Connection>)

  type Ports = seq<Port>

  ghost predicate Joins(ports: Ports, c: Connection, p: int) {
    && c.source < |ports| && c.destination < |ports| && (p == c.source || p == c.destination)
    && ports[c.source].output && !ports[c.destination].output
  }

  /** Every connection listed at a port joins it, leads from an output to an input. */
  ghost predicate Wired(ports: Ports) {
    forall p, k :: 0 <= p < |ports| && 0 <= k < |ports[p].connections| ==> Joins(ports, ports[p].connections[k], p)
  }

  /** The port at the other end. */
  function Peer(c: Connection, p: nat): nat {
    if c.destination == p then c.source else c.destination
  }

  /** m is the largest latency among the first n peers of p; no peers count as 0. */
  ghost predicate LargestOf(ports: Ports, p: nat, n: nat, m: nat)
    requires Wired(ports) && p < |ports| && n <= |ports[p].connections|
  {
    && (forall k :: 0 <= k < n ==> PeerLatency(ports, p, k) <= m)
    && (m == 0 || exists k :: 0 <= k < n && PeerLatency(ports, p, k) == m)
  }

  ghost function PeerLatency(ports: Ports, p: nat, k: nat): Frames
    requires Wired(ports) && p < |ports| && k < |ports[p].connections|
  {
    assert Joins(ports, ports[p].connections[k], p);
    ports[Peer(ports[p].connections[k], p)].latency
  }

  /** A port's own latency and the largest of its peers', in 32 bits. */
  ghost predicate IsTotal(ports: Ports, p: nat, r: nat)
    requires Wired(ports) && p < |ports|
  {
    exists m: nat :: LargestOf(ports, p, |ports[p].connections|, m) && r == (ports[p].latency + m) % WORD
  }

  /** There is only one such value. */
  lemma TotalUnique(ports: Ports, p: nat, r: nat, s: nat)
    requires Wired(ports) && p < |ports| && IsTotal(ports, p, r) && IsTotal(ports, p, s)
    ensures r == s
  {
    var n := |ports[p].connections|;
    var a: nat :| LargestOf(ports, p, n, a) && r == (ports[p].latency + a) % WORD;
    var b: nat :| LargestOf(ports, p, n, b) && s == (ports[p].latency + b) % WORD;
    assert a == b;
  }

  /** The recursion.  Seen from the side it came from, a port answers its own latency, so the
      walk never goes further than one hop: it ends without the hop limit, whatever cycles
      the client graph has, and the limit is never reached. */
  method PortTotal(ports: Ports, p: nat, hop: nat, toward: bool) returns (total: Frames)
    requires Wired(ports) && p < |ports|
    requires hop <= if toward == ports[p].output then 1 else 0
    ensures total == ports[p].latency || toward != ports[p].output
    ensures toward != ports[p].output ==> IsTotal(ports, p, total)
    decreases toward != ports[p].output
  {
    var latency, largest: Frames := ports[p].latency, 0;
    if hop > 8 {
      assert false;
    }
    for k := 0 to |ports[p].connections|
      invariant toward == ports[p].output ==> largest == 0
      invariant toward != ports[p].output ==> LargestOf(ports, p, k, largest)
    {
      var c := ports[p].connections[k];
      assert Joins(ports, c, p);
      if !((toward && c.source == p) || (!toward && c.destination == p)) {
        var other := if c.destination == p then c.source else c.destination;
        var here: Frames := ports[other].latency;
        if !ports[other].terminal {
          here := PortTotal(ports, other, hop + 1, toward);
        }
        assert here == PeerLatency(ports, p, k);
        if here > largest { largest := here; }
      }
    }
    assert latency + 0 == latency % WORD;
    total := (latency + largest) % WORD;
  }

  /** jack_compute_all_port_total_latencies. */
  method ComputeAll(ports: Ports, totals: array<Frames>)
    requires Wired(ports) && totals.Length == |ports|
    modifies totals
    ensures forall i :: 0 <= i < |ports| && ports[i].inUse ==> IsTotal(ports, i, totals[i])
    ensures forall i :: 0 <= i < |ports| && !ports[i].inUse ==> totals[i] == old(totals[i])
  {
    for i := 0 to |ports|
      invariant forall j :: 0 <= j < i && ports[j].inUse ==> IsTotal(ports, j, totals[j])
      invariant forall j :: 0 <= j < |ports| && (j >= i || !ports[j].inUse) ==> totals[j] == old(totals[j])
    {
      if ports[i].inUse {
        var toward := !ports[i].output;
        totals[i] := PortTotal(ports, i, 0, toward);
      }
    }
  }
}
