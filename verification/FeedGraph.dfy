/**
 The engine's view of clients, ports and connections, and the rules that tie the
 feed lists and counters to the connections that are alive.
 */
module FeedGraph {
  import opened Collections
  import opened Digraph

  type ClientId = Node
  type PortId = nat
  type ConnId = nat

  datatype ClientType = Internal | Driver | External

  datatype Control = Control(kind: ClientType, active: bool, dead: bool)

  datatype Port = Port(owner: ClientId, isInput: bool, ptype: nat, hasMixdown: bool)

  /** dir is 1 for a forward connection, -1 for feedback, 0 for a client feeding itself. */
  datatype Connection = Connection(
    source: PortId, destination: PortId, srcclient: ClientId, dstclient: ClientId, dir: int)

  datatype State = State(
    control: map<ClientId, Control>,
    ports: map<PortId, Port>,
    portsOf: map<ClientId, seq<PortId>>,
    connections: map<PortId, seq<ConnId>>,
    conns: map<ConnId, Connection>,
    truefeeds: Feeds,
    sortfeeds: Feeds,
    fedcount: map<ClientId, int>,
    feedbackcount: int)

  predicate IsDriver(control: map<ClientId, Control>, c: ClientId) {
    c in control && control[c].kind == Driver
  }

  // ----- Counting connections

  /** A kind of connection to be counted. */
  datatype Query =
    | True(a: ClientId, b: ClientId)       // constrains the order, from a to b
    | Forward(a: ClientId, b: ClientId)    // the same, not feedback
    | Feedback(a: ClientId, b: ClientId)   // feedback from a to b
    | AnyFeedback
    | IntoFrom(b: ClientId, from: set<ClientId>) // constrains the order, from a member of the set to b

  /** Connections to a driver and from a client to itself do not constrain the order. */
  predicate Constrains(control: map<ClientId, Control>, c: Connection) {
    c.srcclient != c.dstclient && !IsDriver(control, c.dstclient)
  }

  ghost predicate Matches(control: map<ClientId, Control>, q: Query, c: Connection) {
    match q
    case True(a, b) => Constrains(control, c) && c.srcclient == a && c.dstclient == b
    case Forward(a, b) => Constrains(control, c) && c.srcclient == a && c.dstclient == b && c.dir == 1
    case Feedback(a, b) => c.srcclient == a && c.dstclient == b && c.dir == -1
    case AnyFeedback => c.dir == -1
    case IntoFrom(b, from) => Constrains(control, c) && c.dstclient == b && c.srcclient in from
  }

  ghost function Select(control: map<ClientId, Control>, conns: map<ConnId, Connection>, q: Query): set<ConnId> {
    set k | k in conns && Matches(control, q, conns[k])
  }

  ghost function Count(control: map<ClientId, Control>, conns: map<ConnId, Connection>, q: Query): nat {
    |Select(control, conns, q)|
  }

  ghost function One(b: bool): nat { if b then 1 else 0 }

  lemma CountAdd(control: map<ClientId, Control>, conns: map<ConnId, Connection>, k: ConnId, c: Connection, q: Query)
    requires k !in conns
    ensures Count(control, conns[k := c], q) == Count(control, conns, q) + One(Matches(control, q, c))
  {
    hide Matches;
    var before := Select(control, conns, q);
    var after := Select(control, conns[k := c], q);
    var more := if Matches(control, q, c) then {k} else {};
    forall j
      ensures j in after <==> j in before + more
    {
      if j != k && j in conns { assert conns[k := c][j] == conns[j]; }
    }
    assert after == before + more && before !! more;
  }

  lemma CountRemove(control: map<ClientId, Control>, conns: map<ConnId, Connection>, k: ConnId, q: Query)
    requires k in conns
    ensures Count(control, conns, q) == Count(control, conns - {k}, q) + One(Matches(control, q, conns[k]))
  {
    assert (conns - {k})[k := conns[k]] == conns;
    CountAdd(control, conns - {k}, k, conns[k], q);
  }

  lemma CountReplace(control: map<ClientId, Control>, conns: map<ConnId, Connection>, k: ConnId, c: Connection, q: Query)
    requires k in conns
    ensures Count(control, conns[k := c], q) + One(Matches(control, q, conns[k]))
         == Count(control, conns, q) + One(Matches(control, q, c))
  {
    CountRemove(control, conns, k, q);
    CountAdd(control, conns - {k}, k, c, q);
    assert (conns - {k})[k := c] == conns[k := c];
  }

  /** A positive count comes from a connection. */
  lemma CountWitness(control: map<ClientId, Control>, conns: map<ConnId, Connection>, q: Query) returns (k: ConnId)
    requires Count(control, conns, q) > 0
    ensures k in conns && Matches(control, q, conns[k])
  {
    k :| k in Select(control, conns, q);
  }

  lemma CountPositive(control: map<ClientId, Control>, conns: map<ConnId, Connection>, q: Query, k: ConnId)
    requires k in conns && Matches(control, q, conns[k])
    ensures Count(control, conns, q) > 0
  {
    assert k in Select(control, conns, q);
  }

  lemma CountZero(control: map<ClientId, Control>, conns: map<ConnId, Connection>, q: Query)
    requires forall k :: k in conns ==> !Matches(control, q, conns[k])
    ensures Count(control, conns, q) == 0
  {
    assert Select(control, conns, q) == {};
  }

  /** Taking a client out of the origin set takes its own connections out of the count. */
  lemma CountFromSplit(control: map<ClientId, Control>, conns: map<ConnId, Connection>,
                       b: ClientId, from: set<ClientId>, a: ClientId)
    requires a in from
    ensures Count(control, conns, IntoFrom(b, from))
         == Count(control, conns, IntoFrom(b, from - {a})) + Count(control, conns, True(a, b))
  {
    var all := Select(control, conns, IntoFrom(b, from));
    var rest := Select(control, conns, IntoFrom(b, from - {a}));
    var own := Select(control, conns, True(a, b));
    assert all == rest + own && rest !! own;
  }

  // ----- Invariants

  /** How often b is on the list of a. */
  ghost function Mult(g: map<nat, seq<nat>>, a: nat, b: nat): nat {
    if a in g then multiset(g[a])[b] else 0
  }

  lemma MultEdge(g: Feeds, a: Node, b: Node)
    ensures Edge(g, a, b) <==> Mult(g, a, b) > 0
  {
    if a in g { assert b in g[a] <==> b in multiset(g[a]); }
  }

  /** What the direction of a connection may be, given its clients. */
  ghost predicate DirOk(control: map<ClientId, Control>, c: Connection) {
    if IsDriver(control, c.dstclient) then c.dir == 1
    else if c.srcclient == c.dstclient then c.dir == 0
    else c.dir == 1 || (c.dir == -1 && !IsDriver(control, c.srcclient))
  }

  ghost predicate EndsOk(control: map<ClientId, Control>, conns: map<ConnId, Connection>) {
    forall k :: k in conns ==>
      conns[k].srcclient in control && conns[k].dstclient in control && DirOk(control, conns[k])
  }

  /** One truefeeds entry per connection that constrains the order. */
  ghost predicate TrueCounted(control: map<ClientId, Control>, conns: map<ConnId, Connection>, truefeeds: Feeds) {
    && truefeeds.Keys == control.Keys
    && forall a, b :: a in control ==> Mult(truefeeds, a, b) == Count(control, conns, True(a, b))
  }

  /** One sortfeeds entry per such connection, reversed if it is feedback. */
  ghost predicate SortCounted(control: map<ClientId, Control>, conns: map<ConnId, Connection>, sortfeeds: Feeds) {
    && sortfeeds.Keys == control.Keys
    && forall a, b :: a in control ==>
         Mult(sortfeeds, a, b) == Count(control, conns, Forward(a, b)) + Count(control, conns, Feedback(b, a))
  }

  /** fedcount is exact for clients other than drivers; for drivers it can only fall below zero. */
  ghost predicate FedCounted(control: map<ClientId, Control>, conns: map<ConnId, Connection>,
                             fedcount: map<ClientId, int>)
  {
    && fedcount.Keys == control.Keys
    && forall b :: b in control ==>
         if IsDriver(control, b) then fedcount[b] <= 0
         else fedcount[b] == Count(control, conns, IntoFrom(b, control.Keys))
  }

  ghost predicate Conserved(s: State) {
    && EndsOk(s.control, s.conns)
    && TrueCounted(s.control, s.conns, s.truefeeds)
    && SortCounted(s.control, s.conns, s.sortfeeds)
    && FedCounted(s.control, s.conns, s.fedcount)
    && s.feedbackcount == Count(s.control, s.conns, AnyFeedback)
  }

  /** No edge of g enters a driver. */
  ghost predicate DriversUnfed(control: map<ClientId, Control>, g: Feeds) {
    forall a, d :: Edge(g, a, d) ==> !IsDriver(control, d)
  }

  lemma SortEdgeFacts(control: map<ClientId, Control>, conns: map<ConnId, Connection>, g: Feeds)
    requires EndsOk(control, conns) && SortCounted(control, conns, g)
    ensures DriversUnfed(control, g)
  {
    forall a, d | Edge(g, a, d)
      ensures !IsDriver(control, d)
    {
      MultEdge(g, a, d);
      if Count(control, conns, Forward(a, d)) > 0 {
        var k := CountWitness(control, conns, Forward(a, d));
      } else {
        var k := CountWitness(control, conns, Feedback(d, a));
      }
    }
  }

  lemma TrueEdgeFacts(control: map<ClientId, Control>, conns: map<ConnId, Connection>, g: Feeds)
    requires EndsOk(control, conns) && TrueCounted(control, conns, g)
    ensures DriversUnfed(control, g)
    ensures forall a, b :: Edge(g, a, b) ==> a in control && b in control && a != b
  {
    forall a, b | Edge(g, a, b)
      ensures a in control && b in control && a != b && !IsDriver(control, b)
    {
      MultEdge(g, a, b);
      var k := CountWitness(control, conns, True(a, b));
    }
  }

  // ----- Port and connection tables

  ghost predicate ClientPortsOk(control: map<ClientId, Control>, ports: map<PortId, Port>,
                                portsOf: map<ClientId, seq<PortId>>)
  {
    && portsOf.Keys == control.Keys
    && (forall c :: c in control ==> Distinct(portsOf[c]))
    && (forall c, p :: c in control && p in portsOf[c] ==> p in ports && ports[p].owner == c)
    && (forall p :: p in ports ==> ports[p].owner in control && p in portsOf[ports[p].owner])
    && (forall c :: c in control && control[c].dead ==> portsOf[c] == [] && !control[c].active)
  }

  /** A connection runs from an output port to an input port of the same type,
      between active clients. */
  ghost predicate ConnOk(control: map<ClientId, Control>, ports: map<PortId, Port>, c: Connection) {
    && c.source in ports && c.destination in ports
    && !ports[c.source].isInput && ports[c.destination].isInput
    && ports[c.source].ptype == ports[c.destination].ptype
    && c.srcclient == ports[c.source].owner && c.dstclient == ports[c.destination].owner
    && c.srcclient in control && control[c.srcclient].active
    && c.dstclient in control && control[c.dstclient].active
  }

  ghost predicate AllConnsOk(control: map<ClientId, Control>, ports: map<PortId, Port>,
                             conns: map<ConnId, Connection>)
  {
    forall k :: k in conns ==> ConnOk(control, ports, conns[k])
  }

  predicate Touches(c: Connection, p: PortId) {
    c.source == p || c.destination == p
  }

  /** A port's list holds exactly the connections that touch the port, once each. */
  ghost predicate PortListsOk(connections: map<PortId, seq<ConnId>>, conns: map<ConnId, Connection>) {
    && (forall p :: p in connections ==> Distinct(connections[p]))
    && (forall p, k :: p in connections ==> (k in connections[p] <==> k in conns && Touches(conns[k], p)))
  }

  /** Two ports are connected at most once. */
  ghost predicate PairsUnique(conns: map<ConnId, Connection>) {
    forall j, k | j in conns && k in conns ::
      conns[j].source == conns[k].source && conns[j].destination == conns[k].destination ==> j == k
  }

  ghost predicate Wired(s: State) {
    && ClientPortsOk(s.control, s.ports, s.portsOf)
    && s.connections.Keys == s.ports.Keys
    && AllConnsOk(s.control, s.ports, s.conns)
    && PortListsOk(s.connections, s.conns)
    && PairsUnique(s.conns)
    && MixdownOk(s.ports, s.conns)
  }

  /** Only a port with a mixdown has more than one connection coming in. */
  ghost predicate MixdownOk(ports: map<PortId, Port>, conns: map<ConnId, Connection>) {
    forall j, k | j in conns && k in conns && j != k :: conns[j].destination == conns[k].destination ==>
      conns[j].destination in ports && ports[conns[j].destination].hasMixdown
  }

  /** Everything that holds between requests. */
  ghost predicate Sound(s: State) {
    Wired(s) && Conserved(s) && Acyclic(s.sortfeeds)
  }

  // ----- Making a connection

  ghost function NewDir(control: map<ClientId, Control>, sortfeeds: Feeds, a: ClientId, b: ClientId): int {
    if IsDriver(control, b) then 1
    else if a == b then 0
    else if Reaches(sortfeeds, b, a) then -1
    else 1
  }

  /** The connection record made for a pair of ports: connections into drivers count
      as forward, connections of a client to itself are neutral, and a connection is
      feedback exactly when its end already leads to its start. */
  ghost function NewConnection(s: State, source: PortId, destination: PortId): Connection
    requires source in s.ports && destination in s.ports
  {
    var a, b := s.ports[source].owner, s.ports[destination].owner;
    Connection(source, destination, a, b, NewDir(s.control, s.sortfeeds, a, b))
  }

  ghost function Prepend(g: map<nat, seq<nat>>, a: nat, b: nat): map<nat, seq<nat>>
    requires a in g
  {
    g[a := [b] + g[a]]
  }

  lemma PrependAt(g: map<nat, seq<nat>>, a: nat, b: nat, x: nat, y: nat)
    requires a in g
    ensures Mult(Prepend(g, a, b), x, y) == Mult(g, x, y) + One(x == a && y == b)
  {
  }

  ghost predicate Known(s: State, c: Connection) {
    && c.srcclient in s.truefeeds && c.srcclient in s.sortfeeds
    && c.dstclient in s.sortfeeds && c.dstclient in s.fedcount
    && c.source in s.connections && c.destination in s.connections
  }

  /** The state after connection c is added as k. */
  ghost function Connected(s: State, k: ConnId, c: Connection): State
    requires Known(s, c)
  {
    var linked := s.(conns := s.conns[k := c],
                     connections := Prepend(Prepend(s.connections, c.destination, k), c.source, k));
    if !Constrains(s.control, c) then linked
    else linked.(truefeeds := Prepend(s.truefeeds, c.srcclient, c.dstclient),
                 fedcount := s.fedcount[c.dstclient := s.fedcount[c.dstclient] + 1],
                 sortfeeds := if c.dir == -1 then Prepend(s.sortfeeds, c.dstclient, c.srcclient)
                              else Prepend(s.sortfeeds, c.srcclient, c.dstclient),
                 feedbackcount := s.feedbackcount + One(c.dir == -1))
  }

  lemma ListsAfterConnect(connections: map<PortId, seq<ConnId>>, conns: map<ConnId, Connection>,
                          k: ConnId, c: Connection)
    requires PortListsOk(connections, conns) && k !in conns && c.source != c.destination
    requires c.source in connections && c.destination in connections
    ensures PortListsOk(Prepend(Prepend(connections, c.destination, k), c.source, k), conns[k := c])
  {
    var after := Prepend(Prepend(connections, c.destination, k), c.source, k);
    forall p | p in after
      ensures Distinct(after[p])
      ensures forall j :: j in after[p] <==> j in conns[k := c] && Touches(conns[k := c][j], p)
    {
      assert k !in connections[p];
      if Touches(c, p) { assert after[p] == [k] + connections[p]; } else { assert after[p] == connections[p]; }
    }
  }

  lemma AllConnsAdd(control: map<ClientId, Control>, ports: map<PortId, Port>,
                    conns: map<ConnId, Connection>, k: ConnId, c: Connection)
    requires AllConnsOk(control, ports, conns) && ConnOk(control, ports, c)
    ensures AllConnsOk(control, ports, conns[k := c])
  {
    hide ConnOk;
  }

  lemma PairsAdd(conns: map<ConnId, Connection>, k: ConnId, c: Connection)
    requires PairsUnique(conns)
    requires forall j :: j in conns ==> conns[j].source != c.source || conns[j].destination != c.destination
    ensures PairsUnique(conns[k := c])
  {
  }

  lemma EndsDiffer(control: map<ClientId, Control>, ports: map<PortId, Port>, c: Connection)
    requires ConnOk(control, ports, c)
    ensures c.source != c.destination
  {
  }

  /** One more connection may come in at port p. */
  ghost predicate RoomAt(ports: map<PortId, Port>, conns: map<ConnId, Connection>, p: PortId) {
    p in ports && (ports[p].hasMixdown || forall j :: j in conns ==> conns[j].destination != p)
  }

  lemma MixdownAdd(ports: map<PortId, Port>, conns: map<ConnId, Connection>, k: ConnId, c: Connection)
    requires MixdownOk(ports, conns) && k !in conns && RoomAt(ports, conns, c.destination)
    ensures MixdownOk(ports, conns[k := c])
  {
  }

  lemma ConnectWired(s: State, k: ConnId, c: Connection)
    requires Wired(s) && Known(s, c) && k !in s.conns && ConnOk(s.control, s.ports, c)
    requires forall j :: j in s.conns ==> s.conns[j].source != c.source || s.conns[j].destination != c.destination
    requires RoomAt(s.ports, s.conns, c.destination)
    ensures Wired(Connected(s, k, c))
  {
    hide AllConnsOk, ConnOk, PairsUnique, PortListsOk, ClientPortsOk, MixdownOk, RoomAt;
    EndsDiffer(s.control, s.ports, c);
    MixdownAdd(s.ports, s.conns, k, c);
    AllConnsAdd(s.control, s.ports, s.conns, k, c);
    PairsAdd(s.conns, k, c);
    ListsAfterConnect(s.connections, s.conns, k, c);
  }

  lemma TrueAdd(control: map<ClientId, Control>, conns: map<ConnId, Connection>, g: Feeds, k: ConnId, c: Connection)
    requires TrueCounted(control, conns, g) && k !in conns && c.srcclient in g
    ensures TrueCounted(control, conns[k := c],
                        if Constrains(control, c) then Prepend(g, c.srcclient, c.dstclient) else g)
  {
    var after := if Constrains(control, c) then Prepend(g, c.srcclient, c.dstclient) else g;
    forall a, b | a in control
      ensures Mult(after, a, b) == Count(control, conns[k := c], True(a, b))
    {
      CountAdd(control, conns, k, c, True(a, b));
      PrependAt(g, c.srcclient, c.dstclient, a, b);
    }
  }

  lemma SortAdd(control: map<ClientId, Control>, conns: map<ConnId, Connection>, g: Feeds, k: ConnId, c: Connection)
    requires SortCounted(control, conns, g) && k !in conns && c.srcclient in g && c.dstclient in g
    requires DirOk(control, c)
    ensures SortCounted(control, conns[k := c],
                        if !Constrains(control, c) then g
                        else if c.dir == -1 then Prepend(g, c.dstclient, c.srcclient)
                        else Prepend(g, c.srcclient, c.dstclient))
  {
    var after := if !Constrains(control, c) then g
                 else if c.dir == -1 then Prepend(g, c.dstclient, c.srcclient)
                 else Prepend(g, c.srcclient, c.dstclient);
    forall a, b | a in control
      ensures Mult(after, a, b)
           == Count(control, conns[k := c], Forward(a, b)) + Count(control, conns[k := c], Feedback(b, a))
    {
      CountAdd(control, conns, k, c, Forward(a, b));
      CountAdd(control, conns, k, c, Feedback(b, a));
      PrependAt(g, c.srcclient, c.dstclient, a, b);
      PrependAt(g, c.dstclient, c.srcclient, a, b);
    }
  }

  lemma FedAdd(control: map<ClientId, Control>, conns: map<ConnId, Connection>, fed: map<ClientId, int>,
               k: ConnId, c: Connection)
    requires FedCounted(control, conns, fed) && k !in conns && c.srcclient in control && c.dstclient in control
    ensures FedCounted(control, conns[k := c],
                       if Constrains(control, c) then fed[c.dstclient := fed[c.dstclient] + 1] else fed)
  {
    forall b { CountAdd(control, conns, k, c, IntoFrom(b, control.Keys)); }
  }

  /** Feed lists and counters stay in step with the connections. */
  lemma ConnectConserved(s: State, k: ConnId, c: Connection)
    requires Conserved(s) && Known(s, c) && k !in s.conns
    requires c.srcclient in s.control && c.dstclient in s.control && DirOk(s.control, c)
    ensures Conserved(Connected(s, k, c))
  {
    hide TrueCounted, SortCounted, FedCounted, Count;
    TrueAdd(s.control, s.conns, s.truefeeds, k, c);
    SortAdd(s.control, s.conns, s.sortfeeds, k, c);
    FedAdd(s.control, s.conns, s.fedcount, k, c);
    CountAdd(s.control, s.conns, k, c, AnyFeedback);
  }

  /** The three rules of the sort: a new connection never closes a cycle in sortfeeds. */
  lemma ConnectAcyclic(s: State, k: ConnId, c: Connection)
    requires Acyclic(s.sortfeeds) && DriversUnfed(s.control, s.sortfeeds) && Known(s, c)
    requires c.dir == NewDir(s.control, s.sortfeeds, c.srcclient, c.dstclient)
    ensures Acyclic(Connected(s, k, c).sortfeeds) && DirOk(s.control, c)
  {
    var g := Connected(s, k, c).sortfeeds;
    var a, b := c.srcclient, c.dstclient;
    if Constrains(s.control, c) {
      if c.dir == -1 {
        if Reaches(s.sortfeeds, a, b) { ReachesTransitive(s.sortfeeds, a, b, a); }
        AddEdgeAcyclic(g, s.sortfeeds, b, a);
        var last := LastStep(s.sortfeeds, b, a);
      } else {
        AddEdgeAcyclic(g, s.sortfeeds, a, b);
      }
    }
  }

  lemma ConnectSound(s: State, k: ConnId, c: Connection)
    requires Sound(s) && k !in s.conns && ConnOk(s.control, s.ports, c)
    requires forall j :: j in s.conns ==> s.conns[j].source != c.source || s.conns[j].destination != c.destination
    requires c.dir == NewDir(s.control, s.sortfeeds, c.srcclient, c.dstclient) && RoomAt(s.ports, s.conns, c.destination)
    ensures Known(s, c) && Sound(Connected(s, k, c))
  {
    SortEdgeFacts(s.control, s.conns, s.sortfeeds);
    ConnectAcyclic(s, k, c);
    ConnectWired(s, k, c);
    ConnectConserved(s, k, c);
  }

  // ----- Undoing a connection

  ghost function Without(g: map<nat, seq<nat>>, a: nat, b: nat): map<nat, seq<nat>>
    requires a in g
  {
    g[a := RemoveFirst(g[a], b)]
  }

  lemma WithoutAt(g: map<nat, seq<nat>>, a: nat, b: nat, x: nat, y: nat)
    requires a in g
    ensures Mult(Without(g, a, b), x, y) == if x == a && y == b && Mult(g, a, b) > 0 then Mult(g, x, y) - 1 else Mult(g, x, y)
  {
    RemoveFirstCounts(g[a], b);
  }

  /** The state after connection k is dropped. Connections into drivers were never
      counted, yet lower the driver's fedcount. */
  ghost function Disconnected(s: State, k: ConnId): State
    requires k in s.conns && Known(s, s.conns[k])
  {
    var c := s.conns[k];
    var unlinked := s.(conns := s.conns - {k},
                       connections := Without(Without(s.connections, c.source, k), c.destination, k));
    if c.dir == 0 then unlinked
    else unlinked.(truefeeds := Without(s.truefeeds, c.srcclient, c.dstclient),
                   fedcount := s.fedcount[c.dstclient := s.fedcount[c.dstclient] - 1],
                   sortfeeds := if c.dir == 1 then Without(s.sortfeeds, c.srcclient, c.dstclient)
                                else Without(s.sortfeeds, c.dstclient, c.srcclient),
                   feedbackcount := s.feedbackcount - One(c.dir != 1))
  }

  lemma ListsAfterDisconnect(connections: map<PortId, seq<ConnId>>, conns: map<ConnId, Connection>, k: ConnId)
    requires PortListsOk(connections, conns) && k in conns && conns[k].source != conns[k].destination
    requires conns[k].source in connections && conns[k].destination in connections
    ensures PortListsOk(Without(Without(connections, conns[k].source, k), conns[k].destination, k), conns - {k})
  {
    var c := conns[k];
    var after := Without(Without(connections, c.source, k), c.destination, k);
    forall p | p in after
      ensures Distinct(after[p])
      ensures forall j :: j in after[p] <==> j in conns - {k} && Touches((conns - {k})[j], p)
    {
      DistinctRemoved(connections[p], k);
      if Touches(c, p) { assert after[p] == RemoveFirst(connections[p], k); }
      else { assert after[p] == connections[p] && k !in connections[p]; }
    }
  }

  lemma AllConnsLess(control: map<ClientId, Control>, ports: map<PortId, Port>, conns: map<ConnId, Connection>, k: ConnId)
    requires AllConnsOk(control, ports, conns) && k in conns
    ensures AllConnsOk(control, ports, conns - {k}) && conns[k].source != conns[k].destination
  {
    assert ConnOk(control, ports, conns[k]);
  }

  lemma PairsLess(conns: map<ConnId, Connection>, k: ConnId)
    requires PairsUnique(conns)
    ensures PairsUnique(conns - {k})
  {
  }

  lemma MixdownLess(ports: map<PortId, Port>, conns: map<ConnId, Connection>, k: ConnId)
    requires MixdownOk(ports, conns)
    ensures MixdownOk(ports, conns - {k})
  {
  }

  lemma DisconnectWired(s: State, k: ConnId)
    requires Wired(s) && k in s.conns && Known(s, s.conns[k])
    ensures Wired(Disconnected(s, k))
  {
    hide ClientPortsOk, AllConnsOk, PortListsOk, PairsUnique, MixdownOk, RemoveFirst;
    AllConnsLess(s.control, s.ports, s.conns, k);
    MixdownLess(s.ports, s.conns, k);
    PairsLess(s.conns, k);
    ListsAfterDisconnect(s.connections, s.conns, k);
  }

  lemma TrueRemove(control: map<ClientId, Control>, conns: map<ConnId, Connection>, g: Feeds, k: ConnId)
    requires TrueCounted(control, conns, g) && k in conns && conns[k].srcclient in g && DirOk(control, conns[k])
    ensures TrueCounted(control, conns - {k},
                        if conns[k].dir == 0 then g else Without(g, conns[k].srcclient, conns[k].dstclient))
  {
    var c := conns[k];
    var after := if c.dir == 0 then g else Without(g, c.srcclient, c.dstclient);
    forall a, b | a in control
      ensures Mult(after, a, b) == Count(control, conns - {k}, True(a, b))
    {
      CountRemove(control, conns, k, True(a, b));
      WithoutAt(g, c.srcclient, c.dstclient, a, b);
      if IsDriver(control, b) { CountZero(control, conns, True(a, b)); }
    }
  }

  lemma SortRemove(control: map<ClientId, Control>, conns: map<ConnId, Connection>, g: Feeds, k: ConnId)
    requires EndsOk(control, conns) && SortCounted(control, conns, g) && k in conns
    ensures SortCounted(control, conns - {k},
                        if conns[k].dir == 0 then g
                        else if conns[k].dir == 1 then Without(g, conns[k].srcclient, conns[k].dstclient)
                        else Without(g, conns[k].dstclient, conns[k].srcclient))
  {
    var c := conns[k];
    var after := if c.dir == 0 then g
                 else if c.dir == 1 then Without(g, c.srcclient, c.dstclient)
                 else Without(g, c.dstclient, c.srcclient);
    forall a, b | a in control
      ensures Mult(after, a, b)
           == Count(control, conns - {k}, Forward(a, b)) + Count(control, conns - {k}, Feedback(b, a))
    {
      CountRemove(control, conns, k, Forward(a, b));
      CountRemove(control, conns, k, Feedback(b, a));
      WithoutAt(g, c.srcclient, c.dstclient, a, b);
      WithoutAt(g, c.dstclient, c.srcclient, a, b);
      if IsDriver(control, b) {
        CountZero(control, conns, Forward(a, b));
        CountZero(control, conns, Feedback(b, a));
      }
    }
  }

  lemma FedRemove(control: map<ClientId, Control>, conns: map<ConnId, Connection>, fed: map<ClientId, int>, k: ConnId)
    requires EndsOk(control, conns) && FedCounted(control, conns, fed) && k in conns
    ensures FedCounted(control, conns - {k},
                       if conns[k].dir == 0 then fed
                       else fed[conns[k].dstclient := fed[conns[k].dstclient] - 1])
  {
    forall b { CountRemove(control, conns, k, IntoFrom(b, control.Keys)); }
  }

  lemma EndsOkLess(control: map<ClientId, Control>, conns: map<ConnId, Connection>, k: ConnId)
    requires EndsOk(control, conns)
    ensures EndsOk(control, conns - {k})
    ensures k in conns ==> DirOk(control, conns[k])
  {
  }

  lemma DisconnectConserved(s: State, k: ConnId)
    requires Conserved(s) && k in s.conns && Known(s, s.conns[k])
    ensures Conserved(Disconnected(s, k))
  {
    hide TrueCounted, SortCounted, FedCounted, Count, EndsOk, DirOk;
    EndsOkLess(s.control, s.conns, k);
    CountRemove(s.control, s.conns, k, AnyFeedback);
    TrueRemove(s.control, s.conns, s.truefeeds, k);
    SortRemove(s.control, s.conns, s.sortfeeds, k);
    FedRemove(s.control, s.conns, s.fedcount, k);
  }

  lemma WithoutWithin(g: Feeds, a: Node, b: Node)
    requires a in g
    ensures Within(Without(g, a, b), g)
  {
    forall x, y | Edge(Without(g, a, b), x, y)
      ensures Edge(g, x, y)
    {
      MultEdge(Without(g, a, b), x, y);
      WithoutAt(g, a, b, x, y);
      MultEdge(g, x, y);
    }
  }

  lemma KnownConn(s: State, k: ConnId)
    requires Wired(s) && Conserved(s) && k in s.conns
    ensures Known(s, s.conns[k]) && ConnOk(s.control, s.ports, s.conns[k])
    ensures s.conns[k].srcclient in s.sortfeeds && s.conns[k].dstclient in s.sortfeeds
  {
    hide PortListsOk, PairsUnique, MixdownOk, ClientPortsOk, Mult, Count;
    assert ConnOk(s.control, s.ports, s.conns[k]);
  }

  lemma DisconnectSound(s: State, k: ConnId)
    requires Sound(s) && k in s.conns
    ensures Known(s, s.conns[k]) && Sound(Disconnected(s, k))
  {
    hide Wired, Conserved, Acyclic, Within, Without;
    KnownConn(s, k);
    var c := s.conns[k];
    DisconnectWired(s, k);
    DisconnectConserved(s, k);
    var g := Disconnected(s, k).sortfeeds;
    WithoutWithin(s.sortfeeds, c.srcclient, c.dstclient);
    WithoutWithin(s.sortfeeds, c.dstclient, c.srcclient);
    AcyclicWithin(g, s.sortfeeds);
  }

  lemma KnownAfter(s: State, k: ConnId, c: Connection)
    requires Known(s, c)
    ensures Connected(s, k, c).conns[k] == c && Known(Connected(s, k, c), c)
  {
    hide IsDriver;
  }

  ghost function Undone(s: State, k: ConnId, c: Connection): State
    requires Known(s, c)
  {
    KnownAfter(s, k, c);
    Disconnected(Connected(s, k, c), k)
  }

  /** What disconnecting leaves behind: the state before connecting, except that the
      fedcount of a driver ends up one lower. */
  ghost function Restored(s: State, c: Connection): State
    requires Known(s, c)
  {
    if IsDriver(s.control, c.dstclient)
    then s.(fedcount := s.fedcount[c.dstclient := s.fedcount[c.dstclient] - 1])
    else s
  }

  lemma UndoIgnored(s: State, k: ConnId, c: Connection)
    requires Known(s, c) && k !in s.conns && c.source != c.destination && !Constrains(s.control, c)
    requires IsDriver(s.control, c.dstclient) ==>
      && c.dir == 1
      && Without(s.truefeeds, c.srcclient, c.dstclient) == s.truefeeds
      && Without(s.sortfeeds, c.srcclient, c.dstclient) == s.sortfeeds
    requires !IsDriver(s.control, c.dstclient) ==> c.dir == 0
    ensures Undone(s, k, c) == Restored(s, c)
  {
    hide Prepend, Without, IsDriver;
    assert s.conns[k := c] - {k} == s.conns;
    ListsRestored(s.connections, c.source, c.destination, k);
  }

  lemma UndoCounted(s: State, k: ConnId, c: Connection)
    requires Known(s, c) && k !in s.conns && c.source != c.destination && Constrains(s.control, c)
    requires c.dir == 1 || c.dir == -1
    ensures Undone(s, k, c) == Restored(s, c)
  {
    assert s.conns[k := c] - {k} == s.conns;
    ListsRestored(s.connections, c.source, c.destination, k);
    UndoFeeds(s, c);
    hide Prepend, Without, IsDriver;
  }

  /** Disconnecting is the inverse of connecting. */
  lemma DisconnectUndoesConnect(s: State, k: ConnId, c: Connection)
    requires Conserved(s) && k !in s.conns && Known(s, c) && c.source != c.destination
    requires c.dir == NewDir(s.control, s.sortfeeds, c.srcclient, c.dstclient)
    ensures Undone(s, k, c) == Restored(s, c)
  {
    hide Mult, Count, Reaches, Undone, Restored, EndsOk;
    if Constrains(s.control, c) {
      UndoCounted(s, k, c);
    } else {
      if IsDriver(s.control, c.dstclient) { NoEdgeIntoDriver(s, c.srcclient, c.dstclient); }
      UndoIgnored(s, k, c);
    }
  }

  lemma UndoFeeds(s: State, c: Connection)
    requires Known(s, c)
    ensures Without(Prepend(s.truefeeds, c.srcclient, c.dstclient), c.srcclient, c.dstclient) == s.truefeeds
    ensures Without(Prepend(s.sortfeeds, c.srcclient, c.dstclient), c.srcclient, c.dstclient) == s.sortfeeds
    ensures Without(Prepend(s.sortfeeds, c.dstclient, c.srcclient), c.dstclient, c.srcclient) == s.sortfeeds
    ensures var up := s.fedcount[c.dstclient := s.fedcount[c.dstclient] + 1];
            up[c.dstclient := up[c.dstclient] - 1] == s.fedcount
  {
    WithoutPrepend(s.truefeeds, c.srcclient, c.dstclient);
    WithoutPrepend(s.sortfeeds, c.srcclient, c.dstclient);
    WithoutPrepend(s.sortfeeds, c.dstclient, c.srcclient);
  }

  lemma NoEdgeIntoDriver(s: State, a: ClientId, d: ClientId)
    requires Conserved(s) && IsDriver(s.control, d) && a in s.control
    ensures RemoveFirst(s.truefeeds[a], d) == s.truefeeds[a] && RemoveFirst(s.sortfeeds[a], d) == s.sortfeeds[a]
  {
    SortEdgeFacts(s.control, s.conns, s.sortfeeds);
    TrueEdgeFacts(s.control, s.conns, s.truefeeds);
    assert !Edge(s.truefeeds, a, d) && !Edge(s.sortfeeds, a, d);
    RemoveFirstCounts(s.truefeeds[a], d);
    RemoveFirstCounts(s.sortfeeds[a], d);
  }

  lemma WithoutPrepend(g: map<nat, seq<nat>>, a: nat, b: nat)
    requires a in g
    ensures Without(Prepend(g, a, b), a, b) == g
  {
    assert ([b] + g[a])[1..] == g[a];
  }

  lemma ListsRestored(g: map<nat, seq<nat>>, a: nat, b: nat, k: nat)
    requires a in g && b in g && a != b
    ensures Without(Without(Prepend(Prepend(g, b, k), a, k), a, k), b, k) == g
  {
    WithoutPrepend(Prepend(g, b, k), a, k);
    WithoutPrepend(g, b, k);
  }

  // ----- Turning leftover feedback connections around

  /** The test made by jack_check_acyclic succeeds: no client is left waiting. */
  ghost predicate Turnable(s: State) {
    && Acyclic(s.truefeeds)
    && forall d :: d in s.fedcount && IsDriver(s.control, d) ==> s.fedcount[d] == 0
  }

  function Ahead(c: Connection): Connection {
    if c.dir == -1 then c.(dir := 1) else c
  }

  /** after holds the same connections as before, some with feedback made forward. */
  ghost predicate SameButAhead(before: map<ConnId, Connection>, after: map<ConnId, Connection>) {
    && after.Keys == before.Keys
    && forall k :: k in before ==> after[k] == before[k] || after[k] == Ahead(before[k])
  }

  ghost predicate NoFeedback(conns: map<ConnId, Connection>) {
    forall k :: k in conns ==> conns[k].dir != -1
  }

  /** t is s with every feedback connection made forward and sortfeeds equal to
      truefeeds as a multigraph. */
  ghost predicate TurnedFrom(s: State, t: State) {
    && t == s.(conns := t.conns, sortfeeds := t.sortfeeds, feedbackcount := 0)
    && SameButAhead(s.conns, t.conns) && NoFeedback(t.conns)
    && t.sortfeeds.Keys == t.truefeeds.Keys
    && (forall a, b :: Mult(t.sortfeeds, a, b) == Mult(t.truefeeds, a, b))
  }

  /** One reversal of a sortfeeds entry. */
  ghost function TurnEntry(g: Feeds, c: Connection): Feeds
    requires c.srcclient in g && c.dstclient in g
  {
    Prepend(Without(g, c.dstclient, c.srcclient), c.srcclient, c.dstclient)
  }

  lemma TurnOneCounted(control: map<ClientId, Control>, conns: map<ConnId, Connection>, g: Feeds, k: ConnId)
    requires EndsOk(control, conns) && SortCounted(control, conns, g) && k in conns && conns[k].dir == -1
    ensures EndsOk(control, conns[k := Ahead(conns[k])])
    ensures SortCounted(control, conns[k := Ahead(conns[k])], TurnEntry(g, conns[k]))
  {
    var c := conns[k];
    CountPositive(control, conns, Feedback(c.srcclient, c.dstclient), k);
    var after := conns[k := Ahead(c)];
    forall a, b | a in control
      ensures Mult(TurnEntry(g, c), a, b)
           == Count(control, after, Forward(a, b)) + Count(control, after, Feedback(b, a))
    {
      CountReplace(control, conns, k, Ahead(c), Forward(a, b));
      CountReplace(control, conns, k, Ahead(c), Feedback(b, a));
      WithoutAt(g, c.dstclient, c.srcclient, a, b);
      PrependAt(Without(g, c.dstclient, c.srcclient), c.srcclient, c.dstclient, a, b);
    }
  }

  /** The direction does not matter to the counts behind truefeeds and fedcount. */
  lemma CountAhead(control: map<ClientId, Control>, before: map<ConnId, Connection>,
                   after: map<ConnId, Connection>, q: Query)
    requires q.True? || q.IntoFrom?
    requires SameButAhead(before, after)
    ensures Count(control, after, q) == Count(control, before, q)
  {
    assert Select(control, after, q) == Select(control, before, q);
  }

  /** Once no feedback connection is left, sortfeeds and truefeeds agree entry for entry. */
  lemma NoFeedbackMeansTrue(control: map<ClientId, Control>, conns: map<ConnId, Connection>,
                            sorted: Feeds, trueFeeds: Feeds, a: ClientId, b: ClientId)
    requires EndsOk(control, conns) && TrueCounted(control, conns, trueFeeds) && SortCounted(control, conns, sorted)
    requires NoFeedback(conns)
    ensures Mult(sorted, a, b) == Mult(trueFeeds, a, b)
  {
    CountZero(control, conns, Feedback(b, a));
    assert Select(control, conns, Forward(a, b)) == Select(control, conns, True(a, b));
  }

  lemma AheadTrueCounted(control: map<ClientId, Control>, before: map<ConnId, Connection>,
                         after: map<ConnId, Connection>, g: Feeds)
    requires SameButAhead(before, after) && TrueCounted(control, before, g)
    ensures TrueCounted(control, after, g)
  {
    forall a, b { CountAhead(control, before, after, True(a, b)); }
  }

  lemma AheadFedCounted(control: map<ClientId, Control>, before: map<ConnId, Connection>,
                        after: map<ConnId, Connection>, fed: map<ClientId, int>)
    requires SameButAhead(before, after) && FedCounted(control, before, fed)
    ensures FedCounted(control, after, fed)
  {
    forall b { CountAhead(control, before, after, IntoFrom(b, control.Keys)); }
  }

  /** When the reversal loop is done, the result is TurnedFrom. */
  lemma TurnedWhenDone(s: State, t: State)
    requires Conserved(s)
    requires t == s.(conns := t.conns, sortfeeds := t.sortfeeds, feedbackcount := 0)
    requires SameButAhead(s.conns, t.conns) && NoFeedback(t.conns)
    requires EndsOk(t.control, t.conns) && SortCounted(t.control, t.conns, t.sortfeeds)
    ensures TurnedFrom(s, t)
  {
    AheadTrueCounted(s.control, s.conns, t.conns, s.truefeeds);
    forall a, b { NoFeedbackMeansTrue(t.control, t.conns, t.sortfeeds, t.truefeeds, a, b); }
  }

  /** Turning keeps the books, the wiring and, because truefeeds is acyclic, the order. */
  lemma TurnedSound(s: State, t: State)
    requires Sound(s) && TurnedFrom(s, t) && Acyclic(s.truefeeds)
    requires EndsOk(t.control, t.conns) && SortCounted(t.control, t.conns, t.sortfeeds)
    ensures Sound(t)
  {
    hide Wired, TrueCounted, SortCounted, FedCounted, EndsOk, Count, Acyclic;
    AheadTrueCounted(s.control, s.conns, t.conns, s.truefeeds);
    AheadFedCounted(s.control, s.conns, t.conns, s.fedcount);
    CountZero(t.control, t.conns, AnyFeedback);
    TurnedWired(s, t);
    forall a, b | Edge(t.sortfeeds, a, b)
      ensures Edge(t.truefeeds, a, b)
    {
      MultEdge(t.sortfeeds, a, b);
      MultEdge(t.truefeeds, a, b);
    }
    AcyclicWithin(t.sortfeeds, t.truefeeds);
  }

  lemma AheadConnsOk(control: map<ClientId, Control>, ports: map<PortId, Port>,
                     before: map<ConnId, Connection>, after: map<ConnId, Connection>)
    requires AllConnsOk(control, ports, before) && SameButAhead(before, after)
    ensures AllConnsOk(control, ports, after)
  {
    forall k | k in after
      ensures ConnOk(control, ports, after[k])
    {
      assert ConnOk(control, ports, before[k]);
    }
  }

  lemma AheadListsOk(connections: map<PortId, seq<ConnId>>,
                     before: map<ConnId, Connection>, after: map<ConnId, Connection>)
    requires PortListsOk(connections, before) && SameButAhead(before, after)
    ensures PortListsOk(connections, after)
  {
  }

  lemma AheadPairs(before: map<ConnId, Connection>, after: map<ConnId, Connection>)
    requires PairsUnique(before) && SameButAhead(before, after)
    ensures PairsUnique(after)
  {
  }

  lemma AheadMixdown(ports: map<PortId, Port>, before: map<ConnId, Connection>, after: map<ConnId, Connection>)
    requires MixdownOk(ports, before) && SameButAhead(before, after)
    ensures MixdownOk(ports, after)
  {
  }

  lemma TurnedWired(s: State, t: State)
    requires Wired(s) && TurnedFrom(s, t)
    ensures Wired(t)
  {
    hide ClientPortsOk, Mult;
    AheadConnsOk(s.control, s.ports, s.conns, t.conns);
    AheadListsOk(s.connections, s.conns, t.conns);
    AheadPairs(s.conns, t.conns);
    AheadMixdown(s.ports, s.conns, t.conns);
    hide AllConnsOk, PortListsOk, PairsUnique, MixdownOk, SameButAhead;
  }

  // ----- Clients without connections

  ghost predicate Isolated(conns: map<ConnId, Connection>, c: ClientId) {
    forall k :: k in conns ==> conns[k].srcclient != c && conns[k].dstclient != c
  }

  lemma IsolatedMult(s: State, c: ClientId, a: ClientId, b: ClientId)
    requires Conserved(s) && Isolated(s.conns, c) && a in s.control && (a == c || b == c)
    ensures Mult(s.truefeeds, a, b) == 0 && Mult(s.sortfeeds, a, b) == 0
  {
    CountZero(s.control, s.conns, True(a, b));
    CountZero(s.control, s.conns, Forward(a, b));
    CountZero(s.control, s.conns, Feedback(b, a));
  }

  lemma AllAbsentIsEmpty(g: map<nat, seq<nat>>, a: nat)
    requires a in g && forall b :: Mult(g, a, b) == 0
    ensures g[a] == []
  {
    if g[a] != [] {
      var b := g[a][0];
      MultEdge(g, a, b);
    }
  }

  /** A client with no connections is in no feed list, feeds nobody, and owes no count. */
  lemma IsolatedLeavesFeeds(s: State, c: ClientId)
    requires Conserved(s) && Isolated(s.conns, c) && c in s.control
    ensures s.truefeeds[c] == [] && s.sortfeeds[c] == []
    ensures forall a :: a in s.control ==> c !in s.truefeeds[a] && c !in s.sortfeeds[a]
    ensures !IsDriver(s.control, c) ==> s.fedcount[c] == 0
  {
    forall b { IsolatedMult(s, c, c, b); }
    AllAbsentIsEmpty(s.truefeeds, c);
    AllAbsentIsEmpty(s.sortfeeds, c);
    forall a | a in s.control
      ensures c !in s.truefeeds[a] && c !in s.sortfeeds[a]
    {
      IsolatedMult(s, c, a, c);
      MultEdge(s.truefeeds, a, c);
      MultEdge(s.sortfeeds, a, c);
    }
    CountZero(s.control, s.conns, IntoFrom(c, s.control.Keys));
  }

  /** Without its ports, a client has no connections. */
  lemma PortlessIsIsolated(s: State, c: ClientId)
    requires Wired(s) && c in s.control && s.portsOf[c] == []
    ensures Isolated(s.conns, c)
  {
    forall k | k in s.conns
      ensures s.conns[k].srcclient != c && s.conns[k].dstclient != c
    {
      assert ConnOk(s.control, s.ports, s.conns[k]);
    }
  }
}
