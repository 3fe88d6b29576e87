/** What one request does to the state of the graph, and the facts about states that
    the engine's methods rest on. */
module GraphSteps {
  import opened Collections
  import opened Digraph
  import opened FeedGraph
  import opened Lifecycle
  import opened AcyclicCheck

  /** The status of a request: 0, -1 or EEXIST. */
  datatype Status = Ok | Failed | Exists

  /** What a client may ask of the graph. */
  datatype Request =
    | RegisterPort(isInput: bool, ptype: nat, hasMixdown: bool)
    | UnRegisterPort(port: PortId)
    | ConnectPorts(source: PortId, destination: PortId)
    | DisconnectPorts(source: PortId, destination: PortId)
    | DisconnectPort(port: PortId)
    | ActivateClient
    | DeactivateClient
    | UnloadClient(client: ClientId)

  /** What can happen to the graph: a request arrives, a client is created, or the
      server finds that a client has failed or is gone. */
  datatype Event =
    | FromClient(sender: ClientId, request: Request)
    | NewClient(kind: ClientType)
    | ClientFailed(client: ClientId)
    | ClientGone(client: ClientId)

  /** After a disconnect the engine looks for leftover feedback only if there was any
      feedback before; it is turned around exactly when the peeling test succeeds. */
  ghost predicate Settled(s: State, t: State, check: bool) {
    if check && Turnable(s) then TurnedFrom(s, t) else t == s
  }

  /** t keeps the clients and ports of s and some of its connections, with feedback
      possibly made forward. */
  ghost predicate Trimmed(s: State, t: State) {
    && t.control == s.control && t.ports == s.ports && t.portsOf == s.portsOf
    && SomeAhead(s.conns, t.conns) && Shed(s, t)
  }

  /** Feedback is present only while it cannot be turned around: the true feeds have a cycle,
      or the count of a driver is off zero. */
  ghost predicate Tight(s: State) {
    s.feedbackcount != 0 ==> !Turnable(s)
  }

  /** The count of a driver never rises: connecting to it does not raise the count, but
      disconnecting lowers it. */
  ghost predicate NoneForgiven(s: State, t: State) {
    forall d :: IsDriver(s.control, d) && d in s.fedcount && d in t.control && d in t.fedcount ==>
      IsDriver(t.control, d) && t.fedcount[d] <= s.fedcount[d]
  }

  /** A step that keeps all clients. */
  ghost predicate Steady(s: State, t: State) {
    t.fedcount.Keys == s.fedcount.Keys && NoneForgiven(s, t) && (Tight(s) ==> Tight(t))
  }

  /** The connections that come in at client d. */
  ghost function Into(conns: map<ConnId, Connection>, d: ClientId): set<ConnId> {
    set k | k in conns && conns[k].dstclient == d
  }

  /** What a driver's count loses is exactly the number of connections into it that go. */
  ghost predicate Balanced(s: State, t: State) {
    forall d :: IsDriver(s.control, d) && d in s.fedcount && d in t.fedcount ==>
      t.fedcount[d] - |Into(t.conns, d)| == s.fedcount[d] - |Into(s.conns, d)|
  }

  /** A step that keeps all clients and drops connections. */
  ghost predicate Shed(s: State, t: State) {
    Steady(s, t) && Balanced(s, t)
  }

  lemma ForgivenTransitive(s: State, t: State, u: State)
    requires NoneForgiven(s, t) && NoneForgiven(t, u)
    requires forall d :: d in s.control && d in u.control ==> d in t.control && d in t.fedcount
    ensures NoneForgiven(s, u)
  {
  }

  // ----- What connecting and disconnecting do to feedback

  lemma ConnectSteady(s: State, k: ConnId, c: Connection)
    requires Sound(s) && Known(s, c) && c.dir == NewDir(s.control, s.sortfeeds, c.srcclient, c.dstclient)
    ensures Steady(s, Connected(s, k, c)) && Connected(s, k, c).control == s.control
  {
    hide Sound, Connected, Tight, Reaches, NewDir;
    ConnectedFeeds(s, k, c);
    if Tight(s) { ConnectTight(s, k, c); }
  }

  /** A connection is feedback only if it closes a cycle of the true feeds, or if there was
      feedback before that could not be turned around, and still cannot. */
  lemma ConnectTight(s: State, k: ConnId, c: Connection)
    requires Sound(s) && Tight(s) && Known(s, c) && c.dir == NewDir(s.control, s.sortfeeds, c.srcclient, c.dstclient)
    ensures Tight(Connected(s, k, c))
  {
    hide Sound, Connected, Turnable, Acyclic, Reaches, Conserved, EndsOk, SortCounted, Wired;
    var t := Connected(s, k, c);
    SoundParts(s);
    ConnectedFeeds(s, k, c);
    if !Constrains(s.control, c) {
      SameTight(s, t);
    } else if t.feedbackcount != 0 {
      MoreFeeds(s.truefeeds, c.srcclient, c.dstclient);
      if s.feedbackcount == 0 {
        PathIsTrue(s, c.dstclient, c.srcclient);
        LoopClosed(s.truefeeds, c.srcclient, c.dstclient);
        CyclicNotTurnable(t);
      } else {
        StillNotTurnable(s, t, c.dstclient);
      }
    }
  }

  lemma CyclicNotTurnable(s: State)
    requires !Acyclic(s.truefeeds)
    ensures !Turnable(s)
  {
  }

  lemma ConnectedFeeds(s: State, k: ConnId, c: Connection)
    requires Known(s, c)
    ensures var t := Connected(s, k, c);
            && t.control == s.control && t.fedcount.Keys == s.fedcount.Keys
            && (!Constrains(s.control, c) ==>
                  t.truefeeds == s.truefeeds && t.fedcount == s.fedcount && t.feedbackcount == s.feedbackcount)
            && (Constrains(s.control, c) ==>
                  && t.truefeeds == Prepend(s.truefeeds, c.srcclient, c.dstclient)
                  && t.fedcount == s.fedcount[c.dstclient := s.fedcount[c.dstclient] + 1]
                  && t.feedbackcount == s.feedbackcount + One(c.dir == -1))
  {
  }

  lemma MoreFeeds(g: Feeds, a: Node, b: Node)
    requires a in g
    ensures Within(g, Prepend(g, a, b)) && Edge(Prepend(g, a, b), a, b)
  {
  }

  /** Without feedback the sort feeds lead where the true feeds lead. */
  lemma PathIsTrue(s: State, a: ClientId, b: ClientId)
    requires Conserved(s) && s.feedbackcount == 0 && Reaches(s.sortfeeds, a, b)
    ensures Reaches(s.truefeeds, a, b)
  {
    forall k | k in s.conns
      ensures s.conns[k].dir != -1
    {
      if s.conns[k].dir == -1 { CountPositive(s.control, s.conns, AnyFeedback, k); }
    }
    forall x, y | Edge(s.sortfeeds, x, y)
      ensures Edge(s.truefeeds, x, y)
    {
      NoFeedbackMeansTrue(s.control, s.conns, s.sortfeeds, s.truefeeds, x, y);
      MultEdge(s.sortfeeds, x, y);
      MultEdge(s.truefeeds, x, y);
    }
    var n: nat :| n > 0 && Walk(s.sortfeeds, a, b, n);
    WalkWithin(s.sortfeeds, s.truefeeds, a, b, n);
  }

  lemma LoopClosed(g: Feeds, a: Node, b: Node)
    requires a in g && Reaches(g, b, a)
    ensures !Acyclic(Prepend(g, a, b))
  {
    var h := Prepend(g, a, b);
    MoreFeeds(g, a, b);
    var n: nat :| n > 0 && Walk(g, b, a, n);
    WalkWithin(g, h, b, a, n);
    EdgeReaches(h, a, b);
    ReachesTransitive(h, b, a, b);
  }

  lemma StillNotTurnable(s: State, t: State, b: ClientId)
    requires !Turnable(s) && Within(s.truefeeds, t.truefeeds) && t.control == s.control && !IsDriver(s.control, b)
    requires t.fedcount.Keys == s.fedcount.Keys && forall d :: d in s.fedcount && d != b ==> t.fedcount[d] == s.fedcount[d]
    ensures !Turnable(t)
  {
    hide Acyclic, Within;
    if Acyclic(t.truefeeds) { AcyclicWithin(s.truefeeds, t.truefeeds); }
  }

  /** Whatever was the case before, after a disconnect feedback is present only while it
      cannot be turned around. */
  lemma DisconnectTight(s: State, k: ConnId, t: State)
    requires Conserved(s) && k in s.conns && Known(s, s.conns[k])
    requires Settled(Disconnected(s, k), t, s.feedbackcount != 0)
    ensures Tight(t)
  {
    hide Turnable, TrueCounted, SortCounted, FedCounted, Mult;
    if s.feedbackcount == 0 && s.conns[k].dir == -1 { CountPositive(s.control, s.conns, AnyFeedback, k); }
    assert s.feedbackcount == 0 ==> Disconnected(s, k).feedbackcount == 0 by { EndsOkLess(s.control, s.conns, k); }
  }

  lemma IntoLess(conns: map<ConnId, Connection>, k: ConnId, d: ClientId)
    requires k in conns
    ensures |Into(conns - {k}, d)| == |Into(conns, d)| - One(conns[k].dstclient == d)
  {
    if conns[k].dstclient == d { assert Into(conns, d) == Into(conns - {k}, d) + {k}; }
    else { assert Into(conns, d) == Into(conns - {k}, d); }
  }

  lemma DisconnectedCounts(s: State, k: ConnId)
    requires k in s.conns && Known(s, s.conns[k])
    ensures var t, c := Disconnected(s, k), s.conns[k];
            && t.conns == s.conns - {k} && t.control == s.control
            && t.fedcount == if c.dir == 0 then s.fedcount else s.fedcount[c.dstclient := s.fedcount[c.dstclient] - 1]
  {
  }

  lemma DisconnectBalanced(s: State, k: ConnId)
    requires EndsOk(s.control, s.conns) && k in s.conns && Known(s, s.conns[k])
    ensures Balanced(s, Disconnected(s, k)) && NoneForgiven(s, Disconnected(s, k))
    ensures Disconnected(s, k).fedcount.Keys == s.fedcount.Keys
  {
    hide Disconnected, EndsOk, Into;
    EndsOkLess(s.control, s.conns, k);
    DisconnectedCounts(s, k);
    var t := Disconnected(s, k);
    forall d | IsDriver(s.control, d) && d in s.fedcount && d in t.fedcount
      ensures t.fedcount[d] - |Into(t.conns, d)| == s.fedcount[d] - |Into(s.conns, d)|
    {
      IntoLess(s.conns, k, d);
    }
  }

  lemma SettledBalanced(s: State, t: State, check: bool)
    requires Settled(s, t, check)
    ensures Balanced(s, t) && NoneForgiven(s, t) && t.fedcount.Keys == s.fedcount.Keys && t.control == s.control
  {
    hide Turnable, Mult;
    forall d
      ensures Into(t.conns, d) == Into(s.conns, d)
    {
    }
  }

  /** One disconnect, the look for leftover feedback included. */
  lemma DisconnectShed(s: State, k: ConnId, t: State)
    requires Conserved(s) && k in s.conns && Known(s, s.conns[k])
    requires Settled(Disconnected(s, k), t, s.feedbackcount != 0)
    ensures Shed(s, t) && Tight(t) && t.control == s.control
  {
    hide Disconnected, Tight, Settled, Into, EndsOk, TrueCounted, SortCounted, FedCounted, Known;
    var d := Disconnected(s, k);
    DisconnectTight(s, k, t);
    DisconnectBalanced(s, k);
    DisconnectedCounts(s, k);
    SettledBalanced(d, t, s.feedbackcount != 0);
    BalancedTwice(s, d, t);
  }

  lemma BalancedTwice(s: State, t: State, u: State)
    requires Balanced(s, t) && Balanced(t, u) && NoneForgiven(s, t) && NoneForgiven(t, u)
    requires t.control == s.control && t.fedcount.Keys == s.fedcount.Keys
    ensures Balanced(s, u) && (u.control == s.control ==> NoneForgiven(s, u))
  {
    hide Into;
  }

  ghost predicate SomeAhead(before: map<ConnId, Connection>, after: map<ConnId, Connection>) {
    && after.Keys <= before.Keys
    && forall k :: k in after ==> after[k] == before[k] || after[k] == Ahead(before[k])
  }

  lemma SomeAheadTransitive(a: map<ConnId, Connection>, b: map<ConnId, Connection>, c: map<ConnId, Connection>)
    requires SomeAhead(a, b) && SomeAhead(b, c)
    ensures SomeAhead(a, c)
  {
  }

  /** The reasons for which a connection is refused, in the order they are checked. */
  ghost function ConnectStatus(s: State, source: PortId, destination: PortId): Status {
    if source !in s.ports || destination !in s.ports then Failed
    else if !s.ports[destination].isInput || s.ports[source].isInput then Failed
    else if s.ports[source].ptype != s.ports[destination].ptype then Failed
    else if !Active(s, s.ports[source].owner) || !Active(s, s.ports[destination].owner) then Failed
    else if exists k :: k in s.conns && Joins(s.conns[k], source, destination) then Exists
    else if !s.ports[destination].hasMixdown
         && (exists k :: k in s.conns && Touches(s.conns[k], destination)) then Failed
    else Ok
  }

  ghost predicate Active(s: State, c: ClientId) {
    c in s.control && s.control[c].active
  }

  predicate Joins(c: Connection, source: PortId, destination: PortId) {
    c.source == source && c.destination == destination
  }

  // ----- Facts about states used by the methods

  lemma SoundParts(s: State)
    requires Sound(s)
    ensures Wired(s) && Conserved(s) && Acyclic(s.sortfeeds)
    ensures EndsOk(s.control, s.conns) && SortCounted(s.control, s.conns, s.sortfeeds)
    ensures s.truefeeds.Keys == s.sortfeeds.Keys == s.fedcount.Keys == s.portsOf.Keys == s.control.Keys
    ensures s.connections.Keys == s.ports.Keys
  {
  }

  lemma SoundSort(s: State)
    requires Sound(s)
    ensures Acyclic(s.sortfeeds) && DriversUnfed(s.control, s.sortfeeds)
  {
    hide Wired, TrueCounted, FedCounted, Count;
    SortEdgeFacts(s.control, s.conns, s.sortfeeds);
  }

  lemma PortFacts(s: State, p: PortId)
    requires Wired(s) && p in s.ports
    ensures p in s.connections && s.ports[p].owner in s.control && s.ports[p].owner in s.portsOf
    ensures forall k :: k in s.connections[p] <==> k in s.conns && Touches(s.conns[k], p)
    ensures Distinct(s.connections[p])
  {
    hide AllConnsOk, PairsUnique, MixdownOk;
  }

  lemma ClientPortFacts(s: State, c: ClientId)
    requires Wired(s) && c in s.control
    ensures c in s.portsOf && Distinct(s.portsOf[c])
    ensures forall p :: p in s.portsOf[c] ==> p in s.ports && s.ports[p].owner == c
    ensures s.control[c].dead ==> s.portsOf[c] == [] && !s.control[c].active
  {
    hide AllConnsOk, PairsUnique, MixdownOk, PortListsOk;
  }

  lemma UniqueConnection(s: State, j: ConnId, k: ConnId)
    requires Wired(s) && j in s.conns && k in s.conns
    requires s.conns[j].source == s.conns[k].source && s.conns[j].destination == s.conns[k].destination
    ensures j == k
  {
    hide ClientPortsOk, AllConnsOk, PortListsOk;
  }

  ghost predicate PortTurned(connections: map<PortId, seq<ConnId>>, conns: map<ConnId, Connection>, p: PortId) {
    p in connections && forall k :: k in connections[p] && k in conns ==> conns[k].dir != -1
  }

  ghost predicate ClientTurned(s: State, conns: map<ConnId, Connection>, c: ClientId) {
    c in s.portsOf && forall p :: p in s.portsOf[c] ==> PortTurned(s.connections, conns, p)
  }

  /** Every connection has been met when every port of every client has been visited. */
  lemma NoFeedbackLeft(s: State, conns: map<ConnId, Connection>)
    requires Wired(s) && SameButAhead(s.conns, conns)
    requires forall c :: c in s.control ==> ClientTurned(s, conns, c)
    ensures NoFeedback(conns)
  {
    hide Wired;
    forall k | k in conns
      ensures conns[k].dir != -1
    {
      AtSource(s, k);
      assert ClientTurned(s, conns, s.conns[k].srcclient);
      assert PortTurned(s.connections, conns, s.conns[k].source);
    }
  }

  lemma AtSource(s: State, k: ConnId)
    requires Wired(s) && k in s.conns
    ensures var c := s.conns[k];
            && c.srcclient in s.control && c.srcclient in s.portsOf && c.source in s.portsOf[c.srcclient]
            && c.source in s.connections && k in s.connections[c.source]
  {
    hide PairsUnique, MixdownOk;
    assert ConnOk(s.control, s.ports, s.conns[k]);
  }

  lemma EndsListed(control: map<ClientId, Control>, conns: map<ConnId, Connection>, g: Feeds, k: ConnId)
    requires EndsOk(control, conns) && SortCounted(control, conns, g) && k in conns
    ensures conns[k].srcclient in g && conns[k].dstclient in g
  {
    hide Mult, Count;
  }

  lemma SameButAheadKeys(before: map<ConnId, Connection>, after: map<ConnId, Connection>)
    ensures SameButAhead(before, before)
    ensures SameButAhead(before, after) ==> after.Keys == before.Keys
  {
  }

  lemma AheadOnce(before: map<ConnId, Connection>, after: map<ConnId, Connection>, k: ConnId)
    requires SameButAhead(before, after) && k in after
    ensures SameButAhead(before, after[k := Ahead(after[k])])
  {
  }

  lemma PortStaysTurned(connections: map<PortId, seq<ConnId>>, before: map<ConnId, Connection>,
                        after: map<ConnId, Connection>, p: PortId)
    requires SameButAhead(before, after) && PortTurned(connections, before, p)
    ensures PortTurned(connections, after, p)
  {
  }

  lemma ClientStaysTurned(s: State, before: map<ConnId, Connection>, after: map<ConnId, Connection>, c: ClientId)
    requires SameButAhead(before, after) && ClientTurned(s, before, c)
    ensures ClientTurned(s, after, c)
  {
  }

  lemma AlreadyJoined(s: State, k: ConnId, source: PortId, destination: PortId)
    requires Wired(s) && source in s.ports && destination in s.ports && s.ports[destination].isInput
    requires k in s.conns && k in s.connections[source] && s.conns[k].destination == destination
    requires !s.ports[source].isInput
    ensures Joins(s.conns[k], source, destination)
  {
    assert ConnOk(s.control, s.ports, s.conns[k]);
  }

  lemma NotJoinedAtAll(s: State, source: PortId, destination: PortId)
    requires Wired(s) && source in s.ports && source in s.connections
    requires forall k :: k in s.connections[source] && k in s.conns ==> !Joins(s.conns[k], source, destination)
    ensures forall k :: k in s.conns ==> !Joins(s.conns[k], source, destination)
  {
    hide ClientPortsOk, AllConnsOk, PairsUnique, MixdownOk;
  }

  lemma ConnectedFacts(s: State, k: ConnId, c: Connection)
    requires Known(s, c)
    ensures Connected(s, k, c).control == s.control && Connected(s, k, c).ports == s.ports
    ensures Connected(s, k, c).conns == s.conns[k := c]
  {
  }

  /** A connection that is not refused keeps the state sound. */
  lemma PermittedConnection(s: State, source: PortId, destination: PortId, k: ConnId) returns (c: Connection)
    requires Sound(s) && ConnectStatus(s, source, destination) == Ok && k !in s.conns
    ensures source in s.ports && destination in s.ports && c == NewConnection(s, source, destination)
    ensures Known(s, c) && Sound(Connected(s, k, c)) && Acyclic(s.sortfeeds)
    ensures Connected(s, k, c).control == s.control && Connected(s, k, c).ports == s.ports
    ensures Connected(s, k, c).conns == s.conns[k := c]
  {
    hide Sound, Wired, Conserved, Acyclic, Connected, NewDir;
    SoundParts(s);
    c := NewConnection(s, source, destination);
    assert forall j :: j in s.conns ==> !Joins(s.conns[j], source, destination);
    assert RoomAt(s.ports, s.conns, destination);
    ConnectSound(s, k, c);
    ConnectedFacts(s, k, c);
  }

  lemma DisconnectedFacts(s: State, k: ConnId)
    requires k in s.conns && Known(s, s.conns[k])
    ensures var t := Disconnected(s, k);
            && t.control == s.control && t.ports == s.ports && t.portsOf == s.portsOf
            && t.conns == s.conns - {k}
  {
  }

  /** One disconnect step, seen from the tables. */
  lemma StepFacts(s: State, k: ConnId, t: State)
    requires Conserved(s) && k in s.conns && Known(s, s.conns[k])
    requires Settled(Disconnected(s, k), t, s.feedbackcount != 0)
    ensures Trimmed(s, t) && t.conns.Keys == s.conns.Keys - {k}
    ensures t.connections == Disconnected(s, k).connections
  {
    hide Disconnected, Settled, Shed, Conserved, SomeAhead, Known;
    DisconnectShed(s, k, t);
    DisconnectedFacts(s, k);
    SettledTables(Disconnected(s, k), t, s.feedbackcount != 0);
    SomeAheadLess(s.conns, k, t.conns);
  }

  lemma SettledTables(s: State, t: State, check: bool)
    requires Settled(s, t, check)
    ensures t.control == s.control && t.ports == s.ports && t.portsOf == s.portsOf && t.connections == s.connections
    ensures SomeAhead(s.conns, t.conns) && t.conns.Keys == s.conns.Keys
  {
    hide Turnable, Mult, NoFeedback;
  }

  lemma SomeAheadLess(before: map<ConnId, Connection>, k: ConnId, after: map<ConnId, Connection>)
    requires SomeAhead(before - {k}, after)
    ensures SomeAhead(before, after)
  {
  }

  lemma HeadDropped(s: State, k: ConnId, p: PortId)
    requires k in s.conns && Known(s, s.conns[k]) && s.conns[k].source != s.conns[k].destination
    requires p in s.connections && Touches(s.conns[k], p) && s.connections[p] != [] && s.connections[p][0] == k
    ensures p in Disconnected(s, k).connections && Disconnected(s, k).connections[p] == s.connections[p][1..]
  {
  }

  lemma TrimmedTransitive(a: State, b: State, c: State)
    requires Trimmed(a, b) && Trimmed(b, c)
    ensures Trimmed(a, c)
  {
    SomeAheadTransitive(a.conns, b.conns, c.conns);
    ShedTwice(a, b, c);
    hide SomeAhead, Shed;
  }

  lemma TrimmedRefl(s: State)
    ensures Trimmed(s, s)
  {
  }

  lemma TrimmedPorts(s: State, t: State)
    requires Trimmed(s, t)
    ensures t.ports == s.ports && SomeAhead(s.conns, t.conns)
  {
  }

  lemma SetOfPrefix<T>(xs: seq<T>, i: nat)
    requires i < |xs|
    ensures ToSet(xs[..i + 1]) == ToSet(xs[..i]) + {xs[i]}
  {
    assert xs[..i + 1] == xs[..i] + [xs[i]];
  }

  lemma WithoutHead(g: map<nat, seq<nat>>, a: nat, p: nat)
    requires a in g && g[a] != [] && g[a][0] == p
    ensures a in Without(g, a, p) && |Without(g, a, p)[a]| == |g[a]| - 1
  {
  }

  lemma NothingTouched(conns: map<ConnId, Connection>, list: seq<PortId>)
    ensures NotTouching(conns, list[..0]) == conns.Keys
  {
  }

  lemma NotOfIsolated(before: map<ConnId, Connection>, after: map<ConnId, Connection>, c: ClientId)
    requires SomeAhead(before, after) && after.Keys == NotOf(before, c)
    ensures Isolated(after, c)
  {
  }

  lemma PortlessStripped(s: State, c: ClientId)
    requires Wired(s) && c in s.control && c in s.portsOf && s.portsOf[c] == []
    ensures Stripped(s, s, c)
  {
    hide Wired;
    PartlyStrippedRefl(s, c);
    StrippedAtLast(s, s, c);
  }

  lemma ListsWith(clients: seq<ClientId>, control: map<ClientId, Control>, c: ClientId, entry: Control)
    requires Lists(clients, control) && c !in control
    ensures Lists([c] + clients, control[c := entry])
  {
  }

  lemma ListsWithout(clients: seq<ClientId>, control: map<ClientId, Control>, c: ClientId)
    requires Lists(clients, control)
    ensures Lists(RemoveFirst(clients, c), control - {c})
    ensures multiset(RemoveFirst(clients, c)) == multiset(clients) - multiset{c}
  {
    DistinctRemoved(clients, c);
    RemoveFirstCounts(clients, c);
  }

  lemma EmptyToSet<T>()
    ensures ToSet<T>([]) == {}
  {
  }

  lemma EndPorts(s: State, k: ConnId)
    requires Wired(s) && k in s.conns
    ensures s.conns[k].source in s.ports && s.conns[k].destination in s.ports
    ensures s.conns[k].source != s.conns[k].destination
  {
    hide PairsUnique, MixdownOk, PortListsOk, ClientPortsOk;
    assert ConnOk(s.control, s.ports, s.conns[k]);
  }

  lemma PartlyStrippedRefl(s: State, c: ClientId)
    requires c in s.portsOf
    ensures PartlyStripped(s, s, c)
  {
  }

  predicate TouchesAny(c: Connection, list: seq<PortId>) {
    c.source in list || c.destination in list
  }

  ghost function NotTouching(conns: map<ConnId, Connection>, list: seq<PortId>): set<ConnId> {
    set k | k in conns && !TouchesAny(conns[k], list)
  }

  lemma Untouched(before: map<ConnId, Connection>, after: map<ConnId, Connection>, p: PortId)
    requires SomeAhead(before, after) && after.Keys == NotTouching(before, [p])
    ensures forall k :: k in after ==> !Touches(after[k], p)
  {
  }

  lemma AllOfList(s: State, p: PortId)
    requires p in s.connections
    requires forall k :: k in s.connections[p] <==> k in s.conns && Touches(s.conns[k], p)
    ensures s.conns.Keys - ToSet(s.connections[p]) == NotTouching(s.conns, [p])
  {
  }

  lemma NotTouchingMore(before: map<ConnId, Connection>, after: map<ConnId, Connection>, list: seq<PortId>, p: PortId)
    requires SomeAhead(before, after) && after.Keys == NotTouching(before, list)
    ensures NotTouching(after, [p]) == NotTouching(before, list + [p])
  {
  }

  ghost function NotOf(conns: map<ConnId, Connection>, c: ClientId): set<ConnId> {
    set k | k in conns && conns[k].srcclient != c && conns[k].dstclient != c
  }

  /** A connection involves a client exactly when it touches one of the client's ports. */
  lemma TouchesMeansOwns(s: State, c: ClientId)
    requires Wired(s) && c in s.control && c in s.portsOf
    ensures NotTouching(s.conns, s.portsOf[c]) == NotOf(s.conns, c)
  {
    hide PortListsOk, PairsUnique, MixdownOk;
    forall k | k in s.conns
      ensures TouchesAny(s.conns[k], s.portsOf[c]) <==> s.conns[k].srcclient == c || s.conns[k].dstclient == c
    {
      assert ConnOk(s.control, s.ports, s.conns[k]);
    }
  }

  /** t is s without the ports of client c and the connections that involve it. */
  ghost predicate Stripped(s: State, t: State, c: ClientId) {
    && c in s.portsOf && t.control == s.control
    && t.portsOf == s.portsOf[c := []]
    && t.ports == (map q | q in s.ports && s.ports[q].owner != c :: s.ports[q])
    && SomeAhead(s.conns, t.conns) && t.conns.Keys == NotOf(s.conns, c) && Shed(s, t)
  }

  /** Part of the way there: only ports and connections of c have gone. */
  ghost predicate PartlyStripped(s: State, t: State, c: ClientId) {
    && c in s.portsOf && c in t.portsOf && t.control == s.control
    && t.portsOf == s.portsOf[c := t.portsOf[c]]
    && (forall q :: q in t.ports ==> q in s.ports && t.ports[q] == s.ports[q])
    && (forall q :: q in s.ports && s.ports[q].owner != c ==> q in t.ports)
    && SomeAhead(s.conns, t.conns) && NotOf(s.conns, c) <= t.conns.Keys && Shed(s, t)
  }

  lemma StrippedAtLast(s: State, t: State, c: ClientId)
    requires PartlyStripped(s, t, c) && Wired(t) && c in t.control && t.portsOf[c] == []
    ensures Stripped(s, t, c)
  {
    hide Wired;
    PortlessIsIsolated(t, c);
    NoPortLeft(t, c);
    assert t.conns.Keys == NotOf(s.conns, c);
    hide SomeAhead, NotOf, Isolated, Shed;
    assert t.ports == (map q | q in s.ports && s.ports[q].owner != c :: s.ports[q]);
  }

  /** Conservation at work: with its ports gone, a client is in no feed list. */
  lemma LeftAlone(t: State, c: ClientId)
    requires Sound(t) && c in t.control && c in t.portsOf && t.portsOf[c] == []
    ensures Isolated(t.conns, c)
    ensures c in t.truefeeds && t.truefeeds[c] == [] && c in t.sortfeeds && t.sortfeeds[c] == []
    ensures forall a :: a in t.control ==>
      a in t.truefeeds && a in t.sortfeeds && c !in t.truefeeds[a] && c !in t.sortfeeds[a]
    ensures !IsDriver(t.control, c) ==> c in t.fedcount && t.fedcount[c] == 0
  {
    hide Wired, Conserved, Acyclic;
    SoundParts(t);
    PortlessIsIsolated(t, c);
    IsolatedLeavesFeeds(t, c);
  }

  /** Client c is a driver whose count will be off zero when it goes: it is so now, or
      connections into it are still to be dropped. */
  ghost predicate LeavesDebt(s: State, c: ClientId) {
    IsDriver(s.control, c) && c in s.fedcount && s.fedcount[c] != |Into(s.conns, c)|
  }

  /** t is s without client c, its ports and its connections, and c is in no feed list. */
  ghost predicate Removed(s: State, t: State, c: ClientId) {
    && t.control == s.control - {c} && t.portsOf == s.portsOf - {c}
    && t.ports == (map q | q in s.ports && s.ports[q].owner != c :: s.ports[q])
    && SomeAhead(s.conns, t.conns) && t.conns.Keys == NotOf(s.conns, c) && NoneForgiven(s, t)
    && (Tight(s) && !LeavesDebt(s, c) ==> Tight(t))
    && forall a :: a in t.control ==>
         a in t.truefeeds && a in t.sortfeeds && c !in t.truefeeds[a] && c !in t.sortfeeds[a]
  }

  lemma StrippedFacts(s: State, t: State, c: ClientId)
    requires Stripped(s, t, c)
    ensures c in t.portsOf && t.portsOf[c] == []
  {
  }

  lemma RemovedFacts(s: State, t: State, c: ClientId)
    requires Stripped(s, t.(control := s.control), c) && t.control.Keys == s.control.Keys
    requires c in t.control && t.control == s.control[c := t.control[c]]
    requires forall a :: a in t.control ==>
      a in t.truefeeds && a in t.sortfeeds && c !in t.truefeeds[a] && c !in t.sortfeeds[a]
    requires t.control[c].kind == s.control[c].kind && t.truefeeds[c] == [] && s.fedcount.Keys == s.control.Keys
    ensures Removed(s, ClientRemoved(t, c), c)
  {
    var u := t.(control := s.control);
    hide Tight, Into, Turnable;
    NobodyInto(s.conns, t.conns, c);
    assert NoneForgiven(s, ClientRemoved(t, c));
    if Tight(s) && !LeavesDebt(s, c) {
      SameTight(u, t);
      RemovedTight(t, c);
    }
    hide NotOf, SomeAhead, Shed, LeavesDebt, NoneForgiven;
  }

  lemma NobodyInto(before: map<ConnId, Connection>, after: map<ConnId, Connection>, c: ClientId)
    requires SomeAhead(before, after) && after.Keys == NotOf(before, c)
    ensures |Into(after, c)| == 0
  {
    assert Into(after, c) == {};
  }

  lemma SameTight(s: State, t: State)
    requires Tight(s) && t.truefeeds == s.truefeeds && t.fedcount == s.fedcount && t.feedbackcount == s.feedbackcount
    requires SameKinds(s.control, t.control)
    ensures Tight(t)
  {
    hide Acyclic;
    forall d
      ensures IsDriver(s.control, d) <==> IsDriver(t.control, d)
    {
    }
  }

  lemma RemovedTight(t: State, c: ClientId)
    requires Tight(t) && c in t.truefeeds && t.truefeeds[c] == []
    requires IsDriver(t.control, c) && c in t.fedcount ==> t.fedcount[c] == 0
    ensures Tight(ClientRemoved(t, c))
  {
    var u := ClientRemoved(t, c);
    forall a, b | Edge(t.truefeeds, a, b)
      ensures Edge(u.truefeeds, a, b)
    {
    }
    if Acyclic(u.truefeeds) { AcyclicWithin(t.truefeeds, u.truefeeds); }
    hide Acyclic, Edge;
    forall d
      ensures d in u.fedcount && IsDriver(u.control, d) <==> d in t.fedcount && IsDriver(t.control, d) && d != c
    {
    }
  }

  lemma NoPortLeft(t: State, c: ClientId)
    requires Wired(t) && c in t.control && c in t.portsOf && t.portsOf[c] == []
    ensures forall q :: q in t.ports ==> t.ports[q].owner != c
  {
    hide PortListsOk, PairsUnique, MixdownOk, AllConnsOk;
  }

  /** Dropping the port at the head of the client's list. */
  lemma StripOne(s: State, t: State, u: State, c: ClientId, p: PortId)
    requires PartlyStripped(s, t, c) && Wired(t) && p in t.ports && t.ports[p].owner == c
    requires u.control == t.control && u.ports == t.ports - {p} && u.portsOf == Without(t.portsOf, c, p)
    requires SomeAhead(t.conns, u.conns) && u.conns.Keys == NotTouching(t.conns, [p]) && Shed(t, u)
    ensures PartlyStripped(s, u, c)
  {
    hide Wired;
    SomeAheadTransitive(s.conns, t.conns, u.conns);
    NotOfSurvives(s, t, u, c, p);
    ShedTwice(s, t, u);
    hide NotOf, SomeAhead, NotTouching, RemoveFirst, Shed;
  }

  lemma NotOfSurvives(s: State, t: State, u: State, c: ClientId, p: PortId)
    requires Wired(t) && p in t.ports && t.ports[p].owner == c
    requires SomeAhead(s.conns, t.conns) && NotOf(s.conns, c) <= t.conns.Keys
    requires u.conns.Keys == NotTouching(t.conns, [p])
    ensures NotOf(s.conns, c) <= u.conns.Keys
  {
    hide Wired;
    forall k | k in NotOf(s.conns, c)
      ensures k in u.conns
    {
      OwnersOf(t, k);
    }
  }

  lemma OwnersOf(t: State, k: ConnId)
    requires Wired(t) && k in t.conns
    ensures var c := t.conns[k];
            && c.source in t.ports && t.ports[c.source].owner == c.srcclient
            && c.destination in t.ports && t.ports[c.destination].owner == c.dstclient
  {
    hide PortListsOk, PairsUnique, MixdownOk, ClientPortsOk;
    assert ConnOk(t.control, t.ports, t.conns[k]);
  }

  // ----- Feedback and the counts of drivers over runs

  lemma ForgivesNothing(s: State)
    ensures NoneForgiven(s, s)
  {
  }

  lemma SteadyRefl(s: State)
    ensures Steady(s, s) && Shed(s, s)
  {
  }

  /** Only feeds, counts and the kinds of clients matter. */
  lemma SteadyOn(s: State, t: State, u: State)
    requires Steady(s, t) && u.fedcount == t.fedcount && SameKinds(t.control, u.control)
    requires u.truefeeds == t.truefeeds && u.feedbackcount == t.feedbackcount
    ensures Steady(s, u)
    ensures Balanced(s, t) && u.conns == t.conns ==> Balanced(s, u)
  {
    hide Tight, Into;
    if Tight(t) { SameTight(t, u); }
  }

  lemma SteadyTwice(s: State, t: State, u: State)
    requires Steady(s, t) && Steady(t, u) && t.control.Keys == s.control.Keys
    ensures Steady(s, u)
  {
    hide Tight;
    assert forall d :: IsDriver(s.control, d) && d in s.fedcount ==> d in t.fedcount && d in t.control;
  }

  lemma ShedTwice(s: State, t: State, u: State)
    requires Shed(s, t) && Shed(t, u) && t.control == s.control
    ensures Shed(s, u)
  {
    hide Tight, Into;
    SteadyTwice(s, t, u);
  }

  lemma NothingThere(s: State, p: PortId)
    requires Sound(s) && p !in s.ports
    ensures NotTouching(s.conns, [p]) == s.conns.Keys
  {
    hide Conserved, Acyclic, Sound, Wired, EndsOk, SortCounted, Touches;
    SoundParts(s);
    forall k | k in s.conns
      ensures !TouchesAny(s.conns[k], [p])
    {
      EndPorts(s, k);
    }
  }

  lemma AddSteady(s: State, c: ClientId, kind: ClientType)
    requires c !in s.control
    ensures NoneForgiven(s, ClientAdded(s, c, kind)) && ClientAdded(s, c, kind).control.Keys == s.control.Keys + {c}
    ensures Tight(s) && c !in s.truefeeds && c !in s.fedcount ==> Tight(ClientAdded(s, c, kind))
  {
    var t := ClientAdded(s, c, kind);
    if Acyclic(t.truefeeds) && c !in s.truefeeds {
      assert Within(s.truefeeds, t.truefeeds);
      AcyclicWithin(s.truefeeds, t.truefeeds);
    }
    hide Acyclic;
    forall d | d in s.fedcount && IsDriver(s.control, d)
      ensures d in t.fedcount && IsDriver(t.control, d) && (c !in s.fedcount ==> t.fedcount[d] == s.fedcount[d])
    {
    }
  }

  lemma StrippedSteady(s: State, t: State, c: ClientId)
    requires Stripped(s, t.(control := s.control), c) && c in s.control
    requires t.control == s.control[c := s.control[c].(active := false, dead := true)]
    ensures Steady(s, t)
  {
    hide SomeAhead, Into, Tight, NoneForgiven;
    SteadyOn(s, t.(control := s.control), t);
  }

  lemma RemovedSteady(s: State, t: State, c: ClientId)
    requires Removed(s, t, c)
    ensures NoneForgiven(s, t) && t.control.Keys <= s.control.Keys
    ensures Tight(s) && !LeavesDebt(s, c) ==> Tight(t)
  {
  }

  lemma CountsMonotone(s: State, t: State)
    requires NoneForgiven(s, t) && s.fedcount.Keys == s.control.Keys && t.fedcount.Keys == t.control.Keys
    ensures forall d :: IsDriver(s.control, d) && d in t.control ==>
      IsDriver(t.control, d) && d in s.fedcount && d in t.fedcount && t.fedcount[d] <= s.fedcount[d]
  {
  }

  // ----- What the answer to a request means

  /** Two ports that may be connected, as far as the ports themselves go. */
  ghost predicate Matching(s: State, source: PortId, destination: PortId) {
    && source in s.ports && destination in s.ports
    && !s.ports[source].isInput && s.ports[destination].isInput
    && s.ports[source].ptype == s.ports[destination].ptype
    && Active(s, s.ports[source].owner) && Active(s, s.ports[destination].owner)
  }

  ghost predicate Joined(s: State, source: PortId, destination: PortId) {
    exists k :: k in s.conns && Joins(s.conns[k], source, destination)
  }

  /** Clients, ports and connections are the same, connections with any direction. */
  ghost predicate SameTables(s: State, t: State) {
    t.control == s.control && t.ports == s.ports && t.portsOf == s.portsOf && SameButAhead(s.conns, t.conns)
  }

  /** Exactly the connections in keys are left, and clients and ports are the same. */
  ghost predicate LeavesOnly(s: State, t: State, keys: set<ConnId>) {
    && t.control == s.control && t.ports == s.ports && t.portsOf == s.portsOf
    && SomeAhead(s.conns, t.conns) && t.conns.Keys == keys
  }

  /** One connection more, from source to destination. */
  ghost predicate OneJoined(s: State, t: State, source: PortId, destination: PortId) {
    && t.control == s.control && t.ports == s.ports && t.portsOf == s.portsOf
    && exists k :: k in t.conns && k !in s.conns && t.conns == s.conns[k := t.conns[k]] && Joins(t.conns[k], source, destination)
  }

  /** One port more, in the lowest free slot. */
  ghost predicate OnePort(s: State, t: State, port: Port) {
    && t.control == s.control && t.conns == s.conns
    && exists p :: p in t.ports && p !in s.ports && t.ports == s.ports[p := port] && forall q :: 0 <= q < p ==> q in s.ports
  }

  ghost predicate ConnectAnswer(s: State, t: State, source: PortId, destination: PortId, status: Status) {
    && (status == Ok ==> OneJoined(s, t, source, destination))
    && (status != Ok ==> t == s)
    && (status == Exists <==> Matching(s, source, destination) && Joined(s, source, destination))
    && (status == Ok <==>
          && Matching(s, source, destination) && !Joined(s, source, destination)
          && RoomAt(s.ports, s.conns, destination))
  }

  ghost predicate DisconnectAnswer(s: State, t: State, source: PortId, destination: PortId, status: Status) {
    && (status == Ok <==> source in s.ports && destination in s.ports && Joined(s, source, destination))
    && (status == Ok ==> exists k :: k in s.conns && Joins(s.conns[k], source, destination)
                                     && LeavesOnly(s, t, s.conns.Keys - {k}))
    && (status == Failed ==> SameTables(s, t))
    && status != Exists
  }

  /** The client becomes inactive and loses exactly its connections. */
  ghost predicate TurnedOff(s: State, t: State, c: ClientId) {
    && c in s.control && t.control == s.control[c := s.control[c].(active := false)]
    && t.ports == s.ports && t.portsOf == s.portsOf
    && SomeAhead(s.conns, t.conns) && t.conns.Keys == NotOf(s.conns, c)
  }

  /** The client becomes active and nothing else changes. */
  ghost predicate TurnedOn(s: State, t: State, c: ClientId) {
    c in s.control && t == s.(control := s.control[c := s.control[c].(active := true, dead := false)])
  }

  ghost predicate PortGone(s: State, t: State, p: PortId) {
    && t.control == s.control && t.ports == s.ports - {p}
    && SomeAhead(s.conns, t.conns) && t.conns.Keys == NotTouching(s.conns, [p])
  }

  /** What a request from a client that is not dead has done. */
  ghost predicate Performed(s: State, t: State, sender: ClientId, request: Request, status: Status) {
    match request
    case RegisterPort(isInput, ptype, hasMixdown) =>
      (status == Ok && OnePort(s, t, Port(sender, isInput, ptype, hasMixdown))) || (status == Failed && t == s)
    case UnRegisterPort(p) =>
      || (status == Ok && PortGone(s, t, p) && (p in s.ports ==> s.ports[p].owner == sender))
      || (status == Failed && t == s && (p in s.ports ==> s.ports[p].owner != sender))
    case ConnectPorts(source, destination) => ConnectAnswer(s, t, source, destination, status)
    case DisconnectPorts(source, destination) => DisconnectAnswer(s, t, source, destination, status)
    case DisconnectPort(p) =>
      (status == Ok && LeavesOnly(s, t, NotTouching(s.conns, [p]))) || (status == Failed && t == s && p !in s.ports)
    case ActivateClient => status == Ok && TurnedOn(s, t, sender)
    case DeactivateClient => status == Ok && TurnedOff(s, t, sender)
    case UnloadClient(c) =>
      (status == Ok && c in s.control && Removed(s, t, c)) || (status == Failed && c !in s.control && t == s)
  }

  ghost predicate Answered(s: State, t: State, sender: ClientId, request: Request, status: Status) {
    if sender !in s.control || s.control[sender].dead then status == Failed && t == s
    else Performed(s, t, sender, request, status)
  }

  /** What an event has done. */
  ghost predicate Happened(s: State, t: State, event: Event) {
    match event
    case FromClient(sender, request) => exists status :: Answered(s, t, sender, request, status)
    case NewClient(kind) =>
      exists c :: c in t.control && c !in s.control && t == ClientAdded(s, c, kind) && t.control[c] == Control(kind, false, false)
    case ClientFailed(c) =>
      if c !in s.control then t == s
      else Stripped(s, t.(control := s.control), c) && t.control == s.control[c := s.control[c].(active := false, dead := true)]
    case ClientGone(c) => if c !in s.control then t == s else Removed(s, t, c)
  }

  /** A driver leaves with its count off zero. */
  ghost predicate DebtorLeaves(s: State, event: Event) {
    match event
    case FromClient(_, UnloadClient(c)) => LeavesDebt(s, c)
    case ClientGone(c) => LeavesDebt(s, c)
    case _ => false
  }

  /** The states a run of events goes through. */
  ghost predicate IsTrace(trace: seq<State>, events: seq<Event>) {
    |trace| == |events| + 1 && forall i :: 0 <= i < |events| ==> Happened(trace[i], trace[i + 1], events[i])
  }

  lemma ConnectAnswers(s: State, source: PortId, destination: PortId)
    requires Wired(s)
    ensures var status := ConnectStatus(s, source, destination);
            && (status == Exists <==> Matching(s, source, destination) && Joined(s, source, destination))
            && (status == Ok <==>
                  && Matching(s, source, destination) && !Joined(s, source, destination)
                  && RoomAt(s.ports, s.conns, destination))
  {
    hide ClientPortsOk, PortListsOk, PairsUnique, MixdownOk;
    forall k | k in s.conns && Touches(s.conns[k], destination) && destination in s.ports && s.ports[destination].isInput
      ensures s.conns[k].destination == destination
    {
      assert ConnOk(s.control, s.ports, s.conns[k]);
    }
  }

  lemma ConnectResult(s: State, k: int, t: State, source: PortId, destination: PortId, status: Status)
    requires Sound(s) && status == ConnectStatus(s, source, destination)
    requires status != Ok ==> t == s
    requires status == Ok ==>
      && source in s.ports && destination in s.ports && 0 <= k && k !in s.conns
      && Known(s, NewConnection(s, source, destination)) && t == Connected(s, k, NewConnection(s, source, destination))
    ensures ConnectAnswer(s, t, source, destination, status) && Steady(s, t)
  {
    hide Sound, Wired, Conserved, Connected, Known, NewConnection, ConnectStatus, Steady, Joined, RoomAt, Matching, Acyclic, EndsOk, SortCounted;
    SoundParts(s);
    SteadyRefl(s);
    ConnectAnswers(s, source, destination);
    if status == Ok {
      NewConnectionFacts(s, source, destination);
      ConnectSteady(s, k, NewConnection(s, source, destination));
      OneMoreTable(s, k, NewConnection(s, source, destination));
    }
  }

  lemma OneMoreTable(s: State, k: ConnId, c: Connection)
    requires Known(s, c) && k !in s.conns
    ensures OneJoined(s, Connected(s, k, c), c.source, c.destination)
  {
    var t := Connected(s, k, c);
    assert k in t.conns && t.conns == s.conns[k := t.conns[k]];
  }

  lemma NewConnectionFacts(s: State, source: PortId, destination: PortId)
    requires source in s.ports && destination in s.ports
    ensures var c := NewConnection(s, source, destination);
            && Joins(c, source, destination) && c.dir == NewDir(s.control, s.sortfeeds, c.srcclient, c.dstclient)
  {
  }

  lemma SteadyMeans(s: State, t: State)
    requires Steady(s, t)
    ensures NoneForgiven(s, t) && (Tight(s) ==> Tight(t))
  {
  }

  /** What the disconnecting code leaves when it found the connection. */
  lemma DisconnectResult(s: State, k: ConnId, t: State, source: PortId, destination: PortId)
    requires Sound(s) && source in s.ports && destination in s.ports
    requires k in s.conns && Joins(s.conns[k], source, destination) && Known(s, s.conns[k])
    requires Settled(Disconnected(s, k), t, s.feedbackcount != 0)
    ensures Tight(t) && Steady(s, t) && DisconnectAnswer(s, t, source, destination, Ok)
  {
    hide Sound, Known, Conserved, EndsOk, SortCounted, Wired, Steady, Tight, Shed, Settled, Disconnected, SomeAhead, Joins, Acyclic, LeavesOnly, SameTables, Trimmed;
    SoundParts(s);
    StepFacts(s, k, t);
    DisconnectShed(s, k, t);
    ShedMeans(s, t);
    TrimmedMeans(s, t);
  }

  /** What it leaves when there is no such connection. */
  lemma NothingToDisconnect(s: State, t: State, source: PortId, destination: PortId)
    requires source in s.ports && destination in s.ports && Settled(s, t, s.feedbackcount != 0)
    requires forall j :: j in s.conns ==> !Joins(s.conns[j], source, destination)
    ensures Tight(t) && Steady(s, t) && DisconnectAnswer(s, t, source, destination, Failed)
  {
    SettledBalanced(s, t, s.feedbackcount != 0);
    hide Turnable, Mult, Joins, NoFeedback, LeavesOnly, NoneForgiven, Balanced;
  }

  lemma ShedMeans(s: State, t: State)
    requires Shed(s, t)
    ensures Steady(s, t)
  {
  }

  lemma TrimmedMeans(s: State, t: State)
    requires Trimmed(s, t)
    ensures LeavesOnly(s, t, t.conns.Keys)
  {
  }
}
