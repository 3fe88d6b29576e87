/** Ports and clients coming and going: each change keeps the engine state sound. */
module Lifecycle {
  import opened Collections
  import opened Digraph
  import opened FeedGraph

  // ----- Ports

  ghost function PortAdded(s: State, p: PortId, port: Port): State
    requires port.owner in s.portsOf
  {
    s.(ports := s.ports[p := port],
       connections := s.connections[p := []],
       portsOf := Prepend(s.portsOf, port.owner, p))
  }

  lemma PortAddedClientPorts(control: map<ClientId, Control>, ports: map<PortId, Port>,
                             portsOf: map<ClientId, seq<PortId>>, p: PortId, port: Port)
    requires ClientPortsOk(control, ports, portsOf) && p !in ports
    requires port.owner in control && !control[port.owner].dead
    ensures port.owner in portsOf
    ensures ClientPortsOk(control, ports[p := port], Prepend(portsOf, port.owner, p))
  {
    assert forall c :: c in control ==> p !in portsOf[c];
  }

  lemma PortAddedConns(control: map<ClientId, Control>, ports: map<PortId, Port>,
                       conns: map<ConnId, Connection>, p: PortId, port: Port)
    requires AllConnsOk(control, ports, conns) && p !in ports
    ensures AllConnsOk(control, ports[p := port], conns)
    ensures forall k :: k in conns ==> !Touches(conns[k], p)
  {
    forall k | k in conns
      ensures ConnOk(control, ports[p := port], conns[k]) && !Touches(conns[k], p)
    {
      assert ConnOk(control, ports, conns[k]);
    }
  }

  lemma PortAddedSound(s: State, p: PortId, port: Port)
    requires Sound(s) && p !in s.ports && port.owner in s.control && !s.control[port.owner].dead
    ensures port.owner in s.portsOf && Sound(PortAdded(s, p, port))
  {
    hide EndsOk, TrueCounted, SortCounted, FedCounted, Count, Acyclic, ClientPortsOk, AllConnsOk, PairsUnique, MixdownOk, PortListsOk;
    PortAddedClientPorts(s.control, s.ports, s.portsOf, p, port);
    PortAddedConns(s.control, s.ports, s.conns, p, port);
    EmptyList(s.connections, s.conns, p);
    MixdownElsewhere(s.ports, s.ports[p := port], s.conns, p);
  }

  lemma MixdownElsewhere(before: map<PortId, Port>, after: map<PortId, Port>, conns: map<ConnId, Connection>, p: PortId)
    requires MixdownOk(before, conns) && before - {p} == after - {p}
    requires forall k :: k in conns ==> !Touches(conns[k], p)
    ensures MixdownOk(after, conns)
  {
    forall j, k | j in conns && k in conns && j != k && conns[j].destination == conns[k].destination
      ensures conns[j].destination in after && after[conns[j].destination].hasMixdown
    {
      var q := conns[j].destination;
      assert q != p && q in before - {p} && (before - {p})[q] == (after - {p})[q];
    }
  }

  lemma EmptyList(connections: map<PortId, seq<ConnId>>, conns: map<ConnId, Connection>, p: PortId)
    requires PortListsOk(connections, conns) && forall k :: k in conns ==> !Touches(conns[k], p)
    ensures PortListsOk(connections[p := []], conns)
  {
  }

  ghost function PortDropped(s: State, p: PortId): State
    requires p in s.ports && s.ports[p].owner in s.portsOf
  {
    s.(ports := s.ports - {p},
       connections := s.connections - {p},
       portsOf := Without(s.portsOf, s.ports[p].owner, p))
  }

  lemma PortDroppedClientPorts(control: map<ClientId, Control>, ports: map<PortId, Port>,
                               portsOf: map<ClientId, seq<PortId>>, p: PortId)
    requires ClientPortsOk(control, ports, portsOf) && p in ports
    ensures ports[p].owner in control && ports[p].owner in portsOf
    ensures ClientPortsOk(control, ports - {p}, Without(portsOf, ports[p].owner, p))
  {
    var owner := ports[p].owner;
    DistinctRemoved(portsOf[owner], p);
    var after := Without(portsOf, owner, p);
    assert forall c :: c in control && c != owner ==> after[c] == portsOf[c];
    assert after[owner] == RemoveFirst(portsOf[owner], p);
    hide Without, RemoveFirst;
    forall c, q | c in control
      ensures q in after[c] <==> q in portsOf[c] && q != p
    {
    }
  }

  lemma PortDroppedConns(control: map<ClientId, Control>, ports: map<PortId, Port>,
                         conns: map<ConnId, Connection>, p: PortId)
    requires AllConnsOk(control, ports, conns) && forall k :: k in conns ==> !Touches(conns[k], p)
    ensures AllConnsOk(control, ports - {p}, conns)
  {
    forall k | k in conns
      ensures ConnOk(control, ports - {p}, conns[k])
    {
      assert ConnOk(control, ports, conns[k]) && !Touches(conns[k], p);
    }
  }

  lemma PortDroppedSound(s: State, p: PortId)
    requires Sound(s) && p in s.ports && forall k :: k in s.conns ==> !Touches(s.conns[k], p)
    ensures s.ports[p].owner in s.control && s.ports[p].owner in s.portsOf && Sound(PortDropped(s, p))
  {
    hide EndsOk, TrueCounted, SortCounted, FedCounted, Count, Acyclic, ClientPortsOk, AllConnsOk, PairsUnique, MixdownOk, PortListsOk;
    PortDroppedClientPorts(s.control, s.ports, s.portsOf, p);
    PortDroppedConns(s.control, s.ports, s.conns, p);
    FewerLists(s.connections, s.conns, p);
    MixdownElsewhere(s.ports, s.ports - {p}, s.conns, p);
  }

  lemma FewerLists(connections: map<PortId, seq<ConnId>>, conns: map<ConnId, Connection>, p: PortId)
    requires PortListsOk(connections, conns)
    ensures PortListsOk(connections - {p}, conns)
  {
  }

  // ----- Changes to a client's flags

  ghost function Flagged(s: State, c: ClientId, active: bool, dead: bool): State
    requires c in s.control
  {
    s.(control := s.control[c := s.control[c].(active := active, dead := dead)])
  }

  /** The books depend on which clients there are and which are drivers, nothing else. */
  ghost predicate SameKinds(before: map<ClientId, Control>, after: map<ClientId, Control>) {
    before.Keys == after.Keys && forall c :: c in before ==> before[c].kind == after[c].kind
  }

  lemma SameKindsCount(before: map<ClientId, Control>, after: map<ClientId, Control>,
                       conns: map<ConnId, Connection>, q: Query)
    requires SameKinds(before, after)
    ensures Count(before, conns, q) == Count(after, conns, q)
  {
    assert Select(before, conns, q) == Select(after, conns, q);
  }

  lemma SameKindsTrue(before: map<ClientId, Control>, after: map<ClientId, Control>,
                      conns: map<ConnId, Connection>, g: Feeds)
    requires SameKinds(before, after) && TrueCounted(before, conns, g)
    ensures TrueCounted(after, conns, g)
  {
    forall a, b { SameKindsCount(before, after, conns, True(a, b)); }
  }

  lemma SameKindsSort(before: map<ClientId, Control>, after: map<ClientId, Control>,
                      conns: map<ConnId, Connection>, g: Feeds)
    requires SameKinds(before, after) && SortCounted(before, conns, g)
    ensures SortCounted(after, conns, g)
  {
    forall a, b { SameKindsCount(before, after, conns, Forward(a, b)); }
    forall a, b { SameKindsCount(before, after, conns, Feedback(a, b)); }
  }

  lemma SameKindsFed(before: map<ClientId, Control>, after: map<ClientId, Control>,
                     conns: map<ConnId, Connection>, fed: map<ClientId, int>)
    requires SameKinds(before, after) && FedCounted(before, conns, fed)
    ensures FedCounted(after, conns, fed)
  {
    forall b { SameKindsCount(before, after, conns, IntoFrom(b, before.Keys)); }
  }

  lemma SameKindsConserved(s: State, after: map<ClientId, Control>)
    requires Conserved(s) && SameKinds(s.control, after)
    ensures Conserved(s.(control := after))
  {
    SameKindsEnds(s.control, after, s.conns);
    hide EndsOk, TrueCounted, SortCounted, FedCounted, Count, SameKinds;
    SameKindsTrue(s.control, after, s.conns, s.truefeeds);
    SameKindsSort(s.control, after, s.conns, s.sortfeeds);
    SameKindsFed(s.control, after, s.conns, s.fedcount);
    SameKindsCount(s.control, after, s.conns, AnyFeedback);
  }

  lemma SameKindsEnds(before: map<ClientId, Control>, after: map<ClientId, Control>, conns: map<ConnId, Connection>)
    requires SameKinds(before, after) && EndsOk(before, conns)
    ensures EndsOk(after, conns)
  {
  }

  lemma FlaggedConns(s: State, c: ClientId, active: bool, dead: bool)
    requires AllConnsOk(s.control, s.ports, s.conns) && c in s.control && (active || Isolated(s.conns, c))
    ensures AllConnsOk(Flagged(s, c, active, dead).control, s.ports, s.conns)
  {
    forall k | k in s.conns
      ensures ConnOk(Flagged(s, c, active, dead).control, s.ports, s.conns[k])
    {
      assert ConnOk(s.control, s.ports, s.conns[k]);
    }
  }

  lemma FlaggedClientPorts(s: State, c: ClientId, active: bool, dead: bool)
    requires ClientPortsOk(s.control, s.ports, s.portsOf) && c in s.control
    requires dead ==> !active && s.portsOf[c] == []
    ensures ClientPortsOk(Flagged(s, c, active, dead).control, s.ports, s.portsOf)
  {
  }

  /** A client may be switched on at any time while alive, off once it has no
      connections, and marked dead once it has no ports. */
  lemma FlaggedSound(s: State, c: ClientId, active: bool, dead: bool)
    requires Sound(s) && c in s.control
    requires active || Isolated(s.conns, c)
    requires dead ==> !active && c in s.portsOf && s.portsOf[c] == []
    ensures Sound(Flagged(s, c, active, dead))
  {
    hide Acyclic, PortListsOk, PairsUnique, MixdownOk, Conserved, ClientPortsOk, AllConnsOk;
    SameKindsConserved(s, Flagged(s, c, active, dead).control);
    FlaggedConns(s, c, active, dead);
    FlaggedClientPorts(s, c, active, dead);
  }

  // ----- Clients

  ghost function ClientAdded(s: State, c: ClientId, kind: ClientType): State {
    s.(control := s.control[c := Control(kind, false, false)],
       portsOf := s.portsOf[c := []],
       truefeeds := s.truefeeds[c := []],
       sortfeeds := s.sortfeeds[c := []],
       fedcount := s.fedcount[c := 0])
  }

  ghost function ClientRemoved(s: State, c: ClientId): State {
    s.(control := s.control - {c},
       portsOf := s.portsOf - {c},
       truefeeds := s.truefeeds - {c},
       sortfeeds := s.sortfeeds - {c},
       fedcount := s.fedcount - {c})
  }

  /** Two client tables that differ in c alone count connections alike when no
      connection involves c. */
  ghost predicate DifferAt(before: map<ClientId, Control>, after: map<ClientId, Control>, c: ClientId) {
    forall d :: d != c ==> (d in before <==> d in after) && (d in before ==> before[d] == after[d])
  }

  lemma DifferAtCount(before: map<ClientId, Control>, after: map<ClientId, Control>, c: ClientId,
                      conns: map<ConnId, Connection>, q: Query)
    requires DifferAt(before, after, c) && Isolated(conns, c)
    ensures Count(before, conns, q) == Count(after, conns, q)
  {
    assert Select(before, conns, q) == Select(after, conns, q);
  }

  lemma WiderOrigin(control: map<ClientId, Control>, conns: map<ConnId, Connection>,
                    b: ClientId, from: set<ClientId>, c: ClientId)
    requires Isolated(conns, c)
    ensures Count(control, conns, IntoFrom(b, from + {c})) == Count(control, conns, IntoFrom(b, from - {c}))
  {
    assert Select(control, conns, IntoFrom(b, from + {c})) == Select(control, conns, IntoFrom(b, from - {c}));
  }

  lemma StrangerIsIsolated(s: State, c: ClientId)
    requires Conserved(s) && c !in s.control
    ensures Isolated(s.conns, c)
  {
    hide TrueCounted, SortCounted, FedCounted, Count;
  }

  lemma AddedTrue(control: map<ClientId, Control>, conns: map<ConnId, Connection>, g: Feeds,
                  c: ClientId, entry: Control)
    requires TrueCounted(control, conns, g) && Isolated(conns, c) && c !in control
    ensures TrueCounted(control[c := entry], conns, g[c := []])
  {
    var after, h := control[c := entry], g[c := []];
    forall a, b | a in after
      ensures Mult(h, a, b) == Count(after, conns, True(a, b))
    {
      DifferAtCount(control, after, c, conns, True(a, b));
      if a == c { CountZero(after, conns, True(a, b)); }
    }
  }

  lemma AddedSort(control: map<ClientId, Control>, conns: map<ConnId, Connection>, g: Feeds,
                  c: ClientId, entry: Control)
    requires SortCounted(control, conns, g) && Isolated(conns, c) && c !in control
    ensures SortCounted(control[c := entry], conns, g[c := []])
  {
    var after, h := control[c := entry], g[c := []];
    forall a, b | a in after
      ensures Mult(h, a, b) == Count(after, conns, Forward(a, b)) + Count(after, conns, Feedback(b, a))
    {
      DifferAtCount(control, after, c, conns, Forward(a, b));
      DifferAtCount(control, after, c, conns, Feedback(b, a));
      if a == c {
        CountZero(after, conns, Forward(a, b));
        CountZero(after, conns, Feedback(b, a));
      }
    }
  }

  lemma AddedFed(control: map<ClientId, Control>, conns: map<ConnId, Connection>, fed: map<ClientId, int>,
                 c: ClientId, entry: Control)
    requires FedCounted(control, conns, fed) && Isolated(conns, c) && c !in control
    ensures FedCounted(control[c := entry], conns, fed[c := 0])
  {
    var after := control[c := entry];
    assert after.Keys == control.Keys + {c} && control.Keys - {c} == control.Keys;
    forall b | b in after
      ensures if IsDriver(after, b) then fed[c := 0][b] <= 0
              else fed[c := 0][b] == Count(after, conns, IntoFrom(b, after.Keys))
    {
      WiderOrigin(after, conns, b, control.Keys, c);
      DifferAtCount(control, after, c, conns, IntoFrom(b, control.Keys));
      if b == c { CountZero(after, conns, IntoFrom(b, after.Keys)); }
    }
  }

  lemma AddedEnds(control: map<ClientId, Control>, conns: map<ConnId, Connection>, c: ClientId, entry: Control)
    requires EndsOk(control, conns) && c !in control
    ensures EndsOk(control[c := entry], conns)
  {
  }

  lemma ClientAddedConserved(s: State, c: ClientId, kind: ClientType)
    requires Conserved(s) && c !in s.control
    ensures Conserved(ClientAdded(s, c, kind))
  {
    hide EndsOk, TrueCounted, SortCounted, FedCounted, Count, Isolated;
    StrangerIsIsolated(s, c);
    var entry := Control(kind, false, false);
    AddedEnds(s.control, s.conns, c, entry);
    AddedTrue(s.control, s.conns, s.truefeeds, c, entry);
    AddedSort(s.control, s.conns, s.sortfeeds, c, entry);
    AddedFed(s.control, s.conns, s.fedcount, c, entry);
    DifferAtCount(s.control, s.control[c := entry], c, s.conns, AnyFeedback);
  }

  lemma AddedConns(control: map<ClientId, Control>, ports: map<PortId, Port>, conns: map<ConnId, Connection>,
                   c: ClientId, entry: Control)
    requires AllConnsOk(control, ports, conns) && c !in control
    ensures AllConnsOk(control[c := entry], ports, conns)
  {
    forall k | k in conns
      ensures ConnOk(control[c := entry], ports, conns[k])
    {
      assert ConnOk(control, ports, conns[k]);
    }
  }

  lemma AddedClientPorts(control: map<ClientId, Control>, ports: map<PortId, Port>,
                         portsOf: map<ClientId, seq<PortId>>, c: ClientId, entry: Control)
    requires ClientPortsOk(control, ports, portsOf) && c !in control && !entry.dead
    ensures ClientPortsOk(control[c := entry], ports, portsOf[c := []])
  {
  }

  lemma ClientAddedSound(s: State, c: ClientId, kind: ClientType)
    requires Sound(s) && c !in s.control
    ensures Sound(ClientAdded(s, c, kind))
  {
    var t := ClientAdded(s, c, kind);
    var entry := Control(kind, false, false);
    ClientAddedConserved(s, c, kind);
    assert Within(t.sortfeeds, s.sortfeeds);
    AcyclicWithin(t.sortfeeds, s.sortfeeds);
    hide Conserved, Acyclic, ClientPortsOk, AllConnsOk, PortListsOk, PairsUnique, MixdownOk, Within;
    AddedConns(s.control, s.ports, s.conns, c, entry);
    AddedClientPorts(s.control, s.ports, s.portsOf, c, entry);
  }

  lemma RemovedTrue(control: map<ClientId, Control>, conns: map<ConnId, Connection>, g: Feeds, c: ClientId)
    requires TrueCounted(control, conns, g) && Isolated(conns, c)
    ensures TrueCounted(control - {c}, conns, g - {c})
  {
    forall a, b { DifferAtCount(control, control - {c}, c, conns, True(a, b)); }
    forall a, b | a in control - {c}
      ensures Mult(g - {c}, a, b) == Mult(g, a, b)
    {
    }
  }

  lemma RemovedSort(control: map<ClientId, Control>, conns: map<ConnId, Connection>, g: Feeds, c: ClientId)
    requires SortCounted(control, conns, g) && Isolated(conns, c)
    ensures SortCounted(control - {c}, conns, g - {c})
  {
    forall a, b { DifferAtCount(control, control - {c}, c, conns, Forward(a, b)); }
    forall a, b { DifferAtCount(control, control - {c}, c, conns, Feedback(a, b)); }
    forall a, b | a in control - {c}
      ensures Mult(g - {c}, a, b) == Mult(g, a, b)
    {
    }
  }

  lemma RemovedFed(control: map<ClientId, Control>, conns: map<ConnId, Connection>, fed: map<ClientId, int>, c: ClientId)
    requires FedCounted(control, conns, fed) && Isolated(conns, c) && c in control
    ensures FedCounted(control - {c}, conns, fed - {c})
  {
    var after := control - {c};
    assert control.Keys + {c} == control.Keys && after.Keys == control.Keys - {c};
    forall b | b in after
      ensures if IsDriver(after, b) then (fed - {c})[b] <= 0
              else (fed - {c})[b] == Count(after, conns, IntoFrom(b, after.Keys))
    {
      WiderOrigin(control, conns, b, control.Keys, c);
      DifferAtCount(control, after, c, conns, IntoFrom(b, after.Keys));
    }
  }

  lemma RemovedEnds(control: map<ClientId, Control>, conns: map<ConnId, Connection>, c: ClientId)
    requires EndsOk(control, conns) && Isolated(conns, c)
    ensures EndsOk(control - {c}, conns)
  {
  }

  lemma ClientRemovedConserved(s: State, c: ClientId)
    requires Conserved(s) && Isolated(s.conns, c) && c in s.control
    ensures Conserved(ClientRemoved(s, c))
  {
    hide EndsOk, TrueCounted, SortCounted, FedCounted, Count, Isolated;
    RemovedEnds(s.control, s.conns, c);
    RemovedTrue(s.control, s.conns, s.truefeeds, c);
    RemovedSort(s.control, s.conns, s.sortfeeds, c);
    RemovedFed(s.control, s.conns, s.fedcount, c);
    DifferAtCount(s.control, s.control - {c}, c, s.conns, AnyFeedback);
  }

  lemma RemovedConns(control: map<ClientId, Control>, ports: map<PortId, Port>, conns: map<ConnId, Connection>, c: ClientId)
    requires AllConnsOk(control, ports, conns) && Isolated(conns, c)
    ensures AllConnsOk(control - {c}, ports, conns)
  {
    forall k | k in conns
      ensures ConnOk(control - {c}, ports, conns[k])
    {
      assert ConnOk(control, ports, conns[k]);
    }
  }

  lemma RemovedClientPorts(control: map<ClientId, Control>, ports: map<PortId, Port>,
                           portsOf: map<ClientId, seq<PortId>>, c: ClientId)
    requires ClientPortsOk(control, ports, portsOf) && c in control && portsOf[c] == []
    ensures ClientPortsOk(control - {c}, ports, portsOf - {c})
  {
  }

  lemma ClientRemovedSound(s: State, c: ClientId)
    requires Sound(s) && c in s.control && c in s.portsOf && s.portsOf[c] == []
    ensures Sound(ClientRemoved(s, c))
  {
    var t := ClientRemoved(s, c);
    PortlessIsIsolated(s, c);
    ClientRemovedConserved(s, c);
    assert Within(t.sortfeeds, s.sortfeeds);
    AcyclicWithin(t.sortfeeds, s.sortfeeds);
    hide Conserved, Acyclic, ClientPortsOk, AllConnsOk, PortListsOk, PairsUnique, MixdownOk, Within, Isolated;
    RemovedConns(s.control, s.ports, s.conns, c);
    RemovedClientPorts(s.control, s.ports, s.portsOf, c);
  }
}
