/**
 The engine's graph of clients, ports and connections, changed in place by client
 requests and by the server when a client fails.
 */
module Engine {
  import opened Collections
  import opened Digraph
  import opened FeedGraph
  import opened Lifecycle
  import opened MergeSort
  import opened ClientOrder
  import opened AcyclicCheck
  import opened GraphSteps

  class Engine {
    const portMax: nat
    /** The client_id of every port slot, which stays when the slot is released; 0 is no client. */
    const owners: array<ClientId>
    var clients: seq<ClientId>
    var control: map<ClientId, Control>
    var ports: map<PortId, Port>
    var portsOf: map<ClientId, seq<PortId>>
    var connections: map<PortId, seq<ConnId>>
    var conns: map<ConnId, Connection>
    var truefeeds: Feeds
    var sortfeeds: Feeds
    var fedcount: map<ClientId, int>
    var feedbackcount: int
    var nextClient: nat
    var nextConn: nat

    ghost function View(): State
      reads this
    {
      State(control, ports, portsOf, connections, conns, truefeeds, sortfeeds, fedcount, feedbackcount)
    }

    ghost predicate FreshIds()
      reads this
    {
      && nextClient > 0 && (forall c :: c in control ==> 0 < c < nextClient)
      && (forall k :: k in conns ==> k < nextConn)
    }

    ghost predicate SlotsOk()
      reads this, owners
    {
      owners.Length == portMax && forall p :: p in ports ==> p < portMax && owners[p] == ports[p].owner
    }

    ghost predicate Valid()
      reads this, owners
    {
      Sound(View()) && Lists(clients, control) && FreshIds() && SlotsOk()
    }

    constructor (portMax: nat)
      ensures Valid() && clients == [] && control == map[] && ports == map[] && conns == map[]
      ensures this.portMax == portMax && fresh(owners) && feedbackcount == 0 && nextClient == 1
    {
      this.portMax := portMax;
      owners := new ClientId[portMax](_ => 0);
      clients, control, ports, portsOf, connections, conns := [], map[], map[], map[], map[], map[];
      truefeeds, sortfeeds, fedcount, feedbackcount := map[], map[], map[], 0;
      nextClient, nextConn := 1, 0;
      new;
      EmptyIsAcyclic();
      CountZero(map[], map[], AnyFeedback);
    }

    // ----- Sorting

    /** jack_sort_graph, as far as the client list is concerned. */
    method SortGraph()
      requires Valid()
      modifies this`clients
      ensures Valid() && Acyclic(sortfeeds)
      ensures clients == Sort(old(clients), Comparator(sortfeeds, control))
      ensures DriversFirst(clients, control)
    {
      hide Sound, Acyclic, DriversUnfed;
      SoundSort(View());
      var g: Dag := sortfeeds;
      SortedClients(clients, g, control);
      clients := Sort(clients, Comparator(g, control));
      PermutationFacts(old(clients), clients);
    }

    // ----- Looking for leftover feedback

    /** In the middle of turning connections around: only directions and sortfeeds have
        changed, and they still agree with each other. */
    ghost predicate PartlyTurned(s: State)
      reads this
    {
      && View() == s.(conns := conns, sortfeeds := sortfeeds)
      && SameButAhead(s.conns, conns)
      && EndsOk(control, conns) && SortCounted(control, conns, sortfeeds)
    }

    method TurnConnection(k: ConnId, ghost s: State)
      requires PartlyTurned(s) && k in conns && conns[k].dir == -1
      modifies this`conns, this`sortfeeds
      ensures PartlyTurned(s) && conns == old(conns)[k := Ahead(old(conns)[k])]
    {
      hide EndsOk, SortCounted, Mult, Count;
      var c := conns[k];
      TurnOneCounted(control, conns, sortfeeds, k);
      EndsListed(control, conns, sortfeeds, k);
      AheadOnce(s.conns, conns, k);
      hide SameButAhead;
      conns := conns[k := c.(dir := 1)];
      sortfeeds := sortfeeds[c.dstclient := RemoveFirst(sortfeeds[c.dstclient], c.srcclient)];
      sortfeeds := sortfeeds[c.srcclient := [c.dstclient] + sortfeeds[c.srcclient]];
    }

    method TurnPort(p: PortId, ghost s: State)
      requires PartlyTurned(s) && Wired(s) && p in ports
      modifies this`conns, this`sortfeeds
      ensures PartlyTurned(s) && PortTurned(connections, conns, p)
      ensures SameButAhead(old(conns), conns)
    {
      hide EndsOk, SortCounted, Wired;
      PortFacts(s, p);
      var list := connections[p];
      for i := 0 to |list|
        invariant PartlyTurned(s) && SameButAhead(old(conns), conns)
        invariant forall j :: 0 <= j < i && list[j] in conns ==> conns[list[j]].dir != -1
      {
        if conns[list[i]].dir == -1 { TurnConnection(list[i], s); }
      }
    }

    method TurnClient(c: ClientId, ghost s: State)
      requires PartlyTurned(s) && Wired(s) && c in control
      modifies this`conns, this`sortfeeds
      ensures PartlyTurned(s) && ClientTurned(s, conns, c)
      ensures SameButAhead(old(conns), conns)
    {
      hide EndsOk, SortCounted, Wired, PortTurned;
      ClientPortFacts(s, c);
      var list := portsOf[c];
      for i := 0 to |list|
        invariant PartlyTurned(s) && SameButAhead(old(conns), conns)
        invariant forall j :: 0 <= j < i ==> PortTurned(connections, conns, list[j])
      {
        ghost var before := conns;
        TurnPort(list[i], s);
        forall j | 0 <= j < i
          ensures PortTurned(connections, conns, list[j])
        {
          PortStaysTurned(connections, before, conns, list[j]);
        }
      }
    }

    /** The second half of jack_check_acyclic: every connection of every port of every client. */
    method TurnAround()
      requires Valid() && Turnable(View())
      modifies this`conns, this`sortfeeds, this`feedbackcount
      ensures Valid() && TurnedFrom(old(View()), View())
    {
      hide Sound, Acyclic, Conserved, Wired, EndsOk, SortCounted, NoFeedback, SameButAhead, TurnedFrom, Lists;
      ghost var s := View();
      SoundParts(s);
      SameButAheadKeys(s.conns, s.conns);
      TurnAll(s);
      SameButAheadKeys(s.conns, conns);
      assert FreshIds();
      feedbackcount := 0;
      TurnedWhenDone(s, View());
      TurnedSound(s, View());
    }

    method TurnAll(ghost s: State)
      requires PartlyTurned(s) && Wired(s) && Lists(clients, control)
      modifies this`conns, this`sortfeeds
      ensures PartlyTurned(s) && NoFeedback(conns)
    {
      hide Wired, EndsOk, SortCounted, NoFeedback, ClientTurned, SameButAhead;
      for i := 0 to |clients|
        invariant PartlyTurned(s)
        invariant forall j :: 0 <= j < i ==> ClientTurned(s, conns, clients[j])
      {
        ghost var before := conns;
        TurnClient(clients[i], s);
        forall j | 0 <= j < i
          ensures ClientTurned(s, conns, clients[j])
        {
          ClientStaysTurned(s, before, conns, clients[j]);
        }
      }
      NoFeedbackLeft(s, conns);
    }

    /** jack_check_acyclic. */
    method CheckAcyclic() returns (turned: bool)
      requires Valid()
      modifies this`conns, this`sortfeeds, this`feedbackcount
      ensures Valid()
      ensures turned <==> Turnable(old(View()))
      ensures turned ==> TurnedFrom(old(View()), View())
      ensures !turned ==> View() == old(View())
    {
      hide Turnable, TurnedFrom, Conserved, Wired, Acyclic;
      turned := SortPossible(clients, truefeeds, fedcount, View());
      if turned { TurnAround(); }
    }

    // ----- Connecting

    /** The checks made before anything is changed. */
    method CheckConnect(source: PortId, destination: PortId) returns (status: Status)
      requires Valid()
      ensures status == ConnectStatus(View(), source, destination)
    {
      hide Sound, Wired, Conserved, EndsOk, SortCounted, Acyclic;
      ghost var s := View();
      SoundParts(s);
      if source !in ports || destination !in ports { return Failed; }
      if !ports[destination].isInput || ports[source].isInput { return Failed; }
      if ports[source].ptype != ports[destination].ptype { return Failed; }
      PortFacts(s, source);
      PortFacts(s, destination);
      var srcclient, dstclient := ports[source].owner, ports[destination].owner;
      if !control[srcclient].active || !control[dstclient].active { return Failed; }
      var list := connections[source];
      for i := 0 to |list|
        invariant forall j :: 0 <= j < i ==> conns[list[j]].destination != destination
      {
        if conns[list[i]].destination == destination {
          AlreadyJoined(s, list[i], source, destination);
          return Exists;
        }
      }
      NotJoinedAtAll(s, source, destination);
      if connections[destination] != [] && !ports[destination].hasMixdown {
        assert connections[destination][0] in connections[destination];
        return Failed;
      }
      status := Ok;
    }

    /** jack_port_do_connect. */
    method Connect(source: PortId, destination: PortId) returns (status: Status)
      requires Valid()
      modifies this
      ensures Valid() && nextClient == old(nextClient)
      ensures status == ConnectStatus(old(View()), source, destination)
      ensures ConnectAnswer(old(View()), View(), source, destination, status)
      ensures Steady(old(View()), View())
      ensures status != Ok ==> View() == old(View()) && clients == old(clients)
      ensures status == Ok ==>
        && source in old(ports) && destination in old(ports) && old(nextConn) !in old(conns)
        && Known(old(View()), NewConnection(old(View()), source, destination))
        && View() == Connected(old(View()), old(nextConn), NewConnection(old(View()), source, destination))
        && nextConn == old(nextConn) + 1 && clients == Sort(old(clients), Comparator(sortfeeds, control))
    {
      hide Valid, Sound, Connected, Known, NewConnection, ConnectStatus, Steady, ConnectAnswer, Acyclic, Sort;
      ghost var s := View();
      SoundNow();
      status := MakeConnection(source, destination);
      ConnectResult(s, nextConn - 1, View(), source, destination, status);
    }

    method MakeConnection(source: PortId, destination: PortId) returns (status: Status)
      requires Valid()
      modifies this
      ensures Valid() && nextClient == old(nextClient)
      ensures status == ConnectStatus(old(View()), source, destination)
      ensures status != Ok ==> View() == old(View()) && clients == old(clients)
      ensures status == Ok ==>
        && source in old(ports) && destination in old(ports) && old(nextConn) !in old(conns)
        && Known(old(View()), NewConnection(old(View()), source, destination))
        && View() == Connected(old(View()), old(nextConn), NewConnection(old(View()), source, destination))
        && nextConn == old(nextConn) + 1
        && Acyclic(sortfeeds) && clients == Sort(old(clients), Comparator(sortfeeds, control))
    {
      hide Sound, Wired, Conserved, Connected, Known, NewConnection, ConnectStatus;
      status := CheckConnect(source, destination);
      if status == Ok {
        ghost var s := View();
        ghost var c := PermittedConnection(s, source, destination, nextConn);
        Link(source, destination, ports[source].owner, ports[destination].owner, s);
        SortGraph();
      }
    }

    /** The feed lists and counters for a connection that is not refused. */
    method Feed(srcclient: ClientId, dstclient: ClientId) returns (dir: int)
      requires Acyclic(sortfeeds)
      requires srcclient in truefeeds && srcclient in sortfeeds && dstclient in sortfeeds && dstclient in fedcount
      modifies this`truefeeds, this`sortfeeds, this`fedcount, this`feedbackcount
      ensures dir == NewDir(control, old(sortfeeds), srcclient, dstclient)
      ensures IsDriver(control, dstclient) || srcclient == dstclient ==>
        && truefeeds == old(truefeeds) && sortfeeds == old(sortfeeds)
        && fedcount == old(fedcount) && feedbackcount == old(feedbackcount)
      ensures !IsDriver(control, dstclient) && srcclient != dstclient ==>
        && truefeeds == Prepend(old(truefeeds), srcclient, dstclient)
        && fedcount == old(fedcount)[dstclient := old(fedcount)[dstclient] + 1]
        && sortfeeds == (if dir == -1 then Prepend(old(sortfeeds), dstclient, srcclient)
                         else Prepend(old(sortfeeds), srcclient, dstclient))
        && feedbackcount == old(feedbackcount) + One(dir == -1)
    {
      hide Acyclic, Reaches;
      if IsDriver(control, dstclient) {
        dir := 1;
      } else if srcclient != dstclient {
        truefeeds := truefeeds[srcclient := [dstclient] + truefeeds[srcclient]];
        fedcount := fedcount[dstclient := fedcount[dstclient] + 1];
        if FeedsTransitive(sortfeeds, dstclient, srcclient)
           || (IsDriver(control, dstclient) && !IsDriver(control, srcclient)) {
          sortfeeds := sortfeeds[dstclient := [srcclient] + sortfeeds[dstclient]];
          dir := -1;
          feedbackcount := feedbackcount + 1;
        } else {
          sortfeeds := sortfeeds[srcclient := [dstclient] + sortfeeds[srcclient]];
          dir := 1;
        }
      } else {
        dir := 0;
      }
    }

    /** The same and the port lists. */
    method Link(source: PortId, destination: PortId, srcclient: ClientId, dstclient: ClientId, ghost s: State)
      requires s == View() && Acyclic(sortfeeds)
      requires source in ports && destination in ports
      requires srcclient == ports[source].owner && dstclient == ports[destination].owner
      requires Known(s, NewConnection(s, source, destination))
      modifies this`truefeeds, this`sortfeeds, this`fedcount, this`feedbackcount,
               this`conns, this`connections, this`nextConn
      ensures nextConn == old(nextConn) + 1
      ensures View() == Connected(s, old(nextConn), NewConnection(s, source, destination))
    {
      hide Acyclic, Reaches, IsDriver, NewDir;
      var dir := Feed(srcclient, dstclient);
      var k := nextConn;
      nextConn := nextConn + 1;
      conns := conns[k := Connection(source, destination, srcclient, dstclient, dir)];
      connections := connections[destination := [k] + connections[destination]];
      connections := connections[source := [k] + connections[source]];
    }

    // ----- Disconnecting

    /** The port lists, feed lists and counters for a connection that is dropped. */
    method Unlink(k: ConnId, ghost s: State)
      requires s == View() && k in conns && Known(s, conns[k])
      modifies this`truefeeds, this`sortfeeds, this`fedcount, this`feedbackcount, this`conns, this`connections
      ensures View() == Disconnected(s, k)
    {
      var c := conns[k];
      connections := connections[c.source := RemoveFirst(connections[c.source], k)];
      connections := connections[c.destination := RemoveFirst(connections[c.destination], k)];
      if c.dir != 0 { Unfeed(c); }
      conns := conns - {k};
    }

    method Unfeed(c: Connection)
      requires c.srcclient in truefeeds && c.srcclient in sortfeeds && c.dstclient in sortfeeds && c.dstclient in fedcount
      modifies this`truefeeds, this`sortfeeds, this`fedcount, this`feedbackcount
      ensures truefeeds == Without(old(truefeeds), c.srcclient, c.dstclient)
      ensures fedcount == old(fedcount)[c.dstclient := old(fedcount)[c.dstclient] - 1]
      ensures sortfeeds == if c.dir == 1 then Without(old(sortfeeds), c.srcclient, c.dstclient)
                           else Without(old(sortfeeds), c.dstclient, c.srcclient)
      ensures feedbackcount == old(feedbackcount) - One(c.dir != 1)
    {
      hide RemoveFirst;
      truefeeds := truefeeds[c.srcclient := RemoveFirst(truefeeds[c.srcclient], c.dstclient)];
      fedcount := fedcount[c.dstclient := fedcount[c.dstclient] - 1];
      if c.dir == 1 {
        sortfeeds := sortfeeds[c.srcclient := RemoveFirst(sortfeeds[c.srcclient], c.dstclient)];
      } else {
        sortfeeds := sortfeeds[c.dstclient := RemoveFirst(sortfeeds[c.dstclient], c.srcclient)];
        feedbackcount := feedbackcount - 1;
      }
    }

    /** The search through the source port's list. */
    method FindConnection(source: PortId, destination: PortId) returns (found: bool, k: ConnId)
      requires Valid() && source in ports
      ensures found ==> k in conns && Joins(conns[k], source, destination)
      ensures !found ==> forall j :: j in conns ==> !Joins(conns[j], source, destination)
    {
      hide Sound, Wired, Conserved;
      ghost var s := View();
      SoundParts(s);
      PortFacts(s, source);
      var list := connections[source];
      for i := 0 to |list|
        invariant forall j :: 0 <= j < i ==> !Joins(conns[list[j]], source, destination)
      {
        if Joins(conns[list[i]], source, destination) { return true, list[i]; }
      }
      NotJoinedAtAll(s, source, destination);
      return false, 0;
    }

    /** jack_port_disconnect_internal. The second result names the connection dropped. */
    method DisconnectInternal(source: PortId, destination: PortId) returns (status: Status, ghost gone: ConnId)
      requires Valid() && source in ports && destination in ports
      modifies this
      ensures Valid() && nextClient == old(nextClient) && nextConn == old(nextConn)
      ensures status == Ok || status == Failed
      ensures status == Ok ==>
        && gone in old(conns) && Joins(old(conns)[gone], source, destination) && Known(old(View()), old(conns)[gone])
        && Settled(Disconnected(old(View()), gone), View(), old(feedbackcount) != 0)
      ensures status == Failed ==>
        && (forall k :: k in old(conns) ==> !Joins(old(conns)[k], source, destination))
        && Settled(old(View()), View(), old(feedbackcount) != 0)
      ensures Tight(View()) && Steady(old(View()), View()) && DisconnectAnswer(old(View()), View(), source, destination, status)
      ensures clients == Sort(old(clients), Comparator(sortfeeds, control))
    {
      hide Valid, Sound, Disconnected, Settled, Known, Joins, Steady, Tight, DisconnectAnswer, Acyclic, Sort;
      ghost var s := View();
      SoundNow();
      status, gone := DropPair(source, destination);
      if status == Ok { DisconnectResult(s, gone, View(), source, destination); }
      else { NothingToDisconnect(s, View(), source, destination); }
    }

    lemma SoundNow()
      requires Valid()
      ensures Sound(View()) && forall c :: c in control ==> c < nextClient
    {
    }

    method DropPair(source: PortId, destination: PortId) returns (status: Status, ghost gone: ConnId)
      requires Valid() && source in ports && destination in ports
      modifies this
      ensures Valid() && nextClient == old(nextClient) && nextConn == old(nextConn)
      ensures status == Ok || status == Failed
      ensures status == Ok ==>
        && gone in old(conns) && Joins(old(conns)[gone], source, destination) && Known(old(View()), old(conns)[gone])
        && Settled(Disconnected(old(View()), gone), View(), old(feedbackcount) != 0)
      ensures status == Failed ==>
        && (forall k :: k in old(conns) ==> !Joins(old(conns)[k], source, destination))
        && Settled(old(View()), View(), old(feedbackcount) != 0)
      ensures Acyclic(sortfeeds) && clients == Sort(old(clients), Comparator(sortfeeds, control))
    {
      hide Sound, Wired, Conserved, Disconnected, Turnable, TurnedFrom, Known, Joins;
      var check := feedbackcount != 0;
      var found, k := FindConnection(source, destination);
      status, gone := if found then Ok else Failed, k;
      if found {
        ghost var s := View();
        DisconnectSound(s, k);
        DisconnectedFacts(s, k);
        Unlink(k, s);
      }
      if check {
        var turned := CheckAcyclic();
      }
      SortGraph();
    }

    /** jack_port_clear_connections. */
    method ClearConnections(p: PortId)
      requires Valid() && p in ports
      modifies this
      ensures Valid() && nextClient == old(nextClient) && nextConn == old(nextConn)
      ensures Trimmed(old(View()), View()) && conns.Keys == NotTouching(old(conns), [p])
      ensures multiset(clients) == multiset(old(clients))
    {
      hide Sound, Wired, Conserved, Trimmed, NotTouching, SomeAhead, ToSet, Lists;
      ghost var s := View();
      SoundParts(s);
      PortFacts(s, p);
      AllOfList(s, p);
      var list := connections[p];
      TrimmedRefl(s);
      assert list[..0] == [] && ToSet<ConnId>([]) == {} by { EmptyToSet<ConnId>(); }
      for i := 0 to |list|
        invariant Valid() && nextClient == old(nextClient) && nextConn == old(nextConn)
        invariant Trimmed(s, View()) && p in ports && p in connections && connections[p] == list[i..]
        invariant conns.Keys == s.conns.Keys - ToSet(list[..i])
        invariant multiset(clients) == multiset(old(clients))
      {
        ghost var t := View();
        DropHead(p, list[i]);
        TrimmedTransitive(s, t, View());
        TrimmedPorts(s, View());
        assert list[i..][1..] == list[i + 1..];
        SetOfPrefix(list, i);
      }
      assert list[..|list|] == list;
    }

    /** One turn of that loop: the connection at the head of the port's list goes. */
    method DropHead(p: PortId, k: ConnId)
      requires Valid() && p in ports && p in connections && connections[p] != [] && connections[p][0] == k
      modifies this
      ensures Valid() && nextClient == old(nextClient) && nextConn == old(nextConn)
      ensures Trimmed(old(View()), View()) && conns.Keys == old(conns).Keys - {k}
      ensures p in connections && connections[p] == old(connections)[p][1..]
      ensures multiset(clients) == multiset(old(clients))
    {
      hide Sound, Wired, Conserved, Trimmed, Disconnected, Settled, Known, AllConnsOk;
      ghost var s := View();
      SoundParts(s);
      PortFacts(s, p);
      assert k in connections[p];
      EndPorts(s, k);
      var status, gone := DisconnectInternal(conns[k].source, conns[k].destination);
      assert Joins(s.conns[k], s.conns[k].source, s.conns[k].destination);
      UniqueConnection(s, gone, k);
      StepFacts(s, k, View());
      HeadDropped(s, k, p);
      SoundParts(View());
      SortPermutes(old(clients), Comparator(sortfeeds, control));
    }

    // ----- Ports

    /** jack_get_free_port and the graph side of jack_port_do_register. */
    method RegisterPort(owner: ClientId, isInput: bool, ptype: nat, hasMixdown: bool)
      returns (status: Status, p: PortId)
      requires Valid() && (owner in control ==> !control[owner].dead)
      modifies this`ports, this`portsOf, this`connections, owners
      ensures Valid()
      ensures status == Ok || status == Failed
      ensures status == Failed <==> owner !in control || forall q :: 0 <= q < portMax ==> q in old(ports)
      ensures status == Failed ==> View() == old(View())
      ensures status == Ok ==>
        && p < portMax && p !in old(ports) && (forall q :: 0 <= q < p ==> q in old(ports)) && owner in old(portsOf)
        && View() == PortAdded(old(View()), p, Port(owner, isInput, ptype, hasMixdown))
    {
      hide Sound, Wired, Conserved, Lists;
      SoundParts(View());
      p := 0;
      if owner !in control { return Failed, 0; }
      while p < portMax && p in ports
        invariant p <= portMax && forall q :: 0 <= q < p ==> q in ports
      {
        p := p + 1;
      }
      if p == portMax { return Failed, 0; }
      status := Ok;
      PortAddedSound(View(), p, Port(owner, isInput, ptype, hasMixdown));
      EnterPort(p, Port(owner, isInput, ptype, hasMixdown));
      hide PortAdded;
    }

    /** The record of a new port. */
    method EnterPort(p: PortId, port: Port)
      requires SlotsOk() && p < portMax && port.owner in portsOf
      modifies this`ports, this`portsOf, this`connections, owners
      ensures SlotsOk() && View() == PortAdded(old(View()), p, port)
    {
      owners[p] := port.owner;
      ports := ports[p := port];
      connections := connections[p := []];
      portsOf := portsOf[port.owner := [p] + portsOf[port.owner]];
    }

    /** Clear a port and take it off its client's list. */
    method DropPort(p: PortId)
      requires Valid() && p in ports
      modifies this
      ensures Valid() && nextClient == old(nextClient) && nextConn == old(nextConn)
      ensures old(ports)[p].owner in old(portsOf)
      ensures control == old(control) && ports == old(ports) - {p}
      ensures portsOf == Without(old(portsOf), old(ports)[p].owner, p)
      ensures SomeAhead(old(conns), conns) && conns.Keys == NotTouching(old(conns), [p])
      ensures Shed(old(View()), View())
      ensures multiset(clients) == multiset(old(clients))
    {
      hide Sound, Wired, Conserved, NotTouching, SomeAhead, Lists, Steady, Balanced;
      ghost var s := View();
      SoundParts(s);
      PortFacts(s, p);
      ClearConnections(p);
      Untouched(s.conns, conns, p);
      PortDroppedSound(View(), p);
      ghost var t := View();
      SteadyOn(s, t, PortDropped(t, p));
      ErasePort(p);
    }

    method ErasePort(p: PortId)
      requires SlotsOk() && p in ports && ports[p].owner in portsOf
      modifies this`ports, this`portsOf, this`connections
      ensures SlotsOk() && View() == PortDropped(old(View()), p)
    {
      var owner := ports[p].owner;
      ports := ports - {p};
      connections := connections - {p};
      portsOf := portsOf[owner := RemoveFirst(portsOf[owner], p)];
    }

    /** jack_port_do_unregister: only the client id left in the slot is looked at, so that a
        slot released already is released once more, to no effect. */
    method UnregisterPort(client: ClientId, p: PortId) returns (status: Status)
      requires Valid()
      modifies this
      ensures Valid() && nextClient == old(nextClient) && nextConn == old(nextConn)
      ensures status == if p < portMax && owners[p] == client && client in old(control) then Ok else Failed
      ensures status == Failed || p !in old(ports) ==> View() == old(View()) && clients == old(clients)
      ensures status == Ok && p in old(ports) ==>
        && client in old(portsOf) && control == old(control) && ports == old(ports) - {p}
        && portsOf == Without(old(portsOf), client, p)
        && SomeAhead(old(conns), conns) && conns.Keys == NotTouching(old(conns), [p])
      ensures Steady(old(View()), View()) && control == old(control)
    {
      hide Sound, Wired, Conserved, Steady, Balanced;
      SteadyRefl(View());
      if p >= portMax || owners[p] != client || client !in control { return Failed; }
      if p in ports { DropPort(p); }
      status := Ok;
    }

    /** jack_client_disconnect_ports. A released port leaves the client's list at once
        here rather than with the others at the end. */
    method StripClient(c: ClientId)
      requires Valid() && c in control
      modifies this
      ensures Valid() && nextClient == old(nextClient) && nextConn == old(nextConn)
      ensures Stripped(old(View()), View(), c)
      ensures c in truefeeds && truefeeds[c] == [] && c in sortfeeds && sortfeeds[c] == []
      ensures forall a :: a in control ==> a in truefeeds && a in sortfeeds && c !in truefeeds[a] && c !in sortfeeds[a]
      ensures multiset(clients) == multiset(old(clients))
    {
      hide Sound, Wired, Conserved, PartlyStripped, Stripped, Lists;
      ghost var s := View();
      DropPorts(c);
      SoundParts(View());
      StrippedAtLast(s, View(), c);
      LeftAlone(View(), c);
      assert truefeeds[c := []] == truefeeds && sortfeeds[c := []] == sortfeeds;
      truefeeds := truefeeds[c := []];
      sortfeeds := sortfeeds[c := []];
    }

    method DropPorts(c: ClientId)
      requires Valid() && c in control
      modifies this
      ensures Valid() && nextClient == old(nextClient) && nextConn == old(nextConn)
      ensures control == old(control) && c in portsOf && portsOf[c] == [] && PartlyStripped(old(View()), View(), c)
      ensures multiset(clients) == multiset(old(clients))
    {
      hide Sound, Wired, Conserved, PartlyStripped, NotTouching, SomeAhead, Lists, Without, Shed;
      ghost var s := View();
      SoundParts(s);
      PartlyStrippedRefl(s, c);
      while portsOf[c] != []
        invariant Valid() && nextClient == old(nextClient) && nextConn == old(nextConn)
        invariant control == s.control && c in portsOf && PartlyStripped(s, View(), c)
        invariant multiset(clients) == multiset(old(clients))
        decreases |portsOf[c]|
      {
        ghost var t := View();
        SoundParts(t);
        ClientPortFacts(t, c);
        var p := portsOf[c][0];
        assert p in portsOf[c];
        DropPort(p);
        StripOne(s, t, View(), c, p);
        WithoutHead(t.portsOf, c, p);
      }
    }

    // ----- Clients

    /** setup_client: a new client goes to the front of the list, with nothing attached. */
    method AddClient(kind: ClientType) returns (c: ClientId)
      requires Valid()
      modifies this
      ensures Valid() && nextConn == old(nextConn) && nextClient == old(nextClient) + 1
      ensures c !in old(control) && c == old(nextClient)
      ensures View() == ClientAdded(old(View()), c, kind) && clients == [c] + old(clients)
    {
      hide Sound, Wired, Conserved, Lists;
      c := nextClient;
      ClientAddedSound(View(), c, kind);
      ListsWith(clients, control, c, Control(kind, false, false));
      nextClient := nextClient + 1;
      EnterClient(c, kind);
      hide ClientAdded;
    }

    /** The record of a new client. */
    method EnterClient(c: ClientId, kind: ClientType)
      modifies this`clients, this`control, this`portsOf, this`truefeeds, this`sortfeeds, this`fedcount
      ensures View() == ClientAdded(old(View()), c, kind) && clients == [c] + old(clients)
      ensures control == old(control)[c := Control(kind, false, false)]
    {
      control := control[c := Control(kind, false, false)];
      portsOf := portsOf[c := []];
      truefeeds, sortfeeds, fedcount := truefeeds[c := []], sortfeeds[c := []], fedcount[c := 0];
      clients := [c] + clients;
    }

    method SetFlags(c: ClientId, active: bool, dead: bool)
      requires Valid() && c in control
      requires active || Isolated(conns, c)
      requires dead ==> !active && c in portsOf && portsOf[c] == []
      modifies this`control
      ensures Valid() && View() == Flagged(old(View()), c, active, dead)
    {
      hide Sound, Wired, Conserved, Isolated;
      FlaggedSound(View(), c, active, dead);
      control := control[c := control[c].(active := active, dead := dead)];
    }

    /** jack_client_activate. */
    method Activate(c: ClientId) returns (status: Status)
      requires Valid() && (c in control ==> !control[c].dead)
      modifies this
      ensures Valid() && nextClient == old(nextClient) && nextConn == old(nextConn)
      ensures status == if c in old(control) then Ok else Failed
      ensures status == Failed ==> View() == old(View()) && clients == old(clients)
      ensures status == Ok ==>
        && View() == Flagged(old(View()), c, true, false)
        && clients == Sort(old(clients), Comparator(sortfeeds, control))
      ensures Steady(old(View()), View())
    {
      hide Sound, Wired, Conserved, Isolated, Steady;
      ghost var s := View();
      SteadyRefl(s);
      if c !in control { return Failed; }
      SetFlags(c, true, false);
      SteadyOn(s, s, View());
      SortGraph();
      status := Ok;
    }

    /** Clear every port of a client without dropping any. */
    method ClearClient(c: ClientId)
      requires Valid() && c in control
      modifies this
      ensures Valid() && nextClient == old(nextClient) && nextConn == old(nextConn)
      ensures Trimmed(old(View()), View()) && conns.Keys == NotOf(old(conns), c)
      ensures multiset(clients) == multiset(old(clients))
    {
      hide Valid, Sound, Wired, Conserved, Trimmed, NotTouching, NotOf, SomeAhead, EndsOk, SortCounted, Acyclic;
      SoundNow();
      ghost var s := View();
      SoundParts(s);
      ClientPortFacts(s, c);
      TouchesMeansOwns(s, c);
      TrimmedRefl(s);
      var list := portsOf[c];
      NothingTouched(s.conns, list);
      for i := 0 to |list|
        invariant Valid() && nextClient == old(nextClient) && nextConn == old(nextConn)
        invariant Trimmed(s, View()) && conns.Keys == NotTouching(s.conns, list[..i])
        invariant multiset(clients) == multiset(old(clients))
      {
        ghost var t := View();
        TrimmedPorts(s, t);
        ClearConnections(list[i]);
        TrimmedTransitive(s, t, View());
        NotTouchingMore(s.conns, t.conns, list[..i], list[i]);
        assert list[..i + 1] == list[..i] + [list[i]];
      }
      assert list[..|list|] == list;
    }

    /** jack_client_deactivate. */
    method Deactivate(c: ClientId) returns (status: Status)
      requires Valid()
      modifies this
      ensures Valid() && nextClient == old(nextClient) && nextConn == old(nextConn)
      ensures status == if c in old(control) then Ok else Failed
      ensures status == Failed ==> View() == old(View()) && clients == old(clients)
      ensures status == Ok ==>
        && control == old(control)[c := old(control)[c].(active := false)]
        && ports == old(ports) && portsOf == old(portsOf)
        && SomeAhead(old(conns), conns) && conns.Keys == NotOf(old(conns), c)
        && multiset(clients) == multiset(old(clients))
      ensures Steady(old(View()), View())
    {
      hide Sound, Wired, Conserved, NotOf, Lists, SomeAhead, Isolated, Steady;
      ghost var s := View();
      SteadyRefl(s);
      if c !in control { return Failed; }
      SoundParts(s);
      ClientPortFacts(s, c);
      ClearClient(c);
      NotOfIsolated(s.conns, conns, c);
      ghost var t := View();
      SwitchOff(c);
      SteadyTwice(s, t, View());
      status := Ok;
    }

    /** jack_client_do_deactivate. */
    method SwitchOff(c: ClientId)
      requires Valid() && c in control && Isolated(conns, c)
      requires control[c].dead ==> c in portsOf && portsOf[c] == []
      modifies this`control, this`clients
      ensures Valid() && control == old(control)[c := old(control)[c].(active := false)]
      ensures multiset(clients) == multiset(old(clients)) && Steady(old(View()), View())
    {
      hide Sound, Lists, Isolated, Steady;
      ghost var s := View();
      SteadyRefl(s);
      SetFlags(c, false, control[c].dead);
      SteadyOn(s, s, View());
      SortGraph();
      SortPermutes(old(clients), Comparator(sortfeeds, control));
    }

    /** jack_zombify_client. The client is marked dead together with being switched off,
        after its ports are gone; nothing in between looks at the mark. */
    method Zombify(c: ClientId)
      requires Valid() && c in control
      modifies this
      ensures Valid() && nextClient == old(nextClient) && nextConn == old(nextConn)
      ensures Stripped(old(View()), View().(control := old(control)), c)
      ensures control == old(control)[c := old(control)[c].(active := false, dead := true)]
      ensures multiset(clients) == multiset(old(clients))
    {
      hide Sound, Wired, Conserved, NotOf, Lists, Isolated;
      StripClient(c);
      LeftAlone(View(), c);
      SetFlags(c, false, true);
    }

    /** Take a client without ports off the list and delete its record. */
    method Forget(c: ClientId)
      requires Valid() && c in control && c in portsOf && portsOf[c] == []
      modifies this
      ensures Valid() && nextClient == old(nextClient) && nextConn == old(nextConn)
      ensures View() == ClientRemoved(old(View()), c)
      ensures multiset(clients) == multiset(old(clients)) - multiset{c}
    {
      hide Sound, Wired, Conserved, Lists;
      ClientRemovedSound(View(), c);
      ListsWithout(clients, control, c);
      EraseClient(c);
      hide ClientRemoved;
    }

    method EraseClient(c: ClientId)
      modifies this`clients, this`control, this`portsOf, this`truefeeds, this`sortfeeds, this`fedcount
      ensures View() == ClientRemoved(old(View()), c) && clients == RemoveFirst(old(clients), c)
      ensures control == old(control) - {c}
    {
      clients := RemoveFirst(clients, c);
      control, portsOf := control - {c}, portsOf - {c};
      truefeeds, sortfeeds, fedcount := truefeeds - {c}, sortfeeds - {c}, fedcount - {c};
    }

    /** jack_remove_client. */
    method Remove(c: ClientId)
      requires Valid() && c in control
      modifies this
      ensures Valid() && nextClient == old(nextClient) && nextConn == old(nextConn)
      ensures Removed(old(View()), View(), c)
      ensures multiset(clients) == multiset(old(clients)) - multiset{c}
    {
      hide Sound, Wired, Conserved, Lists, Removed, Stripped, ClientRemoved;
      ghost var s := View();
      SoundParts(s);
      ClientPortFacts(s, c);
      if !control[c].dead { Zombify(c); } else { PortlessStripped(s, c); }
      ghost var t := View();
      StrippedFacts(s, t.(control := s.control), c);
      LeftAlone(t, c);
      Forget(c);
      RemovedFacts(s, t, c);
    }

    // ----- Runs

    /** do_request: requests are read only from clients that are not dead, and carry
        the identity of the client they were read from. */
    method Handle(sender: ClientId, request: Request) returns (status: Status)
      requires Valid()
      modifies this, owners
      ensures Valid() && nextClient == old(nextClient)
      ensures Answered(old(View()), View(), sender, request, status)
      ensures request.RegisterPort? && sender in old(control) && !old(control)[sender].dead ==>
                (status == Failed <==> forall p :: 0 <= p < portMax ==> p in old(ports))
      ensures control.Keys <= old(control.Keys) && NoneForgiven(old(View()), View())
      ensures Tight(old(View())) && !(request.UnloadClient? && LeavesDebt(old(View()), request.client)) ==> Tight(View())
    {
      hide Sound, Steady, Tight, NoneForgiven, LeavesDebt;
      ghost var s := View();
      ForgivesNothing(s);
      if sender !in control || control[sender].dead { return Failed; }
      hide Performed;
      match request
      case UnloadClient(c) => status := Unload(sender, c);
      case _ => status := HandleOther(sender, request); SteadyMeans(s, View());
    }

    /** A request that removes no client. */
    method HandleOther(sender: ClientId, request: Request) returns (status: Status)
      requires Valid() && sender in control && !control[sender].dead && !request.UnloadClient?
      modifies this, owners
      ensures Valid() && nextClient == old(nextClient) && control.Keys == old(control.Keys)
      ensures Performed(old(View()), View(), sender, request, status)
      ensures request.RegisterPort? ==> (status == Failed <==> forall p :: 0 <= p < portMax ==> p in old(ports))
      ensures Steady(old(View()), View())
    {
      hide Sound, Steady, ConnectAnswer, DisconnectAnswer, NotTouching, SomeAhead, OnePort, NotOf;
      match request
      case RegisterPort(isInput, ptype, hasMixdown) => status := HandleRegister(sender, isInput, ptype, hasMixdown);
      case UnRegisterPort(p) => status := HandleUnregister(sender, p);
      case ConnectPorts(source, destination) => status := Connect(source, destination);
      case DisconnectPorts(source, destination) => status := HandleDisconnect(source, destination);
      case DisconnectPort(p) => status := DisconnectAll(p);
      case ActivateClient => status := Activate(sender);
      case DeactivateClient => status := Deactivate(sender);
    }

    method Unload(ghost sender: ClientId, c: ClientId) returns (status: Status)
      requires Valid()
      modifies this
      ensures Valid() && nextClient == old(nextClient)
      ensures Performed(old(View()), View(), sender, UnloadClient(c), status)
      ensures control.Keys <= old(control.Keys) && NoneForgiven(old(View()), View())
      ensures Tight(old(View())) && !LeavesDebt(old(View()), c) ==> Tight(View())
    {
      hide Sound, NoneForgiven, Tight, LeavesDebt, Removed;
      ghost var s := View();
      ForgivesNothing(s);
      if c !in control { return Failed; }
      Remove(c);
      RemovedSteady(s, View(), c);
      status := Ok;
    }

    method HandleRegister(sender: ClientId, isInput: bool, ptype: nat, hasMixdown: bool) returns (status: Status)
      requires Valid() && sender in control && !control[sender].dead
      modifies this`ports, this`portsOf, this`connections, owners
      ensures Valid() && Steady(old(View()), View()) && status != Exists
      ensures status == Failed <==> forall p :: 0 <= p < portMax ==> p in old(ports)
      ensures status == Failed ==> View() == old(View())
      ensures status == Ok ==> OnePort(old(View()), View(), Port(sender, isInput, ptype, hasMixdown))
    {
      hide Sound, Steady;
      ghost var s := View();
      SteadyRefl(s);
      var p;
      status, p := RegisterPort(sender, isInput, ptype, hasMixdown);
      SteadyOn(s, s, View());
      if status == Ok { assert p in ports && p !in s.ports; }
    }

    method HandleUnregister(sender: ClientId, p: PortId) returns (status: Status)
      requires Valid() && sender in control
      modifies this
      ensures Valid() && nextClient == old(nextClient) && control == old(control) && Steady(old(View()), View())
      ensures status == Failed ==> View() == old(View()) && (p in old(ports) ==> old(ports)[p].owner != sender)
      ensures status == Ok ==> PortGone(old(View()), View(), p) && (p in old(ports) ==> old(ports)[p].owner == sender)
      ensures status != Exists
    {
      hide Sound, Steady, NotTouching;
      ghost var s := View();
      if p !in ports { NothingThere(s, p); }
      assert s.ports - {p} == s.ports || p in ports;
      status := UnregisterPort(sender, p);
    }

    method HandleDisconnect(source: PortId, destination: PortId) returns (status: Status)
      requires Valid()
      modifies this
      ensures Valid() && nextClient == old(nextClient) && control == old(control) && Steady(old(View()), View())
      ensures DisconnectAnswer(old(View()), View(), source, destination, status)
    {
      hide Sound, Settled, Disconnected, Known, Steady;
      ghost var s := View();
      SteadyRefl(s);
      if source !in ports || destination !in ports { return Failed; }
      ghost var gone;
      status, gone := DisconnectInternal(source, destination);
    }

    /** jack_port_do_disconnect_all: any slot number will do, in use or not. */
    method DisconnectAll(p: PortId) returns (status: Status)
      requires Valid()
      modifies this
      ensures Valid() && nextClient == old(nextClient)
      ensures status == if p < portMax then Ok else Failed
      ensures status == Failed ==> View() == old(View()) && p !in ports
      ensures Trimmed(old(View()), View()) && conns.Keys == NotTouching(old(conns), [p])
    {
      hide Sound, SomeAhead, NotTouching, Shed;
      ghost var s := View();
      TrimmedRefl(s);
      if p !in ports { NothingThere(s, p); }
      if p >= portMax { return Failed; }
      if p in ports { ClearConnections(p); }
      SortGraph();
      status := Ok;
    }

    /** Any run of the server, from any sound state: whatever clients ask and whichever
        of them fail, the rules hold throughout, the count of a driver that stays never
        rises, and as long as no driver leaves with its count off zero, feedback is
        present only while it cannot be turned around. */
    method Serve(events: seq<Event>) returns (ghost trace: seq<State>)
      requires Valid()
      modifies this, owners
      ensures Valid()
      ensures Acyclic(sortfeeds) && DriversUnfed(control, sortfeeds) && Conserved(View())
      ensures forall d :: IsDriver(old(control), d) && d in control ==>
        IsDriver(control, d) && d in old(fedcount) && d in fedcount && fedcount[d] <= old(fedcount)[d]
      ensures IsTrace(trace, events) && trace[0] == old(View()) && trace[|events|] == View()
      ensures forall i :: 0 <= i <= |events| ==> Sound(trace[i])
      ensures Tight(old(View())) && (forall i :: 0 <= i < |events| ==> !DebtorLeaves(trace[i], events[i])) ==>
        forall i :: 0 <= i <= |events| ==> Tight(trace[i])
    {
      hide Valid, Sound, NoneForgiven, Conserved, Happened, Tight, DebtorLeaves, Wired, EndsOk, SortCounted, Acyclic;
      ghost var s := View();
      SoundNow();
      SoundParts(s);
      ForgivesNothing(s);
      trace := [s];
      for i := 0 to |events|
        invariant Valid() && nextClient >= old(nextClient) && NoneForgiven(s, View())
        invariant |trace| == i + 1 && trace[0] == s && trace[i] == View()
        invariant forall j :: 0 <= j < i ==> Happened(trace[j], trace[j + 1], events[j])
        invariant forall j :: 0 <= j <= i ==> Sound(trace[j])
        invariant Tight(s) && (forall j :: 0 <= j < i ==> !DebtorLeaves(trace[j], events[j])) ==>
          forall j :: 0 <= j <= i ==> Tight(trace[j])
      {
        ghost var t := View();
        SoundParts(t);
        Occur(events[i]);
        SoundNow();
        ForgivenTransitive(s, t, View());
        trace := trace + [View()];
      }
      SoundParts(View());
      SoundSort(View());
      CountsMonotone(s, View());
    }

    method Occur(event: Event)
      requires Valid()
      modifies this, owners
      ensures Valid() && nextClient >= old(nextClient) && NoneForgiven(old(View()), View())
      ensures forall d :: d in control ==> d in old(control) || d >= old(nextClient)
      ensures Happened(old(View()), View(), event)
      ensures Tight(old(View())) && !DebtorLeaves(old(View()), event) ==> Tight(View())
    {
      hide Sound, NoneForgiven, ClientAdded, Removed, Stripped, Tight, Answered, LeavesDebt;
      ghost var s := View();
      ForgivesNothing(s);
      match event
      case FromClient(sender, request) => var status := Handle(sender, request);
      case NewClient(kind) => Arrive(kind);
      case ClientFailed(c) => if c in control { Fail(c); }
      case ClientGone(c) =>
        if c in control {
          Remove(c);
          RemovedSteady(s, View(), c);
          SortGraph();
        }
    }

    method Arrive(kind: ClientType)
      requires Valid()
      modifies this
      ensures Valid() && nextClient >= old(nextClient) && NoneForgiven(old(View()), View())
      ensures forall d :: d in control ==> d in old(control) || d >= old(nextClient)
      ensures Happened(old(View()), View(), NewClient(kind))
      ensures Tight(old(View())) ==> Tight(View())
    {
      hide Sound, NoneForgiven, Tight;
      ghost var s := View();
      SoundParts(s);
      var c := AddClient(kind);
      AddSteady(s, c, kind);
      assert c in control && c !in s.control;
    }

    method Fail(c: ClientId)
      requires Valid() && c in control
      modifies this
      ensures Valid() && nextClient == old(nextClient) && control.Keys == old(control.Keys)
      ensures NoneForgiven(old(View()), View()) && Happened(old(View()), View(), ClientFailed(c))
      ensures Tight(old(View())) ==> Tight(View())
    {
      hide Sound, NoneForgiven, Tight, Stripped;
      ghost var s := View();
      Zombify(c);
      StrippedSteady(s, View(), c);
      SortGraph();
    }
  }
}
