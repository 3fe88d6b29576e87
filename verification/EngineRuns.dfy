/** Runs of the engine, from the first client on, that end where the rules would not have it. */
module EngineRuns {
  import opened AcyclicCheck
  import opened ClientOrder
  import opened Digraph
  import opened DriverDebt
  import opened Engine
  import opened FeedGraph
  import opened GraphSteps
  import opened MergeSort

  const IDLE: Control := Control(External, false, false)
  const ACTIVE: Control := Control(External, true, false)
  const DRIVER: Control := Control(Driver, true, false)

  // ----- A feed against the order

  ghost predicate NoDriver(control: map<ClientId, Control>) {
    forall c :: !IsDriver(control, c)
  }

  lemma StillNoDriver(control: map<ClientId, Control>, c: ClientId)
    requires NoDriver(control) && c in control
    ensures NoDriver(control[c := Control(control[c].kind, true, false)])
  {
    var next := control[c := Control(control[c].kind, true, false)];
    assert !IsDriver(control, c);
    forall d
      ensures !IsDriver(next, d)
    {
      assert !IsDriver(control, d);
    }
  }

  lemma NoRules(s: State, xs: seq<ClientId>)
    requires Sound(s) && s.conns == map[] && NoDriver(s.control)
    ensures Acyclic(s.sortfeeds) && DriversUnfed(s.control, s.sortfeeds)
    ensures AtMostFirstToThird(s.sortfeeds, s.control, xs)
  {
    hide Sound;
    SoundSort(s);
    NoConnections(s);
    forall a, b
      ensures !Reaches(s.sortfeeds, a, b)
    {
      NoWay(s.sortfeeds, a, b);
    }
  }

  /** A new client, as far as the runs below look at it. */
  method Add(e: Engine, kind: ClientType) returns (c: ClientId)
    requires e.Valid()
    modifies e
    ensures e.Valid() && c == old(e.nextClient) && e.nextClient == c + 1
    ensures e.control == old(e.control)[c := Control(kind, false, false)] && e.clients == [c] + old(e.clients)
    ensures e.ports == old(e.ports) && e.conns == old(e.conns)
  {
    hide Sound, Lists;
    c := e.AddClient(kind);
  }

  method Start(e: Engine, c: ClientId)
    requires e.Valid() && c in e.control && !e.control[c].dead
    modifies e
    ensures e.Valid() && e.nextClient == old(e.nextClient)
    ensures e.control == old(e.control)[c := Control(old(e.control)[c].kind, true, false)]
    ensures e.ports == old(e.ports) && e.conns == old(e.conns)
    ensures Acyclic(e.sortfeeds) && e.clients == Sort(old(e.clients), Comparator(e.sortfeeds, e.control))
  {
    hide Sound, Lists, Steady, Acyclic, Sort;
    var status := e.Activate(c);
    SoundSort(e.View());
  }

  /** Activating one of four clients without connections reverses the list. */
  method StartTied(e: Engine, c: ClientId, ghost w: ClientId, ghost x: ClientId, ghost y: ClientId, ghost z: ClientId)
    requires e.Valid() && c in e.control && !e.control[c].dead && e.conns == map[]
    requires NoDriver(e.control) && e.clients == [w, x, y, z]
    modifies e
    ensures e.Valid() && e.nextClient == old(e.nextClient)
    ensures e.control == old(e.control)[c := Control(old(e.control)[c].kind, true, false)]
    ensures e.ports == old(e.ports) && e.conns == map[] && e.clients == [z, y, x, w] && NoDriver(e.control)
  {
    hide Sound, Lists, Acyclic, Sort, AtMostFirstToThird;
    Start(e, c);
    StillNoDriver(old(e.control), c);
    NoRules(e.View(), [w, x, y, z]);
    FourReversed(e.sortfeeds, e.control, w, x, y, z);
  }

  /** Client c is as given. */
  ghost predicate Has(control: map<ClientId, Control>, c: ClientId, entry: Control) {
    c in control && control[c] == entry
  }

  method AddFour() returns (e: Engine)
    ensures fresh(e) && fresh(e.owners) && e.Valid() && e.portMax == 2 && e.ports == map[] && e.conns == map[]
    ensures Has(e.control, 1, IDLE) && Has(e.control, 2, IDLE) && Has(e.control, 3, IDLE) && NoDriver(e.control)
    ensures e.clients == [4, 3, 2, 1]
  {
    hide Engine.Valid;
    e := new Engine(2);
    var c1 := Add(e, External);
    var c2 := Add(e, External);
    var c3 := Add(e, External);
    var c4 := Add(e, External);
  }

  /** Four external clients, three of them activated. */
  method FourClients() returns (e: Engine)
    ensures fresh(e) && fresh(e.owners) && e.Valid() && e.portMax == 2 && e.ports == map[] && e.conns == map[]
    ensures Has(e.control, 1, ACTIVE) && Has(e.control, 3, ACTIVE) && NoDriver(e.control)
    ensures e.clients == [1, 2, 3, 4]
  {
    hide Engine.Valid, NoDriver;
    e := AddFour();
    StartTied(e, 1, 4, 3, 2, 1);
    StartTied(e, 2, 1, 2, 3, 4);
    StartTied(e, 3, 4, 3, 2, 1);
  }

  /** A new port in the given slot. */
  method Register(e: Engine, owner: ClientId, isInput: bool, p: PortId)
    requires e.Valid() && owner in e.control && !e.control[owner].dead
    requires p < e.portMax && p !in e.ports && forall q :: 0 <= q < p ==> q in e.ports
    modifies e`ports, e`portsOf, e`connections, e.owners
    ensures e.Valid() && e.ports == old(e.ports)[p := Port(owner, isInput, 0, true)]
  {
    hide Sound, Lists;
    var status, q := e.RegisterPort(owner, isInput, 0, true);
    assert q == p;
  }

  /** The first client comes to feed the third, and the list ends with the third ahead. */
  method SortMissesConstraint() returns (e: Engine)
    ensures e.Valid() && e.clients == [4, 3, 2, 1] && MustPrecede(e.sortfeeds, e.control, 1, 3)
    ensures Acyclic(e.sortfeeds) && e.feedbackcount == 0
  {
    hide Sound, Lists, Sort, Acyclic, Reaches, AtMostFirstToThird, ConnectStatus;
    e := FourClients();
    Register(e, 1, false, 0);
    Register(e, 3, true, 1);
    ghost var s, k := e.View(), e.nextConn;
    FreeToConnect(s, 0, 1);
    var status := e.Connect(0, 1);
    NoConnections(s);
    NoWay(s.sortfeeds, 3, 1);
    OneFeed(s, k, NewConnection(s, 0, 1), e.View());
    SoundSort(e.View());
    FourReversed(e.sortfeeds, e.control, 1, 2, 3, 4);
  }

  lemma FreeToConnect(s: State, source: PortId, destination: PortId)
    requires source in s.ports && destination in s.ports && s.conns == map[]
    requires !s.ports[source].isInput && s.ports[destination].isInput
    requires s.ports[source].ptype == s.ports[destination].ptype && s.ports[destination].hasMixdown
    requires Active(s, s.ports[source].owner) && Active(s, s.ports[destination].owner)
    ensures ConnectStatus(s, source, destination) == Ok
  {
  }

  lemma OneFeed(s: State, k: ConnId, c: Connection, t: State)
    requires Known(s, c) && t == Connected(s, k, c) && c.srcclient == 1 && c.dstclient == 3 && c.dir == 1
    requires s.feedbackcount == 0 && NoDriver(s.control)
    requires forall a, b :: !Edge(s.sortfeeds, a, b)
    ensures t.feedbackcount == 0 && MustPrecede(t.sortfeeds, t.control, 1, 3)
    ensures AtMostFirstToThird(t.sortfeeds, t.control, [1, 2, 3, 4])
  {
    var g := t.sortfeeds;
    assert g == Prepend(s.sortfeeds, 1, 3);
    forall a, b | Edge(g, a, b)
      ensures a == 1 && b == 3
    {
      assert !Edge(s.sortfeeds, a, b);
    }
    assert Edge(g, 1, 3);
    EdgeReaches(g, 1, 3);
    forall a, b | Reaches(g, a, b)
      ensures a == 1 && b == 3
    {
      var c := FirstStep(g, a, b);
      if c != b { var d := FirstStep(g, c, b); }
    }
  }

  // ----- Feedback without a cycle

  ghost predicate DriverAndTwo(control: map<ClientId, Control>) {
    Has(control, 1, DRIVER) && Has(control, 2, ACTIVE) && Has(control, 3, ACTIVE)
  }

  /** A driver with an input, and two clients with an output and an input each. */
  function FivePorts(): map<PortId, Port> {
    map[0 := Port(1, true, 0, true), 1 := Port(2, false, 0, true), 2 := Port(2, true, 0, true),
        3 := Port(3, true, 0, true), 4 := Port(3, false, 0, true)]
  }

  method AddThree() returns (e: Engine)
    ensures fresh(e) && fresh(e.owners) && e.Valid() && e.portMax == 5 && e.ports == map[] && e.conns == map[]
    ensures DriverAndTwo(e.control)
  {
    hide Engine.Valid, Sort, Acyclic;
    e := new Engine(5);
    var d := Add(e, Driver);
    var a := Add(e, External);
    var b := Add(e, External);
    Start(e, 1);
    Start(e, 2);
    Start(e, 3);
  }

  method WithPorts() returns (e: Engine)
    ensures fresh(e) && fresh(e.owners) && e.Valid() && e.conns == map[]
    ensures DriverAndTwo(e.control) && e.ports == FivePorts()
  {
    hide Engine.Valid;
    e := AddThree();
    Register(e, 1, true, 0);
    assert e.ports == map[0 := Port(1, true, 0, true)];
    Register(e, 2, false, 1);
    Register(e, 2, true, 2);
    assert e.ports == map[0 := Port(1, true, 0, true), 1 := Port(2, false, 0, true), 2 := Port(2, true, 0, true)];
    Register(e, 3, true, 3);
    Register(e, 3, false, 4);
  }

  /** Client 2 is connected to the driver and disconnected again: the driver's count is short. */
  method OwingDriver() returns (e: Engine)
    ensures fresh(e) && fresh(e.owners) && e.Valid() && e.conns == map[]
    ensures DriverAndTwo(e.control) && e.ports == FivePorts()
    ensures InDebt(e.View(), 1)
  {
    hide Sound, Lists, ConnectStatus, Turnable, TurnedFrom, Acyclic, Sort, Known;
    e := WithPorts();
    ghost var s, k := e.View(), e.nextConn;
    FreeToConnect(s, 1, 0);
    var status := e.Connect(1, 0);
    ghost var t := e.View();
    NoConnections(s);
    ghost var gone;
    status, gone := e.DisconnectInternal(1, 0);
    assert Joins(t.conns[k], 1, 0);
    DisconnectingDriverOwes(t, k);
  }

  const AHEAD: Connection := Connection(1, 3, 2, 3, 1)
  const BACK: Connection := Connection(4, 2, 3, 2, -1)

  /** Clients 2 and 3 are connected both ways; then the forward connection goes, and with it the
      cycle, but the other one is left as feedback. */
  method FeedbackOutlivesCycle() returns (e: Engine)
    ensures e.Valid() && Acyclic(e.truefeeds) && e.feedbackcount == 1
    ensures |e.conns| == 1 && exists k :: k in e.conns && e.conns[k].dir == -1
  {
    hide Engine.Valid, Sound, ConnectStatus, Turnable, Acyclic, Known, Connected, Disconnected, NewConnection, InDebt;
    e := OwingDriver();
    ghost var s, k := e.View(), e.nextConn;
    ValidIsSound(e);
    BeforeLoop(s);
    AfterDebt(s, AHEAD, BACK, k, 1);
    ConnectedFacts(s, k, AHEAD);
    Join(e, 1, 3, AHEAD);
    ghost var s2 := e.View();
    InLoop(s2, k);
    ConnectedFacts(s2, k + 1, BACK);
    Join(e, 4, 2, BACK);
    BreakLoop(e, k);
  }

  lemma ValidIsSound(e: Engine)
    requires e.Valid()
    ensures Sound(e.View())
  {
  }

  method Join(e: Engine, source: PortId, destination: PortId, ghost c: Connection)
    requires e.Valid() && source in e.ports && destination in e.ports
    requires ConnectStatus(e.View(), source, destination) == Ok && NewConnection(e.View(), source, destination) == c
    modifies e
    ensures e.Valid() && Known(old(e.View()), c) && e.View() == Connected(old(e.View()), old(e.nextConn), c)
    ensures e.nextConn == old(e.nextConn) + 1
  {
    hide Engine.Valid, ConnectStatus, Known, Connected, NewConnection;
    var status := e.Connect(source, destination);
  }

  method BreakLoop(e: Engine, ghost k: ConnId)
    requires e.Valid() && e.conns.Keys == {k, k + 1} && e.conns[k] == AHEAD && e.conns[k + 1] == BACK
    requires e.ports == FivePorts() && e.feedbackcount == 1 && Known(e.View(), AHEAD)
    requires var s := Disconnected(e.View(), k); Acyclic(s.truefeeds) && s.feedbackcount == 1 && !Turnable(s)
    modifies e
    ensures e.Valid() && Acyclic(e.truefeeds) && e.feedbackcount == 1
    ensures |e.conns| == 1 && exists k :: k in e.conns && e.conns[k].dir == -1
  {
    hide Sound, Lists, Turnable, TurnedFrom, Acyclic, Sort, Known, Disconnected;
    ghost var s := e.View();
    var status;
    ghost var gone;
    status, gone := e.DisconnectInternal(1, 3);
    assert Joins(s.conns[k], 1, 3);
    DisconnectedFacts(s, k);
    assert e.conns == map[k + 1 := BACK];
  }

  lemma BeforeLoop(s: State)
    requires Sound(s) && s.conns == map[] && InDebt(s, 1) && DriverAndTwo(s.control) && s.ports == FivePorts()
    ensures ConnectStatus(s, 1, 3) == Ok && NewConnection(s, 1, 3) == AHEAD
    ensures Known(s, AHEAD) && Known(s, BACK) && Constrains(s.control, AHEAD) && Constrains(s.control, BACK)
    ensures s.feedbackcount == 0 && forall a, b :: !Edge(s.sortfeeds, a, b) && !Edge(s.truefeeds, a, b)
  {
    hide Sound, Acyclic, Reaches, Wired, Conserved, EndsOk, SortCounted, InDebt, ConnectStatus;
    SoundParts(s);
    FreeToConnect(s, 1, 3);
    NoConnections(s);
    NoWay(s.sortfeeds, 3, 2);
  }

  lemma InLoop(s: State, k: ConnId)
    requires s.conns == map[k := AHEAD] && DriverAndTwo(s.control) && s.ports == FivePorts()
    requires NewDir(s.control, s.sortfeeds, 3, 2) == -1
    ensures ConnectStatus(s, 4, 2) == Ok && NewConnection(s, 4, 2) == BACK
  {
    hide Reaches, NewDir;
  }

  /** A driver in debt stays so, whatever is asked of the server, and as long as it stays no
      feedback is ever turned around again. */
  method DebtIsForGood(e: Engine, d: ClientId, events: seq<Event>) returns (turned: bool)
    requires e.Valid() && InDebt(e.View(), d)
    modifies e, e.owners
    ensures e.Valid() && (d in e.control ==> InDebt(e.View(), d) && !turned)
  {
    hide Sound, Lists, Turnable, TurnedFrom, Acyclic, Conserved;
    ghost var trace := e.Serve(events);
    ghost var s := e.View();
    turned := e.CheckAcyclic();
    if d in s.control { DebtStays(s, s, d); }
  }
}
