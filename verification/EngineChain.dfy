/** The chain of the clients as the engine lists them. */
module EngineChain {
  import opened ClientOrder
  import opened Engine
  import opened FeedGraph
  import Chain
  import Token
  import TokenFailure

  /** What rechaining sees of a client: drivers and internal clients run in the server. */
  function Links(clients: seq<ClientId>, control: map<ClientId, Control>, callbacks: set<ClientId>): seq<Chain.Client>
    requires forall c :: c in clients ==> c in control
  {
    seq(|clients|, i requires 0 <= i < |clients| =>
      var c := control[clients[i]];
      Chain.Client(c.kind != External, c.active, clients[i] in callbacks, c.dead))
  }

  ghost predicate NoneInternal(control: map<ClientId, Control>) {
    forall c :: c in control ==> control[c].kind != Internal
  }

  /** Drivers come first, so that without loaded internal clients nothing is stranded. */
  lemma SortedStrandsNone(clients: seq<ClientId>, control: map<ClientId, Control>, callbacks: set<ClientId>)
    requires (forall c :: c in clients ==> c in control) && DriversFirst(clients, control) && NoneInternal(control)
    ensures Chain.NoneStranded(Links(clients, control, callbacks))
  {
    var cl := Links(clients, control, callbacks);
    forall i | 0 <= i < |cl|
      ensures cl[i].internal <==> IsDriver(control, clients[i])
    {
      assert clients[i] in clients;
    }
  }

  /** Every list the engine sorts, without loaded internal clients, is run as it should be:
      each client once per cycle, in list order, one at a time, and nobody left waiting. */
  lemma SortedEngineRuns(e: Engine, callbacks: set<ClientId>, before: Chain.Plan, p: Chain.Plan)
    requires e.Valid() && DriversFirst(e.clients, e.control) && NoneInternal(e.control)
    requires forall c :: c in e.clients ==> c in e.control
    requires Chain.Planned(Links(e.clients, e.control, callbacks), before, p)
    ensures forall s :: Token.Reachable(Links(e.clients, e.control, callbacks), p, s) ==>
              && Token.Safe(Links(e.clients, e.control, callbacks), s)
              && !Token.Stuck(Links(e.clients, e.control, callbacks), p, s)
  {
    var cl := Links(e.clients, e.control, callbacks);
    SortedStrandsNone(e.clients, e.control, callbacks);
    DeadStayOff(e.View());
    assert Chain.DeadAreInactive(cl);
    forall s | Token.Reachable(cl, p, s)
      ensures Token.Safe(cl, s) && !Token.Stuck(cl, p, s)
    {
      TokenFailure.ReachableIsGood(cl, p, before, s);
    }
  }

  lemma DeadStayOff(s: State)
    requires Sound(s)
    ensures forall c :: c in s.control && s.control[c].dead ==> !s.control[c].active
  {
    hide Conserved;
  }
}
