/**
 Why leftover feedback can stay: disconnecting from a driver lowers a fedcount that
 connecting never raised, and the peeling test then never succeeds again.
 */
module DriverDebt {
  import opened Digraph
  import opened FeedGraph
  import opened GraphSteps

  /** Driver d owes a count. */
  ghost predicate InDebt(s: State, d: ClientId) {
    d in s.fedcount && IsDriver(s.control, d) && s.fedcount[d] < 0
  }

  lemma DisconnectingDriverOwes(s: State, k: ConnId)
    requires Sound(s) && k in s.conns && IsDriver(s.control, s.conns[k].dstclient)
    ensures Known(s, s.conns[k]) && InDebt(Disconnected(s, k), s.conns[k].dstclient)
  {
    hide Wired, Acyclic, Count, Mult;
    DisconnectSound(s, k);
  }

  lemma NoConnections(s: State)
    requires Sound(s) && s.conns == map[]
    ensures Conserved(s) && s.feedbackcount == 0
    ensures forall a, b :: !Edge(s.sortfeeds, a, b) && !Edge(s.truefeeds, a, b)
  {
    hide Wired, Acyclic;
    CountZero(s.control, s.conns, AnyFeedback);
    forall a, b
      ensures !Edge(s.sortfeeds, a, b) && !Edge(s.truefeeds, a, b)
    {
      CountZero(s.control, s.conns, True(a, b));
      CountZero(s.control, s.conns, Forward(a, b));
      CountZero(s.control, s.conns, Feedback(b, a));
      MultEdge(s.sortfeeds, a, b);
      MultEdge(s.truefeeds, a, b);
    }
  }

  /** A count that never rises stays short. */
  lemma DebtStays(s: State, t: State, d: ClientId)
    requires InDebt(s, d) && NoneForgiven(s, t) && d in t.control && d in t.fedcount
    ensures InDebt(t, d) && !Turnable(t)
  {
    hide Acyclic;
  }

  /** With a driver in debt, closing a loop between two clients and breaking it at its forward
      half leaves a feedback connection in a graph without a cycle. */
  lemma AfterDebt(s1: State, ahead: Connection, back: Connection, k: ConnId, d: ClientId)
    requires InDebt(s1, d) && s1.feedbackcount == 0
    requires Known(s1, ahead) && Known(s1, back) && ahead.dir == 1 && back.dir == -1
    requires forall a, b :: !Edge(s1.sortfeeds, a, b) && !Edge(s1.truefeeds, a, b)
    requires back.srcclient == ahead.dstclient && back.dstclient == ahead.srcclient
    requires Constrains(s1.control, ahead) && Constrains(s1.control, back)
    ensures ahead.dir == NewDir(s1.control, s1.sortfeeds, ahead.srcclient, ahead.dstclient)
    ensures var s2 := Connected(s1, k, ahead);
            && Known(s2, back) && back.dir == NewDir(s2.control, s2.sortfeeds, back.srcclient, back.dstclient)
            && var s3 := Connected(s2, k + 1, back);
               && s3.feedbackcount == 1 && k in s3.conns && Known(s3, s3.conns[k])
               && var s4 := Disconnected(s3, k);
                  && Acyclic(s4.truefeeds) && s4.feedbackcount == 1 && !Turnable(s4)
  {
    var a, b := ahead.srcclient, ahead.dstclient;
    NoWay(s1.sortfeeds, b, a);
    var s2 := Connected(s1, k, ahead);
    assert s2.sortfeeds == Prepend(s1.sortfeeds, a, b);
    assert Edge(s2.sortfeeds, a, b);
    EdgeReaches(s2.sortfeeds, a, b);
    var s3 := Connected(s2, k + 1, back);
    var s4 := Disconnected(s3, k);
    assert s4.control == s1.control && s4.fedcount[d] == s1.fedcount[d];
    DebtStays(s1, s4, d);
    hide InDebt, Turnable, Reaches;
    assert s4.truefeeds == Without(Prepend(Prepend(s1.truefeeds, a, b), b, a), a, b);
    OnlyBack(s1.truefeeds, a, b);
  }

  lemma NoWay(g: Feeds, a: Node, b: Node)
    requires forall x, y :: !Edge(g, x, y)
    ensures !Reaches(g, a, b)
  {
    if Reaches(g, a, b) { var c := FirstStep(g, a, b); }
  }

  lemma OnlyBack(g: Feeds, a: Node, b: Node)
    requires a in g && b in g && a != b && forall x, y :: !Edge(g, x, y)
    ensures Acyclic(Without(Prepend(Prepend(g, a, b), b, a), a, b))
  {
    var h := Without(Prepend(Prepend(g, a, b), b, a), a, b);
    assert h[a] == g[a] && h[b] == [a] + g[b];
    forall x, y | Edge(h, x, y)
      ensures x == b && y == a
    {
      assert !Edge(g, x, y);
    }
    RankedIsAcyclic(h, map[b := 0, a := 1]);
  }
}
