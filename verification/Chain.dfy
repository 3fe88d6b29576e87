/**
 The execution chain: how jack_rechain_graph numbers the FIFOs between external
 clients, and which clients the process walk takes for the start of a subgraph.
 */
module Chain {

  datatype Client = Client(internal: bool, active: bool, hasCallback: bool, dead: bool)

  /** An external client that takes part in the chain. */
  predicate Ext(cl: seq<Client>, i: int) {
    0 <= i < |cl| && cl[i].active && cl[i].hasCallback && !cl[i].internal
  }

  /** An internal client that takes part, and so breaks the chain. */
  predicate Int(cl: seq<Client>, i: int) {
    0 <= i < |cl| && cl[i].active && cl[i].hasCallback && cl[i].internal
  }

  predicate Eligible(cl: seq<Client>, i: int) {
    Ext(cl, i) || Int(cl, i)
  }

  /** Zombies are switched off (an invariant of the engine). */
  ghost predicate DeadAreInactive(cl: seq<Client>) {
    forall i :: 0 <= i < |cl| && cl[i].dead ==> !cl[i].active
  }

  // ----- The plan as a function of the list

  /** A subgraph has been started and not yet closed before position i. */
  ghost predicate Open(cl: seq<Client>, i: nat)
    requires i <= |cl|
  {
    i > 0 && (Ext(cl, i - 1) || (!Int(cl, i - 1) && Open(cl, i - 1)))
  }

  /** The number of FIFOs used up before position i: one per external client, and one
      per closed subgraph for the server to wait on. */
  ghost function Fifo(cl: seq<Client>, i: nat): nat
    requires i <= |cl|
  {
    if i == 0 then 0
    else if Ext(cl, i - 1) || (Int(cl, i - 1) && Open(cl, i - 1)) then Fifo(cl, i - 1) + 1
    else Fifo(cl, i - 1)
  }

  /** The first external client of a subgraph. */
  ghost predicate Head(cl: seq<Client>, i: int) {
    Ext(cl, i) && !Open(cl, i)
  }

  /** The first position from i on where the chain is broken. */
  ghost function Close(cl: seq<Client>, i: nat): nat
    requires i <= |cl|
    ensures i <= Close(cl, i) <= |cl|
    ensures Close(cl, i) < |cl| ==> Int(cl, Close(cl, i))
    ensures forall x :: i <= x < Close(cl, i) ==> !Int(cl, x)
    decreases |cl| - i
  {
    if i == |cl| || Int(cl, i) then i else Close(cl, i + 1)
  }

  /** A position that has a FIFO of its own: an external client, or the end of a subgraph. */
  ghost predicate Slot(cl: seq<Client>, x: int) {
    0 <= x <= |cl| && (Ext(cl, x) || (Open(cl, x) && (x == |cl| || Int(cl, x))))
  }

  lemma {:induction false} FifoMonotone(cl: seq<Client>, i: nat, j: nat)
    requires i <= j <= |cl|
    ensures Fifo(cl, i) <= Fifo(cl, j)
    decreases j - i
  {
    if i < j { FifoMonotone(cl, i, j - 1); }
  }

  /** No two positions share a FIFO. */
  lemma SlotsDistinct(cl: seq<Client>, x: nat, y: nat)
    requires Slot(cl, x) && Slot(cl, y) && x < y
    ensures Fifo(cl, x) < Fifo(cl, y)
  {
    assert Fifo(cl, x + 1) == Fifo(cl, x) + 1;
    FifoMonotone(cl, x + 1, y);
  }

  /** Without a break in between, a subgraph stays open and the numbering just counts externals. */
  lemma {:induction false} StaysOpen(cl: seq<Client>, h: nat, x: nat)
    requires Ext(cl, h) && h < x <= |cl| && forall m :: h <= m < x ==> !Int(cl, m)
    ensures Open(cl, x)
    decreases x
  {
    if h + 1 < x { StaysOpen(cl, h, x - 1); }
  }

  /** Positions without eligible clients use no FIFO and change nothing. */
  lemma {:induction false} IdleStretch(cl: seq<Client>, i: nat, j: nat)
    requires i <= j <= |cl| && forall m :: i <= m < j ==> !Eligible(cl, m)
    ensures Fifo(cl, i) == Fifo(cl, j) && Open(cl, i) == Open(cl, j)
    decreases j - i
  {
    if i < j {
      assert !Eligible(cl, j - 1);
      IdleStretch(cl, i, j - 1);
    }
  }

  // ----- The plan as the engine computes it

  /** What each client record and each client process ends up with. */
  datatype Plan = Plan(
    order: seq<int>,      // execution_order
    start: seq<int>,      // FIFO behind subgraph_start_fd
    wait: seq<int>,       // FIFO behind subgraph_wait_fd
    listen: seq<int>,     // FIFO the client process waits on
    signal: seq<int>,     // FIFO the client process writes to
    upstream: seq<bool>)  // the client process is woken by the server

  ghost predicate Sized(p: Plan, n: nat) {
    |p.order| == |p.start| == |p.wait| == |p.listen| == |p.signal| == |p.upstream| == n
  }

  /** What the plan says about client i, except for the FIFO the server waits on. */
  ghost predicate RowButWait(cl: seq<Client>, before: Plan, p: Plan, i: nat)
    requires Sized(before, |cl|) && Sized(p, |cl|) && i < |cl|
  {
    && p.order[i] == (if Eligible(cl, i) then Fifo(cl, i) else before.order[i])
    && p.start[i] == (if Head(cl, i) then Fifo(cl, i) else before.start[i])
    && p.listen[i] == (if Ext(cl, i) then Fifo(cl, i) else before.listen[i])
    && p.signal[i] == (if Ext(cl, i) then Fifo(cl, i) + 1 else before.signal[i])
    && p.upstream[i] == (if Ext(cl, i) then Head(cl, i) else before.upstream[i])
  }

  ghost predicate Row(cl: seq<Client>, before: Plan, p: Plan, i: nat)
    requires Sized(before, |cl|) && Sized(p, |cl|) && i < |cl|
  {
    && RowButWait(cl, before, p, i)
    && p.wait[i] == (if Head(cl, i) then Fifo(cl, Close(cl, i)) else before.wait[i])
  }

  ghost predicate SameRow(p: Plan, q: Plan, i: nat) {
    && i < |p.order| == |q.order| && p.order[i] == q.order[i]
    && i < |p.start| == |q.start| && p.start[i] == q.start[i]
    && i < |p.wait| == |q.wait| && p.wait[i] == q.wait[i]
    && i < |p.listen| == |q.listen| && p.listen[i] == q.listen[i]
    && i < |p.signal| == |q.signal| && p.signal[i] == q.signal[i]
    && i < |p.upstream| == |q.upstream| && p.upstream[i] == q.upstream[i]
  }

  /** Position k waits on FIFO k and signals k + 1, the server starts a subgraph at its
      head and waits on the FIFO after its last client; nothing else is touched. */
  ghost predicate Planned(cl: seq<Client>, before: Plan, p: Plan) {
    && Sized(before, |cl|) && Sized(p, |cl|)
    && forall i :: 0 <= i < |cl| ==> Row(cl, before, p, i)
  }

  /** open is the head of the subgraph that is open at position n, or -1. */
  ghost predicate OpenIs(cl: seq<Client>, n: nat, open: int)
    requires n <= |cl|
  {
    if Open(cl, n) then 0 <= open < n && Head(cl, open) && Close(cl, open) >= n else open == -1
  }

  /** The same for the first n clients; the wait FIFO of a subgraph still open is not known yet. */
  ghost predicate PlannedUpTo(cl: seq<Client>, before: Plan, p: Plan, n: nat, open: int) {
    && Sized(before, |cl|) && Sized(p, |cl|) && n <= |cl|
    && (forall i :: 0 <= i < n ==> if i == open then RowButWait(cl, before, p, i) else Row(cl, before, p, i))
    && (forall i :: n <= i < |cl| ==> SameRow(before, p, i))
  }

  lemma SameRowKeeps(cl: seq<Client>, before: Plan, p: Plan, q: Plan, i: nat)
    requires Sized(before, |cl|) && Sized(p, |cl|) && Sized(q, |cl|) && i < |cl| && SameRow(p, q, i)
    ensures Row(cl, before, p, i) ==> Row(cl, before, q, i)
    ensures RowButWait(cl, before, p, i) ==> RowButWait(cl, before, q, i)
  {
    hide Fifo, Close, Head, Ext, Eligible;
  }

  /** Moving on by one position, given what happened to that row and to the open one. */
  lemma OneMore(cl: seq<Client>, before: Plan, p: Plan, q: Plan, i: nat, open: int, next: int)
    requires PlannedUpTo(cl, before, p, i, open) && i < |cl| && Sized(q, |cl|)
    requires forall j :: 0 <= j < |cl| && j != i && j != open ==> SameRow(p, q, j)
    requires if i == next then RowButWait(cl, before, q, i) else Row(cl, before, q, i)
    requires 0 <= open < i ==> if open == next then RowButWait(cl, before, q, open) else Row(cl, before, q, open)
    requires next == open || next == i || next == -1
    requires open < i
    ensures PlannedUpTo(cl, before, q, i + 1, next)
  {
    hide Row, RowButWait;
    forall j | 0 <= j < i && j != open
      ensures Row(cl, before, q, j)
    {
      SameRowKeeps(cl, before, p, q, j);
    }
    forall j | i + 1 <= j < |cl|
      ensures SameRow(before, q, j)
    {
      assert SameRow(before, p, j) && SameRow(p, q, j);
    }
  }

  class Chain {
    var clients: seq<Client>
    var plan: Plan

    /** jack_rechain_graph, with the reordering event it sends to each external client. */
    method Rechain()
      requires Sized(plan, |clients|)
      modifies this`plan
      ensures Planned(clients, old(plan), plan)
    {
      hide Row, RowButWait, Fifo, Close, Eligible, SameRow;
      var n := 0;
      var open := -1;
      AtStart(clients, plan);
      for i := 0 to |clients|
        invariant n == Fifo(clients, i) && OpenIs(clients, i, open)
        invariant PlannedUpTo(clients, old(plan), plan, i, open)
      {
        if Eligible(clients, i) {
          n, open := RechainOne(i, n, open, old(plan));
        } else {
          SkipOne(clients, old(plan), plan, i, open);
        }
      }
      if open != -1 {
        ghost var p := plan;
        plan := plan.(wait := plan.wait[open := n]);
        CloseAtEnd(clients, old(plan), p, plan, open);
      }
    }

    method RechainOne(i: nat, count: nat, subgraph: int, ghost before: Plan) returns (n: nat, open: int)
      requires i < |clients| && Eligible(clients, i) && count == Fifo(clients, i)
      requires OpenIs(clients, i, subgraph) && PlannedUpTo(clients, before, plan, i, subgraph)
      modifies this`plan
      ensures n == Fifo(clients, i + 1) && OpenIs(clients, i + 1, open)
      ensures PlannedUpTo(clients, before, plan, i + 1, open)
    {
      ghost var p := plan;
      n, open := count, subgraph;
      Facts(clients, i, open);
      assert SameRow(before, plan, i);
      assert 0 <= open < i ==> RowButWait(clients, before, plan, open);
      hide Fifo, Close, PlannedUpTo;
      plan := plan.(order := plan.order[i := n]);
      if clients[i].internal {
        if open != -1 {
          plan := plan.(wait := plan.wait[open := n]);
          n := n + 1;
        }
        open := -1;
      } else {
        var upstream;
        if open == -1 {
          open := i;
          plan := plan.(start := plan.start[i := n]);
          upstream := true;
        } else {
          plan := plan.(wait := plan.wait[open := -1]);
          upstream := false;
        }
        plan := plan.(listen := plan.listen[i := n], signal := plan.signal[i := n + 1],
                      upstream := plan.upstream[i := upstream]);
        n := n + 1;
      }
      OneMore(clients, before, p, plan, i, subgraph, open);
    }
  }

  lemma AtStart(cl: seq<Client>, p: Plan)
    requires Sized(p, |cl|)
    ensures PlannedUpTo(cl, p, p, 0, -1) && Fifo(cl, 0) == 0 && OpenIs(cl, 0, -1)
  {
  }

  /** What the next position does to the count and to the open subgraph. */
  lemma Facts(cl: seq<Client>, i: nat, open: int)
    requires i < |cl| && OpenIs(cl, i, open)
    ensures Open(cl, i) <==> open != -1
    ensures open != -1 ==> 0 <= open < i && Head(cl, open)
    ensures Int(cl, i) ==> Fifo(cl, i + 1) == Fifo(cl, i) + (if open != -1 then 1 else 0)
    ensures Int(cl, i) ==> !Open(cl, i + 1) && (open != -1 ==> Close(cl, open) == i)
    ensures Ext(cl, i) ==> Fifo(cl, i + 1) == Fifo(cl, i) + 1 && Open(cl, i + 1) && Close(cl, i) >= i + 1
    ensures !Int(cl, i) && open != -1 ==> Close(cl, open) >= i + 1
    ensures Head(cl, i) <==> Ext(cl, i) && open == -1
  {
  }

  lemma SkipOne(cl: seq<Client>, before: Plan, p: Plan, i: nat, open: int)
    requires i < |cl| && !Eligible(cl, i) && OpenIs(cl, i, open) && PlannedUpTo(cl, before, p, i, open)
    ensures Fifo(cl, i + 1) == Fifo(cl, i) && OpenIs(cl, i + 1, open) && PlannedUpTo(cl, before, p, i + 1, open)
  {
    Facts(cl, i, open);
    assert SameRow(before, p, i);
  }

  lemma CloseAtEnd(cl: seq<Client>, before: Plan, p: Plan, q: Plan, open: int)
    requires PlannedUpTo(cl, before, p, |cl|, open) && OpenIs(cl, |cl|, open) && open != -1
    requires q == p.(wait := p.wait[open := Fifo(cl, |cl|)])
    ensures Planned(cl, before, q)
  {
    hide Row, RowButWait, Fifo;
    forall i | 0 <= i < |cl|
      ensures Row(cl, before, q, i)
    {
      if i != open { SameRowKeeps(cl, before, p, q, i); } else { OpenRow(cl, before, p, q, open); }
    }
  }

  lemma OpenRow(cl: seq<Client>, before: Plan, p: Plan, q: Plan, open: nat)
    requires Sized(before, |cl|) && Sized(p, |cl|) && open < |cl| && Head(cl, open) && Close(cl, open) == |cl|
    requires RowButWait(cl, before, p, open) && q == p.(wait := p.wait[open := Fifo(cl, |cl|)])
    ensures Row(cl, before, q, open)
  {
  }

  // ----- The shape of a subgraph

  /** Position t belongs to the subgraph with head h. */
  ghost predicate Member(cl: seq<Client>, h: int, t: int) {
    Head(cl, h) && h <= t && Ext(cl, t) && forall m :: h <= m < t ==> !Int(cl, m)
  }

  /** Every external client that takes part lies in exactly one subgraph. */
  lemma {:induction false} HasHead(cl: seq<Client>, t: nat) returns (h: nat)
    requires t <= |cl| && (Ext(cl, t) || Open(cl, t))
    ensures h <= t && Head(cl, h) && (forall m :: h <= m < t ==> !Int(cl, m))
    ensures Ext(cl, t) ==> Member(cl, h, t)
    decreases t
  {
    if Open(cl, t) { h := HasHead(cl, t - 1); } else { h := t; }
  }

  lemma OneHead(cl: seq<Client>, g: nat, h: nat, t: nat)
    requires Member(cl, g, t) && Member(cl, h, t)
    ensures g == h
  {
    if g < h { StaysOpen(cl, g, h); }
    if h < g { StaysOpen(cl, h, g); }
  }

  /** The FIFO ranges of different subgraphs are disjoint. */
  lemma RangesDisjoint(cl: seq<Client>, g: nat, h: nat)
    requires Head(cl, g) && Head(cl, h) && g < h
    ensures Fifo(cl, g) < Fifo(cl, Close(cl, g)) < Fifo(cl, h)
  {
    var c := Close(cl, g);
    if h <= c { StaysOpen(cl, g, h); }
    StaysOpen(cl, g, c);
    SlotsDistinct(cl, g, c);
    SlotsDistinct(cl, c, h);
  }

  /** Next in the chain: consecutive members use consecutive FIFOs, and the server waits
      on the FIFO after the last member's. */
  lemma NextFifo(cl: seq<Client>, t: nat, u: nat)
    requires Ext(cl, t) && t < u <= |cl| && forall m :: t < m < u ==> !Eligible(cl, m)
    ensures Fifo(cl, u) == Fifo(cl, t) + 1
  {
    IdleStretch(cl, t + 1, u);
  }

  /** A client is told the number of the FIFO it listens on, and that the server wakes it
      exactly when the server starts a subgraph on that FIFO. */
  lemma OrderAndUpstream(cl: seq<Client>, before: Plan, p: Plan, i: nat)
    requires Planned(cl, before, p) && Ext(cl, i)
    ensures p.order[i] == p.listen[i] && p.signal[i] == p.order[i] + 1
    ensures p.upstream[i] <==> exists h :: Head(cl, h) && p.start[h] == p.listen[i]
  {
    assert Row(cl, before, p, i);
    assert Head(cl, i) ==> p.start[i] == p.listen[i];
    forall h | Head(cl, h) && p.start[h] == p.listen[i]
      ensures h == i
    {
      assert Row(cl, before, p, h);
      if h < i { SlotsDistinct(cl, h, i); }
      if i < h { SlotsDistinct(cl, i, h); }
    }
  }

  // ----- The walk

  /** The node at which the server goes on after a subgraph that starts at i: the next
      internal client of any kind, or the end of the list. */
  function NextInternal(cl: seq<Client>, i: nat): nat
    requires i <= |cl|
    ensures i <= NextInternal(cl, i) <= |cl|
    ensures NextInternal(cl, i) < |cl| ==> cl[NextInternal(cl, i)].internal
    ensures forall x :: i <= x < NextInternal(cl, i) ==> !cl[x].internal
    decreases |cl| - i
  {
    if i == |cl| || cl[i].internal then i else NextInternal(cl, i + 1)
  }

  /** The test made before a client is processed. */
  predicate Processed(c: Client) {
    c.active && c.hasCallback && !c.dead
  }

  /** The positions taken for the start of a subgraph, from position i on. */
  ghost function WalkHeads(cl: seq<Client>, i: nat): seq<nat>
    requires i <= |cl|
    decreases |cl| - i
  {
    if i == |cl| then []
    else if !Processed(cl[i]) || cl[i].internal then WalkHeads(cl, i + 1)
    else [i] + WalkHeads(cl, NextInternal(cl, i))
  }

  /** The positions that were given a start and a wait FIFO, from position i on. */
  ghost function PlanHeads(cl: seq<Client>, i: nat, open: bool): seq<nat>
    requires i <= |cl|
    decreases |cl| - i
  {
    if i == |cl| then []
    else if Ext(cl, i) then (if open then [] else [i]) + PlanHeads(cl, i + 1, true)
    else if Int(cl, i) then PlanHeads(cl, i + 1, false)
    else PlanHeads(cl, i + 1, open)
  }

  /** jack_engine_process, as far as the order of visits goes. */
  method Process(cl: seq<Client>) returns (heads: seq<nat>)
    ensures heads == WalkHeads(cl, 0)
  {
    heads := [];
    var node := 0;
    while node < |cl|
      invariant node <= |cl| && heads + WalkHeads(cl, node) == WalkHeads(cl, 0)
      decreases |cl| - node
    {
      if !Processed(cl[node]) || cl[node].internal {
        node := node + 1;
      } else {
        heads := heads + [node];
        node := NextInternal(cl, node);
      }
    }
  }

  lemma {:induction false} PlanHeadsAreHeads(cl: seq<Client>, i: nat, x: nat)
    requires i <= |cl|
    ensures x in PlanHeads(cl, i, Open(cl, i)) <==> i <= x && Head(cl, x)
    decreases |cl| - i
  {
    if i < |cl| { PlanHeadsAreHeads(cl, i + 1, x); }
  }

  /** An internal client that is out of the chain sits between two members of one subgraph. */
  ghost predicate Stranded(cl: seq<Client>, i: nat, j: nat, k: nat) {
    && i < j < k && Ext(cl, i) && Ext(cl, k)
    && cl[j].internal && !Eligible(cl, j)
    && forall m :: i < m < k ==> !Int(cl, m)
  }

  ghost predicate NoneStranded(cl: seq<Client>) {
    forall i: nat, j: nat, k: nat :: !Stranded(cl, i, j, k)
  }

  /** The first eligible position from i on. */
  ghost function NextEligible(cl: seq<Client>, i: nat): nat
    requires i <= |cl|
    ensures i <= NextEligible(cl, i) <= |cl|
    ensures NextEligible(cl, i) < |cl| ==> Eligible(cl, NextEligible(cl, i))
    ensures forall x :: i <= x < NextEligible(cl, i) ==> !Eligible(cl, x)
    decreases |cl| - i
  {
    if i == |cl| || Eligible(cl, i) then i else NextEligible(cl, i + 1)
  }

  /** Whether a subgraph is open makes no difference if an internal client comes next. */
  lemma {:induction false} OpenIrrelevant(cl: seq<Client>, i: nat)
    requires i <= |cl| && !Ext(cl, NextEligible(cl, i))
    ensures PlanHeads(cl, i, true) == PlanHeads(cl, i, false)
    decreases |cl| - i
  {
    if i < |cl| && !Eligible(cl, i) { OpenIrrelevant(cl, i + 1); }
  }

  lemma {:induction false} MembersAddNothing(cl: seq<Client>, i: nat, j: nat)
    requires i <= j <= |cl| && forall x :: i <= x < j ==> !cl[x].internal
    ensures PlanHeads(cl, i, true) == PlanHeads(cl, j, true)
    decreases j - i
  {
    if i < j { MembersAddNothing(cl, i + 1, j); }
  }

  /** Where the server resumes, no member of the subgraph just run is left. */
  lemma NoMemberLeft(cl: seq<Client>, i: nat, j: nat)
    requires NoneStranded(cl) && Ext(cl, i) && j == NextInternal(cl, i)
    ensures !Ext(cl, NextEligible(cl, j))
  {
    var k := NextEligible(cl, j);
    if Ext(cl, k) {
      forall m | i < m < k
        ensures !Int(cl, m)
      {
        if m < j { assert !cl[m].internal; } else { assert !Eligible(cl, m); }
      }
      assert Stranded(cl, i, j, k);
    }
  }

  lemma {:induction false} WalkFollowsPlan(cl: seq<Client>, i: nat)
    requires i <= |cl| && NoneStranded(cl) && DeadAreInactive(cl)
    ensures WalkHeads(cl, i) == PlanHeads(cl, i, false)
    decreases |cl| - i
  {
    if i < |cl| {
      if Ext(cl, i) {
        var j := NextInternal(cl, i);
        WalkFollowsPlan(cl, j);
        MembersAddNothing(cl, i + 1, j);
        NoMemberLeft(cl, i, j);
        OpenIrrelevant(cl, j);
      } else {
        WalkFollowsPlan(cl, i + 1);
      }
    }
  }

  /** The walk never jumps over an internal client. */
  lemma {:induction false} WalkReaches(cl: seq<Client>, i: nat, j: nat, x: nat)
    requires i <= j < |cl| && cl[j].internal && x in WalkHeads(cl, j)
    ensures x in WalkHeads(cl, i)
    decreases |cl| - i
  {
    if i < j {
      if !Processed(cl[i]) || cl[i].internal { WalkReaches(cl, i + 1, j, x); }
      else { WalkReaches(cl, NextInternal(cl, i), j, x); }
    }
  }

  lemma {:induction false} WalkTakesNextExternal(cl: seq<Client>, i: nat)
    requires i <= |cl| && DeadAreInactive(cl) && Ext(cl, NextEligible(cl, i))
    ensures NextEligible(cl, i) in WalkHeads(cl, i)
    decreases |cl| - i
  {
    if !Eligible(cl, i) { WalkTakesNextExternal(cl, i + 1); }
  }

  lemma StrandedBreaksWalk(cl: seq<Client>, i: nat, j: nat, k: nat)
    requires DeadAreInactive(cl) && Stranded(cl, i, j, k)
    ensures WalkHeads(cl, 0) != PlanHeads(cl, 0, false)
  {
    var e := NextEligible(cl, j);
    assert Eligible(cl, k) && e <= k;
    assert !Int(cl, e);
    WalkTakesNextExternal(cl, j);
    WalkReaches(cl, 0, j, e);
    StaysOpen(cl, i, e);
    PlanHeadsAreHeads(cl, 0, e);
  }

  /** The walk starts exactly the subgraphs that were planned if and only if no internal
      client that is out of the chain sits inside a subgraph. */
  lemma WalkAgreesIff(cl: seq<Client>)
    requires DeadAreInactive(cl)
    ensures WalkHeads(cl, 0) == PlanHeads(cl, 0, false) <==> NoneStranded(cl)
  {
    if NoneStranded(cl) {
      WalkFollowsPlan(cl, 0);
    } else {
      var i: nat, j: nat, k: nat :| Stranded(cl, i, j, k);
      StrandedBreaksWalk(cl, i, j, k);
    }
  }

  /** An inactive internal client between two external ones: the walk takes the second
      for the start of a subgraph, although it was planned as the middle of one. */
  lemma WalkGoesAstray()
    ensures var cl := [Client(false, true, true, false), Client(true, false, true, false), Client(false, true, true, false)];
            WalkHeads(cl, 0) == [0, 2] && PlanHeads(cl, 0, false) == [0]
  {
    var cl := [Client(false, true, true, false), Client(true, false, true, false), Client(false, true, true, false)];
    assert NextInternal(cl, 2) == 3 && NextInternal(cl, 0) == 1;
    assert WalkHeads(cl, 3) == [] && WalkHeads(cl, 2) == [2] && WalkHeads(cl, 1) == [2];
    assert PlanHeads(cl, 3, true) == [] && PlanHeads(cl, 2, true) == [] && PlanHeads(cl, 1, true) == [];
  }
}
