/**
 The first half of jack_check_acyclic: peel off clients that nobody is left to feed
 and see whether all of them can be peeled.
 */
module AcyclicCheck {
  import opened Collections
  import opened Digraph
  import opened FeedGraph

  /** The clients listed are exactly the clients known, once each. */
  ghost predicate Lists(clients: seq<ClientId>, control: map<ClientId, Control>) {
    Distinct(clients) && forall c :: c in clients <==> c in control
  }

  /** One decrement per list entry. */
  method Decrement(count: map<ClientId, int>, list: seq<ClientId>) returns (r: map<ClientId, int>)
    requires forall c :: c in list ==> c in count
    ensures r.Keys == count.Keys
    ensures forall c :: c in count ==> r[c] == count[c] - multiset(list)[c]
  {
    r := count;
    for i := 0 to |list|
      invariant r.Keys == count.Keys
      invariant forall c :: c in count ==> r[c] == count[c] - multiset(list[..i])[c]
    {
      assert list[..i + 1] == list[..i] + [list[i]];
      r := r[list[i] := r[list[i]] - 1];
    }
    assert list[..|list|] == list;
  }

  /** What the counters mean while the clients in left are still waiting: the number
      of order-constraining connections from clients still waiting. */
  ghost predicate CountersOk(s: State, tfed: map<ClientId, int>, left: set<ClientId>) {
    && tfed.Keys == s.fedcount.Keys == s.control.Keys && left <= s.control.Keys
    && (forall c :: c in s.control && c !in left ==> tfed[c] == -1)
    && (forall c :: c in left && IsDriver(s.control, c) ==> tfed[c] == s.fedcount[c])
    && (forall c :: c in left && !IsDriver(s.control, c) ==>
          tfed[c] == Count(s.control, s.conns, IntoFrom(c, left)))
    && (forall c :: c in s.control && c !in left ==> Count(s.control, s.conns, IntoFrom(c, left)) == 0)
  }

  /** The clients peeled so far are numbered so that every edge into them comes from
      a lower number. */
  ghost predicate PeeledOk(s: State, rank: map<ClientId, int>, left: set<ClientId>) {
    && s.fedcount.Keys == s.control.Keys && rank.Keys == s.control.Keys - left
    && (forall c :: c in rank ==> rank[c] < |rank|)
    && (forall a, b :: Edge(s.truefeeds, a, b) && b in rank ==> a in rank && rank[a] < rank[b])
    && (forall d :: d in rank && IsDriver(s.control, d) ==> s.fedcount[d] == 0)
  }

  lemma DriverCountZero(s: State, d: ClientId, left: set<ClientId>)
    requires IsDriver(s.control, d)
    ensures Count(s.control, s.conns, IntoFrom(d, left)) == 0
  {
    CountZero(s.control, s.conns, IntoFrom(d, left));
  }

  lemma StartOk(s: State)
    requires Conserved(s)
    ensures CountersOk(s, s.fedcount, s.control.Keys) && PeeledOk(s, map[], s.control.Keys)
  {
  }

  /** Peeling c leaves the counters right. */
  lemma PeelCounters(s: State, tfed: map<ClientId, int>, left: set<ClientId>, c: ClientId, next: map<ClientId, int>)
    requires Conserved(s) && CountersOk(s, tfed, left) && c in left && tfed[c] == 0
    requires next.Keys == tfed.Keys
    requires forall b :: b in tfed ==> next[b] == (if b == c then -1 else tfed[b]) - Mult(s.truefeeds, c, b)
    ensures CountersOk(s, next, left - {c})
  {
    hide Mult, Count, Matches;
    forall b | b in s.control
      ensures b !in left || b == c ==> next[b] == -1 && Count(s.control, s.conns, IntoFrom(b, left - {c})) == 0
      ensures b in left && b != c && IsDriver(s.control, b) ==> next[b] == s.fedcount[b]
      ensures b in left && b != c && !IsDriver(s.control, b) ==>
                next[b] == Count(s.control, s.conns, IntoFrom(b, left - {c}))
    {
      CountFromSplit(s.control, s.conns, b, left, c);
      assert Mult(s.truefeeds, c, b) == Count(s.control, s.conns, True(c, b));
      if IsDriver(s.control, b) { DriverCountZero(s, b, left); }
      if b == c { NoSelfCount(s, c); }
    }
  }

  lemma NoSelfCount(s: State, c: ClientId)
    ensures Count(s.control, s.conns, True(c, c)) == 0
  {
    CountZero(s.control, s.conns, True(c, c));
  }

  /** Peeling c, whose counter is zero, extends the numbering. */
  lemma PeelRank(s: State, tfed: map<ClientId, int>, rank: map<ClientId, int>, left: set<ClientId>, c: ClientId)
    requires Conserved(s) && CountersOk(s, tfed, left) && PeeledOk(s, rank, left) && c in left && tfed[c] == 0
    ensures PeeledOk(s, rank[c := |rank|], left - {c})
  {
    hide Count, Conserved, Edge;
    var next := rank[c := |rank|];
    assert |next| == |rank| + 1;
    forall a, b | Edge(s.truefeeds, a, b) && b in next
      ensures a in next && next[a] < next[b]
    {
      if b == c { NotFromLeft(s, tfed, left, c, a); }
    }
  }

  lemma NotFromLeft(s: State, tfed: map<ClientId, int>, left: set<ClientId>, c: ClientId, a: ClientId)
    requires Conserved(s) && CountersOk(s, tfed, left) && c in left && tfed[c] == 0
    ensures Edge(s.truefeeds, a, c) ==> a in s.control && a !in left
  {
    if Edge(s.truefeeds, a, c) {
      hide SortCounted, FedCounted;
      MultEdge(s.truefeeds, a, c);
      var k := CountWitness(s.control, s.conns, True(a, c));
      if a in left { CountPositive(s.control, s.conns, IntoFrom(c, left), k); }
    }
  }

  /** Everybody peeled: truefeeds is acyclic and no driver owes a count. */
  lemma AllPeeled(s: State, rank: map<ClientId, int>)
    requires Conserved(s) && PeeledOk(s, rank, {})
    ensures Turnable(s)
  {
    hide Count, Mult, Matches;
    TrueEdgeFacts(s.control, s.conns, s.truefeeds);
    RankedIsAcyclic(s.truefeeds, rank);
  }

  /** Nobody can be peeled any more: either a cycle or a driver with a wrong count is left. */
  lemma NobodyPeelable(s: State, tfed: map<ClientId, int>, left: set<ClientId>)
    requires Conserved(s) && CountersOk(s, tfed, left) && left != {}
    requires forall c :: c in left ==> tfed[c] != 0
    ensures !Turnable(s)
  {
    if Turnable(s) {
      var any :| any in left;
      forall b | b in left
        ensures FedFrom(s.truefeeds, left, b)
      {
        FedByWaiting(s, tfed, left, b);
      }
      AcyclicHasSource(s.truefeeds, left, any);
    }
  }

  lemma FedByWaiting(s: State, tfed: map<ClientId, int>, left: set<ClientId>, b: ClientId)
    requires Conserved(s) && CountersOk(s, tfed, left) && b in left && tfed[b] != 0
    requires IsDriver(s.control, b) ==> s.fedcount[b] == 0
    ensures FedFrom(s.truefeeds, left, b)
  {
    hide SortCounted, FedCounted;
    var k := CountWitness(s.control, s.conns, IntoFrom(b, left));
    var a := s.conns[k].srcclient;
    CountPositive(s.control, s.conns, True(a, b), k);
    MultEdge(s.truefeeds, a, b);
    assert Edge(s.truefeeds, a, b);
  }

  /** Peel one client: mark it and release the clients it feeds. */
  method Peel(src: ClientId, tfed: map<ClientId, int>, truefeeds: Feeds,
              ghost s: State, ghost left: set<ClientId>, ghost rank: map<ClientId, int>)
    returns (next: map<ClientId, int>)
    requires Conserved(s) && truefeeds == s.truefeeds && CountersOk(s, tfed, left) && PeeledOk(s, rank, left)
    requires src in left && src in tfed && tfed[src] == 0
    ensures CountersOk(s, next, left - {src}) && PeeledOk(s, rank[src := |rank|], left - {src})
  {
    hide Conserved, PeeledOk, Mult, Count;
    ListInKeys(s, src);
    next := Decrement(tfed[src := -1], truefeeds[src]);
    PeelCounters(s, tfed, left, src, next);
    PeelRank(s, tfed, rank, left, src);
  }

  /** None of the first n clients that are still waiting can be peeled. */
  ghost predicate NoneReady(clients: seq<ClientId>, n: nat, tfed: map<ClientId, int>, left: set<ClientId>) {
    n <= |clients| && forall j :: 0 <= j < n && clients[j] in left ==> clients[j] in tfed && tfed[clients[j]] != 0
  }

  /** One pass over the client list. */
  method Pass(clients: seq<ClientId>, truefeeds: Feeds, count: map<ClientId, int>, waiting: nat,
              ghost s: State, ghost l: set<ClientId>, ghost r: map<ClientId, int>)
    returns (tfed: map<ClientId, int>, unsorted: nat, stuck: bool, ghost left: set<ClientId>, ghost rank: map<ClientId, int>)
    requires Conserved(s) && truefeeds == s.truefeeds && Lists(clients, s.control)
    requires CountersOk(s, count, l) && PeeledOk(s, r, l) && waiting == |l|
    ensures CountersOk(s, tfed, left) && PeeledOk(s, rank, left) && unsorted == |left|
    ensures if stuck then unsorted == waiting && NoneReady(clients, |clients|, tfed, left) else unsorted < waiting
  {
    hide Conserved, CountersOk, PeeledOk;
    tfed, unsorted, stuck, left, rank := count, waiting, true, l, r;
    for i := 0 to |clients|
      invariant CountersOk(s, tfed, left) && PeeledOk(s, rank, left) && unsorted == |left|
      invariant if stuck then unsorted == waiting && NoneReady(clients, i, tfed, left) else unsorted < waiting
    {
      CounterKeys(s, tfed, left, clients[i]);
      if tfed[clients[i]] == 0 {
        stuck := false;
        unsorted := unsorted - 1;
        tfed := Peel(clients[i], tfed, truefeeds, s, left, rank);
        left, rank := left - {clients[i]}, rank[clients[i] := |rank|];
      }
    }
  }

  /** The peeling loops. The answer is right in both directions. */
  method SortPossible(clients: seq<ClientId>, truefeeds: Feeds, fedcount: map<ClientId, int>, ghost s: State)
    returns (possible: bool)
    requires Conserved(s) && truefeeds == s.truefeeds && fedcount == s.fedcount && Lists(clients, s.control)
    ensures possible <==> Turnable(s)
  {
    hide Conserved, CountersOk, PeeledOk, Turnable, NoneReady, Lists;
    var tfed, unsorted, stuck := fedcount, |clients|, false;
    ghost var left: set<ClientId>, rank: map<ClientId, int> := s.control.Keys, map[];
    StartOk(s);
    ListedSize(clients, s.control);
    while unsorted > 0 && !stuck
      invariant CountersOk(s, tfed, left) && PeeledOk(s, rank, left) && unsorted == |left|
      invariant stuck ==> unsorted > 0 && NoneReady(clients, |clients|, tfed, left)
      decreases unsorted, !stuck
    {
      tfed, unsorted, stuck, left, rank := Pass(clients, truefeeds, tfed, unsorted, s, left, rank);
    }
    possible := !stuck;
    if stuck {
      AllSeen(clients, s, tfed, left);
      NobodyPeelable(s, tfed, left);
    } else {
      assert left == {};
      AllPeeled(s, rank);
    }
  }

  lemma ListedSize(clients: seq<ClientId>, control: map<ClientId, Control>)
    requires Lists(clients, control)
    ensures |clients| == |control.Keys|
  {
    DistinctSetSize(clients);
    assert control.Keys == ToSet(clients);
  }

  lemma CounterKeys(s: State, tfed: map<ClientId, int>, left: set<ClientId>, c: ClientId)
    requires CountersOk(s, tfed, left) && c in s.control
    ensures c in tfed && tfed.Keys == s.control.Keys && (tfed[c] == 0 ==> c in left)
  {
  }

  lemma ListInKeys(s: State, c: ClientId)
    requires Conserved(s) && c in s.control
    ensures c in s.truefeeds && forall b :: b in s.truefeeds[c] ==> b in s.control
    ensures forall b :: Mult(s.truefeeds, c, b) == multiset(s.truefeeds[c])[b]
  {
    TrueEdgeFacts(s.control, s.conns, s.truefeeds);
    assert forall b :: b in s.truefeeds[c] ==> Edge(s.truefeeds, c, b);
  }

  lemma AllSeen(clients: seq<ClientId>, s: State, tfed: map<ClientId, int>, left: set<ClientId>)
    requires Lists(clients, s.control) && CountersOk(s, tfed, left) && NoneReady(clients, |clients|, tfed, left)
    ensures forall c :: c in left ==> c in tfed && tfed[c] != 0
  {
    forall c | c in left
      ensures c in tfed && tfed[c] != 0
    {
      assert c in clients;
      var j :| 0 <= j < |clients| && clients[j] == c;
    }
  }
}
