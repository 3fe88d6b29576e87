/**
 Directed multigraphs kept as adjacency lists, the shape of the engine's
 `sortfeeds` and `truefeeds` lists: a node maps to the list of nodes it feeds,
 with one list entry per connection.
 */
module Digraph {
  import opened Collections

  type Node = nat
  type Feeds = map<Node, seq<Node>>

  ghost predicate Edge(g: Feeds, a: Node, b: Node) {
    a in g && b in g[a]
  }

  /** There is a walk of exactly n edges from a to b. */
  ghost predicate Walk(g: Feeds, a: Node, b: Node, n: nat)
    decreases n
  {
    if n == 0 then a == b
    else exists c :: Edge(g, a, c) && Walk(g, c, b, n - 1)
  }

  /** There is a non-empty path from a to b. */
  ghost predicate Reaches(g: Feeds, a: Node, b: Node) {
    exists n: nat :: n > 0 && Walk(g, a, b, n)
  }

  ghost predicate Acyclic(g: Feeds) {
    forall a :: !Reaches(g, a, a)
  }

  type Dag = g: Feeds | Acyclic(g) witness (EmptyIsAcyclic(); map[])

  /** Every edge of h is an edge of g. */
  ghost predicate Within(h: Feeds, g: Feeds) {
    forall a, b :: Edge(h, a, b) ==> Edge(g, a, b)
  }

  lemma EmptyIsAcyclic()
    ensures Acyclic(map[])
  {
    RankedIsAcyclic(map[], map[]);
  }

  lemma {:induction false} WalkConcat(g: Feeds, a: Node, b: Node, c: Node, m: nat, n: nat)
    requires Walk(g, a, b, m) && Walk(g, b, c, n)
    ensures Walk(g, a, c, m + n)
    decreases m
  {
    if m > 0 {
      var d :| Edge(g, a, d) && Walk(g, d, b, m - 1);
      WalkConcat(g, d, b, c, m - 1, n);
    }
  }

  lemma EdgeReaches(g: Feeds, a: Node, b: Node)
    requires Edge(g, a, b)
    ensures Reaches(g, a, b)
  {
    assert Walk(g, b, b, 0);
    assert Walk(g, a, b, 1);
  }

  lemma ReachesTransitive(g: Feeds, a: Node, b: Node, c: Node)
    requires Reaches(g, a, b) && Reaches(g, b, c)
    ensures Reaches(g, a, c)
  {
    var m: nat :| m > 0 && Walk(g, a, b, m);
    var n: nat :| n > 0 && Walk(g, b, c, n);
    WalkConcat(g, a, b, c, m, n);
  }

  /** A path starts with an edge and goes on from there, or stops there. */
  lemma FirstStep(g: Feeds, a: Node, b: Node) returns (c: Node)
    requires Reaches(g, a, b)
    ensures Edge(g, a, c) && (c == b || Reaches(g, c, b))
  {
    var n: nat :| n > 0 && Walk(g, a, b, n);
    c :| Edge(g, a, c) && Walk(g, c, b, n - 1);
    if n > 1 { assert Reaches(g, c, b); }
  }

  lemma LastStep(g: Feeds, a: Node, b: Node) returns (c: Node)
    requires Reaches(g, a, b)
    ensures Edge(g, c, b)
  {
    var n: nat :| n > 0 && Walk(g, a, b, n);
    c := LastStepOfWalk(g, a, b, n);
  }

  lemma {:induction false} LastStepOfWalk(g: Feeds, a: Node, b: Node, n: nat) returns (c: Node)
    requires n > 0 && Walk(g, a, b, n)
    ensures Edge(g, c, b)
    decreases n
  {
    var d :| Edge(g, a, d) && Walk(g, d, b, n - 1);
    if n == 1 { c := a; } else { c := LastStepOfWalk(g, d, b, n - 1); }
  }

  lemma {:induction false} WalkWithin(h: Feeds, g: Feeds, a: Node, b: Node, n: nat)
    requires Within(h, g) && Walk(h, a, b, n)
    ensures Walk(g, a, b, n)
    decreases n
  {
    if n > 0 {
      var c :| Edge(h, a, c) && Walk(h, c, b, n - 1);
      WalkWithin(h, g, c, b, n - 1);
      assert Edge(g, a, c);
    }
  }

  lemma AcyclicWithin(h: Feeds, g: Feeds)
    requires Within(h, g) && Acyclic(g)
    ensures Acyclic(h)
  {
    forall a | Reaches(h, a, a)
      ensures false
    {
      var n: nat :| n > 0 && Walk(h, a, a, n);
      WalkWithin(h, g, a, a, n);
      assert Reaches(g, a, a);
    }
  }

  /** h has at most one edge more than g, from a to b. */
  ghost predicate OneMore(h: Feeds, g: Feeds, a: Node, b: Node) {
    forall x, y :: Edge(h, x, y) ==> Edge(g, x, y) || (x == a && y == b)
  }

  ghost predicate ReachesOrIs(g: Feeds, a: Node, b: Node) {
    a == b || Reaches(g, a, b)
  }

  lemma ReachesOrIsTransitive(g: Feeds, a: Node, b: Node, c: Node)
    requires ReachesOrIs(g, a, b) && ReachesOrIs(g, b, c)
    ensures ReachesOrIs(g, a, c)
  {
    if a != b && b != c { ReachesTransitive(g, a, b, c); }
  }

  /** A walk in h either avoids the new edge or goes through it. */
  lemma {:induction false} WalkOneMore(h: Feeds, g: Feeds, a: Node, b: Node, x: Node, y: Node, n: nat)
    requires OneMore(h, g, a, b) && n > 0 && Walk(h, x, y, n)
    ensures Reaches(g, x, y) || (ReachesOrIs(g, x, a) && ReachesOrIs(g, b, y))
    decreases n
  {
    var c :| Edge(h, x, c) && Walk(h, c, y, n - 1);
    if n > 1 {
      WalkOneMore(h, g, a, b, c, y, n - 1);
    }
    if Edge(g, x, c) {
      EdgeReaches(g, x, c);
      if Reaches(g, c, y) {
        ReachesTransitive(g, x, c, y);
      } else if n > 1 {
        ReachesOrIsTransitive(g, x, c, a);
      }
    } else {
      assert x == a && c == b;
    }
  }

  /** Adding an edge whose end does not already lead to its start closes no cycle. */
  lemma AddEdgeAcyclic(h: Feeds, g: Feeds, a: Node, b: Node)
    requires OneMore(h, g, a, b) && Acyclic(g)
    requires a != b && !Reaches(g, b, a)
    ensures Acyclic(h)
  {
    forall x | Reaches(h, x, x)
      ensures false
    {
      var n: nat :| n > 0 && Walk(h, x, x, n);
      WalkOneMore(h, g, a, b, x, x, n);
      ReachesOrIsTransitive(g, b, x, a);
    }
  }

  /** A numbering that grows along every edge rules out cycles. */
  ghost predicate Ranked(g: Feeds, rank: map<Node, int>) {
    forall a, b :: Edge(g, a, b) ==> a in rank && b in rank && rank[a] < rank[b]
  }

  lemma {:induction false} WalkRaisesRank(g: Feeds, rank: map<Node, int>, a: Node, b: Node, n: nat)
    requires Ranked(g, rank) && n > 0 && Walk(g, a, b, n)
    ensures a in rank && b in rank && rank[a] < rank[b]
    decreases n
  {
    var c :| Edge(g, a, c) && Walk(g, c, b, n - 1);
    if n > 1 { WalkRaisesRank(g, rank, c, b, n - 1); }
  }

  lemma RankedIsAcyclic(g: Feeds, rank: map<Node, int>)
    requires Ranked(g, rank)
    ensures Acyclic(g)
  {
    forall a | Reaches(g, a, a)
      ensures false
    {
      var n: nat :| n > 0 && Walk(g, a, a, n);
      WalkRaisesRank(g, rank, a, a, n);
    }
  }

  /** The nodes that appear in g at all. */
  ghost function Nodes(g: Feeds): set<Node> {
    g.Keys + set a, b | a in g && b in g[a] :: b
  }

  ghost function Descendants(g: Feeds, a: Node): set<Node> {
    set b | b in Nodes(g) && Reaches(g, a, b)
  }

  ghost function Ancestors(g: Feeds, b: Node): set<Node> {
    set a | a in Nodes(g) && Reaches(g, a, b)
  }

  lemma FewerDescendants(g: Feeds, a: Node, b: Node)
    requires Acyclic(g) && Edge(g, a, b)
    ensures |Descendants(g, b)| < |Descendants(g, a)|
  {
    EdgeReaches(g, a, b);
    forall c | c in Descendants(g, b)
      ensures c in Descendants(g, a)
    {
      ReachesTransitive(g, a, b, c);
    }
    assert b in Descendants(g, a) && b !in Descendants(g, b);
    StrictSubsetSize(Descendants(g, b), Descendants(g, a));
  }

  lemma FewerAncestors(g: Feeds, a: Node, b: Node)
    requires Acyclic(g) && Edge(g, a, b)
    ensures |Ancestors(g, a)| < |Ancestors(g, b)|
  {
    EdgeReaches(g, a, b);
    forall c | c in Ancestors(g, a)
      ensures c in Ancestors(g, b)
    {
      ReachesTransitive(g, c, a, b);
    }
    assert a in Ancestors(g, b) && a !in Ancestors(g, a);
    StrictSubsetSize(Ancestors(g, a), Ancestors(g, b));
  }

  ghost predicate FedFrom(g: Feeds, S: set<Node>, b: Node) {
    exists a :: a in S && Edge(g, a, b)
  }

  /** Every member of S is fed by a member of S. */
  ghost predicate Sourceless(g: Feeds, S: set<Node>) {
    forall b :: b in S ==> FedFrom(g, S, b)
  }

  /** In an acyclic graph every non-empty set of nodes has a member that no member feeds. */
  lemma {:induction false} AcyclicHasSource(g: Feeds, S: set<Node>, b: Node)
    requires Acyclic(g) && b in S
    ensures !Sourceless(g, S)
    decreases |Ancestors(g, b)|
  {
    if Sourceless(g, S) {
      assert FedFrom(g, S, b);
      var a :| a in S && Edge(g, a, b);
      FewerAncestors(g, a, b);
      AcyclicHasSource(g, S, a);
    }
  }

  /** The transitive search over the lists: look for the target among the direct
      successors, then search from each successor in turn. There is no record of
      visited nodes; acyclicity alone makes it terminate. */
  predicate FeedsTransitive(g: Dag, source: Node, dest: Node): (r: bool)
    ensures r <==> Reaches(g, source, dest)
    decreases |Descendants(g, source)|, 1, 0
  {
    if source !in g then NoStart(g, source, dest); false
    else if dest in g[source] then EdgeReaches(g, source, dest); true
    else FeedsFromAny(g, source, 0, dest)
  }

  predicate FeedsFromAny(g: Dag, source: Node, from: nat, dest: Node): (r: bool)
    requires source in g && from <= |g[source]| && dest !in g[source]
    requires forall k :: 0 <= k < from ==> !Reaches(g, g[source][k], dest)
    ensures r <==> Reaches(g, source, dest)
    decreases |Descendants(g, source)|, 0, |g[source]| - from
  {
    if from == |g[source]| then NoMiddle(g, source, dest); false
    else
      var med := g[source][from];
      assert Edge(g, source, med);
      FewerDescendants(g, source, med);
      if FeedsTransitive(g, med, dest)
      then EdgeReaches(g, source, med); ReachesTransitive(g, source, med, dest); true
      else FeedsFromAny(g, source, from + 1, dest)
  }

  lemma NoStart(g: Feeds, source: Node, dest: Node)
    requires source !in g
    ensures !Reaches(g, source, dest)
  {
    if Reaches(g, source, dest) {
      var c := FirstStep(g, source, dest);
    }
  }

  lemma NoMiddle(g: Feeds, source: Node, dest: Node)
    requires source in g && dest !in g[source]
    requires forall k :: 0 <= k < |g[source]| ==> !Reaches(g, g[source][k], dest)
    ensures !Reaches(g, source, dest)
  {
    if Reaches(g, source, dest) {
      var c := FirstStep(g, source, dest);
    }
  }
}
