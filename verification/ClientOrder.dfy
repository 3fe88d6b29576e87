/** The comparator that orders the engine's client list, and the list it produces. */
module ClientOrder {
  import opened Digraph
  import opened FeedGraph
  import opened MergeSort

  /** jack_client_sort: feeding comes first, drivers come before everything else. */
  function ClientSort(g: Dag, control: map<ClientId, Control>, a: ClientId, b: ClientId): int {
    if FeedsTransitive(g, a, b) || (IsDriver(control, a) && !IsDriver(control, b)) then -1
    else if FeedsTransitive(g, b, a) || (IsDriver(control, b) && !IsDriver(control, a)) then 1
    else 0
  }

  function Comparator(g: Dag, control: map<ClientId, Control>): (ClientId, ClientId) -> int {
    (a: ClientId, b: ClientId) => ClientSort(g, control, a, b)
  }

  ghost predicate MustPrecede(g: Feeds, control: map<ClientId, Control>, a: ClientId, b: ClientId) {
    Reaches(g, a, b) || (IsDriver(control, a) && !IsDriver(control, b))
  }

  lemma NothingLeadsToDriver(g: Feeds, control: map<ClientId, Control>, a: ClientId, d: ClientId)
    requires DriversUnfed(control, g) && Reaches(g, a, d)
    ensures !IsDriver(control, d)
  {
    var c := LastStep(g, a, d);
  }

  lemma PrecedenceAsymmetric(g: Feeds, control: map<ClientId, Control>, a: ClientId, b: ClientId)
    requires Acyclic(g) && DriversUnfed(control, g) && MustPrecede(g, control, a, b)
    ensures !MustPrecede(g, control, b, a)
  {
    if Reaches(g, a, b) { NothingLeadsToDriver(g, control, a, b); }
    if Reaches(g, b, a) {
      NothingLeadsToDriver(g, control, b, a);
      if Reaches(g, a, b) { ReachesTransitive(g, a, b, a); }
    }
  }

  lemma PrecedenceTransitive(g: Feeds, control: map<ClientId, Control>, a: ClientId, b: ClientId, c: ClientId)
    requires DriversUnfed(control, g) && MustPrecede(g, control, a, b) && MustPrecede(g, control, b, c)
    ensures MustPrecede(g, control, a, c)
  {
    if Reaches(g, a, b) { NothingLeadsToDriver(g, control, a, b); }
    if Reaches(g, b, c) { NothingLeadsToDriver(g, control, b, c); }
    if Reaches(g, a, b) && Reaches(g, b, c) { ReachesTransitive(g, a, b, c); }
  }

  /** The comparator answers -1 exactly on the pairs in order and 1 exactly on their
      converses: the feed rule and the driver rule never contradict each other. */
  lemma ClientSortAnswers(g: Dag, control: map<ClientId, Control>, a: ClientId, b: ClientId)
    requires DriversUnfed(control, g)
    ensures Before(Comparator(g, control), a, b) <==> MustPrecede(g, control, a, b)
    ensures ClientSort(g, control, a, b) == -1 <==> MustPrecede(g, control, a, b)
    ensures ClientSort(g, control, a, b) == 1 <==> MustPrecede(g, control, b, a)
    ensures ClientSort(g, control, a, b) == -ClientSort(g, control, b, a)
  {
    if MustPrecede(g, control, a, b) { PrecedenceAsymmetric(g, control, a, b); }
    if MustPrecede(g, control, b, a) { PrecedenceAsymmetric(g, control, b, a); }
  }

  lemma ClientSortIsPartialOrder(g: Dag, control: map<ClientId, Control>)
    requires DriversUnfed(control, g)
    ensures StrictPartialOrder(Comparator(g, control))
  {
    var cmp := Comparator(g, control);
    forall a
      ensures !Before(cmp, a, a)
    {
      ClientSortAnswers(g, control, a, a);
    }
    forall a, b, c | Before(cmp, a, b) && Before(cmp, b, c)
      ensures Before(cmp, a, c)
    {
      ClientSortAnswers(g, control, a, b);
      ClientSortAnswers(g, control, b, c);
      PrecedenceTransitive(g, control, a, b, c);
      ClientSortAnswers(g, control, a, c);
    }
  }

  /** All drivers come before all other clients. */
  ghost predicate DriversFirst(xs: seq<ClientId>, control: map<ClientId, Control>) {
    forall i, j :: 0 <= i < j < |xs| && IsDriver(control, xs[j]) ==> IsDriver(control, xs[i])
  }

  /** What jack_sort_graph guarantees of the new client list, whatever the old one was:
      the same clients, no client directly after one it must precede, drivers first. */
  lemma SortedClients(xs: seq<ClientId>, g: Dag, control: map<ClientId, Control>)
    requires DriversUnfed(control, g)
    ensures var r := Sort(xs, Comparator(g, control));
            && multiset(r) == multiset(xs)
            && DriversFirst(r, control)
            && forall i, j :: 0 <= i < |r| && j == i + 1 && j < |r| ==> !MustPrecede(g, control, r[j], r[i])
  {
    var cmp := Comparator(g, control);
    var r := Sort(xs, cmp);
    SortPermutes(xs, cmp);
    ClientSortIsPartialOrder(g, control);
    SortNoInversion(xs, cmp);
    forall i, j | 0 <= i < |r| && j == i + 1 && j < |r|
      ensures !MustPrecede(g, control, r[j], r[i])
    {
      ClientSortAnswers(g, control, r[j], r[i]);
    }
    forall i, j | 0 <= i < j < |r| && IsDriver(control, r[j])
      ensures IsDriver(control, r[i])
    {
      forall a, b | a in r && b in r && IsDriver(control, a) && !IsDriver(control, b)
        ensures Before(cmp, a, b)
      {
        ClientSortAnswers(g, control, a, b);
      }
      ClassComesFirst(r, cmp, c => IsDriver(control, c), i, j);
    }
  }

  /** No client anywhere after one that it must precede. */
  ghost predicate Topological(xs: seq<ClientId>, g: Feeds, control: map<ClientId, Control>) {
    forall i, j :: 0 <= i < j < |xs| ==> !MustPrecede(g, control, xs[j], xs[i])
  }

  /** Any two clients in order are kept apart by every third one. */
  ghost predicate Layered(V: set<ClientId>, g: Feeds, control: map<ClientId, Control>) {
    forall a, b, c :: a in V && b in V && c in V && MustPrecede(g, control, a, c) ==>
      MustPrecede(g, control, a, b) || MustPrecede(g, control, b, c)
  }

  /** "All ordering constraints can actually be met": the sort meets them for every
      arrangement of clients from V if and only if there are at most three of them or
      the constraints layer them. */
  lemma SortMeetsConstraintsIff(V: set<ClientId>, g: Dag, control: map<ClientId, Control>)
    requires DriversUnfed(control, g)
    ensures (forall xs: seq<ClientId> :: ListOver(xs, V) ==> Topological(Sort(xs, Comparator(g, control)), g, control))
       <==> |V| <= 3 || Layered(V, g, control)
  {
    var cmp := Comparator(g, control);
    ClientSortIsPartialOrder(g, control);
    SortsEveryListIff(V, cmp);
    forall a, b { ClientSortAnswers(g, control, a, b); }
    LayeredIsWeak(V, g, control);
    forall xs: seq<ClientId>
      ensures Topological(xs, g, control) <==> Ordered(xs, cmp)
    {
      TopologicalIsOrdered(xs, g, control);
    }
    assert SortsEveryList(V, cmp) <==>
      forall xs: seq<ClientId> :: ListOver(xs, V) ==> Topological(Sort(xs, cmp), g, control);
  }

  lemma TopologicalIsOrdered(xs: seq<ClientId>, g: Dag, control: map<ClientId, Control>)
    requires DriversUnfed(control, g)
    ensures Topological(xs, g, control) <==> Ordered(xs, Comparator(g, control))
  {
    forall i, j | 0 <= i < j < |xs|
      ensures MustPrecede(g, control, xs[j], xs[i]) <==> Before(Comparator(g, control), xs[j], xs[i])
    {
      ClientSortAnswers(g, control, xs[j], xs[i]);
    }
  }

  lemma LayeredIsWeak(V: set<ClientId>, g: Dag, control: map<ClientId, Control>)
    requires DriversUnfed(control, g)
    ensures Layered(V, g, control) <==> WeakOn(V, Comparator(g, control))
  {
    forall a, b
      ensures MustPrecede(g, control, a, b) <==> Before(Comparator(g, control), a, b)
    {
      ClientSortAnswers(g, control, a, b);
    }
  }

  /** No rule between any two clients of the list, except that the first may precede the third. */
  ghost predicate AtMostFirstToThird(g: Feeds, control: map<ClientId, Control>, xs: seq<ClientId>) {
    forall i, j :: 0 <= i < |xs| && 0 <= j < |xs| && !(i == 0 && j == 2) ==> !MustPrecede(g, control, xs[i], xs[j])
  }

  /** Ties reverse a list of four; and so does the sort when the first client of the list must
      precede the third, which is then behind it. */
  lemma FourReversed(g: Dag, control: map<ClientId, Control>, a: ClientId, b: ClientId, c: ClientId, d: ClientId)
    requires DriversUnfed(control, g) && AtMostFirstToThird(g, control, [a, b, c, d])
    ensures Sort<ClientId>([a, b, c, d], Comparator(g, control)) == [d, c, b, a]
  {
    var cmp, xs := Comparator(g, control), [a, b, c, d];
    assert !MustPrecede(g, control, xs[0], xs[1]) && !MustPrecede(g, control, xs[2], xs[3]);
    assert !MustPrecede(g, control, xs[1], xs[3]) && !MustPrecede(g, control, xs[1], xs[2]);
    ClientSortAnswers(g, control, a, b);
    ClientSortAnswers(g, control, c, d);
    ClientSortAnswers(g, control, b, d);
    ClientSortAnswers(g, control, b, c);
    hide Reaches, ClientSort, Comparator, Merge, Sort, MustPrecede;
    SortOfFour<ClientId>(a, b, c, d, cmp);
    MergeTakesSecond<ClientId>(b, a, d, c, cmp);
  }
}
