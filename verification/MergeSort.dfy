/**
 The order produced by the list merge sort of jack/jslist.h, as a function on
 sequences, and what it guarantees for comparators that are only partial orders.
 */
module MergeSort {
  import opened Collections

  /** The comparator puts a strictly before b. */
  predicate Before<T>(cmp: (T, T) -> int, a: T, b: T) {
    cmp(a, b) < 0
  }

  /** Takes the head of xs only if it is strictly before the head of ys; ties go to ys. */
  function Merge<T>(xs: seq<T>, ys: seq<T>, cmp: (T, T) -> int): seq<T> {
    if xs == [] then ys
    else if ys == [] then xs
    else if Before(cmp, xs[0], ys[0]) then [xs[0]] + Merge(xs[1..], ys, cmp)
    else [ys[0]] + Merge(xs, ys[1..], cmp)
  }

  function Sort<T>(xs: seq<T>, cmp: (T, T) -> int): seq<T> {
    if |xs| <= 1 then xs
    else Merge(Sort(xs[..|xs| / 2], cmp), Sort(xs[|xs| / 2..], cmp), cmp)
  }

  // ----- The result holds the same elements as the input

  lemma {:induction false} MergePermutes<T>(xs: seq<T>, ys: seq<T>, cmp: (T, T) -> int)
    ensures multiset(Merge(xs, ys, cmp)) == multiset(xs) + multiset(ys)
    decreases |xs| + |ys|
  {
    if xs != [] && ys != [] {
      assert xs == [xs[0]] + xs[1..];
      assert ys == [ys[0]] + ys[1..];
      if Before(cmp, xs[0], ys[0]) { MergePermutes(xs[1..], ys, cmp); }
      else { MergePermutes(xs, ys[1..], cmp); }
    }
  }

  lemma {:induction false} SortPermutes<T>(xs: seq<T>, cmp: (T, T) -> int)
    ensures multiset(Sort(xs, cmp)) == multiset(xs)
    decreases |xs|
  {
    if |xs| > 1 {
      var h := |xs| / 2;
      var l, r := Sort(xs[..h], cmp), Sort(xs[h..], cmp);
      SortPermutes(xs[..h], cmp);
      SortPermutes(xs[h..], cmp);
      assert multiset(xs) == multiset(l) + multiset(r) by {
        assert xs == xs[..h] + xs[h..];
      }
      MergePermutes(l, r, cmp);
    }
  }

  // ----- What holds for every asymmetric comparator

  ghost predicate Asymmetric<T(!new)>(cmp: (T, T) -> int) {
    forall a, b :: Before(cmp, a, b) ==> !Before(cmp, b, a)
  }

  /** No element comes directly after one it should precede. */
  ghost predicate NoAdjacentInversion<T>(xs: seq<T>, cmp: (T, T) -> int) {
    forall i, j :: 0 <= i < |xs| && j == i + 1 && j < |xs| ==> !Before(cmp, xs[j], xs[i])
  }

  /** Prepending keeps the property when the new head may stand before the old head. */
  lemma ConsNoInversion<T>(x: T, xs: seq<T>, cmp: (T, T) -> int)
    requires NoAdjacentInversion(xs, cmp)
    requires xs != [] ==> !Before(cmp, xs[0], x)
    ensures NoAdjacentInversion([x] + xs, cmp)
  {
    var r := [x] + xs;
    forall i, j | 0 <= i < |r| && j == i + 1 && j < |r|
      ensures !Before(cmp, r[j], r[i])
    {
      if i > 0 { assert r[j] == xs[j - 1] && r[i] == xs[i - 1]; }
    }
  }

  lemma TailNoInversion<T>(xs: seq<T>, cmp: (T, T) -> int)
    requires NoAdjacentInversion(xs, cmp) && xs != []
    ensures NoAdjacentInversion(xs[1..], cmp)
    ensures |xs| > 1 ==> !Before(cmp, xs[1], xs[0])
  {
    var t := xs[1..];
    forall i, j | 0 <= i < |t| && j == i + 1 && j < |t|
      ensures !Before(cmp, t[j], t[i])
    {
      assert t[j] == xs[j + 1] && t[i] == xs[i + 1];
    }
  }

  lemma {:induction false} MergeNoInversion<T(!new)>(xs: seq<T>, ys: seq<T>, cmp: (T, T) -> int)
    requires Asymmetric(cmp)
    requires NoAdjacentInversion(xs, cmp) && NoAdjacentInversion(ys, cmp)
    ensures NoAdjacentInversion(Merge(xs, ys, cmp), cmp)
    decreases |xs| + |ys|
  {
    if xs != [] && ys != [] {
      if Before(cmp, xs[0], ys[0]) {
        TailNoInversion(xs, cmp);
        MergeNoInversion(xs[1..], ys, cmp);
        ConsNoInversion(xs[0], Merge(xs[1..], ys, cmp), cmp);
      } else {
        TailNoInversion(ys, cmp);
        MergeNoInversion(xs, ys[1..], cmp);
        ConsNoInversion(ys[0], Merge(xs, ys[1..], cmp), cmp);
      }
    }
  }

  lemma {:induction false} SortNoInversion<T(!new)>(xs: seq<T>, cmp: (T, T) -> int)
    requires Asymmetric(cmp)
    ensures NoAdjacentInversion(Sort(xs, cmp), cmp)
    decreases |xs|
  {
    if |xs| > 1 {
      SortNoInversion(xs[..|xs| / 2], cmp);
      SortNoInversion(xs[|xs| / 2..], cmp);
      MergeNoInversion(Sort(xs[..|xs| / 2], cmp), Sort(xs[|xs| / 2..], cmp), cmp);
    }
  }

  /** If the comparator puts every member of a class before every non-member,
      then so does the sorted list. */
  lemma {:induction false} ClassComesFirst<T>(xs: seq<T>, cmp: (T, T) -> int, first: T -> bool, i: nat, j: nat)
    requires NoAdjacentInversion(xs, cmp)
    requires forall a, b :: a in xs && b in xs && first(a) && !first(b) ==> Before(cmp, a, b)
    requires i < j < |xs| && first(xs[j])
    ensures first(xs[i])
    decreases j - i
  {
    assert !Before(cmp, xs[j], xs[j - 1]);
    if i < j - 1 { ClassComesFirst(xs, cmp, first, i, j - 1); }
  }

  // ----- When the result is a topological order

  /** No element comes anywhere after one it should precede. */
  ghost predicate Ordered<T>(xs: seq<T>, cmp: (T, T) -> int) {
    forall i, j :: 0 <= i < j < |xs| ==> !Before(cmp, xs[j], xs[i])
  }

  ghost predicate StrictPartialOrder<T(!new)>(cmp: (T, T) -> int) {
    && (forall a :: !Before(cmp, a, a))
    && (forall a, b, c :: Before(cmp, a, b) && Before(cmp, b, c) ==> Before(cmp, a, c))
  }

  /** Within V every pair in order is split by every third element: together with
      StrictPartialOrder this makes the relation a strict weak order on V. */
  ghost predicate WeakOn<T>(V: set<T>, cmp: (T, T) -> int) {
    forall a, b, c :: a in V && b in V && c in V && Before(cmp, a, c) ==> Before(cmp, a, b) || Before(cmp, b, c)
  }

  ghost predicate ListOver<T>(xs: seq<T>, V: set<T>) {
    Distinct(xs) && forall x :: x in xs ==> x in V
  }

  /** Sort puts every duplicate-free list over V into topological order. */
  ghost predicate SortsEveryList<T(!new)>(V: set<T>, cmp: (T, T) -> int) {
    forall xs: seq<T> :: ListOver(xs, V) ==> Ordered(Sort(xs, cmp), cmp)
  }

  lemma {:induction false} WeakNoInversionIsOrdered<T(!new)>(
      V: set<T>, xs: seq<T>, cmp: (T, T) -> int, i: nat, j: nat)
    requires WeakOn(V, cmp) && NoAdjacentInversion(xs, cmp)
    requires forall x :: x in xs ==> x in V
    requires i < j < |xs|
    ensures !Before(cmp, xs[j], xs[i])
    decreases j - i
  {
    if i < j - 1 {
      WeakNoInversionIsOrdered(V, xs, cmp, i, j - 1);
      assert !Before(cmp, xs[j], xs[j - 1]);
    }
  }

  lemma WeakSorts<T(!new)>(V: set<T>, xs: seq<T>, cmp: (T, T) -> int)
    requires StrictPartialOrder(cmp) && WeakOn(V, cmp) && forall x :: x in xs ==> x in V
    ensures Ordered(Sort(xs, cmp), cmp)
  {
    var r := Sort(xs, cmp);
    assert Asymmetric(cmp);
    SortNoInversion(xs, cmp);
    SortPermutes(xs, cmp);
    PermutationFacts(r, xs);
    forall i, j | 0 <= i < j < |r|
      ensures !Before(cmp, r[j], r[i])
    {
      WeakNoInversionIsOrdered(V, r, cmp, i, j);
    }
  }

  lemma SortOfTwo<T>(a: T, b: T, cmp: (T, T) -> int)
    ensures Sort([a, b], cmp) == if Before(cmp, a, b) then [a, b] else [b, a]
  {
    var xs := [a, b];
    assert xs[..1] == [a] && xs[1..] == [b];
    assert [a][1..] == [] && [b][1..] == [];
    assert Sort(xs, cmp) == Merge([a], [b], cmp);
  }

  lemma SortOfThree<T>(a: T, b: T, c: T, cmp: (T, T) -> int)
    ensures Sort([a, b, c], cmp) == Merge([a], if Before(cmp, b, c) then [b, c] else [c, b], cmp)
  {
    var xs := [a, b, c];
    assert xs[..1] == [a] && xs[1..] == [b, c];
    SortOfTwo(b, c, cmp);
  }

  lemma SortOfFour<T>(a: T, b: T, c: T, d: T, cmp: (T, T) -> int)
    ensures Sort([a, b, c, d], cmp)
         == Merge(if Before(cmp, a, b) then [a, b] else [b, a],
                  if Before(cmp, c, d) then [c, d] else [d, c], cmp)
  {
    var xs := [a, b, c, d];
    assert xs[..2] == [a, b] && xs[2..] == [c, d];
    SortOfTwo(a, b, cmp);
    SortOfTwo(c, d, cmp);
  }

  lemma InsertIntoPair<T>(a: T, p: T, q: T, cmp: (T, T) -> int)
    ensures Merge([a], [p, q], cmp)
         == if Before(cmp, a, p) then [a, p, q] else if Before(cmp, a, q) then [p, a, q] else [p, q, a]
  {
    assert [a][1..] == [] && [p, q][1..] == [q] && [q][1..] == [];
    assert Merge([a], [q], cmp) == if Before(cmp, a, q) then [a, q] else [q, a];
  }

  lemma OrderedThree<T>(a: T, b: T, c: T, cmp: (T, T) -> int)
    requires !Before(cmp, b, a) && !Before(cmp, c, a) && !Before(cmp, c, b)
    ensures Ordered([a, b, c], cmp)
  {
  }

  lemma OrderedTwo<T>(a: T, b: T, cmp: (T, T) -> int)
    requires !Before(cmp, b, a)
    ensures Ordered([a, b], cmp)
  {
  }

  /** Up to three elements the sort is right for every partial order. */
  lemma ShortListsSort<T(!new)>(xs: seq<T>, cmp: (T, T) -> int)
    requires StrictPartialOrder(cmp) && |xs| <= 3
    ensures Ordered(Sort(xs, cmp), cmp)
  {
    hide Merge, Before;
    if |xs| == 2 {
      hide Ordered, Sort;
      assert xs == [xs[0], xs[1]];
      SortOfTwo(xs[0], xs[1], cmp);
      if Before(cmp, xs[0], xs[1]) { OrderedTwo(xs[0], xs[1], cmp); } else { OrderedTwo(xs[1], xs[0], cmp); }
    } else if |xs| == 3 {
      hide Ordered, Sort;
      var a, b, c := xs[0], xs[1], xs[2];
      assert xs == [a, b, c];
      SortOfThree(a, b, c, cmp);
      if Before(cmp, b, c) { InsertedInOrder(a, b, c, cmp); } else { InsertedInOrder(a, c, b, cmp); }
    }
  }

  lemma InsertedInOrder<T(!new)>(a: T, p: T, q: T, cmp: (T, T) -> int)
    requires StrictPartialOrder(cmp) && !Before(cmp, q, p)
    ensures Ordered(Merge([a], [p, q], cmp), cmp)
  {
    InsertIntoPair(a, p, q, cmp);
    if Before(cmp, a, p) {
      assert !Before(cmp, q, a);
      assert !Before(cmp, p, a);
      OrderedThree(a, p, q, cmp);
    } else if Before(cmp, a, q) {
      assert !Before(cmp, q, a);
      OrderedThree(p, a, q, cmp);
    } else {
      OrderedThree(p, q, a, cmp);
    }
  }

  lemma {:induction false} DistinctFits<T>(xs: seq<T>, V: set<T>)
    requires ListOver(xs, V)
    ensures |xs| <= |V|
    decreases |xs|
  {
    if xs != [] {
      DistinctFits(xs[1..], V - {xs[0]});
    }
  }

  lemma MergeTakesSecond<T>(x: T, y: T, c: T, d: T, cmp: (T, T) -> int)
    requires !Before(cmp, x, c)
    ensures Merge([x, y], [c, d], cmp) == [c] + Merge([x, y], [d], cmp)
    ensures !Before(cmp, x, d) ==> Merge([x, y], [d], cmp) == [d, x, y]
  {
    assert [c, d][1..] == [d];
    assert [d][1..] == [];
  }

  lemma OutOfOrder<T>(xs: seq<T>, i: nat, j: nat, cmp: (T, T) -> int)
    requires i < j < |xs| && Before(cmp, xs[j], xs[i])
    ensures !Ordered(xs, cmp)
  {
  }

  /** A pair y before z, a third element unordered with both, and any fourth
      element: some arrangement of the four is sorted with z ahead of y. */
  lemma FourElementsFail<T(!new)>(x: T, y: T, z: T, w: T, cmp: (T, T) -> int) returns (xs: seq<T>)
    requires StrictPartialOrder(cmp)
    requires Before(cmp, y, z) && !Before(cmp, y, x) && !Before(cmp, x, z)
    requires w != x && w != y && w != z
    ensures ListOver(xs, {x, y, z, w}) && !Ordered(Sort(xs, cmp), cmp)
  {
    hide Merge, Sort, Ordered;
    if !Before(cmp, x, w) && !Before(cmp, z, w) {
      xs := [y, x, z, w];
      SortOfFour(y, x, z, w, cmp);
      MergeTakesSecond(x, y, w, z, cmp);
      OutOfOrder([w] + [z, x, y], 1, 3, cmp);
    } else {
      xs := [y, x, w, z];
      SortOfFour(y, x, w, z, cmp);
      assert !Before(cmp, w, z);
      MergeTakesSecond(x, y, z, w, cmp);
      ZFirst(x, y, z, w, cmp);
    }
  }

  lemma ZFirst<T>(x: T, y: T, z: T, w: T, cmp: (T, T) -> int)
    requires Before(cmp, y, z)
    ensures !Ordered([z] + Merge([x, y], [w], cmp), cmp)
  {
    var rest := Merge([x, y], [w], cmp);
    MergePermutes([x, y], [w], cmp);
    assert [x, y][1] in multiset([x, y]);
    assert y in multiset(rest);
    var k :| 0 <= k < |rest| && rest[k] == y;
    OutOfOrder([z] + rest, 0, k + 1, cmp);
  }

  /** The exact condition: for a partial order, every list over V comes out in
      topological order if and only if V has at most three elements or the
      relation is a strict weak order on V. */
  lemma SortsEveryListIff<T(!new)>(V: set<T>, cmp: (T, T) -> int)
    requires StrictPartialOrder(cmp)
    ensures SortsEveryList(V, cmp) <==> |V| <= 3 || WeakOn(V, cmp)
  {
    if |V| <= 3 || WeakOn(V, cmp) {
      forall xs: seq<T> | ListOver(xs, V)
        ensures Ordered(Sort(xs, cmp), cmp)
      {
        if WeakOn(V, cmp) { WeakSorts(V, xs, cmp); }
        else { DistinctFits(xs, V); ShortListsSort(xs, cmp); }
      }
    } else {
      var y, x, z :| y in V && x in V && z in V && Before(cmp, y, z)
                     && !Before(cmp, y, x) && !Before(cmp, x, z);
      var w := Fourth(V, x, y, z);
      var xs := FourElementsFail(x, y, z, w, cmp);
      assert ListOver(xs, V);
    }
  }

  lemma Fourth<T>(V: set<T>, x: T, y: T, z: T) returns (w: T)
    requires |V| > 3
    ensures w in V && w != x && w != y && w != z
  {
    var rest := V - {x, y, z};
    if rest == {} {
      assert V <= {x, y, z};
      AtMostThree(V, x, y, z);
    }
    w :| w in rest;
  }

  lemma AtMostThree<T>(V: set<T>, x: T, y: T, z: T)
    requires V <= {x, y, z}
    ensures |V| <= 3
  {
    assert {x, y, z} == {x} + {y} + {z};
    SubsetSize(V, {x, y, z});
  }
}
