/**
 The singly linked list of jack/jslist.h, sorted by relinking its nodes in place.
 */
module JSList {
  import opened Collections
  import opened MergeSort

  class Node<T> {
    const data: T
    var next: Node?<T>

    constructor (data: T, next: Node?<T>)
      ensures this.data == data && this.next == next
    {
      this.data, this.next := data, next;
    }
  }

  /** The nodes of the list that starts at head are exactly ns, in that order. */
  ghost predicate IsList<T>(head: Node?<T>, ns: seq<Node<T>>)
    reads NodeSet(ns)
  {
    && Distinct(ns)
    && head == At(ns, 0)
    && forall i {:trigger ns[i].next} :: 0 <= i < |ns| ==> ns[i].next == At(ns, i + 1)
  }

  ghost function NodeSet<T>(ns: seq<Node<T>>): set<Node<T>> {
    set n | n in ns
  }

  ghost function At<T>(ns: seq<Node<T>>, i: nat): Node?<T> {
    if i < |ns| then ns[i] else null
  }

  /** The comparator applied to the data of two nodes. */
  ghost function ByData<T>(cmp: (T, T) -> int): (Node<T>, Node<T>) -> int {
    (a: Node<T>, b: Node<T>) => cmp(a.data, b.data)
  }

  /** done is a chain from head to last whose nodes are linked to each other;
      the link out of last is still to be set. */
  ghost predicate OpenChain<T>(head: Node?<T>, last: Node?<T>, done: seq<Node<T>>)
    reads NodeSet(done)
  {
    && Distinct(done)
    && head == At(done, 0)
    && last == (if done == [] then null else done[|done| - 1])
    && forall i {:trigger done[i].next} :: 0 <= i < |done| - 1 ==> done[i].next == done[i + 1]
  }

  lemma SnocDistinct<T>(xs: seq<T>, x: T)
    requires Distinct(xs) && x !in xs
    ensures Distinct(xs + [x])
  {
  }

  /** Linking the end of a chain to a list gives one list. */
  lemma ChainThenList<T>(head: Node?<T>, last: Node?<T>, done: seq<Node<T>>, rest: Node?<T>, tail: seq<Node<T>>)
    requires OpenChain(if done == [] then null else head, last, done) && IsList(rest, tail) && NodeSet(done) !! NodeSet(tail)
    requires if done == [] then head == rest else last.next == rest
    ensures IsList(head, done + tail)
  {
    var ns := done + tail;
    forall i, j | 0 <= i < j < |ns|
      ensures ns[i] != ns[j]
    {
      if i < |done| <= j { assert ns[i] in NodeSet(done) && ns[j] == tail[j - |done|] && ns[j] in NodeSet(tail); }
    }
    forall i | 0 <= i < |ns|
      ensures ns[i].next == At(ns, i + 1)
    {
      if i < |done| {
        assert ns[i] == done[i];
      } else {
        assert ns[i] == tail[i - |done|];
      }
    }
  }

  lemma Uncons<T>(head: Node<T>, ns: seq<Node<T>>)
    requires IsList(head, ns)
    ensures ns != [] && ns[0] == head && IsList(head.next, ns[1..])
    ensures head !in NodeSet(ns[1..]) && NodeSet(ns) == {head} + NodeSet(ns[1..])
  {
  }

  lemma MergeStep<T>(done: seq<T>, xs: seq<T>, ys: seq<T>, cmp: (T, T) -> int)
    requires xs != [] && ys != []
    ensures done + Merge(xs, ys, cmp)
         == if Before(cmp, xs[0], ys[0]) then done + [xs[0]] + Merge(xs[1..], ys, cmp)
            else done + [ys[0]] + Merge(xs, ys[1..], cmp)
  {
  }

  lemma MergeEnd<T>(xs: seq<T>, ys: seq<T>, cmp: (T, T) -> int)
    ensures xs == [] ==> Merge(xs, ys, cmp) == ys
    ensures ys == [] ==> Merge(xs, ys, cmp) == xs
  {
  }

  /** Move the head node of a list to the end of an open chain. */
  method Take<T>(head: Node?<T>, last: Node?<T>, l: Node<T>, ghost done: seq<Node<T>>, ghost rs: seq<Node<T>>)
    returns (newHead: Node?<T>, rest: Node?<T>)
    requires OpenChain(head, last, done) && IsList(l, rs) && NodeSet(done) !! NodeSet(rs)
    modifies if last == null then {} else {last}
    ensures rs != [] && rs[0] == l
    ensures OpenChain(newHead, l, done + [l]) && IsList(rest, rs[1..])
    ensures NodeSet(done + [l]) == NodeSet(done) + {l}
    ensures l !in NodeSet(rs[1..]) && NodeSet(rs) == {l} + NodeSet(rs[1..])
  {
    Uncons(l, rs);
    SnocDistinct(done, l);
    newHead := head;
    if last == null { newHead := l; } else { last.next := l; }
    rest := l.next;
    assert forall i :: 0 <= i < |done| ==> (done + [l])[i] == done[i];
  }

  /** Close an open chain with a list. */
  method LinkRest<T>(head: Node?<T>, last: Node?<T>, rest: Node?<T>,
                     ghost done: seq<Node<T>>, ghost tail: seq<Node<T>>) returns (newHead: Node?<T>)
    requires OpenChain(head, last, done) && IsList(rest, tail) && NodeSet(done) !! NodeSet(tail)
    modifies if last == null then {} else {last}
    ensures IsList(newHead, done + tail)
  {
    assert last != null ==> last in NodeSet(done);
    newHead := head;
    if last == null { newHead := rest; } else { last.next := rest; }
    ChainThenList(newHead, last, done, rest, tail);
  }

  /** jack_slist_sort_merge. The head cell the original keeps on the stack is the
      pair (head, last). */
  method SortMerge<T>(first: Node?<T>, second: Node?<T>, cmp: (T, T) -> int,
                      ghost n1: seq<Node<T>>, ghost n2: seq<Node<T>>) returns (head: Node?<T>)
    requires IsList(first, n1) && IsList(second, n2) && NodeSet(n1) !! NodeSet(n2)
    modifies NodeSet(n1) + NodeSet(n2)
    ensures IsList(head, Merge(n1, n2, ByData(cmp)))
  {
    hide Merge;
    var l1, l2 := first, second;
    head := null;
    var last: Node?<T> := null;
    ghost var done: seq<Node<T>>, r1, r2 := [], n1, n2;
    while l1 != null && l2 != null
      invariant IsList(l1, r1) && IsList(l2, r2) && OpenChain(head, last, done)
      invariant NodeSet(done) !! NodeSet(r1) !! NodeSet(r2)
      invariant NodeSet(done) + NodeSet(r1) + NodeSet(r2) == NodeSet(n1) + NodeSet(n2)
      invariant done + Merge(r1, r2, ByData(cmp)) == Merge(n1, n2, ByData(cmp))
      decreases |r1| + |r2|
    {
      assert last != null ==> last in NodeSet(done);
      MergeStep(done, r1, r2, ByData(cmp));
      if cmp(l1.data, l2.data) < 0 {
        var node := l1;
        head, l1 := Take(head, last, node, done, r1);
        last := node;
        done, r1 := done + [r1[0]], r1[1..];
      } else {
        var node := l2;
        head, l2 := Take(head, last, node, done, r2);
        last := node;
        done, r2 := done + [r2[0]], r2[1..];
      }
    }
    MergeEnd(r1, r2, ByData(cmp));
    head := LinkRest(head, last, if l1 != null then l1 else l2, done, if l1 != null then r1 else r2);
  }

  // ----- The data along a list

  ghost function Values<T>(ns: seq<Node<T>>): seq<T> {
    seq(|ns|, i requires 0 <= i < |ns| => ns[i].data)
  }

  lemma {:induction false} MergeValues<T>(xs: seq<Node<T>>, ys: seq<Node<T>>, cmp: (T, T) -> int)
    ensures Values(Merge(xs, ys, ByData(cmp))) == Merge(Values(xs), Values(ys), cmp)
    decreases |xs| + |ys|
  {
    if xs != [] && ys != [] {
      assert Values(xs)[1..] == Values(xs[1..]) && Values(ys)[1..] == Values(ys[1..]);
      if Before(cmp, xs[0].data, ys[0].data) {
        MergeValues(xs[1..], ys, cmp);
        ConsValues(xs[0], Merge(xs[1..], ys, ByData(cmp)));
      } else {
        MergeValues(xs, ys[1..], cmp);
        ConsValues(ys[0], Merge(xs, ys[1..], ByData(cmp)));
      }
    }
  }

  lemma ConsValues<T>(n: Node<T>, ns: seq<Node<T>>)
    ensures Values([n] + ns) == [n.data] + Values(ns)
  {
  }

  /** Sorting the nodes by their data sorts the data. */
  lemma {:induction false} SortValues<T>(ns: seq<Node<T>>, cmp: (T, T) -> int)
    ensures Values(Sort(ns, ByData(cmp))) == Sort(Values(ns), cmp)
    decreases |ns|
  {
    if |ns| > 1 {
      var h := |ns| / 2;
      SortValues(ns[..h], cmp);
      SortValues(ns[h..], cmp);
      assert Values(ns)[..h] == Values(ns[..h]) && Values(ns)[h..] == Values(ns[h..]);
      MergeValues(Sort(ns[..h], ByData(cmp)), Sort(ns[h..], ByData(cmp)), cmp);
    }
  }

  /** What the order of the data along the sorted list is. */
  lemma SortedValues<T(!new)>(ns: seq<Node<T>>, cmp: (T, T) -> int)
    ensures var out := Values(Sort(ns, ByData(cmp)));
            && out == Sort(Values(ns), cmp) && multiset(out) == multiset(Values(ns))
            && (Asymmetric(cmp) ==> NoAdjacentInversion(out, cmp))
            && (StrictPartialOrder(cmp) && (|ns| <= 3 || WeakOn(ToSet(Values(ns)), cmp)) ==> Ordered(out, cmp))
  {
    var vs := Values(ns);
    SortValues(ns, cmp);
    SortPermutes(vs, cmp);
    hide Sort;
    if Asymmetric(cmp) { SortNoInversion(vs, cmp); }
    if StrictPartialOrder(cmp) {
      if |ns| <= 3 { ShortListsSort(vs, cmp); }
      else if WeakOn(ToSet(vs), cmp) { WeakSorts(ToSet(vs), vs, cmp); }
    }
  }

  /** jack_slist_sort: a two-speed walk finds the middle, the list is cut there, the halves
      are sorted and merged.  The nodes come out in the order of the sort on their data. */
  method SortList<T(!new)>(list: Node?<T>, cmp: (T, T) -> int, ghost ns: seq<Node<T>>)
    returns (head: Node?<T>, ghost out: seq<Node<T>>)
    requires IsList(list, ns)
    modifies NodeSet(ns)
    ensures IsList(head, out) && multiset(out) == multiset(ns)
    ensures Values(out) == Sort(Values(ns), cmp)
    ensures Asymmetric(cmp) ==> NoAdjacentInversion(Values(out), cmp)
    ensures StrictPartialOrder(cmp) && (|ns| <= 3 || WeakOn(ToSet(Values(ns)), cmp)) ==> Ordered(Values(out), cmp)
  {
    out := Sort(ns, ByData(cmp));
    SortedValues(ns, cmp);
    SortPermutes(ns, ByData(cmp));
    head := SortNodes(list, cmp, ns);
  }

  method SortNodes<T>(list: Node?<T>, cmp: (T, T) -> int, ghost ns: seq<Node<T>>) returns (head: Node?<T>)
    requires IsList(list, ns)
    modifies NodeSet(ns)
    ensures IsList(head, Sort(ns, ByData(cmp)))
    decreases |ns|
  {
    if list == null { return null; }
    if list.next == null { return list; }
    ghost var front, back := ns[..|ns| / 2], ns[|ns| / 2..];
    HalvesDisjoint(ns, |ns| / 2);
    var middle := CutInHalf(list, ns);
    var a := SortNodes(list, cmp, front);
    assert IsList(middle, back);
    ghost var f, g := Sort(front, ByData(cmp)), Sort(back, ByData(cmp));
    SameNodes(front, f, cmp);
    SameNodes(back, g, cmp);
    var b := SortNodes(middle, cmp, back);
    assert IsList(a, f);
    head := SortMerge(a, b, cmp, f, g);
  }

  /** The two-speed walk: one pointer moves two nodes for each node of the other. */
  method CutInHalf<T>(list: Node<T>, ghost ns: seq<Node<T>>) returns (middle: Node?<T>)
    requires IsList(list, ns) && |ns| > 1
    modifies NodeSet(ns)
    ensures IsList(list, ns[..|ns| / 2]) && IsList(middle, ns[|ns| / 2..])
  {
    var l1, l2: Node?<T> := list, list.next;
    ghost var i := 0;
    l2 := l2.next;
    while l2 != null
      invariant 0 <= i && 2 * i + 2 <= |ns|
      invariant l1 == ns[i] && l2 == At(ns, 2 * i + 2)
      decreases |ns| - i
    {
      l2 := l2.next;
      if l2 == null { break; }
      l1, i := l1.next, i + 1;
      l2 := l2.next;
    }
    ghost var h := |ns| / 2;
    assert i + 1 == h;
    assert l1.next == At(ns, h) == At(ns[h..], 0);
    middle := l1.next;
    l1.next := null;
    assert forall k :: 0 <= k < |ns| - h ==> ns[h..][k] == ns[h + k];
  }

  lemma HalvesDisjoint<T>(ns: seq<Node<T>>, h: nat)
    requires Distinct(ns) && h <= |ns|
    ensures NodeSet(ns[..h]) !! NodeSet(ns[h..])
    ensures NodeSet(ns[..h]) + NodeSet(ns[h..]) == NodeSet(ns)
  {
  }

  lemma SameNodes<T>(ns: seq<Node<T>>, out: seq<Node<T>>, cmp: (T, T) -> int)
    requires out == Sort(ns, ByData(cmp))
    ensures NodeSet(out) == NodeSet(ns)
  {
    SortPermutes(ns, ByData(cmp));
    PermutationFacts(ns, out);
  }

  /** jack_slist_remove: unlink the first node that carries data. */
  method Remove<T(==)>(list: Node?<T>, data: T, ghost ns: seq<Node<T>>) returns (head: Node?<T>, ghost k: nat)
    requires IsList(list, ns)
    modifies NodeSet(ns)
    ensures k <= |ns| && (forall i :: 0 <= i < k ==> ns[i].data != data)
    ensures k < |ns| ==> ns[k].data == data && ns[k].next == null
    ensures IsList(head, if k < |ns| then ns[..k] + ns[k + 1..] else ns)
  {
    head := list;
    var prev: Node?<T>, tmp := null, list;
    k := 0;
    while tmp != null
      invariant k <= |ns| && tmp == At(ns, k)
      invariant prev == if k == 0 then null else ns[k - 1]
      invariant head == list && IsList(list, ns)
      invariant forall i :: 0 <= i < k ==> ns[i].data != data
      decreases |ns| - k
    {
      if tmp.data == data {
        if prev != null { prev.next := tmp.next; }
        if list == tmp { head := list.next; }
        tmp.next := null;
        ghost var out := ns[..k] + ns[k + 1..];
        assert forall i :: 0 <= i < |out| ==> out[i] == if i < k then ns[i] else ns[i + 1];
        return;
      }
      prev, tmp, k := tmp, tmp.next, k + 1;
    }
  }

  lemma {:induction false} RemoveIsRemoveFirst<T>(xs: seq<T>, x: T, k: nat)
    requires k < |xs| && xs[k] == x && forall i :: 0 <= i < k ==> xs[i] != x
    ensures RemoveFirst(xs, x) == xs[..k] + xs[k + 1..]
    decreases k
  {
    if k > 0 {
      var t := xs[1..];
      RemoveIsRemoveFirst(t, x, k - 1);
      assert t[..k - 1] == xs[1..k] && t[k..] == xs[k + 1..];
      assert [xs[0]] + (xs[1..k] + xs[k + 1..]) == xs[..k] + xs[k + 1..];
    }
  }
}
