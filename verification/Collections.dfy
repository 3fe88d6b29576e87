/** Cardinality, permutation and removal facts shared by the models. */
module Collections {

  type byte = x: int | 0 <= x < 256

  datatype Option<T> = None | Some(value: T)

  lemma {:induction false} SubsetSize<T>(small: set<T>, big: set<T>)
    requires small <= big
    ensures |small| <= |big|
    decreases small
  {
    if small != {} {
      var x :| x in small;
      SubsetSize(small - {x}, big - {x});
    }
  }

  lemma StrictSubsetSize<T>(small: set<T>, big: set<T>)
    requires small < big
    ensures |small| < |big|
  {
    var x :| x in big && x !in small;
    SubsetSize(small, big - {x});
  }

  ghost predicate Distinct<T>(xs: seq<T>) {
    forall i, j :: 0 <= i < j < |xs| ==> xs[i] != xs[j]
  }

  lemma {:induction false} DistinctCounts<T>(xs: seq<T>)
    requires Distinct(xs)
    ensures forall x :: multiset(xs)[x] <= 1
    decreases |xs|
  {
    if xs != [] {
      assert xs == [xs[0]] + xs[1..];
      DistinctCounts(xs[1..]);
    }
  }

  lemma TwiceCounted<T>(xs: seq<T>, i: nat, j: nat)
    requires i < j < |xs| && xs[i] == xs[j]
    ensures multiset(xs)[xs[i]] >= 2
  {
    assert xs == xs[..j] + xs[j..];
    assert xs[..j][i] in multiset(xs[..j]);
    assert xs[j..][0] in multiset(xs[j..]);
  }

  lemma PermutationFacts<T>(xs: seq<T>, ys: seq<T>)
    requires multiset(xs) == multiset(ys)
    ensures |xs| == |ys|
    ensures forall x :: x in xs <==> x in ys
    ensures Distinct(xs) ==> Distinct(ys)
  {
    assert |multiset(xs)| == |multiset(ys)|;
    forall x
      ensures x in xs <==> x in ys
    {
      assert x in xs <==> x in multiset(xs);
      assert x in ys <==> x in multiset(ys);
    }
    if Distinct(xs) {
      DistinctCounts(xs);
      forall i, j | 0 <= i < j < |ys|
        ensures ys[i] != ys[j]
      {
        if ys[i] == ys[j] { TwiceCounted(ys, i, j); }
      }
    }
  }

  ghost function ToSet<T>(xs: seq<T>): set<T> {
    set x | x in xs
  }

  lemma {:induction false} DistinctSetSize<T>(xs: seq<T>)
    requires Distinct(xs)
    ensures |ToSet(xs)| == |xs|
    decreases |xs|
  {
    if xs != [] {
      DistinctSetSize(xs[1..]);
      assert ToSet(xs) == {xs[0]} + ToSet(xs[1..]);
    }
  }

  /** A one-to-one map has as many values as keys. */
  lemma {:induction false} InjectiveSize<T, U>(f: map<T, U>)
    requires forall x, y :: x in f && y in f && f[x] == f[y] ==> x == y
    ensures |f.Values| == |f.Keys|
    decreases |f.Keys|
  {
    if f.Keys != {} {
      var x :| x in f.Keys;
      var rest := f - {x};
      InjectiveSize(rest);
      forall v | v in f.Values
        ensures v in rest.Values + {f[x]}
      {
        var k :| k in f && f[k] == v;
        assert k != x ==> k in rest && rest[k] == v;
      }
      forall v | v in rest.Values
        ensures v in f.Values && v != f[x]
      {
        var k :| k in rest && rest[k] == v;
        assert k in f && f[k] == v;
      }
      assert f.Values == rest.Values + {f[x]} && f.Keys == rest.Keys + {x};
    }
  }

  /** The list without its first occurrence of x (jack_slist_remove). */
  function RemoveFirst<T(==)>(xs: seq<T>, x: T): seq<T> {
    if xs == [] then []
    else if xs[0] == x then xs[1..]
    else [xs[0]] + RemoveFirst(xs[1..], x)
  }

  lemma {:induction false} RemoveFirstCounts<T>(xs: seq<T>, x: T)
    ensures multiset(RemoveFirst(xs, x)) == multiset(xs) - multiset{x}
    ensures x !in xs ==> RemoveFirst(xs, x) == xs
    decreases |xs|
  {
    if xs != [] {
      assert xs == [xs[0]] + xs[1..];
      RemoveFirstCounts(xs[1..], x);
    }
  }

  lemma {:induction false} DistinctRemoved<T>(xs: seq<T>, x: T)
    requires Distinct(xs)
    ensures Distinct(RemoveFirst(xs, x))
    ensures forall y :: y in RemoveFirst(xs, x) <==> y in xs && y != x
    decreases |xs|
  {
    if xs != [] {
      var rest := xs[1..];
      assert xs == [xs[0]] + rest && xs[0] !in rest;
      DistinctRemoved(rest, x);
    }
  }
}
