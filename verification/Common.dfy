/** Sequence vocabulary shared by the other modules: loops that append to a list
    are specified by `FlatMap`, and "no two entries collapse" by `DistinctBy`. */
module Common {

  datatype Option<+T> = None | Some(value: T)

  /** The list a loop over `xs` builds when each iteration appends `f(x)`. */
  function FlatMap<A, B>(f: A -> seq<B>, xs: seq<A>): seq<B> {
    if xs == [] then [] else FlatMap(f, xs[..|xs| - 1]) + f(xs[|xs| - 1])
  }

  lemma FlatMapStep<A, B>(f: A -> seq<B>, xs: seq<A>, i: nat)
    requires i < |xs|
    ensures FlatMap(f, xs[..i + 1]) == FlatMap(f, xs[..i]) + f(xs[i])
  {
    assert xs[..i + 1][..i] == xs[..i];
  }

  lemma {:induction false} FlatMapAppend<A, B>(f: A -> seq<B>, xs: seq<A>, ys: seq<A>)
    ensures FlatMap(f, xs + ys) == FlatMap(f, xs) + FlatMap(f, ys)
  {
    if ys == [] {
      assert xs + ys == xs;
    } else {
      var n := |ys| - 1;
      FlatMapAppend(f, xs, ys[..n]);
      assert (xs + ys)[..|xs + ys| - 1] == xs + ys[..n];
    }
  }

  /** Where an entry of a `FlatMap` comes from. */
  lemma {:induction false} FlatMapSource<A, B>(f: A -> seq<B>, xs: seq<A>, y: B)
    ensures y in FlatMap(f, xs) <==> exists i :: 0 <= i < |xs| && y in f(xs[i])
  {
    if xs != [] {
      FlatMapSource(f, xs[..|xs| - 1], y);
    }
  }

  lemma {:induction false} FlatMapCompose<A, B, C>(f: A -> seq<B>, g: B -> seq<C>, h: A -> seq<C>, xs: seq<A>)
    requires forall x :: x in xs ==> FlatMap(g, f(x)) == h(x)
    ensures FlatMap(g, FlatMap(f, xs)) == FlatMap(h, xs)
  {
    if xs != [] {
      FlatMapCompose(f, g, h, xs[..|xs| - 1]);
      FlatMapAppend(g, FlatMap(f, xs[..|xs| - 1]), f(xs[|xs| - 1]));
    }
  }

  lemma {:induction false} FlatMapSame<A, B>(f: A -> seq<B>, g: A -> seq<B>, xs: seq<A>)
    requires forall x :: x in xs ==> f(x) == g(x)
    ensures FlatMap(f, xs) == FlatMap(g, xs)
  {
    if xs != [] {
      FlatMapSame(f, g, xs[..|xs| - 1]);
    }
  }

  lemma FlatMapOne<A, B>(f: A -> seq<B>, x: A)
    ensures FlatMap(f, [x]) == f(x)
  {
    assert [x][..0] == [];
  }

  lemma {:induction false} NothingToDo<A, B>(f: A -> seq<B>, xs: seq<A>)
    requires forall x :: x in xs ==> f(x) == []
    ensures FlatMap(f, xs) == []
  {
    if xs != [] {
      NothingToDo(f, xs[..|xs| - 1]);
    }
  }

  /** A loop that appends `f(x)` for each item. */
  method AppendAll<A, B>(f: A -> seq<B>, items: seq<A>) returns (out: seq<B>)
    ensures out == FlatMap(f, items)
  {
    out := [];
    for i := 0 to |items|
      invariant out == FlatMap(f, items[..i])
    {
      FlatMapStep(f, items, i);
      out := out + f(items[i]);
    }
    assert items[..|items|] == items;
  }

  // ---- Multisets of what a loop appends ------------------------------------------

  lemma MultisetSnoc<A>(xs: seq<A>)
    requires xs != []
    ensures multiset(xs) == multiset(xs[..|xs| - 1]) + multiset{xs[|xs| - 1]}
  {
    assert xs == xs[..|xs| - 1] + [xs[|xs| - 1]];
  }

  lemma MultisetRemove<A>(xs: seq<A>, i: nat)
    requires i < |xs|
    ensures multiset(xs) == multiset(xs[..i] + xs[i + 1..]) + multiset{xs[i]}
  {
    assert xs == xs[..i] + [xs[i]] + xs[i + 1..];
  }

  lemma FlatMapRemove<A, B>(f: A -> seq<B>, xs: seq<A>, i: nat)
    requires i < |xs|
    ensures multiset(FlatMap(f, xs)) == multiset(FlatMap(f, xs[..i] + xs[i + 1..])) + multiset(f(xs[i]))
  {
    assert xs == xs[..i + 1] + xs[i + 1..];
    FlatMapAppend(f, xs[..i + 1], xs[i + 1..]);
    FlatMapStep(f, xs, i);
    FlatMapAppend(f, xs[..i], xs[i + 1..]);
  }

  lemma MultisetSwap<A>(a: multiset<A>, b: multiset<A>, c: multiset<A>)
    ensures (a + b) + c == (a + c) + b
    ensures a + (b + c) == (a + b) + c
  {
  }

  lemma MultisetCancel<A>(a: multiset<A>, b: multiset<A>, x: A)
    requires a + multiset{x} == b + multiset{x}
    ensures a == b
  {
    forall y ensures a[y] == b[y] {
      assert (a + multiset{x})[y] == (b + multiset{x})[y];
    }
  }

  lemma SameLength<A>(xs: seq<A>, ys: seq<A>)
    requires multiset(xs) == multiset(ys)
    ensures |xs| == |ys|
  {
    assert |multiset(xs)| == |xs| && |multiset(ys)| == |ys|;
  }

  /** Permuting the input permutes the output. */
  lemma {:induction false} FlatMapPermutes<A, B>(f: A -> seq<B>, xs: seq<A>, ys: seq<A>)
    requires multiset(xs) == multiset(ys)
    ensures multiset(FlatMap(f, xs)) == multiset(FlatMap(f, ys))
    decreases |xs|
  {
    if xs == [] {
      assert ys == [] by { assert |multiset(ys)| == |ys|; }
    } else {
      var n := |xs| - 1;
      assert xs[n] in multiset(ys);
      var i :| 0 <= i < |ys| && ys[i] == xs[n];
      FlatMapRemove(f, ys, i);
      MultisetRemove(ys, i);
      MultisetSnoc(xs);
      MultisetCancel(multiset(xs[..n]), multiset(ys[..i] + ys[i + 1..]), xs[n]);
      FlatMapPermutes(f, xs[..n], ys[..i] + ys[i + 1..]);
    }
  }

  ghost predicate DistinctBy<A, K>(key: A -> K, xs: seq<A>) {
    forall i, j :: 0 <= i < j < |xs| ==> key(xs[i]) != key(xs[j])
  }

  ghost predicate Distinct<A>(xs: seq<A>) {
    forall i, j :: 0 <= i < j < |xs| ==> xs[i] != xs[j]
  }

  lemma DistinctSnoc<A, K>(key: A -> K, xs: seq<A>)
    requires xs != []
    ensures var n := |xs| - 1;
            DistinctBy(key, xs) <==> DistinctBy(key, xs[..n]) && !exists i :: 0 <= i < n && key(xs[i]) == key(xs[n])
  {
  }

  lemma DistinctAppend<A, K>(key: A -> K, xs: seq<A>, ys: seq<A>)
    requires DistinctBy(key, xs) && DistinctBy(key, ys)
    requires forall x, y :: x in xs && y in ys ==> key(x) != key(y)
    ensures DistinctBy(key, xs + ys)
  {
  }

  /** Distinct lists glued together stay distinct when entries of different
      sources never share a key. */
  lemma {:induction false} FlatMapDistinct<A, B, K>(f: A -> seq<B>, xs: seq<A>, key: B -> K)
    requires forall i :: 0 <= i < |xs| ==> DistinctBy(key, f(xs[i]))
    requires forall i, j, x, y :: 0 <= i < j < |xs| && x in f(xs[i]) && y in f(xs[j]) ==> key(x) != key(y)
    ensures DistinctBy(key, FlatMap(f, xs))
  {
    if xs != [] {
      var n := |xs| - 1;
      FlatMapDistinct(f, xs[..n], key);
      forall x, y | x in FlatMap(f, xs[..n]) && y in f(xs[n])
        ensures key(x) != key(y)
      {
        FlatMapSource(f, xs[..n], x);
      }
      DistinctAppend(key, FlatMap(f, xs[..n]), f(xs[n]));
    }
  }

  /** Pigeonhole: a repetition-free list drawn from a finite set is no longer than the set. */
  lemma {:induction false} Pigeonhole<A>(xs: seq<A>, s: set<A>)
    requires Distinct(xs)
    requires forall x :: x in xs ==> x in s
    ensures |xs| <= |s|
  {
    if xs != [] {
      var n := |xs| - 1;
      Pigeonhole(xs[..n], s - {xs[n]});
    }
  }

  lemma ConcatAssoc<A>(a: seq<A>, b: seq<A>, c: seq<A>)
    ensures a + (b + c) == (a + b) + c
  {
  }

  function Elements(xs: seq<string>): set<string> {
    set x | x in xs
  }

  lemma ElementsAppend(xs: seq<string>, ys: seq<string>)
    ensures Elements(xs + ys) == Elements(xs) + Elements(ys)
  {
  }

  function Min(a: nat, b: nat): nat {
    if a < b then a else b
  }
}
