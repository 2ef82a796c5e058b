/** Insertion sort by a strict order: the elements of a list, ascending, each once. */
module Sorting {

  ghost predicate StrictOrder<A(!new)>(before: (A, A) -> bool) {
    && (forall x, y :: x != y ==> before(x, y) || before(y, x))
    && (forall x, y :: before(x, y) ==> x != y && !before(y, x))
    && (forall x, y, z :: before(x, y) && before(y, z) ==> before(x, z))
  }

  /** Insertion into an ascending list without duplicates. */
  function Insert<A(==)>(before: (A, A) -> bool, x: A, sorted: seq<A>): seq<A> {
    if sorted == [] || before(sorted[|sorted| - 1], x) then sorted + [x]
    else if sorted[|sorted| - 1] == x then sorted
    else Insert(before, x, sorted[..|sorted| - 1]) + [sorted[|sorted| - 1]]
  }

  function Sorted<A(==)>(before: (A, A) -> bool, xs: seq<A>): seq<A> {
    if xs == [] then [] else Insert(before, xs[|xs| - 1], Sorted(before, xs[..|xs| - 1]))
  }

  ghost predicate Ascending<A>(before: (A, A) -> bool, xs: seq<A>) {
    forall i, j :: 0 <= i < j < |xs| ==> before(xs[i], xs[j])
  }

  lemma {:induction false} InsertMeaning<A(!new)>(before: (A, A) -> bool, x: A, sorted: seq<A>)
    requires StrictOrder(before) && Ascending(before, sorted)
    ensures Ascending(before, Insert(before, x, sorted))
    ensures forall y :: y in Insert(before, x, sorted) <==> y == x || y in sorted
  {
    if sorted == [] {
      return;
    }
    var n := |sorted| - 1;
    if before(sorted[n], x) {
      assert forall i :: 0 <= i < n ==> before(sorted[i], sorted[n]);
    } else if sorted[n] != x {
      InsertMeaning(before, x, sorted[..n]);
      var front := Insert(before, x, sorted[..n]);
      forall i | 0 <= i < |front| ensures before(front[i], sorted[n]) {
        assert front[i] in front;
        if front[i] in sorted[..n] { var j :| 0 <= j < n && sorted[j] == front[i]; }
      }
    }
  }

  /** The sorted list ascends and has the elements of the list. */
  lemma {:induction false} SortedMeaning<A(!new)>(before: (A, A) -> bool, xs: seq<A>)
    requires StrictOrder(before)
    ensures Ascending(before, Sorted(before, xs)) && forall x :: x in Sorted(before, xs) <==> x in xs
  {
    if xs != [] {
      SortedMeaning(before, xs[..|xs| - 1]);
      InsertMeaning(before, xs[|xs| - 1], Sorted(before, xs[..|xs| - 1]));
    }
  }

  lemma HeadIn<A>(xs: seq<A>)
    ensures xs == [] || xs[0] in xs
  {
  }

  /** An element other than the last of an ascending list is before it. */
  lemma LastIsGreatest<A(!new)>(before: (A, A) -> bool, xs: seq<A>, x: A)
    requires StrictOrder(before) && Ascending(before, xs) && x in xs
    ensures xs != [] && (x == xs[|xs| - 1] || before(x, xs[|xs| - 1]))
    ensures x in xs[..|xs| - 1] <==> x != xs[|xs| - 1]
  {
  }

  /** An ascending list is determined by its elements. */
  lemma {:induction false} AscendingUnique<A(!new)>(before: (A, A) -> bool, a: seq<A>, b: seq<A>)
    requires StrictOrder(before) && Ascending(before, a) && Ascending(before, b) && forall x :: x in a <==> x in b
    ensures a == b
    decreases |a|
  {
    if a == [] {
      HeadIn(b);
    } else {
      var n, m := |a| - 1, |b| - 1;
      assert a[n] in a && a[n] in b && b[m] in b && b[m] in a;
      LastIsGreatest(before, b, a[n]);
      LastIsGreatest(before, a, b[m]);
      forall x ensures x in a[..n] <==> x in b[..m] {
        if x in a { LastIsGreatest(before, a, x); LastIsGreatest(before, b, x); }
      }
      AscendingUnique(before, a[..n], b[..m]);
      assert a == a[..n] + [a[n]] && b == b[..m] + [b[m]];
    }
  }
}
