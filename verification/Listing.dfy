/** Ascending lists without repetitions: made from marks, or by sorting. */
module Listings {

  predicate Ascending(xs: seq<nat>) {
    forall i, j :: 0 <= i < j < |xs| ==> xs[i] < xs[j]
  }

  /** An ascending list is determined by its elements. */
  lemma {:induction false} AscendingUnique(xs: seq<nat>, ys: seq<nat>)
    requires Ascending(xs) && Ascending(ys) && forall x :: x in xs <==> x in ys
    ensures xs == ys
  {
    if xs == [] {
      HasElement(ys);
    } else {
      var n, m := |xs| - 1, |ys| - 1;
      assert xs[n] in xs;
      assert ys[m] in ys;
      LastIsLargest(xs, ys[m]);
      LastIsLargest(ys, xs[n]);
      forall x ensures x in xs[..n] <==> x in ys[..m] {
        LastApart(xs, x);
        LastApart(ys, x);
      }
      AscendingUnique(xs[..n], ys[..m]);
      assert xs == xs[..n] + [xs[n]] && ys == ys[..m] + [ys[m]];
    }
  }

  lemma {:induction false} HasElement(xs: seq<nat>)
    ensures xs != [] ==> exists x :: x in xs
  {
    if xs != [] {
      assert xs[0] in xs;
    }
  }

  lemma {:induction false} LastIsLargest(xs: seq<nat>, x: nat)
    requires Ascending(xs) && x in xs
    ensures x <= xs[|xs| - 1]
  {
    var i :| 0 <= i < |xs| && xs[i] == x;
  }

  lemma {:induction false} LastApart(xs: seq<nat>, x: nat)
    requires Ascending(xs) && xs != []
    ensures x in xs[..|xs| - 1] <==> x in xs && x != xs[|xs| - 1]
  {
    assert xs == xs[..|xs| - 1] + [xs[|xs| - 1]];
  }

  /** Puts `x` in its place; a list that has it stays as it is. */
  function Inserted(xs: seq<nat>, x: nat): seq<nat> {
    if xs == [] || xs[|xs| - 1] < x then xs + [x]
    else if xs[|xs| - 1] == x then xs
    else Inserted(xs[..|xs| - 1], x) + [xs[|xs| - 1]]
  }

  /** What sorting and removing repetitions makes of a list. */
  function SortedUnique(xs: seq<nat>): seq<nat> {
    if xs == [] then [] else Inserted(SortedUnique(xs[..|xs| - 1]), xs[|xs| - 1])
  }

  lemma {:induction false} InsertedIs(xs: seq<nat>, x: nat)
    requires Ascending(xs)
    ensures Ascending(Inserted(xs, x)) && forall y :: y in Inserted(xs, x) <==> y in xs || y == x
  {
    if xs != [] && xs[|xs| - 1] > x {
      var n := |xs| - 1;
      InsertedIs(xs[..n], x);
      assert xs == xs[..n] + [xs[n]];
      var front := Inserted(xs[..n], x);
      forall i | 0 <= i < |front| ensures front[i] < xs[n] {
        assert front[i] in front;
      }
    }
  }

  lemma {:induction false} SortedUniqueIs(xs: seq<nat>)
    ensures Ascending(SortedUnique(xs)) && forall y :: y in SortedUnique(xs) <==> y in xs
  {
    if xs != [] {
      var n := |xs| - 1;
      SortedUniqueIs(xs[..n]);
      InsertedIs(SortedUnique(xs[..n]), xs[n]);
      assert xs == xs[..n] + [xs[n]];
    }
  }

  /** Sorts a list and drops repetitions. */
  method Sort(xs: seq<nat>) returns (sorted: seq<nat>)
    ensures sorted == SortedUnique(xs)
  {
    sorted := [];
    var i := 0;
    while i < |xs|
      invariant i <= |xs| && sorted == SortedUnique(xs[..i])
    {
      assert xs[..i + 1][..i] == xs[..i];
      sorted := Inserted(sorted, xs[i]);
      i := i + 1;
    }
    assert xs[..i] == xs;
  }

  predicate Set(flags: seq<bool>, k: nat) {
    k < |flags| && flags[k]
  }

  /** The places at which `flags` is set, ascending. */
  method ListSet(flags: seq<bool>) returns (places: seq<nat>)
    ensures Ascending(places) && forall r: nat :: r in places <==> Set(flags, r)
  {
    places := [];
    var r := 0;
    while r < |flags|
      invariant r <= |flags| && Ascending(places)
      invariant forall k :: 0 <= k < |places| ==> places[k] < r
      invariant forall k: nat :: k in places <==> k < r && flags[k]
    {
      if flags[r] {
        places := places + [r];
      }
      r := r + 1;
    }
  }
}
