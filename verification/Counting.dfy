/** Sizes of finite sets, and small facts about sequences. */
module Counting {
  import opened Topology

  lemma {:induction false} SubsetSize<T>(a: set<T>, b: set<T>)
    requires a <= b
    ensures |a| <= |b|
    ensures |a| == |b| ==> a == b
  {
    if a != {} {
      var x :| x in a;
      SubsetSize(a - {x}, b - {x});
    }
  }

  function Elements<T>(xs: seq<T>): set<T> {
    set x | x in xs
  }

  lemma {:induction false} DistinctSize<T>(xs: seq<T>)
    requires Distinct(xs)
    ensures |Elements(xs)| == |xs|
  {
    if xs != [] {
      DistinctSize(xs[1..]);
      assert Elements(xs) == Elements(xs[1..]) + {xs[0]};
      forall i | 1 <= i < |xs| ensures xs[i] != xs[0] {
      }
      assert xs[0] !in xs[1..];
    }
  }

  lemma {:induction false} ElementsSize<T>(xs: seq<T>)
    ensures |Elements(xs)| <= |xs|
  {
    if xs != [] {
      ElementsSize(xs[1..]);
      assert Elements(xs) == Elements(xs[1..]) + {xs[0]};
    }
  }

  /** A list has as many elements as places exactly if it repeats nothing. */
  lemma {:induction false} DistinctIffSize<T>(xs: seq<T>)
    ensures |Elements(xs)| == |xs| <==> Distinct(xs)
  {
    if Distinct(xs) {
      DistinctSize(xs);
    } else {
      var i, j :| 0 <= i < j < |xs| && xs[i] == xs[j];
      var rest := xs[..j] + xs[j + 1..];
      ElementsSize(rest);
      assert xs == xs[..j] + [xs[j]] + xs[j + 1..];
      assert rest[i] == xs[i];
      assert Elements(xs) == Elements(rest);
    }
  }

  function Below(n: nat): (r: set<nat>)
    ensures |r| == n
    ensures forall t: nat :: t in r <==> t < n
  {
    if n == 0 then {} else Below(n - 1) + {n - 1}
  }

  /** A repetition-free list of exactly the numbers below `n` has length `n`. */
  lemma {:induction false} OntoSize(xs: seq<nat>, n: nat)
    requires Distinct(xs)
    requires forall i :: 0 <= i < |xs| ==> xs[i] < n
    requires forall t: nat :: t < n ==> t in xs
    ensures |xs| == n
  {
    DistinctSize(xs);
    assert Elements(xs) == Below(n);
  }

  /** Where `v` stands among the first `n` elements. */
  function Places<T(==)>(xs: seq<T>, n: nat, v: T): set<nat>
    requires n <= |xs|
  {
    set k | k in Below(n) && xs[k] == v
  }

  lemma {:induction false} PlacesStep<T>(xs: seq<T>, n: nat, v: T)
    requires 0 < n <= |xs|
    ensures |Places(xs, n, v)| == |Places(xs, n - 1, v)| + if xs[n - 1] == v then 1 else 0
  {
    var before := Places(xs, n - 1, v);
    if xs[n - 1] == v {
      assert Places(xs, n, v) == before + {n - 1};
    } else {
      assert Places(xs, n, v) == before;
    }
  }

  lemma {:induction false} TakeCount<T>(xs: seq<T>, n: nat, v: T)
    requires 0 < n <= |xs|
    ensures multiset(xs[..n])[v] == multiset(xs[..n - 1])[v] + if xs[n - 1] == v then 1 else 0
  {
    assert xs[..n] == xs[..n - 1] + [xs[n - 1]];
  }

  lemma {:induction false} PlacesCount<T>(xs: seq<T>, n: nat, v: T)
    requires n <= |xs|
    ensures multiset(xs[..n])[v] == |Places(xs, n, v)|
  {
    if n == 0 {
      assert Places(xs, 0, v) == {};
    } else {
      PlacesCount(xs, n - 1, v);
      PlacesStep(xs, n, v);
      TakeCount(xs, n, v);
    }
  }

  /** Going through a list without repetitions maps a set of places to as many values. */
  lemma {:induction false} ImageSize(ks: set<nat>, xs: seq<nat>)
    requires Distinct(xs) && forall k :: k in ks ==> k < |xs|
    ensures |set k | k in ks :: xs[k]| == |ks|
  {
    if ks != {} {
      var k0 :| k0 in ks;
      ImageSize(ks - {k0}, xs);
      assert (set k | k in ks :: xs[k]) == (set k | k in ks - {k0} :: xs[k]) + {xs[k0]};
    }
  }

  /** A permutation keeps how often a value occurs. */
  lemma {:induction false} PermutedCount<T>(xs: seq<T>, p: seq<nat>, ys: seq<T>, v: T)
    requires |p| == |xs| == |ys| && Distinct(p) && (forall t: nat :: t < |xs| ==> t in p)
    requires forall i :: 0 <= i < |p| ==> p[i] < |xs| && ys[i] == xs[p[i]]
    ensures |Places(ys, |ys|, v)| == multiset(xs)[v]
  {
    var from, to := Places(ys, |ys|, v), Places(xs, |xs|, v);
    ImageSize(from, p);
    forall t | t in to ensures t in (set k | k in from :: p[k]) {
      assert t in p;
      var k :| 0 <= k < |p| && p[k] == t;
      assert k in from;
    }
    assert (set k | k in from :: p[k]) == to;
    PlacesCount(xs, |xs|, v);
    assert xs[..|xs|] == xs;
  }

  /** What holds at the start and is kept from each place to the next holds everywhere. */
  lemma {:induction false} HoldsThroughout(bs: seq<bool>, i: nat)
    requires i < |bs| && bs[0] && forall k :: 0 <= k < |bs| - 1 && bs[k] ==> bs[k + 1]
    ensures bs[i]
  {
    if i > 0 {
      HoldsThroughout(bs, i - 1);
      assert bs[(i - 1) + 1];
    }
  }

  /** What each place turns on and nothing turns off is on exactly if some earlier place turned it on. */
  lemma {:induction false} TurnedOn(on: seq<bool>, turns: seq<bool>, i: nat)
    requires |on| == |turns| + 1 && i < |on| && !on[0]
    requires forall k :: 0 <= k < |turns| ==> (on[k + 1] <==> on[k] || turns[k])
    ensures on[i] <==> exists j :: 0 <= j < i && turns[j]
  {
    if i > 0 {
      TurnedOn(on, turns, i - 1);
      assert on[(i - 1) + 1] <==> on[i - 1] || turns[i - 1];
    }
  }

  lemma {:induction false} PrefixChain<T>(xs: seq<seq<T>>, i: nat, j: nat)
    requires i <= j < |xs| && forall k :: 0 <= k < |xs| - 1 ==> xs[k] <= xs[k + 1]
    ensures xs[i] <= xs[j]
    decreases j - i
  {
    if i < j {
      PrefixChain(xs, i, j - 1);
      assert xs[j - 1] <= xs[(j - 1) + 1];
    }
  }

  lemma {:induction false} SplitAt<T>(xs: seq<T>, i: nat)
    requires i < |xs|
    ensures xs == xs[..i] + [xs[i]] + xs[i + 1..]
  {
  }

  /* ---------- Steps of a kind ---------- */

  /** How many of the first `i` are true. */
  function Trues(bs: seq<bool>, i: nat): nat
    requires i <= |bs|
  {
    if i == 0 then 0 else Trues(bs, i - 1) + if bs[i - 1] then 1 else 0
  }

  /** What starts at nothing and grows by one where `grows` says so counts these places. */
  lemma {:induction false} Counted(sizes: seq<nat>, grows: seq<bool>, i: nat)
    requires |sizes| == |grows| + 1 && i < |sizes| && sizes[0] == 0
    requires forall k :: 0 <= k < |grows| ==> sizes[k + 1] == sizes[k] + if grows[k] then 1 else 0
    ensures sizes[i] == Trues(grows, i)
  {
    if i > 0 {
      Counted(sizes, grows, i - 1);
      assert sizes[(i - 1) + 1] == sizes[i - 1] + if grows[i - 1] then 1 else 0;
    }
  }

  /** Where each grant adds at most `cost` to what is pending and each use takes one off, uses are bounded. */
  lemma {:induction false} Budget(pending: seq<nat>, grants: seq<bool>, uses: seq<bool>, cost: nat, i: nat)
    requires |pending| == |grants| + 1 == |uses| + 1 && i < |pending| && pending[0] == 0
    requires forall k :: 0 <= k < |uses| ==>
               pending[k + 1] + (if uses[k] then 1 else 0) <= pending[k] + if grants[k] then cost else 0
    ensures Trues(uses, i) + pending[i] <= Trues(grants, i) * cost
  {
    if i > 0 {
      Budget(pending, grants, uses, cost, i - 1);
      assert pending[(i - 1) + 1] + (if uses[i - 1] then 1 else 0) <= pending[i - 1] + if grants[i - 1] then cost else 0;
      OneTimesMore(Trues(grants, i - 1), cost);
    }
  }

  /* ---------- Images and products ---------- */

  function Image<T, U>(s: set<T>, f: T -> U): set<U> {
    set x | x in s :: f(x)
  }

  lemma {:induction false} ImageAtMost<T, U>(s: set<T>, f: T -> U)
    ensures |Image(s, f)| <= |s|
  {
    if s != {} {
      var x :| x in s;
      ImageAtMost(s - {x}, f);
      assert Image(s, f) == Image(s - {x}, f) + {f(x)};
    }
  }

  function Pairs<T, U>(s: set<T>, t: set<U>): set<(T, U)> {
    set x, y | x in s && y in t :: (x, y)
  }

  lemma {:induction false} RowSize<T, U>(x: T, t: set<U>)
    ensures |Pairs({x}, t)| == |t|
  {
    if t == {} {
      assert Pairs({x}, t) == {};
    } else {
      var y :| y in t;
      RowSize(x, t - {y});
      assert Pairs({x}, t) == Pairs({x}, t - {y}) + {(x, y)};
    }
  }

  lemma {:induction false} PairsSplit<T, U>(s: set<T>, t: set<U>, x: T)
    requires x in s
    ensures |Pairs(s, t)| == |Pairs(s - {x}, t)| + |Pairs({x}, t)|
  {
    assert Pairs(s, t) == Pairs(s - {x}, t) + Pairs({x}, t);
    assert Pairs(s - {x}, t) !! Pairs({x}, t);
  }

  lemma {:induction false} OneTimesMore(n: nat, m: nat)
    ensures (n + 1) * m == n * m + m
  {
  }

  lemma {:induction false} PairsSize<T, U>(s: set<T>, t: set<U>)
    ensures |Pairs(s, t)| == |s| * |t|
  {
    if s == {} {
      assert Pairs(s, t) == {};
    } else {
      var x :| x in s;
      PairsSize(s - {x}, t);
      RowSize(x, t);
      PairsSplit(s, t, x);
      OneTimesMore(|s - {x}|, |t|);
    }
  }

  /* ---------- Division ---------- */

  lemma {:induction false} DivUnique(n: nat, k: nat, q: nat, r: nat)
    requires k > 0 && n == q * k + r && r < k
    ensures n / k == q && n % k == r
  {
    var q', r' := n / k, n % k;
    assert q' * k + r' == q * k + r;
    if q' > q {
      MulAtLeast(q' - q, k);
      Spread(q', q, k);
    } else if q' < q {
      MulAtLeast(q - q', k);
      Spread(q, q', k);
    }
  }

  lemma {:induction false} Spread(a: int, b: int, k: int)
    ensures (a - b) * k == a * k - b * k
  {
  }

  lemma {:induction false} MulAtLeast(a: int, k: nat)
    requires a >= 1
    ensures a * k >= k
  {
    assert a * k == (a - 1) * k + k;
  }
}
