/**
  One segment of the hash map: an array of chains that doubles when it gets full.

  `Holds` says that a table of chains stands for a plain map: every node sits in the bucket of its
  hash, no key has two nodes, and looking a key up gives what the map has.
*/
module HashSegment {
  import opened Topology
  import Counting

  datatype Node<K, V> = Node(key: K, value: V)

  type Chain<K, V> = seq<Node<K, V>>

  /* ---------- Buckets ---------- */

  const SHARD_BITS := 8

  function Pow2(n: nat): (r: nat)
    ensures r > 0
  {
    if n == 0 then 1 else 2 * Pow2(n - 1)
  }

  /** The lowest `bits` bits of `x`, one at a time: `x & (2^bits - 1)`. */
  function LowBits(x: nat, bits: nat): nat {
    if bits == 0 then 0 else 2 * LowBits(x / 2, bits - 1) + x % 2
  }

  lemma {:induction false} LowBitsBounded(x: nat, bits: nat)
    ensures LowBits(x, bits) < Pow2(bits)
  {
    if bits > 0 {
      LowBitsBounded(x / 2, bits - 1);
    }
  }

  /** The bucket of a hash: the bits above those that pick the segment. */
  function GetIndex(bits: nat, hash: nat): (i: nat)
    ensures i < Pow2(bits)
  {
    LowBitsBounded(hash / Pow2(SHARD_BITS), bits);
    LowBits(hash / Pow2(SHARD_BITS), bits)
  }

  lemma {:induction false} LowBitsIs(x: nat, bits: nat)
    ensures LowBits(x, bits) == x % Pow2(bits)
  {
    if bits > 0 {
      LowBitsIs(x / 2, bits - 1);
      RemainderOfDouble(x, Pow2(bits - 1));
    }
  }

  lemma {:induction false} RemainderOfDouble(x: nat, n: nat)
    requires n > 0
    ensures x % (2 * n) == 2 * (x / 2 % n) + x % 2
  {
    var q, r := x / 2 / n, x / 2 % n;
    TwiceTheProduct(q, n);
    Counting.DivUnique(x, 2 * n, q, 2 * r + x % 2);
  }

  lemma {:induction false} TwiceTheProduct(a: nat, n: nat)
    ensures a * (2 * n) == 2 * (n * a) == 2 * (a * n)
  {
  }

  /** Hashes share a bucket exactly if they agree in the bits above those that pick the segment. */
  lemma {:induction false} IndexIs(bits: nat, hash: nat)
    ensures GetIndex(bits, hash) == hash / 256 % Pow2(bits)
  {
    assert Pow2(8) == 2 * Pow2(7) == 4 * Pow2(6) == 8 * Pow2(5) == 16 * Pow2(4) == 32 * Pow2(3) == 64 * Pow2(2) == 256;
    LowBitsIs(hash / Pow2(SHARD_BITS), bits);
  }

  /* ---------- Chains ---------- */

  function Find<K(==), V>(chain: Chain<K, V>, key: K): Option<V> {
    if chain == [] then None
    else if chain[0].key == key then Some(chain[0].value) else Find(chain[1..], key)
  }

  predicate Distinguished<K(==), V>(chain: Chain<K, V>) {
    forall i, j :: 0 <= i < j < |chain| ==> chain[i].key != chain[j].key
  }

  predicate Has<K(==), V>(chain: Chain<K, V>, key: K) {
    exists i :: 0 <= i < |chain| && chain[i].key == key
  }

  lemma {:induction false} FindIs<K, V>(chain: Chain<K, V>, key: K)
    requires Distinguished(chain)
    ensures Find(chain, key).Some? <==> Has(chain, key)
    ensures forall i :: 0 <= i < |chain| && chain[i].key == key ==> Find(chain, key) == Some(chain[i].value)
  {
    if chain != [] && chain[0].key != key {
      FindIs(chain[1..], key);
      if Has(chain, key) {
        var i :| 0 <= i < |chain| && chain[i].key == key;
        assert chain[1..][i - 1].key == key;
      }
      if Has(chain[1..], key) {
        var i :| 0 <= i < |chain[1..]| && chain[1..][i].key == key;
        assert chain[i + 1].key == key;
      }
      forall i | 0 <= i < |chain| && chain[i].key == key ensures Find(chain, key) == Some(chain[i].value) {
        assert chain[1..][i - 1] == chain[i];
      }
    }
  }

  /** The chain with `key` at `i` replaced. */
  lemma {:induction false} ChainReplaced<K, V>(chain: Chain<K, V>, i: nat, value: V)
    requires Distinguished(chain) && i < |chain|
    ensures var after := chain[i := Node(chain[i].key, value)];
            && Distinguished(after)
            && forall k :: Find(after, k) == if k == chain[i].key then Some(value) else Find(chain, k)
  {
    var after := chain[i := Node(chain[i].key, value)];
    forall k ensures Find(after, k) == if k == chain[i].key then Some(value) else Find(chain, k) {
      FindIs(chain, k);
      FindIs(after, k);
      SameFinds(chain, after, k, i);
    }
  }

  lemma {:induction false} SameFinds<K, V>(chain: Chain<K, V>, after: Chain<K, V>, k: K, i: nat)
    requires Distinguished(chain) && Distinguished(after) && i < |chain| == |after| && after[i].key == chain[i].key
    requires forall j :: 0 <= j < |chain| && j != i ==> after[j] == chain[j]
    ensures k != chain[i].key ==> Find(after, k) == Find(chain, k)
    ensures k == chain[i].key ==> Find(after, k) == Some(after[i].value)
  {
    FindIs(chain, k);
    FindIs(after, k);
    if k != chain[i].key && Has(chain, k) {
      var j :| 0 <= j < |chain| && chain[j].key == k;
      assert after[j] == chain[j];
    }
    if k != chain[i].key && Has(after, k) {
      var j :| 0 <= j < |after| && after[j].key == k;
      assert chain[j] == after[j];
    }
  }

  lemma {:induction false} ChainPushed<K, V>(chain: Chain<K, V>, key: K, value: V)
    requires Distinguished(chain) && !Has(chain, key)
    ensures Distinguished([Node(key, value)] + chain)
    ensures forall k :: Find([Node(key, value)] + chain, k) == if k == key then Some(value) else Find(chain, k)
  {
    var after := [Node(key, value)] + chain;
    assert after[1..] == chain;
    forall j | 0 <= j < |chain| ensures chain[j].key != key {
    }
  }

  lemma {:induction false} ChainCut<K, V>(chain: Chain<K, V>, i: nat)
    requires Distinguished(chain) && i < |chain|
    ensures var after := chain[..i] + chain[i + 1..];
            && Distinguished(after)
            && forall k :: Find(after, k) == if k == chain[i].key then None else Find(chain, k)
  {
    var after := chain[..i] + chain[i + 1..];
    forall k ensures Find(after, k) == if k == chain[i].key then None else Find(chain, k) {
      FindIs(chain, k);
      FindIs(after, k);
      if Has(after, k) {
        var j :| 0 <= j < |after| && after[j].key == k;
        assert after[j] == chain[if j < i then j else j + 1];
      }
      if Has(chain, k) && k != chain[i].key {
        var j :| 0 <= j < |chain| && chain[j].key == k;
        assert after[if j < i then j else j - 1] == chain[j];
      }
    }
  }

  /* ---------- Tables ---------- */

  type Hash<!K> = K -> nat

  ghost predicate Placed<K(!new), V>(chains: seq<Chain<K, V>>, bits: nat, hash: Hash<K>) {
    && |chains| == Pow2(bits)
    && forall b {:trigger chains[b]} :: 0 <= b < |chains| ==>
         Distinguished(chains[b]) && forall i :: 0 <= i < |chains[b]| ==> GetIndex(bits, hash(chains[b][i].key)) == b
  }

  /** What a table has for a key. */
  function Lookup<K(==), V>(chains: seq<Chain<K, V>>, bits: nat, hash: Hash<K>, key: K): Option<V>
    requires |chains| == Pow2(bits)
  {
    Find(chains[GetIndex(bits, hash(key))], key)
  }

  function Entry<K, V>(m: map<K, V>, key: K): Option<V> {
    if key in m then Some(m[key]) else None
  }

  ghost predicate Holds<K(!new), V>(chains: seq<Chain<K, V>>, bits: nat, hash: Hash<K>, m: map<K, V>) {
    Placed(chains, bits, hash) && forall key :: Lookup(chains, bits, hash, key) == Entry(m, key)
  }

  /** With `chain` in bucket `b` a table that stood for `m` stands for `m'`. */
  ghost predicate Suits<K(!new), V>(chain: Chain<K, V>, bits: nat, hash: Hash<K>, b: nat, m: map<K, V>, m': map<K, V>) {
    && Distinguished(chain)
    && (forall i :: 0 <= i < |chain| ==> GetIndex(bits, hash(chain[i].key)) == b)
    && (forall k :: GetIndex(bits, hash(k)) == b ==> Find(chain, k) == Entry(m', k))
    && (forall k :: GetIndex(bits, hash(k)) != b ==> Entry(m', k) == Entry(m, k))
  }

  /** One bucket is given another chain. */
  lemma {:induction false} BucketUpdated<K(!new), V>(chains: seq<Chain<K, V>>, bits: nat, hash: Hash<K>, m: map<K, V>,
                                                     m': map<K, V>, b: nat, chain: Chain<K, V>)
    requires Holds(chains, bits, hash, m) && b < |chains| && Suits(chain, bits, hash, b, m, m')
    ensures Holds(chains[b := chain], bits, hash, m')
  {
    var after := chains[b := chain];
    forall k ensures Lookup(after, bits, hash, k) == Entry(m', k) {
      assert Lookup(chains, bits, hash, k) == Entry(m, k);
    }
  }

  /* ---------- Doubling ---------- */

  /** The nodes of a map are spread over an old table, which is being emptied, and a new one. */
  ghost predicate Moving<K(!new), V>(old_: seq<Chain<K, V>>, bits: nat, new_: seq<Chain<K, V>>, bits': nat,
                                     hash: Hash<K>, m: map<K, V>) {
    && Placed(old_, bits, hash) && Placed(new_, bits', hash)
    && forall key ::
         var a, b := Lookup(old_, bits, hash, key), Lookup(new_, bits', hash, key);
         !(a.Some? && b.Some?) && Entry(m, key) == if b.Some? then b else a
  }

  lemma {:induction false} PlacedUpdated<K(!new), V>(chains: seq<Chain<K, V>>, bits: nat, hash: Hash<K>, b: nat,
                                                     chain: Chain<K, V>)
    requires Placed(chains, bits, hash) && b < |chains| && Distinguished(chain)
    requires forall i :: 0 <= i < |chain| ==> GetIndex(bits, hash(chain[i].key)) == b
    ensures Placed(chains[b := chain], bits, hash)
  {
    var after := chains[b := chain];
    forall k | 0 <= k < |after|
      ensures Distinguished(after[k])
      ensures forall i :: 0 <= i < |after[k]| ==> GetIndex(bits, hash(after[k][i].key)) == k
    {
      assert k != b ==> after[k] == chains[k];
    }
  }

  lemma {:induction false} LookupUpdated<K(!new), V>(chains: seq<Chain<K, V>>, bits: nat, hash: Hash<K>, b: nat,
                                                     chain: Chain<K, V>, key: K)
    requires |chains| == Pow2(bits) && b < |chains|
    ensures Lookup(chains[b := chain], bits, hash, key) ==
            if GetIndex(bits, hash(key)) == b then Find(chain, key) else Lookup(chains, bits, hash, key)
  {
  }

  /** What happens to the lookups of one key when `node` moves from chain `b` to chain `j`. */
  lemma {:induction false} MoveKey<K(!new), V>(old_: seq<Chain<K, V>>, bits: nat, new_: seq<Chain<K, V>>, bits': nat,
                                               hash: Hash<K>, b: nat, j: nat, node: Node<K, V>, rest: Chain<K, V>,
                                               grown: Chain<K, V>, key: K)
    requires |old_| == Pow2(bits) && |new_| == Pow2(bits') && b < |old_| && j < |new_|
    requires GetIndex(bits, hash(node.key)) == b && GetIndex(bits', hash(node.key)) == j
    requires Find(rest, key) == if key == node.key then None else Find(old_[b], key)
    requires Find(grown, key) == if key == node.key then Some(node.value) else Find(new_[j], key)
    ensures Lookup(old_[b := rest], bits, hash, key) ==
            if key == node.key then None else Lookup(old_, bits, hash, key)
    ensures Lookup(new_[j := grown], bits', hash, key) ==
            if key == node.key then Some(node.value) else Lookup(new_, bits', hash, key)
  {
    LookupUpdated(old_, bits, hash, b, rest, key);
    LookupUpdated(new_, bits', hash, j, grown, key);
  }

  lemma {:induction false} FirstOfChain<K(!new), V>(chains: seq<Chain<K, V>>, bits: nat, hash: Hash<K>, b: nat)
    requires Placed(chains, bits, hash) && b < |chains| && chains[b] != []
    ensures var node := chains[b][0];
            && GetIndex(bits, hash(node.key)) == b && Lookup(chains, bits, hash, node.key) == Some(node.value)
            && Distinguished(chains[b][1..])
            && forall k :: Find(chains[b][1..], k) == if k == node.key then None else Find(chains[b], k)
  {
    ChainTail(chains[b]);
  }

  lemma {:induction false} ChainTail<K, V>(chain: Chain<K, V>)
    requires Distinguished(chain) && chain != []
    ensures Distinguished(chain[1..])
    ensures forall k :: Find(chain[1..], k) == if k == chain[0].key then None else Find(chain, k)
  {
    FindIs(chain[1..], chain[0].key);
  }

  lemma {:induction false} FrontOfChain<K(!new), V>(chains: seq<Chain<K, V>>, bits: nat, hash: Hash<K>, j: nat,
                                                    node: Node<K, V>)
    requires Placed(chains, bits, hash) && j == GetIndex(bits, hash(node.key))
    requires Lookup(chains, bits, hash, node.key) == None
    ensures Distinguished([node] + chains[j])
    ensures forall k :: Find([node] + chains[j], k) == if k == node.key then Some(node.value) else Find(chains[j], k)
  {
    FindIs(chains[j], node.key);
    assert node == Node(node.key, node.value);
    ChainPushed(chains[j], node.key, node.value);
  }

  /** The first node of an old chain goes to the front of its new chain. */
  lemma {:induction false} MoveOne<K(!new), V>(old_: seq<Chain<K, V>>, bits: nat, new_: seq<Chain<K, V>>, bits': nat,
                                               hash: Hash<K>, m: map<K, V>, b: nat, j: nat)
    requires Moving(old_, bits, new_, bits', hash, m) && b < |old_| && old_[b] != []
    requires j == GetIndex(bits', hash(old_[b][0].key))
    ensures Moving(old_[b := old_[b][1..]], bits, new_[j := [old_[b][0]] + new_[j]], bits', hash, m)
  {
    var node, rest, grown := old_[b][0], old_[b][1..], [old_[b][0]] + new_[j];
    FirstOfChain(old_, bits, hash, b);
    FrontOfChain(new_, bits', hash, j, node);
    PlacedUpdated(old_, bits, hash, b, rest);
    PlacedUpdated(new_, bits', hash, j, grown);
    var old', new' := old_[b := rest], new_[j := grown];
    forall key
      ensures !(Lookup(old', bits, hash, key).Some? && Lookup(new', bits', hash, key).Some?)
      ensures Entry(m, key) ==
              if Lookup(new', bits', hash, key).Some? then Lookup(new', bits', hash, key) else Lookup(old', bits, hash, key)
    {
      MoveKey(old_, bits, new_, bits', hash, b, j, node, rest, grown, key);
    }
  }

  lemma {:induction false} MoveStarts<K(!new), V>(chains: seq<Chain<K, V>>, bits: nat, empty: seq<Chain<K, V>>,
                                                  bits': nat, hash: Hash<K>, m: map<K, V>)
    requires Holds(chains, bits, hash, m) && |empty| == Pow2(bits') && forall b :: 0 <= b < |empty| ==> empty[b] == []
    ensures Moving(chains, bits, empty, bits', hash, m)
  {
    forall key ensures Lookup(empty, bits', hash, key) == None {
    }
  }

  lemma {:induction false} MoveEnds<K(!new), V>(old_: seq<Chain<K, V>>, bits: nat, new_: seq<Chain<K, V>>, bits': nat,
                                                hash: Hash<K>, m: map<K, V>)
    requires Moving(old_, bits, new_, bits', hash, m) && forall b :: 0 <= b < |old_| ==> old_[b] == []
    ensures Holds(new_, bits', hash, m)
  {
    forall key ensures Lookup(new_, bits', hash, key) == Entry(m, key) {
      assert Lookup(old_, bits, hash, key) == None;
    }
  }

  /* ---------- Counting ---------- */

  function KeysOf<K(==), V>(chain: Chain<K, V>): set<K> {
    set i | 0 <= i < |chain| :: chain[i].key
  }

  /** The keys in the first `n` buckets. */
  function KeysBelow<K(==), V>(chains: seq<Chain<K, V>>, n: nat): set<K>
    requires n <= |chains|
  {
    if n == 0 then {} else KeysBelow(chains, n - 1) + KeysOf(chains[n - 1])
  }

  lemma {:induction false} KeysOfSize<K, V>(chain: Chain<K, V>)
    requires Distinguished(chain)
    ensures |KeysOf(chain)| == |chain|
  {
    if chain != [] {
      var n := |chain| - 1;
      KeysOfSize(chain[..n]);
      assert KeysOf(chain) == KeysOf(chain[..n]) + {chain[n].key};
    }
  }

  lemma {:induction false} KeysBelowAre<K(!new), V>(chains: seq<Chain<K, V>>, bits: nat, hash: Hash<K>, m: map<K, V>,
                                                    n: nat)
    requires Holds(chains, bits, hash, m) && n <= |chains|
    ensures forall key :: key in KeysBelow(chains, n) <==> key in m && GetIndex(bits, hash(key)) < n
  {
    if n > 0 {
      KeysBelowAre(chains, bits, hash, m, n - 1);
      var chain := chains[n - 1];
      forall key ensures key in KeysOf(chain) <==> key in m && GetIndex(bits, hash(key)) == n - 1 {
        FindIs(chain, key);
        assert Lookup(chains, bits, hash, key) == Entry(m, key);
        if key in KeysOf(chain) {
          var i :| 0 <= i < |chain| && chain[i].key == key;
          assert GetIndex(bits, hash(chain[i].key)) == n - 1;
        }
      }
    }
  }

  lemma {:induction false} CountStep<K(!new), V>(chains: seq<Chain<K, V>>, bits: nat, hash: Hash<K>, m: map<K, V>,
                                                 n: nat)
    requires Holds(chains, bits, hash, m) && n < |chains|
    ensures |KeysBelow(chains, n + 1)| == |KeysBelow(chains, n)| + |chains[n]|
  {
    var chain := chains[n];
    KeysBelowAre(chains, bits, hash, m, n);
    KeysOfSize(chain);
    forall key | key in KeysOf(chain) ensures key !in KeysBelow(chains, n) {
      var i :| 0 <= i < |chain| && chain[i].key == key;
      assert GetIndex(bits, hash(chain[i].key)) == n;
    }
    assert KeysBelow(chains, n) !! KeysOf(chain);
  }

  lemma {:induction false} CountEnds<K(!new), V>(chains: seq<Chain<K, V>>, bits: nat, hash: Hash<K>, m: map<K, V>)
    requires Holds(chains, bits, hash, m)
    ensures KeysBelow(chains, |chains|) == m.Keys
  {
    KeysBelowAre(chains, bits, hash, m, |chains|);
  }

  /* ---------- The segment ---------- */

  class Segment<K(==, !new), V> {
    const hash: Hash<K>
    /** The size at which a table of so many buckets is doubled. */
    const limit: nat -> nat
    var bits: nat
    var buckets: array<Chain<K, V>>
    var loadFactorMaxSize: nat
    var size: nat

    /** The plain map that the table stands for. */
    ghost var model: map<K, V>

    ghost predicate Valid()
      reads this, buckets
    {
      && Holds(buckets[..], bits, hash, model) && |model| <= size && loadFactorMaxSize == limit(Pow2(bits))
    }

    constructor (hash: Hash<K>, limit: nat -> nat, initialBits: nat)
      ensures Valid() && fresh(buckets) && this.hash == hash && this.limit == limit && bits == initialBits
      ensures model == map[] && size == 0
    {
      this.hash, this.limit := hash, limit;
      bits, size, model := initialBits, 0, map[];
      loadFactorMaxSize := limit(Pow2(initialBits));
      buckets := new Chain<K, V>[Pow2(initialBits)](b => []);
      new;
      forall key ensures Lookup(buckets[..], bits, hash, key) == None {
      }
    }

    /** Where `key` is in its chain, or the chain's length. */
    method Walk(key: K) returns (b: nat, i: nat)
      requires Valid()
      ensures b == GetIndex(bits, hash(key)) && b < buckets.Length && i <= |buckets[b]|
      ensures forall k :: 0 <= k < i ==> buckets[b][k].key != key
      ensures i < |buckets[b]| <==> key in model
      ensures i < |buckets[b]| ==> buckets[b][i] == Node(key, model[key])
    {
      b := GetIndex(bits, hash(key));
      var chain := buckets[b];
      i := 0;
      while i < |chain| && chain[i].key != key
        invariant i <= |chain|
        invariant forall k :: 0 <= k < i ==> chain[k].key != key
      {
        i := i + 1;
      }
      FindIs(chain, key);
      assert buckets[..][b] == chain;
      assert Lookup(buckets[..], bits, hash, key) == Entry(model, key);
    }

    method Get(key: K) returns (r: Option<V>)
      requires Valid()
      ensures r == Entry(model, key)
    {
      var b, i := Walk(key);
      if i < |buckets[b]| {
        r := Some(buckets[b][i].value);
      } else {
        r := None;
      }
    }

    /** Gives bucket `b` the chain `chain`. */
    method SetBucket(b: nat, chain: Chain<K, V>, ghost m: map<K, V>)
      requires Holds(buckets[..], bits, hash, model) && b < buckets.Length && Suits(chain, bits, hash, b, model, m)
      modifies this`model, buckets
      ensures model == m && Holds(buckets[..], bits, hash, m)
    {
      BucketUpdated(buckets[..], bits, hash, model, m, b, chain);
      ghost var before := buckets[..];
      buckets[b] := chain;
      assert buckets[..] == before[b := chain];
      model := m;
    }

    method InsertOrUpdate(key: K, value: V) returns (exists_: bool)
      requires Valid()
      modifies this, buckets
      ensures Valid() && model == old(model)[key := value] && exists_ == (key in old(model))
      ensures size == old(size) + if exists_ then 0 else 1
      ensures bits == old(bits) + if size >= limit(Pow2(old(bits))) then 1 else 0
      ensures buckets == old(buckets) || fresh(buckets)
    {
      var b, i := Walk(key);
      var chain := buckets[b];
      assert buckets[..][b] == chain;
      exists_ := i < |chain|;
      ghost var m := model[key := value];
      if exists_ {
        ReplacedSuits(buckets[..], bits, hash, model, b, i, value);
        SetBucket(b, chain[i := Node(key, value)], m);
      } else {
        PushedSuits(buckets[..], bits, hash, model, b, key, value);
        SetBucket(b, [Node(key, value)] + chain, m);
        size := size + 1;
      }
      if size >= loadFactorMaxSize {
        Rehash();
      }
    }

    method Erase(key: K) returns (exists_: bool)
      requires Valid()
      modifies this`model, buckets
      ensures Valid() && model == old(model) - {key} && exists_ == (key in old(model))
    {
      var b, i := Walk(key);
      var chain := buckets[b];
      assert buckets[..][b] == chain;
      exists_ := i < |chain|;
      if exists_ {
        CutSuits(buckets[..], bits, hash, model, b, i);
        SetBucket(b, chain[..i] + chain[i + 1..], model - {key});
      } else {
        assert model - {key} == model;
      }
    }

    /** The first node of bucket `b` moves to the front of its chain in `moved`. */
    method MoveFirst(b: nat, moved: array<Chain<K, V>>)
      requires moved != buckets && b < buckets.Length && buckets[b] != []
      requires Moving(buckets[..], bits, moved[..], bits + 1, hash, model)
      modifies buckets, moved
      ensures Moving(buckets[..], bits, moved[..], bits + 1, hash, model)
      ensures buckets[..] == old(buckets[..])[b := old(buckets[b])[1..]]
    {
      var node := buckets[b][0];
      var j := GetIndex(bits + 1, hash(node.key));
      ghost var before, after := buckets[..], moved[..];
      MoveOne(before, bits, after, bits + 1, hash, model, b, j);
      moved[j] := [node] + moved[j];
      buckets[b] := buckets[b][1..];
      assert buckets[..] == before[b := before[b][1..]];
      assert moved[..] == after[j := [node] + after[j]];
    }

    /** Every node of bucket `b` moves to the front of its chain in `moved`. */
    method Empty(b: nat, moved: array<Chain<K, V>>)
      requires moved != buckets && b < buckets.Length
      requires Moving(buckets[..], bits, moved[..], bits + 1, hash, model)
      modifies buckets, moved
      ensures Moving(buckets[..], bits, moved[..], bits + 1, hash, model)
      ensures buckets[..] == old(buckets[..])[b := []]
    {
      while buckets[b] != []
        invariant Moving(buckets[..], bits, moved[..], bits + 1, hash, model)
        invariant buckets[..] == old(buckets[..])[b := buckets[b]]
        decreases |buckets[b]|
      {
        ghost var before := buckets[..];
        MoveFirst(b, moved);
        assert buckets[b] == before[b][1..];
      }
    }

    /** Every node moves to `moved`, bucket by bucket. */
    method MoveAll(moved: array<Chain<K, V>>)
      requires moved != buckets && Moving(buckets[..], bits, moved[..], bits + 1, hash, model)
      modifies buckets, moved
      ensures Holds(moved[..], bits + 1, hash, model)
    {
      var b := 0;
      while b < buckets.Length
        invariant b <= buckets.Length
        invariant Moving(buckets[..], bits, moved[..], bits + 1, hash, model)
        invariant forall k :: 0 <= k < b ==> buckets[..][k] == []
      {
        Empty(b, moved);
        b := b + 1;
      }
      MoveEnds(buckets[..], bits, moved[..], bits + 1, hash, model);
    }

    /** Twice as many buckets. */
    method Rehash()
      requires Valid()
      modifies this`bits, this`buckets, this`loadFactorMaxSize, buckets
      ensures Valid() && fresh(buckets) && bits == old(bits) + 1
    {
      var moved := new Chain<K, V>[Pow2(bits + 1)](b => []);
      MoveStarts(buckets[..], bits, moved[..], bits + 1, hash, model);
      MoveAll(moved);
      bits := bits + 1;
      buckets := moved;
      loadFactorMaxSize := limit(Pow2(bits));
    }

    method GetKeyCount() returns (count: nat)
      requires Valid()
      ensures count == |model| <= size
    {
      ghost var chains := buckets[..];
      count := 0;
      var b := 0;
      while b < buckets.Length
        invariant b <= buckets.Length && count == |KeysBelow(chains, b)|
      {
        CountStep(chains, bits, hash, model, b);
        var n := Length(buckets[b]);
        count := count + n;
        b := b + 1;
      }
      CountEnds(chains, bits, hash, model);
    }

    /** Visits every pair of the map once. */
    method ForEach() returns (visited: seq<Node<K, V>>)
      requires Valid()
      ensures Distinguished(visited) && KeysOf(visited) == model.Keys
      ensures forall i :: 0 <= i < |visited| ==> visited[i].key in model && model[visited[i].key] == visited[i].value
    {
      ghost var chains := buckets[..];
      visited := [];
      var b := 0;
      while b < buckets.Length
        invariant b <= buckets.Length && Distinguished(visited) && KeysOf(visited) == KeysBelow(chains, b)
        invariant forall i :: 0 <= i < |visited| ==> visited[i].key in model && model[visited[i].key] == visited[i].value
      {
        VisitMore(chains, bits, hash, model, b, visited);
        visited := visited + buckets[b];
        b := b + 1;
      }
      CountEnds(chains, bits, hash, model);
    }
  }

  /** The nodes of one more bucket are visited. */
  lemma {:induction false} VisitMore<K(!new), V>(chains: seq<Chain<K, V>>, bits: nat, hash: Hash<K>, m: map<K, V>,
                                                 b: nat, visited: Chain<K, V>)
    requires Holds(chains, bits, hash, m) && b < |chains| && Distinguished(visited)
    requires KeysOf(visited) == KeysBelow(chains, b)
    ensures Distinguished(visited + chains[b]) && KeysOf(visited + chains[b]) == KeysBelow(chains, b + 1)
    ensures forall i :: 0 <= i < |chains[b]| ==> chains[b][i].key in m && m[chains[b][i].key] == chains[b][i].value
  {
    var chain := chains[b];
    var all := visited + chain;
    KeysBelowAre(chains, bits, hash, m, b);
    forall i | 0 <= i < |chain|
      ensures chain[i].key !in KeysOf(visited)
      ensures chain[i].key in m && m[chain[i].key] == chain[i].value
    {
      FindIs(chain, chain[i].key);
      assert Lookup(chains, bits, hash, chain[i].key) == Entry(m, chain[i].key);
    }
    forall i, j | 0 <= i < j < |all| ensures all[i].key != all[j].key {
      if i < |visited| <= j {
        assert all[i].key in KeysOf(visited);
      }
    }
    assert KeysOf(all) == KeysOf(visited) + KeysOf(chain) by {
      assert forall i :: 0 <= i < |visited| ==> all[i] == visited[i];
      assert forall i :: 0 <= i < |chain| ==> all[|visited| + i] == chain[i];
    }
  }

  method Length<K, V>(chain: Chain<K, V>) returns (n: nat)
    ensures n == |chain|
  {
    n := 0;
    while n < |chain|
      invariant n <= |chain|
    {
      n := n + 1;
    }
  }

  /** What `Holds` says of one bucket. */
  lemma {:induction false} FindsFollow<K(!new), V>(chains: seq<Chain<K, V>>, bits: nat, hash: Hash<K>, m: map<K, V>,
                                                   b: nat)
    requires Holds(chains, bits, hash, m) && b < |chains|
    ensures forall k :: GetIndex(bits, hash(k)) == b ==> Find(chains[b], k) == Entry(m, k)
  {
    forall k | GetIndex(bits, hash(k)) == b ensures Find(chains[b], k) == Entry(m, k) {
      assert Lookup(chains, bits, hash, k) == Entry(m, k);
    }
  }

  lemma {:induction false} ReplacedSuits<K(!new), V>(chains: seq<Chain<K, V>>, bits: nat, hash: Hash<K>, m: map<K, V>,
                                                     b: nat, i: nat, value: V)
    requires Holds(chains, bits, hash, m) && b < |chains| && i < |chains[b]|
    ensures var key := chains[b][i].key; Suits(chains[b][i := Node(key, value)], bits, hash, b, m, m[key := value])
    ensures chains[b][i].key in m && |m[chains[b][i].key := value]| == |m|
  {
    var chain, key := chains[b], chains[b][i].key;
    ChainReplaced(chain, i, value);
    FindsFollow(chains, bits, hash, m, b);
    FindIs(chain, key);
    assert m[key := value].Keys == m.Keys;
  }

  lemma {:induction false} PushedSuits<K(!new), V>(chains: seq<Chain<K, V>>, bits: nat, hash: Hash<K>, m: map<K, V>,
                                                   b: nat, key: K, value: V)
    requires Holds(chains, bits, hash, m) && b == GetIndex(bits, hash(key)) < |chains| && key !in m
    ensures Suits([Node(key, value)] + chains[b], bits, hash, b, m, m[key := value])
    ensures |m[key := value]| == |m| + 1
  {
    var chain := chains[b];
    FindsFollow(chains, bits, hash, m, b);
    FindIs(chain, key);
    ChainPushed(chain, key, value);
    assert m[key := value].Keys == m.Keys + {key};
  }

  lemma {:induction false} CutSuits<K(!new), V>(chains: seq<Chain<K, V>>, bits: nat, hash: Hash<K>, m: map<K, V>,
                                                b: nat, i: nat)
    requires Holds(chains, bits, hash, m) && b < |chains| && i < |chains[b]|
    ensures Suits(chains[b][..i] + chains[b][i + 1..], bits, hash, b, m, m - {chains[b][i].key})
    ensures |m - {chains[b][i].key}| <= |m|
  {
    var chain, key := chains[b], chains[b][i].key;
    ChainCut(chain, i);
    FindsFollow(chains, bits, hash, m, b);
    FindIs(chain, key);
    assert (m - {key}).Keys == m.Keys - {key};
  }
}
