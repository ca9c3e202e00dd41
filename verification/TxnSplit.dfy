/**
  Splitting a transaction by home region and by partition.

  A multi-home transaction is turned, in each region it involves, into a lock-only one with that
  region as home, and then cut into one piece per partition; pieces that lock nothing mastered at
  their home are dropped.
*/
module TxnSplit {
  import opened Topology
  import opened Listings

  type Key = string

  datatype Kv = Kv(key: Key, value: string, master: nat)
  datatype Kind = Unknown | SingleHome | MultiHomeOrLockOnly
  datatype Status = Running | Committed | Aborted

  datatype Tx = Tx(id: nat, kind: Kind, home: int, keys: seq<Kv>, regions: seq<nat>, partitions: seq<nat>,
                   status: Status, reason: string)

  type Sharder = Key -> nat

  /* ---------- Masters ---------- */

  function Masters(keys: seq<Kv>): seq<nat> {
    seq(|keys|, i requires 0 <= i < |keys| => keys[i].master)
  }

  predicate MasteredAt(keys: seq<Kv>, r: nat) {
    exists i :: 0 <= i < |keys| && keys[i].master == r
  }

  lemma {:induction false} MastersAre(keys: seq<Kv>, r: nat)
    ensures r in Masters(keys) <==> MasteredAt(keys, r)
  {
    if MasteredAt(keys, r) {
      var i :| 0 <= i < |keys| && keys[i].master == r;
      assert Masters(keys)[i] == r;
    }
  }

  /** Lists the masters of the keys, in ascending order and after what was listed before. */
  method PopulateInvolvedRegions(txn: Tx) returns (r: Tx)
    requires txn.kind == SingleHome ==> txn.keys != []
    ensures match txn.kind
            case Unknown => r == txn
            case SingleHome => r == txn.(regions := [txn.keys[0].master])
            case MultiHomeOrLockOnly =>
              r == txn.(regions := txn.regions + SortedUnique(Masters(txn.keys)))
  {
    if txn.kind == Unknown {
      return txn;
    }
    if txn.kind == SingleHome {
      return txn.(regions := [txn.keys[0].master]);
    }
    var involved: seq<nat> := [];
    var i := 0;
    while i < |txn.keys|
      invariant i <= |txn.keys| && involved == Masters(txn.keys)[..i]
    {
      involved := involved + [txn.keys[i].master];
      i := i + 1;
    }
    assert involved == Masters(txn.keys);
    var unique := Sort(involved);
    r := txn.(regions := txn.regions + unique);
  }

  /* ---------- Pieces ---------- */

  /** The keys that belong to partition `p`, in order. */
  function KeysAt(part: Sharder, keys: seq<Kv>, p: nat): seq<Kv> {
    if keys == [] then []
    else KeysAt(part, keys[..|keys| - 1], p) +
         if part(keys[|keys| - 1].key) == p then [keys[|keys| - 1]] else []
  }

  /** The lock-only transaction of region `home`. */
  function LockOnly(txn: Tx, home: nat): Tx {
    txn.(home := home)
  }

  /** No key of the list is mastered at `home`. */
  predicate Redundant(keys: seq<Kv>, home: int) {
    forall i :: 0 <= i < |keys| ==> keys[i].master != home
  }

  function Piece(part: Sharder, txn: Tx, p: nat): Option<Tx> {
    var keys := KeysAt(part, txn.keys, p);
    if Redundant(keys, txn.home) then None
    else Some(txn.(keys := keys,
                   regions := if txn.kind == MultiHomeOrLockOnly then SortedUnique(Masters(keys)) else txn.regions))
  }

  const INITIAL_REGIONS := 8

  /** `flags` and `redundant` are what the keys so far make them. */
  ghost predicate Noted(keys: seq<Kv>, flags: seq<bool>, redundant: bool, home: int) {
    && (redundant <==> Redundant(keys, home))
    && forall k: nat :: Set(flags, k) <==> MasteredAt(keys, k)
  }

  /** Marks a region, making the list of marks longer where needed. */
  method Mark(flags: seq<bool>, master: nat) returns (marked: seq<bool>)
    ensures forall k: nat :: Set(marked, k) <==> Set(flags, k) || k == master
  {
    marked := flags;
    if master >= |marked| {
      marked := marked + seq(master + 1 - |marked|, k => false);
    }
    marked := marked[master := true];
  }

  /** Erases, in place, the keys of other partitions, noting the masters of those that stay. */
  method Sieve(part: Sharder, all: seq<Kv>, partition: nat, home: int)
    returns (keys: seq<Kv>, flags: seq<bool>, redundant: bool)
    ensures keys == KeysAt(part, all, partition) && Noted(keys, flags, redundant, home)
  {
    flags, redundant := seq(INITIAL_REGIONS, k => false), true;
    keys := all;
    var at := 0;
    ghost var kept, rest := [], all;
    while at < |keys|
      invariant keys == kept + rest && at == |kept|
      invariant KeysAt(part, all, partition) == kept + KeysAt(part, rest, partition)
      invariant Noted(kept, flags, redundant, home)
      decreases |rest|
    {
      var kv := keys[at];
      assert kv == rest[0];
      KeptThenRest(part, kept, rest, partition);
      if part(kv.key) != partition {
        Erased(kept, rest);
        keys := keys[..at] + keys[at + 1..];
      } else {
        var marked := Mark(flags, kv.master);
        NotedMore(kept, kv, flags, marked, redundant, home);
        flags, redundant := marked, redundant && kv.master != home;
        Shifted(kept, rest);
        kept := kept + [kv];
        at := at + 1;
      }
      rest := rest[1..];
    }
    assert rest == [] && keys == kept;
  }

  method GeneratePartitionedTxn(part: Sharder, txn: Tx, partition: nat) returns (r: Option<Tx>)
    ensures r == Piece(part, txn, partition)
  {
    var keys, flags, redundant := Sieve(part, txn.keys, partition, txn.home);
    if keys == [] || redundant {
      return None;
    }
    var result := txn.(keys := keys);
    if txn.kind == MultiHomeOrLockOnly {
      var regions := ListSet(flags);
      RegionsListed(keys, regions);
      result := result.(regions := regions);
    }
    r := Some(result);
  }

  lemma {:induction false} KeysAtFirst(part: Sharder, keys: seq<Kv>, p: nat)
    requires keys != []
    ensures KeysAt(part, keys, p) == (if part(keys[0].key) == p then [keys[0]] else []) + KeysAt(part, keys[1..], p)
  {
    var n := |keys| - 1;
    if n == 0 {
      assert keys[..0] == [] && keys[1..] == [];
    } else {
      KeysAtFirst(part, keys[..n], p);
      assert keys[..n][1..] == keys[1..][..n - 1] && keys[1..][n - 1] == keys[n];
    }
  }

  /** Deciding on the first of `rest` moves it behind `kept` or drops it. */
  lemma {:induction false} KeptThenRest(part: Sharder, kept: seq<Kv>, rest: seq<Kv>, p: nat)
    requires rest != []
    ensures kept + KeysAt(part, rest, p) ==
            (if part(rest[0].key) == p then kept + [rest[0]] else kept) + KeysAt(part, rest[1..], p)
  {
    KeysAtFirst(part, rest, p);
    if part(rest[0].key) == p {
      Shifted(kept, [rest[0]] + KeysAt(part, rest[1..], p));
    }
  }

  lemma {:induction false} Erased(kept: seq<Kv>, rest: seq<Kv>)
    requires rest != []
    ensures (kept + rest)[..|kept|] + (kept + rest)[|kept| + 1..] == kept + rest[1..]
  {
  }

  lemma {:induction false} Shifted(kept: seq<Kv>, rest: seq<Kv>)
    requires rest != []
    ensures kept + rest == kept + [rest[0]] + rest[1..]
  {
  }

  lemma {:induction false} RedundantMore(keys: seq<Kv>, kv: Kv, home: int)
    ensures Redundant(keys + [kv], home) <==> Redundant(keys, home) && kv.master != home
  {
    if Redundant(keys + [kv], home) {
      assert (keys + [kv])[|keys|] == kv;
      forall i | 0 <= i < |keys| ensures keys[i].master != home {
        assert (keys + [kv])[i] == keys[i];
      }
    }
  }

  lemma {:induction false} MasteredMore(keys: seq<Kv>, kv: Kv)
    ensures forall r: nat :: MasteredAt(keys + [kv], r) <==> MasteredAt(keys, r) || r == kv.master
  {
    var more := keys + [kv];
    forall r: nat ensures MasteredAt(more, r) <==> MasteredAt(keys, r) || r == kv.master {
      if MasteredAt(keys, r) {
        var i :| 0 <= i < |keys| && keys[i].master == r;
        assert more[i].master == r;
      }
      assert more[|keys|] == kv;
      if MasteredAt(more, r) {
        var i :| 0 <= i < |more| && more[i].master == r;
        assert i < |keys| ==> keys[i].master == r;
      }
    }
  }

  lemma {:induction false} NotedMore(kept: seq<Kv>, kv: Kv, flags: seq<bool>, marked: seq<bool>, redundant: bool,
                                     home: int)
    requires Noted(kept, flags, redundant, home)
    requires forall k: nat :: Set(marked, k) <==> Set(flags, k) || k == kv.master
    ensures Noted(kept + [kv], marked, redundant && kv.master != home, home)
  {
    MasteredMore(kept, kv);
    RedundantMore(kept, kv, home);
  }

  lemma {:induction false} RegionsListed(keys: seq<Kv>, regions: seq<nat>)
    requires Ascending(regions) && forall r: nat :: r in regions <==> MasteredAt(keys, r)
    ensures regions == SortedUnique(Masters(keys))
  {
    SortedUniqueIs(Masters(keys));
    forall r: nat ensures r in regions <==> r in SortedUnique(Masters(keys)) {
      MastersAre(keys, r);
    }
    AscendingUnique(regions, SortedUnique(Masters(keys)));
  }

  lemma {:induction false} KeysAtCount(part: Sharder, keys: seq<Kv>, p: nat, kv: Kv)
    ensures multiset(KeysAt(part, keys, p))[kv] == if part(kv.key) == p then multiset(keys)[kv] else 0
  {
    if keys != [] {
      KeysAtCount(part, keys[..|keys| - 1], p, kv);
      assert keys == keys[..|keys| - 1] + [keys[|keys| - 1]];
    }
  }

  /** One of the transaction's keys is of partition `p` and mastered at `r`. */
  predicate Locks(part: Sharder, keys: seq<Kv>, p: nat, r: int) {
    exists kv :: kv in keys && part(kv.key) == p && kv.master == r
  }

  lemma {:induction false} LocksIs(part: Sharder, keys: seq<Kv>, p: nat, r: int)
    ensures Locks(part, keys, p, r) <==> !Redundant(KeysAt(part, keys, p), r)
    ensures r >= 0 ==> (Locks(part, keys, p, r) <==> MasteredAt(KeysAt(part, keys, p), r))
  {
    var at := KeysAt(part, keys, p);
    if kv :| kv in keys && part(kv.key) == p && kv.master == r {
      KeysAtAre(part, keys, p, kv);
      var i :| 0 <= i < |at| && at[i] == kv;
      assert at[i].master == r;
    }
    if i :| 0 <= i < |at| && at[i].master == r {
      KeysAtAre(part, keys, p, at[i]);
    }
  }

  /* ---------- Main results ---------- */

  /**
    For a transaction of any kind: a partition has a piece exactly if one of its keys is mastered at
    the transaction's home; the piece has exactly the partition's keys, and only a multi-home one has
    its list of regions changed, to the masters of these keys; nothing else changes.
  */
  lemma {:induction false} PieceIs(part: Sharder, txn: Tx, p: nat)
    ensures var piece := Piece(part, txn, p);
            && (piece.Some? <==> Locks(part, txn.keys, p, txn.home))
            && (piece.Some? ==>
                  && piece.value == txn.(keys := piece.value.keys, regions := piece.value.regions)
                  && (forall kv :: multiset(piece.value.keys)[kv] ==
                                   if part(kv.key) == p then multiset(txn.keys)[kv] else 0)
                  && (txn.kind != MultiHomeOrLockOnly ==> piece.value.regions == txn.regions)
                  && (txn.kind == MultiHomeOrLockOnly ==>
                        && Ascending(piece.value.regions)
                        && forall r: nat :: r in piece.value.regions <==> Locks(part, txn.keys, p, r)))
  {
    var keys := KeysAt(part, txn.keys, p);
    LocksIs(part, txn.keys, p, txn.home);
    SortedUniqueIs(Masters(keys));
    forall kv: Kv ensures multiset(keys)[kv] == if part(kv.key) == p then multiset(txn.keys)[kv] else 0 {
      KeysAtCount(part, txn.keys, p, kv);
    }
    forall r: nat ensures r in SortedUnique(Masters(keys)) <==> Locks(part, txn.keys, p, r) {
      MastersAre(keys, r);
      LocksIs(part, txn.keys, p, r);
    }
  }

  /** The pieces of partition `p` are those of the homes that master a key of `p`, and each lists exactly these homes. */
  lemma {:induction false} SurvivorsAreMasters(part: Sharder, txn: Tx, p: nat, home: nat)
    requires txn.kind == MultiHomeOrLockOnly
    ensures var piece, keys := Piece(part, LockOnly(txn, home), p), KeysAt(part, txn.keys, p);
            && (piece.Some? <==> MasteredAt(keys, home))
            && (piece.Some? ==>
                  && piece.value.keys == keys && piece.value.home == home && piece.value.id == txn.id
                  && Ascending(piece.value.regions)
                  && forall r: nat :: r in piece.value.regions <==> MasteredAt(keys, r))
  {
    var keys := KeysAt(part, txn.keys, p);
    SortedUniqueIs(Masters(keys));
    forall r: nat ensures r in SortedUnique(Masters(keys)) <==> MasteredAt(keys, r) {
      MastersAre(keys, r);
    }
  }

  lemma {:induction false} KeysAtAre(part: Sharder, keys: seq<Kv>, p: nat, kv: Kv)
    ensures kv in KeysAt(part, keys, p) <==> kv in keys && part(kv.key) == p
  {
    if keys != [] {
      KeysAtAre(part, keys[..|keys| - 1], p, kv);
      assert keys == keys[..|keys| - 1] + [keys[|keys| - 1]];
    }
  }

  /** Every key is locked, in exactly its own partition, by the piece whose home masters it. */
  lemma {:induction false} EveryKeyLocked(part: Sharder, txn: Tx, kv: Kv, p: nat)
    requires txn.kind == MultiHomeOrLockOnly && kv in txn.keys
    ensures var piece := Piece(part, LockOnly(txn, kv.master), p);
            (piece.Some? && kv in piece.value.keys) <==> p == part(kv.key)
  {
    var keys := KeysAt(part, txn.keys, p);
    KeysAtAre(part, txn.keys, p, kv);
    SurvivorsAreMasters(part, txn, p, kv.master);
    if kv in keys {
      var i :| 0 <= i < |keys| && keys[i] == kv;
      assert keys[i].master == kv.master;
    }
  }
}
