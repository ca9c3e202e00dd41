/**
  Merging the results of a transaction's partitions into one answer for the client.

  `Answer` describes the merged result by what the parts say, without regard to their order; the
  server's table of half-finished transactions is shown to hold exactly such merges.
*/
module TxnMerge {
  import opened Topology
  import opened Listings
  import opened TxnSplit

  /* ---------- Merging two results ---------- */

  predicate HasKey(keys: seq<Kv>, key: Key) {
    exists i :: 0 <= i < |keys| && keys[i].key == key
  }

  /** The keys of `more` that `keys` does not have are added. */
  function KeysMerged(keys: seq<Kv>, more: seq<Kv>): seq<Kv> {
    if more == [] then keys
    else
      var before, last := KeysMerged(keys, more[..|more| - 1]), more[|more| - 1];
      if HasKey(keys, last.key) then before else before + [last]
  }

  function Merged(txn: Tx, other: Tx): Result<Tx> {
    if txn.id != other.id then Failure("Cannot merge transactions with different IDs")
    else if txn.kind != other.kind then Failure("Cannot merge transactions with different types")
    else
      var result :=
        if other.status == Aborted then txn.(status := Aborted, reason := other.reason)
        else if txn.status != Aborted then txn.(keys := KeysMerged(txn.keys, other.keys))
        else txn;
      Success(result.(regions := SortedUnique(txn.regions + other.regions)))
  }

  method MergeTransaction(txn: Tx, other: Tx) returns (r: Result<Tx>)
    ensures r == Merged(txn, other)
  {
    if txn.id != other.id {
      return Failure("Cannot merge transactions with different IDs");
    }
    if txn.kind != other.kind {
      return Failure("Cannot merge transactions with different types");
    }
    var result := txn;
    if other.status == Aborted {
      result := result.(status := Aborted, reason := other.reason);
    } else if result.status != Aborted {
      var keys := AddMissing(result.keys, other.keys);
      result := result.(keys := keys);
    }
    var regions := Sort(txn.regions + other.regions);
    r := Success(result.(regions := regions));
  }

  method AddMissing(keys: seq<Kv>, more: seq<Kv>) returns (all: seq<Kv>)
    ensures all == KeysMerged(keys, more)
  {
    var existing: set<Key> := {};
    var i := 0;
    while i < |keys|
      invariant i <= |keys|
      invariant forall key :: key in existing <==> exists k :: 0 <= k < i && keys[k].key == key
    {
      existing := existing + {keys[i].key};
      i := i + 1;
    }
    all := keys;
    var j := 0;
    while j < |more|
      invariant j <= |more| && all == KeysMerged(keys, more[..j])
    {
      assert more[..j + 1][..j] == more[..j];
      if more[j].key !in existing {
        all := all + [more[j]];
      }
      j := j + 1;
    }
    assert more[..j] == more;
  }

  /* ---------- What a merge holds, whatever the order of the parts ---------- */

  /** Keys that two results share have the same value in both. */
  ghost predicate Agree(a: seq<Kv>, b: seq<Kv>) {
    forall i, j :: 0 <= i < |a| && 0 <= j < |b| && a[i].key == b[j].key ==> a[i] == b[j]
  }

  lemma {:induction false} KeysMergedAre(keys: seq<Kv>, more: seq<Kv>)
    requires Agree(keys, more)
    ensures forall kv :: kv in KeysMerged(keys, more) <==> kv in keys || kv in more
  {
    if more != [] {
      var n := |more| - 1;
      KeysMergedAre(keys, more[..n]);
      assert more == more[..n] + [more[n]];
      if HasKey(keys, more[n].key) {
        var i :| 0 <= i < |keys| && keys[i].key == more[n].key;
        assert keys[i] == more[n];
      }
    }
  }

  /** No key is listed twice. */
  predicate OncePerKey(keys: seq<Kv>) {
    forall i, j :: 0 <= i < j < |keys| ==> keys[i].key != keys[j].key
  }

  lemma {:induction false} KeysMergedOnce(keys: seq<Kv>, more: seq<Kv>)
    requires OncePerKey(keys) && OncePerKey(more)
    ensures OncePerKey(KeysMerged(keys, more))
    ensures forall i :: 0 <= i < |KeysMerged(keys, more)| ==>
              var key := KeysMerged(keys, more)[i].key; HasKey(keys, key) || HasKey(more, key)
  {
    if more == [] {
      forall i | 0 <= i < |keys| ensures HasKey(keys, keys[i].key) {
      }
    } else {
      var n := |more| - 1;
      var before := KeysMerged(keys, more[..n]);
      KeysMergedOnce(keys, more[..n]);
      forall i | 0 <= i < |before| ensures HasKey(keys, before[i].key) || HasKey(more, before[i].key) {
        if HasKey(more[..n], before[i].key) {
          var k :| 0 <= k < n && more[..n][k].key == before[i].key;
          assert more[k].key == before[i].key;
        }
      }
      forall i | 0 <= i < |before| ensures HasKey(keys, more[n].key) || before[i].key != more[n].key {
        if HasKey(more[..n], before[i].key) {
          var k :| 0 <= k < n && more[..n][k].key == before[i].key;
          assert more[k].key != more[n].key;
        }
      }
      assert more[n].key == more[n].key && HasKey(more, more[n].key);
    }
  }

  /** Results that can be parts of one transaction. */
  ghost predicate Fit(parts: seq<Tx>) {
    forall i, j :: 0 <= i < j < |parts| ==>
      parts[i].id == parts[j].id && parts[i].kind == parts[j].kind && Agree(parts[i].keys, parts[j].keys)
  }

  /** No part lists a key twice. */
  predicate AllOnce(parts: seq<Tx>) {
    forall i :: 0 <= i < |parts| ==> OncePerKey(parts[i].keys)
  }

  predicate SomeAborted(parts: seq<Tx>) {
    exists i :: 0 <= i < |parts| && parts[i].status == Aborted
  }

  predicate InSome(parts: seq<Tx>, kv: Kv) {
    exists i :: 0 <= i < |parts| && kv in parts[i].keys
  }

  predicate RegionInSome(parts: seq<Tx>, r: nat) {
    exists i :: 0 <= i < |parts| && r in parts[i].regions
  }

  /** How many parts have their keys merged: those before the first aborted one, and the first in any case. */
  function Counted(parts: seq<Tx>): (n: nat)
    requires parts != []
    ensures 1 <= n <= |parts|
  {
    if |parts| > 1 && SomeAborted(parts) then Counted(parts[..|parts| - 1]) else |parts|
  }

  /** Part `i` is the last that aborted. */
  predicate LastAborted(parts: seq<Tx>, i: nat) {
    i < |parts| && parts[i].status == Aborted && forall j :: i < j < |parts| ==> parts[j].status != Aborted
  }

  /** `txn` is what the parts together amount to. */
  ghost predicate Answer(parts: seq<Tx>, txn: Tx)
    requires parts != []
  {
    && txn.id == parts[0].id && txn.kind == parts[0].kind && txn.home == parts[0].home
    && (txn.status == Aborted <==> SomeAborted(parts))
    && (!SomeAborted(parts) ==> txn.status == parts[0].status && txn.reason == parts[0].reason)
    && (forall i: nat :: LastAborted(parts, i) ==> txn.reason == parts[i].reason)
    && (forall kv :: kv in txn.keys <==> InSome(parts[..Counted(parts)], kv))
    && (AllOnce(parts) ==> OncePerKey(txn.keys))
    && (forall r: nat :: r in txn.regions <==> RegionInSome(parts, r))
    && (if |parts| == 1 then txn.regions == parts[0].regions else Ascending(txn.regions))
  }

  lemma {:induction false} AnswerOne(part: Tx)
    ensures Answer([part], part)
  {
    var parts := [part];
    assert parts[0] == part && parts[..1] == parts;
  }

  lemma {:induction false} SomeMore(parts: seq<Tx>, part: Tx)
    ensures SomeAborted(parts + [part]) <==> SomeAborted(parts) || part.status == Aborted
    ensures forall kv :: InSome(parts + [part], kv) <==> InSome(parts, kv) || kv in part.keys
    ensures forall r: nat :: RegionInSome(parts + [part], r) <==> RegionInSome(parts, r) || r in part.regions
  {
    var more := parts + [part];
    assert more[|parts|] == part;
    assert forall i :: 0 <= i < |parts| ==> more[i] == parts[i];
  }

  lemma {:induction false} AgreeWithAll(parts: seq<Tx>, part: Tx, keys: seq<Kv>)
    requires Fit(parts + [part]) && forall kv :: kv in keys <==> InSome(parts, kv)
    ensures Agree(keys, part.keys)
  {
    var more := parts + [part];
    forall i, j | 0 <= i < |keys| && 0 <= j < |part.keys| && keys[i].key == part.keys[j].key
      ensures keys[i] == part.keys[j]
    {
      assert keys[i] in keys;
      var k :| 0 <= k < |parts| && keys[i] in parts[k].keys;
      assert more[k] == parts[k] && more[|parts|] == part;
      var l :| 0 <= l < |parts[k].keys| && parts[k].keys[l] == keys[i];
    }
  }

  lemma {:induction false} AllOnceParts(parts: seq<Tx>, part: Tx)
    requires AllOnce(parts + [part])
    ensures AllOnce(parts) && OncePerKey(part.keys)
  {
    var more := parts + [part];
    assert more[|parts|] == part;
    assert forall i :: 0 <= i < |parts| ==> more[i] == parts[i];
  }

  lemma {:induction false} CountedMore(parts: seq<Tx>, part: Tx)
    requires parts != []
    ensures !SomeAborted(parts) ==> Counted(parts) == |parts|
    ensures Counted(parts + [part]) ==
            if SomeAborted(parts) || part.status == Aborted then Counted(parts) else |parts| + 1
    ensures (parts + [part])[..Counted(parts)] == parts[..Counted(parts)]
  {
    assert (parts + [part])[..|parts|] == parts;
    SomeMore(parts, part);
  }

  /** The last aborted part is the new one, if it aborted, or else the same as before. */
  lemma {:induction false} LastAbortedMore(parts: seq<Tx>, part: Tx)
    ensures part.status == Aborted ==> forall i: nat :: LastAborted(parts + [part], i) ==> i == |parts|
    ensures part.status != Aborted ==>
              forall i: nat :: LastAborted(parts + [part], i) ==> LastAborted(parts, i) && (parts + [part])[i] == parts[i]
    ensures !SomeAborted(parts) ==> forall i: nat :: !LastAborted(parts, i)
  {
    var more := parts + [part];
    assert more[|parts|] == part;
    assert forall i :: 0 <= i < |parts| ==> more[i] == parts[i];
  }

  /** One more part. */
  lemma {:induction false} AnswerMore(parts: seq<Tx>, txn: Tx, part: Tx)
    requires parts != [] && Answer(parts, txn) && Fit(parts + [part])
    ensures Merged(txn, part).Success? && Answer(parts + [part], Merged(txn, part).value)
  {
    var more := parts + [part];
    assert more[0] == parts[0] && more[|parts|] == part;
    SomeMore(parts, part);
    SortedUniqueIs(txn.regions + part.regions);
    CountedMore(parts, part);
    LastAbortedMore(parts, part);
    if AllOnce(more) {
      AllOnceParts(parts, part);
    }
    if part.status != Aborted && txn.status != Aborted {
      assert more[..|more|] == more && parts[..|parts|] == parts;
      AgreeWithAll(parts, part, txn.keys);
      KeysMergedAre(txn.keys, part.keys);
      if AllOnce(more) {
        KeysMergedOnce(txn.keys, part.keys);
      }
    }
  }

  function MergedAll(parts: seq<Tx>): Result<Tx>
    requires parts != []
  {
    if |parts| == 1 then Success(parts[0])
    else
      match MergedAll(parts[..|parts| - 1])
      case Failure(e) => Failure(e)
      case Success(txn) => Merged(txn, parts[|parts| - 1])
  }

  lemma {:induction false} FitPrefix(parts: seq<Tx>, n: nat)
    requires Fit(parts) && n <= |parts|
    ensures Fit(parts[..n])
  {
  }

  /** All results name the same transaction and kind. */
  predicate SameTransaction(parts: seq<Tx>) {
    forall i :: 0 <= i < |parts| ==> parts[i].id == parts[0].id && parts[i].kind == parts[0].kind
  }

  /** Merging throws exactly if two results name different transactions or kinds. */
  lemma {:induction false} MergedAllSucceeds(parts: seq<Tx>)
    requires parts != []
    ensures MergedAll(parts).Success? <==> SameTransaction(parts)
    ensures MergedAll(parts).Success? ==>
              MergedAll(parts).value.id == parts[0].id && MergedAll(parts).value.kind == parts[0].kind
  {
    var n := |parts| - 1;
    if n > 0 {
      MergedAllSucceeds(parts[..n]);
      assert SameTransaction(parts) <==>
             SameTransaction(parts[..n]) && parts[n].id == parts[0].id && parts[n].kind == parts[0].kind;
    }
  }

  /** Merging parts that fit never throws and gives what they together amount to. */
  lemma {:induction false} MergedAllAnswers(parts: seq<Tx>)
    requires parts != [] && Fit(parts)
    ensures MergedAll(parts).Success? && Answer(parts, MergedAll(parts).value)
  {
    var n := |parts| - 1;
    if n == 0 {
      assert parts == [parts[0]];
      AnswerOne(parts[0]);
    } else {
      FitPrefix(parts, n);
      MergedAllAnswers(parts[..n]);
      assert parts == parts[..n] + [parts[n]];
      AnswerMore(parts[..n], MergedAll(parts[..n]).value, parts[n]);
    }
  }

  lemma {:induction false} SameSomes(parts: seq<Tx>, parts': seq<Tx>)
    requires forall p :: p in parts <==> p in parts'
    ensures SomeAborted(parts) ==> SomeAborted(parts')
    ensures forall kv :: InSome(parts, kv) ==> InSome(parts', kv)
    ensures forall r: nat :: RegionInSome(parts, r) ==> RegionInSome(parts', r)
  {
    forall i | 0 <= i < |parts| ensures parts[i] in parts' {
      assert parts[i] in parts;
    }
  }

  lemma {:induction false} CountedAll(parts: seq<Tx>)
    requires parts != []
    ensures !SomeAborted(parts) ==> parts[..Counted(parts)] == parts
  {
  }

  /** Answers to the same parts, in whatever order, agree: same verdict, same keys, same regions. */
  lemma {:induction false} AnswersAlike(parts: seq<Tx>, parts': seq<Tx>, txn: Tx, txn': Tx)
    requires parts != [] && parts' != [] && Fit(parts) && (forall p :: p in parts <==> p in parts')
    requires Answer(parts, txn) && Answer(parts', txn')
    ensures txn.status == Aborted <==> txn'.status == Aborted
    ensures txn.status != Aborted ==> forall kv :: kv in txn.keys <==> kv in txn'.keys
    ensures txn.id == txn'.id && txn.kind == txn'.kind
    ensures forall r: nat :: r in txn.regions <==> r in txn'.regions
    ensures |parts| == |parts'| || (Ascending(txn.regions) && Ascending(txn'.regions)) ==> txn.regions == txn'.regions
  {
    SameSomes(parts, parts');
    SameSomes(parts', parts);
    CountedAll(parts);
    CountedAll(parts');
    assert parts'[0] in parts' && parts[0] in parts;
    assert |parts| == |parts'| == 1 ==> parts[0] == parts'[0];
    if Ascending(txn.regions) && Ascending(txn'.regions) {
      AscendingUnique(txn.regions, txn'.regions);
    }
  }
}
