/**
  The multi-home orderer of one region.

  Transactions that involve several regions are collected into one batch per region; a round of
  such batches shares one batch id, and the id is what gets a place in the global order.
*/
module Orderers {
  import opened Topology
  import opened LogManagers
  import B = BatchLogs

  /** What an orderer sends: a proposal, a region's part of a round, the place of a round. */
  datatype Parcel =
    | Proposal(id: BatchId)
    | Part(region: nat, batch: Batch)
    | Place(region: nat, slot: nat, id: BatchId)

  /** The transactions that involve region `g`, in order. */
  function Involving(txns: seq<Txn>, g: nat): seq<Txn> {
    if txns == [] then []
    else Involving(txns[..|txns| - 1], g) + if g in txns[|txns| - 1].regions then [txns[|txns| - 1]] else []
  }

  function Parts(id: BatchId, txns: seq<Txn>, n: nat): seq<Batch> {
    seq(n, g requires 0 <= g < n => Batch(id, Involving(txns, g)))
  }

  /** The parcels of a finished round. */
  function Round(id: BatchId, open: seq<Batch>): seq<Parcel> {
    [Proposal(id)] + seq(|open|, g requires 0 <= g < |open| => Part(g, open[g]))
  }

  lemma {:induction false} InvolvingAppend(xs: seq<Txn>, ys: seq<Txn>, g: nat)
    ensures Involving(xs + ys, g) == Involving(xs, g) + Involving(ys, g)
  {
    if ys == [] {
      assert xs + ys == xs;
    } else {
      InvolvingAppend(xs, ys[..|ys| - 1], g);
      assert (xs + ys)[..|xs + ys| - 1] == xs + ys[..|ys| - 1];
    }
  }

  lemma {:induction false} InvolvingOne(t: Txn, g: nat)
    ensures Involving([t], g) == if g in t.regions then [t] else []
  {
    assert [t][..0] == [];
  }

  class MultiHomeOrderer {
    const me: Machine
    const regions: nat
    var counter: nat
    var size: nat
    var batchPerRegion: seq<Batch>
    var log: B.BatchState

    /** The transactions of the open round, in order of arrival. */
    ghost var txns: seq<Txn>

    ghost predicate Sound()
      reads this
    {
      && counter > 0 && size == |txns|
      && batchPerRegion == Parts(BatchId(counter, me), txns, regions)
    }

    constructor (me: Machine, regions: nat)
      ensures this.me == me && this.regions == regions && Sound()
      ensures counter == 1 && txns == [] && log == B.Empty
    {
      this.me, this.regions := me, regions;
      counter, size, log, txns := 0, 0, B.Empty, [];
      batchPerRegion := seq(regions, g => Batch(BatchId(0, me), []));
      new;
      NewBatch();
    }

    /** Every region's batch is emptied and gets the next id. */
    method NewBatch()
      requires |batchPerRegion| == regions
      modifies this`counter, this`size, this`batchPerRegion, this`txns
      ensures counter == old(counter) + 1 && txns == [] && Sound()
    {
      counter, size, txns := counter + 1, 0, [];
      var g := 0;
      while g < |batchPerRegion|
        modifies this`batchPerRegion
        invariant g <= |batchPerRegion| == regions
        invariant forall k :: 0 <= k < g ==> batchPerRegion[k] == Batch(BatchId(counter, me), [])
      {
        batchPerRegion := batchPerRegion[g := Batch(BatchId(counter, me), [])];
        g := g + 1;
      }
      assert batchPerRegion == Parts(BatchId(counter, me), [], regions);
    }

    /** A copy of the transaction goes into the batch of each region it involves. */
    method AddToBatch(txn: Txn) returns (first: bool)
      requires Sound() && Distinct(txn.regions) && forall g :: g in txn.regions ==> g < regions
      modifies this`size, this`batchPerRegion, this`txns
      ensures Sound() && txns == old(txns) + [txn]
      ensures first <==> old(txns) == []
    {
      var i := 0;
      while i < |txn.regions|
        modifies this`batchPerRegion
        invariant i <= |txn.regions| && |batchPerRegion| == regions
        invariant forall g :: 0 <= g < regions ==>
                    batchPerRegion[g] == Batch(BatchId(counter, me), Involving(old(txns), g)
                                               + if g in txn.regions[..i] then [txn] else [])
      {
        var g := txn.regions[i];
        assert g in txn.regions && g !in txn.regions[..i];
        batchPerRegion := batchPerRegion[g := batchPerRegion[g].(txns := batchPerRegion[g].txns + [txn])];
        i := i + 1;
      }
      txns := txns + [txn];
      size := size + 1;
      first := size == 1;
      assert txn.regions[..i] == txn.regions;
      forall g | 0 <= g < regions ensures batchPerRegion[g] == Batch(BatchId(counter, me), Involving(txns, g)) {
        InvolvingAppend(old(txns), [txn], g);
        InvolvingOne(txn, g);
      }
    }

    /** The round's id is proposed and each region is sent its part. */
    method SendBatch() returns (sends: seq<Parcel>)
      requires Sound()
      ensures sends == Round(BatchId(counter, me), Parts(BatchId(counter, me), txns, regions))
    {
      sends := [Proposal(BatchId(counter, me))];
      var g := 0;
      while g < regions
        invariant g <= regions
        invariant sends == Round(BatchId(counter, me), batchPerRegion[..g])
      {
        sends := sends + [Part(g, batchPerRegion[g])];
        g := g + 1;
      }
      assert batchPerRegion[..g] == batchPerRegion;
    }

    method ProcessForwardBatchData(batch: Batch) returns (out: seq<Txn>)
      modifies this`log
      ensures var drained := Drained(B.BatchAdded(old(log), batch));
              log == drained.0 && out == Unbatched(drained.1)
    {
      log := B.BatchAdded(log, batch);
      out := AdvanceLog();
    }

    method ProcessForwardBatchOrder(slot: nat, id: BatchId) returns (r: Result<seq<Txn>>)
      modifies this`log
      ensures match B.SlotAdded(old(log), slot, id, 0)
              case Success(b) => log == Drained(b).0 && r == Success(Unbatched(Drained(b).1))
              case Failure(e) => r == Failure(e)
    {
      match B.SlotAdded(log, slot, id, 0) {
        case Success(b) =>
          log := b;
          var out := AdvanceLog();
          r := Success(out);
        case Failure(e) =>
          r := Failure(e);
      }
    }

    /** Hands the transactions of finished rounds to the sequencer. */
    method AdvanceLog() returns (out: seq<Txn>)
      modifies this`log
      ensures log == Drained(old(log)).0 && out == Unbatched(Drained(old(log)).1)
    {
      out := [];
      ghost var done: seq<Batch> := [];
      ghost var start := log;
      while log.ready != [] && log.ready[0].id in log.batches
        invariant Drained(start).0 == Drained(log).0 && Drained(start).1 == done + Drained(log).1
        invariant out == Unbatched(done)
        decreases |log.ready|
      {
        var batch := log.batches[log.ready[0].id];
        ghost var rest := Drained(B.Popped(log)).1;
        assert done + ([batch] + rest) == done + [batch] + rest;
        var txns := Unbatch(batch);
        UnbatchedLast(done, batch);
        out := out + txns;
        done := done + [batch];
        log := B.Popped(log);
      }
      assert done + [] == done;
    }
  }

  /** The transactions of a sequence of batches. */
  function Unbatched(batches: seq<Batch>): seq<Txn> {
    if batches == [] then [] else Unbatched(batches[..|batches| - 1]) + batches[|batches| - 1].txns
  }

  lemma {:induction false} UnbatchedLast(batches: seq<Batch>, last: Batch)
    ensures Unbatched(batches + [last]) == Unbatched(batches) + last.txns
  {
    assert (batches + [last])[..|batches|] == batches;
  }

  /** Takes the transactions off the end of the batch, into their places. */
  method Unbatch(batch: Batch) returns (txns: seq<Txn>)
    ensures txns == batch.txns
  {
    var n := |batch.txns|;
    var buffer := new Txn[n](i => Txn(0, []));
    var left := batch.txns;
    var i := n;
    while i > 0
      invariant 0 <= i <= n && left == batch.txns[..i]
      invariant forall k :: i <= k < n ==> buffer[k] == batch.txns[k]
    {
      i := i - 1;
      buffer[i] := left[|left| - 1];
      left := left[..|left| - 1];
    }
    txns := buffer[..];
  }
}
