/**
  The batch log of one home region: it releases batches in slot order, each once its data is
  present and every acknowledgement its slot asked for has come in.

  `Settled` gives the log's state as a function of what has arrived.
*/
module BatchLogs {
  import opened Topology
  import opened AsyncLogs

  datatype Order = Order(slot: nat, id: BatchId)
  datatype BatchState = BatchState(
    slots: Window<BatchId>, batches: map<BatchId, Batch>, replication: map<BatchId, int>, ready: seq<Order>)

  const Empty := BatchState(Window(map[], 0), map[], map[], [])

  predicate CanRelease(b: BatchState) {
    && b.slots.HasNext()
    && var id := b.slots.log[b.slots.next];
    id in b.batches && id in b.replication && b.replication[id] == 0
  }

  function Release(b: BatchState): BatchState
    requires CanRelease(b)
  {
    var id := b.slots.log[b.slots.next];
    b.(slots := Advance(b.slots),
       replication := b.replication - {id},
       ready := b.ready + [Order(b.slots.next, id)])
  }

  function UpdateReady(b: BatchState): BatchState
    decreases |b.slots.log|
  {
    if CanRelease(b) then
      assert b.slots.log.Keys == Advance(b.slots).log.Keys + {b.slots.next};
      UpdateReady(Release(b))
    else b
  }

  function Debt(b: BatchState, id: BatchId): int {
    if id in b.replication then b.replication[id] else 0
  }

  function BatchAdded(b: BatchState, batch: Batch): BatchState {
    UpdateReady(b.(batches := b.batches[batch.id := batch]))
  }

  /** An acknowledgement may come before its slot; the debt is then negative for a while. */
  function Acked(b: BatchState, id: BatchId): BatchState {
    UpdateReady(b.(replication := b.replication[id := Debt(b, id) - 1]))
  }

  function SlotAdded(b: BatchState, slot: nat, id: BatchId, factor: nat): Result<BatchState> {
    match Inserted(b.slots, slot, id)
    case Success(w) =>
      Success(UpdateReady(b.(slots := w, replication := b.replication[id := Debt(b, id) + factor])))
    case Failure(e) => Failure(e)
  }

  /** Handing out the oldest ready batch also forgets its data. */
  function Popped(b: BatchState): BatchState
    requires b.ready != []
  {
    b.(ready := b.ready[1..], batches := b.batches - {b.ready[0].id})
  }

  /* ---------- What has arrived determines the state ---------- */

  /** Everything a batch log has been told; `slotOf` is the inverse of `slots`. */
  datatype Arrivals = Arrivals(
    slots: map<nat, BatchId>, slotOf: map<BatchId, nat>, data: map<BatchId, Batch>, acks: multiset<BatchId>)

  const Nothing := Arrivals(map[], map[], map[], multiset{})

  function WithSlot(a: Arrivals, slot: nat, id: BatchId): Arrivals {
    a.(slots := a.slots[slot := id], slotOf := a.slotOf[id := slot])
  }

  function WithBatch(a: Arrivals, batch: Batch): Arrivals {
    a.(data := a.data[batch.id := batch])
  }

  function WithAck(a: Arrivals, id: BatchId): Arrivals {
    a.(acks := a.acks + multiset{id})
  }

  /** No batch stands in two slots. */
  ghost predicate Mutual(slots: map<nat, BatchId>, slotOf: map<BatchId, nat>) {
    && (forall s :: s in slots ==> slots[s] in slotOf && slotOf[slots[s]] == s)
    && (forall id :: id in slotOf ==> slotOf[id] in slots && slots[slotOf[id]] == id)
  }

  predicate Complete(a: Arrivals, factor: nat, s: nat) {
    s in a.slots && a.slots[s] in a.data && a.acks[a.slots[s]] == factor
  }

  /** The batch of one of the first `n` slots. */
  predicate Among(slotOf: map<BatchId, nat>, n: nat, id: BatchId) {
    id in slotOf && slotOf[id] < n
  }

  ghost predicate SlotsMatch(w: Window<BatchId>, slots: map<nat, BatchId>, n: nat) {
    && w.next == n
    && (forall s :: s in w.log <==> s in slots && s >= n)
    && (forall s :: s in w.log ==> w.log[s] == slots[s])
  }

  ghost predicate DataMatches(batches: map<BatchId, Batch>, a: Arrivals, popped: nat) {
    && (forall id :: id in batches <==> id in a.data && !Among(a.slotOf, popped, id))
    && (forall id :: id in batches ==> batches[id] == a.data[id])
  }

  ghost predicate DebtMatches(replication: map<BatchId, int>, a: Arrivals, factor: nat, n: nat) {
    && (forall id :: id in replication <==>
          !Among(a.slotOf, n, id) && (id in a.slotOf || a.acks[id] > 0))
    && (forall id :: id in replication ==>
          replication[id] == (if id in a.slotOf then factor else 0) - a.acks[id])
  }

  ghost predicate ReadyMatches(ready: seq<Order>, slots: map<nat, BatchId>, popped: nat, n: nat) {
    && popped <= n && |ready| == n - popped
    && (forall i :: 0 <= i < |ready| ==>
          && ready[i].slot == popped + i
          && ready[i].slot in slots && ready[i].id == slots[ready[i].slot])
  }

  /** `n` slots have been released and the first `popped` of them handed out. */
  ghost predicate Consistent(b: BatchState, a: Arrivals, factor: nat, popped: nat, n: nat) {
    && Mutual(a.slots, a.slotOf)
    && (forall s :: 0 <= s < n ==> Complete(a, factor, s))
    && SlotsMatch(b.slots, a.slots, n)
    && DataMatches(b.batches, a, popped)
    && DebtMatches(b.replication, a, factor, n)
    && ReadyMatches(b.ready, a.slots, popped, n)
  }

  /** Consistent, and the next slot is incomplete: the output is as long as the arrivals allow. */
  ghost predicate Settled(b: BatchState, a: Arrivals, factor: nat, popped: nat, n: nat) {
    Consistent(b, a, factor, popped, n) && !Complete(a, factor, n)
  }

  lemma {:induction false} ReleaseConsistent(b: BatchState, a: Arrivals, factor: nat, popped: nat, n: nat)
    requires Consistent(b, a, factor, popped, n) && CanRelease(b)
    ensures Consistent(Release(b), a, factor, popped, n + 1)
  {
    assert Complete(a, factor, n);
  }

  lemma {:induction false} StuckIsIncomplete(b: BatchState, a: Arrivals, factor: nat, popped: nat, n: nat)
    requires Consistent(b, a, factor, popped, n) && !CanRelease(b)
    ensures !Complete(a, factor, n)
  {
  }

  lemma {:induction false} UpdateSettles(b: BatchState, a: Arrivals, factor: nat, popped: nat, n: nat)
    returns (n': nat)
    requires Consistent(b, a, factor, popped, n)
    ensures n <= n' && Settled(UpdateReady(b), a, factor, popped, n')
    decreases |b.slots.log|
  {
    if CanRelease(b) {
      ReleaseConsistent(b, a, factor, popped, n);
      assert b.slots.log.Keys == Advance(b.slots).log.Keys + {b.slots.next};
      n' := UpdateSettles(Release(b), a, factor, popped, n + 1);
    } else {
      n' := n;
      StuckIsIncomplete(b, a, factor, popped, n);
    }
  }

  lemma {:induction false} BatchAddedSettles(b: BatchState, a: Arrivals, factor: nat, popped: nat, n: nat, batch: Batch)
    returns (n': nat)
    requires Settled(b, a, factor, popped, n) && batch.id !in a.data
    ensures n <= n' && Settled(BatchAdded(b, batch), WithBatch(a, batch), factor, popped, n')
  {
    assert Among(a.slotOf, popped, batch.id) ==> Complete(a, factor, a.slotOf[batch.id]);
    forall s | 0 <= s < n ensures Complete(WithBatch(a, batch), factor, s) {
      assert Complete(a, factor, s);
    }
    n' := UpdateSettles(b.(batches := b.batches[batch.id := batch]), WithBatch(a, batch), factor, popped, n);
  }

  lemma {:induction false} AckedSettles(b: BatchState, a: Arrivals, factor: nat, popped: nat, n: nat, id: BatchId)
    returns (n': nat)
    requires Settled(b, a, factor, popped, n) && !Among(a.slotOf, n, id)
    ensures n <= n' && Settled(Acked(b, id), WithAck(a, id), factor, popped, n')
  {
    var b' := b.(replication := b.replication[id := Debt(b, id) - 1]);
    AckArrivesConsistent(b, b', a, factor, popped, n, id);
    assert Acked(b, id) == UpdateReady(b');
    n' := UpdateSettles(b', WithAck(a, id), factor, popped, n);
  }

  lemma {:induction false} DebtWithAck(b: BatchState, a: Arrivals, factor: nat, n: nat, id: BatchId)
    requires DebtMatches(b.replication, a, factor, n) && !Among(a.slotOf, n, id)
    ensures DebtMatches(b.replication[id := Debt(b, id) - 1], WithAck(a, id), factor, n)
  {
  }

  lemma {:induction false} CompleteWithAck(a: Arrivals, factor: nat, n: nat, id: BatchId, s: nat)
    requires Mutual(a.slots, a.slotOf) && !Among(a.slotOf, n, id) && s < n && Complete(a, factor, s)
    ensures Complete(WithAck(a, id), factor, s)
  {
    assert a.slots[s] != id;
  }

  lemma {:induction false} AckArrivesConsistent(b: BatchState, b': BatchState, a: Arrivals, factor: nat, popped: nat,
                                                n: nat, id: BatchId)
    requires Consistent(b, a, factor, popped, n) && !Among(a.slotOf, n, id)
    requires b' == b.(replication := b.replication[id := Debt(b, id) - 1])
    ensures Consistent(b', WithAck(a, id), factor, popped, n)
  {
    forall s | 0 <= s < n ensures Complete(WithAck(a, id), factor, s) {
      CompleteWithAck(a, factor, n, id, s);
    }
    DebtWithAck(b, a, factor, n, id);
  }

  lemma {:induction false} SlotAddedSettles(b: BatchState, a: Arrivals, factor: nat, popped: nat, n: nat, slot: nat,
                                            id: BatchId)
    returns (n': nat)
    requires Settled(b, a, factor, popped, n) && slot !in a.slots && id !in a.slotOf
    ensures SlotAdded(b, slot, id, factor).Success?
    ensures n <= n' && Settled(SlotAdded(b, slot, id, factor).value, WithSlot(a, slot, id), factor, popped, n')
  {
    var b' := b.(slots := Window(b.slots.log[slot := id], b.slots.next),
                 replication := b.replication[id := Debt(b, id) + factor]);
    FreshSlot(b, b', a, factor, popped, n, slot, id);
    SlotArrivesConsistent(b, b', a, factor, popped, n, slot, id);
    n' := UpdateSettles(b', WithSlot(a, slot, id), factor, popped, n);
  }

  lemma {:induction false} FreshSlot(b: BatchState, b': BatchState, a: Arrivals, factor: nat, popped: nat, n: nat,
                                     slot: nat, id: BatchId)
    requires Consistent(b, a, factor, popped, n) && slot !in a.slots
    requires b' == b.(slots := Window(b.slots.log[slot := id], b.slots.next),
                      replication := b.replication[id := Debt(b, id) + factor])
    ensures slot >= n && SlotAdded(b, slot, id, factor) == Success(UpdateReady(b'))
  {
    assert slot < n ==> Complete(a, factor, slot);
  }

  lemma {:induction false} MutualWithSlot(slots: map<nat, BatchId>, slotOf: map<BatchId, nat>, slot: nat, id: BatchId)
    requires Mutual(slots, slotOf) && slot !in slots && id !in slotOf
    ensures Mutual(slots[slot := id], slotOf[id := slot])
  {
  }

  lemma {:induction false} DebtWithSlot(b: BatchState, a: Arrivals, factor: nat, n: nat, slot: nat, id: BatchId)
    requires DebtMatches(b.replication, a, factor, n) && slot >= n && id !in a.slotOf
    ensures DebtMatches(b.replication[id := Debt(b, id) + factor], WithSlot(a, slot, id), factor, n)
  {
  }

  lemma {:induction false} SlotArrivesConsistent(b: BatchState, b': BatchState, a: Arrivals, factor: nat, popped: nat,
                                                 n: nat, slot: nat, id: BatchId)
    requires Consistent(b, a, factor, popped, n) && slot !in a.slots && slot >= n && id !in a.slotOf
    requires b' == b.(slots := Window(b.slots.log[slot := id], b.slots.next),
                      replication := b.replication[id := Debt(b, id) + factor])
    ensures Consistent(b', WithSlot(a, slot, id), factor, popped, n)
  {
    var a' := WithSlot(a, slot, id);
    forall s | 0 <= s < n ensures Complete(a', factor, s) {
      assert Complete(a, factor, s);
    }
    assert Mutual(a'.slots, a'.slotOf) by { MutualWithSlot(a.slots, a.slotOf, slot, id); }
    assert DebtMatches(b'.replication, a', factor, n) by { DebtWithSlot(b, a, factor, n, slot, id); }
    DataWithSlot(b.batches, a, popped, slot, id);
    ReadyWithSlot(b.ready, a.slots, popped, n, slot, id);
  }

  lemma {:induction false} DataWithSlot(batches: map<BatchId, Batch>, a: Arrivals, popped: nat, slot: nat, id: BatchId)
    requires DataMatches(batches, a, popped) && slot >= popped && id !in a.slotOf
    ensures DataMatches(batches, WithSlot(a, slot, id), popped)
  {
  }

  lemma {:induction false} ReadyWithSlot(ready: seq<Order>, slots: map<nat, BatchId>, popped: nat, n: nat, slot: nat,
                                         id: BatchId)
    requires ReadyMatches(ready, slots, popped, n) && slot >= n
    ensures ReadyMatches(ready, slots[slot := id], popped, n)
  {
  }

  /** Every ready batch still has its data when it is handed out. */
  lemma {:induction false} PopSettles(b: BatchState, a: Arrivals, factor: nat, popped: nat, n: nat)
    requires Settled(b, a, factor, popped, n) && b.ready != []
    ensures popped in a.slots && b.ready[0] == Order(popped, a.slots[popped])
    ensures b.ready[0].id in b.batches && b.batches[b.ready[0].id] == a.data[a.slots[popped]]
    ensures Settled(Popped(b), a, factor, popped + 1, n)
  {
    assert Complete(a, factor, popped);
    assert b.ready[0].slot == popped;
  }

  lemma {:induction false} SettledUnique(b1: BatchState, b2: BatchState, a: Arrivals, factor: nat, p1: nat, p2: nat,
                                         n1: nat, n2: nat)
    requires Settled(b1, a, factor, p1, n1) && Settled(b2, a, factor, p2, n2)
    ensures n1 == n2
  {
    assert n1 < n2 ==> Complete(a, factor, n1);
    assert n2 < n1 ==> Complete(a, factor, n2);
  }

  /* ---------- The log as the log manager and the orderer hold it ---------- */

  class BatchLog {
    var slots: AsyncLog<BatchId>
    var batches: map<BatchId, Batch>
    var replication: map<BatchId, int>
    var ready: seq<Order>

    ghost function View(): BatchState
      reads this, slots
    {
      BatchState(slots.View(), batches, replication, ready)
    }

    /** What `PopSettles` shows of every log that only its own operations have changed. */
    ghost predicate ReadyHasData()
      reads this
    {
      forall i :: 0 <= i < |ready| ==> ready[i].id in batches
    }

    constructor ()
      ensures View() == Empty && fresh(slots)
    {
      slots := new AsyncLog<BatchId>();
      batches, replication, ready := map[], map[], [];
    }

    method AddBatch(batch: Batch)
      modifies this, slots
      ensures slots == old(slots) && View() == BatchAdded(old(View()), batch)
    {
      batches := batches[batch.id := batch];
      UpdateReadyBatches();
    }

    method AckReplication(id: BatchId)
      modifies this, slots
      ensures slots == old(slots) && View() == Acked(old(View()), id)
    {
      replication := replication[id := (if id in replication then replication[id] else 0) - 1];
      UpdateReadyBatches();
    }

    method AddSlot(slot: nat, id: BatchId, factor: nat := 0) returns (r: Result<()>)
      modifies this, slots
      ensures slots == old(slots)
      ensures match SlotAdded(old(View()), slot, id, factor)
              case Success(b) => r == Success(()) && View() == b
              case Failure(e) => r == Failure(e) && View() == old(View())
    {
      r := slots.Insert(slot, id);
      if r.Success? {
        replication := replication[id := (if id in replication then replication[id] else 0) + factor];
        UpdateReadyBatches();
      }
    }

    method UpdateReadyBatches()
      modifies this, slots
      ensures slots == old(slots) && View() == UpdateReady(old(View()))
    {
      while slots.next in slots.log
        invariant slots == old(slots)
        invariant UpdateReady(View()) == UpdateReady(old(View()))
        decreases |slots.log|
      {
        ghost var before := View();
        var id := slots.log[slots.next];
        if id !in batches || id !in replication || replication[id] != 0 {
          break;
        }
        assert before.slots.log.Keys == Advance(before.slots).log.Keys + {before.slots.next};
        replication := replication - {id};
        var next := slots.Next();
        ready := ready + [Order(next.value.0, next.value.1)];
        assert View() == Release(before);
      }
    }

    method NextBatch() returns (r: Result<(nat, Batch)>)
      requires ReadyHasData()
      modifies this`ready, this`batches
      ensures old(ready) == [] ==> r.Failure? && View() == old(View())
      ensures old(ready) != [] ==>
                && r == Success((old(ready)[0].slot, old(batches)[old(ready)[0].id]))
                && View() == Popped(old(View()))
    {
      if ready == [] {
        return Failure("NextBatch() was called when there is no ready batch");
      }
      var next := ready[0];
      ready := ready[1..];
      r := Success((next.slot, batches[next.id]));
      batches := batches - {next.id};
    }
  }

  /** In a settled log everything ready has its data. */
  lemma {:induction false} SettledReadyHasData(b: BatchState, a: Arrivals, factor: nat, popped: nat, n: nat)
    requires Settled(b, a, factor, popped, n)
    ensures forall i :: 0 <= i < |b.ready| ==> b.ready[i].id in b.batches
  {
    forall i | 0 <= i < |b.ready| ensures b.ready[i].id in b.batches {
      assert Complete(a, factor, b.ready[i].slot);
    }
  }
}
