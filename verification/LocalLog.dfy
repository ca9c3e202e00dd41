/**
  The local log pairs slots of the region's order with batches of the region's generators.

  A slot names only a generator; its batch is the generator's next unused one.
  `Settled` gives the log's state as a function of what has arrived, whatever the order of
  arrival was.
*/
module LocalLogs {
  import opened Topology
  import opened AsyncLogs

  datatype SlotEntry = SlotEntry(queue: Machine, leader: Machine)
  datatype Ready = Ready(slot: nat, id: BatchId, leader: Machine)
  datatype LocalState = LocalState(
    slots: Window<SlotEntry>, queues: map<Machine, Window<BatchId>>, ready: seq<Ready>)

  const Empty := LocalState(Window(map[], 0), map[], [])

  function Queue(l: LocalState, q: Machine): Window<BatchId> {
    if q in l.queues then l.queues[q] else Window(map[], 0)
  }

  predicate CanPair(l: LocalState) {
    l.slots.HasNext() && Queue(l, l.slots.log[l.slots.next].queue).HasNext()
  }

  function Pair(l: LocalState): LocalState
    requires CanPair(l)
  {
    var entry := l.slots.log[l.slots.next];
    var queue := l.queues[entry.queue];
    LocalState(Advance(l.slots), l.queues[entry.queue := Advance(queue)],
               l.ready + [Ready(l.slots.next, queue.log[queue.next], entry.leader)])
  }

  function UpdateReady(l: LocalState): LocalState
    decreases |l.slots.log|
  {
    if CanPair(l) then
      assert l.slots.log.Keys == Advance(l.slots).log.Keys + {l.slots.next};
      UpdateReady(Pair(l))
    else l
  }

  function SlotAdded(l: LocalState, slot: nat, entry: SlotEntry): Result<LocalState> {
    match Inserted(l.slots, slot, entry)
    case Success(w) => Success(UpdateReady(l.(slots := w)))
    case Failure(e) => Failure(e)
  }

  function BatchIdAdded(l: LocalState, q: Machine, position: nat, id: BatchId): Result<LocalState> {
    match Inserted(Queue(l, q), position, id)
    case Success(w) => Success(UpdateReady(l.(queues := l.queues[q := w])))
    case Failure(e) => Failure(e)
  }

  /* ---------- What has arrived determines the state ---------- */

  /** Everything a local log has been told. */
  datatype Arrivals = Arrivals(slots: map<nat, SlotEntry>, ids: map<(Machine, nat), BatchId>)

  /** How many of the slots below `n` name queue `q`. */
  function Rank(slots: map<nat, SlotEntry>, n: nat, q: Machine): nat {
    if n == 0 then 0
    else Rank(slots, n - 1, q) + if n - 1 in slots && slots[n - 1].queue == q then 1 else 0
  }

  /** Slot `s` has arrived together with the batch it stands for. */
  predicate Complete(a: Arrivals, s: nat) {
    s in a.slots && (a.slots[s].queue, Rank(a.slots, s, a.slots[s].queue)) in a.ids
  }

  /** What slot `s` is paired with: the batch at position #{t < s : queue(t) = queue(s)}. */
  function Paired(a: Arrivals, s: nat): Ready
    requires Complete(a, s)
  {
    var entry := a.slots[s];
    Ready(s, a.ids[(entry.queue, Rank(a.slots, s, entry.queue))], entry.leader)
  }

  /** `n` slots have been paired and the first `popped` of them handed out. */
  ghost predicate Consistent(l: LocalState, a: Arrivals, popped: nat, n: nat) {
    && popped <= n
    && (forall s :: 0 <= s < n ==> Complete(a, s))
    && l.slots.next == n
    && (forall s :: s in l.slots.log <==> s in a.slots && s >= n)
    && (forall s :: s in l.slots.log ==> l.slots.log[s] == a.slots[s])
    && (forall q :: Queue(l, q).next == Rank(a.slots, n, q))
    && (forall q, p :: p in Queue(l, q).log <==> (q, p) in a.ids && p >= Rank(a.slots, n, q))
    && (forall q, p :: p in Queue(l, q).log ==> Queue(l, q).log[p] == a.ids[(q, p)])
    && (forall q, p: nat :: p < Rank(a.slots, n, q) ==> (q, p) in a.ids)
    && |l.ready| == n - popped
    && (forall s :: popped <= s < n ==> l.ready[s - popped] == Paired(a, s))
  }

  /** Consistent, and the next slot cannot be paired: the output is as long as the arrivals allow. */
  ghost predicate Settled(l: LocalState, a: Arrivals, popped: nat, n: nat) {
    Consistent(l, a, popped, n) && !Complete(a, n)
  }

  lemma {:induction false} PairConsistent(l: LocalState, a: Arrivals, popped: nat, n: nat)
    requires Consistent(l, a, popped, n) && CanPair(l)
    ensures Consistent(Pair(l), a, popped, n + 1)
  {
    var entry := l.slots.log[n];
    var l' := Pair(l);
    forall q
      ensures Queue(l', q).next == Rank(a.slots, n + 1, q)
      ensures forall p :: p in Queue(l', q).log <==> (q, p) in a.ids && p >= Rank(a.slots, n + 1, q)
      ensures forall p :: p in Queue(l', q).log ==> Queue(l', q).log[p] == a.ids[(q, p)]
      ensures forall p: nat :: p < Rank(a.slots, n + 1, q) ==> (q, p) in a.ids
    {
      assert Queue(l, q).next == Rank(a.slots, n, q);
    }
    forall s | popped <= s < n + 1
      ensures l'.ready[s - popped] == Paired(a, s)
    {
    }
  }

  lemma {:induction false} StuckIsIncomplete(l: LocalState, a: Arrivals, popped: nat, n: nat)
    requires Consistent(l, a, popped, n) && !CanPair(l)
    ensures !Complete(a, n)
  {
  }

  lemma {:induction false} UpdateSettles(l: LocalState, a: Arrivals, popped: nat, n: nat) returns (n': nat)
    requires Consistent(l, a, popped, n)
    ensures n <= n' && Settled(UpdateReady(l), a, popped, n')
    decreases |l.slots.log|
  {
    if CanPair(l) {
      PairConsistent(l, a, popped, n);
      assert l.slots.log.Keys == Advance(l.slots).log.Keys + {l.slots.next};
      n' := UpdateSettles(Pair(l), a, popped, n + 1);
    } else {
      n' := n;
      StuckIsIncomplete(l, a, popped, n);
    }
  }

  lemma {:induction false} RankExtends(s1: map<nat, SlotEntry>, s2: map<nat, SlotEntry>, n: nat, q: Machine)
    requires forall t :: 0 <= t < n ==> t in s1 && t in s2 && s1[t] == s2[t]
    ensures Rank(s1, n, q) == Rank(s2, n, q)
  {
    if n > 0 {
      RankExtends(s1, s2, n - 1, q);
    }
  }

  /** More arrivals do not change what complete slots are paired with. */
  lemma {:induction false} PairedKept(a: Arrivals, a': Arrivals, s: nat)
    requires forall t :: 0 <= t <= s ==> t in a.slots
    requires forall t :: t in a.slots ==> t in a'.slots && a'.slots[t] == a.slots[t]
    requires forall k :: k in a.ids ==> k in a'.ids && a'.ids[k] == a.ids[k]
    requires Complete(a, s)
    ensures Complete(a', s) && Paired(a', s) == Paired(a, s)
  {
    RankExtends(a.slots, a'.slots, s, a.slots[s].queue);
  }

  lemma {:induction false} RankMonotone(slots: map<nat, SlotEntry>, s: nat, t: nat, q: Machine)
    requires s <= t
    ensures Rank(slots, s, q) <= Rank(slots, t, q)
    decreases t - s
  {
    if s < t {
      RankMonotone(slots, s, t - 1, q);
    }
  }

  /** No two slots use the same batch of a queue. */
  lemma {:induction false} RankStrict(slots: map<nat, SlotEntry>, s: nat, t: nat)
    requires s < t && s in slots && t in slots && slots[s].queue == slots[t].queue
    ensures Rank(slots, s, slots[s].queue) < Rank(slots, t, slots[t].queue)
  {
    RankMonotone(slots, s + 1, t, slots[s].queue);
  }

  /** A log that has settled accepts any new slot and settles again. */
  lemma {:induction false} AddSlotSettles(l: LocalState, a: Arrivals, popped: nat, n: nat, slot: nat, entry: SlotEntry)
    returns (n': nat)
    requires Settled(l, a, popped, n) && slot !in a.slots
    ensures SlotAdded(l, slot, entry).Success?
    ensures n <= n'
    ensures Settled(SlotAdded(l, slot, entry).value, a.(slots := a.slots[slot := entry]), popped, n')
  {
    var a' := a.(slots := a.slots[slot := entry]);
    assert slot < n ==> Complete(a, slot);
    forall s, q | 0 <= s <= n
      ensures Rank(a'.slots, s, q) == Rank(a.slots, s, q)
    {
      forall t | 0 <= t < s ensures t in a.slots && a'.slots[t] == a.slots[t] {
        assert Complete(a, t);
      }
      RankExtends(a.slots, a'.slots, s, q);
    }
    var l1 := l.(slots := Inserted(l.slots, slot, entry).value);
    assert forall q :: Queue(l1, q) == Queue(l, q);
    forall s | 0 <= s < n ensures Complete(a', s) && Paired(a', s) == Paired(a, s) {
      assert Complete(a, s);
    }
    n' := UpdateSettles(l1, a', popped, n);
  }

  /** A log that has settled accepts any new batch position and settles again. */
  lemma {:induction false} AddBatchIdSettles(l: LocalState, a: Arrivals, popped: nat, n: nat, q: Machine,
                                             position: nat, id: BatchId)
    returns (n': nat)
    requires Settled(l, a, popped, n) && (q, position) !in a.ids
    ensures BatchIdAdded(l, q, position, id).Success?
    ensures n <= n'
    ensures Settled(BatchIdAdded(l, q, position, id).value, a.(ids := a.ids[(q, position) := id]), popped, n')
  {
    var a' := a.(ids := a.ids[(q, position) := id]);
    assert position >= Rank(a.slots, n, q);
    assert position !in Queue(l, q).log;
    var l1 := l.(queues := l.queues[q := Inserted(Queue(l, q), position, id).value]);
    assert forall q' :: q' != q ==> Queue(l1, q') == Queue(l, q');
    forall s | 0 <= s < n ensures Complete(a', s) && Paired(a', s) == Paired(a, s) {
      assert Complete(a, s);
    }
    n' := UpdateSettles(l1, a', popped, n);
  }

  /** The number of paired slots is a function of the arrivals. */
  lemma {:induction false} SettledUnique(l1: LocalState, l2: LocalState, a: Arrivals, p1: nat, p2: nat, n1: nat,
                                         n2: nat)
    requires Settled(l1, a, p1, n1) && Settled(l2, a, p2, n2)
    ensures n1 == n2
  {
    assert n1 < n2 ==> Complete(a, n1);
    assert n2 < n1 ==> Complete(a, n2);
  }

  /** Handing out the oldest ready batch. */
  lemma {:induction false} PopSettles(l: LocalState, a: Arrivals, popped: nat, n: nat)
    requires Settled(l, a, popped, n) && l.ready != []
    ensures l.ready[0] == Paired(a, popped)
    ensures Settled(l.(ready := l.ready[1..]), a, popped + 1, n)
  {
    var l' := l.(ready := l.ready[1..]);
    assert forall q :: Queue(l', q) == Queue(l, q);
    forall s | popped + 1 <= s < n ensures l'.ready[s - (popped + 1)] == Paired(a, s) {
      assert l.ready[s - popped] == Paired(a, s);
    }
  }

  lemma {:induction false} EmptySettled()
    ensures Settled(Empty, Arrivals(map[], map[]), 0, 0)
  {
  }

  /* ---------- Confluence ---------- */

  datatype Event =
    | SlotArrives(slot: nat, entry: SlotEntry)
    | BatchArrives(queue: Machine, position: nat, id: BatchId)

  function Apply(l: LocalState, e: Event): Result<LocalState> {
    match e
    case SlotArrives(slot, entry) => SlotAdded(l, slot, entry)
    case BatchArrives(q, position, id) => BatchIdAdded(l, q, position, id)
  }

  function Replay(es: seq<Event>): Result<LocalState> {
    if es == [] then Success(Empty)
    else match Replay(es[..|es| - 1])
      case Success(l) => Apply(l, es[|es| - 1])
      case Failure(e) => Failure(e)
  }

  /** Two events that want the same slot, or the same position of the same queue. */
  predicate Clash(e1: Event, e2: Event) {
    match (e1, e2)
    case (SlotArrives(s1, _), SlotArrives(s2, _)) => s1 == s2
    case (BatchArrives(q1, p1, _), BatchArrives(q2, p2, _)) => q1 == q2 && p1 == p2
    case _ => false
  }

  predicate ClashFree(es: seq<Event>) {
    forall i, j :: 0 <= i < j < |es| ==> !Clash(es[i], es[j])
  }

  /** `a` records exactly the events of `es`. */
  ghost predicate Records(a: Arrivals, es: seq<Event>) {
    && (forall s :: s in a.slots ==> SlotArrives(s, a.slots[s]) in es)
    && (forall s, entry :: SlotArrives(s, entry) in es ==> s in a.slots && a.slots[s] == entry)
    && (forall q, p :: (q, p) in a.ids ==> BatchArrives(q, p, a.ids[(q, p)]) in es)
    && (forall q, p: nat, id :: BatchArrives(q, p, id) in es ==> (q, p) in a.ids && a.ids[(q, p)] == id)
  }

  /** After any clash-free events the log has thrown nothing and has settled on what they record. */
  lemma {:induction false} ReplaySettles(es: seq<Event>) returns (a: Arrivals, n: nat)
    requires ClashFree(es)
    ensures Records(a, es)
    ensures Replay(es).Success? && Settled(Replay(es).value, a, 0, n)
  {
    if es == [] {
      a, n := Arrivals(map[], map[]), 0;
      EmptySettled();
    } else {
      var init, e := es[..|es| - 1], es[|es| - 1];
      assert es == init + [e];
      a, n := ReplaySettles(init);
      assert forall d :: d in init ==> !Clash(d, e);
      var before := a;
      match e {
        case SlotArrives(slot, entry) =>
          assert slot in a.slots ==> Clash(SlotArrives(slot, a.slots[slot]), e);
          n := AddSlotSettles(Replay(init).value, a, 0, n, slot, entry);
          a := a.(slots := a.slots[slot := entry]);
          RecordsSlot(before, init, slot, entry);
        case BatchArrives(q, p, id) =>
          assert (q, p) in a.ids ==> Clash(BatchArrives(q, p, a.ids[(q, p)]), e);
          n := AddBatchIdSettles(Replay(init).value, a, 0, n, q, p, id);
          a := a.(ids := a.ids[(q, p) := id]);
          RecordsId(before, init, q, p, id);
      }
    }
  }

  lemma {:induction false} RecordsSlot(a: Arrivals, es: seq<Event>, slot: nat, entry: SlotEntry)
    requires Records(a, es) && slot !in a.slots
    ensures Records(a.(slots := a.slots[slot := entry]), es + [SlotArrives(slot, entry)])
  {
  }

  lemma {:induction false} RecordsId(a: Arrivals, es: seq<Event>, q: Machine, p: nat, id: BatchId)
    requires Records(a, es) && (q, p) !in a.ids
    ensures Records(a.(ids := a.ids[(q, p) := id]), es + [BatchArrives(q, p, id)])
  {
  }

  lemma {:induction false} RecordsUnique(a1: Arrivals, a2: Arrivals, es1: seq<Event>, es2: seq<Event>)
    requires multiset(es1) == multiset(es2)
    requires Records(a1, es1) && Records(a2, es2)
    ensures a1 == a2
  {
    assert forall e :: e in es1 <==> e in multiset(es1);
    assert forall e :: e in es2 <==> e in multiset(es2);
    assert a1.slots == a2.slots;
    forall k | k in a1.ids ensures k in a2.ids && a1.ids[k] == a2.ids[k] {
      assert BatchArrives(k.0, k.1, a1.ids[(k.0, k.1)]) in es2;
    }
    forall k | k in a2.ids ensures k in a1.ids {
      assert BatchArrives(k.0, k.1, a2.ids[(k.0, k.1)]) in es1;
    }
    assert a1.ids == a2.ids;
  }

  /**
    Confluence: every interleaving of the same slots and batch ids pairs the same slots with the
    same batches, and pairs as many of them as the arrivals allow.
  */
  lemma {:induction false} LocalLogConfluent(es1: seq<Event>, es2: seq<Event>) returns (a: Arrivals, n: nat)
    requires ClashFree(es1) && ClashFree(es2) && multiset(es1) == multiset(es2)
    ensures Records(a, es1)
    ensures Replay(es1).Success? && Replay(es2).Success?
    ensures Replay(es1).value.ready == Replay(es2).value.ready
    ensures |Replay(es1).value.ready| == n && !Complete(a, n)
    ensures forall s :: 0 <= s < n ==> Complete(a, s) && Replay(es1).value.ready[s] == Paired(a, s)
  {
    var n1;
    a, n1 := ReplaySettles(es1);
    var a2, n2 := ReplaySettles(es2);
    RecordsUnique(a, a2, es1, es2);
    SettledUnique(Replay(es1).value, Replay(es2).value, a, 0, 0, n1, n2);
    n := n1;
    var r1, r2 := Replay(es1).value.ready, Replay(es2).value.ready;
    forall s | 0 <= s < n ensures Complete(a, s) && r1[s] == Paired(a, s) && r2[s] == Paired(a, s) {
      assert Complete(a, s);
      assert r1[s - 0] == Paired(a, s) && r2[s - 0] == Paired(a, s);
    }
  }

  /* ---------- The log as the log manager holds it ---------- */

  class LocalLog {
    var slots: AsyncLog<SlotEntry>
    var queues: map<Machine, AsyncLog<BatchId>>
    var ready: seq<Ready>

    ghost predicate Valid()
      reads this
    {
      && (forall q :: q in queues ==> (queues[q] as object) != slots)
      && (forall q1, q2 :: q1 in queues && q2 in queues && q1 != q2 ==> queues[q1] != queues[q2])
    }

    ghost function Repr(): set<object>
      reads this
    {
      {this, slots} + set q | q in queues :: queues[q]
    }

    ghost function View(): LocalState
      reads this, slots, set q | q in queues :: queues[q]
    {
      LocalState(slots.View(), map q | q in queues :: queues[q].View(), ready)
    }

    constructor ()
      ensures Valid() && View() == Empty && fresh(Repr())
    {
      slots := new AsyncLog<SlotEntry>();
      queues, ready := map[], [];
    }

    method AddSlot(slot: nat, queue: Machine, leader: Machine) returns (r: Result<()>)
      requires Valid()
      modifies Repr()
      ensures Valid() && fresh(Repr() - old(Repr()))
      ensures match SlotAdded(old(View()), slot, SlotEntry(queue, leader))
              case Success(l) => r == Success(()) && View() == l
              case Failure(e) => r == Failure(e) && View() == old(View())
    {
      r := slots.Insert(slot, SlotEntry(queue, leader));
      if r.Success? {
        assert View() == old(View()).(slots := slots.View());
        UpdateReadyBatches();
      }
    }

    /** The source's `operator[]` creates an empty queue on first use. */
    method EnsureQueue(queue: Machine)
      requires Valid()
      modifies this`queues
      ensures Valid() && queue in queues && slots == old(slots) && ready == old(ready)
      ensures fresh(Repr() - old(Repr()))
      ensures View() == old(View()).(queues := old(View()).queues[queue := Queue(old(View()), queue)])
    {
      if queue !in queues {
        var q := new AsyncLog<BatchId>();
        queues := queues[queue := q];
      }
    }

    method InsertId(queue: Machine, position: nat, id: BatchId) returns (r: Result<()>)
      requires Valid() && queue in queues
      modifies queues[queue]
      ensures match Inserted(old(View()).queues[queue], position, id)
              case Success(w) =>
                r == Success(()) && View() == old(View()).(queues := old(View()).queues[queue := w])
              case Failure(e) => r == Failure(e) && View() == old(View())
    {
      r := queues[queue].Insert(position, id);
    }

    method AddBatchId(queue: Machine, position: nat, id: BatchId) returns (r: Result<()>)
      requires Valid()
      modifies Repr()
      ensures Valid() && fresh(Repr() - old(Repr()))
      ensures match BatchIdAdded(old(View()), queue, position, id)
              case Success(l) => r == Success(()) && View() == l
              case Failure(e) => r == Failure(e)
    {
      ghost var before := View();
      EnsureQueue(queue);
      r := InsertId(queue, position, id);
      if r.Success? {
        ghost var w := Inserted(Queue(before, queue), position, id).value;
        assert View().queues == before.queues[queue := w];
        UpdateReadyBatches();
      }
    }

    method HasPair() returns (more: bool)
      requires Valid()
      ensures more == CanPair(View())
    {
      if slots.next !in slots.log {
        return false;
      }
      var entry := slots.log[slots.next];
      if entry.queue !in queues {
        return false;
      }
      return queues[entry.queue].next in queues[entry.queue].log;
    }

    method PairNext()
      requires Valid() && CanPair(View())
      modifies Repr()
      ensures Valid() && slots == old(slots) && queues == old(queues)
      ensures View() == Pair(old(View()))
    {
      var entry := slots.log[slots.next];
      var queue := queues[entry.queue];
      var slot := slots.Next();
      var id := queue.Next();
      ready := ready + [Ready(slot.value.0, id.value.1, entry.leader)];
    }

    method UpdateReadyBatches()
      requires Valid()
      modifies Repr()
      ensures Valid() && slots == old(slots) && queues == old(queues)
      ensures View() == UpdateReady(old(View()))
    {
      while true
        invariant Valid() && slots == old(slots) && queues == old(queues)
        invariant UpdateReady(View()) == UpdateReady(old(View()))
        decreases |slots.log|
      {
        var more := HasPair();
        if !more {
          break;
        }
        ghost var before := View();
        assert before.slots.log.Keys == Advance(before.slots).log.Keys + {before.slots.next};
        PairNext();
      }
    }

    method NextBatch() returns (r: Result<Ready>)
      requires Valid()
      modifies this`ready
      ensures Valid() && Repr() == old(Repr())
      ensures old(ready) == [] ==> r.Failure? && View() == old(View())
      ensures old(ready) != [] ==>
                && r == Success(old(ready)[0])
                && View() == old(View()).(ready := old(ready)[1..])
    {
      if ready == [] {
        return Failure("NextBatch() was called when there is no batch");
      }
      r := Success(ready[0]);
      ready := ready[1..];
    }
  }
}
