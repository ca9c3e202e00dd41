/**
  When is the output of a batch log independent of the order of arrival?

  Slots, data and acknowledgements may interleave freely as long as no batch at the head of the
  log can be acknowledged more often than its slot asked for.  With one acknowledgement too many
  the output depends on the interleaving, and the log may stop for ever.
*/
module BatchLogConfluence {
  import opened Topology
  import opened BatchLogs

  datatype Event =
    | SlotArrives(slot: nat, id: BatchId)
    | DataArrives(batch: Batch)
    | AckArrives(id: BatchId)

  function Apply(b: BatchState, factor: nat, e: Event): Result<BatchState> {
    match e
    case SlotArrives(slot, id) => SlotAdded(b, slot, id, factor)
    case DataArrives(batch) => Success(BatchAdded(b, batch))
    case AckArrives(id) => Success(Acked(b, id))
  }

  function Replay(factor: nat, es: seq<Event>): Result<BatchState> {
    if es == [] then Success(Empty)
    else match Replay(factor, es[..|es| - 1])
      case Success(b) => Apply(b, factor, es[|es| - 1])
      case Failure(e) => Failure(e)
  }

  function Collect(es: seq<Event>): Arrivals {
    if es == [] then Nothing
    else
      With(Collect(es[..|es| - 1]), es[|es| - 1])
  }

  predicate Clash(e1: Event, e2: Event) {
    match (e1, e2)
    case (SlotArrives(s1, id1), SlotArrives(s2, id2)) => s1 == s2 || id1 == id2
    case (DataArrives(b1), DataArrives(b2)) => b1.id == b2.id
    case _ => false
  }

  /** Each slot and each batch's data comes once, and no batch stands in two slots. */
  ghost predicate ClashFree(es: seq<Event>) {
    && (forall e :: e in es && !e.AckArrives? ==> multiset(es)[e] == 1)
    && (forall e1, e2 :: e1 in es && e2 in es && e1 != e2 ==> !Clash(e1, e2))
  }

  ghost predicate Records(a: Arrivals, es: seq<Event>) {
    && Mutual(a.slots, a.slotOf)
    && (forall s, id :: SlotArrives(s, id) in es <==> s in a.slots && a.slots[s] == id)
    && (forall x :: DataArrives(x) in es <==> x.id in a.data && a.data[x.id] == x)
    && (forall id :: id in a.data ==> a.data[id].id == id)
    && (forall id :: a.acks[id] == multiset(es)[AckArrives(id)])
  }

  lemma {:induction false} ClashFreeInit(es: seq<Event>)
    requires ClashFree(es) && es != []
    ensures ClashFree(es[..|es| - 1])
    ensures !es[|es| - 1].AckArrives? ==> es[|es| - 1] !in es[..|es| - 1]
  {
    var init, e := es[..|es| - 1], es[|es| - 1];
    assert es == init + [e];
    assert multiset(es) == multiset(init) + multiset{e};
    forall d | d in init && !d.AckArrives? ensures multiset(init)[d] == 1 {
      assert d in es && multiset(es)[d] == 1;
    }
    if !e.AckArrives? {
      assert multiset(es)[e] == 1;
    }
  }

  /** `e` brings something that `a` does not hold yet. */
  predicate New(a: Arrivals, e: Event) {
    match e
    case SlotArrives(slot, id) => slot !in a.slots && id !in a.slotOf
    case DataArrives(batch) => batch.id !in a.data
    case AckArrives(_) => true
  }

  function With(a: Arrivals, e: Event): Arrivals {
    match e
    case SlotArrives(slot, id) => WithSlot(a, slot, id)
    case DataArrives(batch) => WithBatch(a, batch)
    case AckArrives(id) => WithAck(a, id)
  }

  lemma {:induction false} LastIsNew(a: Arrivals, es: seq<Event>)
    requires es != [] && ClashFree(es) && Records(a, es[..|es| - 1])
    ensures New(a, es[|es| - 1])
  {
    var init, e := es[..|es| - 1], es[|es| - 1];
    ClashFreeInit(es);
    assert forall d :: d in init ==> d in es;
    match e {
      case SlotArrives(slot, id) =>
        assert slot in a.slots ==> Clash(SlotArrives(slot, a.slots[slot]), e);
        assert id in a.slotOf ==> Clash(SlotArrives(a.slotOf[id], id), e);
      case DataArrives(batch) =>
        assert batch.id in a.data ==> Clash(DataArrives(a.data[batch.id]), e);
      case AckArrives(id) =>
    }
  }

  lemma {:induction false} RecordsExtends(a: Arrivals, init: seq<Event>, e: Event)
    requires Records(a, init) && New(a, e)
    ensures Records(With(a, e), init + [e])
  {
    var es := init + [e];
    assert multiset(es) == multiset(init) + multiset{e};
    assert forall d :: d in es <==> d in init || d == e;
    if e.SlotArrives? {
      MutualWithSlot(a.slots, a.slotOf, e.slot, e.id);
    }
  }

  lemma {:induction false} CollectRecords(es: seq<Event>)
    requires ClashFree(es)
    ensures Records(Collect(es), es)
  {
    if es != [] {
      var init, e := es[..|es| - 1], es[|es| - 1];
      assert es == init + [e];
      ClashFreeInit(es);
      CollectRecords(init);
      LastIsNew(Collect(init), es);
      RecordsExtends(Collect(init), init, e);
    }
  }

  lemma {:induction false} RecordsUnique(a1: Arrivals, a2: Arrivals, es1: seq<Event>, es2: seq<Event>)
    requires multiset(es1) == multiset(es2)
    requires Records(a1, es1) && Records(a2, es2)
    ensures a1 == a2
  {
    assert forall e :: e in es1 <==> e in multiset(es1);
    assert forall e :: e in es2 <==> e in multiset(es2);
    forall s | s in a1.slots ensures s in a2.slots && a2.slots[s] == a1.slots[s] {
      assert SlotArrives(s, a1.slots[s]) in es2;
    }
    forall s | s in a2.slots ensures s in a1.slots {
      assert SlotArrives(s, a2.slots[s]) in es1;
    }
    assert a1.slots == a2.slots;
    assert a1.slotOf == a2.slotOf;
    forall id | id in a1.data ensures id in a2.data && a2.data[id] == a1.data[id] {
      assert DataArrives(a1.data[id]) in es2;
    }
    forall id | id in a2.data ensures id in a1.data {
      assert DataArrives(a2.data[id]) in es1;
    }
    assert a1.data == a2.data;
    assert a1.acks == a2.acks;
  }

  /** Batch `id` and every batch before it have already been released. */
  ghost predicate Out(a: Arrivals, factor: nat, id: BatchId) {
    id in a.slotOf && forall t :: 0 <= t <= a.slotOf[id] ==> Complete(a, factor, t)
  }

  /** No acknowledgement comes for a batch that has been released. */
  ghost predicate Gentle(factor: nat, es: seq<Event>) {
    forall k :: 0 <= k < |es| && es[k].AckArrives? ==> !Out(Collect(es[..k]), factor, es[k].id)
  }

  lemma {:induction false} ReplaySettles(factor: nat, es: seq<Event>) returns (n: nat)
    requires ClashFree(es) && Gentle(factor, es)
    ensures Replay(factor, es).Success?
    ensures Settled(Replay(factor, es).value, Collect(es), factor, 0, n)
  {
    if es == [] {
      n := 0;
    } else {
      var init, e := es[..|es| - 1], es[|es| - 1];
      ClashFreeInit(es);
      GentleInit(factor, es);
      n := ReplaySettles(factor, init);
      CollectRecords(init);
      LastIsNew(Collect(init), es);
      if e.AckArrives? {
        assert !Out(Collect(es[..|es| - 1]), factor, es[|es| - 1].id);
      }
      n := ApplySettles(factor, Replay(factor, init).value, Collect(init), e, n);
    }
  }

  lemma {:induction false} GentleInit(factor: nat, es: seq<Event>)
    requires Gentle(factor, es) && es != []
    ensures Gentle(factor, es[..|es| - 1])
  {
    var init := es[..|es| - 1];
    forall k | 0 <= k < |init| && init[k].AckArrives? ensures !Out(Collect(init[..k]), factor, init[k].id) {
      assert init[..k] == es[..k];
    }
  }

  lemma {:induction false} ApplySettles(factor: nat, b: BatchState, a: Arrivals, e: Event, n: nat) returns (n': nat)
    requires Settled(b, a, factor, 0, n) && New(a, e)
    requires e.AckArrives? ==> !Out(a, factor, e.id)
    ensures Apply(b, factor, e).Success?
    ensures Settled(Apply(b, factor, e).value, With(a, e), factor, 0, n')
  {
    match e {
      case SlotArrives(slot, id) =>
        n' := SlotAddedSettles(b, a, factor, 0, n, slot, id);
      case DataArrives(batch) =>
        n' := BatchAddedSettles(b, a, factor, 0, n, batch);
      case AckArrives(id) =>
        assert Among(a.slotOf, n, id) ==> Out(a, factor, id);
        n' := AckedSettles(b, a, factor, 0, n, id);
    }
  }

  /* ---------- The exact condition ---------- */

  /** The first batch that is not exactly settled is present and acknowledged too often. */
  ghost predicate Overacked(a: Arrivals, factor: nat) {
    exists n :: OverackedAt(a, factor, n)
  }

  ghost predicate OverackedAt(a: Arrivals, factor: nat, n: nat) {
    && (forall s :: 0 <= s < n ==> Complete(a, factor, s))
    && n in a.slots && a.slots[n] in a.data && a.acks[a.slots[n]] > factor
  }

  /** `a` holds a part of what `b` holds. */
  ghost predicate Part(a: Arrivals, b: Arrivals) {
    && (forall s :: s in a.slots ==> s in b.slots && b.slots[s] == a.slots[s])
    && (forall id :: id in a.data ==> id in b.data)
    && (forall id :: a.acks[id] <= b.acks[id])
  }

  lemma {:induction false} OutThenOveracked(a: Arrivals, b: Arrivals, factor: nat, id: BatchId)
    requires Mutual(a.slots, a.slotOf) && Part(a, b)
    requires Out(a, factor, id) && b.acks[id] > factor
    ensures Overacked(b, factor)
  {
    var n := 0;
    assert Complete(a, factor, 0);
    while b.acks[a.slots[n]] <= factor
      invariant n <= a.slotOf[id]
      invariant n in a.slots && Complete(a, factor, n)
      invariant forall s :: 0 <= s < n ==> Complete(b, factor, s)
      decreases a.slotOf[id] - n
    {
      assert Complete(a, factor, n + 1);
      n := n + 1;
    }
    assert OverackedAt(b, factor, n);
  }

  lemma {:induction false} PrefixIsPart(es: seq<Event>, k: nat)
    requires ClashFree(es) && k <= |es|
    ensures ClashFree(es[..k])
    ensures Mutual(Collect(es[..k]).slots, Collect(es[..k]).slotOf)
    ensures Part(Collect(es[..k]), Collect(es))
    decreases |es| - k
  {
    if k == |es| {
      assert es[..k] == es;
      CollectRecords(es);
    } else {
      PrefixIsPart(es, k + 1);
      var next := es[..k + 1];
      assert next[..|next| - 1] == es[..k];
      ClashFreeInit(next);
      CollectRecords(es[..k]);
      LastIsNew(Collect(es[..k]), next);
      PartOfMore(Collect(es[..k]), es[k], Collect(es));
    }
  }

  lemma {:induction false} PartOfMore(a: Arrivals, e: Event, b: Arrivals)
    requires New(a, e) && Part(With(a, e), b)
    ensures Part(a, b)
  {
    forall s | s in a.slots ensures s in b.slots && b.slots[s] == a.slots[s] {
      assert s in With(a, e).slots;
    }
    forall id | id in a.data ensures id in b.data {
      assert id in With(a, e).data;
    }
    forall id ensures a.acks[id] <= b.acks[id] {
      assert a.acks[id] <= With(a, e).acks[id];
    }
  }

  lemma {:induction false} NotOverackedIsGentle(factor: nat, es: seq<Event>)
    requires ClashFree(es) && !Overacked(Collect(es), factor)
    ensures Gentle(factor, es)
  {
    forall k | 0 <= k < |es| && es[k].AckArrives? ensures !Out(Collect(es[..k]), factor, es[k].id) {
      AckFindsRoom(factor, es, k);
    }
  }

  /** One more acknowledgement of `id` than `a` has. */
  lemma {:induction false} OneAckMore(es: seq<Event>, k: nat)
    requires ClashFree(es) && k < |es| && es[k].AckArrives?
    ensures Collect(es[..k]).acks[es[k].id] < Collect(es).acks[es[k].id]
  {
    PrefixIsPart(es, k + 1);
    assert es[..k + 1][..k] == es[..k];
    assert Collect(es[..k + 1]).acks[es[k].id] == Collect(es[..k]).acks[es[k].id] + 1;
  }

  /** No batch that is out already is acknowledged once more. */
  lemma {:induction false} AckFindsRoom(factor: nat, es: seq<Event>, k: nat)
    requires ClashFree(es) && !Overacked(Collect(es), factor) && k < |es| && es[k].AckArrives?
    ensures !Out(Collect(es[..k]), factor, es[k].id)
  {
    var a, id := Collect(es[..k]), es[k].id;
    PrefixIsPart(es, k);
    OneAckMore(es, k);
    if Out(a, factor, id) {
      assert Complete(a, factor, a.slotOf[id]);
      OutThenOveracked(a, Collect(es), factor, id);
    }
  }

  lemma {:induction false} ClashFreePermutes(es1: seq<Event>, es2: seq<Event>)
    requires ClashFree(es1) && multiset(es1) == multiset(es2)
    ensures ClashFree(es2)
  {
    assert forall e :: e in es1 <==> e in multiset(es1);
    assert forall e :: e in es2 <==> e in multiset(es2);
  }

  ghost predicate SameOutput(factor: nat, es1: seq<Event>, es2: seq<Event>) {
    && Replay(factor, es1).Success? && Replay(factor, es2).Success?
    && Replay(factor, es1).value.ready == Replay(factor, es2).value.ready
  }

  /** Every reordering of the events gives the same output. */
  ghost predicate Confluent(factor: nat, es: seq<Event>) {
    forall es' :: multiset(es') == multiset(es) ==> SameOutput(factor, es, es')
  }

  /** The output is the longest complete prefix. */
  lemma {:induction false} NotOverackedOutput(factor: nat, es: seq<Event>) returns (n: nat)
    requires ClashFree(es) && !Overacked(Collect(es), factor)
    ensures Replay(factor, es).Success?
    ensures Settled(Replay(factor, es).value, Collect(es), factor, 0, n)
  {
    NotOverackedIsGentle(factor, es);
    n := ReplaySettles(factor, es);
  }

  lemma {:induction false} NotOverackedConfluent(factor: nat, es: seq<Event>)
    requires ClashFree(es) && !Overacked(Collect(es), factor)
    ensures Confluent(factor, es)
  {
    var n := NotOverackedOutput(factor, es);
    forall es' | multiset(es') == multiset(es) ensures SameOutput(factor, es, es') {
      ClashFreePermutes(es, es');
      SameCollected(es, es');
      var n' := NotOverackedOutput(factor, es');
      SameReady(Replay(factor, es).value, Replay(factor, es').value, Collect(es), factor, n, n');
    }
  }

  lemma {:induction false} SameCollected(es: seq<Event>, es': seq<Event>)
    requires ClashFree(es) && ClashFree(es') && multiset(es) == multiset(es')
    ensures Collect(es) == Collect(es')
  {
    CollectRecords(es);
    CollectRecords(es');
    RecordsUnique(Collect(es), Collect(es'), es, es');
  }

  lemma {:induction false} SameReady(b: BatchState, b': BatchState, a: Arrivals, factor: nat, n: nat, n': nat)
    requires Settled(b, a, factor, 0, n) && Settled(b', a, factor, 0, n')
    ensures b.ready == b'.ready
  {
    SettledUnique(b, b', a, factor, 0, 0, n, n');
    assert forall i :: 0 <= i < |b.ready| ==> b.ready[i] == b'.ready[i];
  }

  /* ---------- An acknowledgement too many ---------- */

  function Filter(es: seq<Event>, keep: Event -> bool): seq<Event> {
    if es == [] then []
    else Filter(es[..|es| - 1], keep) + if keep(es[|es| - 1]) then [es[|es| - 1]] else []
  }

  lemma {:induction false} FilterCount(es: seq<Event>, keep: Event -> bool, e: Event)
    ensures multiset(Filter(es, keep))[e] == if keep(e) then multiset(es)[e] else 0
    ensures e in Filter(es, keep) ==> keep(e)
  {
    if es != [] {
      FilterCount(es[..|es| - 1], keep, e);
      assert es == es[..|es| - 1] + [es[|es| - 1]];
    }
  }

  function Repeat(e: Event, n: nat): (r: seq<Event>)
    ensures multiset(r)[e] == n && forall d :: d in r ==> d == e
  {
    if n == 0 then [] else Repeat(e, n - 1) + [e]
  }

  lemma {:induction false} SeqOf(m: multiset<Event>) returns (es: seq<Event>)
    ensures multiset(es) == m
    decreases |m|
  {
    if m == multiset{} {
      es := [];
    } else {
      var e :| e in m;
      es := SeqOf(m - multiset{e});
      es := es + [e];
    }
  }

  lemma {:induction false} ReadyGrows(b: BatchState)
    ensures |UpdateReady(b).ready| >= |b.ready|
    decreases |b.slots.log|
  {
    if CanRelease(b) {
      assert b.slots.log.Keys == (b.slots.log - {b.slots.next}).Keys + {b.slots.next};
      ReadyGrows(Release(b));
    }
  }

  /** Acknowledgements never take back what has been released. */
  lemma {:induction false} AcksGrow(factor: nat, es: seq<Event>, acks: seq<Event>)
    requires Replay(factor, es).Success?
    requires forall e :: e in acks ==> e.AckArrives?
    ensures Replay(factor, es + acks).Success?
    ensures |Replay(factor, es + acks).value.ready| >= |Replay(factor, es).value.ready|
  {
    if acks == [] {
      assert es + acks == es;
    } else {
      var init, e := acks[..|acks| - 1], acks[|acks| - 1];
      AcksGrow(factor, es, init);
      assert e in acks && es + acks == (es + init) + [e];
      OneAckGrows(factor, es + init, e);
    }
  }

  lemma {:induction false} OneAckGrows(factor: nat, es: seq<Event>, e: Event)
    requires Replay(factor, es).Success? && e.AckArrives?
    ensures Replay(factor, es + [e]).Success?
    ensures |Replay(factor, es + [e]).value.ready| >= |Replay(factor, es).value.ready|
  {
    var all, b := es + [e], Replay(factor, es).value;
    assert all[..|all| - 1] == es && all[|all| - 1] == e;
    ReadyGrows(b.(replication := b.replication[e.id := Debt(b, e.id) - 1]));
  }

  lemma {:induction false} FewAcksIsGentle(factor: nat, es: seq<Event>)
    requires ClashFree(es)
    requires forall id :: multiset(es)[AckArrives(id)] <= factor
    ensures Gentle(factor, es)
  {
    CollectRecords(es);
    forall k | 0 <= k < |es| && es[k].AckArrives? ensures !Out(Collect(es[..k]), factor, es[k].id) {
      var a := Collect(es[..k]);
      PrefixIsPart(es, k);
      OneAckMore(es, k);
      assert multiset(es)[AckArrives(es[k].id)] <= factor;
      assert Out(a, factor, es[k].id) ==> Complete(a, factor, a.slotOf[es[k].id]);
    }
  }

  /** With all acknowledgements first, the over-acknowledged batch is never released. */
  lemma {:induction false} AcksFirst(factor: nat, es: seq<Event>, n: nat) returns (es1: seq<Event>)
    requires ClashFree(es) && OverackedAt(Collect(es), factor, n)
    ensures multiset(es1) == multiset(es)
    ensures Replay(factor, es1).Success? && |Replay(factor, es1).value.ready| <= n
  {
    var isAck := (e: Event) => e.AckArrives?;
    var notAck := (e: Event) => !e.AckArrives?;
    var acks, rest := Filter(es, isAck), Filter(es, notAck);
    es1 := acks + rest;
    forall e ensures multiset(es1)[e] == multiset(es)[e] {
      FilterCount(es, isAck, e);
      FilterCount(es, notAck, e);
    }
    assert multiset(es1) == multiset(es);
    ClashFreePermutes(es, es1);
    forall e ensures (e in acks ==> e.AckArrives?) && (e in rest ==> !e.AckArrives?) {
      FilterCount(es, isAck, e);
      FilterCount(es, notAck, e);
    }
    AcksThenRestIsGentle(factor, acks, rest);
    var m := ReplaySettles(factor, es1);
    SameCollected(es, es1);
    assert m > n ==> Complete(Collect(es1), factor, n);
  }

  lemma {:induction false} AcksThenRestIsGentle(factor: nat, acks: seq<Event>, rest: seq<Event>)
    requires ClashFree(acks + rest)
    requires forall e :: (e in acks ==> e.AckArrives?) && (e in rest ==> !e.AckArrives?)
    ensures Gentle(factor, acks + rest)
  {
    var es := acks + rest;
    forall k | |acks| <= k < |es| ensures !es[k].AckArrives? {
      assert es[k] in rest;
    }
    forall k | 0 <= k < |es| && es[k].AckArrives? ensures !Out(Collect(es[..k]), factor, es[k].id) {
      assert es[..k] == acks[..k];
      forall e | e in es[..k] ensures e.AckArrives? {
        assert e in acks;
      }
      OnlyAcksNoSlots(es[..k]);
    }
  }

  lemma {:induction false} OnlyAcksNoSlots(es: seq<Event>)
    requires forall e :: e in es ==> e.AckArrives?
    ensures Collect(es).slotOf == map[]
  {
    if es != [] {
      OnlyAcksNoSlots(es[..|es| - 1]);
      assert es[|es| - 1] in es;
    }
  }

  /** Everything but the surplus acknowledgements, with those of the over-acknowledged batch last. */
  function Core(factor: nat, es: seq<Event>, n: nat): seq<Event>
    requires n in Collect(es).slots
  {
    Filter(es, Needed(Collect(es), n)) + Repeat(AckArrives(Collect(es).slots[n]), factor)
  }

  function Needed(a: Arrivals, n: nat): Event -> bool {
    (e: Event) => !e.AckArrives? || Among(a.slotOf, n, e.id)
  }

  lemma {:induction false} CoreCount(factor: nat, es: seq<Event>, n: nat, e: Event)
    requires Records(Collect(es), es) && OverackedAt(Collect(es), factor, n)
    ensures multiset(Core(factor, es, n))[e] <= multiset(es)[e]
    ensures !e.AckArrives? ==> multiset(Core(factor, es, n))[e] == multiset(es)[e]
    ensures e.AckArrives? ==> multiset(Core(factor, es, n))[e] <= factor
    ensures e.AckArrives? && Among(Collect(es).slotOf, n + 1, e.id) ==> multiset(Core(factor, es, n))[e] == factor
  {
    var a := Collect(es);
    var kept, last := Filter(es, Needed(a, n)), AckArrives(a.slots[n]);
    FilterCount(es, Needed(a, n), e);
    assert multiset(Core(factor, es, n))[e] == multiset(kept)[e] + multiset(Repeat(last, factor))[e];
    assert e != last ==> e !in Repeat(last, factor);
    if e.AckArrives? && Among(a.slotOf, n, e.id) {
      assert Complete(a, factor, a.slotOf[e.id]);
    }
  }

  lemma {:induction false} CoreClashFree(factor: nat, es: seq<Event>, n: nat)
    requires ClashFree(es) && Records(Collect(es), es) && OverackedAt(Collect(es), factor, n)
    ensures ClashFree(Core(factor, es, n))
    ensures forall e: Event :: e in Core(factor, es, n) ==> e in es
    ensures forall e: Event :: !e.AckArrives? && e in es ==> e in Core(factor, es, n)
  {
    var core := Core(factor, es, n);
    forall e: Event
      ensures multiset(core)[e] <= multiset(es)[e]
      ensures !e.AckArrives? ==> multiset(core)[e] == multiset(es)[e]
    {
      CoreCount(factor, es, n, e);
    }
    assert forall e: Event :: (e in core <==> multiset(core)[e] > 0) && (e in es <==> multiset(es)[e] > 0);
  }

  lemma {:induction false} CoreGentle(factor: nat, es: seq<Event>, n: nat)
    requires ClashFree(es) && Records(Collect(es), es) && OverackedAt(Collect(es), factor, n)
    ensures Gentle(factor, Core(factor, es, n))
  {
    CoreClashFree(factor, es, n);
    forall id ensures multiset(Core(factor, es, n))[AckArrives(id)] <= factor {
      CoreCount(factor, es, n, AckArrives(id));
    }
    FewAcksIsGentle(factor, Core(factor, es, n));
  }

  lemma {:induction false} CompleteIn(c: Arrivals, core: seq<Event>, factor: nat, s: nat, batch: Batch)
    requires Records(c, core)
    requires SlotArrives(s, batch.id) in core && DataArrives(batch) in core
    requires multiset(core)[AckArrives(batch.id)] == factor
    ensures Complete(c, factor, s)
  {
  }

  /** The core holds slot `s`, its data and just enough acknowledgements. */
  lemma {:induction false} CoreHolds(factor: nat, es: seq<Event>, n: nat, s: nat) returns (batch: Batch)
    requires Records(Collect(es), es) && OverackedAt(Collect(es), factor, n) && s <= n
    ensures SlotArrives(s, batch.id) in Core(factor, es, n) && DataArrives(batch) in Core(factor, es, n)
    ensures multiset(Core(factor, es, n))[AckArrives(batch.id)] == factor
  {
    var a := Collect(es);
    assert s < n ==> Complete(a, factor, s);
    batch := a.data[a.slots[s]];
    CoreKeeps(factor, es, n, SlotArrives(s, batch.id));
    CoreKeeps(factor, es, n, DataArrives(batch));
    CoreCount(factor, es, n, AckArrives(batch.id));
  }

  lemma {:induction false} CoreKeeps(factor: nat, es: seq<Event>, n: nat, e: Event)
    requires n in Collect(es).slots && e in es && !e.AckArrives?
    ensures e in Core(factor, es, n)
  {
    var a := Collect(es);
    FilterCount(es, Needed(a, n), e);
    assert multiset(Filter(es, Needed(a, n)))[e] == multiset(es)[e] > 0;
    assert e in Filter(es, Needed(a, n));
  }

  lemma {:induction false} CoreComplete(factor: nat, es: seq<Event>, n: nat, s: nat)
    requires ClashFree(es) && Records(Collect(es), es) && OverackedAt(Collect(es), factor, n) && s <= n
    ensures Complete(Collect(Core(factor, es, n)), factor, s)
  {
    var batch := CoreHolds(factor, es, n, s);
    CoreClashFree(factor, es, n);
    var core := Core(factor, es, n);
    CollectRecords(core);
    CompleteIn(Collect(core), core, factor, s, batch);
  }

  lemma {:induction false} CoreReleases(factor: nat, es: seq<Event>, n: nat)
    requires ClashFree(es) && Records(Collect(es), es) && OverackedAt(Collect(es), factor, n)
    ensures Replay(factor, Core(factor, es, n)).Success?
    ensures |Replay(factor, Core(factor, es, n)).value.ready| > n
  {
    CoreClashFree(factor, es, n);
    CoreGentle(factor, es, n);
    var m := ReplaySettles(factor, Core(factor, es, n));
    if m <= n {
      CoreComplete(factor, es, n, m);
    }
  }

  lemma {:induction false} CoreRest(factor: nat, es: seq<Event>, n: nat) returns (rest: seq<Event>)
    requires Records(Collect(es), es) && OverackedAt(Collect(es), factor, n)
    ensures multiset(Core(factor, es, n) + rest) == multiset(es)
    ensures forall e: Event :: e in rest ==> e.AckArrives?
  {
    var core := Core(factor, es, n);
    forall e: Event
      ensures multiset(core)[e] <= multiset(es)[e]
      ensures !e.AckArrives? ==> multiset(core)[e] == multiset(es)[e]
    {
      CoreCount(factor, es, n, e);
    }
    rest := RestOf(core, es);
  }

  /** What `es` has beyond `core`, if that is acknowledgements only. */
  lemma {:induction false} RestOf(core: seq<Event>, es: seq<Event>) returns (rest: seq<Event>)
    requires forall e: Event :: multiset(core)[e] <= multiset(es)[e]
    requires forall e: Event :: !e.AckArrives? ==> multiset(core)[e] == multiset(es)[e]
    ensures multiset(core + rest) == multiset(es)
    ensures forall e: Event :: e in rest ==> e.AckArrives?
  {
    rest := SeqOf(multiset(es) - multiset(core));
    assert multiset(core + rest) == multiset(core) + multiset(rest);
    forall e: Event | e in rest ensures e.AckArrives? {
      assert multiset(rest)[e] > 0;
    }
  }

  /** With exactly enough acknowledgements first, it is released. */
  lemma {:induction false} JustEnoughAcks(factor: nat, es: seq<Event>, n: nat) returns (es2: seq<Event>)
    requires ClashFree(es) && OverackedAt(Collect(es), factor, n)
    ensures multiset(es2) == multiset(es)
    ensures Replay(factor, es2).Success? && |Replay(factor, es2).value.ready| > n
  {
    CollectRecords(es);
    CoreReleases(factor, es, n);
    var rest := CoreRest(factor, es, n);
    es2 := Core(factor, es, n) + rest;
    AcksGrow(factor, Core(factor, es, n), rest);
  }

  /** The order of arrival does not matter exactly when the head batch is not over-acknowledged. */
  lemma {:induction false} ConfluentIff(factor: nat, es: seq<Event>)
    requires ClashFree(es)
    ensures Confluent(factor, es) <==> !Overacked(Collect(es), factor)
  {
    if Overacked(Collect(es), factor) {
      var n :| OverackedAt(Collect(es), factor, n);
      var es1 := AcksFirst(factor, es, n);
      var es2 := JustEnoughAcks(factor, es, n);
      assert !SameOutput(factor, es, es1) || !SameOutput(factor, es, es2);
    } else {
      NotOverackedConfluent(factor, es);
    }
  }
}
