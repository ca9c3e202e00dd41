/**
  One machine's logs as a function of what the machine has received.

  `NodeOk` describes the state between handler calls; `NodeReceives` shows that a handler call on
  anything not received before throws nothing and leads to such a state again.
*/
module LogNodes {
  import opened Counting
  import opened Topology
  import opened Deployments
  import opened Fanout
  import opened LogManagers
  import L = LocalLogs
  import B = BatchLogs

  /** Everything a machine has received; `acked` says which regions acknowledged a batch. */
  datatype Seen = Seen(local: L.Arrivals, logs: map<nat, B.Arrivals>, acked: map<BatchId, set<nat>>)

  const Unseen := Seen(L.Arrivals(map[], map[]), map[], map[])

  function Ackers(acked: map<BatchId, set<nat>>, id: BatchId): set<nat> {
    if id in acked then acked[id] else {}
  }

  function SeenOf(logs: map<nat, B.Arrivals>, home: nat): B.Arrivals {
    if home in logs then logs[home] else B.Nothing
  }

  /** Only the home region itself waits for acknowledgements. */
  function FactorOf(d: Deployment, me: Machine, home: nat): nat
    requires Valid(d)
  {
    if home == me.region then d.factor - 1 else 0
  }

  /** Batch number `position` of a generator carries the counter `position + 1`. */
  ghost predicate IdsOk(a: L.Arrivals) {
    forall q, p :: (q, p) in a.ids ==> a.ids[(q, p)] == BatchId(p + 1, q)
  }

  ghost predicate EmittedMatches(a: B.Arrivals, emitted: seq<Batch>) {
    forall s :: 0 <= s < |emitted| ==>
      s in a.slots && a.slots[s] in a.data && emitted[s] == a.data[a.slots[s]]
  }

  ghost predicate LogMid(b: B.BatchState, a: B.Arrivals, factor: nat, emitted: seq<Batch>) {
    B.Settled(b, a, factor, |emitted|, b.slots.next) && EmittedMatches(a, emitted)
  }

  /** The first `n` local slots, and no others, have gone into the region's own log. */
  ghost predicate OwnSlots(own: B.Arrivals, a: L.Arrivals, n: nat) {
    && (forall s :: s in own.slots <==> 0 <= s < n)
    && (forall s :: 0 <= s < n ==> L.Complete(a, s) && own.slots[s] == L.Paired(a, s).id)
  }

  /** The local log, of which `popped` slots have been passed on to the region's own log. */
  ghost predicate LocalMid(local: L.LocalState, a: L.Arrivals, own: B.Arrivals, popped: nat) {
    IdsOk(a) && L.Settled(local, a, popped, local.slots.next) && OwnSlots(own, a, popped)
  }

  ghost predicate LogsMid(d: Deployment, me: Machine, logs: map<nat, B.BatchState>, emitted: map<nat, seq<Batch>>,
                          seen: map<nat, B.Arrivals>)
    requires Valid(d)
  {
    forall h: nat {:trigger LogMid(LogOf(logs, h), SeenOf(seen, h), FactorOf(d, me, h), EmittedOf(emitted, h))} ::
      LogMid(LogOf(logs, h), SeenOf(seen, h), FactorOf(d, me, h), EmittedOf(emitted, h))
  }

  /** Each acknowledgement that was counted came from a region of its own. */
  ghost predicate AcksMatch(own: B.Arrivals, acked: map<BatchId, set<nat>>) {
    forall id :: own.acks[id] == |Ackers(acked, id)|
  }

  /** In the middle of a handler call: `popped` local slots have been passed on so far. */
  ghost predicate NodeMid(d: Deployment, me: Machine, st: LogState, seen: Seen, popped: nat)
    requires Valid(d)
  {
    && LocalMid(st.local, seen.local, SeenOf(seen.logs, me.region), popped)
    && AcksMatch(SeenOf(seen.logs, me.region), seen.acked)
    && LogsMid(d, me, st.logs, st.emitted, seen.logs)
  }

  ghost predicate NodeOk(d: Deployment, me: Machine, st: LogState, seen: Seen)
    requires Valid(d)
  {
    && NodeMid(d, me, st, seen, st.local.slots.next)
    && forall h :: LogOf(st.logs, h).ready == []
  }

  lemma {:induction false} FreshOk(d: Deployment, me: Machine)
    requires Valid(d)
    ensures NodeOk(d, me, Fresh, Unseen)
  {
    forall h ensures LogMid(LogOf(Fresh.logs, h), SeenOf(Unseen.logs, h), FactorOf(d, me, h), EmittedOf(Fresh.emitted, h)) {
    }
  }

  /* ---------- Taking in the packet ---------- */

  /** The packet brings the machine something it has not received. */
  ghost predicate NewTo(d: Deployment, seen: Seen, p: Packet)
    requires Valid(d) && IsMachine(d, p.to)
  {
    match p.payload
    case Data(g, position, _) =>
      && Mine(d, p).Success? && Mine(d, p).value.id == BatchId(position + 1, g)
      && Mine(d, p).value.id !in SeenOf(seen.logs, g.region).data
      && (g.region == p.to.region ==> (g, position) !in seen.local.ids)
    case LocalOrder(slot, _, _) => slot !in seen.local.slots
    case RemoteOrder(home, slot, id, _) =>
      home != p.to.region && slot !in SeenOf(seen.logs, home).slots && id !in SeenOf(seen.logs, home).slotOf
    case Ack(_, id, region) =>
      region !in Ackers(seen.acked, id) && Ackers(seen.acked, id) + {region} <= Needed(d, p.to.region)
  }

  function Observe(d: Deployment, seen: Seen, p: Packet): Seen {
    var here := p.to.region;
    match p.payload
    case Data(g, position, _) =>
      if Mine(d, p).Failure? then seen
      else
        var mine := Mine(d, p).value;
        seen.(local := if g.region == here then seen.local.(ids := seen.local.ids[(g, position) := mine.id]) else seen.local,
              logs := seen.logs[g.region := B.WithBatch(SeenOf(seen.logs, g.region), mine)])
    case LocalOrder(slot, g, leader) =>
      seen.(local := seen.local.(slots := seen.local.slots[slot := L.SlotEntry(g, leader)]))
    case RemoteOrder(home, slot, id, _) =>
      seen.(logs := seen.logs[home := B.WithSlot(SeenOf(seen.logs, home), slot, id)])
    case Ack(_, id, region) =>
      seen.(logs := seen.logs[here := B.WithAck(SeenOf(seen.logs, here), id)],
            acked := seen.acked[id := Ackers(seen.acked, id) + {region}])
  }

  lemma {:induction false} LogsUpdated(d: Deployment, me: Machine, logs: map<nat, B.BatchState>,
                                       emitted: map<nat, seq<Batch>>, seen: map<nat, B.Arrivals>, h0: nat,
                                       b: B.BatchState, a: B.Arrivals)
    requires Valid(d) && LogsMid(d, me, logs, emitted, seen)
    requires LogMid(b, a, FactorOf(d, me, h0), EmittedOf(emitted, h0))
    ensures LogsMid(d, me, logs[h0 := b], emitted, seen[h0 := a])
  {
    var logs', seen' := logs[h0 := b], seen[h0 := a];
    forall h ensures LogMid(LogOf(logs', h), SeenOf(seen', h), FactorOf(d, me, h), EmittedOf(emitted, h)) {
      if h != h0 {
        assert LogOf(logs', h) == LogOf(logs, h) && SeenOf(seen', h) == SeenOf(seen, h);
        assert LogMid(LogOf(logs, h), SeenOf(seen, h), FactorOf(d, me, h), EmittedOf(emitted, h));
      }
    }
  }

  lemma {:induction false} OwnSlotsKept(own: B.Arrivals, own': B.Arrivals, a: L.Arrivals, a': L.Arrivals, n: nat)
    requires OwnSlots(own, a, n) && own'.slots == own.slots
    requires forall t :: t in a.slots ==> t in a'.slots && a'.slots[t] == a.slots[t]
    requires forall k :: k in a.ids ==> k in a'.ids && a'.ids[k] == a.ids[k]
    ensures OwnSlots(own', a', n)
  {
    forall s | 0 <= s < n ensures L.Complete(a', s) && own'.slots[s] == L.Paired(a', s).id {
      forall t | 0 <= t <= s ensures t in a.slots {
        assert L.Complete(a, t);
      }
      assert L.Complete(a, s);
      L.PairedKept(a, a', s);
    }
  }

  lemma {:induction false} LogMidBatch(b: B.BatchState, a: B.Arrivals, factor: nat, emitted: seq<Batch>, batch: Batch)
    requires LogMid(b, a, factor, emitted) && batch.id !in a.data
    ensures LogMid(B.BatchAdded(b, batch), B.WithBatch(a, batch), factor, emitted)
  {
    var n := B.BatchAddedSettles(b, a, factor, |emitted|, b.slots.next, batch);
  }

  lemma {:induction false} LogMidAck(b: B.BatchState, a: B.Arrivals, factor: nat, emitted: seq<Batch>, id: BatchId)
    requires LogMid(b, a, factor, emitted) && a.acks[id] < factor
    ensures LogMid(B.Acked(b, id), B.WithAck(a, id), factor, emitted)
  {
    assert B.Among(a.slotOf, b.slots.next, id) ==> B.Complete(a, factor, a.slotOf[id]);
    var n := B.AckedSettles(b, a, factor, |emitted|, b.slots.next, id);
  }

  lemma {:induction false} LogMidSlot(b: B.BatchState, a: B.Arrivals, factor: nat, emitted: seq<Batch>, slot: nat,
                                      id: BatchId)
    requires LogMid(b, a, factor, emitted) && slot !in a.slots && id !in a.slotOf
    ensures B.SlotAdded(b, slot, id, factor).Success?
    ensures LogMid(B.SlotAdded(b, slot, id, factor).value, B.WithSlot(a, slot, id), factor, emitted)
  {
    var n := B.SlotAddedSettles(b, a, factor, |emitted|, b.slots.next, slot, id);
  }

  lemma {:induction false} LogsGetBatch(d: Deployment, me: Machine, logs: map<nat, B.BatchState>,
                                        emitted: map<nat, seq<Batch>>, seen: map<nat, B.Arrivals>, h: nat,
                                        batch: Batch)
    requires Valid(d) && LogsMid(d, me, logs, emitted, seen) && batch.id !in SeenOf(seen, h).data
    ensures LogsMid(d, me, logs[h := B.BatchAdded(LogOf(logs, h), batch)], emitted,
                    seen[h := B.WithBatch(SeenOf(seen, h), batch)])
  {
    assert LogMid(LogOf(logs, h), SeenOf(seen, h), FactorOf(d, me, h), EmittedOf(emitted, h));
    LogMidBatch(LogOf(logs, h), SeenOf(seen, h), FactorOf(d, me, h), EmittedOf(emitted, h), batch);
    LogsUpdated(d, me, logs, emitted, seen, h, B.BatchAdded(LogOf(logs, h), batch), B.WithBatch(SeenOf(seen, h), batch));
  }

  lemma {:induction false} LogsGetSlot(d: Deployment, me: Machine, logs: map<nat, B.BatchState>,
                                       emitted: map<nat, seq<Batch>>, seen: map<nat, B.Arrivals>, h: nat, slot: nat,
                                       id: BatchId, factor: nat)
    requires Valid(d) && LogsMid(d, me, logs, emitted, seen) && factor == FactorOf(d, me, h)
    requires slot !in SeenOf(seen, h).slots && id !in SeenOf(seen, h).slotOf
    ensures B.SlotAdded(LogOf(logs, h), slot, id, factor).Success?
    ensures LogsMid(d, me, logs[h := B.SlotAdded(LogOf(logs, h), slot, id, factor).value], emitted,
                    seen[h := B.WithSlot(SeenOf(seen, h), slot, id)])
  {
    assert LogMid(LogOf(logs, h), SeenOf(seen, h), factor, EmittedOf(emitted, h));
    LogMidSlot(LogOf(logs, h), SeenOf(seen, h), factor, EmittedOf(emitted, h), slot, id);
    LogsUpdated(d, me, logs, emitted, seen, h, B.SlotAdded(LogOf(logs, h), slot, id, factor).value,
                B.WithSlot(SeenOf(seen, h), slot, id));
  }

  lemma {:induction false} LogsGetAck(d: Deployment, me: Machine, logs: map<nat, B.BatchState>,
                                      emitted: map<nat, seq<Batch>>, seen: map<nat, B.Arrivals>, id: BatchId)
    requires Valid(d) && LogsMid(d, me, logs, emitted, seen)
    requires SeenOf(seen, me.region).acks[id] < d.factor - 1
    ensures LogsMid(d, me, logs[me.region := B.Acked(LogOf(logs, me.region), id)], emitted,
                    seen[me.region := B.WithAck(SeenOf(seen, me.region), id)])
  {
    var h := me.region;
    assert LogMid(LogOf(logs, h), SeenOf(seen, h), FactorOf(d, me, h), EmittedOf(emitted, h));
    LogMidAck(LogOf(logs, h), SeenOf(seen, h), FactorOf(d, me, h), EmittedOf(emitted, h), id);
    LogsUpdated(d, me, logs, emitted, seen, h, B.Acked(LogOf(logs, h), id), B.WithAck(SeenOf(seen, h), id));
  }

  lemma {:induction false} LocalGetsSlot(local: L.LocalState, a: L.Arrivals, own: B.Arrivals, slot: nat,
                                         entry: L.SlotEntry)
    requires LocalMid(local, a, own, local.slots.next) && slot !in a.slots
    ensures L.SlotAdded(local, slot, entry).Success?
    ensures LocalMid(L.SlotAdded(local, slot, entry).value, a.(slots := a.slots[slot := entry]), own, local.slots.next)
  {
    var n' := L.AddSlotSettles(local, a, local.slots.next, local.slots.next, slot, entry);
    OwnSlotsKept(own, own, a, a.(slots := a.slots[slot := entry]), local.slots.next);
  }

  lemma {:induction false} LocalGetsId(local: L.LocalState, a: L.Arrivals, own: B.Arrivals, q: Machine, position: nat,
                                       own': B.Arrivals)
    requires LocalMid(local, a, own, local.slots.next) && (q, position) !in a.ids && own'.slots == own.slots
    ensures var id := BatchId(position + 1, q);
            && L.BatchIdAdded(local, q, position, id).Success?
            && LocalMid(L.BatchIdAdded(local, q, position, id).value, a.(ids := a.ids[(q, position) := id]),
                        own', local.slots.next)
  {
    var id := BatchId(position + 1, q);
    var n' := L.AddBatchIdSettles(local, a, local.slots.next, local.slots.next, q, position, id);
    OwnSlotsKept(own, own', a, a.(ids := a.ids[(q, position) := id]), local.slots.next);
  }

  lemma {:induction false} DataLocalOk(d: Deployment, st: LogState, seen: Seen, p: Packet)
    requires Valid(d) && IsMachine(d, p.to) && p.payload.Data? && NewTo(d, seen, p)
    requires LocalMid(st.local, seen.local, SeenOf(seen.logs, p.to.region), st.local.slots.next)
    ensures Absorb(d, st, p).Success?
    ensures LocalMid(Absorb(d, st, p).value.local, Observe(d, seen, p).local,
                     SeenOf(Observe(d, seen, p).logs, p.to.region), st.local.slots.next)
  {
    var here, g, seen' := p.to.region, p.payload.generator, Observe(d, seen, p);
    if g.region == here {
      LocalGetsId(st.local, seen.local, SeenOf(seen.logs, here), g, p.payload.position, SeenOf(seen'.logs, here));
    } else {
      assert SeenOf(seen'.logs, here) == SeenOf(seen.logs, here);
    }
  }

  lemma {:induction false} AbsorbDataOk(d: Deployment, st: LogState, seen: Seen, p: Packet)
    requires Valid(d) && IsMachine(d, p.to) && p.payload.Data?
    requires NodeMid(d, p.to, st, seen, st.local.slots.next) && NewTo(d, seen, p)
    ensures Absorb(d, st, p).Success?
    ensures NodeMid(d, p.to, Absorb(d, st, p).value, Observe(d, seen, p), st.local.slots.next)
  {
    DataLocalOk(d, st, seen, p);
    LogsGetBatch(d, p.to, st.logs, st.emitted, seen.logs, p.payload.generator.region, Mine(d, p).value);
  }

  lemma {:induction false} AbsorbLocalOk(d: Deployment, st: LogState, seen: Seen, p: Packet)
    requires Valid(d) && IsMachine(d, p.to) && p.payload.LocalOrder?
    requires NodeMid(d, p.to, st, seen, st.local.slots.next) && NewTo(d, seen, p)
    ensures Absorb(d, st, p).Success?
    ensures NodeMid(d, p.to, Absorb(d, st, p).value, Observe(d, seen, p), st.local.slots.next)
  {
    LocalGetsSlot(st.local, seen.local, SeenOf(seen.logs, p.to.region), p.payload.slot,
                  L.SlotEntry(p.payload.generator, p.payload.leader));
  }

  lemma {:induction false} AbsorbRemoteOk(d: Deployment, st: LogState, seen: Seen, p: Packet)
    requires Valid(d) && IsMachine(d, p.to) && p.payload.RemoteOrder?
    requires NodeMid(d, p.to, st, seen, st.local.slots.next) && NewTo(d, seen, p)
    ensures Absorb(d, st, p).Success?
    ensures NodeMid(d, p.to, Absorb(d, st, p).value, Observe(d, seen, p), st.local.slots.next)
  {
    LogsGetSlot(d, p.to, st.logs, st.emitted, seen.logs, p.payload.home, p.payload.slot, p.payload.id, 0);
    assert SeenOf(Observe(d, seen, p).logs, p.to.region) == SeenOf(seen.logs, p.to.region);
  }

  lemma {:induction false} AcksMatchAdded(own: B.Arrivals, acked: map<BatchId, set<nat>>, id: BatchId, region: nat)
    requires AcksMatch(own, acked) && region !in Ackers(acked, id)
    ensures AcksMatch(B.WithAck(own, id), acked[id := Ackers(acked, id) + {region}])
  {
    var acked' := acked[id := Ackers(acked, id) + {region}];
    forall i ensures B.WithAck(own, id).acks[i] == |Ackers(acked', i)| {
      assert own.acks[i] == |Ackers(acked, i)|;
    }
  }

  lemma {:induction false} AbsorbAckOk(d: Deployment, st: LogState, seen: Seen, p: Packet)
    requires Valid(d) && IsMachine(d, p.to) && p.payload.Ack?
    requires NodeMid(d, p.to, st, seen, st.local.slots.next) && NewTo(d, seen, p)
    ensures Absorb(d, st, p).Success?
    ensures NodeMid(d, p.to, Absorb(d, st, p).value, Observe(d, seen, p), st.local.slots.next)
  {
    var me, id := p.to, p.payload.id;
    var own := SeenOf(seen.logs, me.region);
    assert own.acks[id] < d.factor - 1 by {
      NeededBounded(d, me.region);
      SubsetSize(Ackers(seen.acked, id) + {p.payload.region}, Needed(d, me.region));
      assert own.acks[id] == |Ackers(seen.acked, id)|;
    }
    LogsGetAck(d, me, st.logs, st.emitted, seen.logs, id);
    AcksMatchAdded(own, seen.acked, id, p.payload.region);
    OwnSlotsKept(own, B.WithAck(own, id), seen.local, seen.local, st.local.slots.next);
  }

  lemma {:induction false} AbsorbOk(d: Deployment, st: LogState, seen: Seen, p: Packet)
    requires Valid(d) && IsMachine(d, p.to)
    requires NodeMid(d, p.to, st, seen, st.local.slots.next) && NewTo(d, seen, p)
    ensures Absorb(d, st, p).Success?
    ensures NodeMid(d, p.to, Absorb(d, st, p).value, Observe(d, seen, p), st.local.slots.next)
  {
    match p.payload
    case Data(_, _, _) => AbsorbDataOk(d, st, seen, p);
    case LocalOrder(_, _, _) => AbsorbLocalOk(d, st, seen, p);
    case RemoteOrder(_, _, _, _) => AbsorbRemoteOk(d, st, seen, p);
    case Ack(_, _, _) => AbsorbAckOk(d, st, seen, p);
  }

  /* ---------- Passing local slots on ---------- */

  function ObserveReady(seen: Seen, here: nat, ready: seq<L.Ready>): Seen
    decreases |ready|
  {
    if ready == [] then seen
    else
      var own := B.WithSlot(SeenOf(seen.logs, here), ready[0].slot, ready[0].id);
      ObserveReady(seen.(logs := seen.logs[here := own]), here, ready[1..])
  }

  /** What a machine sends for ready local slots: orders if it leads, otherwise nothing. */
  function Announcements(d: Deployment, me: Machine, ready: seq<L.Ready>): seq<Packet>
    requires Valid(d) && me.region < Regions(d)
    decreases |ready|
  {
    if ready == [] then [] else Announce(d, me, ready[0]) + Announcements(d, me, ready[1..])
  }

  /** `ready` are the slots from `n` on, as paired. */
  ghost predicate PairedFrom(a: L.Arrivals, ready: seq<L.Ready>, n: nat) {
    forall i :: 0 <= i < |ready| ==> L.Complete(a, n + i) && ready[i] == L.Paired(a, n + i)
  }

  /** Different slots stand for different batches. */
  lemma {:induction false} PairedDistinct(a: L.Arrivals, s: nat, t: nat)
    requires IdsOk(a) && L.Complete(a, s) && L.Complete(a, t) && s < t
    ensures L.Paired(a, s).id != L.Paired(a, t).id
  {
    var q, q' := a.slots[s].queue, a.slots[t].queue;
    assert L.Paired(a, s).id == BatchId(L.Rank(a.slots, s, q) + 1, q);
    assert L.Paired(a, t).id == BatchId(L.Rank(a.slots, t, q') + 1, q');
    if q == q' {
      L.RankStrict(a.slots, s, t);
    }
  }

  lemma {:induction false} LocalPops(local: L.LocalState, a: L.Arrivals, own: B.Arrivals, popped: nat)
    requires LocalMid(local, a, own, popped) && local.ready != [] && B.Mutual(own.slots, own.slotOf)
    ensures L.Complete(a, popped) && local.ready[0] == L.Paired(a, popped) && local.ready[0].slot == popped
    ensures popped !in own.slots && local.ready[0].id !in own.slotOf
    ensures LocalMid(local.(ready := local.ready[1..]), a, B.WithSlot(own, popped, local.ready[0].id), popped + 1)
  {
    L.PopSettles(local, a, popped, local.slots.next);
    assert L.Complete(a, popped);
    NewToOwn(own, a, popped);
    OwnSlotsNext(own, a, popped);
  }

  lemma {:induction false} NewToOwn(own: B.Arrivals, a: L.Arrivals, n: nat)
    requires OwnSlots(own, a, n) && IdsOk(a) && L.Complete(a, n) && B.Mutual(own.slots, own.slotOf)
    ensures n !in own.slots && L.Paired(a, n).id !in own.slotOf
  {
    var id := L.Paired(a, n).id;
    if id in own.slotOf {
      PairedDistinct(a, own.slotOf[id], n);
    }
  }

  lemma {:induction false} OwnSlotsNext(own: B.Arrivals, a: L.Arrivals, n: nat)
    requires OwnSlots(own, a, n) && L.Complete(a, n)
    ensures OwnSlots(B.WithSlot(own, n, L.Paired(a, n).id), a, n + 1)
  {
  }

  lemma {:induction false} LogMidMutual(b: B.BatchState, a: B.Arrivals, factor: nat, emitted: seq<Batch>)
    requires LogMid(b, a, factor, emitted)
    ensures B.Mutual(a.slots, a.slotOf)
  {
  }

  /** One round of the loop over ready local slots. */
  lemma {:induction false} PassOn(d: Deployment, me: Machine, st: LogState, seen: Seen, popped: nat, own: B.Arrivals,
                                  next: L.Ready)
    requires Valid(d) && NodeMid(d, me, st, seen, popped) && st.local.ready != []
    requires own == SeenOf(seen.logs, me.region) && next == st.local.ready[0]
    ensures next.slot == popped
    ensures B.SlotAdded(LogOf(st.logs, me.region), popped, next.id, d.factor - 1).Success?
    ensures LocalMid(st.local.(ready := st.local.ready[1..]), seen.local, B.WithSlot(own, popped, next.id), popped + 1)
    ensures LogsMid(d, me, st.logs[me.region := B.SlotAdded(LogOf(st.logs, me.region), popped, next.id, d.factor - 1).value],
                    st.emitted, seen.logs[me.region := B.WithSlot(own, popped, next.id)])
  {
    assert LogMid(LogOf(st.logs, me.region), own, FactorOf(d, me, me.region), EmittedOf(st.emitted, me.region));
    LogMidMutual(LogOf(st.logs, me.region), own, FactorOf(d, me, me.region), EmittedOf(st.emitted, me.region));
    LocalPops(st.local, seen.local, own, popped);
    LogsGetSlot(d, me, st.logs, st.emitted, seen.logs, me.region, popped, next.id, d.factor - 1);
  }

  lemma {:induction false} AdvanceLocalRound(d: Deployment, me: Machine, st: LogState, b: B.BatchState)
    requires Valid(d) && me.region < Regions(d) && st.local.ready != []
    requires var next := st.local.ready[0];
             B.SlotAdded(LogOf(st.logs, me.region), next.slot, next.id, d.factor - 1) == Success(b)
    ensures AdvanceLocal(d, me, st) ==
            SendingFirst(Announce(d, me, st.local.ready[0]), AdvanceLocal(d, me, PassedOn(st, me.region, b)))
  {
  }

  lemma {:induction false} AdvanceLocalOk(d: Deployment, me: Machine, st: LogState, seen: Seen, popped: nat)
    requires Valid(d) && me.region < Regions(d) && NodeMid(d, me, st, seen, popped)
    ensures AdvanceLocal(d, me, st).Success?
    ensures var o := AdvanceLocal(d, me, st).value;
            && o.state.local.slots.next == st.local.slots.next && o.state.emitted == st.emitted
            && NodeMid(d, me, o.state, ObserveReady(seen, me.region, st.local.ready), st.local.slots.next)
    decreases |st.local.ready|
  {
    var own := SeenOf(seen.logs, me.region);
    if st.local.ready == [] {
      assert popped == st.local.slots.next;
    } else {
      var next := st.local.ready[0];
      PassOn(d, me, st, seen, popped, own, next);
      var b := B.SlotAdded(LogOf(st.logs, me.region), popped, next.id, d.factor - 1).value;
      assert AcksMatch(B.WithSlot(own, popped, next.id), seen.acked);
      AdvanceLocalOk(d, me, PassedOn(st, me.region, b),
                     seen.(logs := seen.logs[me.region := B.WithSlot(own, popped, next.id)]), popped + 1);
      AdvanceLocalRound(d, me, st, b);
    }
  }

  lemma {:induction false} AdvanceLocalSends(d: Deployment, me: Machine, st: LogState)
    requires Valid(d) && me.region < Regions(d) && AdvanceLocal(d, me, st).Success?
    ensures AdvanceLocal(d, me, st).value.sends == Announcements(d, me, st.local.ready)
    decreases |st.local.ready|
  {
    if st.local.ready != [] {
      var next := st.local.ready[0];
      var b := B.SlotAdded(LogOf(st.logs, me.region), next.slot, next.id, d.factor - 1).value;
      AdvanceLocalRound(d, me, st, b);
      AdvanceLocalSends(d, me, PassedOn(st, me.region, b));
    }
  }

  /** Passing local slots on adds slots to the own log and changes nothing else that was received. */
  lemma {:induction false} ObserveReadyFrame(seen: Seen, here: nat, ready: seq<L.Ready>)
    ensures var seen' := ObserveReady(seen, here, ready);
            && seen'.local == seen.local && seen'.acked == seen.acked
            && (forall h :: h != here ==> SeenOf(seen'.logs, h) == SeenOf(seen.logs, h))
            && SeenOf(seen'.logs, here).data == SeenOf(seen.logs, here).data
            && SeenOf(seen'.logs, here).acks == SeenOf(seen.logs, here).acks
    decreases |ready|
  {
    if ready != [] {
      var own := B.WithSlot(SeenOf(seen.logs, here), ready[0].slot, ready[0].id);
      ObserveReadyFrame(seen.(logs := seen.logs[here := own]), here, ready[1..]);
    }
  }

  /* ---------- Handing batches out ---------- */

  lemma {:induction false} LogMidPop(b: B.BatchState, a: B.Arrivals, factor: nat, emitted: seq<Batch>)
    requires LogMid(b, a, factor, emitted) && b.ready != []
    ensures b.ready[0].id in b.batches
    ensures LogMid(B.Popped(b), a, factor, emitted + [b.batches[b.ready[0].id]])
  {
    B.SettledReadyHasData(b, a, factor, |emitted|, b.slots.next);
    B.PopSettles(b, a, factor, |emitted|, b.slots.next);
  }

  lemma {:induction false} AppendThenRest(emitted: seq<Batch>, next: Batch, rest: seq<Batch>)
    ensures emitted + [next] + rest == emitted + ([next] + rest)
  {
  }

  lemma {:induction false} DrainedOk(b: B.BatchState, a: B.Arrivals, factor: nat, emitted: seq<Batch>)
    requires LogMid(b, a, factor, emitted)
    ensures Drained(b).0.ready == []
    ensures LogMid(Drained(b).0, a, factor, emitted + Drained(b).1)
    decreases |b.ready|
  {
    if b.ready == [] {
      assert emitted + [] == emitted;
    } else {
      LogMidPop(b, a, factor, emitted);
      var next := b.batches[b.ready[0].id];
      DrainedOk(B.Popped(b), a, factor, emitted + [next]);
      AppendThenRest(emitted, next, Drained(B.Popped(b)).1);
    }
  }

  lemma {:induction false} AdvanceAllOk(d: Deployment, me: Machine, st: LogState, seen: map<nat, B.Arrivals>)
    requires Valid(d) && LogsMid(d, me, st.logs, st.emitted, seen)
    ensures LogsMid(d, me, AdvanceAll(st).logs, AdvanceAll(st).emitted, seen)
    ensures forall h :: LogOf(AdvanceAll(st).logs, h).ready == []
    ensures forall h :: EmittedOf(st.emitted, h) <= EmittedOf(AdvanceAll(st).emitted, h)
  {
    var st' := AdvanceAll(st);
    forall h
      ensures LogMid(LogOf(st'.logs, h), SeenOf(seen, h), FactorOf(d, me, h), EmittedOf(st'.emitted, h))
      ensures LogOf(st'.logs, h).ready == []
      ensures EmittedOf(st.emitted, h) <= EmittedOf(st'.emitted, h)
    {
      var b, emitted := LogOf(st.logs, h), EmittedOf(st.emitted, h);
      assert LogMid(b, SeenOf(seen, h), FactorOf(d, me, h), emitted);
      DrainedOk(b, SeenOf(seen, h), FactorOf(d, me, h), emitted);
      assert LogOf(st'.logs, h) == Drained(b).0;
      assert EmittedOf(st'.emitted, h) == emitted + Drained(b).1;
    }
  }

  /* ---------- One handler call ---------- */

  /** What the machine has received after a handler call; passing slots on counts as receiving them. */
  function SeenAfter(d: Deployment, st: LogState, seen: Seen, p: Packet): Seen {
    match Absorb(d, st, p)
    case Failure(_) => seen
    case Success(st1) => ObserveReady(Observe(d, seen, p), p.to.region, st1.local.ready)
  }

  lemma {:induction false} ReadyIsPaired(local: L.LocalState, a: L.Arrivals, own: B.Arrivals, n: nat)
    requires LocalMid(local, a, own, n)
    ensures PairedFrom(a, local.ready, n) && local.slots.next == n + |local.ready|
    ensures forall s :: 0 <= s < local.slots.next ==> L.Complete(a, s)
  {
    forall i | 0 <= i < |local.ready| ensures L.Complete(a, n + i) && local.ready[i] == L.Paired(a, n + i) {
      assert local.ready[(n + i) - n] == L.Paired(a, n + i);
    }
  }

  /** The part of a handler call that follows the taking in of the packet. */
  lemma {:induction false} NodeAdvances(d: Deployment, me: Machine, st: LogState, seen: Seen, n: nat)
    requires Valid(d) && me.region < Regions(d) && NodeMid(d, me, st, seen, n)
    ensures AdvanceLocal(d, me, st).Success?
    ensures AdvanceLocal(d, me, st).value.sends == Announcements(d, me, st.local.ready)
    ensures var o, seen' := AdvanceLocal(d, me, st).value, ObserveReady(seen, me.region, st.local.ready);
            && o.state.local.slots.next == st.local.slots.next
            && (forall h :: EmittedOf(st.emitted, h) <= EmittedOf(AdvanceAll(o.state).emitted, h))
            && NodeOk(d, me, AdvanceAll(o.state), seen')
  {
    AdvanceLocalOk(d, me, st, seen, n);
    AdvanceLocalSends(d, me, st);
    AdvanceAllOk(d, me, AdvanceLocal(d, me, st).value.state, ObserveReady(seen, me.region, st.local.ready).logs);
  }

  lemma {:induction false} AbsorbKeepsEmitted(d: Deployment, st: LogState, p: Packet)
    requires Absorb(d, st, p).Success?
    ensures Absorb(d, st, p).value.emitted == st.emitted
  {
  }

  /**
    A handler call on something new throws nothing, keeps the node's state the function of what
    it has received, only adds to what was emitted, and sends the forwarded packets, a reply, and
    the orders of the newly paired slots.
  */
  lemma {:induction false} NodeReceives(d: Deployment, st: LogState, seen: Seen, p: Packet) returns (news: seq<L.Ready>)
    requires Valid(d) && IsMachine(d, p.to) && NodeOk(d, p.to, st, seen) && NewTo(d, seen, p)
    ensures Receive(d, st, p).Success?
    ensures var o, seen' := Receive(d, st, p).value, SeenAfter(d, st, seen, p);
            && o.sends == Forwards(d, p) + Reply(p) + Announcements(d, p.to, news)
            && o.state.local.slots.next == st.local.slots.next + |news|
            && PairedFrom(seen'.local, news, st.local.slots.next)
            && (forall h :: EmittedOf(st.emitted, h) <= EmittedOf(o.state.emitted, h))
            && NodeOk(d, p.to, o.state, seen')
  {
    var me, n := p.to, st.local.slots.next;
    AbsorbOk(d, st, seen, p);
    AbsorbKeepsEmitted(d, st, p);
    var st1, seen1 := Absorb(d, st, p).value, Observe(d, seen, p);
    news := st1.local.ready;
    ReadyIsPaired(st1.local, seen1.local, SeenOf(seen1.logs, me.region), n);
    NodeAdvances(d, me, st1, seen1, n);
    ObserveReadyFrame(seen1, me.region, st1.local.ready);
  }
}
