/** What one handler call does to the conservation law: see `TokensReceive`. */
module Receptions {
  import opened Topology
  import opened Deployments
  import opened Fanout
  import opened LogManagers
  import opened LogNodes
  import opened RegionOrders
  import opened Exchange
  import L = LocalLogs
  import B = BatchLogs

  /* ---------- What the machine has afterwards ---------- */

  lemma {:induction false} SeenOfUpdated(logs: map<nat, B.Arrivals>, h0: nat, a: B.Arrivals, h: nat)
    ensures SeenOf(logs[h0 := a], h) == if h == h0 then a else SeenOf(logs, h)
  {
  }

  /** The payload is one that the receiver can take: its own share, orders of others, its own acks. */
  ghost predicate Fits(d: Deployment, p: Packet) {
    match p.payload
    case Data(g, position, _) => Mine(d, p).Success? && Mine(d, p).value.id == BatchId(position + 1, g)
    case LocalOrder(_, _, _) => true
    case RemoteOrder(h, _, _, _) => h != p.to.region
    case Ack(h, _, _) => h == p.to.region
  }

  lemma {:induction false} HasObservedData(d: Deployment, seen: Seen, p: Packet, item: Item)
    requires Fits(d, p) && p.payload.Data?
    ensures Has(Observe(d, seen, p), p.to, item) <==> Has(seen, p.to, item) || item == ItemOf(p)
  {
    var h0 := p.payload.generator.region;
    var a := B.WithBatch(SeenOf(seen.logs, h0), Mine(d, p).value);
    match item
    case DataItem(g, _) => SeenOfUpdated(seen.logs, h0, a, g.region);
    case RemoteItem(h, _) => SeenOfUpdated(seen.logs, h0, a, h);
    case _ =>
  }

  lemma {:induction false} HasObservedRemote(d: Deployment, seen: Seen, p: Packet, item: Item)
    requires Fits(d, p) && p.payload.RemoteOrder?
    ensures Has(Observe(d, seen, p), p.to, item) <==> Has(seen, p.to, item) || item == ItemOf(p)
  {
    var h0 := p.payload.home;
    var a := B.WithSlot(SeenOf(seen.logs, h0), p.payload.slot, p.payload.id);
    match item
    case DataItem(g, _) => SeenOfUpdated(seen.logs, h0, a, g.region);
    case RemoteItem(h, _) => SeenOfUpdated(seen.logs, h0, a, h);
    case _ =>
  }

  lemma {:induction false} HasObserved(d: Deployment, seen: Seen, p: Packet, item: Item)
    requires Fits(d, p)
    ensures Has(Observe(d, seen, p), p.to, item) <==> Has(seen, p.to, item) || item == ItemOf(p)
  {
    match p.payload
    case Data(_, _, _) => HasObservedData(d, seen, p, item);
    case RemoteOrder(_, _, _, _) => HasObservedRemote(d, seen, p, item);
    case _ =>
  }

  lemma {:induction false} HasAfter(d: Deployment, st: LogState, seen: Seen, p: Packet, item: Item)
    requires Fits(d, p) && Absorb(d, st, p).Success?
    ensures Has(SeenAfter(d, st, seen, p), p.to, item) <==> Has(seen, p.to, item) || item == ItemOf(p)
  {
    HasObserved(d, seen, p, item);
    ObserveReadyFrame(Observe(d, seen, p), p.to.region, Absorb(d, st, p).value.local.ready);
  }

  lemma {:induction false} PacketFits(d: Deployment, w: World, p: Packet)
    requires Valid(d) && Shaped(d, w) && PacketOk(d, w, p) && MadeOk(d, w.made)
    ensures Fits(d, p) && WellSized(d, p)
  {
  }

  /** Remote logs learn of a batch's slot only from the packet itself. */
  lemma {:induction false} SlotOfAfter(d: Deployment, st: LogState, seen: Seen, p: Packet, h: nat, id: BatchId)
    requires Absorb(d, st, p).Success? && h != p.to.region
    ensures id in SeenOf(SeenAfter(d, st, seen, p).logs, h).slotOf <==>
            || id in SeenOf(seen.logs, h).slotOf
            || (p.payload.RemoteOrder? && p.payload.home == h && p.payload.id == id)
  {
    ObserveReadyFrame(Observe(d, seen, p), p.to.region, Absorb(d, st, p).value.local.ready);
  }

  /* ---------- What it receives is new to it ---------- */

  /** The slot maps of a machine's logs have inverses. */
  ghost predicate Inverted(s: Seen) {
    forall h :: B.Mutual(SeenOf(s.logs, h).slots, SeenOf(s.logs, h).slotOf)
  }

  lemma {:induction false} NodeInverted(d: Deployment, m: Machine, st: LogState, s: Seen)
    requires Valid(d) && NodeOk(d, m, st, s)
    ensures Inverted(s)
  {
    forall h ensures B.Mutual(SeenOf(s.logs, h).slots, SeenOf(s.logs, h).slotOf) {
      assert LogMid(LogOf(st.logs, h), SeenOf(s.logs, h), FactorOf(d, m, h), EmittedOf(st.emitted, h));
      LogMidMutual(LogOf(st.logs, h), SeenOf(s.logs, h), FactorOf(d, m, h), EmittedOf(st.emitted, h));
    }
  }

  lemma {:induction false} RemoteIdNew(ords: seq<seq<Machine>>, m: Machine, s: Seen, h: nat, slot: nat)
    requires RemoteOk(ords, m, s.logs) && h != m.region && h < |ords| && slot < |ords[h]|
    requires B.Mutual(SeenOf(s.logs, h).slots, SeenOf(s.logs, h).slotOf)
    requires slot !in SeenOf(s.logs, h).slots
    ensures Common(ords[h], slot) !in SeenOf(s.logs, h).slotOf
  {
    var id := Common(ords[h], slot);
    if id in SeenOf(s.logs, h).slotOf {
      CommonDistinct(ords[h], SeenOf(s.logs, h).slotOf[id], slot);
    }
  }

  lemma {:induction false} IsNew(d: Deployment, w: World, s: Seen, p: Packet)
    requires Valid(d) && Shaped(d, w) && PacketOk(d, w, p) && MadeOk(d, w.made)
    requires SeenOk(d, w, p.to, s) && Inverted(s) && !Has(s, p.to, ItemOf(p))
    ensures NewTo(d, s, p)
  {
    match p.payload
    case Data(_, _, _) => PacketFits(d, w, p);
    case RemoteOrder(h, slot, _, _) => RemoteIdNew(w.ords, p.to, s, h, slot);
    case _ =>
  }

  /* ---------- It still knows only what is the case ---------- */

  lemma {:induction false} DataAdded(d: Deployment, made: map<Machine, seq<seq<Batch>>>, m: Machine,
                                     logs: map<nat, B.Arrivals>, h0: nat, a: B.Arrivals)
    requires DataOk(d, made, m, logs)
    requires forall id :: id in a.data ==> id.machine.region == h0 && ShareOk(d, made, m, a.data[id], id)
    ensures DataOk(d, made, m, logs[h0 := a])
  {
    var logs' := logs[h0 := a];
    forall h: nat, id | id in SeenOf(logs', h).data
      ensures id.machine.region == h && ShareOk(d, made, m, SeenOf(logs', h).data[id], id)
    {
      SeenOfUpdated(logs, h0, a, h);
    }
  }

  lemma {:induction false} RemoteAdded(ords: seq<seq<Machine>>, m: Machine, logs: map<nat, B.Arrivals>, h0: nat,
                                       a: B.Arrivals)
    requires RemoteOk(ords, m, logs) && (h0 != m.region ==> RemoteLogOk(ords, h0, a))
    ensures RemoteOk(ords, m, logs[h0 := a])
  {
    var logs' := logs[h0 := a];
    forall h: nat | h != m.region ensures RemoteLogOk(ords, h, SeenOf(logs', h)) {
      SeenOfUpdated(logs, h0, a, h);
    }
  }

  lemma {:induction false} ObservedDataOk(d: Deployment, w: World, s: Seen, p: Packet)
    requires Valid(d) && Shaped(d, w) && PacketOk(d, w, p) && MadeOk(d, w.made) && SeenOk(d, w, p.to, s)
    requires p.payload.Data?
    ensures SeenOk(d, w, p.to, Observe(d, s, p))
  {
    PacketFits(d, w, p);
    var m, g, mine := p.to, p.payload.generator, Mine(d, p).value;
    var own := SeenOf(s.logs, g.region);
    var a := B.WithBatch(own, mine);
    assert ShareOk(d, w.made, m, mine, mine.id);
    forall id | id in a.data ensures id.machine.region == g.region && ShareOk(d, w.made, m, a.data[id], id) {
      assert id != mine.id ==> id in own.data;
    }
    DataAdded(d, w.made, m, s.logs, g.region, a);
    assert g.region != m.region ==> RemoteLogOk(w.ords, g.region, own);
    RemoteAdded(w.ords, m, s.logs, g.region, a);
    SeenOfUpdated(s.logs, g.region, a, m.region);
  }

  lemma {:induction false} ObservedRemoteOk(d: Deployment, w: World, s: Seen, p: Packet)
    requires Valid(d) && Shaped(d, w) && PacketOk(d, w, p) && SeenOk(d, w, p.to, s)
    requires p.payload.RemoteOrder?
    ensures SeenOk(d, w, p.to, Observe(d, s, p))
  {
    var m, h := p.to, p.payload.home;
    var own := SeenOf(s.logs, h);
    var a := B.WithSlot(own, p.payload.slot, p.payload.id);
    DataAdded(d, w.made, m, s.logs, h, a);
    assert RemoteLogOk(w.ords, h, own);
    RemoteAdded(w.ords, m, s.logs, h, a);
    SeenOfUpdated(s.logs, h, a, m.region);
  }

  lemma {:induction false} ObservedAckOk(d: Deployment, w: World, s: Seen, p: Packet)
    requires Valid(d) && Shaped(d, w) && PacketOk(d, w, p) && SeenOk(d, w, p.to, s)
    requires p.payload.Ack?
    ensures SeenOk(d, w, p.to, Observe(d, s, p))
  {
    var m := p.to;
    var own := SeenOf(s.logs, m.region);
    var a := B.WithAck(own, p.payload.id);
    DataAdded(d, w.made, m, s.logs, m.region, a);
    RemoteAdded(w.ords, m, s.logs, m.region, a);
    SeenOfUpdated(s.logs, m.region, a, m.region);
    var acked' := Observe(d, s, p).acked;
    forall id ensures Ackers(acked', id) <= Needed(d, m.region) {
      assert Ackers(s.acked, id) <= Needed(d, m.region);
    }
  }

  lemma {:induction false} ObservedOk(d: Deployment, w: World, s: Seen, p: Packet)
    requires Valid(d) && Shaped(d, w) && PacketOk(d, w, p) && MadeOk(d, w.made) && SeenOk(d, w, p.to, s)
    ensures SeenOk(d, w, p.to, Observe(d, s, p))
  {
    match p.payload
    case Data(_, _, _) => ObservedDataOk(d, w, s, p);
    case LocalOrder(_, _, _) =>
    case RemoteOrder(_, _, _, _) => ObservedRemoteOk(d, w, s, p);
    case Ack(_, _, _) => ObservedAckOk(d, w, s, p);
  }

  lemma {:induction false} ReadyKeepsOk(d: Deployment, w: World, m: Machine, s: Seen, ready: seq<L.Ready>)
    requires Valid(d) && Shaped(d, w) && IsMachine(d, m) && SeenOk(d, w, m, s)
    ensures SeenOk(d, w, m, ObserveReady(s, m.region, ready))
  {
    ObserveReadyFrame(s, m.region, ready);
    var s' := ObserveReady(s, m.region, ready);
    forall h: nat, id | id in SeenOf(s'.logs, h).data
      ensures id.machine.region == h && ShareOk(d, w.made, m, SeenOf(s'.logs, h).data[id], id)
    {
      assert id in SeenOf(s.logs, h).data && SeenOf(s'.logs, h).data[id] == SeenOf(s.logs, h).data[id];
    }
    forall h: nat | h != m.region ensures RemoteLogOk(w.ords, h, SeenOf(s'.logs, h)) {
      assert RemoteLogOk(w.ords, h, SeenOf(s.logs, h));
    }
  }

  /* ---------- What becomes due ---------- */

  /** Machine `m` has received more; if it leads its region, it has now sent `sent` slots. */
  function After(w: World, m: Machine, s: Seen, sent: nat): World
    requires m.region < |w.sent|
  {
    w.(seen := w.seen[m := s], sent := if m == LeaderAt(m.region) then w.sent[m.region := sent] else w.sent)
  }

  lemma {:induction false} AnsweredAfter(d: Deployment, w: World, st: LogState, p: Packet, sent: nat, h: nat,
                                         id: BatchId, g: nat)
    requires Valid(d) && Shaped(d, w) && PacketOk(d, w, p) && h < Regions(d) && Absorb(d, st, p).Success?
    ensures var w' := After(w, p.to, SeenAfter(d, st, w.seen[p.to], p), sent);
            Shaped(d, w') &&
            (Answered(d, w', h, id, g) <==>
               || Answered(d, w, h, id, g)
               || (p.payload.RemoteOrder? && FirstInRegion(p) && p.payload.needAck
                   && AckItem(h, id, g) == AckItem(p.payload.home, p.payload.id, p.to.region)))
  {
    NeededBounded(d, h);
    if g in Needed(d, h) && p.to == Entry(d, h, g) {
      SlotOfAfter(d, st, w.seen[p.to], p, h, id);
    }
  }

  lemma {:induction false} DueAfter(d: Deployment, w: World, st: LogState, p: Packet, n: nat, sent: nat, item: Item,
                                    x: Machine)
    requires Valid(d) && Shaped(d, w) && PacketOk(d, w, p) && IsMachine(d, x) && Absorb(d, st, p).Success?
    requires n <= sent && (p.to == LeaderAt(p.to.region) ==> w.sent[p.to.region] == n)
    ensures var w' := After(w, p.to, SeenAfter(d, st, w.seen[p.to], p), sent);
            Shaped(d, w') &&
            (Due(d, w', x, item) <==>
               Due(d, w, x, item) || Announced(d, p.to, n, sent, item, x) || Replied(d, p, item, x))
  {
    LearnerIsMachine(d, x);
    if item.AckItem? && item.home == x.region {
      AnsweredAfter(d, w, st, p, sent, item.home, item.id, item.region);
    }
  }

  /** What is announced or replied was not due before. */
  lemma {:induction false} NotYetDue(d: Deployment, w: World, p: Packet, n: nat, sent: nat, item: Item, x: Machine)
    requires Valid(d) && Shaped(d, w) && PacketOk(d, w, p) && IsMachine(d, x) && NewTo(d, w.seen[p.to], p)
    requires p.to == LeaderAt(p.to.region) ==> w.sent[p.to.region] == n
    requires Announced(d, p.to, n, sent, item, x) || Replied(d, p, item, x)
    ensures !Due(d, w, x, item)
  {
  }

  /** One handler call keeps the conservation law. */
  lemma {:induction false} TokensReceive(d: Deployment, w: World, w': World, st: LogState, s': Seen, p: Packet,
                                         n: nat, sent: nat, load: Load, load': Load)
    requires Valid(d) && Shaped(d, w) && PacketOk(d, w, p) && Tokens(d, w, load) && Fits(d, p)
    requires Absorb(d, st, p).Success? && NewTo(d, w.seen[p.to], p) && !Has(w.seen[p.to], p.to, ItemOf(p))
    requires n <= sent && (p.to == LeaderAt(p.to.region) ==> w.sent[p.to.region] == n)
    requires forall item, x ::
               load'(item, x) + Bit(item == ItemOf(p) && x == p.to) ==
               load(item, x) + Bit(Replied(d, p, item, x)) + Bit(Announced(d, p.to, n, sent, item, x))
    requires s' == SeenAfter(d, st, w.seen[p.to], p) && w' == After(w, p.to, s', sent)
    ensures Shaped(d, w') && Tokens(d, w', load')
  {
    forall item: Item, x: Machine | IsMachine(d, x)
      ensures load'(item, x) + Bit(Has(w'.seen[x], x, item)) == Bit(Due(d, w', x, item))
    {
      TokenReceive(d, w, st, p, n, sent, load(item, x), load'(item, x), item, x);
    }
  }

  lemma {:induction false} TokenReceive(d: Deployment, w: World, st: LogState, p: Packet, n: nat, sent: nat,
                                        load: nat, load': nat, item: Item, x: Machine)
    requires Valid(d) && Shaped(d, w) && PacketOk(d, w, p) && Fits(d, p) && IsMachine(d, x)
    requires Absorb(d, st, p).Success? && NewTo(d, w.seen[p.to], p) && !Has(w.seen[p.to], p.to, ItemOf(p))
    requires n <= sent && (p.to == LeaderAt(p.to.region) ==> w.sent[p.to.region] == n)
    requires load + Bit(Has(w.seen[x], x, item)) == Bit(Due(d, w, x, item))
    requires load' + Bit(item == ItemOf(p) && x == p.to) ==
             load + Bit(Replied(d, p, item, x)) + Bit(Announced(d, p.to, n, sent, item, x))
    ensures var w' := After(w, p.to, SeenAfter(d, st, w.seen[p.to], p), sent);
            Shaped(d, w') && load' + Bit(Has(w'.seen[x], x, item)) == Bit(Due(d, w', x, item))
  {
    DueAfter(d, w, st, p, n, sent, item, x);
    if x == p.to {
      HasAfter(d, st, w.seen[x], p, item);
    }
    if Announced(d, p.to, n, sent, item, x) || Replied(d, p, item, x) {
      NotYetDue(d, w, p, n, sent, item, x);
    }
  }
}
