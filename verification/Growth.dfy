/** What stays true when batches are generated and orders are decided. */
module Growth {
  import opened Topology
  import opened Deployments
  import opened Fanout
  import opened LogNodes
  import opened RegionOrders
  import opened Exchange
  import opened Sending
  import B = BatchLogs

  ghost predicate Extends(d: Deployment, w: World, w': World)
    requires Shaped(d, w) && Shaped(d, w')
  {
    && w'.seen == w.seen && w'.sent == w.sent
    && (forall h :: 0 <= h < |w.ords| ==> w.ords[h] <= w'.ords[h])
    && (forall g :: IsMachine(d, g) ==> w.made[g] <= w'.made[g])
  }

  lemma {:induction false} PacketKept(d: Deployment, w: World, w': World, p: Packet)
    requires Valid(d) && Shaped(d, w) && Shaped(d, w') && Extends(d, w, w') && PacketOk(d, w, p)
    ensures PacketOk(d, w', p)
  {
    if p.payload.RemoteOrder? {
      CommonPrefix(w.ords[p.payload.home], w'.ords[p.payload.home], p.payload.slot);
    }
  }

  lemma {:induction false} AllKept(d: Deployment, w: World, w': World, ps: seq<Packet>)
    requires Valid(d) && Shaped(d, w) && Shaped(d, w') && Extends(d, w, w') && AllOk(d, w, ps)
    ensures AllOk(d, w', ps)
  {
    forall q | q in ps ensures PacketOk(d, w', q) {
      PacketKept(d, w, w', q);
    }
  }

  lemma {:induction false} RemoteLogKept(ords: seq<seq<Machine>>, ords': seq<seq<Machine>>, h: nat, a: B.Arrivals)
    requires |ords| == |ords'| && (forall i :: 0 <= i < |ords| ==> ords[i] <= ords'[i]) && RemoteLogOk(ords, h, a)
    ensures RemoteLogOk(ords', h, a)
  {
    forall slot | slot in a.slots
      ensures h < |ords'| && slot < |ords'[h]| && a.slots[slot] == Common(ords'[h], slot)
    {
      CommonPrefix(ords[h], ords'[h], slot);
    }
  }

  lemma {:induction false} SharesKept(d: Deployment, w: World, w': World, m: Machine, logs: map<nat, B.Arrivals>)
    requires Shaped(d, w) && Shaped(d, w') && Extends(d, w, w') && DataOk(d, w.made, m, logs)
    ensures DataOk(d, w'.made, m, logs)
  {
    forall h: nat, id | id in SeenOf(logs, h).data
      ensures id.machine.region == h && ShareOk(d, w'.made, m, SeenOf(logs, h).data[id], id)
    {
      assert ShareOk(d, w.made, m, SeenOf(logs, h).data[id], id);
      assert w.made[id.machine] <= w'.made[id.machine];
      assert w'.made[id.machine][id.counter - 1] == w.made[id.machine][id.counter - 1];
    }
  }

  lemma {:induction false} SeenKept(d: Deployment, w: World, w': World, m: Machine, s: Seen)
    requires Valid(d) && Shaped(d, w) && Shaped(d, w') && Extends(d, w, w') && IsMachine(d, m) && SeenOk(d, w, m, s)
    ensures SeenOk(d, w', m, s)
  {
    SharesKept(d, w, w', m, s.logs);
    forall h: nat | h != m.region ensures RemoteLogOk(w'.ords, h, SeenOf(s.logs, h)) {
      RemoteLogKept(w.ords, w'.ords, h, SeenOf(s.logs, h));
    }
  }

  /** A new batch is due on every machine. */
  lemma {:induction false} TokensGenerate(d: Deployment, w: World, w': World, g: Machine, load: Load, load': Load)
    requires Valid(d) && Shaped(d, w) && Shaped(d, w') && IsMachine(d, g) && Tokens(d, w, load)
    requires w'.seen == w.seen && w'.sent == w.sent && w'.heard == w.heard
    requires forall x :: IsMachine(d, x) ==> |w'.made[x]| == |w.made[x]| + Bit(x == g)
    requires forall item, x ::
               load'(item, x) == load(item, x) + Bit(item == DataItem(g, |w.made[g]|) && IsMachine(d, x))
    ensures Tokens(d, w', load')
  {
    forall item: Item, x: Machine | IsMachine(d, x)
      ensures load'(item, x) + Bit(Has(w'.seen[x], x, item)) == Bit(Due(d, w', x, item))
    {
      assert load(item, x) + Bit(Has(w.seen[x], x, item)) == Bit(Due(d, w, x, item));
      assert Due(d, w', x, item) <==> Due(d, w, x, item) || item == DataItem(g, |w.made[g]|);
    }
  }

  /** A commit reported on a learner is due on the machines that get it from there. */
  lemma {:induction false} TokensTold(d: Deployment, w: World, w': World, l: Machine, slot: nat, load: Load,
                                      load': Load)
    requires Valid(d) && Shaped(d, w) && Shaped(d, w') && IsMachine(d, l) && Tokens(d, w, load)
    requires w'.seen == w.seen && w'.sent == w.sent && w'.made == w.made
    requires slot !in w.heard[l]
    requires forall x :: IsMachine(d, x) ==> w'.heard[x] == w.heard[x] + if x == l then {slot} else {}
    requires forall item, x ::
               load'(item, x) ==
               load(item, x) + Bit(item == LocalItem(l.region, slot) && IsMachine(d, x) && LearnerOf(x) == l)
    ensures Tokens(d, w', load')
  {
    forall item: Item, x: Machine | IsMachine(d, x)
      ensures load'(item, x) + Bit(Has(w'.seen[x], x, item)) == Bit(Due(d, w', x, item))
    {
      assert load(item, x) + Bit(Has(w.seen[x], x, item)) == Bit(Due(d, w, x, item));
      LearnerIsMachine(d, x);
      assert Due(d, w', x, item) <==>
             Due(d, w, x, item) || (item == LocalItem(l.region, slot) && LearnerOf(x) == l);
    }
  }

  lemma {:induction false} TokensSame(d: Deployment, w: World, w': World, load: Load)
    requires Valid(d) && Shaped(d, w) && Shaped(d, w') && Tokens(d, w, load)
    requires w'.seen == w.seen && w'.sent == w.sent && w'.made == w.made
    requires forall x :: IsMachine(d, x) ==> w'.heard[x] == w.heard[x]
    ensures Tokens(d, w', load)
  {
    forall item: Item, x: Machine | IsMachine(d, x)
      ensures load(item, x) + Bit(Has(w'.seen[x], x, item)) == Bit(Due(d, w', x, item))
    {
      LearnerIsMachine(d, x);
      assert load(item, x) + Bit(Has(w.seen[x], x, item)) == Bit(Due(d, w, x, item));
    }
  }
}
