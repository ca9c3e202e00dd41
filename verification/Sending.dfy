/** Whatever a machine sends says what is the case, and brings each item where it is due once. */
module Sending {
  import opened Topology
  import opened Deployments
  import opened Fanout
  import opened LogManagers
  import opened LogNodes
  import opened RegionOrders
  import opened Exchange
  import L = LocalLogs

  ghost predicate AllOk(d: Deployment, w: World, ps: seq<Packet>)
    requires Valid(d) && Shaped(d, w)
  {
    forall q :: q in ps ==> PacketOk(d, w, q)
  }

  lemma {:induction false} ReplicaPackets(m: Machine, payload: Payload, n: nat)
    ensures forall q :: q in ToReplicas(m, payload, n) ==>
              q == Packet(m, Machine(m.region, q.to.replica, m.partition), payload)
              && q.to.replica < n && q.to.replica != m.replica
  {
    if n > 0 {
      ReplicaPackets(m, payload, n - 1);
    }
  }

  lemma {:induction false} PartitionPackets(m: Machine, payload: Payload, n: nat)
    ensures forall q :: q in ToPartitions(m, payload, n) ==>
              q == Packet(m, Machine(m.region, m.replica, q.to.partition), payload)
              && q.to.partition < n && q.to.partition != m.partition
  {
    if n > 0 {
      PartitionPackets(m, payload, n - 1);
    }
  }

  lemma {:induction false} SharePackets(m: Machine, payload: Payload, n: nat)
    requires payload.Data? && n <= |payload.shares|
    ensures forall q :: q in SharesToPartitions(m, payload, n) ==>
              && q.to.partition < n && q.to.partition != m.partition
              && q == Packet(m, Machine(m.region, m.replica, q.to.partition),
                             payload.(shares := [payload.shares[q.to.partition]]))
  {
    if n > 0 {
      SharePackets(m, payload, n - 1);
    }
  }

  lemma {:induction false} ToReplicasOk(d: Deployment, w: World, p: Packet)
    requires Valid(d) && Shaped(d, w) && PacketOk(d, w, p) && FirstInRegion(p) && !p.payload.LocalOrder?
    ensures AllOk(d, w, ToReplicas(p.to, p.payload, d.replicas[p.to.region]))
  {
    ReplicaPackets(p.to, p.payload, d.replicas[p.to.region]);
  }

  lemma {:induction false} ToPartitionsOk(d: Deployment, w: World, p: Packet)
    requires Valid(d) && Shaped(d, w) && PacketOk(d, w, p) && !p.payload.Data?
    requires p.payload.LocalOrder? || FirstInReplica(p)
    ensures AllOk(d, w, ToPartitions(p.to, p.payload, d.partitions))
  {
    PartitionPackets(p.to, p.payload, d.partitions);
  }

  lemma {:induction false} SharesOk(d: Deployment, w: World, p: Packet)
    requires Valid(d) && Shaped(d, w) && PacketOk(d, w, p) && p.payload.Data? && FirstInReplica(p)
    ensures AllOk(d, w, SharesToPartitions(p.to, p.payload, |p.payload.shares|))
  {
    SharePackets(p.to, p.payload, |p.payload.shares|);
  }

  lemma {:induction false} ForwardsOk(d: Deployment, w: World, p: Packet)
    requires Valid(d) && Shaped(d, w) && PacketOk(d, w, p)
    ensures AllOk(d, w, Forwards(d, p))
  {
    if FirstInRegion(p) && !p.payload.LocalOrder? {
      ToReplicasOk(d, w, p);
    }
    if p.payload.Data? && FirstInReplica(p) {
      SharesOk(d, w, p);
    }
    if !p.payload.Data? && (p.payload.LocalOrder? || FirstInReplica(p)) {
      ToPartitionsOk(d, w, p);
    }
  }

  lemma {:induction false} ReplyOk(d: Deployment, w: World, p: Packet)
    requires Valid(d) && Shaped(d, w) && PacketOk(d, w, p)
    ensures AllOk(d, w, Reply(p))
  {
  }

  lemma {:induction false} OrdersToOk(d: Deployment, w: World, me: Machine, slot: nat, n: nat, needAck: bool)
    requires Valid(d) && Shaped(d, w) && IsMachine(d, me) && me == LeaderAt(me.region) && n <= Regions(d)
    requires slot < |w.ords[me.region]|
    ensures AllOk(d, w, OrdersTo(d, me, slot, Common(w.ords[me.region], slot), n, needAck))
  {
    if n > 0 {
      OrdersToOk(d, w, me, slot, n - 1, needAck);
      EntryIsMachine(d, me.region, n - 1);
    }
  }

  lemma {:induction false} AnnouncementsOk(d: Deployment, w: World, me: Machine, ready: seq<L.Ready>)
    requires Valid(d) && Shaped(d, w) && IsMachine(d, me)
    requires forall i :: 0 <= i < |ready| ==>
               && ready[i].leader == LeaderAt(me.region)
               && ready[i].slot < |w.ords[me.region]| && ready[i].id == Common(w.ords[me.region], ready[i].slot)
    ensures AllOk(d, w, Announcements(d, me, ready))
    decreases |ready|
  {
    if ready != [] {
      AnnouncementsOk(d, w, me, ready[1..]);
      if me == ready[0].leader {
        OrdersToOk(d, w, me, ready[0].slot, Regions(d), false);
        OrdersToOk(d, w, me, ready[0].slot, Regions(d), true);
      }
    }
  }

  /** The load after `p` was taken off and the handler's packets were sent. */
  lemma {:induction false} LoadAfter(f: Measure, d: Deployment, before: seq<Packet>, p: Packet, after: seq<Packet>,
                                     news: seq<L.Ready>, n: nat, item: Item, x: Machine)
    requires Counts(f, d, item, x) && Valid(d) && IsMachine(d, p.to) && WellSized(d, p)
    requires forall i :: 0 <= i < |news| ==> news[i].slot == n + i && news[i].leader == LeaderAt(p.to.region)
    ensures f(before + after + (Forwards(d, p) + Reply(p) + Announcements(d, p.to, news)))
            + Bit(item == ItemOf(p) && x == p.to) ==
            f(before + [p] + after) + Bit(Replied(d, p, item, x)) + Bit(Announced(d, p.to, n, n + |news|, item, x))
  {
    ForwardsCount(f, d, p, item, x);
    CountReply(f, d, p, item, x);
    CountAnnouncements(f, d, p.to, news, n, item, x);
  }
}
