/** By which machines batches and acknowledgements enter a region or a replica. */
module ClusterRoutes {
  import opened Topology
  import opened Counting
  import opened Deployments
  import opened Fanout
  import opened LogManagers
  import opened Exchange
  import opened Generation
  import opened RegionOrders
  import opened Clusters
  import opened ClusterInvariant
  import B = BatchLogs
  import P = PaxosSystem
  import PaxosRoles

  /** How far `to` comes after `from` among `n` that are arranged in a circle. */
  function After(from: nat, to: nat, n: nat): nat
    requires from < n && to < n
  {
    if from <= to then to - from else to + n - from
  }

  lemma {:induction false} AfterIs(from: nat, to: nat, n: nat)
    requires from < n && to < n
    ensures (to + n - from) % n == After(from, to, n)
  {
    DivUnique(to + n - from, n, if from <= to then 1 else 0, After(from, to, n));
  }

  /** The partition at which a batch of `g` is to enter the region or the replica of `to`. */
  function GateTo(d: Deployment, g: Machine, position: nat, to: Machine): nat
    requires Valid(d) && IsMachine(d, g) && IsMachine(d, to)
  {
    (if d.rrr then position
     else if to.region != g.region then After(g.region, to.region, Regions(d))
     else After(g.replica, to.replica, d.replicas[g.region])) % d.partitions
  }

  /** A packet that is the first of its kind in a region or replica comes and goes where it should. */
  ghost predicate Routed(d: Deployment, p: Packet)
    requires Valid(d)
  {
    match p.payload
    case Data(g, position, _) =>
      && IsMachine(d, g) && IsMachine(d, p.to)
      && (FirstInRegion(p) ==> p.from == g && p.to.replica == 0)
      && (FirstInReplica(p) && p.to.region == g.region ==> p.from == g)
      && (FirstInReplica(p) && p.from == g ==> p.to.partition == GateTo(d, g, position, p.to))
    case Ack(h, _, r) => FirstInRegion(p) ==> h < Regions(d) && p.to == LeaderAt(h) && p.from == Entry(d, h, r)
    case _ => true
  }

  ghost predicate AllRouted(d: Deployment, ps: seq<Packet>)
    requires Valid(d)
  {
    forall p :: p in ps ==> Routed(d, p)
  }

  lemma {:induction false} OwnSharesRouted(d: Deployment, g: Machine, position: nat, shares: seq<Batch>, n: nat)
    requires Valid(d) && IsMachine(d, g) && n <= |shares| == d.partitions
    ensures AllRouted(d, OwnShares(g, position, shares, n))
  {
    if n > 0 {
      OwnSharesRouted(d, g, position, shares, n - 1);
    }
  }

  lemma {:induction false} ReplicasRouted(d: Deployment, g: Machine, position: nat, shares: seq<Batch>, n: nat)
    requires Valid(d) && IsMachine(d, g) && n <= d.replicas[g.region]
    ensures AllRouted(d, ToOtherReplicas(d, g, position, shares, n))
  {
    if n > 0 {
      ReplicasRouted(d, g, position, shares, n - 1);
      AfterIs(g.replica, n - 1, d.replicas[g.region]);
    }
  }

  lemma {:induction false} RegionsRouted(d: Deployment, g: Machine, position: nat, shares: seq<Batch>, n: nat)
    requires Valid(d) && IsMachine(d, g) && n <= Regions(d)
    ensures AllRouted(d, ToRegions(d, g, position, shares, n))
  {
    if n > 0 {
      RegionsRouted(d, g, position, shares, n - 1);
      ReplicasRouted(d, g, position, shares, d.replicas[g.region]);
      AfterIs(g.region, n - 1, Regions(d));
    }
  }

  lemma {:induction false} BatchRouted(d: Deployment, g: Machine, position: nat, shares: seq<Batch>)
    requires Valid(d) && IsMachine(d, g) && |shares| == d.partitions
    ensures AllRouted(d, DataPackets(d, g, position, shares))
  {
    OwnSharesRouted(d, g, position, shares, d.partitions);
    RegionsRouted(d, g, position, shares, Regions(d));
  }

  /* ---------- Forwarding and answering ---------- */

  /** A copy of `p` that its receiver passes on inside the region. */
  ghost predicate Inside(d: Deployment, p: Packet, q: Packet) {
    && IsMachine(d, q.to) && q.from == p.to && q.to.region == p.to.region
    && (q.to.replica != p.to.replica ==> FirstInRegion(p) && q.to.partition == p.to.partition)
    && match p.payload
       case Data(g, position, _) => q.payload.Data? && q.payload.generator == g && q.payload.position == position
       case Ack(_, _, _) => q.payload == p.payload
       case _ => !q.payload.Data? && !q.payload.Ack?
  }

  lemma {:induction false} PartitionsInside(d: Deployment, p: Packet, n: nat)
    requires IsMachine(d, p.to) && n <= d.partitions
    ensures forall q :: q in ToPartitions(p.to, p.payload, n) ==> Inside(d, p, q)
  {
    if n > 0 {
      PartitionsInside(d, p, n - 1);
    }
  }

  lemma {:induction false} ReplicasInside(d: Deployment, p: Packet, n: nat)
    requires IsMachine(d, p.to) && FirstInRegion(p) && n <= d.replicas[p.to.region]
    ensures forall q :: q in ToReplicas(p.to, p.payload, n) ==> Inside(d, p, q)
  {
    if n > 0 {
      ReplicasInside(d, p, n - 1);
    }
  }

  lemma {:induction false} SharesInside(d: Deployment, p: Packet, n: nat)
    requires IsMachine(d, p.to) && p.payload.Data? && n <= |p.payload.shares| && n <= d.partitions
    ensures forall q :: q in SharesToPartitions(p.to, p.payload, n) ==> Inside(d, p, q)
  {
    if n > 0 {
      SharesInside(d, p, n - 1);
    }
  }

  lemma {:induction false} ForwardsInside(d: Deployment, p: Packet, q: Packet)
    requires IsMachine(d, p.to) && q in Forwards(d, p)
    requires p.payload.Data? && FirstInReplica(p) ==> |p.payload.shares| == d.partitions
    ensures Inside(d, p, q)
  {
    PartitionsInside(d, p, d.partitions);
    if FirstInRegion(p) {
      ReplicasInside(d, p, d.replicas[p.to.region]);
    }
    if p.payload.Data? && FirstInReplica(p) {
      SharesInside(d, p, d.partitions);
    }
  }

  lemma {:induction false} InsideRouted(d: Deployment, p: Packet, q: Packet)
    requires Valid(d) && Routed(d, p) && Inside(d, p, q)
    ensures Routed(d, q)
  {
  }

  lemma {:induction false} ReplyRouted(d: Deployment, w: World, p: Packet)
    requires Valid(d) && Shaped(d, w) && PacketOk(d, w, p)
    ensures AllRouted(d, Reply(p))
  {
  }

  /** Announcements are orders. */
  predicate OnlyOrders(ps: seq<Packet>) {
    forall p :: p in ps ==> p.payload.RemoteOrder?
  }

  lemma {:induction false} OrdersAre(d: Deployment, me: Machine, slot: nat, id: BatchId, n: nat, needAck: bool)
    requires Valid(d) && me.region < Regions(d) && n <= Regions(d)
    ensures OnlyOrders(OrdersTo(d, me, slot, id, n, needAck))
  {
    if n > 0 {
      OrdersAre(d, me, slot, id, n - 1, needAck);
    }
  }

  lemma {:induction false} AdvanceSendsOrders(d: Deployment, me: Machine, st: LogState)
    requires Valid(d) && me.region < Regions(d) && AdvanceLocal(d, me, st).Success?
    ensures OnlyOrders(AdvanceLocal(d, me, st).value.sends)
    decreases |st.local.ready|
  {
    if st.local.ready != [] {
      var next := st.local.ready[0];
      OrdersAre(d, me, next.slot, next.id, Regions(d), false);
      OrdersAre(d, me, next.slot, next.id, Regions(d), true);
      var b := B.SlotAdded(LogOf(st.logs, me.region), next.slot, next.id, d.factor - 1).value;
      AdvanceSendsOrders(d, me, PassedOn(st, me.region, b));
    }
  }

  lemma {:induction false} HandlerRouted(d: Deployment, w: World, st: LogState, p: Packet)
    requires Valid(d) && Shaped(d, w) && PacketOk(d, w, p) && Routed(d, p) && LogManagers.Receive(d, st, p).Success?
    ensures AllRouted(d, LogManagers.Receive(d, st, p).value.sends)
  {
    var st1 := Absorb(d, st, p).value;
    var announced := AdvanceLocal(d, p.to, st1).value.sends;
    AdvanceSendsOrders(d, p.to, st1);
    ReplyRouted(d, w, p);
    forall q | q in Forwards(d, p) ensures Routed(d, q) {
      ForwardsInside(d, p, q);
      InsideRouted(d, p, q);
    }
    assert LogManagers.Receive(d, st, p).value.sends == Forwards(d, p) + Reply(p) + announced;
  }

  lemma {:induction false} ReceiveRouted(d: Deployment, c: Cluster, i: nat, c': Cluster)
    requires Inv(d, c) && AllRouted(d, c.net) && i < |c.net| && Handled(d, c, i) == Success(c')
    ensures AllRouted(d, c'.net)
  {
    var p := c.net[i];
    assert p in c.net && PacketOk(d, View(c), p);
    HandlerRouted(d, View(c), c.logs[p.to], p);
    RestRouted(d, c.net, i, LogManagers.Receive(d, c.logs[p.to], p).value.sends);
  }

  lemma {:induction false} RestRouted(d: Deployment, net: seq<Packet>, i: nat, sends: seq<Packet>)
    requires Valid(d) && AllRouted(d, net) && AllRouted(d, sends) && i < |net|
    ensures AllRouted(d, net[..i] + net[i + 1..] + sends)
  {
    forall q | q in net[..i] + net[i + 1..] + sends ensures Routed(d, q) {
      assert q in net || q in sends;
    }
  }

  lemma {:induction false} GenerateRouted(d: Deployment, c: Cluster, at: Machine, contents: seq<seq<Txn>>, c': Cluster)
    requires Valid(d) && AllRouted(d, c.net) && Enabled(d, c, Generate(at, contents))
    requires Next(d, c, Generate(at, contents)) == Success(c')
    ensures AllRouted(d, c'.net)
  {
    var position := |c.made[at]|;
    var shares := Shares(BatchId(position + 1, at), contents);
    BatchRouted(d, at, position, shares);
    assert c'.net == c.net + DataPackets(d, at, position, shares);
  }

  lemma {:induction false} ToldRouted(d: Deployment, x: Machine, ks: seq<PaxosRoles.Commit>)
    requires Valid(d)
    ensures AllRouted(d, ToldAll(x, ks))
  {
    if ks != [] {
      ToldRouted(d, x, ks[1..]);
    }
  }

  lemma {:induction false} ConsensusRouted(d: Deployment, c: Cluster, g: nat, link: P.Link, i: nat)
    requires Valid(d) && AllRouted(d, c.net) && Enabled(d, c, Consensus(g, link, i))
    ensures AllRouted(d, Decided(d, c, g, link, i).net)
  {
    ToldRouted(d, link.dst, Reported(Group(d, g), c.groups[g], link, i));
  }

  lemma {:induction false} StepRouted(d: Deployment, c: Cluster, step: Step, c': Cluster)
    requires Inv(d, c) && AllRouted(d, c.net) && Enabled(d, c, step) && Next(d, c, step) == Success(c')
    ensures AllRouted(d, c'.net)
  {
    match step
    case Generate(at, contents) => GenerateRouted(d, c, at, contents, c');
    case Consensus(g, link, i) => ConsensusRouted(d, c, g, link, i);
    case Receive(i) => ReceiveRouted(d, c, i, c');
  }

  lemma {:induction false} RunStepRouted(d: Deployment, steps: seq<Step>, states: seq<Cluster>, k: nat)
    requires Run(d, steps, states) && k < |steps| && AllRouted(d, states[k].net)
    ensures AllRouted(d, states[k + 1].net)
  {
    RunInv(d, steps, states, k);
    StepRouted(d, states[k], steps[k], states[k + 1]);
  }

  lemma {:induction false} RunRouted(d: Deployment, steps: seq<Step>, states: seq<Cluster>, i: nat)
    requires Run(d, steps, states) && i < |states|
    ensures AllRouted(d, states[i].net)
  {
    for k := 0 to i
      invariant AllRouted(d, states[k].net)
    {
      RunStepRouted(d, steps, states, k);
    }
  }

  /* ---------- Main results ---------- */

  /**
    A whole batch comes to another region from its generator and to the first replica there, and to
    another replica of the generator's region from the generator; it enters in turn at each partition,
    batch by batch, or else always at the partition that tells how far the region or replica is away.
  */
  lemma {:induction false} BatchEntersAt(d: Deployment, steps: seq<Step>, states: seq<Cluster>, i: nat, p: Packet)
    requires Run(d, steps, states) && i < |states| && p in states[i].net && p.payload.Data?
    requires p.from.region != p.to.region || (p.to.region == p.payload.generator.region && p.from.replica != p.to.replica)
    ensures var g := p.payload.generator;
            && IsMachine(d, g) && IsMachine(d, p.to) && p.from == g && (p.to.region != g.region ==> p.to.replica == 0)
            && p.to.partition == (if d.rrr then p.payload.position
                                  else if p.to.region != g.region then After(g.region, p.to.region, Regions(d))
                                  else After(g.replica, p.to.replica, d.replicas[g.region])) % d.partitions
  {
    RunRouted(d, steps, states, i);
    assert Routed(d, p);
  }

  /** An acknowledgement comes to its region from the entry machine of the other one, and to the leader. */
  lemma {:induction false} AckReturnsToLeader(d: Deployment, steps: seq<Step>, states: seq<Cluster>, i: nat, p: Packet)
    requires Run(d, steps, states) && i < |states| && p in states[i].net && p.payload.Ack?
    requires p.from.region != p.to.region
    ensures p.to == Machine(p.payload.home, 0, 0) && p.from.region == p.payload.region && p.from.replica == 0
    ensures IsMachine(d, p.from) && IsMachine(d, p.to)
    ensures p.from.partition == After(p.to.region, p.from.region, Regions(d)) % d.partitions
  {
    RunRouted(d, steps, states, i);
    RunPacket(d, steps, states, i, p);
    assert Routed(d, p);
    AfterIs(p.to.region, p.from.region, Regions(d));
  }

  lemma {:induction false} RunPacket(d: Deployment, steps: seq<Step>, states: seq<Cluster>, i: nat, p: Packet)
    requires Run(d, steps, states) && i < |states| && p in states[i].net
    ensures Shaped(d, View(states[i])) && PacketOk(d, View(states[i]), p)
  {
    RunInv(d, steps, states, i);
  }

  /**
    An order comes to another region from the leader of its home, at the partition that tells how far
    the region is away; it asks for an acknowledgement exactly if the replication order names the region
    among its first factor - 1 entries.
  */
  lemma {:induction false} OrderEntersAt(d: Deployment, steps: seq<Step>, states: seq<Cluster>, i: nat, p: Packet)
    requires Run(d, steps, states) && i < |states| && p in states[i].net && p.payload.RemoteOrder?
    requires p.from.region != p.to.region
    ensures p.from == Machine(p.payload.home, 0, 0) && p.to.replica == 0
    ensures IsMachine(d, p.from) && IsMachine(d, p.to)
    ensures p.to.partition == After(p.from.region, p.to.region, Regions(d)) % d.partitions
    ensures var order := d.order[p.payload.home];
            p.payload.needAck <==> exists k :: 0 <= k < |order| && k < d.factor - 1 && order[k] == p.to.region
  {
    RunPacket(d, steps, states, i, p);
    AfterIs(p.from.region, p.to.region, Regions(d));
    NeededIs(d, p.payload.home, p.to.region);
  }
}
