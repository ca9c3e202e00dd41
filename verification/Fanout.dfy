/**
  How data, orders and acknowledgements spread inside a region.

  A machine that hears of something first in its region passes it to its peers in the other
  replicas; one that hears of it first in its replica passes it to the other partitions.  The
  source tells "first" from the sender's address alone.  `Reaches` says which machines a packet
  will get to, directly or forwarded; forwarding splits that set without overlap.
*/
module Fanout {
  import opened Topology
  import opened Deployments

  /** Acknowledgements carry, as history, whose order they answer and who answers. */
  datatype Payload =
    | Data(generator: Machine, position: nat, shares: seq<Batch>)
    | LocalOrder(slot: nat, generator: Machine, leader: Machine)
    | RemoteOrder(home: nat, slot: nat, id: BatchId, needAck: bool)
    | Ack(home: nat, id: BatchId, region: nat)

  datatype Packet = Packet(from: Machine, to: Machine, payload: Payload)

  /** What a packet is about, apart from who carries it. */
  datatype Item =
    | DataItem(generator: Machine, position: nat)
    | LocalItem(region: nat, slot: nat)
    | RemoteItem(home: nat, slot: nat)
    | AckItem(home: nat, id: BatchId, region: nat)

  function ItemOf(p: Packet): Item {
    match p.payload
    case Data(generator, position, _) => DataItem(generator, position)
    case LocalOrder(slot, _, _) => LocalItem(p.to.region, slot)
    case RemoteOrder(home, slot, _, _) => RemoteItem(home, slot)
    case Ack(home, id, region) => AckItem(home, id, region)
  }

  predicate FirstInRegion(p: Packet) {
    p.from.region != p.to.region
  }

  predicate FirstInReplica(p: Packet) {
    FirstInRegion(p) || p.from.replica != p.to.replica
  }

  /** A local order heard straight from Paxos in a replica that is not the leader's. */
  predicate FirstFromPaxos(p: Packet)
    requires p.payload.LocalOrder?
  {
    p.payload.leader.replica != p.to.replica && p.from.partition == p.to.partition
  }

  /** The packets to the peers of `m` in the other replicas below `n`. */
  function ToReplicas(m: Machine, payload: Payload, n: nat): seq<Packet> {
    if n == 0 then []
    else ToReplicas(m, payload, n - 1) +
         if n - 1 != m.replica then [Packet(m, Machine(m.region, n - 1, m.partition), payload)] else []
  }

  /** The packets to the other partitions below `n` of the replica of `m`. */
  function ToPartitions(m: Machine, payload: Payload, n: nat): seq<Packet> {
    if n == 0 then []
    else ToPartitions(m, payload, n - 1) +
         if n - 1 != m.partition then [Packet(m, Machine(m.region, m.replica, n - 1), payload)] else []
  }

  /** The same for batch data: each partition is sent its own share only. */
  function SharesToPartitions(m: Machine, payload: Payload, n: nat): seq<Packet>
    requires payload.Data? && n <= |payload.shares|
  {
    if n == 0 then []
    else (if n - 1 != m.partition
          then [Packet(m, Machine(m.region, m.replica, n - 1), payload.(shares := [payload.shares[n - 1]]))] else [])
         + SharesToPartitions(m, payload, n - 1)
  }

  /** What the receiver of `p` passes on. */
  function Forwards(d: Deployment, p: Packet): seq<Packet>
    requires IsMachine(d, p.to)
  {
    var m := p.to;
    var replicas := if FirstInRegion(p) then ToReplicas(m, p.payload, d.replicas[m.region]) else [];
    match p.payload
    case LocalOrder(_, _, _) =>
      if FirstFromPaxos(p) then ToPartitions(m, p.payload, d.partitions) else []
    case Data(_, _, shares) =>
      replicas + if FirstInReplica(p) then SharesToPartitions(m, p.payload, |shares|) else []
    case _ =>
      replicas + if FirstInReplica(p) then ToPartitions(m, p.payload, d.partitions) else []
  }

  /** The machines that `p` gets to in the end. */
  predicate Reaches(d: Deployment, p: Packet, m: Machine) {
    && IsMachine(d, m) && m.region == p.to.region
    && if p.payload.LocalOrder? then m == p.to || (FirstFromPaxos(p) && m.replica == p.to.replica)
       else FirstInRegion(p) || (m.replica == p.to.replica && (FirstInReplica(p) || m == p.to))
  }

  function Bit(b: bool): nat {
    if b then 1 else 0
  }

  /** How many of the packets carry `item` to `m`. */
  function Count(d: Deployment, ps: seq<Packet>, item: Item, m: Machine): nat {
    if ps == [] then 0
    else Count(d, ps[..|ps| - 1], item, m) + Bit(ItemOf(ps[|ps| - 1]) == item && Reaches(d, ps[|ps| - 1], m))
  }

  lemma {:induction false} CountAppend(d: Deployment, ps: seq<Packet>, qs: seq<Packet>, item: Item, m: Machine)
    ensures Count(d, ps + qs, item, m) == Count(d, ps, item, m) + Count(d, qs, item, m)
  {
    if qs == [] {
      assert ps + qs == ps;
    } else {
      CountAppend(d, ps, qs[..|qs| - 1], item, m);
      assert (ps + qs)[..|ps + qs| - 1] == ps + qs[..|qs| - 1];
    }
  }

  /** A packet from one partition to another of the same replica goes no further. */
  lemma {:induction false} PartitionPacketReaches(d: Deployment, m: Machine, k: nat, payload: Payload, x: Machine)
    requires IsMachine(d, m) && k < d.partitions && k != m.partition
    ensures Reaches(d, Packet(m, Machine(m.region, m.replica, k), payload), x) <==>
            x == Machine(m.region, m.replica, k)
    ensures ItemOf(Packet(m, Machine(m.region, m.replica, k), payload)) == ItemOf(Packet(m, m, payload))
  {
  }

  lemma {:induction false} CountOne(d: Deployment, p: Packet, item: Item, x: Machine)
    ensures Count(d, [p], item, x) == Bit(ItemOf(p) == item && Reaches(d, p, x))
  {
    assert [p][..0] == [];
  }

  /** Counting the packets of a sequence that bring `item` to `x`, as a function of the sequence. */
  type Measure = seq<Packet> -> nat

  ghost predicate Counts(f: Measure, d: Deployment, item: Item, x: Machine) {
    && f([]) == 0
    && (forall p :: f([p]) == Bit(ItemOf(p) == item && Reaches(d, p, x)))
    && (forall ps, qs :: f(ps + qs) == f(ps) + f(qs))
  }

  function Counter(d: Deployment, item: Item, x: Machine): Measure {
    (ps: seq<Packet>) => Count(d, ps, item, x)
  }

  lemma {:induction false} CounterCounts(d: Deployment, item: Item, x: Machine)
    ensures Counts(Counter(d, item, x), d, item, x)
  {
    var f := Counter(d, item, x);
    forall p ensures f([p]) == Bit(ItemOf(p) == item && Reaches(d, p, x)) {
      CountOne(d, p, item, x);
    }
    forall ps, qs ensures f(ps + qs) == f(ps) + f(qs) {
      CountAppend(d, ps, qs, item, x);
    }
  }

  lemma {:induction false} CountReplicas(f: Measure, d: Deployment, m: Machine, payload: Payload, n: nat, item: Item,
                                         x: Machine)
    requires Counts(f, d, item, x)
    requires IsMachine(d, m) && n <= d.replicas[m.region] && !payload.LocalOrder?
    ensures f(ToReplicas(m, payload, n)) ==
            Bit(ItemOf(Packet(m, m, payload)) == item && IsMachine(d, x) && x.region == m.region
                && x.replica < n && x.replica != m.replica)
  {
    if n > 0 {
      CountReplicas(f, d, m, payload, n - 1, item, x);
    }
  }

  lemma {:induction false} CountPartitions(f: Measure, d: Deployment, m: Machine, payload: Payload, n: nat,
                                           item: Item, x: Machine)
    requires Counts(f, d, item, x)
    requires IsMachine(d, m) && n <= d.partitions
    ensures f(ToPartitions(m, payload, n)) ==
            Bit(ItemOf(Packet(m, m, payload)) == item && IsMachine(d, x) && x.region == m.region
                && x.replica == m.replica && x.partition < n && x.partition != m.partition)
  {
    if n > 0 {
      CountPartitions(f, d, m, payload, n - 1, item, x);
      if n - 1 != m.partition {
        PartitionPacketReaches(d, m, n - 1, payload, x);
      }
    }
  }

  lemma {:induction false} CountShares(f: Measure, d: Deployment, m: Machine, payload: Payload, n: nat, item: Item,
                                       x: Machine)
    requires Counts(f, d, item, x)
    requires IsMachine(d, m) && payload.Data? && n <= |payload.shares| && n <= d.partitions
    ensures f(SharesToPartitions(m, payload, n)) ==
            Bit(ItemOf(Packet(m, m, payload)) == item && IsMachine(d, x) && x.region == m.region
                && x.replica == m.replica && x.partition < n && x.partition != m.partition)
  {
    if n > 0 {
      CountShares(f, d, m, payload, n - 1, item, x);
      if n - 1 != m.partition {
        PartitionPacketReaches(d, m, n - 1, payload.(shares := [payload.shares[n - 1]]), x);
      }
    }
  }

  /** Full data travels between replicas, single shares inside one. */
  predicate WellSized(d: Deployment, p: Packet) {
    p.payload.Data? ==> |p.payload.shares| == if FirstInReplica(p) then d.partitions else 1
  }

  /**
    Conservation: the machines that a packet gets to are its receiver and, without overlap, those
    that the forwarded packets get to.
  */
  lemma {:induction false} ForwardsPartition(d: Deployment, p: Packet, item: Item, x: Machine)
    requires IsMachine(d, p.to) && WellSized(d, p)
    ensures Count(d, Forwards(d, p), item, x) + Bit(item == ItemOf(p) && x == p.to)
            == Bit(item == ItemOf(p) && Reaches(d, p, x))
  {
    CounterCounts(d, item, x);
    ForwardsCount(Counter(d, item, x), d, p, item, x);
  }

  lemma {:induction false} ForwardsCount(f: Measure, d: Deployment, p: Packet, item: Item, x: Machine)
    requires Counts(f, d, item, x) && IsMachine(d, p.to) && WellSized(d, p)
    ensures f(Forwards(d, p)) + Bit(item == ItemOf(p) && x == p.to) == Bit(item == ItemOf(p) && Reaches(d, p, x))
  {
    var m := p.to;
    if !p.payload.LocalOrder? {
      CountReplicas(f, d, m, p.payload, d.replicas[m.region], item, x);
    }
    match p.payload {
      case Data(_, _, shares) => CountShares(f, d, m, p.payload, |shares|, item, x);
      case _ => CountPartitions(f, d, m, p.payload, d.partitions, item, x);
    }
  }
}
