/**
  What has been promised to each machine of a cluster and what has arrived there.

  `Tokens` is the conservation law of the cluster: for every machine and every item (a batch, a
  local order, a remote order, an acknowledgement) that has been issued, either the machine has
  the item, or exactly one packet is on its way that brings it there; never both.
*/
module Exchange {
  import opened Topology
  import opened Deployments
  import opened Fanout
  import opened LogManagers
  import opened LogNodes
  import opened RegionOrders
  import L = LocalLogs
  import B = BatchLogs

  /**
    The state of a cluster apart from its packets: per region the order decided so far and how
    many slots its leader has sent to the other regions; per machine the slots it was told of by
    Paxos, the batches it generated (as one share per partition), and what its log manager has
    received.
  */
  datatype World = World(
    ords: seq<seq<Machine>>, sent: seq<nat>,
    heard: map<Machine, set<nat>>, made: map<Machine, seq<seq<Batch>>>, seen: map<Machine, Seen>)

  ghost predicate Shaped(d: Deployment, w: World) {
    && |w.ords| == Regions(d) && |w.sent| == Regions(d)
    && forall m :: IsMachine(d, m) ==> m in w.heard && m in w.made && m in w.seen
  }

  function LeaderAt(region: nat): Machine {
    Machine(region, LEADER_REPLICA, LEADER_PARTITION)
  }

  /** The machine from whose Paxos module `m` gets the local orders. */
  function LearnerOf(m: Machine): Machine {
    if m.replica == LEADER_REPLICA then m else Machine(m.region, m.replica, 0)
  }

  lemma {:induction false} LearnerIsMachine(d: Deployment, m: Machine)
    requires Valid(d) && IsMachine(d, m)
    ensures IsMachine(d, LearnerOf(m)) && IsMachine(d, LeaderAt(m.region))
  {
  }

  /** Machine `m` has received `item`. */
  predicate Has(s: Seen, m: Machine, item: Item) {
    match item
    case DataItem(g, position) => BatchId(position + 1, g) in SeenOf(s.logs, g.region).data
    case LocalItem(h, slot) => m.region == h && slot in s.local.slots
    case RemoteItem(h, slot) => m.region != h && slot in SeenOf(s.logs, h).slots
    case AckItem(h, id, g) => m.region == h && g in Ackers(s.acked, id)
  }

  /** `item` has been issued, and `m` is one of the machines it is meant for. */
  ghost predicate Due(d: Deployment, w: World, m: Machine, item: Item)
    requires Valid(d) && Shaped(d, w) && IsMachine(d, m)
  {
    LearnerIsMachine(d, m);
    match item
    case DataItem(g, position) => IsMachine(d, g) && position < |w.made[g]|
    case LocalItem(h, slot) => m.region == h && slot in w.heard[LearnerOf(m)]
    case RemoteItem(h, slot) => h < Regions(d) && m.region != h && slot < w.sent[h]
    case AckItem(h, id, g) => m.region == h && Answered(d, w, h, id, g)
  }

  /** Region `g` was asked to acknowledge `id` and its entry machine has the order. */
  ghost predicate Answered(d: Deployment, w: World, h: nat, id: BatchId, g: nat)
    requires Valid(d) && Shaped(d, w) && h < Regions(d)
  {
    g in Needed(d, h) && IsMachine(d, Entry(d, h, g)) && id in SeenOf(w.seen[Entry(d, h, g)].logs, h).slotOf
  }

  type Load = (Item, Machine) -> nat

  function LoadOf(d: Deployment, net: seq<Packet>): Load {
    (item: Item, m: Machine) => Count(d, net, item, m)
  }

  ghost predicate Tokens(d: Deployment, w: World, load: Load)
    requires Valid(d) && Shaped(d, w)
  {
    forall item: Item, m: Machine {:trigger load(item, m)} :: IsMachine(d, m) ==>
      load(item, m) + Bit(Has(w.seen[m], m, item)) == Bit(Due(d, w, m, item))
  }

  /** Packets say what is the case. */
  ghost predicate PacketOk(d: Deployment, w: World, p: Packet)
    requires Valid(d) && Shaped(d, w)
  {
    && IsMachine(d, p.from) && IsMachine(d, p.to)
    && match p.payload
       case Data(g, position, shares) =>
         && IsMachine(d, g) && position < |w.made[g]| && |w.made[g][position]| == d.partitions
         && shares == if FirstInReplica(p) then w.made[g][position] else [w.made[g][position][p.to.partition]]
       case LocalOrder(slot, g, leader) =>
         leader == LeaderAt(p.to.region) && slot < |w.ords[p.to.region]| && g == w.ords[p.to.region][slot]
       case RemoteOrder(h, slot, id, needAck) =>
         && h < Regions(d) && h != p.to.region && slot < |w.ords[h]| && id == Common(w.ords[h], slot)
         && if FirstInRegion(p)
            then p.from == LeaderAt(h) && p.to == Entry(d, h, p.to.region) && needAck == (p.to.region in Needed(d, h))
            else p.to != Entry(d, h, p.to.region) && (FirstInReplica(p) ==> p.to.replica != 0)
       case Ack(h, id, g) => h == p.to.region && g in Needed(d, h)
  }

  /** Every batch has one share per partition, all under the batch's id. */
  ghost predicate MadeOk(d: Deployment, made: map<Machine, seq<seq<Batch>>>) {
    forall g, i: nat :: g in made && i < |made[g]| ==> SharesOf(d, made[g][i], BatchId(i + 1, g))
  }

  ghost predicate SharesOf(d: Deployment, shares: seq<Batch>, id: BatchId) {
    |shares| == d.partitions && forall k :: 0 <= k < |shares| ==> shares[k].id == id
  }

  /** The batches a machine has are its shares of those generated. */
  ghost predicate DataOk(d: Deployment, made: map<Machine, seq<seq<Batch>>>, m: Machine, logs: map<nat, B.Arrivals>) {
    forall h: nat, id :: id in SeenOf(logs, h).data ==>
      id.machine.region == h && ShareOk(d, made, m, SeenOf(logs, h).data[id], id)
  }

  ghost predicate ShareOk(d: Deployment, made: map<Machine, seq<seq<Batch>>>, m: Machine, batch: Batch, id: BatchId) {
    && IsMachine(d, id.machine) && id.machine in made
    && 1 <= id.counter <= |made[id.machine]| && m.partition < |made[id.machine][id.counter - 1]|
    && batch == made[id.machine][id.counter - 1][m.partition]
  }

  /** The local log knows exactly the batches of its region that the machine has. */
  ghost predicate IdsKnown(m: Machine, ids: map<(Machine, nat), BatchId>, own: B.Arrivals) {
    forall q, p: nat :: (q, p) in ids <==> q.region == m.region && BatchId(p + 1, q) in own.data
  }

  /** What a machine knows of the logs of other regions. */
  ghost predicate RemoteOk(ords: seq<seq<Machine>>, m: Machine, logs: map<nat, B.Arrivals>) {
    forall h: nat :: h != m.region ==> RemoteLogOk(ords, h, SeenOf(logs, h))
  }

  ghost predicate RemoteLogOk(ords: seq<seq<Machine>>, h: nat, a: B.Arrivals) {
    && a.acks == multiset{}
    && forall slot :: slot in a.slots ==> h < |ords| && slot < |ords[h]| && a.slots[slot] == Common(ords[h], slot)
  }

  ghost predicate AckersOk(d: Deployment, m: Machine, s: Seen)
    requires Valid(d) && m.region < Regions(d)
  {
    forall id :: Ackers(s.acked, id) <= Needed(d, m.region)
  }

  ghost predicate SeenOk(d: Deployment, w: World, m: Machine, s: Seen)
    requires Valid(d) && Shaped(d, w) && IsMachine(d, m)
  {
    && SlotsAgree(s.local.slots, w.ords[m.region], LeaderAt(m.region))
    && DataOk(d, w.made, m, s.logs) && IdsKnown(m, s.local.ids, SeenOf(s.logs, m.region))
    && RemoteOk(w.ords, m, s.logs) && AckersOk(d, m, s)
  }

  /* ---------- How much a packet or a group of packets brings ---------- */

  /** An order sent to another region reaches all of that region. */
  lemma {:induction false} OrderReaches(d: Deployment, me: Machine, g: nat, payload: Payload, x: Machine)
    requires Valid(d) && IsMachine(d, me) && g != me.region && payload.RemoteOrder?
    ensures Reaches(d, Packet(me, Entry(d, me.region, g), payload), x) <==> IsMachine(d, x) && x.region == g
  {
  }

  lemma {:induction false} CountOrdersTo(f: Measure, d: Deployment, me: Machine, slot: nat, id: BatchId, n: nat,
                                         needAck: bool, item: Item, x: Machine)
    requires Counts(f, d, item, x) && Valid(d) && IsMachine(d, me) && n <= Regions(d)
    ensures f(OrdersTo(d, me, slot, id, n, needAck)) ==
            Bit(item == RemoteItem(me.region, slot) && IsMachine(d, x) && x.region < n && x.region != me.region
                && (x.region in Needed(d, me.region)) == needAck)
  {
    if n > 0 {
      CountOrdersTo(f, d, me, slot, id, n - 1, needAck, item, x);
      if n - 1 != me.region {
        OrderReaches(d, me, n - 1, RemoteOrder(me.region, slot, id, needAck), x);
      }
    }
  }

  predicate Announced(d: Deployment, me: Machine, lo: nat, hi: nat, item: Item, x: Machine) {
    && me == LeaderAt(me.region) && item.RemoteItem? && item.home == me.region && lo <= item.slot < hi
    && IsMachine(d, x) && x.region != me.region
  }

  /** A slot's announcement brings the order to every machine of every other region. */
  lemma {:induction false} CountAnnounce(f: Measure, d: Deployment, me: Machine, next: L.Ready, item: Item, x: Machine)
    requires Counts(f, d, item, x) && Valid(d) && IsMachine(d, me) && next.leader == LeaderAt(me.region)
    ensures f(Announce(d, me, next)) == Bit(Announced(d, me, next.slot, next.slot + 1, item, x))
  {
    CountOrdersTo(f, d, me, next.slot, next.id, Regions(d), false, item, x);
    CountOrdersTo(f, d, me, next.slot, next.id, Regions(d), true, item, x);
  }

  lemma {:induction false} CountAnnouncements(f: Measure, d: Deployment, me: Machine, ready: seq<L.Ready>, n: nat,
                                              item: Item, x: Machine)
    requires Counts(f, d, item, x) && Valid(d) && IsMachine(d, me)
    requires forall i :: 0 <= i < |ready| ==> ready[i].slot == n + i && ready[i].leader == LeaderAt(me.region)
    ensures f(Announcements(d, me, ready)) == Bit(Announced(d, me, n, n + |ready|, item, x))
    decreases |ready|
  {
    if ready != [] {
      CountAnnouncements(f, d, me, ready[1..], n + 1, item, x);
      CountAnnounce(f, d, me, ready[0], item, x);
    }
  }

  /** The reply to `p` brings an acknowledgement to every machine of the home region. */
  predicate Replied(d: Deployment, p: Packet, item: Item, x: Machine) {
    && p.payload.RemoteOrder? && FirstInRegion(p) && p.payload.needAck
    && item == AckItem(p.payload.home, p.payload.id, p.to.region)
    && IsMachine(d, x) && x.region == p.from.region
  }

  lemma {:induction false} CountReply(f: Measure, d: Deployment, p: Packet, item: Item, x: Machine)
    requires Counts(f, d, item, x)
    ensures f(Reply(p)) == Bit(Replied(d, p, item, x))
  {
  }

  /** A commit reported on `x` is passed to the log manager of `x`. */
  function Told(x: Machine, slot: nat, g: Machine): Packet {
    Packet(x, x, LocalOrder(slot, g, LeaderAt(x.region)))
  }

  lemma {:induction false} CountTold(f: Measure, d: Deployment, x: Machine, slot: nat, g: Machine, item: Item,
                                     m: Machine)
    requires Counts(f, d, item, m) && IsMachine(d, x) && (x.replica == 0 || x.partition == 0)
    ensures f([Told(x, slot, g)]) ==
            Bit(item == LocalItem(x.region, slot) && IsMachine(d, m) && LearnerOf(m) == x)
  {
  }
}
