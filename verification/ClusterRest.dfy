/**
  Replication and completeness: when a home region may hand a batch out, and what has been handed
  out once nothing is on its way any more.
*/
module ClusterRest {
  import opened Topology
  import opened Counting
  import opened Deployments
  import opened Fanout
  import opened LogManagers
  import opened LogNodes
  import opened RegionOrders
  import opened Exchange
  import opened Receptions
  import opened Clusters
  import opened ClusterInvariant
  import opened ClusterLogs
  import opened ClusterForgets
  import P = PaxosSystem
  import PaxosQueues
  import PaxosRoles
  import PaxosSafety
  import PaxosRest
  import L = LocalLogs
  import B = BatchLogs

  /* ---------- Acknowledgements ---------- */

  /** A released slot has all its acknowledgements, and its counter is gone. */
  lemma {:induction false} ReleasedSlot(b: B.BatchState, a: B.Arrivals, factor: nat, emitted: seq<Batch>, slot: nat)
    requires LogMid(b, a, factor, emitted) && slot < |emitted|
    ensures slot in a.slots && a.acks[a.slots[slot]] == factor && a.slots[slot] !in b.replication
  {
    assert B.Complete(a, factor, slot);
  }

  lemma {:induction false} AllNeededAcked(d: Deployment, h: nat, ackers: set<nat>)
    requires Valid(d) && h < Regions(d) && ackers <= Needed(d, h) && |ackers| == d.factor - 1
    ensures ackers == Needed(d, h)
  {
    NeededBounded(d, h);
    SubsetSize(ackers, Needed(d, h));
  }

  /** Region `g` has the order of slot `slot` of region `h`: its entry machine does. */
  ghost predicate Replicated(d: Deployment, c: Cluster, h: nat, slot: nat, g: nat)
    requires Valid(d) && h < Regions(d)
  {
    var e := Entry(d, h, g);
    && e in c.seen && slot < |OrderOf(c, h)| && slot in SeenOf(c.seen[e].logs, h).slots
    && SeenOf(c.seen[e].logs, h).slots[slot] == Common(OrderOf(c, h), slot)
  }

  lemma {:induction false} AnsweredIsReplicated(d: Deployment, c: Cluster, h: nat, slot: nat, g: nat)
    requires Inv(d, c) && h < Regions(d) && slot < |OrderOf(c, h)| && g != h
    requires Answered(d, View(c), h, Common(OrderOf(c, h), slot), g)
    ensures Replicated(d, c, h, slot, g)
  {
    var e, id := Entry(d, h, g), Common(OrderOf(c, h), slot);
    InvParts(d, c, e);
    var log := SeenOf(c.seen[e].logs, h);
    NodeInverted(d, e, c.logs[e], c.seen[e]);
    assert B.Mutual(log.slots, log.slotOf);
    var s := log.slotOf[id];
    NodeParts(d, e, c.logs[e], c.seen[e], h);
    SlotIsCommon(d, View(c), e, c.logs[e], c.seen[e], h, s);
    CommonDistinct(OrderOf(c, h), s, slot);
  }

  /** The first factor - 1 entries of the replication order of region `h` exist and are distinct. */
  predicate EnoughNamed(d: Deployment, h: nat)
    requires h < |d.order| && d.factor > 0
  {
    |d.order[h]| >= d.factor - 1 && Distinct(d.order[h][..d.factor - 1])
  }

  lemma {:induction false} NeededNamed(d: Deployment, h: nat)
    requires Valid(d) && h < Regions(d) && EnoughNamed(d, h)
    ensures Needed(d, h) == Elements(d.order[h][..d.factor - 1])
    ensures forall k :: 0 <= k < d.factor - 1 ==> d.order[h][k] in Needed(d, h)
  {
    SameNeeded(d, h, Elements(d.order[h][..d.factor - 1]));
    forall k | 0 <= k < d.factor - 1 ensures d.order[h][k] in Needed(d, h) {
      NeededIs(d, h, d.order[h][k]);
    }
  }

  /** One state's part of `EmitsAfterReplication`. */
  lemma {:induction false} EmittedAcked(d: Deployment, c: Cluster, m: Machine, slot: nat)
    requires Inv(d, c) && IsMachine(d, m) && slot < |Emitted(c, m, m.region)|
    ensures slot < |OrderOf(c, m.region)|
    ensures var id := Common(OrderOf(c, m.region), slot);
            && Ackers(c.seen[m].acked, id) == Needed(d, m.region) && |Needed(d, m.region)| == d.factor - 1
            && id !in LogOf(c.logs[m].logs, m.region).replication
            && forall g :: g in Needed(d, m.region) ==> Answered(d, View(c), m.region, id, g)
  {
    var h, st, s := m.region, c.logs[m], c.seen[m];
    InvParts(d, c, m);
    NodeParts(d, m, st, s, h);
    var own := SeenOf(s.logs, h);
    ReleasedSlot(LogOf(st.logs, h), own, FactorOf(d, m, h), EmittedOf(st.emitted, h), slot);
    SlotIsCommon(d, View(c), m, st, s, h, slot);
    var id := own.slots[slot];
    assert own.acks[id] == |Ackers(s.acked, id)|;
    AllNeededAcked(d, h, Ackers(s.acked, id));
    forall g | g in Needed(d, h) ensures Answered(d, View(c), h, id, g) {
      HasIsDue(d, View(c), LoadOf(d, c.net), m, AckItem(h, id, g));
    }
  }

  /**
    A machine of the home region hands a batch out only after each of the first factor - 1 regions
    of its replication order has the batch's order and has acknowledged it; they are then distinct,
    nobody else has acknowledged, and the batch's counter has been settled for good.
  */
  lemma {:induction false} EmitsAfterReplication(d: Deployment, steps: seq<Step>, states: seq<Cluster>, i: nat,
                                                 m: Machine, slot: nat)
    requires Run(d, steps, states) && i < |states| && IsMachine(d, m) && slot < |Emitted(states[i], m, m.region)|
    ensures slot < |OrderOf(states[i], m.region)| && m in states[i].seen && m in states[i].logs
    ensures var c, h := states[i], m.region;
            var id := Common(OrderOf(c, h), slot);
            && EnoughNamed(d, h) && Ackers(c.seen[m].acked, id) == Elements(d.order[h][..d.factor - 1])
            && id !in LogOf(c.logs[m].logs, h).replication
            && forall k :: 0 <= k < d.factor - 1 ==> Replicated(d, c, h, slot, d.order[h][k])
  {
    var c, h := states[i], m.region;
    RunInv(d, steps, states, i);
    EmittedAcked(d, c, m, slot);
    NeededBounded(d, h);
    NeededEnough(d, h);
    NeededNamed(d, h);
    forall k | 0 <= k < d.factor - 1 ensures Replicated(d, c, h, slot, d.order[h][k]) {
      assert d.order[h][k] in Needed(d, h);
      AnsweredIsReplicated(d, c, h, slot, d.order[h][k]);
    }
  }

  /* ---------- At rest ---------- */

  lemma {:induction false} DueHas(d: Deployment, w: World, load: Load, m: Machine, item: Item)
    requires Valid(d) && Shaped(d, w) && Tokens(d, w, load) && IsMachine(d, m) && Due(d, w, m, item) && load(item, m) == 0
    ensures Has(w.seen[m], m, item)
  {
  }

  lemma {:induction false} NothingOnTheWay(d: Deployment, item: Item, m: Machine)
    ensures LoadOf(d, [])(item, m) == 0
  {
  }

  lemma {:induction false} DueIsHere(d: Deployment, c: Cluster, m: Machine, item: Item)
    requires Inv(d, c) && c.net == [] && IsMachine(d, m) && Due(d, View(c), m, item)
    ensures m in c.seen && Has(c.seen[m], m, item)
  {
    InvTokens(d, c, m);
    NothingOnTheWay(d, item, m);
    DueHas(d, View(c), LoadOf(d, []), m, item);
  }

  lemma {:induction false} InvTokens(d: Deployment, c: Cluster, m: Machine)
    requires Inv(d, c) && IsMachine(d, m)
    ensures m in c.seen && m in c.made && Valid(d) && Shaped(d, View(c)) && Tokens(d, View(c), LoadOf(d, c.net))
  {
  }

  lemma {:induction false} RestGroup(d: Deployment, c: Cluster, h: nat)
    requires Inv(d, c) && AtRest(c) && h < Regions(d)
    ensures PaxosRest.AllPlaced(c.groups[h].hist) && OrderOf(c, h) == Ord(c.groups[h].hist)
    ensures P.ValidConfig(Group(d, h))
    ensures !LostAt(d, c, h) ==>
              forall x :: x in Group(d, h).members.learners ==> PaxosRest.ToldOfAll(Group(d, h), c.groups[h].hist, x)
  {
    assert PaxosRest.Reached(Group(d, h), c.groups[h]);
    GroupRest(Group(d, h), c.groups[h]);
  }

  lemma {:induction false} GroupRest(config: P.Config, group: P.System)
    requires PaxosRest.Reached(config, group) && P.Quiescent(group)
    ensures PaxosRest.AllPlaced(group.hist) && P.ValidConfig(config)
    ensures !PaxosRest.Lost(config, group) ==>
              forall x :: x in config.members.learners ==> PaxosRest.ToldOfAll(config, group.hist, x)
  {
    PaxosRest.ReachedIsSafe(config, group);
    PaxosRest.QuiescentEmpty(group);
    PaxosRest.PlacedInSlots(PaxosQueues.BagOf(group.net), group.hist);
    if !PaxosRest.Lost(config, group) {
      forall x | x in config.members.learners ensures PaxosRest.ToldOfAll(config, group.hist, x) {
        PaxosRest.RestToldOfAll(config, group, x);
      }
    }
  }

  lemma {:induction false} ToldIsHeard(config: P.Config, h: P.History, x: Machine, slot: nat)
    requires P.ValidConfig(config) && PaxosRest.ToldOfAll(config, h, x) && slot < |h.chosen|
    ensures slot in Heard(h, x)
  {
    var k := PaxosRoles.Commit(slot, PaxosSafety.Bound(h, slot), P.LeaderOf(config));
    assert PaxosRest.Tellings(config, h, x, slot) == 1;
    assert k in multiset(h.learned[x]);
    assert k in h.learned[x] && k.slot == slot;
  }

  /** Every learner has heard every slot. */
  lemma {:induction false} RestHeard(d: Deployment, c: Cluster, m: Machine, slot: nat)
    requires Inv(d, c) && AtRest(c) && IsMachine(d, m) && slot < |OrderOf(c, m.region)|
    requires !LostAt(d, c, m.region)
    ensures Due(d, View(c), m, LocalItem(m.region, slot))
  {
    var h, l := m.region, LearnerOf(m);
    LearnerIsMachine(d, m);
    GroupValid(d, h);
    RestGroup(d, c, h);
    assert l in Group(d, h).members.learners;
    ToldIsHeard(Group(d, h), c.groups[h].hist, l, slot);
    InvParts(d, c, l);
  }

  lemma {:induction false} TicketMachines(d: Deployment, c: Cluster, h: nat)
    requires Inv(d, c) && h < Regions(d)
    ensures TicketsOk(d, c.groups[h].hist.tickets, c.made, h)
  {
  }

  /** The order names each generator as often as it generated a batch. */
  lemma {:induction false} RestRank(d: Deployment, c: Cluster, g: Machine)
    requires Inv(d, c) && AtRest(c) && IsMachine(d, g)
    ensures g in c.made && RankIn(OrderOf(c, g.region), |OrderOf(c, g.region)|, g) == |c.made[g]|
  {
    InvParts(d, c, g);
    RestGroup(d, c, g.region);
    TicketMachines(d, c, g.region);
    RankTotal(c.groups[g.region].hist, g);
  }

  lemma {:induction false} OrdNamesMachines(d: Deployment, c: Cluster, h: nat, slot: nat)
    requires Inv(d, c) && AtRest(c) && h < Regions(d) && slot < |OrderOf(c, h)|
    ensures IsMachine(d, OrderOf(c, h)[slot]) && OrderOf(c, h)[slot].region == h
  {
    RestGroup(d, c, h);
    TicketMachines(d, c, h);
    var hist := c.groups[h].hist;
    assert PaxosSafety.Bound(hist, slot) in hist.tickets;
  }

  /** The batch of every slot has been generated. */
  lemma {:induction false} RestMade(d: Deployment, c: Cluster, h: nat, slot: nat) returns (g: Machine, position: nat)
    requires Inv(d, c) && AtRest(c) && h < Regions(d) && slot < |OrderOf(c, h)|
    ensures Common(OrderOf(c, h), slot) == BatchId(position + 1, g)
    ensures IsMachine(d, g) && g.region == h && g in c.made && position < |c.made[g]|
  {
    g := OrderOf(c, h)[slot];
    OrdNamesMachines(d, c, h, slot);
    RestRank(d, c, g);
    position := PositionOf(OrderOf(c, h), slot, |c.made[g]|);
  }

  lemma {:induction false} PositionOf(ord: seq<Machine>, s: nat, n: nat) returns (position: nat)
    requires s < |ord| && RankIn(ord, |ord|, ord[s]) == n
    ensures position < n && Common(ord, s) == BatchId(position + 1, ord[s])
  {
    position := RankIn(ord, s, ord[s]);
    RankInMonotone(ord, s + 1, |ord|, ord[s]);
  }

  lemma {:induction false} DueData(d: Deployment, w: World, load: Load, m: Machine, g: Machine, position: nat)
    requires Valid(d) && Shaped(d, w) && Tokens(d, w, load) && IsMachine(d, m) && IsMachine(d, g)
    requires position < |w.made[g]| && load(DataItem(g, position), m) == 0
    ensures BatchId(position + 1, g) in SeenOf(w.seen[m].logs, g.region).data
  {
    DueHas(d, w, load, m, DataItem(g, position));
  }

  lemma {:induction false} MadeIsHere(d: Deployment, c: Cluster, m: Machine, g: Machine, position: nat)
    requires Inv(d, c) && c.net == [] && IsMachine(d, m) && IsMachine(d, g) && g in c.made && position < |c.made[g]|
    ensures m in c.seen && BatchId(position + 1, g) in SeenOf(c.seen[m].logs, g.region).data
  {
    InvTokens(d, c, m);
    NothingOnTheWay(d, DataItem(g, position), m);
    DueData(d, View(c), LoadOf(d, []), m, g, position);
  }

  /** Every machine has its share of the batch in every slot. */
  lemma {:induction false} RestData(d: Deployment, c: Cluster, m: Machine, h: nat, slot: nat)
    requires Inv(d, c) && AtRest(c) && IsMachine(d, m) && h < Regions(d) && slot < |OrderOf(c, h)|
    ensures m in c.seen && Common(OrderOf(c, h), slot) in SeenOf(c.seen[m].logs, h).data
  {
    var g, position := RestMade(d, c, h, slot);
    MadeIsHere(d, c, m, g, position);
  }

  /** A log that stops short of `n` complete slots does not exist. */
  lemma {:induction false} LocalReaches(local: L.LocalState, a: L.Arrivals, own: B.Arrivals, n: nat)
    requires LocalMid(local, a, own, local.slots.next)
    requires forall s :: 0 <= s < n ==> L.Complete(a, s)
    requires forall s :: s in a.slots ==> s < n
    ensures local.slots.next == n
  {
    var k := local.slots.next;
    assert k > 0 ==> L.Complete(a, k - 1);
  }

  lemma {:induction false} LogReaches(b: B.BatchState, a: B.Arrivals, factor: nat, emitted: seq<Batch>, n: nat)
    requires LogMid(b, a, factor, emitted) && b.ready == []
    requires forall s :: 0 <= s < n ==> B.Complete(a, factor, s)
    requires forall s :: s in a.slots ==> s < n
    ensures |emitted| == n
  {
    var k := b.slots.next;
    assert k > 0 ==> B.Complete(a, factor, k - 1);
  }

  lemma {:induction false} CompleteInOrder(a: L.Arrivals, ord: seq<Machine>, leader: Machine, m: Machine,
                                           own: B.Arrivals, slot: nat)
    requires SlotsAgree(a.slots, ord, leader) && IdsKnown(m, a.ids, own) && slot < |ord| && ord[slot].region == m.region
    requires forall s :: 0 <= s <= slot ==> s in a.slots
    requires Common(ord, slot) in own.data
    ensures L.Complete(a, slot)
  {
    RankAgrees(a.slots, ord, leader, slot, ord[slot]);
  }

  /** What `InvParts` says of the logs of a machine, and no more. */
  lemma {:induction false} LocalParts(d: Deployment, c: Cluster, m: Machine)
    requires Inv(d, c) && IsMachine(d, m)
    ensures m in c.logs && m in c.seen
    ensures LocalMid(c.logs[m].local, c.seen[m].local, SeenOf(c.seen[m].logs, m.region), c.logs[m].local.slots.next)
    ensures SlotsAgree(c.seen[m].local.slots, OrderOf(c, m.region), LeaderAt(m.region))
    ensures IdsKnown(m, c.seen[m].local.ids, SeenOf(c.seen[m].logs, m.region))
  {
    InvParts(d, c, m);
    NodeParts(d, m, c.logs[m], c.seen[m], m.region);
  }

  lemma {:induction false} LogParts(d: Deployment, c: Cluster, m: Machine, h: nat)
    requires Inv(d, c) && IsMachine(d, m)
    ensures m in c.logs && m in c.seen && LogOf(c.logs[m].logs, h).ready == []
    ensures LogMid(LogOf(c.logs[m].logs, h), SeenOf(c.seen[m].logs, h), FactorOf(d, m, h), Emitted(c, m, h))
    ensures forall s :: s in SeenOf(c.seen[m].logs, h).slots ==>
              s < |OrderOf(c, h)| && SeenOf(c.seen[m].logs, h).slots[s] == Common(OrderOf(c, h), s)
  {
    InvParts(d, c, m);
    NodeParts(d, m, c.logs[m], c.seen[m], h);
    forall s | s in SeenOf(c.seen[m].logs, h).slots
      ensures s < |OrderOf(c, h)| && SeenOf(c.seen[m].logs, h).slots[s] == Common(OrderOf(c, h), s)
    {
      SlotIsCommon(d, View(c), m, c.logs[m], c.seen[m], h, s);
    }
  }

  lemma {:induction false} RestLocalSlot(d: Deployment, c: Cluster, m: Machine, slot: nat)
    requires Inv(d, c) && AtRest(c) && IsMachine(d, m) && slot < |OrderOf(c, m.region)|
    requires !LostAt(d, c, m.region)
    ensures m in c.seen && slot in c.seen[m].local.slots
  {
    RestHeard(d, c, m, slot);
    DueIsHere(d, c, m, LocalItem(m.region, slot));
  }

  lemma {:induction false} RestPairs(d: Deployment, c: Cluster, m: Machine, slot: nat)
    requires Inv(d, c) && AtRest(c) && IsMachine(d, m) && slot < |OrderOf(c, m.region)|
    requires !LostAt(d, c, m.region)
    ensures m in c.seen && L.Complete(c.seen[m].local, slot)
  {
    LocalParts(d, c, m);
    forall s | 0 <= s <= slot ensures s in c.seen[m].local.slots {
      RestLocalSlot(d, c, m, s);
    }
    OrdNamesMachines(d, c, m.region, slot);
    RestData(d, c, m, m.region, slot);
    CompleteInOrder(c.seen[m].local, OrderOf(c, m.region), LeaderAt(m.region), m, SeenOf(c.seen[m].logs, m.region), slot);
  }

  /** Every machine has paired every slot of its region. */
  lemma {:induction false} RestLocal(d: Deployment, c: Cluster, m: Machine)
    requires Inv(d, c) && AtRest(c) && IsMachine(d, m)
    requires !LostAt(d, c, m.region)
    ensures m in c.logs && c.logs[m].local.slots.next == |OrderOf(c, m.region)|
  {
    LocalParts(d, c, m);
    forall slot | 0 <= slot < |OrderOf(c, m.region)| ensures L.Complete(c.seen[m].local, slot) {
      RestPairs(d, c, m, slot);
    }
    LocalReaches(c.logs[m].local, c.seen[m].local, SeenOf(c.seen[m].logs, m.region), |OrderOf(c, m.region)|);
  }

  lemma {:induction false} SentOf(c: Cluster, h: nat)
    requires h < |c.groups| && LeaderAt(h) in c.logs
    ensures |View(c).sent| == |c.groups| && View(c).sent[h] == c.logs[LeaderAt(h)].local.slots.next
  {
  }

  /** The leader has sent everything. */
  lemma {:induction false} RestSent(d: Deployment, c: Cluster, h: nat)
    requires Inv(d, c) && AtRest(c) && h < Regions(d)
    requires !LostAt(d, c, h)
    ensures |View(c).sent| == Regions(d) && View(c).sent[h] == |OrderOf(c, h)|
  {
    var leader := LeaderAt(h);
    assert IsMachine(d, leader);
    RestLocal(d, c, leader);
    SentOf(c, h);
  }

  lemma {:induction false} DueSlot(d: Deployment, w: World, load: Load, m: Machine, h: nat, slot: nat)
    requires Valid(d) && Shaped(d, w) && Tokens(d, w, load) && IsMachine(d, m) && h < Regions(d) && h != m.region
    requires slot < w.sent[h] && load(RemoteItem(h, slot), m) == 0
    ensures slot in SeenOf(w.seen[m].logs, h).slots
  {
    DueHas(d, w, load, m, RemoteItem(h, slot));
  }

  lemma {:induction false} RemoteParts(d: Deployment, c: Cluster, m: Machine, h: nat)
    requires Inv(d, c) && IsMachine(d, m) && h < Regions(d) && h != m.region
    ensures m in c.seen && RemoteLogOk(View(c).ords, h, SeenOf(c.seen[m].logs, h))
    ensures |View(c).ords| == Regions(d) && View(c).ords[h] == OrderOf(c, h)
  {
    InvParts(d, c, m);
  }

  /** Every machine has the order of every slot of another region. */
  lemma {:induction false} RestRemoteSlot(d: Deployment, c: Cluster, m: Machine, h: nat, slot: nat)
    requires Inv(d, c) && AtRest(c) && IsMachine(d, m) && h < Regions(d) && h != m.region && slot < |OrderOf(c, h)|
    requires !LostAt(d, c, h)
    ensures m in c.seen && slot in SeenOf(c.seen[m].logs, h).slots
    ensures SeenOf(c.seen[m].logs, h).slots[slot] == Common(OrderOf(c, h), slot)
    ensures SeenOf(c.seen[m].logs, h).acks == multiset{}
  {
    RestSent(d, c, h);
    InvTokens(d, c, m);
    NothingOnTheWay(d, RemoteItem(h, slot), m);
    DueSlot(d, View(c), LoadOf(d, []), m, h, slot);
    RemoteParts(d, c, m, h);
  }

  lemma {:induction false} RestRemote(d: Deployment, c: Cluster, m: Machine, h: nat)
    requires Inv(d, c) && AtRest(c) && IsMachine(d, m) && h < Regions(d) && h != m.region
    requires !LostAt(d, c, h)
    ensures |Emitted(c, m, h)| == |OrderOf(c, h)|
  {
    LogParts(d, c, m, h);
    var a := SeenOf(c.seen[m].logs, h);
    forall slot | 0 <= slot < |OrderOf(c, h)| ensures B.Complete(a, 0, slot) {
      RestRemoteSlot(d, c, m, h, slot);
      RestData(d, c, m, h, slot);
    }
    LogReaches(LogOf(c.logs[m].logs, h), a, 0, Emitted(c, m, h), |OrderOf(c, h)|);
  }

  lemma {:induction false} RestAckedBy(d: Deployment, c: Cluster, m: Machine, slot: nat, g: nat)
    requires Inv(d, c) && AtRest(c) && IsMachine(d, m) && slot < |OrderOf(c, m.region)| && g in Needed(d, m.region)
    requires !LostAt(d, c, m.region)
    ensures m in c.seen && g in Ackers(c.seen[m].acked, Common(OrderOf(c, m.region), slot))
  {
    var h := m.region;
    var e, id := Entry(d, h, g), Common(OrderOf(c, h), slot);
    NeededBounded(d, h);
    EntryIsMachine(d, h, g);
    RestRemoteSlot(d, c, e, h, slot);
    InvParts(d, c, e);
    NodeInverted(d, e, c.logs[e], c.seen[e]);
    assert B.Mutual(SeenOf(c.seen[e].logs, h).slots, SeenOf(c.seen[e].logs, h).slotOf);
    InvParts(d, c, m);
    DueIsHere(d, c, m, AckItem(h, id, g));
  }

  lemma {:induction false} AckParts(d: Deployment, c: Cluster, m: Machine, id: BatchId)
    requires Inv(d, c) && IsMachine(d, m)
    ensures m in c.seen && Ackers(c.seen[m].acked, id) <= Needed(d, m.region)
    ensures SeenOf(c.seen[m].logs, m.region).acks[id] == |Ackers(c.seen[m].acked, id)|
  {
    InvParts(d, c, m);
    NodeParts(d, m, c.logs[m], c.seen[m], m.region);
  }

  lemma {:induction false} RestAckers(d: Deployment, c: Cluster, m: Machine, slot: nat)
    requires Inv(d, c) && AtRest(c) && IsMachine(d, m) && slot < |OrderOf(c, m.region)|
    requires !LostAt(d, c, m.region)
    ensures m in c.seen
    ensures forall g :: g in Needed(d, m.region) ==> g in Ackers(c.seen[m].acked, Common(OrderOf(c, m.region), slot))
  {
    InvTokens(d, c, m);
    forall g | g in Needed(d, m.region)
      ensures g in Ackers(c.seen[m].acked, Common(OrderOf(c, m.region), slot))
    {
      RestAckedBy(d, c, m, slot, g);
    }
  }

  lemma {:induction false} SameSize(a: set<nat>, b: set<nat>)
    requires a <= b && forall x :: x in b ==> x in a
    ensures |a| == |b|
  {
    assert a == b;
  }

  /** Every acknowledgement that will ever come has come. */
  lemma {:induction false} RestAcked(d: Deployment, c: Cluster, m: Machine, slot: nat)
    requires Inv(d, c) && AtRest(c) && IsMachine(d, m) && slot < |OrderOf(c, m.region)|
    requires !LostAt(d, c, m.region)
    ensures m in c.seen
    ensures SeenOf(c.seen[m].logs, m.region).acks[Common(OrderOf(c, m.region), slot)] == |Needed(d, m.region)|
  {
    var id := Common(OrderOf(c, m.region), slot);
    AckParts(d, c, m, id);
    RestAckers(d, c, m, slot);
    SameSize(Ackers(c.seen[m].acked, id), Needed(d, m.region));
  }

  lemma {:induction false} RestOwnSlot(d: Deployment, c: Cluster, m: Machine, slot: nat)
    requires Inv(d, c) && AtRest(c) && IsMachine(d, m) && slot < |OrderOf(c, m.region)|
    requires !LostAt(d, c, m.region)
    ensures m in c.seen && slot in SeenOf(c.seen[m].logs, m.region).slots
    ensures SeenOf(c.seen[m].logs, m.region).slots[slot] == Common(OrderOf(c, m.region), slot)
    ensures B.Complete(SeenOf(c.seen[m].logs, m.region), d.factor - 1, slot) <==> |Needed(d, m.region)| == d.factor - 1
  {
    var h := m.region;
    InvParts(d, c, m);
    NodeParts(d, m, c.logs[m], c.seen[m], h);
    RestLocal(d, c, m);
    SlotIsCommon(d, View(c), m, c.logs[m], c.seen[m], h, slot);
    RestData(d, c, m, h, slot);
    RestAcked(d, c, m, slot);
  }

  lemma {:induction false} RestOwn(d: Deployment, c: Cluster, m: Machine)
    requires Inv(d, c) && AtRest(c) && IsMachine(d, m)
    requires !LostAt(d, c, m.region)
    ensures |Emitted(c, m, m.region)| ==
            if |Needed(d, m.region)| == d.factor - 1 then |OrderOf(c, m.region)| else 0
  {
    var h, n, factor := m.region, |OrderOf(c, m.region)|, d.factor - 1;
    LogParts(d, c, m, h);
    var a, b := SeenOf(c.seen[m].logs, h), LogOf(c.logs[m].logs, h);
    if |Needed(d, h)| == factor {
      forall slot | 0 <= slot < n ensures B.Complete(a, factor, slot) {
        RestOwnSlot(d, c, m, slot);
      }
      LogReaches(b, a, factor, Emitted(c, m, h), n);
    } else {
      if n > 0 {
        RestOwnSlot(d, c, m, 0);
      }
      LogStuck(b, a, factor, Emitted(c, m, h));
    }
  }

  /** Every batch generated is in the log of its region. */
  lemma {:induction false} RestHolds(d: Deployment, c: Cluster, g: Machine, position: nat)
    requires Inv(d, c) && AtRest(c) && IsMachine(d, g)
    requires g in c.made && position < |c.made[g]|
    ensures BatchId(position + 1, g) in CommonLog(OrderOf(c, g.region))
  {
    var ord := OrderOf(c, g.region);
    RestRank(d, c, g);
    RankIsLogged(ord, g, position);
  }

  lemma {:induction false} RankIsLogged(ord: seq<Machine>, g: Machine, r: nat)
    requires r < RankIn(ord, |ord|, g)
    ensures BatchId(r + 1, g) in CommonLog(ord)
  {
    var s := SlotWithRank(ord, |ord|, g, r);
    assert CommonLog(ord)[s] == BatchId(r + 1, g);
  }

  lemma {:induction false} SlotWithRank(ord: seq<Machine>, n: nat, g: Machine, r: nat) returns (s: nat)
    requires n <= |ord| && r < RankIn(ord, n, g)
    ensures s < n && ord[s] == g && RankIn(ord, s, g) == r
  {
    if ord[n - 1] == g && RankIn(ord, n - 1, g) == r {
      s := n - 1;
    } else {
      s := SlotWithRank(ord, n - 1, g, r);
    }
  }

  /** At rest, the log of each region holds every batch its machines generated. */
  lemma {:induction false} RestHoldsAll(d: Deployment, steps: seq<Step>, states: seq<Cluster>, i: nat, g: Machine,
                                        position: nat)
    requires Run(d, steps, states) && i < |states| && AtRest(states[i]) && IsMachine(d, g)
    requires g in states[i].made && position < |states[i].made[g]|
    ensures BatchId(position + 1, g) in CommonLog(OrderOf(states[i], g.region))
  {
    RunInv(d, steps, states, i);
    RestHolds(d, states[i], g, position);
  }

  /**
    At rest, whatever the order of deliveries, every machine of another region has handed out the
    whole log of a region; and the machines of the region itself have handed all of it out if and
    only if the first factor - 1 entries of its replication order exist and are distinct, otherwise
    nothing.  The one exception is a region whose Paxos leader forgot slot 0 too early: nobody has
    handed out anything of its log.
  */
  lemma {:induction false} RestIsComplete(d: Deployment, steps: seq<Step>, states: seq<Cluster>, i: nat, m: Machine,
                                          h: nat)
    requires Run(d, steps, states) && i < |states| && AtRest(states[i]) && IsMachine(d, m) && h < Regions(d)
    ensures |Emitted(states[i], m, h)| ==
            if Forgot(d, steps, states, i, h) then 0
            else if h != m.region || EnoughNamed(d, h) then |OrderOf(states[i], h)| else 0
    ensures Forgot(d, steps, states, i, h) ==> OrderOf(states[i], h) != []
  {
    RunInv(d, steps, states, i);
    LostIsForgotten(d, steps, states, i, h);
    if LostAt(d, states[i], h) {
      LostIsSilent(d, states[i], m, h);
    } else if h == m.region {
      NeededEnough(d, h);
      RestOwn(d, states[i], m);
    } else {
      RestRemote(d, states[i], m, h);
    }
  }

  /** Over first-in-first-out links there is no exception. */
  lemma {:induction false} RestInOrder(d: Deployment, steps: seq<Step>, states: seq<Cluster>, i: nat, m: Machine,
                                       h: nat)
    requires Run(d, steps, states) && InOrder(steps) && i < |states| && AtRest(states[i])
    requires IsMachine(d, m) && h < Regions(d)
    ensures |Emitted(states[i], m, h)| ==
            if h != m.region || EnoughNamed(d, h) then |OrderOf(states[i], h)| else 0
  {
    RestIsComplete(d, steps, states, i, m, h);
    InOrderNeverForgot(d, steps, states, i, h);
  }
}
