/**
  What the ordering pipeline promises, in every run of the cluster: no handler throws, every
  machine hands out a prefix of one sequence per home region, and a home region hands a batch out
  only when the regions it asked have the order.
*/
module ClusterLogs {
  import opened Topology
  import opened Counting
  import opened Deployments
  import opened LogManagers
  import opened LogNodes
  import opened RegionOrders
  import opened Exchange
  import opened Clusters
  import opened ClusterInvariant
  import P = PaxosSystem
  import PaxosRest
  import L = LocalLogs
  import B = BatchLogs

  /** The order of region `h` decided so far. */
  ghost function OrderOf(c: Cluster, h: nat): seq<Machine> {
    if h < |c.groups| then OrdOf(c.groups[h].hist) else []
  }

  function Ids(batches: seq<Batch>): seq<BatchId> {
    seq(|batches|, s requires 0 <= s < |batches| => batches[s].id)
  }

  /** What machine `m` has handed out of the log of region `h`. */
  function Emitted(c: Cluster, m: Machine, h: nat): seq<Batch> {
    if m in c.logs then EmittedOf(c.logs[m].emitted, h) else []
  }

  /** The share that machine `m` has of the batch `id`. */
  ghost predicate IsShare(made: map<Machine, seq<seq<Batch>>>, m: Machine, id: BatchId, batch: Batch) {
    && id.machine in made && 1 <= id.counter <= |made[id.machine]|
    && m.partition < |made[id.machine][id.counter - 1]|
    && batch == made[id.machine][id.counter - 1][m.partition] && batch.id == id
  }

  /* ---------- One state ---------- */

  lemma {:induction false} OwnSlotIsCommon(own: B.Arrivals, a: L.Arrivals, n: nat, ord: seq<Machine>, leader: Machine,
                                           s: nat)
    requires OwnSlots(own, a, n) && IdsOk(a) && SlotsAgree(a.slots, ord, leader) && s in own.slots
    ensures s < |ord| && own.slots[s] == Common(ord, s)
  {
    forall t | 0 <= t < s ensures t in a.slots {
      assert L.Complete(a, t);
    }
    assert L.Complete(a, s);
    PairedIsCommon(a, ord, leader, s);
  }

  /** Every slot a machine knows, of any home region, holds the batch of the region's order. */
  lemma {:induction false} SlotIsCommon(d: Deployment, w: World, m: Machine, st: LogState, s: Seen, h: nat, slot: nat)
    requires Valid(d) && Shaped(d, w) && IsMachine(d, m) && SeenOk(d, w, m, s)
    requires LocalMid(st.local, s.local, SeenOf(s.logs, m.region), st.local.slots.next)
    requires slot in SeenOf(s.logs, h).slots
    ensures h < |w.ords| && slot < |w.ords[h]| && SeenOf(s.logs, h).slots[slot] == Common(w.ords[h], slot)
  {
    if h == m.region {
      OwnSlotIsCommon(SeenOf(s.logs, h), s.local, st.local.slots.next, w.ords[h], LeaderAt(h), slot);
    } else {
      assert RemoteLogOk(w.ords, h, SeenOf(s.logs, h));
    }
  }

  lemma {:induction false} DataIsShare(d: Deployment, made: map<Machine, seq<seq<Batch>>>, m: Machine,
                                       logs: map<nat, B.Arrivals>, h: nat, id: BatchId)
    requires MadeOk(d, made) && DataOk(d, made, m, logs) && id in SeenOf(logs, h).data
    ensures IsShare(made, m, id, SeenOf(logs, h).data[id])
  {
    assert ShareOk(d, made, m, SeenOf(logs, h).data[id], id);
    assert SharesOf(d, made[id.machine][id.counter - 1], BatchId((id.counter - 1) + 1, id.machine));
  }

  lemma {:induction false} NodeParts(d: Deployment, m: Machine, st: LogState, s: Seen, h: nat)
    requires Valid(d) && NodeOk(d, m, st, s)
    ensures LocalMid(st.local, s.local, SeenOf(s.logs, m.region), st.local.slots.next)
    ensures LogMid(LogOf(st.logs, h), SeenOf(s.logs, h), FactorOf(d, m, h), EmittedOf(st.emitted, h))
    ensures LogOf(st.logs, h).ready == [] && AcksMatch(SeenOf(s.logs, m.region), s.acked)
  {
    assert LogMid(LogOf(st.logs, h), SeenOf(s.logs, h), FactorOf(d, m, h), EmittedOf(st.emitted, h));
  }

  lemma {:induction false} EmittedSlot(d: Deployment, w: World, m: Machine, st: LogState, s: Seen, h: nat, slot: nat)
    requires Valid(d) && Shaped(d, w) && IsMachine(d, m) && SeenOk(d, w, m, s) && MadeOk(d, w.made)
    requires NodeOk(d, m, st, s) && slot < |EmittedOf(st.emitted, h)|
    ensures h < |w.ords| && slot < |w.ords[h]|
    ensures IsShare(w.made, m, Common(w.ords[h], slot), EmittedOf(st.emitted, h)[slot])
  {
    NodeParts(d, m, st, s, h);
    SlotIsCommon(d, w, m, st, s, h, slot);
    DataIsShare(d, w.made, m, s.logs, h, SeenOf(s.logs, h).slots[slot]);
  }

  lemma {:induction false} InvParts(d: Deployment, c: Cluster, m: Machine)
    requires Inv(d, c) && IsMachine(d, m)
    ensures m in c.logs && m in c.seen && Valid(d) && Shaped(d, View(c)) && MadeOk(d, c.made)
    ensures SeenOk(d, View(c), m, c.seen[m]) && NodeOk(d, m, c.logs[m], c.seen[m])
    ensures Tokens(d, View(c), LoadOf(d, c.net))
  {
    assert SeenOk(d, View(c), m, View(c).seen[m]);
    assert NodeOk(d, m, c.logs[m], c.seen[m]);
  }

  /** Batch `slot` is that of the order, as the share of `m`. */
  ghost predicate FollowsAt(made: map<Machine, seq<seq<Batch>>>, m: Machine, ord: seq<Machine>, batches: seq<Batch>, slot: nat)
    requires slot < |batches|
  {
    slot < |ord| && IsShare(made, m, Common(ord, slot), batches[slot])
  }

  /** The batches are those of the order, from its start, each as the share of `m`. */
  ghost predicate Follows(made: map<Machine, seq<seq<Batch>>>, m: Machine, ord: seq<Machine>, batches: seq<Batch>) {
    forall s: nat {:trigger FollowsAt(made, m, ord, batches, s)} :: s < |batches| ==> FollowsAt(made, m, ord, batches, s)
  }

  /** What a machine has handed out is, slot by slot, its share of the batches of the region's order. */
  lemma {:induction false} StateEmits(d: Deployment, c: Cluster, m: Machine, h: nat, slot: nat)
    requires Inv(d, c) && slot < |Emitted(c, m, h)|
    ensures FollowsAt(c.made, m, OrderOf(c, h), Emitted(c, m, h), slot)
  {
    InvParts(d, c, m);
    EmittedSlot(d, View(c), m, c.logs[m], c.seen[m], h, slot);
  }

  lemma {:induction false} StateFollows(d: Deployment, c: Cluster, m: Machine, h: nat)
    requires Inv(d, c)
    ensures Follows(c.made, m, OrderOf(c, h), Emitted(c, m, h))
  {
    forall s: nat | s < |Emitted(c, m, h)| ensures FollowsAt(c.made, m, OrderOf(c, h), Emitted(c, m, h), s) {
      StateEmits(d, c, m, h, s);
    }
  }

  /* ---------- Orders only grow ---------- */

  lemma {:induction false} GenerateOrder(d: Deployment, c: Cluster, at: Machine, contents: seq<seq<Txn>>, h: nat)
    requires Valid(d) && GroupsOk(d, c.groups)
    requires IsMachine(d, at) && |contents| == d.partitions && at in c.made
    ensures OrderOf(c, h) == OrderOf(Generated(d, c, at, contents), h)
  {
    assert PaxosRest.Reached(Group(d, at.region), c.groups[at.region]);
    GroupSubmits(d, c.groups[at.region], at);
  }

  lemma {:induction false} OrderUpdated(c: Cluster, c': Cluster, g: nat, group: P.System, h: nat)
    requires g < |c.groups| && c'.groups == c.groups[g := group] && OrdOf(c.groups[g].hist) <= OrdOf(group.hist)
    ensures OrderOf(c, h) <= OrderOf(c', h)
  {
  }

  lemma {:induction false} ConsensusOrder(d: Deployment, c: Cluster, g: nat, link: P.Link, i: nat, h: nat)
    requires Valid(d) && GroupsOk(d, c.groups) && Enabled(d, c, Consensus(g, link, i))
    ensures OrderOf(c, h) <= OrderOf(Decided(d, c, g, link, i), h)
  {
    assert PaxosRest.Reached(Group(d, g), c.groups[g]);
    GroupDelivers(d, g, c.groups[g], P.Delivered(Group(d, g), c.groups[g], link, i), link, i,
                  Reported(Group(d, g), c.groups[g], link, i));
    OrderUpdated(c, Decided(d, c, g, link, i), g, P.Delivered(Group(d, g), c.groups[g], link, i), h);
  }

  lemma {:induction false} StepOrder(d: Deployment, c: Cluster, c': Cluster, step: Step, h: nat)
    requires Valid(d) && GroupsOk(d, c.groups) && Enabled(d, c, step) && Next(d, c, step) == Success(c')
    ensures OrderOf(c, h) <= OrderOf(c', h)
  {
    match step
    case Generate(at, contents) => GenerateOrder(d, c, at, contents, h);
    case Consensus(g, link, i) => ConsensusOrder(d, c, g, link, i, h);
    case Receive(_) =>
  }

  lemma {:induction false} InvGroups(d: Deployment, c: Cluster)
    requires Inv(d, c)
    ensures Valid(d) && GroupsOk(d, c.groups)
  {
  }

  lemma {:induction false} RunStepOrder(d: Deployment, steps: seq<Step>, states: seq<Cluster>, i: nat, h: nat)
    requires Run(d, steps, states) && i < |steps|
    ensures OrderOf(states[i], h) <= OrderOf(states[i + 1], h)
  {
    RunGroups(d, steps, states, i);
    StepOrder(d, states[i], states[i + 1], steps[i], h);
  }

  lemma {:induction false} RunGroups(d: Deployment, steps: seq<Step>, states: seq<Cluster>, i: nat)
    requires Run(d, steps, states) && i < |states|
    ensures GroupsOk(d, states[i].groups)
  {
    RunInv(d, steps, states, i);
    InvGroups(d, states[i]);
  }

  lemma {:induction false} RunOrder(d: Deployment, steps: seq<Step>, states: seq<Cluster>, i: nat, j: nat, h: nat)
    requires Run(d, steps, states) && i <= j < |states|
    ensures OrderOf(states[i], h) <= OrderOf(states[j], h)
  {
    var ords := seq(|states|, k requires 0 <= k < |states| => OrderOf(states[k], h));
    forall k | 0 <= k < |ords| - 1 ensures ords[k] <= ords[k + 1] {
      RunStepOrder(d, steps, states, k, h);
    }
    PrefixChain(ords, i, j);
  }

  lemma {:induction false} RunFollows(d: Deployment, steps: seq<Step>, states: seq<Cluster>, i: nat, m: Machine, h: nat)
    requires Run(d, steps, states) && i < |states|
    ensures Follows(states[i].made, m, OrderOf(states[i], h), Emitted(states[i], m, h))
  {
    RunInv(d, steps, states, i);
    StateFollows(d, states[i], m, h);
  }

  /* ---------- Main results ---------- */

  /** No handler call of any run throws: whatever step is possible succeeds. */
  lemma {:induction false} NeverThrows(d: Deployment, steps: seq<Step>, states: seq<Cluster>, i: nat, step: Step)
    requires Run(d, steps, states) && i < |states| && Enabled(d, states[i], step)
    ensures Next(d, states[i], step).Success?
  {
    RunInv(d, steps, states, i);
    InvStep(d, states[i], step);
  }

  /**
    One log per home region: at any time, what any machine has handed out for a home region is a
    prefix of the sequence of batches that the region's order gives, then and ever after; and each
    batch is handed out as the machine's own share of it.
  */
  lemma {:induction false} EmitsCommonPrefix(d: Deployment, steps: seq<Step>, states: seq<Cluster>, i: nat, j: nat,
                                             m: Machine, h: nat)
    requires Run(d, steps, states) && i <= j < |states|
    ensures Ids(Emitted(states[i], m, h)) <= CommonLog(OrderOf(states[j], h))
    ensures Follows(states[i].made, m, OrderOf(states[i], h), Emitted(states[i], m, h))
  {
    RunFollows(d, steps, states, i, m, h);
    RunOrder(d, steps, states, i, j, h);
    FollowsPrefix(states[i].made, m, OrderOf(states[i], h), OrderOf(states[j], h), Emitted(states[i], m, h));
  }

  lemma {:induction false} FollowsPrefix(made: map<Machine, seq<seq<Batch>>>, m: Machine, ord: seq<Machine>,
                                         ord': seq<Machine>, batches: seq<Batch>)
    requires Follows(made, m, ord, batches) && ord <= ord'
    ensures Ids(batches) <= CommonLog(ord')
  {
    assert batches != [] ==> FollowsAt(made, m, ord, batches, |batches| - 1);
    forall s: nat | s < |batches| ensures Ids(batches)[s] == CommonLog(ord')[s] {
      assert FollowsAt(made, m, ord, batches, s);
      CommonPrefix(ord, ord', s);
    }
  }

  /** Two machines never differ in what they hand out. */
  lemma {:induction false} EmitAlike(d: Deployment, steps: seq<Step>, states: seq<Cluster>, i: nat, j: nat,
                                     x: Machine, y: Machine, h: nat)
    requires Run(d, steps, states) && i < |states| && j < |states|
    ensures var a, b := Ids(Emitted(states[i], x, h)), Ids(Emitted(states[j], y, h));
            a <= b || b <= a
  {
    var k := if i <= j then j else i;
    EmitsCommonPrefix(d, steps, states, i, k, x, h);
    EmitsCommonPrefix(d, steps, states, j, k, y, h);
    var log := CommonLog(OrderOf(states[k], h));
    var a, b := Ids(Emitted(states[i], x, h)), Ids(Emitted(states[j], y, h));
    assert a == log[..|a|] && b == log[..|b|];
  }
}
