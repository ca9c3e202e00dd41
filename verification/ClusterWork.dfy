/**
  The work caused by one batch is bounded, so a cluster in which no more batches are generated
  comes to rest.

  Paxos deliveries are bounded by `PaxosWork`.  For packets the conservation law does it: each one
  received brings its machine an item that the machine did not have, and there are only so many
  items to a batch.
*/
module ClusterWork {
  import opened Topology
  import opened Counting
  import opened Deployments
  import opened Fanout
  import opened LogManagers
  import opened LogNodes
  import opened RegionOrders
  import opened Exchange
  import opened Receptions
  import opened Clusters
  import opened ClusterInvariant
  import opened ClusterLogs
  import opened ClusterForgets
  import P = PaxosSystem
  import PaxosQueues
  import PaxosRest
  import PaxosSafety
  import PaxosWork
  import B = BatchLogs

  /* ---------- Steps of each kind ---------- */

  function Generates(steps: seq<Step>): seq<bool> {
    seq(|steps|, k requires 0 <= k < |steps| => steps[k].Generate?)
  }

  function GeneratesIn(steps: seq<Step>, g: nat): seq<bool> {
    seq(|steps|, k requires 0 <= k < |steps| => steps[k].Generate? && steps[k].at.region == g)
  }

  function DeliversIn(steps: seq<Step>, g: nat): seq<bool> {
    seq(|steps|, k requires 0 <= k < |steps| => steps[k].Consensus? && steps[k].region == g)
  }

  function Receives(steps: seq<Step>): seq<bool> {
    seq(|steps|, k requires 0 <= k < |steps| => steps[k].Receive?)
  }

  /* ---------- Paxos deliveries ---------- */

  ghost function PendingIn(d: Deployment, c: Cluster, g: nat): nat
    requires Valid(d) && g < Regions(d)
  {
    GroupValid(d, g);
    if g < |c.groups| then PaxosWork.Pending(Group(d, g), c.groups[g]) else 0
  }

  lemma {:induction false} StepPending(d: Deployment, c: Cluster, c': Cluster, step: Step, g: nat)
    requires Valid(d) && GroupsOk(d, c.groups) && Enabled(d, c, step) && Next(d, c, step) == Success(c') && g < Regions(d)
    ensures PendingIn(d, c', g) + (if step.Consensus? && step.region == g then 1 else 0) <=
            PendingIn(d, c, g) + if step.Generate? && step.at.region == g then PaxosWork.ProposalCost(Group(d, g)) else 0
  {
    var moves, move := GroupStep(d, c, c', step, g);
    if moves {
      assert PaxosRest.Reached(Group(d, g), c.groups[g]);
      PaxosWork.ReachedStep(Group(d, g), c.groups[g], c'.groups[g], move);
    }
  }

  lemma {:induction false} RunPending(d: Deployment, steps: seq<Step>, states: seq<Cluster>, k: nat, g: nat)
    requires Run(d, steps, states) && k < |steps| && g < Regions(d)
    ensures PendingIn(d, states[k + 1], g) + (if DeliversIn(steps, g)[k] then 1 else 0) <=
            PendingIn(d, states[k], g) + if GeneratesIn(steps, g)[k] then PaxosWork.ProposalCost(Group(d, g)) else 0
  {
    RunGroups(d, steps, states, k);
    StepPending(d, states[k], states[k + 1], steps[k], g);
  }

  ghost function Pendings(d: Deployment, states: seq<Cluster>, g: nat): (ns: seq<nat>)
    requires Valid(d) && g < Regions(d)
    ensures |ns| == |states| && forall k :: 0 <= k < |states| ==> ns[k] == PendingIn(d, states[k], g)
  {
    seq(|states|, k requires 0 <= k < |states| => PendingIn(d, states[k], g))
  }

  lemma {:induction false} StartPending(d: Deployment, g: nat)
    requires Valid(d) && g < Regions(d)
    ensures PendingIn(d, Start(d), g) == 0
  {
    GroupValid(d, g);
    PaxosWork.StartPending(Group(d, g));
  }

  /* ---------- Items ---------- */

  /** The batches generated. */
  function DataItems(made: map<Machine, seq<seq<Batch>>>): set<Item> {
    set g, p | g in made && p in Below(|made[g]|) :: DataItem(g, p)
  }

  /** The proposals of all regions; a region never has more slots than proposals. */
  function Slots(groups: seq<P.System>): set<(nat, nat)> {
    set h, t | h in Below(|groups|) && t in Below(|groups[h].hist.tickets|) :: (h, t)
  }

  /** The batch in slot `x.1` of region `x.0`, if there is one. */
  function IdAt(ords: seq<seq<Machine>>, x: (nat, nat)): BatchId {
    if x.0 < |ords| && x.1 < |ords[x.0]| then Common(ords[x.0], x.1) else BatchId(0, LeaderAt(x.0))
  }

  function LocalItems(slots: set<(nat, nat)>): set<Item> {
    set x | x in slots :: LocalItem(x.0, x.1)
  }

  function RemoteItems(slots: set<(nat, nat)>): set<Item> {
    set x | x in slots :: RemoteItem(x.0, x.1)
  }

  function AckItems(ords: seq<seq<Machine>>, slots: set<(nat, nat)>, n: nat): set<Item> {
    set x | x in Pairs(slots, Below(n)) :: AckItem(x.0.0, IdAt(ords, x.0), x.1)
  }

  /** Everything there is to receive. */
  function Items(made: map<Machine, seq<seq<Batch>>>, ords: seq<seq<Machine>>, slots: set<(nat, nat)>, n: nat): set<Item> {
    DataItems(made) + LocalItems(slots) + RemoteItems(slots) + AckItems(ords, slots, n)
  }

  lemma {:induction false} LocalFew(slots: set<(nat, nat)>)
    ensures |LocalItems(slots)| <= |slots|
  {
    var f := (x: (nat, nat)) => LocalItem(x.0, x.1);
    ImageAtMost(slots, f);
    assert LocalItems(slots) == Image(slots, f);
  }

  lemma {:induction false} RemoteFew(slots: set<(nat, nat)>)
    ensures |RemoteItems(slots)| <= |slots|
  {
    var f := (x: (nat, nat)) => RemoteItem(x.0, x.1);
    ImageAtMost(slots, f);
    assert RemoteItems(slots) == Image(slots, f);
  }

  lemma {:induction false} AckFew(ords: seq<seq<Machine>>, slots: set<(nat, nat)>, n: nat)
    ensures |AckItems(ords, slots, n)| <= |slots| * n
  {
    var f := (x: ((nat, nat), nat)) => AckItem(x.0.0, IdAt(ords, x.0), x.1);
    ImageAtMost(Pairs(slots, Below(n)), f);
    PairsSize(slots, Below(n));
    assert AckItems(ords, slots, n) == Image(Pairs(slots, Below(n)), f);
  }

  lemma {:induction false} UnionSize<T>(a: set<T>, b: set<T>, c: set<T>, e: set<T>)
    ensures |a + b + c + e| <= |a| + |b| + |c| + |e|
  {
  }

  lemma {:induction false} ItemsBounded(made: map<Machine, seq<seq<Batch>>>, ords: seq<seq<Machine>>,
                                        slots: set<(nat, nat)>, n: nat)
    requires |DataItems(made)| == |slots|
    ensures |Items(made, ords, slots, n)| <= |slots| * (3 + n)
  {
    LocalFew(slots);
    RemoteFew(slots);
    AckFew(ords, slots, n);
    UnionSize(DataItems(made), LocalItems(slots), RemoteItems(slots), AckItems(ords, slots, n));
    ThreeAndMore(|slots|, n);
  }

  lemma {:induction false} ThreeAndMore(n: nat, r: nat)
    ensures n + n + n + n * r == n * (3 + r)
  {
  }

  /* ---------- A batch makes one more of each ---------- */

  lemma {:induction false} DataGenerated(made: map<Machine, seq<seq<Batch>>>, at: Machine, shares: seq<Batch>)
    requires at in made
    ensures |DataItems(made[at := made[at] + [shares]])| == |DataItems(made)| + 1
  {
    var made' := made[at := made[at] + [shares]];
    assert DataItems(made') == DataItems(made) + {DataItem(at, |made[at]|)};
  }

  lemma {:induction false} SlotGenerated(groups: seq<P.System>, groups': seq<P.System>, h: nat)
    requires h < |groups| == |groups'|
    requires |groups'[h].hist.tickets| == |groups[h].hist.tickets| + 1
    requires forall g :: 0 <= g < |groups| && g != h ==> groups'[g].hist.tickets == groups[g].hist.tickets
    ensures |Slots(groups')| == |Slots(groups)| + 1
  {
    var more := Slots(groups) + {(h, |groups[h].hist.tickets|)};
    forall x | x in Slots(groups') ensures x in more {
    }
    forall x | x in more ensures x in Slots(groups') {
    }
    assert Slots(groups') == more;
  }

  lemma {:induction false} SlotsKept(groups: seq<P.System>, groups': seq<P.System>)
    requires |groups| == |groups'|
    requires forall g :: 0 <= g < |groups| ==> groups'[g].hist.tickets == groups[g].hist.tickets
    ensures Slots(groups') == Slots(groups)
  {
  }

  lemma {:induction false} StepItems(d: Deployment, c: Cluster, c': Cluster, step: Step)
    requires Valid(d) && GroupsOk(d, c.groups) && Enabled(d, c, step) && Next(d, c, step) == Success(c')
    ensures |DataItems(c'.made)| == |DataItems(c.made)| + if step.Generate? then 1 else 0
    ensures |Slots(c'.groups)| == |Slots(c.groups)| + if step.Generate? then 1 else 0
  {
    match step
    case Generate(at, contents) =>
      DataGenerated(c.made, at, Shares(BatchId(|c.made[at]| + 1, at), contents));
      SlotGenerated(c.groups, c'.groups, at.region);
    case Consensus(g, link, i) =>
      DeliverTickets(Group(d, g), c.groups[g], link, i);
      SlotsKept(c.groups, c'.groups);
    case Receive(_) =>
  }

  ghost function DataCounts(states: seq<Cluster>): (ns: seq<nat>)
    ensures |ns| == |states| && forall k :: 0 <= k < |states| ==> ns[k] == |DataItems(states[k].made)|
  {
    seq(|states|, k requires 0 <= k < |states| => |DataItems(states[k].made)|)
  }

  ghost function SlotCounts(states: seq<Cluster>): (ns: seq<nat>)
    ensures |ns| == |states| && forall k :: 0 <= k < |states| ==> ns[k] == |Slots(states[k].groups)|
  {
    seq(|states|, k requires 0 <= k < |states| => |Slots(states[k].groups)|)
  }

  lemma {:induction false} StartItems(d: Deployment)
    requires Valid(d)
    ensures DataItems(Start(d).made) == {} && Slots(Start(d).groups) == {}
  {
    var c := Start(d);
    forall g | 0 <= g < |c.groups| ensures c.groups[g].hist.tickets == [] {
      StartGroupBlank(d, g);
      assert c.groups[g] == GroupStart(d, g);
    }
  }

  lemma {:induction false} RunItems(d: Deployment, steps: seq<Step>, states: seq<Cluster>, i: nat)
    requires Run(d, steps, states) && i < |states|
    ensures |DataItems(states[i].made)| == |Slots(states[i].groups)| == Trues(Generates(steps), i)
  {
    var data, slots, grows := DataCounts(states), SlotCounts(states), Generates(steps);
    StartItems(d);
    forall k | 0 <= k < |steps|
      ensures data[k + 1] == data[k] + if grows[k] then 1 else 0
      ensures slots[k + 1] == slots[k] + if grows[k] then 1 else 0
    {
      RunGroups(d, steps, states, k);
      StepItems(d, states[k], states[k + 1], steps[k]);
    }
    Counted(data, grows, i);
    Counted(slots, grows, i);
  }

  /* ---------- What a machine has is one of them ---------- */

  lemma {:induction false} ChosenFew(b: PaxosQueues.Bag, h: P.History)
    requires PaxosSafety.PlacesOk(b, h)
    ensures |h.chosen| <= |h.tickets|
  {
    forall i, j | 0 <= i < j < |h.chosen| ensures h.chosen[i] != h.chosen[j] {
      assert h.places[h.chosen[i]] == P.InSlot(i) && h.places[h.chosen[j]] == P.InSlot(j);
    }
    DistinctSize(h.chosen);
    SubsetSize(Elements(h.chosen), Below(|h.tickets|));
  }

  lemma {:induction false} SlotIsTicket(d: Deployment, c: Cluster, h: nat, slot: nat)
    requires Valid(d) && GroupsOk(d, c.groups) && slot < |OrderOf(c, h)|
    ensures (h, slot) in Slots(c.groups)
  {
    assert PaxosRest.Reached(Group(d, h), c.groups[h]);
    PaxosRest.ReachedIsSafe(Group(d, h), c.groups[h]);
    ChosenFew(PaxosQueues.BagOf(c.groups[h].net), c.groups[h].hist);
  }

  ghost predicate Among(c: Cluster, n: nat, item: Item) {
    item in Items(c.made, View(c).ords, Slots(c.groups), n)
  }

  lemma {:induction false} HasData(d: Deployment, c: Cluster, m: Machine, g: Machine, p: nat)
    requires Inv(d, c) && IsMachine(d, m) && m in c.seen && Has(c.seen[m], m, DataItem(g, p))
    ensures Among(c, Regions(d), DataItem(g, p))
  {
    InvParts(d, c, m);
    DataListed(d, View(c), m, c.seen[m], g, p);
    DataAmong(c.made, View(c).ords, Slots(c.groups), Regions(d), DataItem(g, p));
  }

  lemma {:induction false} DataAmong(made: map<Machine, seq<seq<Batch>>>, ords: seq<seq<Machine>>,
                                     slots: set<(nat, nat)>, n: nat, item: Item)
    requires item in DataItems(made)
    ensures item in Items(made, ords, slots, n)
  {
  }

  lemma {:induction false} DataListed(d: Deployment, w: World, m: Machine, s: Seen, g: Machine, p: nat)
    requires Valid(d) && Shaped(d, w) && IsMachine(d, m) && SeenOk(d, w, m, s) && MadeOk(d, w.made)
    requires Has(s, m, DataItem(g, p))
    ensures DataItem(g, p) in DataItems(w.made)
  {
    DataIsShare(d, w.made, m, s.logs, g.region, BatchId(p + 1, g));
  }

  lemma {:induction false} HasLocal(d: Deployment, c: Cluster, m: Machine, h: nat, slot: nat)
    requires Inv(d, c) && IsMachine(d, m) && m in c.seen && Has(c.seen[m], m, LocalItem(h, slot))
    ensures Among(c, Regions(d), LocalItem(h, slot))
  {
    InvParts(d, c, m);
    InvGroups(d, c);
    SlotIsTicket(d, c, h, slot);
    var x := (h, slot);
    assert LocalItem(x.0, x.1) in LocalItems(Slots(c.groups));
  }

  lemma {:induction false} HasRemote(d: Deployment, c: Cluster, m: Machine, h: nat, slot: nat)
    requires Inv(d, c) && IsMachine(d, m) && m in c.seen && Has(c.seen[m], m, RemoteItem(h, slot))
    ensures Among(c, Regions(d), RemoteItem(h, slot))
  {
    InvParts(d, c, m);
    InvGroups(d, c);
    assert RemoteLogOk(View(c).ords, h, SeenOf(c.seen[m].logs, h));
    SlotIsTicket(d, c, h, slot);
    var x := (h, slot);
    assert RemoteItem(x.0, x.1) in RemoteItems(Slots(c.groups));
  }

  /** An acknowledged batch stands in a slot of its region's order. */
  lemma {:induction false} AckedSlot(d: Deployment, c: Cluster, h: nat, id: BatchId, g: nat) returns (slot: nat)
    requires Inv(d, c) && h < Regions(d) && Answered(d, View(c), h, id, g)
    ensures slot < |OrderOf(c, h)| && id == Common(OrderOf(c, h), slot) && g < Regions(d)
  {
    NeededBounded(d, h);
    var e := Entry(d, h, g);
    InvParts(d, c, e);
    var log := SeenOf(c.seen[e].logs, h);
    NodeInverted(d, e, c.logs[e], c.seen[e]);
    assert B.Mutual(log.slots, log.slotOf);
    slot := log.slotOf[id];
    NodeParts(d, e, c.logs[e], c.seen[e], h);
    SlotIsCommon(d, View(c), e, c.logs[e], c.seen[e], h, slot);
  }

  lemma {:induction false} AckListed(ords: seq<seq<Machine>>, slots: set<(nat, nat)>, n: nat, h: nat, slot: nat, g: nat)
    requires (h, slot) in slots && g < n && h < |ords| && slot < |ords[h]|
    ensures AckItem(h, Common(ords[h], slot), g) in AckItems(ords, slots, n)
  {
    var x := ((h, slot), g);
    assert x in Pairs(slots, Below(n));
    assert AckItem(x.0.0, IdAt(ords, x.0), x.1) in AckItems(ords, slots, n);
  }

  lemma {:induction false} HasAck(d: Deployment, c: Cluster, m: Machine, h: nat, id: BatchId, g: nat)
    requires Inv(d, c) && IsMachine(d, m) && m in c.seen && Has(c.seen[m], m, AckItem(h, id, g))
    ensures Among(c, Regions(d), AckItem(h, id, g))
  {
    InvParts(d, c, m);
    HasIsDue(d, View(c), LoadOf(d, c.net), m, AckItem(h, id, g));
    var slot := AckedSlot(d, c, h, id, g);
    InvGroups(d, c);
    SlotIsTicket(d, c, h, slot);
    AckListed(View(c).ords, Slots(c.groups), Regions(d), h, slot, g);
  }

  lemma {:induction false} HasIsAmong(d: Deployment, c: Cluster, m: Machine, item: Item)
    requires Inv(d, c) && IsMachine(d, m) && m in c.seen && Has(c.seen[m], m, item)
    ensures Among(c, Regions(d), item)
  {
    match item
    case DataItem(g, p) => HasData(d, c, m, g, p);
    case LocalItem(h, slot) => HasLocal(d, c, m, h, slot);
    case RemoteItem(h, slot) => HasRemote(d, c, m, h, slot);
    case AckItem(h, id, g) => HasAck(d, c, m, h, id, g);
  }

  /* ---------- Each packet brings something new ---------- */

  /** Who was brought what by the first `i` steps. */
  function Got(steps: seq<Step>, states: seq<Cluster>, i: nat): set<(Machine, Item)>
    requires |states| == |steps| + 1 && i <= |steps|
  {
    if i == 0 then {} else Got(steps, states, i - 1) + Brings(states[i - 1], steps[i - 1])
  }

  function Brings(c: Cluster, step: Step): set<(Machine, Item)> {
    if step.Receive? && step.index < |c.net| then {(c.net[step.index].to, ItemOf(c.net[step.index]))} else {}
  }

  ghost predicate Holds(d: Deployment, c: Cluster, got: set<(Machine, Item)>) {
    forall x :: x in got ==> IsMachine(d, x.0) && x.0 in c.seen && Has(c.seen[x.0], x.0, x.1)
  }

  lemma {:induction false} Received(d: Deployment, c: Cluster, i: nat, p: Packet)
    requires Inv(d, c) && i < |c.net| && p == c.net[i] && Handled(d, c, i).Success?
    ensures IsMachine(d, p.to) && p.to in c.seen && !Has(c.seen[p.to], p.to, ItemOf(p))
    ensures Fits(d, p) && p.to in c.logs && Absorb(d, c.logs[p.to], p).Success?
    ensures Handled(d, c, i).value.seen == c.seen[p.to := SeenAfter(d, c.logs[p.to], c.seen[p.to], p)]
  {
    assert PacketOk(d, View(c), p);
    InvParts(d, c, p.to);
    ReceivedIsNew(d, View(c), c.logs[p.to], c.net, i);
    PacketFits(d, View(c), p);
    SeenHandled(d, c, i, p);
  }

  lemma {:induction false} SeenHandled(d: Deployment, c: Cluster, i: nat, p: Packet)
    requires Valid(d) && i < |c.net| && p == c.net[i] && Handled(d, c, i).Success?
    ensures IsMachine(d, p.to) && p.to in c.logs && p.to in c.seen && Absorb(d, c.logs[p.to], p).Success?
    ensures Handled(d, c, i).value.seen == c.seen[p.to := SeenAfter(d, c.logs[p.to], c.seen[p.to], p)]
  {
  }

  lemma {:induction false} HoldsAfter(d: Deployment, c: Cluster, c': Cluster, p: Packet, got: set<(Machine, Item)>)
    requires Holds(d, c, got) && IsMachine(d, p.to) && p.to in c.seen && p.to in c.logs
    requires Fits(d, p) && Absorb(d, c.logs[p.to], p).Success?
    requires c'.seen == c.seen[p.to := SeenAfter(d, c.logs[p.to], c.seen[p.to], p)]
    ensures Holds(d, c', got + {(p.to, ItemOf(p))})
  {
    forall x | x in got + {(p.to, ItemOf(p))} ensures IsMachine(d, x.0) && x.0 in c'.seen && Has(c'.seen[x.0], x.0, x.1) {
      HasAfter(d, c.logs[p.to], c.seen[p.to], p, x.1);
    }
  }

  /** What was not there is not among what was got. */
  lemma {:induction false} NotGot(d: Deployment, c: Cluster, got: set<(Machine, Item)>, m: Machine, item: Item)
    requires Holds(d, c, got) && m in c.seen && !Has(c.seen[m], m, item)
    ensures |got + {(m, item)}| == |got| + 1
  {
    assert (m, item) !in got;
  }

  lemma {:induction false} StepHolds(d: Deployment, c: Cluster, c': Cluster, step: Step, got: set<(Machine, Item)>)
    requires Inv(d, c) && Enabled(d, c, step) && Next(d, c, step) == Success(c') && Holds(d, c, got)
    ensures Holds(d, c', got + Brings(c, step))
    ensures |got + Brings(c, step)| == |got| + if step.Receive? then 1 else 0
  {
    if step.Receive? {
      ReceiveHolds(d, c, c', step.index, c.net[step.index], got);
    } else {
      OthersBringNothing(d, c, c', step, got);
    }
  }

  lemma {:induction false} ReceiveHolds(d: Deployment, c: Cluster, c': Cluster, i: nat, p: Packet,
                                        got: set<(Machine, Item)>)
    requires Inv(d, c) && i < |c.net| && p == c.net[i] && Handled(d, c, i) == Success(c') && Holds(d, c, got)
    ensures Holds(d, c', got + {(p.to, ItemOf(p))}) && |got + {(p.to, ItemOf(p))}| == |got| + 1
  {
    Received(d, c, i, p);
    HoldsAfter(d, c, c', p, got);
    NotGot(d, c, got, p.to, ItemOf(p));
  }

  lemma {:induction false} OthersBringNothing(d: Deployment, c: Cluster, c': Cluster, step: Step,
                                              got: set<(Machine, Item)>)
    requires Valid(d) && Enabled(d, c, step) && Next(d, c, step) == Success(c') && !step.Receive? && Holds(d, c, got)
    ensures Holds(d, c', got + Brings(c, step)) && got + Brings(c, step) == got
  {
    assert c'.seen == c.seen;
    assert got + {} == got;
  }

  ghost function HoldsAt(d: Deployment, steps: seq<Step>, states: seq<Cluster>): (bs: seq<bool>)
    requires |states| == |steps| + 1
    ensures |bs| == |states| && forall k :: 0 <= k < |states| ==> bs[k] == Holds(d, states[k], Got(steps, states, k))
  {
    seq(|states|, k requires 0 <= k < |states| => Holds(d, states[k], Got(steps, states, k)))
  }

  lemma {:induction false} RunStepHolds(d: Deployment, steps: seq<Step>, states: seq<Cluster>, k: nat)
    requires Run(d, steps, states) && k < |steps| && Holds(d, states[k], Got(steps, states, k))
    ensures Holds(d, states[k + 1], Got(steps, states, k + 1))
    ensures |Got(steps, states, k + 1)| == |Got(steps, states, k)| + if steps[k].Receive? then 1 else 0
  {
    RunInv(d, steps, states, k);
    StepHolds(d, states[k], states[k + 1], steps[k], Got(steps, states, k));
  }

  lemma {:induction false} RunHolds(d: Deployment, steps: seq<Step>, states: seq<Cluster>, i: nat)
    requires Run(d, steps, states) && i < |states|
    ensures Holds(d, states[i], Got(steps, states, i))
  {
    var bs := HoldsAt(d, steps, states);
    forall k | 0 <= k < |bs| - 1 && bs[k] ensures bs[k + 1] {
      RunStepHolds(d, steps, states, k);
    }
    HoldsThroughout(bs, i);
  }

  ghost function GotCounts(steps: seq<Step>, states: seq<Cluster>): (ns: seq<nat>)
    requires |states| == |steps| + 1
    ensures |ns| == |states| && forall k :: 0 <= k < |states| ==> ns[k] == |Got(steps, states, k)|
  {
    seq(|states|, k requires 0 <= k < |states| => |Got(steps, states, k)|)
  }

  lemma {:induction false} RunGot(d: Deployment, steps: seq<Step>, states: seq<Cluster>, i: nat)
    requires Run(d, steps, states) && i < |states|
    ensures |Got(steps, states, i)| == Trues(Receives(steps), i)
  {
    var counts, grows := GotCounts(steps, states), Receives(steps);
    forall k | 0 <= k < |steps| ensures counts[k + 1] == counts[k] + if grows[k] then 1 else 0 {
      RunHolds(d, steps, states, k);
      RunStepHolds(d, steps, states, k);
    }
    Counted(counts, grows, i);
  }

  lemma {:induction false} IsAmongAll(d: Deployment, m: Machine)
    requires IsMachine(d, m)
    ensures m in AllMachines(d)
  {
    assert m in MachinesOf(d, m.region);
  }

  lemma {:induction false} GotAmong(d: Deployment, c: Cluster, got: set<(Machine, Item)>, items: set<Item>)
    requires Inv(d, c) && Holds(d, c, got) && items == Items(c.made, View(c).ords, Slots(c.groups), Regions(d))
    ensures got <= Pairs(AllMachines(d), items)
  {
    forall x | x in got ensures x.0 in AllMachines(d) && x.1 in items {
      IsAmongAll(d, x.0);
      HasIsAmong(d, c, x.0, x.1);
    }
  }

  lemma {:induction false} FewPairs<T, U>(got: set<(T, U)>, s: set<T>, t: set<U>, n: nat)
    requires got <= Pairs(s, t) && |t| <= n
    ensures |got| <= |s| * n
  {
    SubsetSize(got, Pairs(s, t));
    PairsSize(s, t);
    TimesMonotone(|s|, |t|, n);
  }

  lemma {:induction false} GotFew(d: Deployment, c: Cluster, got: set<(Machine, Item)>, n: nat)
    requires Inv(d, c) && Holds(d, c, got) && |DataItems(c.made)| == |Slots(c.groups)| == n
    ensures |got| <= |AllMachines(d)| * (n * (3 + Regions(d)))
  {
    var items := Items(c.made, View(c).ords, Slots(c.groups), Regions(d));
    GotAmong(d, c, got, items);
    ItemsBounded(c.made, View(c).ords, Slots(c.groups), Regions(d));
    FewPairs(got, AllMachines(d), items, n * (3 + Regions(d)));
  }

  lemma {:induction false} TimesMonotone(a: nat, b: nat, c: nat)
    requires b <= c
    ensures a * b <= a * c
  {
  }

  /* ---------- Main results ---------- */

  /**
    In any order of deliveries, the Paxos deliveries in a region are at most a fixed number per
    batch generated there, and the packets received are at most 3 + (number of regions) per batch
    generated anywhere and per machine.
  */
  lemma {:induction false} WorkBounded(d: Deployment, steps: seq<Step>, states: seq<Cluster>, i: nat)
    requires Run(d, steps, states) && i < |states|
    ensures Trues(Receives(steps), i) <= |AllMachines(d)| * (Trues(Generates(steps), i) * (3 + Regions(d)))
    ensures forall g: nat :: g < Regions(d) ==>
              Trues(DeliversIn(steps, g), i) <= Trues(GeneratesIn(steps, g), i) * PaxosWork.ProposalCost(Group(d, g))
  {
    RunInv(d, steps, states, i);
    RunHolds(d, steps, states, i);
    RunGot(d, steps, states, i);
    RunItems(d, steps, states, i);
    GotFew(d, states[i], Got(steps, states, i), Trues(Generates(steps), i));
    forall g: nat | g < Regions(d)
      ensures Trues(DeliversIn(steps, g), i) <= Trues(GeneratesIn(steps, g), i) * PaxosWork.ProposalCost(Group(d, g))
    {
      GroupBounded(d, steps, states, i, g);
    }
  }

  lemma {:induction false} GroupBounded(d: Deployment, steps: seq<Step>, states: seq<Cluster>, i: nat, g: nat)
    requires Run(d, steps, states) && i < |states| && g < Regions(d)
    ensures Trues(DeliversIn(steps, g), i) + PendingIn(d, states[i], g) <=
            Trues(GeneratesIn(steps, g), i) * PaxosWork.ProposalCost(Group(d, g))
  {
    var pending, grants, uses := Pendings(d, states, g), GeneratesIn(steps, g), DeliversIn(steps, g);
    var cost := PaxosWork.ProposalCost(Group(d, g));
    StartPending(d, g);
    forall k | 0 <= k < |uses|
      ensures pending[k + 1] + (if uses[k] then 1 else 0) <= pending[k] + if grants[k] then cost else 0
    {
      RunPending(d, steps, states, k, g);
    }
    Budget(pending, grants, uses, cost, i);
  }

  lemma {:induction false} Unfinished(d: Deployment, c: Cluster) returns (step: Step)
    requires Valid(d) && GroupsOk(d, c.groups) && !AtRest(c)
    ensures !step.Generate? && Enabled(d, c, step)
  {
    step := Receive(0);
    if c.net == [] {
      var g: nat :| g < |c.groups| && !P.Quiescent(c.groups[g]);
      assert PaxosRest.Reached(Group(d, g), c.groups[g]);
      var link := PaxosWork.ReachedWorks(Group(d, g), c.groups[g]);
      step := Consensus(g, link, 0);
    }
  }

  /** A cluster that is not at rest can go on, so with no more batches it comes to rest. */
  lemma {:induction false} RestsOrGoesOn(d: Deployment, steps: seq<Step>, states: seq<Cluster>, i: nat)
    returns (step: Step)
    requires Run(d, steps, states) && i < |states|
    ensures AtRest(states[i]) || (!step.Generate? && Enabled(d, states[i], step) && Next(d, states[i], step).Success?)
  {
    step := Receive(0);
    if !AtRest(states[i]) {
      RunGroups(d, steps, states, i);
      step := Unfinished(d, states[i]);
      NeverThrows(d, steps, states, i, step);
    }
  }
}
