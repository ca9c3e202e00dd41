/**
  The work caused by one round is bounded, so orderers that get no more transactions come to rest.
  Each parcel brings something that was not there, and there are only so many parcels to a round.
*/
module OrdererWork {
  import opened Topology
  import opened Counting
  import opened Deployments
  import opened Fanout
  import opened OrdererSystem
  import opened OrdererInvariant
  import opened OrdererStreams
  import opened OrdererRest
  import RegionOrders
  import Clusters
  import PaxosRoles
  import PaxosWork
  import B = BatchLogs

  /* ---------- Steps of each kind ---------- */

  function Finishes(steps: seq<Step>): seq<bool> {
    seq(|steps|, k requires 0 <= k < |steps| => steps[k].Finish?)
  }

  function Delivers(steps: seq<Step>): seq<bool> {
    seq(|steps|, k requires 0 <= k < |steps| => steps[k].Consensus?)
  }

  function Takes(steps: seq<Step>): seq<bool> {
    seq(|steps|, k requires 0 <= k < |steps| => steps[k].Take?)
  }

  /** The step submits a round's proposal to the group. */
  predicate Proposes(s: Global, step: Step) {
    step.Take? && step.index < |s.net| && s.net[step.index].Proposal?
  }

  function Proposals(steps: seq<Step>, states: seq<Global>): seq<bool>
    requires |states| == |steps| + 1
  {
    seq(|steps|, k requires 0 <= k < |steps| => Proposes(states[k], steps[k]))
  }

  /* ---------- Finished rounds ---------- */

  function ClosedIds(rounds: Rounds): set<BatchId> {
    set m, k | m in rounds && k in Below(|rounds[m]|) && k > 0 :: BatchId(k, m)
  }

  lemma {:induction false} ClosedIdsAre(rounds: Rounds, id: BatchId)
    ensures id in ClosedIds(rounds) <==> Closed(rounds, id)
  {
  }

  lemma {:induction false} IdsFinished(rounds: Rounds, m: Machine)
    requires m in rounds && rounds[m] != []
    ensures |ClosedIds(rounds[m := rounds[m] + [[]]])| == |ClosedIds(rounds)| + 1
  {
    var rounds' := rounds[m := rounds[m] + [[]]];
    assert ClosedIds(rounds') == ClosedIds(rounds) + {BatchId(|rounds[m]|, m)};
  }

  lemma {:induction false} IdsAdded(rounds: Rounds, m: Machine, mine: seq<seq<Txn>>)
    requires m in rounds && |mine| == |rounds[m]|
    ensures ClosedIds(rounds[m := mine]) == ClosedIds(rounds)
  {
    var rounds' := rounds[m := mine];
    forall id ensures id in ClosedIds(rounds') <==> id in ClosedIds(rounds) {
      ClosedIdsAre(rounds, id);
      ClosedIdsAre(rounds', id);
    }
  }

  lemma {:induction false} StepIds(d: Deployment, s: Global, s': Global, step: Step)
    requires Valid(d) && Enabled(d, s, step) && Next(d, s, step) == Success(s')
    ensures |ClosedIds(s'.rounds)| == |ClosedIds(s.rounds)| + if step.Finish? then 1 else 0
  {
    match step
    case Add(m, t) =>
      var last := |s.rounds[m]| - 1;
      IdsAdded(s.rounds, m, s.rounds[m][last := s.rounds[m][last] + [t]]);
    case Finish(m) => IdsFinished(s.rounds, m);
    case Consensus(_, _) =>
    case Take(i) => TakeRounds(s, i);
  }

  ghost function IdCounts(states: seq<Global>): (ns: seq<nat>)
    ensures |ns| == |states| && forall k :: 0 <= k < |states| ==> ns[k] == |ClosedIds(states[k].rounds)|
  {
    seq(|states|, k requires 0 <= k < |states| => |ClosedIds(states[k].rounds)|)
  }

  lemma {:induction false} RunIds(d: Deployment, steps: seq<Step>, states: seq<Global>, i: nat)
    requires Run(d, steps, states) && i < |states|
    ensures |ClosedIds(states[i].rounds)| == Trues(Finishes(steps), i)
  {
    var counts, grows := IdCounts(states), Finishes(steps);
    assert ClosedIds(states[0].rounds) == {};
    forall k | 0 <= k < |steps| ensures counts[k + 1] == counts[k] + if grows[k] then 1 else 0 {
      RunStep(d, steps, states, k);
      StepIds(d, states[k], states[k + 1], steps[k]);
    }
    Counted(counts, grows, i);
  }

  /** There are no more places than finished rounds. */
  lemma {:induction false} FewPlaces(w: World)
    requires Distinct(w.ord) && AllClosed(w)
    ensures |w.ord| <= |ClosedIds(w.rounds)|
  {
    DistinctSize(w.ord);
    forall id | id in Elements(w.ord) ensures id in ClosedIds(w.rounds) {
      ClosedIdsAre(w.rounds, id);
    }
    SubsetSize(Elements(w.ord), ClosedIds(w.rounds));
  }

  /* ---------- Proposals ---------- */

  lemma {:induction false} StepTickets(d: Deployment, s: Global, s': Global, step: Step)
    requires Valid(d) && Enabled(d, s, step) && Next(d, s, step) == Success(s')
    ensures |s'.group.hist.tickets| == |s.group.hist.tickets| + if Proposes(s, step) then 1 else 0
  {
    var moves, move := GroupStep(d, s, s', step);
  }

  ghost function TicketCounts(states: seq<Global>): (ns: seq<nat>)
    ensures |ns| == |states| && forall k :: 0 <= k < |states| ==> ns[k] == |states[k].group.hist.tickets|
  {
    seq(|states|, k requires 0 <= k < |states| => |states[k].group.hist.tickets|)
  }

  lemma {:induction false} RunTickets(d: Deployment, steps: seq<Step>, states: seq<Global>, i: nat)
    requires Run(d, steps, states) && i < |states|
    ensures |states[i].group.hist.tickets| == Trues(Proposals(steps, states), i)
  {
    var counts, grows := TicketCounts(states), Proposals(steps, states);
    forall k | 0 <= k < |steps| ensures counts[k + 1] == counts[k] + if grows[k] then 1 else 0 {
      RunStep(d, steps, states, k);
      StepTickets(d, states[k], states[k + 1], steps[k]);
    }
    Counted(counts, grows, i);
  }

  lemma {:induction false} TicketsDistinct(tickets: seq<PaxosRoles.Value>)
    requires forall id :: TicketIds(tickets)[id] <= 1
    ensures Distinct(TicketSeq(tickets))
  {
    var ids := TicketSeq(tickets);
    forall i, j | 0 <= i < j < |ids| ensures ids[i] != ids[j] {
      if ids[i] == ids[j] {
        OnceEach(tickets, i, j);
      }
    }
  }

  /** Each finished round is proposed at most once. */
  lemma {:induction false} FewTickets(w: World, loads: Loads, tickets: seq<PaxosRoles.Value>)
    requires Tokens(w, loads) && w.tickets == TicketIds(tickets)
    ensures |tickets| <= |ClosedIds(w.rounds)|
  {
    TicketsOnce(w, loads);
    TicketsDistinct(tickets);
    DistinctSize(TicketSeq(tickets));
    forall id | id in Elements(TicketSeq(tickets)) ensures id in ClosedIds(w.rounds) {
      assert loads(ProposalKey(id)) + Here(w, ProposalKey(id)) == Bit(Due(w, ProposalKey(id)));
      ClosedIdsAre(w.rounds, id);
    }
    SubsetSize(Elements(TicketSeq(tickets)), ClosedIds(w.rounds));
  }

  /* ---------- Deliveries in the group ---------- */

  ghost function PendingIn(d: Deployment, s: Global): nat
    requires Valid(d)
  {
    PaxosWork.Pending(Clusters.Group(d, LEADER_REGION), s.group)
  }

  lemma {:induction false} StepPending(d: Deployment, s: Global, s': Global, step: Step)
    requires Inv(d, s) && Enabled(d, s, step) && Next(d, s, step) == Success(s')
    ensures PendingIn(d, s') + (if step.Consensus? then 1 else 0) <=
            PendingIn(d, s) + if Proposes(s, step) then PaxosWork.ProposalCost(Clusters.Group(d, LEADER_REGION)) else 0
  {
    var c := Clusters.Group(d, LEADER_REGION);
    var moves, move := GroupStep(d, s, s', step);
    if moves {
      PaxosWork.ReachedStep(c, s.group, s'.group, move);
    }
  }

  ghost function Pendings(d: Deployment, states: seq<Global>): (ns: seq<nat>)
    requires Valid(d)
    ensures |ns| == |states| && forall k :: 0 <= k < |states| ==> ns[k] == PendingIn(d, states[k])
  {
    seq(|states|, k requires 0 <= k < |states| => PendingIn(d, states[k]))
  }

  lemma {:induction false} RunPending(d: Deployment, steps: seq<Step>, states: seq<Global>, k: nat)
    requires Run(d, steps, states) && k < |steps|
    ensures PendingIn(d, states[k + 1]) + (if steps[k].Consensus? then 1 else 0) <=
            PendingIn(d, states[k]) +
            if Proposes(states[k], steps[k]) then PaxosWork.ProposalCost(Clusters.Group(d, LEADER_REGION)) else 0
  {
    RunInv(d, steps, states, k);
    StepPending(d, states[k], states[k + 1], steps[k]);
  }

  lemma {:induction false} StartPending(d: Deployment)
    requires Valid(d)
    ensures PendingIn(d, Start(d)) == 0
  {
    Clusters.GroupValid(d, LEADER_REGION);
    PaxosWork.StartPending(Clusters.Group(d, LEADER_REGION));
  }

  lemma {:induction false} GroupBounded(d: Deployment, steps: seq<Step>, states: seq<Global>, i: nat)
    requires Run(d, steps, states) && i < |states|
    ensures Trues(Delivers(steps), i) <=
            Trues(Proposals(steps, states), i) * PaxosWork.ProposalCost(Clusters.Group(d, LEADER_REGION))
  {
    var pending, grants, uses := Pendings(d, states), Proposals(steps, states), Delivers(steps);
    var cost := PaxosWork.ProposalCost(Clusters.Group(d, LEADER_REGION));
    StartPending(d);
    forall k | 0 <= k < |uses|
      ensures pending[k + 1] + (if uses[k] then 1 else 0) <= pending[k] + if grants[k] then cost else 0
    {
      RunPending(d, steps, states, k);
    }
    Budget(pending, grants, uses, cost, i);
  }

  /* ---------- Parcels ---------- */

  function ProposalKeys(ids: set<BatchId>): set<Key> {
    set id | id in ids :: ProposalKey(id)
  }

  function PartKeys(ids: set<BatchId>, n: nat): set<Key> {
    set x | x in Pairs(ids, Below(n)) :: PartKey(x.1, x.0)
  }

  function PlaceKeys(slots: nat, n: nat): set<Key> {
    set x | x in Pairs(Below(slots), Below(n)) :: PlaceKey(x.1, x.0)
  }

  function Keys(ids: set<BatchId>, n: nat): set<Key> {
    ProposalKeys(ids) + PartKeys(ids, n) + PlaceKeys(|ids|, n)
  }

  lemma {:induction false} FewProposalKeys(ids: set<BatchId>)
    ensures |ProposalKeys(ids)| <= |ids|
  {
    var f := (id: BatchId) => ProposalKey(id);
    ImageAtMost(ids, f);
    assert ProposalKeys(ids) == Image(ids, f);
  }

  lemma {:induction false} FewPartKeys(ids: set<BatchId>, n: nat)
    ensures |PartKeys(ids, n)| <= |ids| * n
  {
    var f := (x: (BatchId, nat)) => PartKey(x.1, x.0);
    ImageAtMost(Pairs(ids, Below(n)), f);
    PairsSize(ids, Below(n));
    assert PartKeys(ids, n) == Image(Pairs(ids, Below(n)), f);
  }

  lemma {:induction false} FewPlaceKeys(slots: nat, n: nat)
    ensures |PlaceKeys(slots, n)| <= slots * n
  {
    var f := (x: (nat, nat)) => PlaceKey(x.1, x.0);
    ImageAtMost(Pairs(Below(slots), Below(n)), f);
    PairsSize(Below(slots), Below(n));
    assert PlaceKeys(slots, n) == Image(Pairs(Below(slots), Below(n)), f);
  }

  /** At most this many parcels for `rounds` rounds and `regions` regions. */
  function ParcelsFor(rounds: nat, regions: nat): nat {
    rounds * (1 + 2 * regions)
  }

  lemma {:induction false} FewKeys(ids: set<BatchId>, n: nat)
    ensures |Keys(ids, n)| <= ParcelsFor(|ids|, n)
  {
    FewProposalKeys(ids);
    FewPartKeys(ids, n);
    FewPlaceKeys(|ids|, n);
    OneAndTwice(|ids|, n);
  }

  lemma {:induction false} OneAndTwice(n: nat, r: nat)
    ensures n + n * r + n * r == n * (1 + 2 * r)
  {
  }

  lemma {:induction false} HereIsKey(w: World, loads: Loads, k: Key)
    requires Knowledge(w) && Tokens(w, loads) && AllClosed(w) && Here(w, k) > 0
    ensures k in Keys(ClosedIds(w.rounds), |w.seen|)
  {
    assert loads(k) + Here(w, k) == Bit(Due(w, k));
    match k
    case ProposalKey(id) => ClosedIdsAre(w.rounds, id);
    case PartKey(g, id) =>
      ClosedIdsAre(w.rounds, id);
      assert PartKey((id, g).1, (id, g).0) in PartKeys(ClosedIds(w.rounds), |w.seen|);
    case PlaceKey(g, slot) =>
      assert SeenOk(w, g, w.seen[g]);
      FewPlaces(w);
      assert PlaceKey((slot, g).1, (slot, g).0) in PlaceKeys(|ClosedIds(w.rounds)|, |w.seen|);
  }

  /* ---------- Each parcel brings something new ---------- */

  function Brings(s: Global, step: Step): set<Key> {
    if step.Take? && step.index < |s.net| then {KeyOf(s.net[step.index])} else {}
  }

  /** What was brought by the first `i` steps. */
  function Got(steps: seq<Step>, states: seq<Global>, i: nat): set<Key>
    requires |states| == |steps| + 1 && i <= |steps|
  {
    if i == 0 then {} else Got(steps, states, i - 1) + Brings(states[i - 1], steps[i - 1])
  }

  ghost predicate AllHere(w: World, got: set<Key>) {
    forall k :: k in got ==> Here(w, k) > 0
  }

  lemma {:induction false} HereAfterPart(w: World, g: nat, batch: Batch, k: Key)
    requires g < |w.seen|
    ensures var w' := w.(seen := w.seen[g := B.WithBatch(w.seen[g], batch)]);
            Here(w', k) >= Here(w, k) && Here(w', PartKey(g, batch.id)) > 0
  {
  }

  lemma {:induction false} HereAfterPlace(w: World, g: nat, slot: nat, id: BatchId, k: Key)
    requires g < |w.seen|
    ensures var w' := w.(seen := w.seen[g := B.WithSlot(w.seen[g], slot, id)]);
            Here(w', k) >= Here(w, k) && Here(w', PlaceKey(g, slot)) > 0
  {
  }

  lemma {:induction false} TakePartView(s: Global, i: nat)
    requires i < |s.net| && s.net[i].Part? && Taken(s, i).Success?
    ensures var g, w := s.net[i].region, View(s);
            g < |w.seen| && View(Taken(s, i).value) == w.(seen := w.seen[g := B.WithBatch(w.seen[g], s.net[i].batch)])
  {
    var g, batch := s.net[i].region, s.net[i].batch;
    var st := s.stations[g];
    ViewReplaced(s, i, g, Advanced(st, B.BatchAdded(st.log, batch), B.WithBatch(st.seen, batch)));
  }

  lemma {:induction false} TakePlaceView(s: Global, i: nat)
    requires i < |s.net| && s.net[i].Place? && Taken(s, i).Success?
    ensures var g, w := s.net[i].region, View(s);
            && g < |w.seen|
            && View(Taken(s, i).value) ==
               w.(seen := w.seen[g := B.WithSlot(w.seen[g], s.net[i].slot, s.net[i].id)])
  {
    var g, slot, id := s.net[i].region, s.net[i].slot, s.net[i].id;
    var b := B.SlotAdded(s.stations[g].log, slot, id, 0).value;
    TakenPlace(s, i, g, slot, id, b);
    ViewReplaced(s, i, g, Advanced(s.stations[g], b, B.WithSlot(s.stations[g].seen, slot, id)));
  }

  lemma {:induction false} TakeProposalView(s: Global, i: nat)
    requires i < |s.net| && s.net[i].Proposal?
    ensures var w, w' := View(s), View(Taken(s, i).value);
            w'.seen == w.seen && w'.tickets == w.tickets + multiset{s.net[i].id}
  {
    TicketAdded(s.group.hist.tickets, PaxosRoles.OfBatch(s.net[i].id));
  }

  lemma {:induction false} HereAfter(s: Global, i: nat, k: Key)
    requires i < |s.net| && Taken(s, i).Success?
    ensures var w, w' := View(s), View(Taken(s, i).value);
            Here(w', k) >= Here(w, k) && Here(w', KeyOf(s.net[i])) > 0
  {
    match s.net[i]
    case Proposal(_) => TakeProposalView(s, i);
    case Part(g, batch) =>
      TakePartView(s, i);
      HereAfterPart(View(s), g, batch, k);
    case Place(g, slot, id) =>
      TakePlaceView(s, i);
      HereAfterPlace(View(s), g, slot, id, k);
  }

  lemma {:induction false} OneMore(w: World, got: set<Key>, k: Key)
    requires AllHere(w, got) && Here(w, k) == 0
    ensures |got + {k}| == |got| + 1
  {
    assert k !in got;
  }

  lemma {:induction false} TakeBrings(d: Deployment, s: Global, i: nat, got: set<Key>)
    requires Inv(d, s) && i < |s.net| && Taken(s, i).Success? && AllHere(View(s), got)
    ensures AllHere(View(Taken(s, i).value), got + {KeyOf(s.net[i])}) && |got + {KeyOf(s.net[i])}| == |got| + 1
  {
    NotHere(View(s), s.net, i);
    OneMore(View(s), got, KeyOf(s.net[i]));
    forall k | k in got + {KeyOf(s.net[i])} ensures Here(View(Taken(s, i).value), k) > 0 {
      HereAfter(s, i, k);
    }
  }

  lemma {:induction false} OthersBringNothing(d: Deployment, s: Global, s': Global, step: Step, got: set<Key>)
    requires Valid(d) && Enabled(d, s, step) && Next(d, s, step) == Success(s') && !step.Take? && AllHere(View(s), got)
    ensures AllHere(View(s'), got + Brings(s, step)) && got + Brings(s, step) == got
  {
    assert got + {} == got;
    if step.Consensus? {
      RegionOrders.DeliverTickets(Clusters.Group(d, LEADER_REGION), s.group, step.link, step.index);
    }
    SameSeen(s, s');
    StillHere(View(s), View(s'), got);
  }

  lemma {:induction false} SameSeen(s: Global, s': Global)
    requires s'.stations == s.stations && s'.group.hist.tickets == s.group.hist.tickets
    ensures View(s').seen == View(s).seen && View(s').tickets == View(s).tickets
  {
  }

  lemma {:induction false} StillHere(w: World, w': World, got: set<Key>)
    requires AllHere(w, got) && w'.seen == w.seen && w'.tickets == w.tickets
    ensures AllHere(w', got)
  {
    forall k | k in got ensures Here(w', k) > 0 {
      assert Here(w, k) > 0;
    }
  }

  lemma {:induction false} StepBrings(d: Deployment, s: Global, s': Global, step: Step, got: set<Key>)
    requires Inv(d, s) && Enabled(d, s, step) && Next(d, s, step) == Success(s') && AllHere(View(s), got)
    ensures AllHere(View(s'), got + Brings(s, step))
    ensures |got + Brings(s, step)| == |got| + if step.Take? then 1 else 0
  {
    if step.Take? {
      TakeBrings(d, s, step.index, got);
    } else {
      OthersBringNothing(d, s, s', step, got);
    }
  }

  ghost function HereAt(steps: seq<Step>, states: seq<Global>): (bs: seq<bool>)
    requires |states| == |steps| + 1
    ensures |bs| == |states| && forall k :: 0 <= k < |states| ==> bs[k] == AllHere(View(states[k]), Got(steps, states, k))
  {
    seq(|states|, k requires 0 <= k < |states| => AllHere(View(states[k]), Got(steps, states, k)))
  }

  lemma {:induction false} RunStepBrings(d: Deployment, steps: seq<Step>, states: seq<Global>, k: nat)
    requires Run(d, steps, states) && k < |steps| && AllHere(View(states[k]), Got(steps, states, k))
    ensures AllHere(View(states[k + 1]), Got(steps, states, k + 1))
    ensures |Got(steps, states, k + 1)| == |Got(steps, states, k)| + if steps[k].Take? then 1 else 0
  {
    RunInv(d, steps, states, k);
    StepBrings(d, states[k], states[k + 1], steps[k], Got(steps, states, k));
  }

  lemma {:induction false} RunHere(d: Deployment, steps: seq<Step>, states: seq<Global>, i: nat)
    requires Run(d, steps, states) && i < |states|
    ensures AllHere(View(states[i]), Got(steps, states, i))
  {
    var bs := HereAt(steps, states);
    forall k | 0 <= k < |bs| - 1 && bs[k] ensures bs[k + 1] {
      RunStepBrings(d, steps, states, k);
    }
    HoldsThroughout(bs, i);
  }

  ghost function GotCounts(steps: seq<Step>, states: seq<Global>): (ns: seq<nat>)
    requires |states| == |steps| + 1
    ensures |ns| == |states| && forall k :: 0 <= k < |states| ==> ns[k] == |Got(steps, states, k)|
  {
    seq(|states|, k requires 0 <= k < |states| => |Got(steps, states, k)|)
  }

  lemma {:induction false} RunGot(d: Deployment, steps: seq<Step>, states: seq<Global>, i: nat)
    requires Run(d, steps, states) && i < |states|
    ensures |Got(steps, states, i)| == Trues(Takes(steps), i)
  {
    var counts, grows := GotCounts(steps, states), Takes(steps);
    forall k | 0 <= k < |steps| ensures counts[k + 1] == counts[k] + if grows[k] then 1 else 0 {
      RunHere(d, steps, states, k);
      RunStepBrings(d, steps, states, k);
    }
    Counted(counts, grows, i);
  }

  lemma {:induction false} GotFew(w: World, loads: Loads, got: set<Key>)
    requires Knowledge(w) && Tokens(w, loads) && AllClosed(w) && AllHere(w, got)
    ensures |got| <= |Keys(ClosedIds(w.rounds), |w.seen|)|
  {
    forall k | k in got ensures k in Keys(ClosedIds(w.rounds), |w.seen|) {
      HereIsKey(w, loads, k);
    }
    SubsetSize(got, Keys(ClosedIds(w.rounds), |w.seen|));
  }

  /* ---------- Main results ---------- */

  lemma {:induction false} StateWork(d: Deployment, s: Global, got: set<Key>)
    requires Inv(d, s) && AllHere(View(s), got)
    ensures |s.group.hist.tickets| <= |ClosedIds(s.rounds)|
    ensures |got| <= |Keys(ClosedIds(s.rounds), Regions(d))|
  {
    OrdClosed(d, s);
    FewTickets(View(s), LoadsOf(s.net), s.group.hist.tickets);
    GotFew(View(s), LoadsOf(s.net), got);
  }

  lemma {:induction false} CostMonotone(a: nat, b: nat, cost: nat)
    requires a <= b
    ensures a * cost <= b * cost
  {
  }

  lemma {:induction false} TakesBounded(d: Deployment, steps: seq<Step>, states: seq<Global>, i: nat)
    requires Run(d, steps, states) && i < |states|
    ensures Trues(Takes(steps), i) <= |Keys(ClosedIds(states[i].rounds), Regions(d))|
    ensures Trues(Proposals(steps, states), i) <= Trues(Finishes(steps), i)
  {
    RunInv(d, steps, states, i);
    RunIds(d, steps, states, i);
    RunTickets(d, steps, states, i);
    RunHere(d, steps, states, i);
    RunGot(d, steps, states, i);
    StateWork(d, states[i], Got(steps, states, i));
  }

  /**
    In any order of deliveries, the deliveries in the global group are at most a fixed number per
    finished round, and the parcels taken at most 1 + 2 * (number of regions) per finished round.
  */
  lemma {:induction false} WorkBounded(d: Deployment, steps: seq<Step>, states: seq<Global>, i: nat)
    requires Run(d, steps, states) && i < |states|
    ensures Trues(Takes(steps), i) <= ParcelsFor(Trues(Finishes(steps), i), Regions(d))
    ensures Trues(Delivers(steps), i) <=
            Trues(Finishes(steps), i) * PaxosWork.ProposalCost(Clusters.Group(d, LEADER_REGION))
  {
    TakesBounded(d, steps, states, i);
    RunIds(d, steps, states, i);
    FewKeys(ClosedIds(states[i].rounds), Regions(d));
    GroupBounded(d, steps, states, i);
    CostMonotone(Trues(Proposals(steps, states), i), Trues(Finishes(steps), i),
                 PaxosWork.ProposalCost(Clusters.Group(d, LEADER_REGION)));
  }

  /** Orderers that are not at rest can go on, so with no more rounds they come to rest. */
  lemma {:induction false} RestsOrGoesOn(d: Deployment, steps: seq<Step>, states: seq<Global>, i: nat)
    returns (step: Step)
    requires Run(d, steps, states) && i < |states|
    ensures AtRest(states[i]) ||
            ((step.Take? || step.Consensus?) && Enabled(d, states[i], step) && Next(d, states[i], step).Success?)
  {
    step := Take(0);
    if !AtRest(states[i]) {
      RunInv(d, steps, states, i);
      if states[i].net == [] {
        var link := PaxosWork.ReachedWorks(Clusters.Group(d, LEADER_REGION), states[i].group);
        step := Consensus(link, 0);
      }
      NeverThrows(d, steps, states, i, step);
    }
  }
}
