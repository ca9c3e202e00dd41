/** What every step of the orderers keeps. */
module OrdererInvariant {
  import opened Topology
  import opened Counting
  import opened Deployments
  import opened Fanout
  import opened LogNodes
  import opened Orderers
  import opened RegionOrders
  import opened OrdererSystem
  import Exchange
  import Clusters
  import P = PaxosSystem
  import PaxosQueues
  import PaxosRoles
  import PaxosSafety
  import PaxosRest
  import B = BatchLogs

  /* ---------- Growth ---------- */

  /** Finished rounds stay as they are and decided places stay decided. */
  ghost predicate Extends(w: World, w': World) {
    && w'.seen == w.seen && w.ord <= w'.ord
    && forall id :: Closed(w.rounds, id) ==> Closed(w'.rounds, id) && RoundOf(w'.rounds, id) == RoundOf(w.rounds, id)
  }

  lemma {:induction false} ParcelsKept(w: World, w': World, ps: seq<Parcel>)
    requires Extends(w, w') && ParcelsOk(w, ps)
    ensures ParcelsOk(w', ps)
  {
    forall p | p in ps ensures ParcelOk(w', p) {
      assert ParcelOk(w, p);
    }
  }

  lemma {:induction false} KnowledgeKept(w: World, w': World)
    requires Extends(w, w') && Knowledge(w) && Distinct(w'.ord)
    ensures Knowledge(w')
  {
    forall g | 0 <= g < |w'.seen| ensures SeenOk(w', g, w'.seen[g]) {
      assert SeenOk(w, g, w.seen[g]);
    }
  }

  /* ---------- A transaction arrives ---------- */

  lemma {:induction false} AddView(s: Global, m: Machine, t: Txn)
    requires m in s.rounds && s.rounds[m] != []
    ensures var w, w' := View(s), View(Added(s, m, t));
            && Extends(w, w') && w'.ord == w.ord && w'.heard == w.heard && w'.tickets == w.tickets
            && forall id :: Closed(w'.rounds, id) <==> Closed(w.rounds, id)
  {
    var w, w' := View(s), View(Added(s, m, t));
    assert w'.seen == w.seen;
  }

  lemma {:induction false} TokensSame(w: World, w': World, loads: Loads)
    requires Tokens(w, loads) && w'.seen == w.seen
    requires w'.heard == w.heard && w'.tickets == w.tickets
    requires forall id :: Closed(w'.rounds, id) <==> Closed(w.rounds, id)
    ensures Tokens(w', loads)
  {
    forall k: Key ensures loads(k) + Here(w', k) == Bit(Due(w', k)) {
      assert loads(k) + Here(w, k) == Bit(Due(w, k));
    }
  }

  lemma {:induction false} StationsUpdated(stations: seq<Station>, g: nat, st: Station)
    requires g < |stations| && StationsOk(stations) && StationOk(st)
    ensures StationsOk(stations[g := st])
  {
    var stations' := stations[g := st];
    forall k | 0 <= k < |stations'| ensures StationOk(stations'[k]) {
      assert k != g ==> StationOk(stations[k]);
    }
  }

  lemma {:induction false} InvAdd(d: Deployment, s: Global, m: Machine, t: Txn)
    requires Inv(d, s) && m in s.rounds
    ensures Inv(d, Added(s, m, t))
  {
    var w, s' := View(s), Added(s, m, t);
    AddView(s, m, t);
    KnowledgeKept(w, View(s'));
    ParcelsKept(w, View(s'), s.net);
    TokensSame(w, View(s'), LoadsOf(s.net));
    InvRounds(d, s, s');
  }

  /* ---------- A round is finished ---------- */

  lemma {:induction false} FinishView(s: Global, m: Machine, id: BatchId)
    requires m in s.rounds && s.rounds[m] != [] && id == BatchId(|s.rounds[m]|, m)
    ensures var w, w' := View(s), View(Finished(s, m));
            && Extends(w, w') && w'.ord == w.ord && w'.heard == w.heard && w'.tickets == w.tickets
            && !Closed(w.rounds, id) && Closed(w'.rounds, id)
            && RoundOf(w'.rounds, id) == s.rounds[m][|s.rounds[m]| - 1]
            && forall k :: Closed(w'.rounds, k) <==> Closed(w.rounds, k) || k == id
  {
    var w, w' := View(s), View(Finished(s, m));
    assert w'.seen == w.seen;
  }

  lemma {:induction false} TokensFinish(w: World, w': World, id: BatchId, loads: Loads, loads': Loads)
    requires Tokens(w, loads) && w'.seen == w.seen
    requires w'.heard == w.heard && w'.tickets == w.tickets && !Closed(w.rounds, id)
    requires forall k :: Closed(w'.rounds, k) <==> Closed(w.rounds, k) || k == id
    requires forall k :: loads'(k) ==
               loads(k) + (Bit(k == ProposalKey(id)) + Bit(k.PartKey? && k.region < |w.seen| && k.id == id))
    ensures Tokens(w', loads')
  {
    forall k: Key ensures loads'(k) + Here(w', k) == Bit(Due(w', k)) {
      assert loads(k) + Here(w, k) == Bit(Due(w, k));
    }
  }

  lemma {:induction false} RoundOk(w: World, id: BatchId, n: nat)
    requires Closed(w.rounds, id) && n <= |w.seen|
    ensures ParcelsOk(w, Round(id, Parts(id, RoundOf(w.rounds, id), n)))
  {
  }

  lemma {:induction false} WorldFinish(w: World, w': World, net: seq<Parcel>, id: BatchId, n: nat, parcels: seq<Parcel>)
    requires Knowledge(w) && ParcelsOk(w, net) && Tokens(w, LoadsOf(net)) && n == |w.seen|
    requires Extends(w, w') && w'.ord == w.ord && w'.heard == w.heard && w'.tickets == w.tickets
    requires !Closed(w.rounds, id) && Closed(w'.rounds, id)
    requires forall k :: Closed(w'.rounds, k) <==> Closed(w.rounds, k) || k == id
    requires parcels == Round(id, Parts(id, RoundOf(w'.rounds, id), n))
    ensures Knowledge(w') && ParcelsOk(w', net + parcels) && Tokens(w', LoadsOf(net + parcels))
  {
    KnowledgeKept(w, w');
    ParcelsKept(w, w', net);
    RoundOk(w', id, n);
    forall k
      ensures LoadsOf(net + parcels)(k) ==
              LoadsOf(net)(k) + (Bit(k == ProposalKey(id)) + Bit(k.PartKey? && k.region < n && k.id == id))
    {
      TallierTallies(k);
      assert TallierOf(k)(net + parcels) == TallierOf(k)(net) + TallierOf(k)(parcels);
      TallyRound(TallierOf(k), k, id, RoundOf(w'.rounds, id), n);
    }
    TokensFinish(w, w', id, LoadsOf(net), LoadsOf(net + parcels));
  }

  lemma {:induction false} FinishSends(s: Global, s': Global, m: Machine, id: BatchId)
    requires m in s.rounds && s.rounds[m] != [] && id == BatchId(|s.rounds[m]|, m) && s' == Finished(s, m)
    ensures Closed(s'.rounds, id)
    ensures s'.net == s.net + Round(id, Parts(id, RoundOf(s'.rounds, id), |s.stations|))
  {
  }

  /** Only the rounds and the parcels have changed. */
  lemma {:induction false} InvRounds(d: Deployment, s: Global, s': Global)
    requires Inv(d, s) && s'.group == s.group && s'.stations == s.stations && RoundsOk(d, s'.rounds)
    requires Knowledge(View(s')) && ParcelsOk(View(s'), s'.net) && Tokens(View(s'), LoadsOf(s'.net))
    ensures Inv(d, s')
  {
  }

  lemma {:induction false} InvFinish(d: Deployment, s: Global, m: Machine)
    requires Inv(d, s) && m in s.rounds
    ensures Inv(d, Finished(s, m))
  {
    var w, s' := View(s), Finished(s, m);
    var n, id := |s.stations|, BatchId(|s.rounds[m]|, m);
    FinishView(s, m, id);
    FinishSends(s, s', m, id);
    WorldFinish(w, View(s'), s.net, id, n, Round(id, Parts(id, RoundOf(View(s').rounds, id), n)));
    InvRounds(d, s, s');
  }

  /* ---------- The group delivers a message ---------- */

  lemma {:induction false} OnceEach(tickets: seq<PaxosRoles.Value>, i: nat, j: nat)
    requires i < |tickets| && j < |tickets| && IdOf(tickets[i]) == IdOf(tickets[j])
    requires TicketIds(tickets)[IdOf(tickets[i])] <= 1
    ensures i == j
  {
    var ids := TicketSeq(tickets);
    if i < j {
      PaxosSafety.TwiceCounted(ids, i, j);
    } else if j < i {
      PaxosSafety.TwiceCounted(ids, j, i);
    }
  }

  /** No round gets two places. */
  lemma {:induction false} OrdDistinct(b: PaxosQueues.Bag, h: P.History)
    requires PaxosSafety.ChosenInRange(h) && PaxosSafety.PlacesOk(b, h)
    requires forall id :: TicketIds(h.tickets)[id] <= 1
    ensures Distinct(BatchOrd(h))
  {
    var ord := BatchOrd(h);
    forall i, j | 0 <= i < j < |ord| ensures ord[i] != ord[j] {
      assert h.places[h.chosen[i]] == P.InSlot(i) && h.places[h.chosen[j]] == P.InSlot(j);
      if ord[i] == ord[j] {
        OnceEach(h.tickets, h.chosen[i], h.chosen[j]);
      }
    }
  }

  lemma {:induction false} BatchOrdGrows(h: P.History, h': P.History)
    requires PaxosSafety.Grows(h, h') && PaxosSafety.ChosenInRange(h) && PaxosSafety.ChosenInRange(h')
    ensures BatchOrd(h) <= BatchOrd(h')
  {
    forall k | 0 <= k < |h.chosen| ensures BatchOrd(h)[k] == BatchOrd(h')[k] {
      PaxosSafety.BoundKept(h, h', k);
    }
  }

  lemma {:induction false} ReachedPlaces(c: P.Config, s: P.System)
    requires PaxosRest.Reached(c, s)
    ensures PaxosSafety.ChosenInRange(s.hist) && PaxosSafety.PlacesOk(PaxosQueues.BagOf(s.net), s.hist)
  {
    PaxosRest.ReachedIsSafe(c, s);
  }

  lemma {:induction false} GroupDelivers(d: Deployment, group: P.System, group': P.System, link: P.Link, i: nat,
                                         ks: seq<PaxosRoles.Commit>)
    requires Valid(d) && PaxosRest.Reached(Clusters.Group(d, LEADER_REGION), group)
    requires i < |P.Q(group.net, link)| && link.dst in group.nodes
    requires forall id :: TicketIds(group.hist.tickets)[id] <= 1
    requires group' == P.Delivered(Clusters.Group(d, LEADER_REGION), group, link, i)
    requires ks == Reported(Clusters.Group(d, LEADER_REGION), group, link, i)
    ensures PaxosRest.Reached(Clusters.Group(d, LEADER_REGION), group')
    ensures group'.hist.tickets == group.hist.tickets
    ensures BatchOrd(group.hist) <= BatchOrd(group'.hist) && Distinct(BatchOrd(group'.hist))
    ensures forall x :: Heard(group'.hist, x) == Heard(group.hist, x) + if x == link.dst then SlotsOf(ks) else {}
    ensures |ks| <= 1
    ensures ks != [] ==>
              && ks[0].leader == Exchange.LeaderAt(LEADER_REGION) && ks[0].slot !in Heard(group.hist, link.dst)
              && ks[0].slot < |BatchOrd(group'.hist)| && IdOf(ks[0].value) == BatchOrd(group'.hist)[ks[0].slot]
  {
    var c := Clusters.Group(d, LEADER_REGION);
    Clusters.GroupValid(d, LEADER_REGION);
    PaxosRest.ReachedNext(c, group, P.Deliver(link, i));
    ReachedParts(c, group);
    ReachedParts(c, group');
    DeliverTickets(c, group, link, i);
    DeliverOrder(c, group, group', link, i, ks);
    if ks != [] {
      PlacedAs(group'.hist, ks[0]);
    }
    PaxosSafety.StepGrows(c, group, P.Deliver(link, i));
    BatchOrdGrows(group.hist, group'.hist);
    GroupDistinct(c, group');
  }

  lemma {:induction false} PlacedAs(h: P.History, k: PaxosRoles.Commit)
    requires PaxosSafety.ChosenInRange(h) && k.slot < |h.chosen| && k.value == PaxosSafety.Bound(h, k.slot)
    ensures k.slot < |BatchOrd(h)| && IdOf(k.value) == BatchOrd(h)[k.slot]
  {
  }

  lemma {:induction false} GroupDistinct(c: P.Config, group: P.System)
    requires PaxosRest.Reached(c, group) && forall id :: TicketIds(group.hist.tickets)[id] <= 1
    ensures Distinct(BatchOrd(group.hist))
  {
    ReachedPlaces(c, group);
    OrdDistinct(PaxosQueues.BagOf(group.net), group.hist);
  }

  lemma {:induction false} TokensPlaced(w: World, w': World, slot: nat, loads: Loads, loads': Loads)
    requires Tokens(w, loads) && w'.seen == w.seen && w'.rounds == w.rounds && w'.tickets == w.tickets
    requires w'.heard == w.heard + {slot} && slot !in w.heard
    requires forall k :: loads'(k) == loads(k) + Bit(k.PlaceKey? && k.region < |w.seen| && k.slot == slot)
    ensures Tokens(w', loads')
  {
    forall k: Key ensures loads'(k) + Here(w', k) == Bit(Due(w', k)) {
      assert loads(k) + Here(w, k) == Bit(Due(w, k));
    }
  }

  lemma {:induction false} ToldOne(x: Machine, ks: seq<PaxosRoles.Commit>, n: nat)
    requires |ks| <= 1
    ensures ToldPlaces(x, ks, n) == if ks != [] && ks[0].leader == x then PlacesOf(ks[0], n) else []
  {
    assert ks != [] ==> PlacesOf(ks[0], n) + [] == PlacesOf(ks[0], n);
  }

  /** The world after the group has gone on. */
  ghost function Decides(w: World, h: P.History): World {
    w.(ord := BatchOrd(h), heard := Heard(h, Exchange.LeaderAt(LEADER_REGION)))
  }

  lemma {:induction false} WorldDecides(w: World, w': World, net: seq<Parcel>, h: P.History, x: Machine,
                                        ks: seq<PaxosRoles.Commit>)
    requires Knowledge(w) && ParcelsOk(w, net) && Tokens(w, LoadsOf(net))
    requires w' == Decides(w, h) && w.ord <= w'.ord && Distinct(w'.ord) && |ks| <= 1
    requires w'.heard == w.heard + if x == Exchange.LeaderAt(LEADER_REGION) then SlotsOf(ks) else {}
    requires ks != [] ==>
               && ks[0].leader == Exchange.LeaderAt(LEADER_REGION)
               && (x == Exchange.LeaderAt(LEADER_REGION) ==> ks[0].slot !in w.heard)
               && ks[0].slot < |w'.ord| && IdOf(ks[0].value) == w'.ord[ks[0].slot]
    ensures Knowledge(w') && ParcelsOk(w', net + ToldPlaces(x, ks, |w.seen|))
    ensures Tokens(w', LoadsOf(net + ToldPlaces(x, ks, |w.seen|)))
  {
    KnowledgeKept(w, w');
    ParcelsKept(w, w', net);
    ToldOne(x, ks, |w.seen|);
    if ks == [] || x != Exchange.LeaderAt(LEADER_REGION) {
      assert net + [] == net;
      TokensSame(w, w', LoadsOf(net));
    } else {
      var parcels := PlacesOf(ks[0], |w.seen|);
      assert SlotsOf(ks) == {ks[0].slot};
      forall k
        ensures LoadsOf(net + parcels)(k) ==
                LoadsOf(net)(k) + Bit(k.PlaceKey? && k.region < |w.seen| && k.slot == ks[0].slot)
      {
        TallierTallies(k);
        assert TallierOf(k)(net + parcels) == TallierOf(k)(net) + TallierOf(k)(parcels);
        TallyPlaces(TallierOf(k), k, ks[0], |w.seen|);
      }
      TokensPlaced(w, w', ks[0].slot, LoadsOf(net), LoadsOf(net + parcels));
    }
  }

  lemma {:induction false} TicketsOnce(w: World, loads: Loads)
    requires Tokens(w, loads)
    ensures forall id :: w.tickets[id] <= 1
  {
    forall id ensures w.tickets[id] <= 1 {
      assert loads(ProposalKey(id)) + Here(w, ProposalKey(id)) == Bit(Due(w, ProposalKey(id)));
    }
  }

  lemma {:induction false} InvConsensus(d: Deployment, s: Global, link: P.Link, i: nat)
    requires Inv(d, s) && i < |P.Q(s.group.net, link)| && link.dst in s.group.nodes
    ensures Inv(d, Decided(d, s, link, i))
  {
    var c, s', w := Clusters.Group(d, LEADER_REGION), Decided(d, s, link, i), View(s);
    var ks := Reported(c, s.group, link, i);
    TicketsOnce(w, LoadsOf(s.net));
    GroupDelivers(d, s.group, s'.group, link, i, ks);
    assert View(s') == Decides(w, s'.group.hist);
    WorldDecides(w, View(s'), s.net, s'.group.hist, link.dst, ks);
  }

  /* ---------- A parcel arrives ---------- */

  lemma {:induction false} LoadsWithout(net: seq<Parcel>, i: nat, k: Key)
    requires i < |net|
    ensures LoadsOf(net)(k) == LoadsOf(net[..i] + net[i + 1..])(k) + Bit(k == KeyOf(net[i]))
  {
    TallierTallies(k);
    SplitAt(net, i);
    WithoutOne(TallierOf(k), k, net[..i], net[i], net[i + 1..]);
  }

  lemma {:induction false} WithoutOne(f: Tallier, k: Key, before: seq<Parcel>, p: Parcel, after: seq<Parcel>)
    requires Tallies(f, k)
    ensures f(before + [p] + after) == f(before + after) + Bit(k == KeyOf(p))
  {
  }

  /** What arrives was not there yet, and is from now on. */
  lemma {:induction false} TokensTake(w: World, w': World, k0: Key, loads: Loads, loads': Loads)
    requires Tokens(w, loads) && w'.rounds == w.rounds && w'.heard == w.heard && |w'.seen| == |w.seen|
    requires forall k :: loads(k) == loads'(k) + Bit(k == k0)
    requires forall k :: Here(w', k) == Here(w, k) + Bit(k == k0)
    ensures Tokens(w', loads')
  {
    forall k: Key ensures loads'(k) + Here(w', k) == Bit(Due(w', k)) {
      assert loads(k) + Here(w, k) == Bit(Due(w, k));
    }
  }

  lemma {:induction false} NotHere(w: World, net: seq<Parcel>, i: nat)
    requires Tokens(w, LoadsOf(net)) && i < |net|
    ensures Here(w, KeyOf(net[i])) == 0
  {
    LoadsWithout(net, i, KeyOf(net[i]));
    var k := KeyOf(net[i]);
    assert LoadsOf(net)(k) + Here(w, k) == Bit(Due(w, k));
  }

  lemma {:induction false} StationTakesPart(st: Station, batch: Batch)
    requires StationOk(st) && batch.id !in st.seen.data
    ensures StationOk(Advanced(st, B.BatchAdded(st.log, batch), B.WithBatch(st.seen, batch)))
  {
    LogMidBatch(st.log, st.seen, 0, st.emitted, batch);
    DrainedOk(B.BatchAdded(st.log, batch), B.WithBatch(st.seen, batch), 0, st.emitted);
  }

  lemma {:induction false} StationTakesPlace(st: Station, slot: nat, id: BatchId)
    requires StationOk(st) && slot !in st.seen.slots && id !in st.seen.slotOf
    ensures B.SlotAdded(st.log, slot, id, 0).Success?
    ensures StationOk(Advanced(st, B.SlotAdded(st.log, slot, id, 0).value, B.WithSlot(st.seen, slot, id)))
  {
    LogMidSlot(st.log, st.seen, 0, st.emitted, slot, id);
    DrainedOk(B.SlotAdded(st.log, slot, id, 0).value, B.WithSlot(st.seen, slot, id), 0, st.emitted);
  }

  lemma {:induction false} PlaceIdNew(w: World, g: nat, a: B.Arrivals, slot: nat)
    requires Distinct(w.ord) && SeenOk(w, g, a) && B.Mutual(a.slots, a.slotOf) && slot !in a.slots && slot < |w.ord|
    ensures w.ord[slot] !in a.slotOf
  {
    forall s | s in a.slots ensures a.slots[s] != w.ord[slot] {
      assert s != slot;
    }
  }

  lemma {:induction false} StationPlaced(w: World, g: nat, st: Station, slot: nat)
    requires Distinct(w.ord) && SeenOk(w, g, st.seen) && StationOk(st) && slot !in st.seen.slots && slot < |w.ord|
    ensures B.SlotAdded(st.log, slot, w.ord[slot], 0).Success?
    ensures StationOk(Advanced(st, B.SlotAdded(st.log, slot, w.ord[slot], 0).value,
                               B.WithSlot(st.seen, slot, w.ord[slot])))
  {
    LogMidMutual(st.log, st.seen, 0, st.emitted);
    PlaceIdNew(w, g, st.seen, slot);
    StationTakesPlace(st, slot, w.ord[slot]);
  }

  lemma {:induction false} SeenUpdated(w: World, w': World, g: nat, a: B.Arrivals)
    requires Knowledge(w) && g < |w.seen| && w' == w.(seen := w.seen[g := a]) && SeenOk(w, g, a)
    ensures Knowledge(w')
  {
    forall k | 0 <= k < |w'.seen| ensures SeenOk(w', k, w'.seen[k]) {
      assert k != g ==> SeenOk(w, k, w.seen[k]);
    }
  }

  lemma {:induction false} RestOk(w: World, w': World, net: seq<Parcel>, i: nat)
    requires ParcelsOk(w, net) && i < |net| && w'.rounds == w.rounds && w'.ord == w.ord && |w'.seen| == |w.seen|
    ensures ParcelsOk(w', net[..i] + net[i + 1..])
  {
    forall p | p in net[..i] + net[i + 1..] ensures ParcelOk(w', p) {
      assert ParcelOk(w, p);
    }
  }

  lemma {:induction false} WorldTakesPart(w: World, w': World, net: seq<Parcel>, i: nat, g: nat, batch: Batch)
    requires Knowledge(w) && ParcelsOk(w, net) && Tokens(w, LoadsOf(net)) && i < |net| && net[i] == Part(g, batch)
    requires g < |w.seen| && w' == w.(seen := w.seen[g := B.WithBatch(w.seen[g], batch)])
    ensures Knowledge(w') && ParcelsOk(w', net[..i] + net[i + 1..]) && Tokens(w', LoadsOf(net[..i] + net[i + 1..]))
  {
    assert ParcelOk(w, net[i]);
    assert SeenOk(w, g, w.seen[g]);
    NotHere(w, net, i);
    SeenUpdated(w, w', g, B.WithBatch(w.seen[g], batch));
    RestOk(w, w', net, i);
    forall k ensures LoadsOf(net)(k) == LoadsOf(net[..i] + net[i + 1..])(k) + Bit(k == KeyOf(net[i])) {
      LoadsWithout(net, i, k);
    }
    TokensTake(w, w', KeyOf(net[i]), LoadsOf(net), LoadsOf(net[..i] + net[i + 1..]));
  }

  lemma {:induction false} WorldTakesPlace(w: World, w': World, net: seq<Parcel>, i: nat, g: nat, slot: nat,
                                           id: BatchId)
    requires Knowledge(w) && ParcelsOk(w, net) && Tokens(w, LoadsOf(net)) && i < |net| && net[i] == Place(g, slot, id)
    requires g < |w.seen| && w' == w.(seen := w.seen[g := B.WithSlot(w.seen[g], slot, id)])
    ensures Knowledge(w') && ParcelsOk(w', net[..i] + net[i + 1..]) && Tokens(w', LoadsOf(net[..i] + net[i + 1..]))
  {
    assert ParcelOk(w, net[i]);
    assert SeenOk(w, g, w.seen[g]);
    NotHere(w, net, i);
    SeenUpdated(w, w', g, B.WithSlot(w.seen[g], slot, id));
    RestOk(w, w', net, i);
    forall k ensures LoadsOf(net)(k) == LoadsOf(net[..i] + net[i + 1..])(k) + Bit(k == KeyOf(net[i])) {
      LoadsWithout(net, i, k);
    }
    TokensTake(w, w', KeyOf(net[i]), LoadsOf(net), LoadsOf(net[..i] + net[i + 1..]));
  }

  lemma {:induction false} WorldTakesProposal(w: World, w': World, net: seq<Parcel>, i: nat, id: BatchId)
    requires Knowledge(w) && ParcelsOk(w, net) && Tokens(w, LoadsOf(net)) && i < |net| && net[i] == Proposal(id)
    requires w' == w.(tickets := w.tickets + multiset{id})
    ensures Knowledge(w') && ParcelsOk(w', net[..i] + net[i + 1..]) && Tokens(w', LoadsOf(net[..i] + net[i + 1..]))
  {
    KnowledgeKept(w, w');
    RestOk(w, w', net, i);
    forall k ensures LoadsOf(net)(k) == LoadsOf(net[..i] + net[i + 1..])(k) + Bit(k == KeyOf(net[i])) {
      LoadsWithout(net, i, k);
    }
    TokensTake(w, w', KeyOf(net[i]), LoadsOf(net), LoadsOf(net[..i] + net[i + 1..]));
  }

  lemma {:induction false} TicketAdded(tickets: seq<PaxosRoles.Value>, v: PaxosRoles.Value)
    ensures TicketIds(tickets + [v]) == TicketIds(tickets) + multiset{IdOf(v)}
  {
    assert TicketSeq(tickets + [v]) == TicketSeq(tickets) + [IdOf(v)];
  }

  lemma {:induction false} GroupSubmits(d: Deployment, group: P.System, id: BatchId)
    requires Valid(d) && PaxosRest.Reached(Clusters.Group(d, LEADER_REGION), group)
    ensures var group' := P.Submitted(group, Exchange.LeaderAt(LEADER_REGION), PaxosRoles.OfBatch(id));
            && PaxosRest.Reached(Clusters.Group(d, LEADER_REGION), group')
            && BatchOrd(group'.hist) == BatchOrd(group.hist) && group'.hist.learned == group.hist.learned
            && TicketIds(group'.hist.tickets) == TicketIds(group.hist.tickets) + multiset{id}
  {
    var c, at, v := Clusters.Group(d, LEADER_REGION), Exchange.LeaderAt(LEADER_REGION), PaxosRoles.OfBatch(id);
    Clusters.GroupValid(d, LEADER_REGION);
    PaxosRest.ReachedNext(c, group, P.Submit(at, v));
    ReachedPlaces(c, group);
    TicketAdded(group.hist.tickets, v);
    SameBound(group.hist, P.Submitted(group, at, v).hist);
  }

  lemma {:induction false} SameBound(h: P.History, h': P.History)
    requires PaxosSafety.ChosenInRange(h) && h'.chosen == h.chosen && h.tickets <= h'.tickets
    ensures BatchOrd(h') == BatchOrd(h)
  {
  }

  lemma {:induction false} InvTakeProposal(d: Deployment, s: Global, i: nat)
    requires Inv(d, s) && i < |s.net| && s.net[i].Proposal?
    ensures Taken(s, i).Success? && Inv(d, Taken(s, i).value)
  {
    var s', w := Taken(s, i).value, View(s);
    GroupSubmits(d, s.group, s.net[i].id);
    assert View(s') == w.(tickets := w.tickets + multiset{s.net[i].id});
    WorldTakesProposal(w, View(s'), s.net, i, s.net[i].id);
  }

  /** Station `g` has taken parcel `i` and is now `st`. */
  function Replaced(s: Global, i: nat, g: nat, st: Station): Global
    requires i < |s.net| && g < |s.stations|
  {
    Global(s.group, s.rounds, s.stations[g := st], s.net[..i] + s.net[i + 1..])
  }

  lemma {:induction false} ViewReplaced(s: Global, i: nat, g: nat, st: Station)
    requires i < |s.net| && g < |s.stations|
    ensures View(Replaced(s, i, g, st)) == View(s).(seen := View(s).seen[g := st.seen])
  {
    var s' := Replaced(s, i, g, st);
    assert View(s').seen == View(s).seen[g := st.seen];
  }

  lemma {:induction false} InvReplaced(d: Deployment, s: Global, i: nat, g: nat, st: Station, w: World)
    requires Inv(d, s) && i < |s.net| && g < |s.stations| && StationOk(st)
    requires w == View(s).(seen := View(s).seen[g := st.seen])
    requires Knowledge(w) && ParcelsOk(w, s.net[..i] + s.net[i + 1..]) && Tokens(w, LoadsOf(s.net[..i] + s.net[i + 1..]))
    ensures Inv(d, Replaced(s, i, g, st))
  {
    ViewReplaced(s, i, g, st);
    StationsUpdated(s.stations, g, st);
  }

  lemma {:induction false} InvTakePart(d: Deployment, s: Global, i: nat)
    requires Inv(d, s) && i < |s.net| && s.net[i].Part?
    ensures Taken(s, i).Success? && Inv(d, Taken(s, i).value)
  {
    var w, g, batch := View(s), s.net[i].region, s.net[i].batch;
    var st := PartReady(d, s, i, g, batch);
    var w' := w.(seen := w.seen[g := st.seen]);
    WorldTakesPart(w, w', s.net, i, g, batch);
    InvReplaced(d, s, i, g, st, w');
  }

  lemma {:induction false} PartReady(d: Deployment, s: Global, i: nat, g: nat, batch: Batch) returns (st: Station)
    requires Inv(d, s) && i < |s.net| && s.net[i] == Part(g, batch)
    ensures g < |s.stations| && StationOk(st)
    ensures st == Advanced(s.stations[g], B.BatchAdded(s.stations[g].log, batch), B.WithBatch(s.stations[g].seen, batch))
  {
    var w := View(s);
    assert ParcelOk(w, s.net[i]);
    NotHere(w, s.net, i);
    assert StationOk(s.stations[g]);
    assert w.seen[g] == s.stations[g].seen;
    StationTakesPart(s.stations[g], batch);
    st := Advanced(s.stations[g], B.BatchAdded(s.stations[g].log, batch), B.WithBatch(s.stations[g].seen, batch));
  }

  lemma {:induction false} PlaceReady(d: Deployment, s: Global, i: nat, g: nat, slot: nat, id: BatchId)
    returns (b: B.BatchState, st: Station)
    requires Inv(d, s) && i < |s.net| && s.net[i] == Place(g, slot, id)
    ensures g < |s.stations| && B.SlotAdded(s.stations[g].log, slot, id, 0) == Success(b)
    ensures st == Advanced(s.stations[g], b, B.WithSlot(s.stations[g].seen, slot, id)) && StationOk(st)
  {
    var w := View(s);
    assert ParcelOk(w, s.net[i]);
    NotHere(w, s.net, i);
    assert StationOk(s.stations[g]);
    assert SeenOk(w, g, w.seen[g]);
    StationPlaced(w, g, s.stations[g], slot);
    b := B.SlotAdded(s.stations[g].log, slot, id, 0).value;
    st := Advanced(s.stations[g], b, B.WithSlot(s.stations[g].seen, slot, id));
  }

  lemma {:induction false} InvTakePlace(d: Deployment, s: Global, i: nat)
    requires Inv(d, s) && i < |s.net| && s.net[i].Place?
    ensures Taken(s, i).Success? && Inv(d, Taken(s, i).value)
  {
    var w, g, slot, id := View(s), s.net[i].region, s.net[i].slot, s.net[i].id;
    var b, st := PlaceReady(d, s, i, g, slot, id);
    var w' := w.(seen := w.seen[g := st.seen]);
    WorldTakesPlace(w, w', s.net, i, g, slot, id);
    InvReplaced(d, s, i, g, st, w');
    TakenPlace(s, i, g, slot, id, b);
  }

  lemma {:induction false} TakenPlace(s: Global, i: nat, g: nat, slot: nat, id: BatchId, b: B.BatchState)
    requires i < |s.net| && s.net[i] == Place(g, slot, id) && g < |s.stations|
    requires B.SlotAdded(s.stations[g].log, slot, id, 0) == Success(b)
    ensures Taken(s, i) == Success(Replaced(s, i, g, Advanced(s.stations[g], b, B.WithSlot(s.stations[g].seen, slot, id))))
  {
  }

  /* ---------- All steps ---------- */

  lemma {:induction false} StartGroup(d: Deployment)
    requires Valid(d)
    ensures var h := Clusters.GroupStart(d, LEADER_REGION).hist;
            BatchOrd(h) == [] && TicketIds(h.tickets) == multiset{} && forall m :: Heard(h, m) == {}
    ensures PaxosRest.Reached(Clusters.Group(d, LEADER_REGION), Clusters.GroupStart(d, LEADER_REGION))
  {
    Clusters.GroupValid(d, LEADER_REGION);
    PaxosRest.ReachedStart(Clusters.Group(d, LEADER_REGION));
  }

  /** Only open, empty rounds; nothing seen, decided, heard or proposed. */
  ghost predicate Blank(w: World) {
    && w.ord == [] && w.heard == {} && w.tickets == multiset{}
    && (forall m :: m in w.rounds ==> w.rounds[m] == [[]])
    && forall g :: 0 <= g < |w.seen| ==> w.seen[g] == B.Nothing
  }

  lemma {:induction false} BlankOk(w: World)
    requires Blank(w)
    ensures Knowledge(w) && Tokens(w, LoadsOf([]))
  {
    forall k: Key ensures LoadsOf([])(k) + Here(w, k) == Bit(Due(w, k)) {
    }
  }

  lemma {:induction false} InvStart(d: Deployment)
    requires Valid(d)
    ensures Inv(d, Start(d))
  {
    var s := Start(d);
    StartGroup(d);
    StartBlank(d, s);
    StartRounds(d);
    BlankOk(View(s));
    FreshStation();
  }

  lemma {:induction false} StartRounds(d: Deployment)
    requires Valid(d)
    ensures RoundsOk(d, Start(d).rounds)
  {
    forall m ensures m in AllMachines(d) <==> IsMachine(d, m) {
      if IsMachine(d, m) {
        assert m in MachinesOf(d, m.region);
      }
    }
  }

  lemma {:induction false} FreshStation()
    ensures StationOk(Station(B.Empty, [], B.Nothing))
  {
  }

  lemma {:induction false} StartBlank(d: Deployment, s: Global)
    requires Valid(d) && s == Start(d)
    ensures Blank(View(s))
  {
    StartGroup(d);
  }

  lemma {:induction false} InvStep(d: Deployment, s: Global, step: Step)
    requires Inv(d, s) && Enabled(d, s, step)
    ensures Next(d, s, step).Success? && Inv(d, Next(d, s, step).value)
  {
    match step
    case Add(m, t) => InvAdd(d, s, m, t);
    case Finish(m) => InvFinish(d, s, m);
    case Consensus(link, i) => InvConsensus(d, s, link, i);
    case Take(i) =>
      match s.net[i]
      case Proposal(_) => InvTakeProposal(d, s, i);
      case Part(_, _) => InvTakePart(d, s, i);
      case Place(_, _, _) => InvTakePlace(d, s, i);
  }

  lemma {:induction false} RunInvStep(d: Deployment, steps: seq<Step>, states: seq<Global>, i: nat)
    requires Run(d, steps, states) && i < |steps| && Inv(d, states[i])
    ensures Inv(d, states[i + 1])
  {
    InvStep(d, states[i], steps[i]);
  }

  ghost function InvAt(d: Deployment, states: seq<Global>): (bs: seq<bool>)
    ensures |bs| == |states| && forall k :: 0 <= k < |states| ==> bs[k] == Inv(d, states[k])
  {
    seq(|states|, k requires 0 <= k < |states| => Inv(d, states[k]))
  }

  lemma {:induction false} RunInv(d: Deployment, steps: seq<Step>, states: seq<Global>, i: nat)
    requires Run(d, steps, states) && i < |states|
    ensures Inv(d, states[i])
  {
    var bs := InvAt(d, states);
    InvStart(d);
    forall k | 0 <= k < |bs| - 1 && bs[k] ensures bs[k + 1] {
      RunInvStep(d, steps, states, k);
    }
    HoldsThroughout(bs, i);
  }
}
