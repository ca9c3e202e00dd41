/**
  The multi-home orderers of all regions together with the global Paxos group, as a step system,
  and what every step keeps.

  `Tokens` is the conservation law: a finished round's proposal is on its way or has been
  submitted; each region's part of it, and each place the leader was told of, is on its way to the
  region or there; never both.
*/
module OrdererSystem {
  import opened Topology
  import opened Deployments
  import opened Fanout
  import opened LogManagers
  import opened LogNodes
  import opened Orderers
  import opened RegionOrders
  import Exchange
  import Clusters
  import P = PaxosSystem
  import PaxosRoles
  import PaxosSafety
  import PaxosRest
  import B = BatchLogs

  const LEADER_REGION := 0

  /** The rounds of the orderer on each machine, of which the last is still open. */
  type Rounds = map<Machine, seq<seq<Txn>>>

  /**
    The orderer of a region that keeps the region's log: the log and what it has handed out;
    `seen` is history, what the log has been told.
  */
  datatype Station = Station(log: B.BatchState, emitted: seq<Batch>, seen: B.Arrivals)

  datatype Global = Global(group: P.System, rounds: Rounds, stations: seq<Station>, net: seq<Parcel>)

  function Start(d: Deployment): Global
    requires Valid(d)
  {
    Global(Clusters.GroupStart(d, LEADER_REGION), map m | m in AllMachines(d) :: [[]],
           seq(Regions(d), g => Station(B.Empty, [], B.Nothing)), [])
  }

  /**
    The orderer of a machine gets a transaction, its timer ends the open round, the group delivers
    some message of a link, or a parcel arrives.
  */
  datatype Step =
    | Add(at: Machine, txn: Txn)
    | Finish(at: Machine)
    | Consensus(link: P.Link, index: nat)
    | Take(index: nat)

  predicate Proper(d: Deployment, t: Txn) {
    t.regions != [] && Distinct(t.regions) && forall g :: g in t.regions ==> g < |d.replicas|
  }

  predicate Enabled(d: Deployment, s: Global, step: Step) {
    match step
    case Add(m, t) => m in s.rounds && s.rounds[m] != [] && Proper(d, t)
    case Finish(m) => m in s.rounds && s.rounds[m] != [] && s.rounds[m][|s.rounds[m]| - 1] != []
    case Consensus(link, i) => i < |P.Q(s.group.net, link)| && link.dst in s.group.nodes
    case Take(i) => i < |s.net|
  }

  function Added(s: Global, m: Machine, t: Txn): Global
    requires m in s.rounds && s.rounds[m] != []
  {
    var mine := s.rounds[m];
    var last := |mine| - 1;
    s.(rounds := s.rounds[m := mine[last := mine[last] + [t]]])
  }

  function Finished(s: Global, m: Machine): Global
    requires m in s.rounds && s.rounds[m] != []
  {
    var mine := s.rounds[m];
    var id := BatchId(|mine|, m);
    s.(rounds := s.rounds[m := mine + [[]]],
       net := s.net + Round(id, Parts(id, mine[|mine| - 1], |s.stations|)))
  }

  function IdOf(v: PaxosRoles.Value): BatchId {
    match v
    case OfBatch(id) => id
    case FromGenerator(m) => BatchId(0, m)
  }

  /** The place of a round, to every region. */
  function PlacesOf(k: PaxosRoles.Commit, n: nat): seq<Parcel> {
    seq(n, g requires 0 <= g < n => Place(g, k.slot, IdOf(k.value)))
  }

  /** Commits matter only on the leader itself. */
  function ToldPlaces(x: Machine, ks: seq<PaxosRoles.Commit>, n: nat): seq<Parcel> {
    if ks == [] then []
    else (if ks[0].leader == x then PlacesOf(ks[0], n) else []) + ToldPlaces(x, ks[1..], n)
  }

  function Decided(d: Deployment, s: Global, link: P.Link, i: nat): Global
    requires Valid(d) && i < |P.Q(s.group.net, link)| && link.dst in s.group.nodes
  {
    var config := Clusters.Group(d, LEADER_REGION);
    s.(group := P.Delivered(config, s.group, link, i),
       net := s.net + ToldPlaces(link.dst, Reported(config, s.group, link, i), |s.stations|))
  }

  /** The station after its log became `b`; everything ready is handed out. */
  function Advanced(st: Station, b: B.BatchState, seen: B.Arrivals): Station {
    st.(log := Drained(b).0, emitted := st.emitted + Drained(b).1, seen := seen)
  }

  function Taken(s: Global, i: nat): Result<Global>
    requires i < |s.net|
  {
    var rest := s.(net := s.net[..i] + s.net[i + 1..]);
    match s.net[i]
    case Proposal(id) => Success(rest.(group := P.Submitted(s.group, Exchange.LeaderAt(LEADER_REGION), PaxosRoles.OfBatch(id))))
    case Part(g, batch) =>
      if g >= |s.stations| then Failure("no such region")
      else
        var st := s.stations[g];
        Success(rest.(stations := s.stations[g := Advanced(st, B.BatchAdded(st.log, batch), B.WithBatch(st.seen, batch))]))
    case Place(g, slot, id) =>
      if g >= |s.stations| then Failure("no such region")
      else
        var st := s.stations[g];
        match B.SlotAdded(st.log, slot, id, 0)
        case Failure(e) => Failure(e)
        case Success(b) =>
          Success(rest.(stations := s.stations[g := Advanced(st, b, B.WithSlot(st.seen, slot, id))]))
  }

  function Next(d: Deployment, s: Global, step: Step): Result<Global>
    requires Valid(d) && Enabled(d, s, step)
  {
    match step
    case Add(m, t) => Success(Added(s, m, t))
    case Finish(m) => Success(Finished(s, m))
    case Consensus(link, i) => Success(Decided(d, s, link, i))
    case Take(i) => Taken(s, i)
  }

  ghost predicate Run(d: Deployment, steps: seq<Step>, states: seq<Global>) {
    && Valid(d)
    && |states| == |steps| + 1
    && states[0] == Start(d)
    && forall i {:trigger steps[i]} :: 0 <= i < |steps| ==>
         Enabled(d, states[i], steps[i]) && Next(d, states[i], steps[i]) == Success(states[i + 1])
  }

  /* ---------- What is on its way ---------- */

  datatype Key = ProposalKey(id: BatchId) | PartKey(region: nat, id: BatchId) | PlaceKey(region: nat, slot: nat)

  function KeyOf(p: Parcel): Key {
    match p
    case Proposal(id) => ProposalKey(id)
    case Part(g, batch) => PartKey(g, batch.id)
    case Place(g, slot, _) => PlaceKey(g, slot)
  }

  function Tally(ps: seq<Parcel>, k: Key): nat {
    if ps == [] then 0 else Tally(ps[..|ps| - 1], k) + Bit(KeyOf(ps[|ps| - 1]) == k)
  }

  /** How many parcels of each key are on their way. */
  type Tallier = seq<Parcel> -> nat

  ghost predicate Tallies(f: Tallier, k: Key) {
    && f([]) == 0
    && (forall p :: f([p]) == Bit(KeyOf(p) == k))
    && (forall ps, qs :: f(ps + qs) == f(ps) + f(qs))
  }

  function TallierOf(k: Key): Tallier {
    (ps: seq<Parcel>) => Tally(ps, k)
  }

  lemma {:induction false} TallyAppend(ps: seq<Parcel>, qs: seq<Parcel>, k: Key)
    ensures Tally(ps + qs, k) == Tally(ps, k) + Tally(qs, k)
  {
    if qs == [] {
      assert ps + qs == ps;
    } else {
      TallyAppend(ps, qs[..|qs| - 1], k);
      assert (ps + qs)[..|ps + qs| - 1] == ps + qs[..|qs| - 1];
    }
  }

  lemma {:induction false} TallyOne(p: Parcel, k: Key)
    ensures Tally([p], k) == Bit(KeyOf(p) == k)
  {
    assert [p][..0] == [];
  }

  lemma {:induction false} TallierTallies(k: Key)
    ensures Tallies(TallierOf(k), k)
  {
    forall p ensures TallierOf(k)([p]) == Bit(KeyOf(p) == k) {
      TallyOne(p, k);
    }
    forall ps, qs ensures TallierOf(k)(ps + qs) == TallierOf(k)(ps) + TallierOf(k)(qs) {
      TallyAppend(ps, qs, k);
    }
  }

  lemma {:induction false} TallyParts(f: Tallier, k: Key, open: seq<Batch>, n: nat)
    requires Tallies(f, k) && n <= |open|
    ensures f(seq(n, g requires 0 <= g < n => Part(g, open[g]))) ==
            Bit(k.PartKey? && k.region < n && k.id == open[k.region].id)
  {
    var ps := seq(n, g requires 0 <= g < n => Part(g, open[g]));
    if n == 0 {
      assert ps == [];
    } else {
      TallyParts(f, k, open, n - 1);
      assert ps == seq(n - 1, g requires 0 <= g < n - 1 => Part(g, open[g])) + [Part(n - 1, open[n - 1])];
    }
  }

  /** A finished round sends its proposal and one part per region. */
  lemma {:induction false} TallyRound(f: Tallier, k: Key, id: BatchId, txns: seq<Txn>, n: nat)
    requires Tallies(f, k)
    ensures f(Round(id, Parts(id, txns, n))) ==
            Bit(k == ProposalKey(id)) + Bit(k.PartKey? && k.region < n && k.id == id)
  {
    TallyParts(f, k, Parts(id, txns, n), n);
  }

  lemma {:induction false} TallyPlaces(f: Tallier, k: Key, commit: PaxosRoles.Commit, n: nat)
    requires Tallies(f, k)
    ensures f(PlacesOf(commit, n)) == Bit(k.PlaceKey? && k.region < n && k.slot == commit.slot)
  {
    if n == 0 {
      assert PlacesOf(commit, n) == [];
    } else {
      TallyPlaces(f, k, commit, n - 1);
      assert PlacesOf(commit, n) == PlacesOf(commit, n - 1) + [Place(n - 1, commit.slot, IdOf(commit.value))];
    }
  }

  /* ---------- The invariant ---------- */

  /** The rounds of all machines, what the logs have been told, and the group's history. */
  datatype World = World(rounds: Rounds, seen: seq<B.Arrivals>, ord: seq<BatchId>, heard: set<nat>,
                         tickets: multiset<BatchId>)

  /** Round `id` has been finished. */
  predicate Closed(rounds: Rounds, id: BatchId) {
    id.machine in rounds && 1 <= id.counter < |rounds[id.machine]|
  }

  function RoundOf(rounds: Rounds, id: BatchId): seq<Txn>
    requires Closed(rounds, id)
  {
    rounds[id.machine][id.counter - 1]
  }

  ghost predicate Due(w: World, k: Key) {
    match k
    case ProposalKey(id) => Closed(w.rounds, id)
    case PartKey(g, id) => g < |w.seen| && Closed(w.rounds, id)
    case PlaceKey(g, slot) => g < |w.seen| && slot in w.heard
  }

  ghost function Here(w: World, k: Key): nat {
    match k
    case ProposalKey(id) => w.tickets[id]
    case PartKey(g, id) => Bit(g < |w.seen| && id in w.seen[g].data)
    case PlaceKey(g, slot) => Bit(g < |w.seen| && slot in w.seen[g].slots)
  }

  type Loads = Key -> nat

  function LoadsOf(net: seq<Parcel>): Loads {
    (k: Key) => Tally(net, k)
  }

  ghost predicate Tokens(w: World, loads: Loads) {
    forall k: Key {:trigger loads(k)} :: loads(k) + Here(w, k) == Bit(Due(w, k))
  }

  ghost predicate ParcelOk(w: World, p: Parcel) {
    match p
    case Proposal(id) => true
    case Part(g, batch) =>
      g < |w.seen| && Closed(w.rounds, batch.id) && batch.txns == Involving(RoundOf(w.rounds, batch.id), g)
    case Place(g, slot, id) => g < |w.seen| && slot < |w.ord| && id == w.ord[slot]
  }

  ghost predicate ParcelsOk(w: World, ps: seq<Parcel>) {
    forall p :: p in ps ==> ParcelOk(w, p)
  }

  /** A log knows only finished rounds and decided places. */
  ghost predicate SeenOk(w: World, g: nat, a: B.Arrivals) {
    && a.acks == multiset{}
    && (forall s :: s in a.slots ==> s < |w.ord| && a.slots[s] == w.ord[s])
    && (forall id :: id in a.data ==>
          Closed(w.rounds, id) && a.data[id] == Batch(id, Involving(RoundOf(w.rounds, id), g)))
  }

  ghost predicate Knowledge(w: World) {
    && Distinct(w.ord)
    && forall g {:trigger SeenOk(w, g, w.seen[g])} :: 0 <= g < |w.seen| ==> SeenOk(w, g, w.seen[g])
  }

  ghost predicate StationOk(st: Station) {
    LogMid(st.log, st.seen, 0, st.emitted) && st.log.ready == []
  }

  ghost function BatchOrd(h: P.History): seq<BatchId> {
    if PaxosSafety.ChosenInRange(h)
    then seq(|h.chosen|, k requires 0 <= k < |h.chosen| => IdOf(PaxosSafety.Bound(h, k))) else []
  }

  function TicketSeq(tickets: seq<PaxosRoles.Value>): seq<BatchId> {
    seq(|tickets|, t requires 0 <= t < |tickets| => IdOf(tickets[t]))
  }

  function TicketIds(tickets: seq<PaxosRoles.Value>): multiset<BatchId> {
    multiset(TicketSeq(tickets))
  }

  ghost function View(s: Global): World {
    World(s.rounds, seq(|s.stations|, g requires 0 <= g < |s.stations| => s.stations[g].seen),
          BatchOrd(s.group.hist), Heard(s.group.hist, Exchange.LeaderAt(LEADER_REGION)), TicketIds(s.group.hist.tickets))
  }

  ghost predicate StationsOk(stations: seq<Station>) {
    forall g {:trigger StationOk(stations[g])} :: 0 <= g < |stations| ==> StationOk(stations[g])
  }

  /** Every machine has a round open. */
  ghost predicate RoundsOk(d: Deployment, rounds: Rounds) {
    forall m :: (m in rounds <==> IsMachine(d, m)) && (m in rounds ==> rounds[m] != [])
  }

  ghost predicate Inv(d: Deployment, s: Global) {
    && Valid(d) && |s.stations| == Regions(d) && RoundsOk(d, s.rounds)
    && PaxosRest.Reached(Clusters.Group(d, LEADER_REGION), s.group)
    && StationsOk(s.stations)
    && Knowledge(View(s)) && ParcelsOk(View(s), s.net) && Tokens(View(s), LoadsOf(s.net))
  }
}
