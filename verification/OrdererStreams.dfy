/**
  What the orderers promise: the stream that a region's orderer hands to its sequencer is always a
  prefix of one global sequence of multi-home transactions, filtered to those that involve the
  region.
*/
module OrdererStreams {
  import opened Topology
  import opened Counting
  import opened Deployments
  import opened Fanout
  import opened Orderers
  import opened RegionOrders
  import opened OrdererSystem
  import opened OrdererInvariant
  import Clusters
  import P = PaxosSystem
  import PaxosSafety

  /** The transactions of the rounds in `ord`, in that order. */
  function GlobalTxns(rounds: Rounds, ord: seq<BatchId>): seq<Txn> {
    if ord == [] then []
    else
      var last := ord[|ord| - 1];
      GlobalTxns(rounds, ord[..|ord| - 1]) + if Closed(rounds, last) then RoundOf(rounds, last) else []
  }

  /** The global multi-home sequence so far. */
  ghost function GlobalOf(s: Global): seq<Txn> {
    GlobalTxns(View(s).rounds, View(s).ord)
  }

  /** What the orderer of region `g` has handed to its sequencer. */
  function Stream(s: Global, g: nat): seq<Txn> {
    if g < |s.stations| then Unbatched(s.stations[g].emitted) else []
  }

  /* ---------- Filtering ---------- */

  lemma {:induction false} GlobalStep(rounds: Rounds, ord: seq<BatchId>, n: nat)
    requires n < |ord| && Closed(rounds, ord[n])
    ensures GlobalTxns(rounds, ord[..n + 1]) == GlobalTxns(rounds, ord[..n]) + RoundOf(rounds, ord[n])
  {
    assert ord[..n + 1][..n] == ord[..n];
  }

  lemma {:induction false} GlobalPrefix(rounds: Rounds, ord: seq<BatchId>, n: nat)
    requires n <= |ord|
    ensures GlobalTxns(rounds, ord[..n]) <= GlobalTxns(rounds, ord)
    decreases |ord| - n
  {
    if n == |ord| {
      assert ord[..n] == ord;
    } else {
      GlobalPrefix(rounds, ord, n + 1);
      assert ord[..n + 1][..n] == ord[..n];
    }
  }

  lemma {:induction false} InvolvingPrefix(xs: seq<Txn>, ys: seq<Txn>, g: nat)
    requires xs <= ys
    ensures Involving(xs, g) <= Involving(ys, g)
  {
    assert ys == xs + ys[|xs|..];
    InvolvingAppend(xs, ys[|xs|..], g);
  }

  /** `batches` are region `g`'s parts of the first rounds of `ord`. */
  ghost predicate PartsOf(rounds: Rounds, ord: seq<BatchId>, g: nat, batches: seq<Batch>) {
    && |batches| <= |ord|
    && forall k :: 0 <= k < |batches| ==>
         Closed(rounds, ord[k]) && batches[k] == Batch(ord[k], Involving(RoundOf(rounds, ord[k]), g))
  }

  lemma {:induction false} PartsAreFiltered(rounds: Rounds, ord: seq<BatchId>, g: nat, batches: seq<Batch>)
    requires PartsOf(rounds, ord, g, batches)
    ensures Unbatched(batches) == Involving(GlobalTxns(rounds, ord[..|batches|]), g)
  {
    if batches == [] {
      assert ord[..0] == [];
    } else {
      var n := |batches| - 1;
      PartsAreFiltered(rounds, ord, g, batches[..n]);
      GlobalStep(rounds, ord, n);
      InvolvingAppend(GlobalTxns(rounds, ord[..n]), RoundOf(rounds, ord[n]), g);
      assert batches[n].txns == Involving(RoundOf(rounds, ord[n]), g);
    }
  }

  lemma {:induction false} EmittedParts(w: World, g: nat, st: Station)
    requires SeenOk(w, g, st.seen) && StationOk(st)
    ensures PartsOf(w.rounds, w.ord, g, st.emitted)
  {
    var batches := st.emitted;
    forall k | 0 <= k < |batches|
      ensures k < |w.ord| && Closed(w.rounds, w.ord[k])
      ensures batches[k] == Batch(w.ord[k], Involving(RoundOf(w.rounds, w.ord[k]), g))
    {
      assert batches[k] == st.seen.data[st.seen.slots[k]];
    }
    if batches != [] {
      var last := |batches| - 1;
      assert batches[last] == st.seen.data[st.seen.slots[last]];
    }
  }

  /** One state's part of `StreamIsPrefix`. */
  lemma {:induction false} StateStream(d: Deployment, s: Global, g: nat)
    requires Inv(d, s)
    ensures Stream(s, g) <= Involving(GlobalOf(s), g)
  {
    if g < |s.stations| {
      var w, st := View(s), s.stations[g];
      assert StationOk(s.stations[g]);
      assert SeenOk(w, g, w.seen[g]);
      EmittedParts(w, g, st);
      PartsAreFiltered(w.rounds, w.ord, g, st.emitted);
      GlobalPrefix(w.rounds, w.ord, |st.emitted|);
      InvolvingPrefix(GlobalTxns(w.rounds, w.ord[..|st.emitted|]), GlobalTxns(w.rounds, w.ord), g);
    }
  }

  /* ---------- The global sequence only grows ---------- */

  ghost predicate Grown(w: World, w': World) {
    && w.ord <= w'.ord
    && forall id :: Closed(w.rounds, id) ==> Closed(w'.rounds, id) && RoundOf(w'.rounds, id) == RoundOf(w.rounds, id)
  }

  ghost predicate AllClosed(w: World) {
    forall k :: 0 <= k < |w.ord| ==> Closed(w.rounds, w.ord[k])
  }

  lemma {:induction false} GlobalSame(w: World, w': World, n: nat)
    requires Grown(w, w') && AllClosed(w) && n <= |w.ord|
    ensures GlobalTxns(w'.rounds, w.ord[..n]) == GlobalTxns(w.rounds, w.ord[..n])
  {
    if n > 0 {
      GlobalSame(w, w', n - 1);
      GlobalStep(w.rounds, w.ord, n - 1);
      GlobalStep(w'.rounds, w.ord, n - 1);
    }
  }

  lemma {:induction false} GlobalGrows(w: World, w': World)
    requires Grown(w, w') && AllClosed(w)
    ensures GlobalTxns(w.rounds, w.ord) <= GlobalTxns(w'.rounds, w'.ord)
  {
    GlobalSame(w, w', |w.ord|);
    GlobalPrefix(w'.rounds, w'.ord, |w.ord|);
    assert w.ord[..|w.ord|] == w.ord == w'.ord[..|w.ord|];
  }

  lemma {:induction false} TicketPresent(h: P.History, k: nat)
    requires PaxosSafety.ChosenInRange(h) && k < |h.chosen|
    ensures TicketIds(h.tickets)[BatchOrd(h)[k]] > 0
  {
    assert TicketSeq(h.tickets)[h.chosen[k]] == BatchOrd(h)[k];
    assert BatchOrd(h)[k] in TicketSeq(h.tickets);
  }

  /** Only finished rounds get a place. */
  lemma {:induction false} OrdClosed(d: Deployment, s: Global)
    requires Inv(d, s)
    ensures AllClosed(View(s))
  {
    var w := View(s);
    ReachedPlaces(Clusters.Group(d, LEADER_REGION), s.group);
    forall k | 0 <= k < |w.ord| ensures Closed(w.rounds, w.ord[k]) {
      TicketPresent(s.group.hist, k);
      var key := ProposalKey(w.ord[k]);
      assert LoadsOf(s.net)(key) + Here(w, key) == Bit(Due(w, key));
    }
  }

  lemma {:induction false} StepGrown(d: Deployment, s: Global, s': Global, step: Step)
    requires Inv(d, s) && Enabled(d, s, step) && Next(d, s, step) == Success(s')
    ensures Grown(View(s), View(s'))
  {
    match step
    case Add(m, t) => AddView(s, m, t);
    case Finish(m) => FinishView(s, m, BatchId(|s.rounds[m]|, m));
    case Consensus(link, i) => ConsensusGrown(d, s, link, i);
    case Take(i) => TakeGrown(d, s, i);
  }

  lemma {:induction false} ConsensusGrown(d: Deployment, s: Global, link: P.Link, i: nat)
    requires Inv(d, s) && i < |P.Q(s.group.net, link)| && link.dst in s.group.nodes
    ensures Grown(View(s), View(Decided(d, s, link, i)))
  {
    var c := Clusters.Group(d, LEADER_REGION);
    TicketsOnce(View(s), LoadsOf(s.net));
    GroupDelivers(d, s.group, P.Delivered(c, s.group, link, i), link, i, Reported(c, s.group, link, i));
  }

  lemma {:induction false} TakeRounds(s: Global, i: nat)
    requires i < |s.net| && Taken(s, i).Success?
    ensures Taken(s, i).value.rounds == s.rounds
    ensures !s.net[i].Proposal? ==> Taken(s, i).value.group == s.group
  {
  }

  lemma {:induction false} TakeGrown(d: Deployment, s: Global, i: nat)
    requires Inv(d, s) && i < |s.net| && Taken(s, i).Success?
    ensures Grown(View(s), View(Taken(s, i).value))
  {
    TakeRounds(s, i);
    if s.net[i].Proposal? {
      GroupSubmits(d, s.group, s.net[i].id);
    }
  }

  lemma {:induction false} RunGlobalStep(d: Deployment, steps: seq<Step>, states: seq<Global>, i: nat)
    requires Run(d, steps, states) && i < |steps|
    ensures GlobalOf(states[i]) <= GlobalOf(states[i + 1])
  {
    RunInv(d, steps, states, i);
    OrdClosed(d, states[i]);
    StepGrown(d, states[i], states[i + 1], steps[i]);
    GlobalGrows(View(states[i]), View(states[i + 1]));
  }

  ghost function Globals(states: seq<Global>): (xs: seq<seq<Txn>>)
    ensures |xs| == |states| && forall k :: 0 <= k < |states| ==> xs[k] == GlobalOf(states[k])
  {
    seq(|states|, k requires 0 <= k < |states| => GlobalOf(states[k]))
  }

  lemma {:induction false} RunGlobal(d: Deployment, steps: seq<Step>, states: seq<Global>, i: nat, j: nat)
    requires Run(d, steps, states) && i <= j < |states|
    ensures GlobalOf(states[i]) <= GlobalOf(states[j])
  {
    var xs := Globals(states);
    forall k | 0 <= k < |xs| - 1 ensures xs[k] <= xs[k + 1] {
      RunGlobalStep(d, steps, states, k);
    }
    PrefixChain(xs, i, j);
  }

  lemma {:induction false} RunStream(d: Deployment, steps: seq<Step>, states: seq<Global>, i: nat, g: nat)
    requires Run(d, steps, states) && i < |states|
    ensures Stream(states[i], g) <= Involving(GlobalOf(states[i]), g)
  {
    RunInv(d, steps, states, i);
    StateStream(d, states[i], g);
  }

  /* ---------- Main results ---------- */

  lemma {:induction false} NeverThrows(d: Deployment, steps: seq<Step>, states: seq<Global>, i: nat, step: Step)
    requires Run(d, steps, states) && i < |states| && Enabled(d, states[i], step)
    ensures Next(d, states[i], step).Success?
  {
    RunInv(d, steps, states, i);
    InvStep(d, states[i], step);
  }

  /** A region's stream is a prefix of the global sequence, then and ever after, filtered to the region. */
  lemma {:induction false} StreamIsPrefix(d: Deployment, steps: seq<Step>, states: seq<Global>, i: nat, j: nat, g: nat)
    requires Run(d, steps, states) && i <= j < |states|
    ensures Stream(states[i], g) <= Involving(GlobalOf(states[j]), g)
  {
    RunStream(d, steps, states, i, g);
    RunGlobal(d, steps, states, i, j);
    InvolvingPrefix(GlobalOf(states[i]), GlobalOf(states[j]), g);
  }

  /* ---------- Two transactions, two regions ---------- */

  /** Where the transaction at place `a` of the filtered sequence stands in the whole. */
  function Pos(all: seq<Txn>, g: nat, a: nat): nat
    requires a < |Involving(all, g)|
  {
    var n := |all| - 1;
    if g in all[n].regions && a == |Involving(all, g)| - 1 then n else Pos(all[..n], g, a)
  }

  lemma {:induction false} PosIs(all: seq<Txn>, g: nat, a: nat)
    requires a < |Involving(all, g)|
    ensures Pos(all, g, a) < |all| && all[Pos(all, g, a)] == Involving(all, g)[a]
  {
    var n := |all| - 1;
    if !(g in all[n].regions && a == |Involving(all, g)| - 1) {
      PosIs(all[..n], g, a);
    }
  }

  lemma {:induction false} PosRises(all: seq<Txn>, g: nat, a: nat, b: nat)
    requires a < b < |Involving(all, g)|
    ensures Pos(all, g, a) < Pos(all, g, b)
  {
    var n := |all| - 1;
    if g in all[n].regions && b == |Involving(all, g)| - 1 {
      PosIs(all[..n], g, a);
    } else {
      PosRises(all[..n], g, a, b);
    }
  }

  /** In two filtered sequences of one sequence, common elements stand in the same order. */
  lemma {:induction false} FilteredAlike(all: seq<Txn>, g: nat, h: nat, a: nat, b: nat, a': nat, b': nat)
    requires Distinct(all) && a < b < |Involving(all, g)| && a' < |Involving(all, h)| && b' < |Involving(all, h)|
    requires Involving(all, g)[a] == Involving(all, h)[a'] && Involving(all, g)[b] == Involving(all, h)[b']
    ensures a' < b'
  {
    PosIs(all, g, a);
    PosIs(all, g, b);
    PosIs(all, h, a');
    PosIs(all, h, b');
    PosRises(all, g, a, b);
    if b' < a' {
      PosRises(all, h, b', a');
    }
  }
}
