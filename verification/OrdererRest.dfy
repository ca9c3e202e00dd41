/**
  Consequences for transactions that are submitted once: two of them that involve two regions come
  in the same order in both; and once nothing is on its way, every region's stream is complete.
*/
module OrdererRest {
  import opened Topology
  import opened Counting
  import opened Deployments
  import opened Fanout
  import opened Orderers
  import opened OrdererSystem
  import opened OrdererInvariant
  import opened OrdererStreams
  import Exchange
  import Clusters
  import ClusterForgets
  import ClusterRest
  import P = PaxosSystem
  import PaxosRoles
  import PaxosRest
  import PaxosProgress
  import B = BatchLogs

  /** A place in the rounds: machine, round, position in the round. */
  datatype Spot = Spot(machine: Machine, round: nat, index: nat)

  predicate IsSpot(rounds: Rounds, p: Spot) {
    p.machine in rounds && p.round < |rounds[p.machine]| && p.index < |rounds[p.machine][p.round]|
  }

  function At(rounds: Rounds, p: Spot): Txn
    requires IsSpot(rounds, p)
  {
    rounds[p.machine][p.round][p.index]
  }

  /** No transaction stands in two places. */
  ghost predicate Unique(rounds: Rounds) {
    forall p, q {:trigger At(rounds, p), At(rounds, q)} ::
      IsSpot(rounds, p) && IsSpot(rounds, q) && At(rounds, p) == At(rounds, q) ==> p == q
  }

  ghost predicate Within(rounds: Rounds, txns: set<Txn>) {
    forall p {:trigger At(rounds, p)} :: IsSpot(rounds, p) ==> At(rounds, p) in txns
  }

  /** The transactions that the first `n` steps submit. */
  function Submitted(steps: seq<Step>, n: nat): set<Txn>
    requires n <= |steps|
  {
    if n == 0 then {}
    else Submitted(steps, n - 1) + if steps[n - 1].Add? then {steps[n - 1].txn} else {}
  }

  /** No transaction is submitted twice. */
  predicate Once(steps: seq<Step>) {
    forall i, j :: 0 <= i < j < |steps| && steps[i].Add? && steps[j].Add? ==> steps[i].txn != steps[j].txn
  }

  lemma {:induction false} NotYetSubmitted(steps: seq<Step>, i: nat, n: nat)
    requires Once(steps) && n <= i < |steps| && steps[i].Add?
    ensures steps[i].txn !in Submitted(steps, n)
  {
    if n > 0 {
      NotYetSubmitted(steps, i, n - 1);
    }
  }

  lemma {:induction false} AddUnique(rounds: Rounds, rounds': Rounds, m: Machine, t: Txn, txns: set<Txn>)
    requires Unique(rounds) && Within(rounds, txns) && t !in txns
    requires m in rounds && rounds[m] != []
    requires rounds' == rounds[m := rounds[m][|rounds[m]| - 1 := rounds[m][|rounds[m]| - 1] + [t]]]
    ensures Unique(rounds') && Within(rounds', txns + {t})
  {
    var last := |rounds[m]| - 1;
    var spot := Spot(m, last, |rounds[m][last]|);
    forall p | IsSpot(rounds', p)
      ensures p == spot || (IsSpot(rounds, p) && At(rounds, p) == At(rounds', p))
      ensures p == spot ==> At(rounds', p) == t
    {
    }
  }

  lemma {:induction false} FinishUnique(rounds: Rounds, rounds': Rounds, m: Machine, txns: set<Txn>)
    requires Unique(rounds) && Within(rounds, txns)
    requires m in rounds && rounds' == rounds[m := rounds[m] + [[]]]
    ensures Unique(rounds') && Within(rounds', txns)
  {
    forall p | IsSpot(rounds', p) ensures IsSpot(rounds, p) && At(rounds, p) == At(rounds', p) {
    }
  }

  lemma {:induction false} StepUnique(d: Deployment, s: Global, s': Global, step: Step, txns: set<Txn>)
    requires Valid(d) && Enabled(d, s, step) && Next(d, s, step) == Success(s')
    requires Unique(View(s).rounds) && Within(View(s).rounds, txns) && (step.Add? ==> step.txn !in txns)
    ensures Unique(View(s').rounds) && Within(View(s').rounds, txns + if step.Add? then {step.txn} else {})
  {
    match step
    case Add(m, t) => AddUnique(s.rounds, s'.rounds, m, t, txns);
    case Finish(m) => FinishUnique(s.rounds, s'.rounds, m, txns);
    case Consensus(_, _) =>
    case Take(i) => TakeRounds(s, i);
  }

  /** No repetition among the rounds of `s`, all of whose transactions are among `txns`. */
  ghost predicate Tidy(s: Global, txns: set<Txn>) {
    Unique(View(s).rounds) && Within(View(s).rounds, txns)
  }

  lemma {:induction false} RunStep(d: Deployment, steps: seq<Step>, states: seq<Global>, i: nat)
    requires Run(d, steps, states) && i < |steps|
    ensures Valid(d) && Enabled(d, states[i], steps[i]) && Next(d, states[i], steps[i]) == Success(states[i + 1])
  {
  }

  lemma {:induction false} SubmittedNext(steps: seq<Step>, i: nat)
    requires Once(steps) && i < |steps|
    ensures Submitted(steps, i + 1) == Submitted(steps, i) + if steps[i].Add? then {steps[i].txn} else {}
    ensures steps[i].Add? ==> steps[i].txn !in Submitted(steps, i)
  {
    if steps[i].Add? {
      NotYetSubmitted(steps, i, i);
    }
  }

  lemma {:induction false} StepTidy(d: Deployment, s: Global, s': Global, step: Step, txns: set<Txn>, txns': set<Txn>)
    requires Valid(d) && Enabled(d, s, step) && Next(d, s, step) == Success(s') && Tidy(s, txns)
    requires txns' == txns + (if step.Add? then {step.txn} else {}) && (step.Add? ==> step.txn !in txns)
    ensures Tidy(s', txns')
  {
    StepUnique(d, s, s', step, txns);
  }

  lemma {:induction false} BlankUnique(w: World)
    requires Blank(w)
    ensures Unique(w.rounds) && Within(w.rounds, {})
  {
    forall p ensures !IsSpot(w.rounds, p) {
    }
  }

  lemma {:induction false} TidyStart(d: Deployment, steps: seq<Step>, states: seq<Global>)
    requires Run(d, steps, states)
    ensures Tidy(states[0], Submitted(steps, 0))
  {
    StartBlank(d, states[0]);
    BlankUnique(View(states[0]));
  }

  ghost function TidyAt(steps: seq<Step>, states: seq<Global>): (bs: seq<bool>)
    requires |states| == |steps| + 1
    ensures |bs| == |states| && forall k :: 0 <= k < |states| ==> bs[k] == Tidy(states[k], Submitted(steps, k))
  {
    seq(|states|, k requires 0 <= k < |states| => Tidy(states[k], Submitted(steps, k)))
  }

  lemma {:induction false} RunUnique(d: Deployment, steps: seq<Step>, states: seq<Global>, i: nat)
    requires Run(d, steps, states) && Once(steps) && i < |states|
    ensures Tidy(states[i], Submitted(steps, i))
  {
    var bs := TidyAt(steps, states);
    TidyStart(d, steps, states);
    forall k | 0 <= k < |bs| - 1 && bs[k] ensures bs[k + 1] {
      RunStep(d, steps, states, k);
      SubmittedNext(steps, k);
      StepTidy(d, states[k], states[k + 1], steps[k], Submitted(steps, k), Submitted(steps, k + 1));
    }
    HoldsThroughout(bs, i);
  }

  /* ---------- The global sequence has no repetitions ---------- */

  lemma {:induction false} FromRound(rounds: Rounds, ord: seq<BatchId>, n: nat, x: Txn) returns (s: nat, i: nat)
    requires n <= |ord| && (forall k :: 0 <= k < n ==> Closed(rounds, ord[k])) && x in GlobalTxns(rounds, ord[..n])
    ensures s < n && i < |RoundOf(rounds, ord[s])| && RoundOf(rounds, ord[s])[i] == x
  {
    assert n > 0;
    GlobalStep(rounds, ord, n - 1);
    if x in GlobalTxns(rounds, ord[..n - 1]) {
      s, i := FromRound(rounds, ord, n - 1, x);
    } else {
      s := n - 1;
      i :| 0 <= i < |RoundOf(rounds, ord[s])| && RoundOf(rounds, ord[s])[i] == x;
    }
  }

  function SpotOf(id: BatchId, i: nat): Spot
    requires id.counter > 0
  {
    Spot(id.machine, id.counter - 1, i)
  }

  lemma {:induction false} DistinctJoin(a: seq<Txn>, b: seq<Txn>)
    requires Distinct(a) && Distinct(b) && forall x :: x in a ==> x !in b
    ensures Distinct(a + b)
  {
    var c := a + b;
    forall i, j | 0 <= i < j < |c| ensures c[i] != c[j] {
      if i < |a| <= j {
        assert c[i] in a && c[j] in b;
      }
    }
  }

  lemma {:induction false} RoundDistinct(rounds: Rounds, id: BatchId)
    requires Unique(rounds) && Closed(rounds, id)
    ensures Distinct(RoundOf(rounds, id))
  {
    var txns := RoundOf(rounds, id);
    forall i, j | 0 <= i < j < |txns| ensures txns[i] != txns[j] {
      assert At(rounds, SpotOf(id, i)) == txns[i] && At(rounds, SpotOf(id, j)) == txns[j];
    }
  }

  lemma {:induction false} GlobalDistinct(rounds: Rounds, ord: seq<BatchId>, n: nat)
    requires Unique(rounds) && Distinct(ord) && n <= |ord| && forall k :: 0 <= k < |ord| ==> Closed(rounds, ord[k])
    ensures Distinct(GlobalTxns(rounds, ord[..n]))
  {
    if n > 0 {
      GlobalDistinct(rounds, ord, n - 1);
      GlobalStep(rounds, ord, n - 1);
      var before, txns := GlobalTxns(rounds, ord[..n - 1]), RoundOf(rounds, ord[n - 1]);
      RoundDistinct(rounds, ord[n - 1]);
      forall x | x in before ensures x !in txns {
        var s, i := FromRound(rounds, ord, n - 1, x);
        NotInOther(rounds, ord[s], i, ord[n - 1]);
      }
      DistinctJoin(before, txns);
    }
  }

  lemma {:induction false} NotInOther(rounds: Rounds, id: BatchId, i: nat, id': BatchId)
    requires Unique(rounds) && Closed(rounds, id) && Closed(rounds, id') && id != id' && i < |RoundOf(rounds, id)|
    ensures RoundOf(rounds, id)[i] !in RoundOf(rounds, id')
  {
    var txns := RoundOf(rounds, id');
    forall j | 0 <= j < |txns| ensures txns[j] != RoundOf(rounds, id)[i] {
      assert At(rounds, SpotOf(id, i)) == RoundOf(rounds, id)[i] && At(rounds, SpotOf(id', j)) == txns[j];
      assert SpotOf(id, i) != SpotOf(id', j);
    }
  }

  lemma {:induction false} RunDistinct(d: Deployment, steps: seq<Step>, states: seq<Global>, i: nat)
    requires Run(d, steps, states) && Once(steps) && i < |states|
    ensures Distinct(GlobalOf(states[i]))
  {
    RunUnique(d, steps, states, i);
    RunOrd(d, steps, states, i);
    var w := View(states[i]);
    GlobalDistinct(w.rounds, w.ord, |w.ord|);
    assert w.ord[..|w.ord|] == w.ord;
  }

  lemma {:induction false} RunOrd(d: Deployment, steps: seq<Step>, states: seq<Global>, i: nat)
    requires Run(d, steps, states) && i < |states|
    ensures AllClosed(View(states[i])) && Distinct(View(states[i]).ord)
  {
    RunInv(d, steps, states, i);
    OrdClosed(d, states[i]);
  }

  /**
    Two transactions that both involve regions `g` and `h` come in the same order in the streams
    of both, at whatever times the streams are looked at.
  */
  lemma {:induction false} OrderedAlike(d: Deployment, steps: seq<Step>, states: seq<Global>, i: nat, j: nat, g: nat,
                                        h: nat, a: nat, b: nat, a': nat, b': nat)
    requires Run(d, steps, states) && Once(steps) && i < |states| && j < |states|
    requires a < b < |Stream(states[i], g)| && a' < |Stream(states[j], h)| && b' < |Stream(states[j], h)|
    requires Stream(states[i], g)[a] == Stream(states[j], h)[a']
    requires Stream(states[i], g)[b] == Stream(states[j], h)[b']
    ensures a' < b'
  {
    var k := if i <= j then j else i;
    RunDistinct(d, steps, states, k);
    StreamIsPrefix(d, steps, states, i, k, g);
    StreamIsPrefix(d, steps, states, j, k, h);
    FilteredAlike(GlobalOf(states[k]), g, h, a, b, a', b');
  }

  /* ---------- At rest ---------- */

  predicate AtRest(s: Global) {
    s.net == [] && P.Quiescent(s.group)
  }

  lemma {:induction false} DueIsHere(d: Deployment, s: Global, k: Key)
    requires Inv(d, s) && s.net == [] && Due(View(s), k)
    ensures Here(View(s), k) == 1
  {
    assert LoadsOf(s.net)(k) == 0;
  }

  lemma {:induction false} RestHeard(d: Deployment, s: Global, slot: nat)
    requires Inv(d, s) && AtRest(s) && slot < |View(s).ord| && !LostIn(d, s)
    ensures slot in View(s).heard
  {
    var c := Clusters.Group(d, LEADER_REGION);
    Clusters.GroupValid(d, LEADER_REGION);
    ClusterRest.GroupRest(c, s.group);
    assert Exchange.LeaderAt(LEADER_REGION) in c.members.learners;
    ClusterRest.ToldIsHeard(c, s.group.hist, Exchange.LeaderAt(LEADER_REGION), slot);
  }

  /** Every region has handed out its part of every decided round. */
  lemma {:induction false} RestEmitted(d: Deployment, s: Global, g: nat)
    requires Inv(d, s) && AtRest(s) && g < |s.stations| && !LostIn(d, s)
    ensures |s.stations[g].emitted| == |View(s).ord|
  {
    var w, st := View(s), s.stations[g];
    assert StationOk(s.stations[g]);
    assert SeenOk(w, g, w.seen[g]);
    OrdClosed(d, s);
    forall slot | 0 <= slot < |w.ord| ensures B.Complete(st.seen, 0, slot) {
      RestHeard(d, s, slot);
      DueIsHere(d, s, PlaceKey(g, slot));
      DueIsHere(d, s, PartKey(g, w.ord[slot]));
    }
    ClusterRest.LogReaches(st.log, st.seen, 0, st.emitted, |w.ord|);
  }

  lemma {:induction false} TicketPlaced(h: P.History, id: BatchId)
    requires PaxosRest.AllPlaced(h) && TicketIds(h.tickets)[id] > 0
    ensures id in BatchOrd(h)
  {
    assert id in TicketSeq(h.tickets);
    var t :| 0 <= t < |h.tickets| && TicketSeq(h.tickets)[t] == id;
    assert t in h.chosen;
    var k :| 0 <= k < |h.chosen| && h.chosen[k] == t;
    assert BatchOrd(h)[k] == id;
  }

  /** Every finished round has its place. */
  lemma {:induction false} RestPlaced(d: Deployment, s: Global, id: BatchId)
    requires Inv(d, s) && AtRest(s) && Closed(View(s).rounds, id)
    ensures id in View(s).ord
  {
    ClusterRest.GroupRest(Clusters.Group(d, LEADER_REGION), s.group);
    DueIsHere(d, s, ProposalKey(id));
    TicketPlaced(s.group.hist, id);
  }

  lemma {:induction false} RestStream(d: Deployment, s: Global, g: nat)
    requires Inv(d, s) && AtRest(s) && g < |s.stations| && !LostIn(d, s)
    ensures Stream(s, g) == Involving(GlobalOf(s), g)
  {
    assert StationOk(s.stations[g]);
    assert SeenOk(View(s), g, View(s).seen[g]);
    RestEmitted(d, s, g);
    WholeStream(View(s), g, s.stations[g]);
  }

  lemma {:induction false} WholeStream(w: World, g: nat, st: Station)
    requires SeenOk(w, g, st.seen) && StationOk(st) && |st.emitted| == |w.ord|
    ensures Unbatched(st.emitted) == Involving(GlobalTxns(w.rounds, w.ord), g)
  {
    EmittedParts(w, g, st);
    PartsAreFiltered(w.rounds, w.ord, g, st.emitted);
    assert w.ord[..|w.ord|] == w.ord;
  }

  /* ---------- Forgetting slot 0 ---------- */

  ghost predicate LostIn(d: Deployment, s: Global)
    requires Valid(d)
  {
    PaxosRest.Lost(Clusters.Group(d, LEADER_REGION), s.group)
  }

  /** The step makes the global leader forget slot 0 before a majority answered for it. */
  ghost predicate Forgets(d: Deployment, s: Global, step: Step)
    requires Valid(d) && Enabled(d, s, step)
  {
    && step.Consensus?
    && PaxosRest.Forgets(Clusters.Group(d, LEADER_REGION), s.group, P.Deliver(step.link, step.index))
  }

  /** One of the first `i` steps does so. */
  ghost predicate Forgot(d: Deployment, steps: seq<Step>, states: seq<Global>, i: nat)
    requires Run(d, steps, states) && i < |states|
  {
    exists j :: 0 <= j < i && Forgets(d, states[j], steps[j])
  }

  /** What a step does to the group: nothing, or a step of the group. */
  lemma {:induction false} GroupStep(d: Deployment, s: Global, s': Global, step: Step)
    returns (moves: bool, move: P.Step)
    requires Valid(d) && Enabled(d, s, step) && Next(d, s, step) == Success(s')
    ensures !moves ==> s'.group == s.group
    ensures moves ==>
              && P.Enabled(Clusters.Group(d, LEADER_REGION), s.group, move)
              && s'.group == P.Next(Clusters.Group(d, LEADER_REGION), s.group, move)
    ensures step.Consensus? ==> moves && move == P.Deliver(step.link, step.index)
    ensures !step.Consensus? && moves ==> move.Submit? && step.Take? && s.net[step.index].Proposal?
  {
    var at := Exchange.LeaderAt(LEADER_REGION);
    moves, move := false, P.Submit(at, PaxosRoles.FromGenerator(at));
    match step
    case Consensus(link, i) => moves, move := true, P.Deliver(link, i);
    case Take(i) =>
      if s.net[i].Proposal? {
        Clusters.GroupValid(d, LEADER_REGION);
        moves, move := true, P.Submit(at, PaxosRoles.OfBatch(s.net[i].id));
      } else {
        TakeRounds(s, i);
      }
    case _ =>
  }

  lemma {:induction false} StepLost(d: Deployment, s: Global, s': Global, step: Step)
    requires Inv(d, s) && Enabled(d, s, step) && Next(d, s, step) == Success(s')
    ensures LostIn(d, s') <==> LostIn(d, s) || Forgets(d, s, step)
  {
    var c := Clusters.Group(d, LEADER_REGION);
    var moves, move := GroupStep(d, s, s', step);
    if moves {
      PaxosRest.ReachedIsSafe(c, s.group);
      PaxosRest.LostStep(c, s.group, move);
    }
  }

  lemma {:induction false} RunStepLost(d: Deployment, steps: seq<Step>, states: seq<Global>, k: nat)
    requires Run(d, steps, states) && k < |steps|
    ensures LostIn(d, states[k + 1]) <==> LostIn(d, states[k]) || Forgets(d, states[k], steps[k])
  {
    RunInv(d, steps, states, k);
    StepLost(d, states[k], states[k + 1], steps[k]);
  }

  ghost function Losses(d: Deployment, states: seq<Global>): (bs: seq<bool>)
    requires Valid(d)
    ensures |bs| == |states| && forall k :: 0 <= k < |states| ==> bs[k] == LostIn(d, states[k])
  {
    seq(|states|, k requires 0 <= k < |states| => LostIn(d, states[k]))
  }

  ghost function Forgettings(d: Deployment, steps: seq<Step>, states: seq<Global>): (bs: seq<bool>)
    requires Run(d, steps, states)
    ensures |bs| == |steps| && forall k :: 0 <= k < |steps| ==> bs[k] == Forgets(d, states[k], steps[k])
  {
    seq(|steps|, k requires 0 <= k < |steps| => Forgets(d, states[k], steps[k]))
  }

  lemma {:induction false} ForgotWhen(d: Deployment, steps: seq<Step>, states: seq<Global>, i: nat)
    requires Run(d, steps, states) && i < |states|
    ensures Forgot(d, steps, states, i) <==> exists j :: 0 <= j < i && Forgettings(d, steps, states)[j]
  {
    var forgets := Forgettings(d, steps, states);
    assert forall j :: 0 <= j < |steps| ==> forgets[j] == Forgets(d, states[j], steps[j]);
  }

  lemma {:induction false} LostIsForgotten(d: Deployment, steps: seq<Step>, states: seq<Global>, i: nat)
    requires Run(d, steps, states) && i < |states|
    ensures LostIn(d, states[i]) <==> Forgot(d, steps, states, i)
  {
    var lost, forgets := Losses(d, states), Forgettings(d, steps, states);
    forall k | 0 <= k < |steps| ensures lost[k + 1] <==> lost[k] || forgets[k] {
      RunStepLost(d, steps, states, k);
    }
    TurnedOn(lost, forgets, i);
    ForgotWhen(d, steps, states, i);
  }

  /** Every delivery in the group takes the oldest message of its link. */
  predicate InOrder(steps: seq<Step>) {
    forall i :: 0 <= i < |steps| && steps[i].Consensus? ==> steps[i].index == 0
  }

  ghost predicate LiveIn(d: Deployment, s: Global)
    requires Valid(d)
  {
    PaxosProgress.Live(Clusters.Group(d, LEADER_REGION), s.group)
  }

  lemma {:induction false} RunStepLive(d: Deployment, steps: seq<Step>, states: seq<Global>, k: nat)
    requires Run(d, steps, states) && InOrder(steps) && k < |steps| && LiveIn(d, states[k])
    ensures LiveIn(d, states[k + 1]) && !Forgets(d, states[k], steps[k])
  {
    var c := Clusters.Group(d, LEADER_REGION);
    var moves, move := GroupStep(d, states[k], states[k + 1], steps[k]);
    if moves {
      PaxosProgress.StepLive(c, states[k].group, move);
      PaxosProgress.NeverForgets(c, states[k].group, move);
    }
  }

  lemma {:induction false} StartLive(d: Deployment)
    requires Valid(d)
    ensures LiveIn(d, Start(d))
  {
    Clusters.GroupValid(d, LEADER_REGION);
    PaxosProgress.LiveStart(Clusters.Group(d, LEADER_REGION));
  }

  ghost function Lives(d: Deployment, states: seq<Global>): (bs: seq<bool>)
    requires Valid(d)
    ensures |bs| == |states| && forall k :: 0 <= k < |states| ==> bs[k] == LiveIn(d, states[k])
  {
    seq(|states|, k requires 0 <= k < |states| => LiveIn(d, states[k]))
  }

  lemma {:induction false} RunLive(d: Deployment, steps: seq<Step>, states: seq<Global>, i: nat)
    requires Run(d, steps, states) && InOrder(steps) && i < |states|
    ensures LiveIn(d, states[i])
  {
    var bs := Lives(d, states);
    StartLive(d);
    forall k | 0 <= k < |bs| - 1 && bs[k] ensures bs[k + 1] {
      RunStepLive(d, steps, states, k);
    }
    HoldsThroughout(bs, i);
  }

  lemma {:induction false} InOrderNeverForgot(d: Deployment, steps: seq<Step>, states: seq<Global>, i: nat)
    requires Run(d, steps, states) && InOrder(steps) && i < |states|
    ensures !Forgot(d, steps, states, i)
  {
    forall j | 0 <= j < i ensures !Forgets(d, states[j], steps[j]) {
      RunLive(d, steps, states, j);
      RunStepLive(d, steps, states, j);
    }
  }

  lemma {:induction false} NotPlaced(w: World, loads: Loads, g: nat)
    requires Tokens(w, loads) && g < |w.seen| && 0 !in w.heard
    ensures 0 !in w.seen[g].slots
  {
    assert loads(PlaceKey(g, 0)) + Here(w, PlaceKey(g, 0)) == Bit(Due(w, PlaceKey(g, 0)));
  }

  /** The first place never got to any region. */
  lemma {:induction false} LostIsSilent(d: Deployment, s: Global, g: nat)
    requires Inv(d, s) && LostIn(d, s)
    ensures Stream(s, g) == [] && View(s).ord != []
  {
    var w := View(s);
    ClusterForgets.LostIsUnheard(Clusters.Group(d, LEADER_REGION), s.group, Exchange.LeaderAt(LEADER_REGION));
    if g < |s.stations| {
      NotPlaced(w, LoadsOf(s.net), g);
      assert StationOk(s.stations[g]);
      assert w.seen[g] == s.stations[g].seen;
      ClusterForgets.LogStuck(s.stations[g].log, s.stations[g].seen, 0, s.stations[g].emitted);
    }
  }

  /* ---------- Main result ---------- */

  /**
    At rest, whatever the order of deliveries, every finished round has its place and every region's
    stream is all of its share.  The one exception is a global leader that forgot slot 0 too early:
    no region has been given anything.
  */
  lemma {:induction false} RestIsComplete(d: Deployment, steps: seq<Step>, states: seq<Global>, i: nat, g: nat,
                                          id: BatchId)
    requires Run(d, steps, states) && i < |states| && AtRest(states[i])
    ensures Closed(View(states[i]).rounds, id) <==> id in View(states[i]).ord
    ensures g < |states[i].stations| ==>
              Stream(states[i], g) == if Forgot(d, steps, states, i) then [] else Involving(GlobalOf(states[i]), g)
    ensures Forgot(d, steps, states, i) ==> View(states[i]).ord != []
  {
    RunInv(d, steps, states, i);
    LostIsForgotten(d, steps, states, i);
    OrdClosed(d, states[i]);
    if LostIn(d, states[i]) {
      LostIsSilent(d, states[i], g);
    } else if g < |states[i].stations| {
      RestStream(d, states[i], g);
    }
    if Closed(View(states[i]).rounds, id) {
      RestPlaced(d, states[i], id);
    }
  }

  /** Over first-in-first-out links there is no exception. */
  lemma {:induction false} RestInOrder(d: Deployment, steps: seq<Step>, states: seq<Global>, i: nat, g: nat)
    requires Run(d, steps, states) && InOrder(steps) && i < |states| && AtRest(states[i]) && g < |states[i].stations|
    ensures Stream(states[i], g) == Involving(GlobalOf(states[i]), g)
  {
    RestIsComplete(d, steps, states, i, g, BatchId(0, Exchange.LeaderAt(g)));
    InOrderNeverForgot(d, steps, states, i);
  }
}
