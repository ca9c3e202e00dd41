/**
  What it means for the cluster that a Paxos leader may forget slot 0 too early: it never does over
  first-in-first-out links, and when it does, nobody ever hands out anything of its region's log.
*/
module ClusterForgets {
  import opened Topology
  import opened Counting
  import opened Deployments
  import opened LogManagers
  import opened LogNodes
  import opened RegionOrders
  import opened Fanout
  import opened Exchange
  import opened Clusters
  import opened ClusterInvariant
  import opened ClusterLogs
  import P = PaxosSystem
  import PaxosRoles
  import PaxosSafety
  import PaxosRest
  import PaxosProgress
  import L = LocalLogs
  import B = BatchLogs

  /** The step makes the leader of region `h` forget slot 0 before a majority answered for it. */
  ghost predicate Forgets(d: Deployment, c: Cluster, step: Step, h: nat)
    requires Valid(d) && Enabled(d, c, step) && h < Regions(d)
  {
    && step.Consensus? && step.region == h
    && PaxosRest.Forgets(Group(d, h), c.groups[h], P.Deliver(step.link, step.index))
  }

  /** One of the first `i` steps does so. */
  ghost predicate Forgot(d: Deployment, steps: seq<Step>, states: seq<Cluster>, i: nat, h: nat)
    requires Run(d, steps, states) && i < |states| && h < Regions(d)
  {
    exists j :: 0 <= j < i && Forgets(d, states[j], steps[j], h)
  }

  ghost predicate LostAt(d: Deployment, c: Cluster, h: nat)
    requires Valid(d) && h < Regions(d)
  {
    h < |c.groups| && PaxosRest.Lost(Group(d, h), c.groups[h])
  }

  /* ---------- Lost is forgotten ---------- */

  /** What a step does to the Paxos group of region `h`: nothing, or a step of the group. */
  lemma {:induction false} GroupStep(d: Deployment, c: Cluster, c': Cluster, step: Step, h: nat)
    returns (moves: bool, move: P.Step)
    requires Valid(d) && GroupsOk(d, c.groups) && Enabled(d, c, step) && Next(d, c, step) == Success(c') && h < Regions(d)
    ensures |c'.groups| == |c.groups|
    ensures !moves ==> c'.groups[h] == c.groups[h]
    ensures moves ==>
              P.Enabled(Group(d, h), c.groups[h], move) && c'.groups[h] == P.Next(Group(d, h), c.groups[h], move)
    ensures step.Consensus? && step.region == h ==> moves && move == P.Deliver(step.link, step.index)
    ensures !(step.Consensus? && step.region == h) ==> !moves || move.Submit?
    ensures step.Generate? && step.at.region == h ==> moves
    ensures moves && move.Submit? ==> step.Generate? && step.at.region == h
  {
    moves, move := false, P.Submit(LeaderAt(h), PaxosRoles.FromGenerator(LeaderAt(h)));
    match step
    case Generate(at, contents) =>
      if at.region == h {
        GroupValid(d, h);
        moves, move := true, P.Submit(at, PaxosRoles.FromGenerator(at));
      }
    case Consensus(g, link, i) =>
      if g == h {
        moves, move := true, P.Deliver(link, i);
      }
    case Receive(_) =>
  }

  lemma {:induction false} StepLost(d: Deployment, c: Cluster, c': Cluster, step: Step, h: nat)
    requires Valid(d) && GroupsOk(d, c.groups) && Enabled(d, c, step) && Next(d, c, step) == Success(c') && h < Regions(d)
    ensures LostAt(d, c', h) <==> LostAt(d, c, h) || Forgets(d, c, step, h)
  {
    var moves, move := GroupStep(d, c, c', step, h);
    if moves {
      assert PaxosRest.Reached(Group(d, h), c.groups[h]);
      PaxosRest.ReachedIsSafe(Group(d, h), c.groups[h]);
      PaxosRest.LostStep(Group(d, h), c.groups[h], move);
    }
  }

  lemma {:induction false} RunStepLost(d: Deployment, steps: seq<Step>, states: seq<Cluster>, k: nat, h: nat)
    requires Run(d, steps, states) && k < |steps| && h < Regions(d)
    ensures LostAt(d, states[k + 1], h) <==> LostAt(d, states[k], h) || Forgets(d, states[k], steps[k], h)
  {
    RunGroups(d, steps, states, k);
    StepLost(d, states[k], states[k + 1], steps[k], h);
  }

  lemma {:induction false} StartKept(d: Deployment, h: nat)
    requires Valid(d) && h < Regions(d)
    ensures !LostAt(d, Start(d), h)
  {
  }

  ghost function Losses(d: Deployment, states: seq<Cluster>, h: nat): (bs: seq<bool>)
    requires Valid(d) && h < Regions(d)
    ensures |bs| == |states| && forall k :: 0 <= k < |states| ==> bs[k] == LostAt(d, states[k], h)
  {
    seq(|states|, k requires 0 <= k < |states| => LostAt(d, states[k], h))
  }

  ghost function Forgettings(d: Deployment, steps: seq<Step>, states: seq<Cluster>, h: nat): (bs: seq<bool>)
    requires Run(d, steps, states) && h < Regions(d)
    ensures |bs| == |steps| && forall k :: 0 <= k < |steps| ==> bs[k] == Forgets(d, states[k], steps[k], h)
  {
    seq(|steps|, k requires 0 <= k < |steps| => Forgets(d, states[k], steps[k], h))
  }

  lemma {:induction false} ForgotWhen(d: Deployment, steps: seq<Step>, states: seq<Cluster>, i: nat, h: nat)
    requires Run(d, steps, states) && i < |states| && h < Regions(d)
    ensures Forgot(d, steps, states, i, h) <==> exists j :: 0 <= j < i && Forgettings(d, steps, states, h)[j]
  {
    var forgets := Forgettings(d, steps, states, h);
    assert forall j :: 0 <= j < |steps| ==> forgets[j] == Forgets(d, states[j], steps[j], h);
  }

  lemma {:induction false} LostIsForgotten(d: Deployment, steps: seq<Step>, states: seq<Cluster>, i: nat, h: nat)
    requires Run(d, steps, states) && i < |states| && h < Regions(d)
    ensures LostAt(d, states[i], h) <==> Forgot(d, steps, states, i, h)
  {
    var lost, forgets := Losses(d, states, h), Forgettings(d, steps, states, h);
    StartKept(d, h);
    forall k | 0 <= k < |steps| ensures lost[k + 1] <==> lost[k] || forgets[k] {
      RunStepLost(d, steps, states, k, h);
    }
    TurnedOn(lost, forgets, i);
    ForgotWhen(d, steps, states, i, h);
  }

  /* ---------- First-in-first-out links ---------- */

  /** Every Paxos delivery takes the oldest message of its link. */
  predicate InOrder(steps: seq<Step>) {
    forall i :: 0 <= i < |steps| && steps[i].Consensus? ==> steps[i].index == 0
  }

  ghost predicate LiveAt(d: Deployment, c: Cluster, h: nat)
    requires Valid(d) && h < Regions(d)
  {
    h < |c.groups| && PaxosProgress.Live(Group(d, h), c.groups[h])
  }

  lemma {:induction false} StepLive(d: Deployment, c: Cluster, c': Cluster, step: Step, h: nat)
    requires Valid(d) && GroupsOk(d, c.groups) && Enabled(d, c, step) && Next(d, c, step) == Success(c') && h < Regions(d)
    requires LiveAt(d, c, h) && (step.Consensus? ==> step.index == 0)
    ensures LiveAt(d, c', h) && !Forgets(d, c, step, h)
  {
    var moves, move := GroupStep(d, c, c', step, h);
    if moves {
      PaxosProgress.StepLive(Group(d, h), c.groups[h], move);
      PaxosProgress.NeverForgets(Group(d, h), c.groups[h], move);
    }
  }

  lemma {:induction false} RunStepLive(d: Deployment, steps: seq<Step>, states: seq<Cluster>, k: nat, h: nat)
    requires Run(d, steps, states) && InOrder(steps) && k < |steps| && h < Regions(d) && LiveAt(d, states[k], h)
    ensures LiveAt(d, states[k + 1], h) && !Forgets(d, states[k], steps[k], h)
  {
    RunGroups(d, steps, states, k);
    StepLive(d, states[k], states[k + 1], steps[k], h);
  }

  lemma {:induction false} StartLive(d: Deployment, h: nat)
    requires Valid(d) && h < Regions(d)
    ensures LiveAt(d, Start(d), h)
  {
    GroupValid(d, h);
    PaxosProgress.LiveStart(Group(d, h));
  }

  ghost function Lives(d: Deployment, states: seq<Cluster>, h: nat): (bs: seq<bool>)
    requires Valid(d) && h < Regions(d)
    ensures |bs| == |states| && forall k :: 0 <= k < |states| ==> bs[k] == LiveAt(d, states[k], h)
  {
    seq(|states|, k requires 0 <= k < |states| => LiveAt(d, states[k], h))
  }

  lemma {:induction false} RunLive(d: Deployment, steps: seq<Step>, states: seq<Cluster>, i: nat, h: nat)
    requires Run(d, steps, states) && InOrder(steps) && i < |states| && h < Regions(d)
    ensures LiveAt(d, states[i], h)
  {
    var bs := Lives(d, states, h);
    StartLive(d, h);
    forall k | 0 <= k < |bs| - 1 && bs[k] ensures bs[k + 1] {
      RunStepLive(d, steps, states, k, h);
    }
    HoldsThroughout(bs, i);
  }

  lemma {:induction false} InOrderNeverForgot(d: Deployment, steps: seq<Step>, states: seq<Cluster>, i: nat, h: nat)
    requires Run(d, steps, states) && InOrder(steps) && i < |states| && h < Regions(d)
    ensures !Forgot(d, steps, states, i, h)
  {
    forall j | 0 <= j < i ensures !Forgets(d, states[j], steps[j], h) {
      RunLive(d, steps, states, j, h);
      RunStepLive(d, steps, states, j, h);
    }
  }

  /* ---------- What is lost ---------- */

  lemma {:induction false} HasIsDue(d: Deployment, w: World, load: Load, m: Machine, item: Item)
    requires Valid(d) && Shaped(d, w) && Tokens(d, w, load) && IsMachine(d, m) && Has(w.seen[m], m, item)
    ensures Due(d, w, m, item)
  {
    assert load(item, m) + Bit(Has(w.seen[m], m, item)) == Bit(Due(d, w, m, item));
  }

  lemma {:induction false} LostIsUnheard(config: P.Config, group: P.System, x: Machine)
    requires PaxosRest.Reached(config, group) && |config.members.acceptors| > 0 && PaxosRest.Lost(config, group)
    ensures 0 !in Heard(group.hist, x) && |group.hist.chosen| > 0 && PaxosSafety.ChosenInRange(group.hist)
  {
    PaxosRest.ReachedIsSafe(config, group);
    if x in group.hist.learned {
      assert PaxosSafety.LearnedOk(config, group.hist, x, group.hist.learned[x]);
    }
  }

  lemma {:induction false} LostOrder(d: Deployment, c: Cluster, h: nat)
    requires Inv(d, c) && h < Regions(d) && LostAt(d, c, h)
    ensures OrderOf(c, h) != []
  {
    assert PaxosRest.Reached(Group(d, h), c.groups[h]);
    LostIsUnheard(Group(d, h), c.groups[h], LeaderAt(h));
  }

  /** No machine of the region has slot 0. */
  lemma {:induction false} LostLocally(d: Deployment, c: Cluster, m: Machine)
    requires Inv(d, c) && IsMachine(d, m) && LostAt(d, c, m.region)
    ensures m in c.seen && 0 !in c.seen[m].local.slots
  {
    var h := m.region;
    InvParts(d, c, m);
    LearnerIsMachine(d, m);
    assert PaxosRest.Reached(Group(d, h), c.groups[h]);
    LostIsUnheard(Group(d, h), c.groups[h], LearnerOf(m));
    if 0 in c.seen[m].local.slots {
      HasIsDue(d, View(c), LoadOf(d, c.net), m, LocalItem(h, 0));
      assert false;
    }
  }

  /** No machine of the region has passed anything on. */
  lemma {:induction false} LostUnpaired(d: Deployment, c: Cluster, m: Machine)
    requires Inv(d, c) && IsMachine(d, m) && LostAt(d, c, m.region)
    ensures m in c.logs && m in c.seen && c.logs[m].local.slots.next == 0
    ensures SeenOf(c.seen[m].logs, m.region).slots == map[]
  {
    LostLocally(d, c, m);
    InvParts(d, c, m);
    NodeParts(d, m, c.logs[m], c.seen[m], m.region);
    NothingPaired(c.seen[m].local, SeenOf(c.seen[m].logs, m.region), c.logs[m].local.slots.next);
  }

  lemma {:induction false} NothingPaired(a: L.Arrivals, own: B.Arrivals, n: nat)
    requires OwnSlots(own, a, n) && 0 !in a.slots
    ensures n == 0 && own.slots == map[]
  {
    assert n > 0 ==> L.Complete(a, 0);
  }

  lemma {:induction false} NothingSent(d: Deployment, c: Cluster, h: nat)
    requires Inv(d, c) && h < Regions(d) && LostAt(d, c, h)
    ensures Shaped(d, View(c)) && View(c).sent[h] == 0
  {
    var leader := LeaderAt(h);
    assert IsMachine(d, leader);
    LostUnpaired(d, c, leader);
  }

  lemma {:induction false} NotAnnounced(d: Deployment, w: World, load: Load, m: Machine, h: nat)
    requires Valid(d) && Shaped(d, w) && Tokens(d, w, load) && IsMachine(d, m) && h < Regions(d) && h != m.region
    requires w.sent[h] == 0
    ensures 0 !in SeenOf(w.seen[m].logs, h).slots
  {
    assert load(RemoteItem(h, 0), m) + Bit(Has(w.seen[m], m, RemoteItem(h, 0))) == Bit(Due(d, w, m, RemoteItem(h, 0)));
  }

  /** No machine elsewhere has an order of the region. */
  lemma {:induction false} LostElsewhere(d: Deployment, c: Cluster, m: Machine, h: nat)
    requires Inv(d, c) && IsMachine(d, m) && h < Regions(d) && h != m.region && LostAt(d, c, h)
    ensures m in c.seen && 0 !in SeenOf(c.seen[m].logs, h).slots
  {
    InvParts(d, c, m);
    NothingSent(d, c, h);
    NotAnnounced(d, View(c), LoadOf(d, c.net), m, h);
  }

  /** Nobody hands out anything of a region whose slot 0 is lost. */
  lemma {:induction false} LostIsSilent(d: Deployment, c: Cluster, m: Machine, h: nat)
    requires Inv(d, c) && IsMachine(d, m) && h < Regions(d) && LostAt(d, c, h)
    ensures Emitted(c, m, h) == [] && OrderOf(c, h) != []
  {
    LostOrder(d, c, h);
    if h == m.region {
      LostUnpaired(d, c, m);
    } else {
      LostElsewhere(d, c, m, h);
    }
    InvParts(d, c, m);
    NodeParts(d, m, c.logs[m], c.seen[m], h);
    LogStuck(LogOf(c.logs[m].logs, h), SeenOf(c.seen[m].logs, h), FactorOf(d, m, h), Emitted(c, m, h));
  }

  lemma {:induction false} LogStuck(b: B.BatchState, a: B.Arrivals, factor: nat, emitted: seq<Batch>)
    requires LogMid(b, a, factor, emitted) && b.ready == [] && !B.Complete(a, factor, 0)
    ensures emitted == []
  {
  }
}
