/**
  The whole ordering pipeline as a step system: every machine generates batches and runs a log
  manager, every region runs a Paxos group, and packets between log managers may be delivered in
  any order.
*/
module Clusters {
  import opened Topology
  import opened Deployments
  import opened Fanout
  import opened LogManagers
  import opened LogNodes
  import opened RegionOrders
  import opened Exchange
  import opened Generation
  import P = PaxosSystem
  import PaxosRoles
  import PaxosSafety
  import PaxosRest

  /** `seen` and `made` are history: what was received and what was generated. */
  datatype Cluster = Cluster(
    groups: seq<P.System>, logs: map<Machine, LogState>, net: seq<Packet>,
    seen: map<Machine, Seen>, made: map<Machine, seq<seq<Batch>>>)

  function Group(d: Deployment, g: nat): P.Config
    requires Valid(d) && g < Regions(d)
  {
    P.Config(MachinesOf(d, g), MembersOf(d, g))
  }

  lemma {:induction false} GroupValid(d: Deployment, g: nat)
    requires Valid(d) && g < Regions(d)
    ensures P.ValidConfig(Group(d, g)) && P.LeaderOf(Group(d, g)) == LeaderAt(g)
    ensures forall m :: m in Group(d, g).machines <==> IsMachine(d, m) && m.region == g
    ensures forall m :: m in Group(d, g).members.learners <==>
              IsMachine(d, m) && m.region == g && (m.replica == 0 || m.partition == 0)
  {
    MembersAreMachines(d, g);
  }

  function Start(d: Deployment): Cluster
    requires Valid(d)
  {
    Cluster(seq(Regions(d), g requires 0 <= g < Regions(d) => GroupStart(d, g)),
            map m | m in AllMachines(d) :: Fresh, [],
            map m | m in AllMachines(d) :: Unseen, map m | m in AllMachines(d) :: [])
  }

  function GroupStart(d: Deployment, g: nat): P.System
    requires Valid(d) && g < Regions(d)
  {
    GroupValid(d, g);
    P.Init(Group(d, g))
  }

  /**
    A generator finishes a batch (its contents given per partition), a Paxos group delivers
    some message of a link, or a log manager takes a packet.
  */
  datatype Step =
    | Generate(at: Machine, contents: seq<seq<Txn>>)
    | Consensus(region: nat, link: P.Link, index: nat)
    | Receive(index: nat)

  predicate Enabled(d: Deployment, c: Cluster, step: Step) {
    match step
    case Generate(at, contents) => IsMachine(d, at) && |contents| == d.partitions
    case Consensus(g, link, i) =>
      g < |d.replicas| && g < |c.groups| && i < |P.Q(c.groups[g].net, link)| && link.dst in c.groups[g].nodes
    case Receive(i) => i < |c.net|
  }

  function Shares(id: BatchId, contents: seq<seq<Txn>>): seq<Batch> {
    seq(|contents|, k requires 0 <= k < |contents| => Batch(id, contents[k]))
  }

  function Generated(d: Deployment, c: Cluster, at: Machine, contents: seq<seq<Txn>>): Cluster
    requires Valid(d) && IsMachine(d, at) && |contents| == d.partitions && at in c.made && at.region < |c.groups|
  {
    var position := |c.made[at]|;
    var shares := Shares(BatchId(position + 1, at), contents);
    var group := P.Submitted(c.groups[at.region], at, PaxosRoles.FromGenerator(at));
    c.(groups := c.groups[at.region := group],
       net := c.net + DataPackets(d, at, position, shares),
       made := c.made[at := c.made[at] + [shares]])
  }

  /** Each commit reported on a machine goes to the log manager of that machine. */
  function ToldAll(x: Machine, ks: seq<PaxosRoles.Commit>): seq<Packet> {
    if ks == [] then []
    else [Packet(x, x, LocalOrder(ks[0].slot, GeneratorOf(ks[0].value), ks[0].leader))] + ToldAll(x, ks[1..])
  }

  function Decided(d: Deployment, c: Cluster, g: nat, link: P.Link, i: nat): Cluster
    requires Valid(d) && Enabled(d, c, Consensus(g, link, i))
  {
    var config := Group(d, g);
    c.(groups := c.groups[g := P.Delivered(config, c.groups[g], link, i)],
       net := c.net + ToldAll(link.dst, Reported(config, c.groups[g], link, i)))
  }

  function Handled(d: Deployment, c: Cluster, i: nat): Result<Cluster>
    requires Valid(d) && i < |c.net|
  {
    var p := c.net[i];
    if !IsMachine(d, p.to) || p.to !in c.logs || p.to !in c.seen then Failure("no such machine")
    else
      match LogManagers.Receive(d, c.logs[p.to], p)
      case Failure(e) => Failure(e)
      case Success(o) =>
        Success(c.(logs := c.logs[p.to := o.state],
                   seen := c.seen[p.to := SeenAfter(d, c.logs[p.to], c.seen[p.to], p)],
                   net := c.net[..i] + c.net[i + 1..] + o.sends))
  }

  function Next(d: Deployment, c: Cluster, step: Step): Result<Cluster>
    requires Valid(d) && Enabled(d, c, step)
  {
    match step
    case Generate(at, contents) =>
      if at in c.made && at.region < |c.groups| then Success(Generated(d, c, at, contents))
      else Failure("no such machine")
    case Consensus(g, link, i) => Success(Decided(d, c, g, link, i))
    case Receive(i) => Handled(d, c, i)
  }

  /** `states` are the states that the run `steps` goes through. */
  ghost predicate Run(d: Deployment, steps: seq<Step>, states: seq<Cluster>) {
    && Valid(d)
    && |states| == |steps| + 1
    && states[0] == Start(d)
    && forall i {:trigger steps[i]} :: 0 <= i < |steps| ==>
         Enabled(d, states[i], steps[i]) && Next(d, states[i], steps[i]) == Success(states[i + 1])
  }

  /** Nothing is on its way, in any Paxos group or between log managers. */
  predicate AtRest(c: Cluster) {
    c.net == [] && forall g :: 0 <= g < |c.groups| ==> P.Quiescent(c.groups[g])
  }

  /* ---------- The invariant ---------- */

  ghost predicate GroupsOk(d: Deployment, groups: seq<P.System>)
    requires Valid(d)
  {
    && |groups| == Regions(d)
    && forall g {:trigger PaxosRest.Reached(Group(d, g), groups[g])} ::
         0 <= g < Regions(d) ==> PaxosRest.Reached(Group(d, g), groups[g])
  }

  ghost predicate Peopled(d: Deployment, c: Cluster) {
    forall m :: (m in c.logs <==> IsMachine(d, m)) && (m in c.seen <==> IsMachine(d, m)) && (m in c.made <==> IsMachine(d, m))
  }

  ghost predicate NodesOk(d: Deployment, c: Cluster)
    requires Valid(d)
  {
    forall m {:trigger NodeOk(d, m, c.logs[m], c.seen[m])} ::
      m in c.logs && m in c.seen ==> NodeOk(d, m, c.logs[m], c.seen[m])
  }

  ghost function OrdOf(h: P.History): seq<Machine> {
    if PaxosSafety.ChosenInRange(h) then Ord(h) else []
  }

  function SentBy(logs: map<Machine, LogState>, g: nat): nat {
    if LeaderAt(g) in logs then logs[LeaderAt(g)].local.slots.next else 0
  }

  ghost function HeardBy(groups: seq<P.System>, m: Machine): set<nat> {
    if m.region < |groups| then Heard(groups[m.region].hist, m) else {}
  }

  ghost function View(c: Cluster): World {
    World(seq(|c.groups|, g requires 0 <= g < |c.groups| => OrdOf(c.groups[g].hist)),
          seq(|c.groups|, g requires 0 <= g < |c.groups| => SentBy(c.logs, g)),
          map m | m in c.logs :: HeardBy(c.groups, m),
          c.made, c.seen)
  }
}
