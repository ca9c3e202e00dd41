/** The work done for one proposal is bounded, so every run comes to rest once proposals stop. */
module PaxosWork {
  import opened Topology
  import opened Counting
  import opened PaxosRoles
  import opened PaxosSystem
  import opened PaxosQueues
  import opened PaxosSafety
  import opened PaxosRest

  function Links(c: Config): set<Link> {
    (set m, n | m in c.machines && n in c.machines :: Link(Peer(m), n)) + (set m | m in c.machines :: Link(User(m), m))
  }

  /** How many deliveries a message can still cause, itself included. */
  function Weight(c: Config, dst: Machine, msg: Message): nat
    requires |c.members.acceptors| > 0
  {
    match msg
    case CommitResponse(_) => 1
    case CommitRequest(_, _, _) => 2
    case AcceptResponse(_, _) => 1 + 2 * |c.members.learners|
    case AcceptRequest(_, _, _) => 2 + 2 * |c.members.learners|
    case Propose(_, _) =>
      1 + |c.members.acceptors| * (2 + 2 * |c.members.learners|) + if dst == LeaderOf(c) then 0 else 1
  }

  /** The most that one proposal can cost. */
  function ProposalCost(c: Config): nat {
    2 + |c.members.acceptors| * (2 + 2 * |c.members.learners|)
  }

  function QueueWeight(c: Config, dst: Machine, q: seq<Message>): nat
    requires |c.members.acceptors| > 0
  {
    if q == [] then 0 else Weight(c, dst, q[0]) + QueueWeight(c, dst, q[1..])
  }

  lemma {:induction false} QueueWeightAppend(c: Config, dst: Machine, p: seq<Message>, q: seq<Message>)
    requires |c.members.acceptors| > 0
    ensures QueueWeight(c, dst, p + q) == QueueWeight(c, dst, p) + QueueWeight(c, dst, q)
  {
    if p == [] {
      assert p + q == q;
    } else {
      QueueWeightAppend(c, dst, p[1..], q);
      assert (p + q)[1..] == p[1..] + q;
    }
  }

  lemma {:induction false} QueueWeightRemove(c: Config, dst: Machine, q: seq<Message>, i: nat)
    requires |c.members.acceptors| > 0 && i < |q|
    ensures QueueWeight(c, dst, q) == QueueWeight(c, dst, Remove(q, i)) + Weight(c, dst, q[i])
  {
    QueueWeightAppend(c, dst, q[..i], q[i..]);
    QueueWeightAppend(c, dst, q[..i], q[i + 1..]);
    assert q == q[..i] + q[i..] && q[i..][1..] == q[i + 1..];
  }

  ghost function Total(c: Config, net: Network, links: set<Link>): nat
    requires |c.members.acceptors| > 0
  {
    if links == {} then 0
    else
      var l :| l in links;
      QueueWeight(c, l.dst, Q(net, l)) + Total(c, net, links - {l})
  }

  lemma {:induction false} TotalPick(c: Config, net: Network, links: set<Link>, l: Link)
    requires |c.members.acceptors| > 0 && l in links
    ensures Total(c, net, links) == QueueWeight(c, l.dst, Q(net, l)) + Total(c, net, links - {l})
    decreases |links|
  {
    var l0 :| l0 in links && Total(c, net, links) == QueueWeight(c, l0.dst, Q(net, l0)) + Total(c, net, links - {l0});
    if l0 != l {
      TotalPick(c, net, links - {l0}, l);
      TotalPick(c, net, links - {l}, l0);
      assert links - {l0} - {l} == links - {l} - {l0};
    }
  }

  lemma {:induction false} TotalSame(c: Config, net: Network, net': Network, links: set<Link>)
    requires |c.members.acceptors| > 0 && forall l :: l in links ==> Q(net, l) == Q(net', l)
    ensures Total(c, net, links) == Total(c, net', links)
    decreases |links|
  {
    if links != {} {
      var l :| l in links;
      TotalPick(c, net, links, l);
      TotalPick(c, net', links, l);
      TotalSame(c, net, net', links - {l});
    }
  }

  lemma {:induction false} TotalUpdate(c: Config, net: Network, links: set<Link>, l: Link, q: seq<Message>)
    requires |c.members.acceptors| > 0 && l in links
    ensures Total(c, net[l := q], links) + QueueWeight(c, l.dst, Q(net, l)) == Total(c, net, links) + QueueWeight(c, l.dst, q)
  {
    TotalPick(c, net, links, l);
    TotalPick(c, net[l := q], links, l);
    TotalSame(c, net, net[l := q], links - {l});
  }

  /** What a broadcast adds. */
  lemma {:induction false} PostTotal(c: Config, net: Network, from: Machine, targets: seq<Machine>, out: Message,
                                     w: nat)
    requires |c.members.acceptors| > 0 && from in c.machines
    requires forall m :: m in targets ==> m in c.machines && Weight(c, m, out) == w
    ensures Total(c, Post(net, from, ToAll(targets, out)), Links(c)) == Total(c, net, Links(c)) + |targets| * w
    decreases |targets|
  {
    if targets != [] {
      var link := Link(Peer(from), targets[0]);
      assert targets[0] in c.machines && link in Links(c);
      var net1 := net[link := Q(net, link) + [out]];
      TotalUpdate(c, net, Links(c), link, Q(net, link) + [out]);
      QueueWeightAppend(c, targets[0], Q(net, link), [out]);
      assert QueueWeight(c, targets[0], [out]) == w;
      PostTotal(c, net1, from, targets[1..], out, w);
      var sends := ToAll(targets, out);
      assert sends[0] == Send(targets[0], out) && sends[1..] == ToAll(targets[1..], out);
      assert |targets| * w == (|targets| - 1) * w + w;
    }
  }

  /** The weight of everything in flight. */
  ghost function Pending(c: Config, s: System): nat
    requires |c.members.acceptors| > 0
  {
    Total(c, s.net, Links(c))
  }

  lemma {:induction false} DeliverWorks(c: Config, s: System, link: Link, i: nat)
    requires Safe(c, s) && i < |Q(s.net, link)| && link.dst in s.nodes && link in Links(c)
    ensures Pending(c, Delivered(c, s, link, i)) < Pending(c, s)
  {
    var msg, node := Q(s.net, link)[i], s.nodes[link.dst];
    var targets, out := DeliveryParts(c, s, link, i);
    assert LeaderOf(c) in c.machines;
    var net1 := s.net[link := Remove(Q(s.net, link), i)];
    TotalUpdate(c, s.net, Links(c), link, Remove(Q(s.net, link), i));
    QueueWeightRemove(c, link.dst, Q(s.net, link), i);
    assert Pending(c, s) == Total(c, net1, Links(c)) + Weight(c, link.dst, msg);
    EffectWeight(c, node, link, msg, targets, out, net1);
  }

  lemma {:induction false} EffectWeight(c: Config, node: Node, link: Link, msg: Message, targets: seq<Machine>,
                                        out: Message, net: Network)
    requires ValidConfig(c) && link.dst in c.machines && LeaderOf(c) in c.machines
    requires node.leader.elected <==> link.dst == LeaderOf(c)
    requires Effective(c, node, link, msg, targets, out)
    ensures Total(c, Post(net, link.dst, ToAll(targets, out)), Links(c)) < Total(c, net, Links(c)) + Weight(c, link.dst, msg)
  {
    match msg {
      case Propose(_, _) =>
        PostTotal(c, net, link.dst, targets, out, Weight(c, LeaderOf(c), out));
      case _ =>
        PostTotal(c, net, link.dst, targets, out, Weight(c, LeaderOf(c), out));
    }
  }

  /** Messages travel between the machines of the group only. */
  ghost predicate Inside(c: Config, net: Network) {
    forall l :: Q(net, l) != [] ==> l in Links(c)
  }

  lemma {:induction false} StepInside(c: Config, s: System, step: Step)
    requires Safe(c, s) && Inside(c, s.net) && Enabled(c, s, step)
    ensures Inside(c, Next(c, s, step).net)
  {
    match step {
      case Submit(at, value) =>
      case Deliver(link, i) =>
        var targets, out := DeliveryParts(c, s, link, i);
        PostInside(c, s.net, link, i, targets, out);
    }
  }

  lemma {:induction false} PostInside(c: Config, net: Network, link: Link, i: nat, targets: seq<Machine>, out: Message)
    requires Inside(c, net) && i < |Q(net, link)| && link.dst in c.machines && Distinct(targets)
    requires forall m :: m in targets ==> m in c.machines
    ensures Inside(c, Post(net[link := Remove(Q(net, link), i)], link.dst, ToAll(targets, out)))
  {
    var net' := Post(net[link := Remove(Q(net, link), i)], link.dst, ToAll(targets, out));
    forall l | Q(net', l) != [] ensures l in Links(c) {
      PostQueue(net[link := Remove(Q(net, link), i)], link.dst, ToAll(targets, out), l);
      MailToAll(targets, out, l.dst);
    }
  }

  function Submits(steps: seq<Step>): seq<bool> {
    seq(|steps|, k requires 0 <= k < |steps| => steps[k].Submit?)
  }

  function Delivers(steps: seq<Step>): seq<bool> {
    seq(|steps|, k requires 0 <= k < |steps| => steps[k].Deliver?)
  }

  lemma {:induction false} RunInside(c: Config, steps: seq<Step>, states: seq<System>, i: nat)
    requires Run(c, steps, states) && i < |states|
    ensures Inside(c, states[i].net)
  {
    if i > 0 {
      RunInside(c, steps, states, i - 1);
      RunSafe(c, steps, states, i - 1);
      StepInside(c, states[i - 1], steps[i - 1]);
    }
  }

  lemma {:induction false} StepPending(c: Config, steps: seq<Step>, states: seq<System>, i: nat)
    requires Run(c, steps, states) && i < |steps|
    ensures Pending(c, states[i + 1]) + (if steps[i].Deliver? then 1 else 0) <=
            Pending(c, states[i]) + if steps[i].Submit? then ProposalCost(c) else 0
  {
    RunSafe(c, steps, states, i);
    RunInside(c, steps, states, i);
    StepWork(c, states[i], steps[i]);
  }

  /**
    Work is bounded whatever the order of deliveries: those made and those still to come are at
    most `ProposalCost` for each submission.
  */
  lemma {:induction false} DeliveriesBounded(c: Config, steps: seq<Step>, states: seq<System>, i: nat)
    requires Run(c, steps, states) && i < |states|
    ensures Trues(Delivers(steps), i) + Pending(c, states[i]) <= Trues(Submits(steps), i) * ProposalCost(c)
  {
    var pending := seq(|states|, k requires 0 <= k < |states| => Pending(c, states[k]));
    StartPending(c);
    var grants, uses := Submits(steps), Delivers(steps);
    forall k | 0 <= k < |steps|
      ensures pending[k + 1] + (if uses[k] then 1 else 0) <= pending[k] + if grants[k] then ProposalCost(c) else 0
    {
      StepPending(c, steps, states, k);
    }
    Budget(pending, grants, uses, ProposalCost(c), i);
  }

  /** When no work is left nothing is in flight. */
  lemma {:induction false} AtRest(c: Config, steps: seq<Step>, states: seq<System>, i: nat)
    requires Run(c, steps, states) && i < |states|
    ensures Pending(c, states[i]) == 0 ==> Quiescent(states[i])
  {
    RunInside(c, steps, states, i);
    if Pending(c, states[i]) == 0 {
      NothingPending(c, states[i]);
    }
  }

  lemma {:induction false} TotalEmpty(c: Config, links: set<Link>)
    requires |c.members.acceptors| > 0
    ensures Total(c, map[], links) == 0
    decreases |links|
  {
    if links != {} {
      var l :| l in links;
      TotalPick(c, map[], links, l);
      TotalEmpty(c, links - {l});
    }
  }

  lemma {:induction false} NothingPending(c: Config, s: System)
    requires ValidConfig(c) && Inside(c, s.net) && Pending(c, s) == 0
    ensures Quiescent(s)
  {
    forall l | l in s.net ensures s.net[l] == [] {
      if s.net[l] != [] {
        assert l in Links(c);
        TotalPick(c, s.net, Links(c), l);
      }
    }
  }

  lemma {:induction false} StepWork(c: Config, s: System, step: Step)
    requires Safe(c, s) && Inside(c, s.net) && Enabled(c, s, step)
    ensures Pending(c, Next(c, s, step)) + (if step.Deliver? then 1 else 0) <=
            Pending(c, s) + if step.Submit? then ProposalCost(c) else 0
  {
    match step {
      case Submit(at, value) =>
        var link := Link(User(at), at);
        var q := Q(s.net, link) + [Propose(value, |s.hist.tickets|)];
        TotalUpdate(c, s.net, Links(c), link, q);
        QueueWeightAppend(c, at, Q(s.net, link), [Propose(value, |s.hist.tickets|)]);
      case Deliver(link, i) =>
        DeliverWorks(c, s, link, i);
    }
  }

  /** Of a reached state: all messages stay inside the group, and unless none is left one can be delivered. */
  lemma {:induction false} ReachedWorks(c: Config, s: System) returns (link: Link)
    requires Reached(c, s)
    ensures Safe(c, s) && Inside(c, s.net)
    ensures !Quiescent(s) ==> Q(s.net, link) != [] && link.dst in s.nodes
  {
    var steps, states :| Run(c, steps, states) && states[|steps|] == s;
    RunSafe(c, steps, states, |steps|);
    RunInside(c, steps, states, |steps|);
    link := Link(User(LeaderOf(c)), LeaderOf(c));
    if !Quiescent(s) {
      link :| link in s.net && s.net[link] != [];
      assert Q(s.net, link) != [];
    }
  }

  lemma {:induction false} ReachedStep(c: Config, s: System, s': System, step: Step)
    requires Reached(c, s) && Enabled(c, s, step) && s' == Next(c, s, step)
    ensures ValidConfig(c)
    ensures Pending(c, s') + (if step.Deliver? then 1 else 0) <=
            Pending(c, s) + if step.Submit? then ProposalCost(c) else 0
  {
    var _ := ReachedWorks(c, s);
    StepWork(c, s, step);
  }

  lemma {:induction false} StartPending(c: Config)
    requires ValidConfig(c)
    ensures Pending(c, Init(c)) == 0
  {
    TotalEmpty(c, Links(c));
  }
}
