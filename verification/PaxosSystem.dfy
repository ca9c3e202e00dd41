/**
  A Paxos group as a step system: machines, one queue per link, one handler call per step.

  A delivery may take any message of a queue.  Deliveries from the head only are the runs of
  first-in-first-out links.
*/
module PaxosSystem {
  import opened Topology
  import opened PaxosRoles

  /** A machine's Paxos module, or the user of the group on that machine. */
  datatype Endpoint = Peer(machine: Machine) | User(machine: Machine)
  datatype Link = Link(src: Endpoint, dst: Machine)
  type Network = map<Link, seq<Message>>

  datatype Node = Node(leader: LeaderState, ballot: nat)

  /** Where a submitted proposal is. */
  datatype Place = OnLink(link: Link) | InSlot(slot: nat)

  /**
    What has happened so far: the proposals submitted and where each one is, the proposals put
    into slots, the acceptors heard from per slot, the slots whose commit was broadcast, and the
    commits reported on each machine.
  */
  datatype History = History(
    tickets: seq<Value>, places: seq<Place>, chosen: seq<nat>,
    answered: set<(nat, Machine)>, announced: seq<nat>, learned: map<Machine, seq<Commit>>)

  datatype System = System(nodes: map<Machine, Node>, net: Network, hist: History)

  datatype Config = Config(machines: set<Machine>, members: Members)

  ghost predicate ValidConfig(c: Config) {
    && |c.members.acceptors| > 0
    && Distinct(c.members.acceptors) && Distinct(c.members.learners)
    && (forall m :: m in c.members.acceptors ==> m in c.machines)
    && (forall m :: m in c.members.learners ==> m in c.machines)
  }

  function LeaderOf(c: Config): Machine
    requires |c.members.acceptors| > 0
  {
    c.members.acceptors[DEFAULT_LEADER_POSITION]
  }

  function Q(net: Network, link: Link): seq<Message> {
    if link in net then net[link] else []
  }

  function Post(net: Network, from: Machine, sends: seq<Send>): Network
    decreases |sends|
  {
    if sends == [] then net
    else
      var link := Link(Peer(from), sends[0].to);
      Post(net[link := Q(net, link) + [sends[0].msg]], from, sends[1..])
  }

  function Remove<T>(q: seq<T>, i: nat): seq<T>
    requires i < |q|
  {
    q[..i] + q[i + 1..]
  }

  function Init(c: Config): System
    requires |c.members.acceptors| > 0
  {
    System(map m | m in c.machines :: Node(InitialLeader(c.members, m), 0), map[],
           History([], [], [], {}, [], map m | m in c.machines :: []))
  }

  datatype Step =
    | Submit(at: Machine, value: Value)
    | Deliver(link: Link, index: nat)

  predicate Enabled(c: Config, s: System, step: Step) {
    match step
    case Submit(at, _) => at in c.machines
    case Deliver(link, index) => index < |Q(s.net, link)| && link.dst in s.nodes
  }

  function Submitted(s: System, at: Machine, value: Value): System {
    var link := Link(User(at), at);
    var ticket := |s.hist.tickets|;
    s.(net := s.net[link := Q(s.net, link) + [Propose(value, ticket)]],
       hist := s.hist.(tickets := s.hist.tickets + [value], places := s.hist.places + [OnLink(link)]))
  }

  /** The messages a machine sends on taking `msg`: its leader's first, then its acceptor's. */
  function Answers(c: Config, node: Node, link: Link, msg: Message): seq<Send> {
    LeaderHandle(c.members, link.dst, node.leader, msg).sends +
    AcceptorHandle(node.ballot, link.src.machine, msg).1
  }

  function After(c: Config, node: Node, link: Link, msg: Message): Node {
    Node(LeaderHandle(c.members, link.dst, node.leader, msg).leader,
         AcceptorHandle(node.ballot, link.src.machine, msg).0)
  }

  function Recorded(c: Config, h: History, node: Node, link: Link, msg: Message): History {
    var r := LeaderHandle(c.members, link.dst, node.leader, msg);
    match msg
    case Propose(_, t) =>
      if t >= |h.places| then h
      else if node.leader.elected then h.(chosen := h.chosen + [t], places := h.places[t := InSlot(|h.chosen|)])
      else h.(places := h.places[t := OnLink(Link(Peer(link.dst), node.leader.electedLeader))])
    case AcceptResponse(_, slot) =>
      h.(answered := h.answered + {(slot, link.src.machine)},
         announced := if Announces(c.members, node.leader, slot) then h.announced + [slot] else h.announced)
    case CommitRequest(_, _, _) =>
      if link.dst in h.learned then h.(learned := h.learned[link.dst := h.learned[link.dst] + r.commits]) else h
    case _ => h
  }

  function Delivered(c: Config, s: System, link: Link, index: nat): System
    requires index < |Q(s.net, link)| && link.dst in s.nodes
  {
    var msg, node := Q(s.net, link)[index], s.nodes[link.dst];
    var net := s.net[link := Remove(Q(s.net, link), index)];
    System(
      s.nodes[link.dst := After(c, node, link, msg)],
      Post(net, link.dst, Answers(c, node, link, msg)),
      Recorded(c, s.hist, node, link, msg))
  }

  function Next(c: Config, s: System, step: Step): System
    requires Enabled(c, s, step)
  {
    match step
    case Submit(at, value) => Submitted(s, at, value)
    case Deliver(link, index) => Delivered(c, s, link, index)
  }

  /** `states` are the states that the run `steps` goes through. */
  ghost predicate Run(c: Config, steps: seq<Step>, states: seq<System>) {
    && ValidConfig(c)
    && |states| == |steps| + 1
    && states[0] == Init(c)
    && forall i :: 0 <= i < |steps| ==>
         Enabled(c, states[i], steps[i]) && states[i + 1] == Next(c, states[i], steps[i])
  }

  /** Every delivery takes the oldest message of its link. */
  predicate InOrder(steps: seq<Step>) {
    forall i :: 0 <= i < |steps| && steps[i].Deliver? ==> steps[i].index == 0
  }

  predicate Quiescent(s: System) {
    forall link :: link in s.net ==> s.net[link] == []
  }
}

/** Counting messages: what one delivery does to every queue. */
module PaxosQueues {
  import opened Topology
  import opened PaxosRoles
  import opened PaxosSystem

  /** How many copies of each message each link holds. */
  type Bag = (Link, Message) -> nat

  function BagOf(net: Network): Bag {
    (link: Link, x: Message) => multiset(Q(net, link))[x]
  }

  /** The messages of `sends` that go to `to`, in order. */
  function Mail(sends: seq<Send>, to: Machine): seq<Message> {
    if sends == [] then []
    else (if sends[0].to == to then [sends[0].msg] else []) + Mail(sends[1..], to)
  }

  lemma {:induction false} PostQueue(net: Network, from: Machine, sends: seq<Send>, link: Link)
    ensures Q(Post(net, from, sends), link) ==
            Q(net, link) + if link.src == Peer(from) then Mail(sends, link.dst) else []
    decreases |sends|
  {
    if sends != [] {
      var l0 := Link(Peer(from), sends[0].to);
      PostQueue(net[l0 := Q(net, l0) + [sends[0].msg]], from, sends[1..], link);
    }
  }

  lemma {:induction false} MailToAll(targets: seq<Machine>, msg: Message, to: Machine)
    requires Distinct(targets)
    ensures Mail(ToAll(targets, msg), to) == if to in targets then [msg] else []
  {
    if targets != [] {
      MailToAll(targets[1..], msg, to);
      assert to in targets <==> to == targets[0] || to in targets[1..];
    }
  }

  /** A delivery takes `msg` off `link` and sends `out` to each of `targets`. */
  ghost predicate Moves(b: Bag, b': Bag, link: Link, msg: Message, targets: seq<Machine>, out: Message) {
    forall l, x :: b'(l, x) ==
      b(l, x) - (if l == link && x == msg then 1 else 0) + Sent(l, x, link.dst, targets, out)
  }

  lemma {:induction false} RemoveCount<T>(q: seq<T>, i: nat)
    requires i < |q|
    ensures multiset(Remove(q, i)) == multiset(q) - multiset{q[i]}
  {
    assert q == q[..i] + [q[i]] + q[i + 1..];
  }

  function Sent(l: Link, x: Message, from: Machine, targets: seq<Machine>, out: Message): nat {
    if l.src == Peer(from) && l.dst in targets && x == out then 1 else 0
  }

  lemma {:induction false} PostCount(net: Network, from: Machine, targets: seq<Machine>, out: Message, l: Link,
                                     x: Message)
    requires Distinct(targets)
    ensures BagOf(Post(net, from, ToAll(targets, out)))(l, x) == BagOf(net)(l, x) + Sent(l, x, from, targets, out)
  {
    PostQueue(net, from, ToAll(targets, out), l);
    MailToAll(targets, out, l.dst);
  }

  lemma {:induction false} DeliveryMoves(net: Network, link: Link, i: nat, targets: seq<Machine>, out: Message)
    requires i < |Q(net, link)| && Distinct(targets)
    ensures Moves(BagOf(net), BagOf(Post(net[link := Remove(Q(net, link), i)], link.dst, ToAll(targets, out))),
                  link, Q(net, link)[i], targets, out)
  {
    var net1 := net[link := Remove(Q(net, link), i)];
    RemoveCount(Q(net, link), i);
    forall l, x
      ensures BagOf(Post(net1, link.dst, ToAll(targets, out)))(l, x) ==
              BagOf(net)(l, x) - (if l == link && x == Q(net, link)[i] then 1 else 0) + Sent(l, x, link.dst, targets, out)
    {
      PostCount(net1, link.dst, targets, out, l, x);
    }
  }
}
