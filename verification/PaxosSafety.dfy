/**
  Agreement, whatever the order of deliveries.

  The invariant accounts for every message: each slot has, per acceptor, exactly one of an accept
  request, its response, or a recorded answer; and per learner, once the slot is announced,
  exactly one of a commit request or a reported commit.
*/
module PaxosSafety {
  import opened Topology
  import opened Counting
  import opened PaxosRoles
  import opened PaxosSystem
  import opened PaxosQueues

  function Answerers(answered: set<(nat, Machine)>, slot: nat): set<Machine> {
    set p | p in answered && p.0 == slot :: p.1
  }

  ghost predicate ChosenInRange(h: History) {
    forall k :: 0 <= k < |h.chosen| ==> h.chosen[k] < |h.tickets|
  }

  /** The value that slot `k` is bound to. */
  function Bound(h: History, k: nat): Value
    requires k < |h.chosen| && h.chosen[k] < |h.tickets|
  {
    h.tickets[h.chosen[k]]
  }

  ghost predicate NodesOk(c: Config, nodes: map<Machine, Node>, h: History)
    requires ValidConfig(c)
  {
    && nodes.Keys == c.machines && h.learned.Keys == c.machines
    && (forall m :: m in nodes ==>
          && nodes[m].ballot == 0
          && nodes[m].leader.electedLeader == LeaderOf(c)
          && (nodes[m].leader.elected <==> m == LeaderOf(c)))
    && nodes[LeaderOf(c)].leader.ballot == 0
    && nodes[LeaderOf(c)].leader.nextSlot == |h.chosen|
  }

  /** Only slot 0 may have been forgotten. */
  ghost predicate InstancesOk(instances: map<nat, Instance>, h: History) {
    && ChosenInRange(h)
    && (forall k :: k in instances ==>
          && k < |h.chosen|
          && instances[k].value == Bound(h, k)
          && instances[k].numAccepts == |Answerers(h.answered, k)|)
    && (forall k :: 0 < k < |h.chosen| ==> k in instances)
  }

  ghost predicate PlacesOk(b: Bag, h: History) {
    && |h.places| == |h.tickets|
    && (forall k :: 0 <= k < |h.chosen| ==> h.chosen[k] < |h.tickets| && h.places[h.chosen[k]] == InSlot(k))
    && (forall t :: 0 <= t < |h.places| && h.places[t].InSlot? ==>
          h.places[t].slot < |h.chosen| && h.chosen[h.places[t].slot] == t)
    && (forall t :: 0 <= t < |h.places| && h.places[t].OnLink? ==>
          b(h.places[t].link, Propose(h.tickets[t], t)) == 1)
  }

  ghost predicate MessageOk(c: Config, h: History, link: Link, msg: Message)
    requires ValidConfig(c) && ChosenInRange(h)
  {
    match msg
    case Propose(value, t) =>
      t < |h.tickets| && t < |h.places| && value == h.tickets[t] && h.places[t] == OnLink(link)
      && link.dst in c.machines
    case AcceptRequest(b, k, value) =>
      link.src == Peer(LeaderOf(c)) && link.dst in c.members.acceptors
      && b == 0 && k < |h.chosen| && value == Bound(h, k)
    case AcceptResponse(b, k) =>
      link.dst == LeaderOf(c) && link.src.Peer? && link.src.machine in c.members.acceptors
      && b == 0 && k < |h.chosen|
    case CommitRequest(k, value, leader) =>
      link.src == Peer(LeaderOf(c)) && link.dst in c.members.learners
      && k in h.announced && k < |h.chosen| && value == Bound(h, k) && leader == LeaderOf(c)
    case CommitResponse(k) =>
      link.dst == LeaderOf(c) && k in h.announced
  }

  ghost predicate MessagesOk(c: Config, b: Bag, h: History)
    requires ValidConfig(c)
  {
    && ChosenInRange(h)
    && forall link, msg :: b(link, msg) > 0 ==> MessageOk(c, h, link, msg)
  }

  ghost predicate AcceptTokens(c: Config, b: Bag, h: History)
    requires ValidConfig(c)
  {
    && ChosenInRange(h)
    && (forall p :: p in h.answered ==> p.0 < |h.chosen| && p.1 in c.members.acceptors)
    && (forall k, a :: 0 <= k < |h.chosen| && a in c.members.acceptors ==>
          b(Link(Peer(LeaderOf(c)), a), AcceptRequest(0, k, Bound(h, k)))
          + b(Link(Peer(a), LeaderOf(c)), AcceptResponse(0, k))
          + (if (k, a) in h.answered then 1 else 0) == 1)
  }

  /** Announced once, and only by a majority. */
  ghost predicate AnnouncedOk(c: Config, instances: map<nat, Instance>, h: History) {
    && Distinct(h.announced)
    && (forall k :: k in h.announced ==>
          k < |h.chosen| && |Answerers(h.answered, k)| >= Majority(c.members))
    && (forall k :: k in instances ==>
          (k in h.announced <==> instances[k].numAccepts >= Majority(c.members)))
  }

  ghost predicate CommitTokens(c: Config, b: Bag, h: History)
    requires ValidConfig(c)
  {
    && ChosenInRange(h)
    && (forall k, x :: 0 <= k < |h.chosen| && x in c.members.learners && x in h.learned ==>
          b(Link(Peer(LeaderOf(c)), x), CommitRequest(k, Bound(h, k), LeaderOf(c)))
          + multiset(h.learned[x])[Commit(k, Bound(h, k), LeaderOf(c))]
          == if k in h.announced then 1 else 0)
    && (forall m :: m in h.learned ==> LearnedOk(c, h, m, h.learned[m]))
  }

  /** Only learners are told, and only of announced slots. */
  ghost predicate LearnedOk(c: Config, h: History, m: Machine, commits: seq<Commit>)
    requires ValidConfig(c) && ChosenInRange(h)
  {
    forall i :: 0 <= i < |commits| ==>
      && m in c.members.learners && commits[i].slot in h.announced && commits[i].slot < |h.chosen|
      && commits[i] == Commit(commits[i].slot, Bound(h, commits[i].slot), LeaderOf(c))
  }

  ghost predicate Inv(c: Config, nodes: map<Machine, Node>, b: Bag, h: History) {
    && ValidConfig(c)
    && NodesOk(c, nodes, h)
    && InstancesOk(nodes[LeaderOf(c)].leader.instances, h)
    && PlacesOk(b, h)
    && MessagesOk(c, b, h)
    && AcceptTokens(c, b, h)
    && AnnouncedOk(c, nodes[LeaderOf(c)].leader.instances, h)
    && CommitTokens(c, b, h)
  }

  ghost predicate Safe(c: Config, s: System) {
    Inv(c, s.nodes, BagOf(s.net), s.hist)
  }

  lemma {:induction false} InitInv(c: Config)
    requires ValidConfig(c)
    ensures Safe(c, Init(c))
  {
    assert LeaderOf(c) in c.machines;
  }

  /* ---------- Parts of the invariant that a step leaves alone ---------- */

  lemma {:induction false} NodeUpdated(c: Config, nodes: map<Machine, Node>, m: Machine, node: Node, h: History,
                                       h': History)
    requires ValidConfig(c) && NodesOk(c, nodes, h) && m in nodes
    requires node.ballot == 0 && node.leader.electedLeader == LeaderOf(c) && node.leader.elected == (m == LeaderOf(c))
    requires node.leader.ballot == nodes[m].leader.ballot
    requires if m == LeaderOf(c) then node.leader.nextSlot == |h'.chosen| else |h'.chosen| == |h.chosen|
    requires h'.learned.Keys == h.learned.Keys
    ensures NodesOk(c, nodes[m := node], h')
  {
  }

  lemma {:induction false} InstancesKept(c: Config, instances: map<nat, Instance>, h: History, h': History)
    requires InstancesOk(instances, h) && AnnouncedOk(c, instances, h)
    requires h'.tickets == h.tickets && h'.chosen == h.chosen
    requires h'.answered == h.answered && h'.announced == h.announced
    ensures InstancesOk(instances, h') && AnnouncedOk(c, instances, h')
  {
    assert forall k :: 0 <= k < |h.chosen| ==> Bound(h', k) == Bound(h, k);
  }

  /** History only grows. */
  ghost predicate Grows(h: History, h': History) {
    && h.tickets <= h'.tickets && h.chosen <= h'.chosen
    && (forall k :: k in h.announced ==> k in h'.announced)
  }

  lemma {:induction false} BoundKept(h: History, h': History, k: nat)
    requires Grows(h, h') && ChosenInRange(h) && ChosenInRange(h') && k < |h.chosen|
    ensures Bound(h', k) == Bound(h, k)
  {
  }

  lemma {:induction false} MessageKept(c: Config, h: History, h': History, link: Link, msg: Message)
    requires ValidConfig(c) && ChosenInRange(h) && ChosenInRange(h') && Grows(h, h')
    requires MessageOk(c, h, link, msg)
    requires msg.Propose? ==> msg.ticket < |h'.places| && h'.places[msg.ticket] == OnLink(link)
    ensures MessageOk(c, h', link, msg)
  {
  }

  /** New messages are in order and no other proposal has changed place. */
  lemma {:induction false} MessagesKept(c: Config, b: Bag, b': Bag, h: History, h': History, link: Link, msg: Message,
                                        targets: seq<Machine>, out: Message)
    requires ValidConfig(c) && MessagesOk(c, b, h) && ChosenInRange(h') && Grows(h, h')
    requires Moves(b, b', link, msg, targets, out)
    requires |h.places| <= |h'.places|
    requires forall t :: 0 <= t < |h.places| && !(msg.Propose? && msg.ticket == t) ==> h'.places[t] == h.places[t]
    requires msg.Propose? ==> b(link, msg) == 1
    requires forall to :: to in targets ==> MessageOk(c, h', Link(Peer(link.dst), to), out)
    ensures MessagesOk(c, b', h')
  {
    forall l, x | b'(l, x) > 0 ensures MessageOk(c, h', l, x) {
      if !(l.src == Peer(link.dst) && l.dst in targets && x == out) {
        assert b(l, x) > 0;
        assert MessageOk(c, h, l, x);
        MessageKept(c, h, h', l, x);
      }
    }
  }

  lemma {:induction false} PlacesKept(b: Bag, b': Bag, h: History, h': History)
    requires PlacesOk(b, h)
    requires h'.tickets == h.tickets && h'.places == h.places && h'.chosen == h.chosen
    requires forall l, x: Message | x.Propose? :: b'(l, x) == b(l, x)
    ensures PlacesOk(b', h')
  {
  }

  lemma {:induction false} AcceptTokensKept(c: Config, b: Bag, b': Bag, h: History, h': History)
    requires ValidConfig(c) && AcceptTokens(c, b, h)
    requires h.tickets <= h'.tickets && h'.chosen == h.chosen && h'.answered == h.answered
    requires forall l, x: Message | x.AcceptRequest? || x.AcceptResponse? :: b'(l, x) == b(l, x)
    ensures AcceptTokens(c, b', h')
  {
    assert forall k :: 0 <= k < |h.chosen| ==> Bound(h', k) == Bound(h, k);
  }

  lemma {:induction false} LearnedKept(c: Config, h: History, h': History, m: Machine, commits: seq<Commit>)
    requires ValidConfig(c) && ChosenInRange(h) && ChosenInRange(h') && Grows(h, h')
    requires LearnedOk(c, h, m, commits)
    ensures LearnedOk(c, h', m, commits)
  {
  }

  lemma {:induction false} CommitTokensKept(c: Config, b: Bag, b': Bag, h: History, h': History)
    requires ValidConfig(c) && CommitTokens(c, b, h)
    requires h.tickets <= h'.tickets && h'.chosen == h.chosen
    requires h'.announced == h.announced && h'.learned == h.learned
    requires forall l, x: Message | x.CommitRequest? :: b'(l, x) == b(l, x)
    ensures CommitTokens(c, b', h')
  {
    assert forall k :: 0 <= k < |h.chosen| ==> Bound(h', k) == Bound(h, k);
    forall m | m in h'.learned ensures LearnedOk(c, h', m, h'.learned[m]) {
      LearnedKept(c, h, h', m, h.learned[m]);
    }
  }

  /* ---------- Submit ---------- */

  /** One more copy of `msg` on `link`. */
  ghost predicate Enqueues(b: Bag, b': Bag, link: Link, msg: Message) {
    forall l, x :: b'(l, x) == b(l, x) + if l == link && x == msg then 1 else 0
  }

  lemma {:induction false} SubmitMessages(c: Config, b: Bag, b': Bag, h: History, h': History, link: Link, value: Value)
    requires ValidConfig(c) && MessagesOk(c, b, h) && |h.places| == |h.tickets| && link.dst in c.machines
    requires Enqueues(b, b', link, Propose(value, |h.tickets|))
    requires h' == h.(tickets := h.tickets + [value], places := h.places + [OnLink(link)])
    ensures MessagesOk(c, b', h')
  {
    forall l, x | b'(l, x) > 0 ensures MessageOk(c, h', l, x) {
      if l != link || x != Propose(value, |h.tickets|) {
        assert MessageOk(c, h, l, x);
        MessageKept(c, h, h', l, x);
      }
    }
  }

  lemma {:induction false} SubmitPlaces(c: Config, b: Bag, b': Bag, h: History, h': History, link: Link, value: Value)
    requires ValidConfig(c) && MessagesOk(c, b, h) && PlacesOk(b, h)
    requires Enqueues(b, b', link, Propose(value, |h.tickets|))
    requires h' == h.(tickets := h.tickets + [value], places := h.places + [OnLink(link)])
    ensures PlacesOk(b', h')
  {
    assert b(link, Propose(value, |h.tickets|)) == 0;
  }

  lemma {:induction false} SubmitInv(c: Config, nodes: map<Machine, Node>, b: Bag, b': Bag, h: History, h': History,
                                     link: Link, value: Value)
    requires Inv(c, nodes, b, h) && link.dst in c.machines
    requires Enqueues(b, b', link, Propose(value, |h.tickets|))
    requires h' == h.(tickets := h.tickets + [value], places := h.places + [OnLink(link)])
    ensures Inv(c, nodes, b', h')
  {
    AcceptTokensKept(c, b, b', h, h');
    CommitTokensKept(c, b, b', h, h');
    SubmitMessages(c, b, b', h, h', link, value);
    SubmitPlaces(c, b, b', h, h', link, value);
  }

  /* ---------- One lemma per kind of message ---------- */

  lemma {:induction false} ProposeForwardInv(c: Config, nodes: map<Machine, Node>, b: Bag, b': Bag, h: History,
                                             h': History, link: Link, msg: Message)
    requires Inv(c, nodes, b, h) && msg.Propose? && b(link, msg) > 0 && link.dst != LeaderOf(c)
    requires Moves(b, b', link, msg, [LeaderOf(c)], msg)
    requires msg.ticket < |h.places| && h' == h.(places := h.places[msg.ticket := OnLink(Link(Peer(link.dst), LeaderOf(c)))])
    ensures Inv(c, nodes, b', h')
  {
    assert MessageOk(c, h, link, msg);
    assert b(link, msg) == 1;
    MessagesKept(c, b, b', h, h', link, msg, [LeaderOf(c)], msg);
    AcceptTokensKept(c, b, b', h, h');
    CommitTokensKept(c, b, b', h, h');
    ForwardPlaces(c, b, b', h, h', link, msg);
    InstancesKept(c, nodes[LeaderOf(c)].leader.instances, h, h');
  }

  lemma {:induction false} ForwardPlaces(c: Config, b: Bag, b': Bag, h: History, h': History, link: Link, msg: Message)
    requires ValidConfig(c) && PlacesOk(b, h) && MessagesOk(c, b, h)
    requires msg.Propose? && b(link, msg) > 0 && link.dst != LeaderOf(c) && msg.ticket < |h.places|
    requires Moves(b, b', link, msg, [LeaderOf(c)], msg)
    requires h' == h.(places := h.places[msg.ticket := OnLink(Link(Peer(link.dst), LeaderOf(c)))])
    ensures PlacesOk(b', h')
  {
    assert MessageOk(c, h, link, msg);
    assert !MessageOk(c, h, Link(Peer(link.dst), LeaderOf(c)), msg);
  }

  /** The new slot has one accept request out to each acceptor, and nothing else. */
  lemma {:induction false} StartAcceptTokens(c: Config, b: Bag, b': Bag, h: History, h': History, link: Link,
                                             msg: Message)
    requires ValidConfig(c) && AcceptTokens(c, b, h) && MessagesOk(c, b, h)
    requires msg.Propose? && msg.ticket < |h.tickets| && msg.value == h.tickets[msg.ticket]
    requires link.dst == LeaderOf(c)
    requires Moves(b, b', link, msg, c.members.acceptors, AcceptRequest(0, |h.chosen|, msg.value))
    requires h'.tickets == h.tickets && h'.chosen == h.chosen + [msg.ticket] && h'.answered == h.answered
    ensures AcceptTokens(c, b', h')
  {
    var n := |h.chosen|;
    assert forall k :: 0 <= k < n ==> Bound(h', k) == Bound(h, k);
    assert Bound(h', n) == msg.value;
    forall a | a in c.members.acceptors
      ensures b(Link(Peer(LeaderOf(c)), a), AcceptRequest(0, n, msg.value)) == 0
      ensures b(Link(Peer(a), LeaderOf(c)), AcceptResponse(0, n)) == 0
    {
      assert !MessageOk(c, h, Link(Peer(LeaderOf(c)), a), AcceptRequest(0, n, msg.value));
      assert !MessageOk(c, h, Link(Peer(a), LeaderOf(c)), AcceptResponse(0, n));
    }
  }

  lemma {:induction false} StartCommitTokens(c: Config, b: Bag, b': Bag, h: History, h': History)
    requires ValidConfig(c) && CommitTokens(c, b, h) && MessagesOk(c, b, h)
    requires forall k :: k in h.announced ==> k < |h.chosen|
    requires ChosenInRange(h') && |h'.chosen| == |h.chosen| + 1 && Grows(h, h')
    requires h'.announced == h.announced && h'.learned == h.learned
    requires forall l, x: Message | x.CommitRequest? :: b'(l, x) == b(l, x)
    ensures CommitTokens(c, b', h')
  {
    var n := |h.chosen|;
    assert forall k :: 0 <= k < n ==> Bound(h', k) == Bound(h, k);
    forall x | x in c.members.learners && x in h.learned
      ensures b(Link(Peer(LeaderOf(c)), x), CommitRequest(n, Bound(h', n), LeaderOf(c))) == 0
      ensures multiset(h.learned[x])[Commit(n, Bound(h', n), LeaderOf(c))] == 0
    {
      assert !MessageOk(c, h, Link(Peer(LeaderOf(c)), x), CommitRequest(n, Bound(h', n), LeaderOf(c)));
      assert LearnedOk(c, h, x, h.learned[x]);
    }
    forall m | m in h'.learned ensures LearnedOk(c, h', m, h'.learned[m]) {
      LearnedKept(c, h, h', m, h.learned[m]);
    }
  }

  /** A new instance starts with no answer. */
  lemma {:induction false} StartInstance(c: Config, instances: map<nat, Instance>, h: History, h': History,
                                         value: Value)
    requires InstancesOk(instances, h) && AnnouncedOk(c, instances, h)
    requires forall p :: p in h.answered ==> p.0 < |h.chosen|
    requires ChosenInRange(h') && |h'.chosen| == |h.chosen| + 1 && Grows(h, h')
    requires h'.announced == h.announced && h'.answered == h.answered
    requires value == Bound(h', |h.chosen|)
    ensures InstancesOk(instances[|h.chosen| := Instance(0, value, 0, 0)], h')
    ensures AnnouncedOk(c, instances[|h.chosen| := Instance(0, value, 0, 0)], h')
  {
    var n := |h.chosen|;
    assert Answerers(h.answered, n) == {};
    assert forall k :: 0 <= k < n ==> Bound(h', k) == Bound(h, k);
  }

  lemma {:induction false} StartPlaces(b: Bag, b': Bag, h: History, h': History, link: Link, msg: Message)
    requires PlacesOk(b, h) && msg.Propose? && msg.ticket < |h.places| && h.places[msg.ticket] == OnLink(link)
    requires forall l, x: Message | x.Propose? && x != msg :: b'(l, x) == b(l, x)
    requires h' == h.(chosen := h.chosen + [msg.ticket], places := h.places[msg.ticket := InSlot(|h.chosen|)])
    ensures PlacesOk(b', h')
  {
  }

  lemma {:induction false} StartNodes(c: Config, nodes: map<Machine, Node>, h: History, h': History, value: Value)
    requires ValidConfig(c) && NodesOk(c, nodes, h)
    requires InstancesOk(nodes[LeaderOf(c)].leader.instances, h)
    requires AnnouncedOk(c, nodes[LeaderOf(c)].leader.instances, h)
    requires forall p :: p in h.answered ==> p.0 < |h.chosen|
    requires ChosenInRange(h') && |h'.chosen| == |h.chosen| + 1 && Grows(h, h')
    requires h'.announced == h.announced && h'.answered == h.answered && h'.learned == h.learned
    requires value == Bound(h', |h.chosen|)
    ensures var nodes' := nodes[LeaderOf(c) := Node(NewInstance(c.members, nodes[LeaderOf(c)].leader, value).leader, 0)];
            && NodesOk(c, nodes', h')
            && InstancesOk(nodes'[LeaderOf(c)].leader.instances, h')
            && AnnouncedOk(c, nodes'[LeaderOf(c)].leader.instances, h')
  {
    var l := nodes[LeaderOf(c)].leader;
    StartInstance(c, l.instances, h, h', value);
    NodeUpdated(c, nodes, LeaderOf(c), Node(NewInstance(c.members, l, value).leader, 0), h, h');
  }

  lemma {:induction false} StartNet(c: Config, b: Bag, b': Bag, h: History, h': History, link: Link, msg: Message)
    requires ValidConfig(c) && PlacesOk(b, h) && MessagesOk(c, b, h) && AcceptTokens(c, b, h) && CommitTokens(c, b, h)
    requires forall k :: k in h.announced ==> k < |h.chosen|
    requires msg.Propose? && b(link, msg) > 0 && link.dst == LeaderOf(c) && msg.ticket < |h.places|
    requires Moves(b, b', link, msg, c.members.acceptors, AcceptRequest(0, |h.chosen|, msg.value))
    requires h' == h.(chosen := h.chosen + [msg.ticket], places := h.places[msg.ticket := InSlot(|h.chosen|)])
    ensures PlacesOk(b', h') && MessagesOk(c, b', h') && AcceptTokens(c, b', h') && CommitTokens(c, b', h')
  {
    assert MessageOk(c, h, link, msg);
    assert b(link, msg) == 1;
    MessagesKept(c, b, b', h, h', link, msg, c.members.acceptors, AcceptRequest(0, |h.chosen|, msg.value));
    StartAcceptTokens(c, b, b', h, h', link, msg);
    StartCommitTokens(c, b, b', h, h');
    StartPlaces(b, b', h, h', link, msg);
  }

  lemma {:induction false} ProposeStartInv(c: Config, nodes: map<Machine, Node>, b: Bag, b': Bag, h: History,
                                           h': History, link: Link, msg: Message)
    requires Inv(c, nodes, b, h) && msg.Propose? && b(link, msg) > 0 && link.dst == LeaderOf(c)
    requires Moves(b, b', link, msg, c.members.acceptors, AcceptRequest(0, |h.chosen|, msg.value))
    requires msg.ticket < |h.places|
    requires h' == h.(chosen := h.chosen + [msg.ticket], places := h.places[msg.ticket := InSlot(|h.chosen|)])
    ensures Inv(c, nodes[link.dst := Node(NewInstance(c.members, nodes[link.dst].leader, msg.value).leader, 0)], b', h')
  {
    assert MessageOk(c, h, link, msg);
    StartNet(c, b, b', h, h', link, msg);
    StartNodes(c, nodes, h, h', msg.value);
  }

  lemma {:induction false} AcceptRequestTokens(c: Config, b: Bag, b': Bag, h: History, link: Link, msg: Message)
    requires ValidConfig(c) && AcceptTokens(c, b, h) && msg.AcceptRequest? && MessageOk(c, h, link, msg)
    requires Moves(b, b', link, msg, [LeaderOf(c)], AcceptResponse(0, msg.slot))
    ensures AcceptTokens(c, b', h)
  {
    assert link == Link(Peer(LeaderOf(c)), link.dst) && msg == AcceptRequest(0, msg.slot, Bound(h, msg.slot));
  }

  lemma {:induction false} AcceptRequestInv(c: Config, nodes: map<Machine, Node>, b: Bag, b': Bag, h: History,
                                            link: Link, msg: Message)
    requires Inv(c, nodes, b, h) && msg.AcceptRequest? && b(link, msg) > 0
    requires Moves(b, b', link, msg, [LeaderOf(c)], AcceptResponse(0, msg.slot))
    ensures Inv(c, nodes, b', h)
  {
    assert MessageOk(c, h, link, msg);
    MessagesKept(c, b, b', h, h, link, msg, [LeaderOf(c)], AcceptResponse(0, msg.slot));
    PlacesKept(b, b', h, h);
    CommitTokensKept(c, b, b', h, h);
    AcceptRequestTokens(c, b, b', h, link, msg);
  }

  /* An accept response: the acceptor's answer is recorded and counted. */

  lemma {:induction false} AcceptResponseTokens(c: Config, b: Bag, b': Bag, h: History, h': History, link: Link,
                                                msg: Message, targets: seq<Machine>, out: Message)
    requires ValidConfig(c) && AcceptTokens(c, b, h) && msg.AcceptResponse? && MessageOk(c, h, link, msg)
    requires Moves(b, b', link, msg, targets, out) && out.CommitRequest? && b(link, msg) > 0
    requires h'.tickets == h.tickets && h'.chosen == h.chosen
    requires h'.answered == h.answered + {(msg.slot, link.src.machine)}
    ensures AcceptTokens(c, b', h')
    ensures (msg.slot, link.src.machine) !in h.answered
  {
    assert link == Link(Peer(link.src.machine), LeaderOf(c)) && msg == AcceptResponse(0, msg.slot);
    assert forall k :: 0 <= k < |h.chosen| ==> Bound(h', k) == Bound(h, k);
  }

  lemma {:induction false} AnswererAdded(answered: set<(nat, Machine)>, slot: nat, a: Machine)
    requires (slot, a) !in answered
    ensures |Answerers(answered + {(slot, a)}, slot)| == |Answerers(answered, slot)| + 1
    ensures forall k :: k != slot ==> Answerers(answered + {(slot, a)}, k) == Answerers(answered, k)
  {
    assert Answerers(answered + {(slot, a)}, slot) == Answerers(answered, slot) + {a};
  }

  lemma {:induction false} AcceptedInstances(c: Config, instances: map<nat, Instance>, instances': map<nat, Instance>,
                                             h: History, h': History, slot: nat, a: Machine)
    requires InstancesOk(instances, h) && AnnouncedOk(c, instances, h)
    requires slot < |h.chosen| && (slot, a) !in h.answered
    requires h'.tickets == h.tickets && h'.chosen == h.chosen && h'.answered == h.answered + {(slot, a)}
    requires if slot in instances
             then instances' == instances[slot := instances[slot].(numAccepts := instances[slot].numAccepts + 1)]
             else instances' == instances
    requires h'.announced ==
             if slot in instances && instances[slot].numAccepts + 1 == Majority(c.members)
             then h.announced + [slot] else h.announced
    ensures InstancesOk(instances', h') && AnnouncedOk(c, instances', h')
  {
    AnswererAdded(h.answered, slot, a);
    assert forall k :: 0 <= k < |h.chosen| ==> Bound(h', k) == Bound(h, k);
  }

  lemma {:induction false} AnnounceTokens(c: Config, b: Bag, b': Bag, h: History, h': History, slot: nat)
    requires ValidConfig(c) && CommitTokens(c, b, h) && slot < |h.chosen| && slot !in h.announced
    requires forall l, x: Message | x.CommitRequest? ::
               b'(l, x) == b(l, x) + Sent(l, x, LeaderOf(c), c.members.learners, CommitRequest(slot, Bound(h, slot), LeaderOf(c)))
    requires h'.tickets == h.tickets && h'.chosen == h.chosen && h'.learned == h.learned
    requires h'.announced == h.announced + [slot]
    ensures CommitTokens(c, b', h')
  {
    assert forall k :: 0 <= k < |h.chosen| ==> Bound(h', k) == Bound(h, k);
    forall m | m in h'.learned ensures LearnedOk(c, h', m, h'.learned[m]) {
      LearnedKept(c, h, h', m, h.learned[m]);
    }
  }

  lemma {:induction false} AcceptResponseNet(c: Config, b: Bag, b': Bag, h: History, h': History, link: Link,
                                             msg: Message, announce: bool, out: Message)
    requires ValidConfig(c) && PlacesOk(b, h) && MessagesOk(c, b, h) && AcceptTokens(c, b, h) && CommitTokens(c, b, h)
    requires msg.AcceptResponse? && b(link, msg) > 0 && out.CommitRequest?
    requires announce ==>
               && msg.slot < |h.chosen| && msg.slot !in h.announced
               && out == CommitRequest(msg.slot, Bound(h, msg.slot), LeaderOf(c))
    requires h' == h.(answered := h.answered + {(msg.slot, link.src.machine)},
                      announced := if announce then h.announced + [msg.slot] else h.announced)
    requires Moves(b, b', link, msg, if announce then c.members.learners else [], out)
    ensures PlacesOk(b', h') && MessagesOk(c, b', h') && AcceptTokens(c, b', h') && CommitTokens(c, b', h')
    ensures (msg.slot, link.src.machine) !in h.answered
  {
    assert MessageOk(c, h, link, msg);
    var targets := if announce then c.members.learners else [];
    AcceptResponseTokens(c, b, b', h, h', link, msg, targets, out);
    MessagesKept(c, b, b', h, h', link, msg, targets, out);
    PlacesKept(b, b', h, h');
    if announce {
      AnnounceTokens(c, b, b', h, h', msg.slot);
    } else {
      CommitTokensKept(c, b, b', h, h');
    }
  }

  lemma {:induction false} AcceptResponseNodes(c: Config, nodes: map<Machine, Node>, h: History, h': History,
                                               slot: nat, a: Machine)
    requires ValidConfig(c) && NodesOk(c, nodes, h) && slot < |h.chosen| && (slot, a) !in h.answered
    requires InstancesOk(nodes[LeaderOf(c)].leader.instances, h)
    requires AnnouncedOk(c, nodes[LeaderOf(c)].leader.instances, h)
    requires h' == h.(answered := h.answered + {(slot, a)},
                      announced := if Announces(c.members, nodes[LeaderOf(c)].leader, slot)
                                   then h.announced + [slot] else h.announced)
    ensures var nodes' := nodes[LeaderOf(c) := Node(Accepted(c.members, LeaderOf(c), nodes[LeaderOf(c)].leader, slot).leader, 0)];
            && NodesOk(c, nodes', h')
            && InstancesOk(nodes'[LeaderOf(c)].leader.instances, h')
            && AnnouncedOk(c, nodes'[LeaderOf(c)].leader.instances, h')
  {
    var l := nodes[LeaderOf(c)].leader;
    var l' := Accepted(c.members, LeaderOf(c), l, slot).leader;
    AcceptedInstances(c, l.instances, l'.instances, h, h', slot, a);
    NodeUpdated(c, nodes, LeaderOf(c), Node(l', 0), h, h');
  }

  lemma {:induction false} AcceptResponseInv(c: Config, nodes: map<Machine, Node>, nodes': map<Machine, Node>, b: Bag,
                                             b': Bag, h: History, h': History, link: Link, msg: Message,
                                             targets: seq<Machine>, out: Message)
    requires Inv(c, nodes, b, h) && msg.AcceptResponse? && b(link, msg) > 0 && link.dst in nodes
    requires var l := nodes[link.dst].leader;
             && nodes' == nodes[link.dst := Node(Accepted(c.members, link.dst, l, msg.slot).leader, 0)]
             && h' == h.(answered := h.answered + {(msg.slot, link.src.machine)},
                         announced := if Announces(c.members, l, msg.slot) then h.announced + [msg.slot] else h.announced)
             && targets == (if Announces(c.members, l, msg.slot) then c.members.learners else [])
             && (msg.slot in l.instances ==> out == CommitRequest(msg.slot, l.instances[msg.slot].value, link.dst))
             && out.CommitRequest?
    requires Moves(b, b', link, msg, targets, out)
    ensures Inv(c, nodes', b', h')
  {
    assert MessageOk(c, h, link, msg);
    AcceptResponseNet(c, b, b', h, h', link, msg, Announces(c.members, nodes[link.dst].leader, msg.slot), out);
    AcceptResponseNodes(c, nodes, h, h', msg.slot, link.src.machine);
  }

  /* A commit request: the learner reports the commit and answers. */

  lemma {:induction false} ToldCount(learned: map<Machine, seq<Commit>>, m: Machine, told: Commit, x: Machine,
                                     e: Commit)
    requires m in learned && x in learned
    ensures multiset(learned[m := learned[m] + [told]][x])[e] ==
            multiset(learned[x])[e] + if x == m && e == told then 1 else 0
  {
    assert multiset(learned[m] + [told]) == multiset(learned[m]) + multiset{told};
  }

  lemma {:induction false} CommitRequestTokens(c: Config, b: Bag, b': Bag, h: History, h': History, link: Link,
                                               msg: Message)
    requires ValidConfig(c) && CommitTokens(c, b, h) && msg.CommitRequest? && MessageOk(c, h, link, msg)
    requires b(link, msg) > 0 && link.dst in h.learned
    requires forall l, x: Message | x.CommitRequest? :: b'(l, x) == b(l, x) - if l == link && x == msg then 1 else 0
    requires h' == h.(learned := h.learned[link.dst := h.learned[link.dst] + [Commit(msg.slot, msg.value, msg.leader)]])
    ensures CommitTokens(c, b', h')
  {
    var ldr := LeaderOf(c);
    forall k | 0 <= k < |h.chosen| ensures Bound(h', k) == Bound(h, k) {
    }
    forall k, x | 0 <= k < |h.chosen| && x in c.members.learners && x in h.learned
      ensures b'(Link(Peer(ldr), x), CommitRequest(k, Bound(h, k), ldr)) + multiset(h'.learned[x])[Commit(k, Bound(h, k), ldr)]
              == if k in h.announced then 1 else 0
    {
      ToldCount(h.learned, link.dst, Commit(msg.slot, msg.value, msg.leader), x, Commit(k, Bound(h, k), ldr));
    }
    CommitRequestLearned(c, h, h', link.dst, msg);
  }

  lemma {:induction false} CommitRequestLearned(c: Config, h: History, h': History, x: Machine, msg: Message)
    requires ValidConfig(c) && ChosenInRange(h) && x in h.learned && msg.CommitRequest?
    requires forall m :: m in h.learned ==> LearnedOk(c, h, m, h.learned[m])
    requires x in c.members.learners && msg.slot in h.announced && msg.slot < |h.chosen|
    requires msg.value == Bound(h, msg.slot) && msg.leader == LeaderOf(c)
    requires h' == h.(learned := h.learned[x := h.learned[x] + [Commit(msg.slot, msg.value, msg.leader)]])
    ensures forall m :: m in h'.learned ==> LearnedOk(c, h', m, h'.learned[m])
  {
    forall m | m in h'.learned ensures LearnedOk(c, h', m, h'.learned[m]) {
      LearnedKept(c, h, h', m, h.learned[m]);
    }
  }

  lemma {:induction false} CommitRequestNodes(c: Config, nodes: map<Machine, Node>, h: History, h': History,
                                              m: Machine, msg: Message)
    requires ValidConfig(c) && NodesOk(c, nodes, h) && m in nodes && msg.CommitRequest? && msg.slot < |h.chosen|
    requires InstancesOk(nodes[LeaderOf(c)].leader.instances, h)
    requires AnnouncedOk(c, nodes[LeaderOf(c)].leader.instances, h)
    requires h' == h.(learned := h.learned[m := h.learned[m] + [Commit(msg.slot, msg.value, msg.leader)]])
    ensures var nodes' := nodes[m := Node(LeaderHandle(c.members, m, nodes[m].leader, msg).leader, 0)];
            && NodesOk(c, nodes', h')
            && InstancesOk(nodes'[LeaderOf(c)].leader.instances, h')
            && AnnouncedOk(c, nodes'[LeaderOf(c)].leader.instances, h')
  {
    NodeUpdated(c, nodes, m, Node(LeaderHandle(c.members, m, nodes[m].leader, msg).leader, 0), h, h');
    InstancesKept(c, nodes[LeaderOf(c)].leader.instances, h, h');
  }

  lemma {:induction false} CommitRequestMessages(c: Config, b: Bag, b': Bag, h: History, h': History, link: Link,
                                                 msg: Message)
    requires ValidConfig(c) && PlacesOk(b, h) && MessagesOk(c, b, h) && AcceptTokens(c, b, h)
    requires msg.CommitRequest? && b(link, msg) > 0
    requires h' == h.(learned := h'.learned) && Moves(b, b', link, msg, [LeaderOf(c)], CommitResponse(msg.slot))
    ensures PlacesOk(b', h') && MessagesOk(c, b', h') && AcceptTokens(c, b', h')
  {
    assert MessageOk(c, h, link, msg);
    MessagesKept(c, b, b', h, h', link, msg, [LeaderOf(c)], CommitResponse(msg.slot));
    PlacesKept(b, b', h, h');
    AcceptTokensKept(c, b, b', h, h');
  }

  lemma {:induction false} CommitRequestNet(c: Config, b: Bag, b': Bag, h: History, h': History, link: Link,
                                            msg: Message)
    requires ValidConfig(c) && PlacesOk(b, h) && MessagesOk(c, b, h) && AcceptTokens(c, b, h) && CommitTokens(c, b, h)
    requires msg.CommitRequest? && b(link, msg) > 0 && link.dst in h.learned
    requires h' == h.(learned := h.learned[link.dst := h.learned[link.dst] + [Commit(msg.slot, msg.value, msg.leader)]])
    requires Moves(b, b', link, msg, [LeaderOf(c)], CommitResponse(msg.slot))
    ensures PlacesOk(b', h') && MessagesOk(c, b', h') && AcceptTokens(c, b', h') && CommitTokens(c, b', h')
  {
    assert MessageOk(c, h, link, msg);
    CommitRequestMessages(c, b, b', h, h', link, msg);
    CommitRequestTokens(c, b, b', h, h', link, msg);
  }

  lemma {:induction false} CommitRequestInv(c: Config, nodes: map<Machine, Node>, b: Bag, b': Bag, h: History,
                                            h': History, link: Link, msg: Message)
    requires Inv(c, nodes, b, h) && msg.CommitRequest? && b(link, msg) > 0 && link.dst in nodes
    requires h' == h.(learned := h.learned[link.dst := h.learned[link.dst] + [Commit(msg.slot, msg.value, msg.leader)]])
    requires Moves(b, b', link, msg, [LeaderOf(c)], CommitResponse(msg.slot))
    ensures Inv(c, nodes[link.dst := Node(LeaderHandle(c.members, link.dst, nodes[link.dst].leader, msg).leader, 0)], b', h')
  {
    assert MessageOk(c, h, link, msg);
    CommitRequestNet(c, b, b', h, h', link, msg);
    CommitRequestNodes(c, nodes, h, h', link.dst, msg);
  }

  /* A commit response: counted on slot 0, which is at last forgotten. */

  lemma {:induction false} CommitAnsweredInstances(c: Config, l: LeaderState, h: History)
    requires InstancesOk(l.instances, h) && AnnouncedOk(c, l.instances, h)
    ensures InstancesOk(CommitAnswered(c.members, l).leader.instances, h)
    ensures AnnouncedOk(c, CommitAnswered(c.members, l).leader.instances, h)
  {
  }

  lemma {:induction false} CommitResponseInv(c: Config, nodes: map<Machine, Node>, nodes': map<Machine, Node>, b: Bag,
                                             b': Bag, h: History, link: Link, msg: Message)
    requires Inv(c, nodes, b, h) && msg.CommitResponse? && b(link, msg) > 0 && link.dst in nodes
    requires nodes' == nodes[link.dst := Node(CommitAnswered(c.members, nodes[link.dst].leader).leader, 0)]
    requires Moves(b, b', link, msg, [], msg)
    ensures Inv(c, nodes', b', h)
  {
    assert MessageOk(c, h, link, msg);
    MessagesKept(c, b, b', h, h, link, msg, [], msg);
    PlacesKept(b, b', h, h);
    AcceptTokensKept(c, b, b', h, h);
    CommitTokensKept(c, b, b', h, h);
    NodeUpdated(c, nodes, link.dst, nodes'[link.dst], h, h);
    CommitAnsweredInstances(c, nodes[link.dst].leader, h);
  }

  /* ---------- Every step ---------- */

  ghost predicate Effective(c: Config, node: Node, link: Link, msg: Message, targets: seq<Machine>, out: Message)
    requires ValidConfig(c)
  {
    var l := node.leader;
    match msg
    case Propose(value, _) =>
      if l.elected then targets == c.members.acceptors && out == AcceptRequest(l.ballot, l.nextSlot, value)
      else targets == [LeaderOf(c)] && out == msg
    case AcceptRequest(ballot, slot, _) => targets == [LeaderOf(c)] && out == AcceptResponse(ballot, slot)
    case AcceptResponse(_, slot) =>
      && targets == (if Announces(c.members, l, slot) then c.members.learners else [])
      && out.CommitRequest?
      && (slot in l.instances ==> out == CommitRequest(slot, l.instances[slot].value, link.dst))
    case CommitRequest(slot, _, _) => targets == [LeaderOf(c)] && out == CommitResponse(slot)
    case CommitResponse(_) => targets == [] && out == msg
  }

  lemma {:induction false} HandleInv(c: Config, nodes: map<Machine, Node>, nodes': map<Machine, Node>, b: Bag,
                                     b': Bag, h: History, h': History, link: Link, msg: Message,
                                     targets: seq<Machine>, out: Message)
    requires Inv(c, nodes, b, h) && b(link, msg) > 0 && link.dst in nodes
    requires Effective(c, nodes[link.dst], link, msg, targets, out)
    requires Moves(b, b', link, msg, targets, out)
    requires nodes' == nodes[link.dst := After(c, nodes[link.dst], link, msg)]
    requires h' == Recorded(c, h, nodes[link.dst], link, msg)
    ensures Inv(c, nodes', b', h')
  {
    assert MessageOk(c, h, link, msg);
    match msg {
      case Propose(_, _) =>
        if link.dst == LeaderOf(c) {
          ProposeStartInv(c, nodes, b, b', h, h', link, msg);
        } else {
          assert nodes' == nodes;
          ProposeForwardInv(c, nodes, b, b', h, h', link, msg);
        }
      case AcceptRequest(_, _, _) =>
        assert nodes' == nodes;
        AcceptRequestInv(c, nodes, b, b', h, link, msg);
      case AcceptResponse(_, _) =>
        AcceptResponseInv(c, nodes, nodes', b, b', h, h', link, msg, targets, out);
      case CommitRequest(_, _, _) =>
        CommitRequestInv(c, nodes, b, b', h, h', link, msg);
      case CommitResponse(_) =>
        CommitResponseInv(c, nodes, nodes', b, b', h, link, msg);
    }
  }

  lemma {:induction false} DeliverInv(c: Config, s: System, link: Link, i: nat)
    requires Safe(c, s) && i < |Q(s.net, link)| && link.dst in s.nodes
    ensures Safe(c, Delivered(c, s, link, i))
  {
    var msg, s', node := Q(s.net, link)[i], Delivered(c, s, link, i), s.nodes[link.dst];
    assert BagOf(s.net)(link, msg) > 0 by { assert msg in multiset(Q(s.net, link)); }
    assert MessageOk(c, s.hist, link, msg);
    var targets, out := Effect(c, node, link, msg);
    DeliveryMoves(s.net, link, i, targets, out);
    HandleInv(c, s.nodes, s'.nodes, BagOf(s.net), BagOf(s'.net), s.hist, s'.hist, link, msg, targets, out);
  }

  /** A machine answers any message with one message to distinct machines. */
  lemma {:induction false} Effect(c: Config, node: Node, link: Link, msg: Message)
    returns (targets: seq<Machine>, out: Message)
    requires ValidConfig(c) && node.ballot == 0 && node.leader.electedLeader == LeaderOf(c)
    requires msg.AcceptRequest? || msg.CommitRequest? ==> link.src == Peer(LeaderOf(c))
    ensures Distinct(targets) && Answers(c, node, link, msg) == ToAll(targets, out)
    ensures Effective(c, node, link, msg, targets, out)
  {
    var l := node.leader;
    match msg {
      case Propose(value, _) =>
        if l.elected {
          targets, out := c.members.acceptors, AcceptRequest(l.ballot, l.nextSlot, value);
        } else {
          targets, out := [LeaderOf(c)], msg;
        }
      case AcceptRequest(ballot, slot, _) =>
        targets, out := [LeaderOf(c)], AcceptResponse(ballot, slot);
      case AcceptResponse(_, slot) =>
        targets := if Announces(c.members, l, slot) then c.members.learners else [];
        out := if slot in l.instances then CommitRequest(slot, l.instances[slot].value, link.dst)
               else CommitRequest(slot, OfBatch(BatchId(0, link.dst)), link.dst);
      case CommitRequest(slot, _, _) =>
        targets, out := [LeaderOf(c)], CommitResponse(slot);
      case CommitResponse(_) =>
        targets, out := [], msg;
    }
    assert Answers(c, node, link, msg) == ToAll(targets, out);
  }

  /** What the invariant says of one delivery. */
  lemma {:induction false} DeliveryParts(c: Config, s: System, link: Link, i: nat)
    returns (targets: seq<Machine>, out: Message)
    requires Safe(c, s) && i < |Q(s.net, link)| && link.dst in s.nodes
    ensures ValidConfig(c) && ChosenInRange(s.hist) && link.dst in c.machines
    ensures MessageOk(c, s.hist, link, Q(s.net, link)[i])
    ensures Distinct(targets) && forall m :: m in targets ==> m in c.machines
    ensures Answers(c, s.nodes[link.dst], link, Q(s.net, link)[i]) == ToAll(targets, out)
    ensures Effective(c, s.nodes[link.dst], link, Q(s.net, link)[i], targets, out)
    ensures s.nodes[link.dst].leader.elected <==> link.dst == LeaderOf(c)
    ensures link.dst == LeaderOf(c) ==> s.nodes[link.dst].leader.nextSlot == |s.hist.chosen|
    ensures forall k, a :: (k, a) in s.hist.answered ==> k < |s.hist.chosen|
  {
    var msg := Q(s.net, link)[i];
    assert BagOf(s.net)(link, msg) > 0 by { assert msg in multiset(Q(s.net, link)); }
    assert MessageOk(c, s.hist, link, msg);
    targets, out := Effect(c, s.nodes[link.dst], link, msg);
  }

  lemma {:induction false} StepSafe(c: Config, s: System, step: Step)
    requires Safe(c, s) && Enabled(c, s, step)
    ensures Safe(c, Next(c, s, step))
  {
    match step {
      case Submit(at, value) =>
        var s' := Next(c, s, step);
        assert Enqueues(BagOf(s.net), BagOf(s'.net), Link(User(at), at), Propose(value, |s.hist.tickets|));
        SubmitInv(c, s.nodes, BagOf(s.net), BagOf(s'.net), s.hist, s'.hist, Link(User(at), at), value);
      case Deliver(link, i) =>
        DeliverInv(c, s, link, i);
    }
  }

  lemma {:induction false} RunSafe(c: Config, steps: seq<Step>, states: seq<System>, i: nat)
    requires Run(c, steps, states) && i < |states|
    ensures Safe(c, states[i])
  {
    if i == 0 {
      InitInv(c);
    } else {
      RunSafe(c, steps, states, i - 1);
      StepSafe(c, states[i - 1], steps[i - 1]);
    }
  }

  /* ---------- Agreement ---------- */

  lemma {:induction false} StepGrows(c: Config, s: System, step: Step)
    requires Enabled(c, s, step)
    ensures Grows(s.hist, Next(c, s, step).hist)
  {
  }

  lemma {:induction false} GrowsTransitive(h1: History, h2: History, h3: History)
    requires Grows(h1, h2) && Grows(h2, h3)
    ensures Grows(h1, h3)
  {
  }

  lemma {:induction false} RunStepGrows(c: Config, steps: seq<Step>, states: seq<System>, k: nat)
    requires Run(c, steps, states) && k < |steps|
    ensures Grows(states[k].hist, states[k + 1].hist)
  {
    StepGrows(c, states[k], steps[k]);
  }

  function Histories(states: seq<System>): (hs: seq<History>)
    ensures |hs| == |states| && forall k :: 0 <= k < |states| ==> hs[k] == states[k].hist
  {
    seq(|states|, k requires 0 <= k < |states| => states[k].hist)
  }

  lemma {:induction false} GrowsThroughout(hs: seq<History>, i: nat, j: nat)
    requires i <= j < |hs| && forall k :: 0 <= k < |hs| - 1 ==> Grows(hs[k], hs[k + 1])
    ensures Grows(hs[i], hs[j])
    decreases j - i
  {
    if i < j {
      GrowsThroughout(hs, i, j - 1);
      assert Grows(hs[j - 1], hs[(j - 1) + 1]);
      GrowsTransitive(hs[i], hs[j - 1], hs[j]);
    }
  }

  /** What a slot is bound to never changes. */
  lemma {:induction false} RunGrows(c: Config, steps: seq<Step>, states: seq<System>, i: nat, j: nat)
    requires Run(c, steps, states) && i <= j < |states|
    ensures Grows(states[i].hist, states[j].hist)
  {
    var hs := Histories(states);
    forall k | 0 <= k < |hs| - 1 ensures Grows(hs[k], hs[k + 1]) {
      RunStepGrows(c, steps, states, k);
    }
    GrowsThroughout(hs, i, j);
  }

  /** The values that the first `n` steps submit, in order. */
  function SubmittedValues(steps: seq<Step>, n: nat): seq<Value>
    requires n <= |steps|
  {
    if n == 0 then []
    else SubmittedValues(steps, n - 1) + if steps[n - 1].Submit? then [steps[n - 1].value] else []
  }

  /** The proposals on record are exactly those that were submitted, in order. */
  lemma {:induction false} TicketsAreSubmitted(c: Config, steps: seq<Step>, states: seq<System>, i: nat)
    requires Run(c, steps, states) && i < |states|
    ensures states[i].hist.tickets == SubmittedValues(steps, i)
  {
    var bs := seq(|states|, k requires 0 <= k < |states| => states[k].hist.tickets == SubmittedValues(steps, k));
    forall k | 0 <= k < |bs| - 1 && bs[k] ensures bs[k + 1] {
      StepTickets(c, states[k], steps[k]);
      assert states[k].hist.tickets + [] == states[k].hist.tickets;
    }
    HoldsThroughout(bs, i);
  }

  lemma {:induction false} StepTickets(c: Config, s: System, step: Step)
    requires Enabled(c, s, step)
    ensures Next(c, s, step).hist.tickets == s.hist.tickets + if step.Submit? then [step.value] else []
  {
  }

  /**
    Agreement, for any order of deliveries: whatever two learners are ever told about a slot, at
    whatever points of the run, is the same submitted value.
  */
  lemma {:induction false} Agreement(c: Config, steps: seq<Step>, states: seq<System>, i: nat, j: nat, x: Machine,
                                     y: Machine, d: Commit, e: Commit)
    requires Run(c, steps, states) && i <= j < |states|
    requires x in states[i].hist.learned && d in states[i].hist.learned[x]
    requires y in states[j].hist.learned && e in states[j].hist.learned[y]
    requires d.slot == e.slot
    ensures d == e && d.leader == LeaderOf(c)
    ensures d.value in states[i].hist.tickets
  {
    RunSafe(c, steps, states, i);
    RunSafe(c, steps, states, j);
    RunGrows(c, steps, states, i, j);
    LearnedAgree(c, states[i].hist, states[j].hist, x, y, d, e);
  }

  lemma {:induction false} LearnedAgree(c: Config, h: History, h': History, x: Machine, y: Machine, d: Commit,
                                        e: Commit)
    requires ValidConfig(c) && ChosenInRange(h) && ChosenInRange(h') && Grows(h, h')
    requires x in h.learned && LearnedOk(c, h, x, h.learned[x]) && d in h.learned[x]
    requires y in h'.learned && LearnedOk(c, h', y, h'.learned[y]) && e in h'.learned[y]
    requires d.slot == e.slot
    ensures d == e && d.leader == LeaderOf(c) && d.value in h.tickets
  {
    BoundKept(h, h', d.slot);
  }

  /** A slot's commit is broadcast at most once, and only after a majority of acceptors answered. */
  lemma {:induction false} CommittedOnceByMajority(c: Config, steps: seq<Step>, states: seq<System>, i: nat)
    requires Run(c, steps, states) && i < |states|
    ensures var h := states[i].hist;
            && Distinct(h.announced)
            && forall k :: k in h.announced ==>
                 && 2 * |Answerers(h.answered, k)| > |c.members.acceptors|
                 && (forall a :: a in Answerers(h.answered, k) ==> a in c.members.acceptors)
  {
    RunSafe(c, steps, states, i);
  }

  /** While the leader still holds a slot, its commit has been broadcast exactly if a strict majority answered. */
  lemma {:induction false} AnnouncedIffMajority(c: Config, steps: seq<Step>, states: seq<System>, i: nat, k: nat)
    requires Run(c, steps, states) && i < |states|
    ensures LeaderOf(c) in states[i].nodes
    ensures k in states[i].nodes[LeaderOf(c)].leader.instances ==>
              (k in states[i].hist.announced <==>
                 2 * |Answerers(states[i].hist.answered, k)| > |c.members.acceptors|)
  {
    RunSafe(c, steps, states, i);
  }

  /** The step that broadcasts a commit is the one that completes a strict majority. */
  lemma {:induction false} AnnouncedAtMajority(c: Config, steps: seq<Step>, states: seq<System>, i: nat, k: nat)
    requires Run(c, steps, states) && i < |steps|
    requires k !in states[i].hist.announced && k in states[i + 1].hist.announced
    ensures var n := |Answerers(states[i + 1].hist.answered, k)|;
            2 * n > |c.members.acceptors| >= 2 * (n - 1)
  {
    RunSafe(c, steps, states, i);
    RunSafe(c, steps, states, i + 1);
    var link, s := steps[i].link, states[i];
    var _, _ := DeliveryParts(c, s, link, steps[i].index);
    AnswerersGrowByOne(s.hist.answered, k, link.src.machine);
  }

  lemma {:induction false} AnswerersGrowByOne(answered: set<(nat, Machine)>, slot: nat, a: Machine)
    ensures |Answerers(answered + {(slot, a)}, slot)| <= |Answerers(answered, slot)| + 1
  {
    assert Answerers(answered + {(slot, a)}, slot) == Answerers(answered, slot) + {a};
  }

  /** A learner is told of a slot at most once, and only after it was broadcast. */
  lemma {:induction false} LearnedOnce(c: Config, steps: seq<Step>, states: seq<System>, i: nat, x: Machine, p: nat,
                                       q: nat)
    requires Run(c, steps, states) && i < |states|
    requires x in states[i].hist.learned && p < |states[i].hist.learned[x]| && q < |states[i].hist.learned[x]|
    ensures states[i].hist.learned[x][p].slot in states[i].hist.announced
    ensures states[i].hist.learned[x][p].slot == states[i].hist.learned[x][q].slot ==> p == q
  {
    RunSafe(c, steps, states, i);
    LearnedDistinct(c, BagOf(states[i].net), states[i].hist, x, p, q);
  }

  lemma {:induction false} TwiceCounted<T>(q: seq<T>, i: nat, j: nat)
    requires i < j < |q| && q[i] == q[j]
    ensures multiset(q)[q[i]] >= 2
  {
    assert q == q[..j] + [q[j]] + q[j + 1..];
    assert q[i] in q[..j];
  }

  lemma {:induction false} LearnedDistinct(c: Config, b: Bag, h: History, x: Machine, p: nat, q: nat)
    requires ValidConfig(c) && CommitTokens(c, b, h)
    requires x in h.learned && p < |h.learned[x]| && q < |h.learned[x]|
    ensures h.learned[x][p].slot in h.announced
    ensures h.learned[x][p].slot == h.learned[x][q].slot ==> p == q
  {
    var commits := h.learned[x];
    assert LearnedOk(c, h, x, commits);
    var k := commits[p].slot;
    assert multiset(commits)[Commit(k, Bound(h, k), LeaderOf(c))] <= 1;
    if p < q && commits[p] == commits[q] {
      TwiceCounted(commits, p, q);
    }
    if q < p && commits[p] == commits[q] {
      TwiceCounted(commits, q, p);
    }
  }
}
