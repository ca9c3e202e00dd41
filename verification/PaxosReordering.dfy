/** A run on a reordering link that forgets slot 0 too early, so that slot 0 is lost for good. */
module PaxosReordering {
  import opened Topology
  import opened PaxosRoles
  import opened PaxosSystem
  import opened PaxosQueues
  import opened PaxosRest

  const Only := Machine(0, 0, 0)
  const Alone := Config({Only}, Members([Only], [Only]))
  const Users := Link(User(Only), Only)
  const Loop := Link(Peer(Only), Only)

  /** The one machine, its two queues and what it has learned. */
  ghost predicate At(s: System, users: seq<Message>, loop: seq<Message>, l: LeaderState, learned: seq<Commit>) {
    && Q(s.net, Users) == users && Q(s.net, Loop) == loop
    && (forall link :: link != Users && link != Loop ==> Q(s.net, link) == [])
    && s.nodes == map[Only := Node(l, 0)]
    && s.hist.learned == map[Only := learned]
  }

  function Up(slot: nat, instances: map<nat, Instance>): LeaderState {
    LeaderState(true, Only, 0, slot, instances)
  }

  /** A run and the state it has reached. */
  ghost predicate Reaches(steps: seq<Step>, states: seq<System>, users: seq<Message>, loop: seq<Message>,
                          l: LeaderState, learned: seq<Commit>)
  {
    Run(Alone, steps, states) && At(states[|states| - 1], users, loop, l, learned)
  }

  lemma {:induction false} QueuesAfter(s: System, link: Link, i: nat, sends: seq<Send>, outs: seq<Message>, k: Link)
    requires i < |Q(s.net, link)| && |outs| <= 1
    requires sends == if outs == [] then [] else [Send(Only, outs[0])]
    ensures Q(Post(s.net[link := Remove(Q(s.net, link), i)], Only, sends), k) ==
            (if k == link then Remove(Q(s.net, link), i) else Q(s.net, k)) + (if k == Loop then outs else [])
  {
    PostQueue(s.net[link := Remove(Q(s.net, link), i)], Only, sends, k);
    if outs != [] {
      assert sends[1..] == [];
    }
  }

  /** One delivery, given the one message that the machine sends itself in answer. */
  lemma {:induction false} Take(s: System, users: seq<Message>, loop: seq<Message>, l: LeaderState,
                                learned: seq<Commit>, link: Link, i: nat, outs: seq<Message>)
    requires At(s, users, loop, l, learned)
    requires (link == Users && i < |users| && users[i].Propose?) || (link == Loop && i < |loop| && !loop[i].Propose?)
    requires var msg := Q(s.net, link)[i];
             && |outs| <= 1
             && Answers(Alone, Node(l, 0), link, msg) == (if outs == [] then [] else [Send(Only, outs[0])])
             && (msg.AcceptRequest? ==> msg.ballot == 0)
    ensures Enabled(Alone, s, Deliver(link, i))
    ensures var r := LeaderHandle(Alone.members, Only, l, Q(s.net, link)[i]);
            At(Next(Alone, s, Deliver(link, i)), if link == Users then Remove(users, i) else users,
               (if link == Loop then Remove(loop, i) else loop) + outs, r.leader, learned + r.commits)
    ensures Next(Alone, s, Deliver(link, i)).hist.tickets == s.hist.tickets
  {
    var s' := Next(Alone, s, Deliver(link, i));
    var sends := Answers(Alone, Node(l, 0), link, Q(s.net, link)[i]);
    forall k
      ensures Q(s'.net, k) == (if k == link then Remove(Q(s.net, link), i) else Q(s.net, k)) + (if k == Loop then outs else [])
    {
      QueuesAfter(s, link, i, sends, outs, k);
    }
    assert learned + [] == learned;
    if link == Users {
      assert Remove(users, i) + [] == Remove(users, i);
    }
  }

  lemma {:induction false} Go(steps: seq<Step>, states: seq<System>, users: seq<Message>, loop: seq<Message>,
                              l: LeaderState, learned: seq<Commit>, link: Link, i: nat, outs: seq<Message>,
                              users': seq<Message>, loop': seq<Message>, l': LeaderState, learned': seq<Commit>)
    returns (steps': seq<Step>, states': seq<System>)
    requires Reaches(steps, states, users, loop, l, learned) && |outs| <= 1
    requires (link == Users && i < |users| && users[i].Propose?) || (link == Loop && i < |loop| && !loop[i].Propose?)
    requires var msg := if link == Users then users[i] else loop[i];
             && (msg.AcceptRequest? ==> msg.ballot == 0)
             && Answers(Alone, Node(l, 0), link, msg) == (if outs == [] then [] else [Send(Only, outs[0])])
             && l' == LeaderHandle(Alone.members, Only, l, msg).leader
             && learned' == learned + LeaderHandle(Alone.members, Only, l, msg).commits
    requires users' == if link == Users then Remove(users, i) else users
    requires loop' == (if link == Loop then Remove(loop, i) else loop) + outs
    ensures Reaches(steps', states', users', loop', l', learned')
    ensures states'[|states'| - 1].hist.tickets == states[|states| - 1].hist.tickets
  {
    var s := states[|states| - 1];
    Take(s, users, loop, l, learned, link, i, outs);
    RunExtended(Alone, steps, states, Deliver(link, i), Next(Alone, s, Deliver(link, i)));
    steps', states' := steps + [Deliver(link, i)], states + [Next(Alone, s, Deliver(link, i))];
  }

  lemma {:induction false} ToSelf(x: Message)
    ensures ToAll([Only], x) == [Send(Only, x)] == [Send(Only, x)] + []
  {
    assert [Only][1..] == [];
  }

  lemma {:induction false} Begin(v: Value, w: Value) returns (steps: seq<Step>, states: seq<System>)
    ensures Reaches(steps, states, [Propose(v, 0), Propose(w, 1)], [], Up(0, map[]), [])
    ensures states[|states| - 1].hist.tickets == [v, w]
  {
    var s0 := Init(Alone);
    var s1 := Next(Alone, s0, Submit(Only, v));
    steps, states := [Submit(Only, v)], [s0, s1];
    RunExtended(Alone, steps, states, Submit(Only, w), Next(Alone, s1, Submit(Only, w)));
    steps, states := steps + [Submit(Only, w)], states + [Next(Alone, s1, Submit(Only, w))];
  }

  /** Both slots are filled; the acceptor sees slot 1 first. */
  lemma {:induction false} Start(v: Value, w: Value) returns (steps: seq<Step>, states: seq<System>)
    ensures Reaches(steps, states, [], [AcceptRequest(0, 0, v), AcceptResponse(0, 1)],
                    Up(2, map[0 := Instance(0, v, 0, 0), 1 := Instance(0, w, 0, 0)]), [])
    ensures states[|states| - 1].hist.tickets == [v, w]
  {
    var i0, i1 := Instance(0, v, 0, 0), Instance(0, w, 0, 0);
    var p0, p1, m0, m1 := Propose(v, 0), Propose(w, 1), AcceptRequest(0, 0, v), AcceptRequest(0, 1, w);
    ToSelf(m0);
    ToSelf(m1);
    steps, states := Begin(v, w);
    steps, states := Go(steps, states, [p0, p1], [], Up(0, map[]), [], Users, 0, [m0],
                        [p1], [m0], Up(1, map[0 := i0]), []);
    steps, states := Go(steps, states, [p1], [m0], Up(1, map[0 := i0]), [], Users, 0, [m1],
                        [], [m0, m1], Up(2, map[0 := i0, 1 := i1]), []);
    steps, states := Go(steps, states, [], [m0, m1], Up(2, map[0 := i0, 1 := i1]), [], Loop, 1, [AcceptResponse(0, 1)],
                        [], [m0, AcceptResponse(0, 1)], Up(2, map[0 := i0, 1 := i1]), []);
  }

  /** Slot 1 is committed and acknowledged while slot 0's request waits. */
  lemma {:induction false} CommitFirst(v: Value, w: Value) returns (steps: seq<Step>, states: seq<System>)
    ensures Reaches(steps, states, [], [AcceptRequest(0, 0, v), CommitResponse(1)],
                    Up(2, map[0 := Instance(0, v, 0, 0), 1 := Instance(0, w, 1, 0)]), [Commit(1, w, Only)])
    ensures states[|states| - 1].hist.tickets == [v, w]
  {
    var i0, i1, j1 := Instance(0, v, 0, 0), Instance(0, w, 0, 0), Instance(0, w, 1, 0);
    var m0, r1, c1, k1 := AcceptRequest(0, 0, v), AcceptResponse(0, 1), CommitRequest(1, w, Only), CommitResponse(1);
    ToSelf(c1);
    var both, later := Up(2, map[0 := i0, 1 := i1]), Up(2, map[0 := i0, 1 := j1]);
    assert both.instances[1 := j1] == later.instances;
    assert [] + [Commit(1, w, Only)] == [Commit(1, w, Only)];
    steps, states := Start(v, w);
    steps, states := Go(steps, states, [], [m0, r1], both, [], Loop, 1, [c1], [], [m0, c1], later, []);
    steps, states := Go(steps, states, [], [m0, c1], later, [], Loop, 1, [k1], [], [m0, k1], later, [Commit(1, w, Only)]);
  }

  /** The acknowledgement of slot 1 makes the leader forget slot 0. */
  lemma {:induction false} Overtake(v: Value, w: Value) returns (steps: seq<Step>, states: seq<System>)
    ensures Reaches(steps, states, [], [AcceptRequest(0, 0, v)], Up(2, map[1 := Instance(0, w, 1, 0)]), [Commit(1, w, Only)])
    ensures states[|states| - 1].hist.tickets == [v, w]
  {
    var m0, k1, j1, told := AcceptRequest(0, 0, v), CommitResponse(1), Instance(0, w, 1, 0), [Commit(1, w, Only)];
    var later := Up(2, map[0 := Instance(0, v, 0, 0), 1 := j1]);
    assert later.instances - {0} == map[1 := j1];
    assert told + [] == told;
    steps, states := CommitFirst(v, w);
    steps, states := Go(steps, states, [], [m0, k1], later, told, Loop, 1, [], [], [m0], Up(2, map[1 := j1]), told);
  }

  /** Who has been told of one slot where two were given away has not been told of all. */
  lemma {:induction false} NotTold(steps: seq<Step>, states: seq<System>, v: Value, w: Value)
    requires Run(Alone, steps, states) && Quiescent(states[|steps|]) && states[|steps|].hist.tickets == [v, w]
    requires states[|steps|].hist.learned == map[Only := [Commit(1, w, Only)]]
    ensures Forgot(Alone, steps, states, |steps|)
  {
    var h := states[|steps|].hist;
    QuiescentTold(Alone, steps, states, |steps|);
    QuiescentIsCompleteIff(Alone, steps, states, |steps|);
    assert Only in Alone.members.learners;
    assert Tellings(Alone, h, Only, 0) == 0;
    assert !ToldOfAll(Alone, h, Only);
  }

  /** Both proposals were made, nothing is in flight, and only the second was ever committed. */
  lemma {:induction false} SlotZeroLost(v: Value, w: Value) returns (steps: seq<Step>, states: seq<System>)
    ensures Run(Alone, steps, states)
    ensures var last := states[|states| - 1];
            && Quiescent(last)
            && last.hist.tickets == [v, w]
            && last.hist.learned == map[Only := [Commit(1, w, Only)]]
    ensures Forgot(Alone, steps, states, |steps|)
  {
    var l, told := Up(2, map[1 := Instance(0, w, 1, 0)]), [Commit(1, w, Only)];
    assert told + [] == told;
    steps, states := Overtake(v, w);
    steps, states := Go(steps, states, [], [AcceptRequest(0, 0, v)], l, told, Loop, 0, [AcceptResponse(0, 0)],
                        [], [AcceptResponse(0, 0)], l, told);
    steps, states := Go(steps, states, [], [AcceptResponse(0, 0)], l, told, Loop, 0, [], [], [], l, told);
    var last := states[|states| - 1];
    assert forall k :: k in last.net ==> Q(last.net, k) == [];
    NotTold(steps, states, v, w);
  }
}
