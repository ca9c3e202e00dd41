/** What the leader and the acceptor of one machine do with one message. */
module PaxosRoles {
  import opened Topology

  /** The local group orders generators, the global group orders batches. */
  datatype Value = FromGenerator(machine: Machine) | OfBatch(id: BatchId)

  /** A proposal carries the number under which it was submitted, as history only. */
  datatype Message =
    | Propose(value: Value, ticket: nat)
    | AcceptRequest(ballot: nat, slot: nat, value: Value)
    | AcceptResponse(ballot: nat, slot: nat)
    | CommitRequest(slot: nat, value: Value, leader: Machine)
    | CommitResponse(slot: nat)

  datatype Members = Members(acceptors: seq<Machine>, learners: seq<Machine>)
  datatype Send = Send(to: Machine, msg: Message)
  datatype Commit = Commit(slot: nat, value: Value, leader: Machine)
  datatype Instance = Instance(ballot: nat, value: Value, numAccepts: nat, numCommits: nat)

  datatype LeaderState = LeaderState(
    elected: bool, electedLeader: Machine, ballot: nat, nextSlot: nat, instances: map<nat, Instance>)

  /** New state, messages sent, and commits reported to the user of the group. */
  datatype Reaction = Reaction(leader: LeaderState, sends: seq<Send>, commits: seq<Commit>)

  const DEFAULT_LEADER_POSITION := 0

  /** The response to a commit has no accept part, so its slot reads as the default. */
  const DEFAULT_SLOT := 0

  function Position(m: Machine, ms: seq<Machine>): nat
    requires m in ms
    ensures Position(m, ms) < |ms| && ms[Position(m, ms)] == m
    ensures forall i :: 0 <= i < Position(m, ms) ==> ms[i] != m
  {
    if ms[0] == m then 0 else 1 + Position(m, ms[1..])
  }

  function InitialLeader(members: Members, me: Machine): LeaderState
    requires |members.acceptors| > DEFAULT_LEADER_POSITION
  {
    var elected := members.acceptors[DEFAULT_LEADER_POSITION];
    if me in members.acceptors then
      var position := Position(me, members.acceptors);
      LeaderState(position == DEFAULT_LEADER_POSITION, elected, position, 0, map[])
    else LeaderState(false, elected, 0, 0, map[])
  }

  function ToAll(targets: seq<Machine>, msg: Message): seq<Send> {
    if targets == [] then [] else [Send(targets[0], msg)] + ToAll(targets[1..], msg)
  }

  /** The smallest number of acceptors that is more than half of them. */
  function Majority(members: Members): (n: nat)
    ensures 2 * n > |members.acceptors| >= 2 * (n - 1)
  {
    |members.acceptors| / 2 + 1
  }

  function NewInstance(members: Members, l: LeaderState, value: Value): Reaction {
    var instance := Instance(l.ballot, value, 0, 0);
    Reaction(
      l.(instances := if l.nextSlot in l.instances then l.instances else l.instances[l.nextSlot := instance],
         nextSlot := l.nextSlot + 1),
      ToAll(members.acceptors, AcceptRequest(l.ballot, l.nextSlot, value)), [])
  }

  /** The next answer for `slot` completes a majority. */
  predicate Announces(members: Members, l: LeaderState, slot: nat) {
    slot in l.instances && l.instances[slot].numAccepts + 1 == Majority(members)
  }

  function Accepted(members: Members, me: Machine, l: LeaderState, slot: nat): Reaction {
    if slot !in l.instances then Reaction(l, [], [])
    else
      var instance := l.instances[slot].(numAccepts := l.instances[slot].numAccepts + 1);
      Reaction(l.(instances := l.instances[slot := instance]),
               if Announces(members, l, slot)
               then ToAll(members.learners, CommitRequest(slot, instance.value, me)) else [], [])
  }

  /** Whatever slot was committed, the response is counted on the default slot. */
  function CommitAnswered(members: Members, l: LeaderState): Reaction {
    var slot := DEFAULT_SLOT;
    if slot !in l.instances then Reaction(l, [], [])
    else
      var instance := l.instances[slot].(numCommits := l.instances[slot].numCommits + 1);
      Reaction(l.(instances := if instance.numCommits == |members.acceptors|
                               then l.instances - {slot} else l.instances[slot := instance]), [], [])
  }

  function LeaderHandle(members: Members, me: Machine, l: LeaderState, msg: Message): Reaction {
    match msg
    case Propose(value, _) =>
      if l.elected then NewInstance(members, l, value) else Reaction(l, [Send(l.electedLeader, msg)], [])
    case CommitRequest(slot, value, leader) =>
      Reaction(l.(nextSlot := if slot >= l.nextSlot then slot + 1 else l.nextSlot), [],
               [Commit(slot, value, leader)])
    case AcceptResponse(_, slot) => Accepted(members, me, l, slot)
    case CommitResponse(_) => CommitAnswered(members, l)
    case AcceptRequest(_, _, _) => Reaction(l, [], [])
  }

  /** The acceptor's ballot after the message, and its answer. */
  function AcceptorHandle(ballot: nat, from: Machine, msg: Message): (nat, seq<Send>) {
    match msg
    case AcceptRequest(b, slot, _) =>
      if b < ballot then (ballot, []) else (b, [Send(from, AcceptResponse(b, slot))])
    case CommitRequest(slot, _, _) => (ballot, [Send(from, CommitResponse(slot))])
    case _ => (ballot, [])
  }

  /** The acceptor's ballot after some messages. */
  function BallotAfter(ballot: nat, msgs: seq<Message>, from: Machine): nat {
    if msgs == [] then ballot
    else AcceptorHandle(BallotAfter(ballot, msgs[..|msgs| - 1], from), from, msgs[|msgs| - 1]).0
  }

  /** Message `i` is an accept request that the acceptor answers with its acceptance. */
  predicate Accepts(ballot: nat, msgs: seq<Message>, from: Machine, i: nat)
    requires i < |msgs|
  {
    && msgs[i].AcceptRequest?
    && AcceptorHandle(BallotAfter(ballot, msgs[..i], from), from, msgs[i]).1 ==
       [Send(from, AcceptResponse(msgs[i].ballot, msgs[i].slot))]
  }

  /** The ballot is the highest that was asked for, and exactly the requests not below it are accepted. */
  lemma {:induction false} AcceptsHighest(ballot: nat, msgs: seq<Message>, from: Machine, i: nat)
    requires i < |msgs| && msgs[i].AcceptRequest?
    ensures Accepts(ballot, msgs, from, i) <==>
            msgs[i].ballot >= ballot &&
            forall j :: 0 <= j < i && msgs[j].AcceptRequest? ==> msgs[i].ballot >= msgs[j].ballot
  {
    HighestAskedFor(ballot, msgs[..i], from);
  }

  lemma {:induction false} HighestAskedFor(ballot: nat, msgs: seq<Message>, from: Machine)
    ensures var b := BallotAfter(ballot, msgs, from);
            && b >= ballot && (forall j :: 0 <= j < |msgs| && msgs[j].AcceptRequest? ==> b >= msgs[j].ballot)
            && (b == ballot || exists j :: 0 <= j < |msgs| && msgs[j].AcceptRequest? && msgs[j].ballot == b)
  {
    if msgs != [] {
      HighestAskedFor(ballot, msgs[..|msgs| - 1], from);
    }
  }

  /* ---------- The roles as the source holds them ---------- */

  class Acceptor {
    var ballot: nat

    constructor ()
      ensures ballot == 0
    {
      ballot := 0;
    }

    method HandleRequest(msg: Message, from: Machine) returns (sends: seq<Send>)
      modifies this
      ensures (ballot, sends) == AcceptorHandle(old(ballot), from, msg)
    {
      sends := [];
      match msg {
        case AcceptRequest(b, slot, _) =>
          if b < ballot {
            return;
          }
          ballot := b;
          sends := [Send(from, AcceptResponse(ballot, slot))];
        case CommitRequest(slot, _, _) =>
          sends := [Send(from, CommitResponse(slot))];
        case _ =>
      }
    }
  }

  class Leader {
    const members: Members
    const me: Machine
    var elected: bool
    var electedLeader: Machine
    var ballot: nat
    var nextSlot: nat
    var instances: map<nat, Instance>

    ghost function View(): LeaderState
      reads this
    {
      LeaderState(elected, electedLeader, ballot, nextSlot, instances)
    }

    constructor (members: Members, me: Machine)
      requires |members.acceptors| > 0
      ensures this.members == members && this.me == me
      ensures View() == InitialLeader(members, me)
      ensures electedLeader == members.acceptors[0] && (elected <==> me == members.acceptors[0])
      ensures me in members.acceptors ==>
                ballot < |members.acceptors| && members.acceptors[ballot] == me && me !in members.acceptors[..ballot]
    {
      this.members, this.me := members, me;
      nextSlot, instances := 0, map[];
      electedLeader := members.acceptors[DEFAULT_LEADER_POSITION];
      elected, ballot := false, 0;
      var i := 0;
      while i < |members.acceptors| && members.acceptors[i] != me
        invariant 0 <= i <= |members.acceptors|
        invariant forall j :: 0 <= j < i ==> members.acceptors[j] != me
      {
        i := i + 1;
      }
      if i < |members.acceptors| {
        elected, ballot := i == DEFAULT_LEADER_POSITION, i;
      }
    }

    method Handle(msg: Message) returns (sends: seq<Send>, commits: seq<Commit>)
      modifies this
      ensures Reaction(View(), sends, commits) == LeaderHandle(members, me, old(View()), msg)
    {
      sends, commits := [], [];
      match msg {
        case Propose(value, _) =>
          if elected {
            sends := StartNewInstance(value);
          } else {
            sends := [Send(electedLeader, msg)];
          }
        case CommitRequest(slot, value, leader) =>
          commits := [Commit(slot, value, leader)];
          if slot >= nextSlot {
            nextSlot := slot + 1;
          }
        case AcceptResponse(_, slot) =>
          if slot in instances {
            var instance := instances[slot];
            instance := instance.(numAccepts := instance.numAccepts + 1);
            instances := instances[slot := instance];
            if instance.numAccepts == |members.acceptors| / 2 + 1 {
              sends := ToAll(members.learners, CommitRequest(slot, instance.value, me));
            }
          }
        case CommitResponse(_) =>
          if DEFAULT_SLOT in instances {
            var instance := instances[DEFAULT_SLOT];
            instance := instance.(numCommits := instance.numCommits + 1);
            if instance.numCommits == |members.acceptors| {
              instances := instances - {DEFAULT_SLOT};
            } else {
              instances := instances[DEFAULT_SLOT := instance];
            }
          }
        case AcceptRequest(_, _, _) =>
      }
    }

    method StartNewInstance(value: Value) returns (sends: seq<Send>)
      modifies this
      ensures Reaction(View(), sends, []) == NewInstance(members, old(View()), value)
    {
      if nextSlot !in instances {
        instances := instances[nextSlot := Instance(ballot, value, 0, 0)];
      }
      sends := ToAll(members.acceptors, AcceptRequest(ballot, nextSlot, value));
      nextSlot := nextSlot + 1;
    }
  }
}
