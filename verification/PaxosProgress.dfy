/**
  What first-in-first-out links add: slot 0 is never forgotten too early.

  Acceptors then answer the slots in order, so that slot 0 is announced before any commit response
  can count against it.
*/
module PaxosProgress {
  import opened Topology
  import opened PaxosRoles
  import opened PaxosSystem
  import opened PaxosQueues
  import opened PaxosSafety
  import opened PaxosRest
  import opened Counting

  /** The slot an accept request, or an accept response, is about. */
  function SlotIn(x: Message, request: bool): seq<nat> {
    match x
    case AcceptRequest(_, slot, _) => if request then [slot] else []
    case AcceptResponse(_, slot) => if request then [] else [slot]
    case _ => []
  }

  function Slots(q: seq<Message>, request: bool): seq<nat> {
    if q == [] then [] else SlotIn(q[0], request) + Slots(q[1..], request)
  }

  lemma {:induction false} SlotsAppend(q: seq<Message>, x: Message, request: bool)
    ensures Slots(q + [x], request) == Slots(q, request) + SlotIn(x, request)
  {
    if q == [] {
      assert q + [x] == [x];
    } else {
      SlotsAppend(q[1..], x, request);
      assert (q + [x])[1..] == q[1..] + [x];
      assert (q + [x])[0] == q[0];
    }
  }

  /** The slots on their way to and from one acceptor, oldest last: answered, returning, going out. */
  datatype Pipe = Pipe(requests: seq<nat>, responses: seq<nat>)

  function PipeOf(c: Config, net: Network, a: Machine): Pipe
    requires |c.members.acceptors| > 0
  {
    Pipe(Slots(Q(net, Link(Peer(LeaderOf(c)), a)), true), Slots(Q(net, Link(Peer(a), LeaderOf(c))), false))
  }

  predicate Consecutive(s: seq<nat>, from: int) {
    forall i :: 0 <= i < |s| ==> s[i] == from + i
  }

  /** Acceptor `a` has answered the first slots, is answering the next ones, and has yet to see the rest. */
  ghost predicate Ordered(p: Pipe, h: History, a: Machine) {
    && |p.requests| + |p.responses| <= |h.chosen|
    && Consecutive(p.requests, |h.chosen| - |p.requests|)
    && Consecutive(p.responses, |h.chosen| - |p.requests| - |p.responses|)
    && forall k :: 0 <= k < |h.chosen| ==>
         ((k, a) in h.answered <==> k < |h.chosen| - |p.requests| - |p.responses|)
  }

  ghost predicate AllOrdered(c: Config, net: Network, h: History)
    requires |c.members.acceptors| > 0
  {
    forall a :: a in c.members.acceptors ==> Ordered(PipeOf(c, net, a), h, a)
  }

  ghost predicate Live(c: Config, s: System) {
    && Safe(c, s)
    && AllOrdered(c, s.net, s.hist)
    && !Lost(c, s)
  }

  /* ---------- What a head delivery does to a pipe ---------- */

  lemma {:induction false} HeadDelivery(net: Network, link: Link, targets: seq<Machine>, out: Message, l: Link)
    requires Q(net, link) != [] && Distinct(targets)
    ensures Q(Post(net[link := Remove(Q(net, link), 0)], link.dst, ToAll(targets, out)), l) ==
            (if l == link then Q(net, l)[1..] else Q(net, l))
            + (if l.src == Peer(link.dst) && l.dst in targets then [out] else [])
  {
    var net1 := net[link := Remove(Q(net, link), 0)];
    PostQueue(net1, link.dst, ToAll(targets, out), l);
    MailToAll(targets, out, l.dst);
    assert Remove(Q(net, link), 0) == Q(net, link)[1..];
  }

  /** Something is taken off the front and something is put at the back. */
  lemma {:induction false} HeadSlots(net: Network, net': Network, link: Link, targets: seq<Machine>, out: Message,
                                     l: Link, request: bool)
    returns (rest: seq<nat>)
    requires Q(net, link) != [] && Distinct(targets)
    requires net' == Post(net[link := Remove(Q(net, link), 0)], link.dst, ToAll(targets, out))
    ensures Slots(Q(net, l), request) == (if l == link then SlotIn(Q(net, link)[0], request) else []) + rest
    ensures Slots(Q(net', l), request) ==
            rest + (if l.src == Peer(link.dst) && l.dst in targets then SlotIn(out, request) else [])
  {
    HeadDelivery(net, link, targets, out, l);
    var q0 := if l == link then Q(net, l)[1..] else Q(net, l);
    rest := Slots(q0, request);
    if l.src == Peer(link.dst) && l.dst in targets {
      SlotsAppend(q0, out, request);
    } else {
      assert q0 + [] == q0;
    }
  }

  lemma {:induction false} StartOrdered(p: Pipe, p': Pipe, h: History, h': History, a: Machine)
    requires Ordered(p, h, a) && forall k :: (k, a) in h.answered ==> k < |h.chosen|
    requires p'.requests == p.requests + [|h.chosen|] && p'.responses == p.responses
    requires |h'.chosen| == |h.chosen| + 1 && h'.answered == h.answered
    ensures Ordered(p', h', a)
  {
  }

  lemma {:induction false} RequestTaken(p: Pipe, p': Pipe, h: History, a: Machine, slot: nat, rest: seq<nat>)
    requires Ordered(p, h, a)
    requires p.requests == [slot] + rest && p' == Pipe(rest, p.responses + [slot])
    ensures Ordered(p', h, a)
  {
    assert p.requests[0] == slot;
    forall i | 0 <= i < |rest| ensures rest[i] == |h.chosen| - |rest| + i {
      assert rest[i] == p.requests[i + 1];
    }
  }

  lemma {:induction false} ResponseTaken(p: Pipe, p': Pipe, h: History, h': History, a: Machine, slot: nat,
                                         rest: seq<nat>)
    requires Ordered(p, h, a)
    requires p.responses == [slot] + rest && p' == Pipe(p.requests, rest)
    requires h'.chosen == h.chosen && h'.answered == h.answered + {(slot, a)}
    ensures Ordered(p', h', a)
  {
    assert p.responses[0] == slot;
    forall i | 0 <= i < |rest| ensures rest[i] == p.responses[i + 1] {
    }
  }

  lemma {:induction false} SameOrdered(p: Pipe, p': Pipe, h: History, h': History, a: Machine)
    requires Ordered(p, h, a) && p' == p && |h'.chosen| == |h.chosen|
    requires forall k :: (k, a) in h'.answered <==> (k, a) in h.answered
    ensures Ordered(p', h', a)
  {
  }

  lemma {:induction false} NothingAdded(xs: seq<nat>)
    ensures [] + xs == xs == xs + []
  {
  }

  lemma {:induction false} PipeOrdered(c: Config, h: History, h': History, node: Node, link: Link, msg: Message,
                                       targets: seq<Machine>, out: Message, a: Machine, p: Pipe, p': Pipe,
                                       reqs: seq<nat>, resps: seq<nat>)
    requires ValidConfig(c) && ChosenInRange(h) && a in c.members.acceptors && Ordered(p, h, a)
    requires forall k :: (k, a) in h.answered ==> k < |h.chosen|
    requires MessageOk(c, h, link, msg) && Effective(c, node, link, msg, targets, out)
    requires node.leader.elected <==> link.dst == LeaderOf(c)
    requires node.leader.elected ==> node.leader.nextSlot == |h.chosen|
    requires h' == Recorded(c, h, node, link, msg)
    requires p.requests == (if link == Link(Peer(LeaderOf(c)), a) then SlotIn(msg, true) else []) + reqs
    requires p'.requests == reqs + (if link.dst == LeaderOf(c) && a in targets then SlotIn(out, true) else [])
    requires p.responses == (if link == Link(Peer(a), LeaderOf(c)) then SlotIn(msg, false) else []) + resps
    requires p'.responses == resps + (if link.dst == a && LeaderOf(c) in targets then SlotIn(out, false) else [])
    ensures Ordered(p', h', a)
  {
    NothingAdded(reqs);
    NothingAdded(resps);
    match msg {
      case Propose(_, t) =>
        if link.dst == LeaderOf(c) {
          StartOrdered(p, p', h, h', a);
        } else {
          SameOrdered(p, p', h, h', a);
        }
      case AcceptRequest(_, slot, _) =>
        if link.dst == a {
          RequestTaken(p, p', h, a, slot, reqs);
        } else {
          SameOrdered(p, p', h, h', a);
        }
      case AcceptResponse(_, slot) =>
        if link.src == Peer(a) {
          ResponseTaken(p, p', h, h', a, slot, resps);
        } else {
          SameOrdered(p, p', h, h', a);
        }
      case _ =>
        SameOrdered(p, p', h, h', a);
    }
  }

  lemma {:induction false} DeliverOrdered(c: Config, s: System, link: Link)
    requires Safe(c, s) && AllOrdered(c, s.net, s.hist) && Q(s.net, link) != [] && link.dst in s.nodes
    ensures var s' := Delivered(c, s, link, 0); AllOrdered(c, s'.net, s'.hist)
  {
    var msg, s', node := Q(s.net, link)[0], Delivered(c, s, link, 0), s.nodes[link.dst];
    var targets, out := DeliveryParts(c, s, link, 0);
    forall a | a in c.members.acceptors ensures Ordered(PipeOf(c, s'.net, a), s'.hist, a) {
      var reqs := HeadSlots(s.net, s'.net, link, targets, out, Link(Peer(LeaderOf(c)), a), true);
      var resps := HeadSlots(s.net, s'.net, link, targets, out, Link(Peer(a), LeaderOf(c)), false);
      PipeOrdered(c, s.hist, s'.hist, node, link, msg, targets, out, a,
                  PipeOf(c, s.net, a), PipeOf(c, s'.net, a), reqs, resps);
    }
  }

  /* ---------- Slot 0 ---------- */

  /** An acceptor that answered a slot answered every earlier one. */
  lemma {:induction false} EarlierAnswered(c: Config, net: Network, h: History, k: nat, k': nat)
    requires ValidConfig(c) && AllOrdered(c, net, h) && k' <= k < |h.chosen|
    requires forall p :: p in h.answered ==> p.1 in c.members.acceptors
    ensures Answerers(h.answered, k) <= Answerers(h.answered, k')
  {
    forall a | a in Answerers(h.answered, k) ensures (k', a) in h.answered {
      assert (k, a) in h.answered && Ordered(PipeOf(c, net, a), h, a);
    }
  }

  lemma {:induction false} AnnouncedSlotZero(c: Config, s: System, k: nat)
    requires Live(c, s) && k in s.hist.announced
    ensures 0 in s.hist.announced
  {
    EarlierAnswered(c, s.net, s.hist, k, 0);
    SubsetSize(Answerers(s.hist.answered, k), Answerers(s.hist.answered, 0));
  }

  /** A commit response comes only after slot 0 was announced. */
  lemma {:induction false} NeverForgets(c: Config, s: System, step: Step)
    requires Live(c, s) && Enabled(c, s, step) && (step.Deliver? ==> step.index == 0)
    ensures !Forgets(c, s, step)
  {
    if step.Deliver? {
      var link, msg := step.link, Q(s.net, step.link)[0];
      var _, _ := DeliveryParts(c, s, link, 0);
      if msg.CommitResponse? {
        AnnouncedSlotZero(c, s, msg.slot);
      }
    }
  }

  lemma {:induction false} SubmitOrdered(c: Config, s: System, at: Machine, value: Value)
    requires ValidConfig(c) && AllOrdered(c, s.net, s.hist)
    ensures AllOrdered(c, Submitted(s, at, value).net, Submitted(s, at, value).hist)
  {
    var s' := Submitted(s, at, value);
    forall a | a in c.members.acceptors ensures Ordered(PipeOf(c, s'.net, a), s'.hist, a) {
      assert PipeOf(c, s'.net, a) == PipeOf(c, s.net, a);
      assert Ordered(PipeOf(c, s.net, a), s.hist, a);
    }
  }

  lemma {:induction false} StepLive(c: Config, s: System, step: Step)
    requires Live(c, s) && Enabled(c, s, step) && (step.Deliver? ==> step.index == 0)
    ensures Live(c, Next(c, s, step))
  {
    StepSafe(c, s, step);
    NeverForgets(c, s, step);
    LostStep(c, s, step);
    match step {
      case Submit(at, value) =>
        SubmitOrdered(c, s, at, value);
      case Deliver(link, _) =>
        DeliverOrdered(c, s, link);
    }
  }

  ghost function LiveAt(c: Config, states: seq<System>): (bs: seq<bool>)
    ensures |bs| == |states| && forall k :: 0 <= k < |states| ==> bs[k] == Live(c, states[k])
  {
    seq(|states|, k requires 0 <= k < |states| => Live(c, states[k]))
  }

  lemma {:induction false} LiveStart(c: Config)
    requires ValidConfig(c)
    ensures Live(c, Init(c))
  {
    InitInv(c);
  }

  lemma {:induction false} RunLive(c: Config, steps: seq<Step>, states: seq<System>, i: nat)
    requires Run(c, steps, states) && InOrder(steps) && i < |states|
    ensures Live(c, states[i])
  {
    var bs := LiveAt(c, states);
    LiveStart(c);
    forall k | 0 <= k < |bs| - 1 && bs[k] ensures bs[k + 1] {
      StepLive(c, states[k], steps[k]);
    }
    HoldsThroughout(bs, i);
  }

  /* ---------- Quiescence ---------- */

  lemma {:induction false} InOrderNeverForgot(c: Config, steps: seq<Step>, states: seq<System>, i: nat)
    requires Run(c, steps, states) && InOrder(steps) && i < |states|
    ensures !Forgot(c, steps, states, i)
  {
    forall j | 0 <= j < i ensures !Forgets(c, states[j], steps[j]) {
      RunLive(c, steps, states, j);
      NeverForgets(c, states[j], steps[j]);
    }
  }

  /**
    On ordered links, once nothing is in flight: every proposal ever submitted sits in exactly one
    slot, the slots are 0 .. n-1 with no gap, and every learner has been told of each slot exactly
    once and of nothing else.
  */
  lemma {:induction false} QuiescentIsComplete(c: Config, steps: seq<Step>, states: seq<System>, i: nat)
    requires Run(c, steps, states) && InOrder(steps) && i < |states| && Quiescent(states[i])
    ensures AllPlaced(states[i].hist)
    ensures forall x :: x in c.members.learners ==> ToldOfAll(c, states[i].hist, x)
  {
    QuiescentTold(c, steps, states, i);
    InOrderNeverForgot(c, steps, states, i);
    if c.members.learners != [] {
      QuiescentIsCompleteIff(c, steps, states, i);
    }
  }
}
