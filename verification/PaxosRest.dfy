/**
  What has become of every proposal once nothing is in flight, whatever the order of deliveries.

  The source counts every commit response on slot 0 and forgets slot 0's instance when the count
  reaches the number of acceptors.  `Forgets` is the guard under which that does harm: slot 0 has
  not been announced yet, and from then on never will be.  Nothing else is ever lost.
*/
module PaxosRest {
  import opened Topology
  import opened Counting
  import opened PaxosRoles
  import opened PaxosSystem
  import opened PaxosQueues
  import opened PaxosSafety

  /* ---------- States reached in any order of deliveries ---------- */

  ghost predicate Reached(c: Config, s: System) {
    exists steps, states :: Run(c, steps, states) && states[|steps|] == s
  }

  lemma {:induction false} ReachedStart(c: Config)
    requires ValidConfig(c)
    ensures Reached(c, Init(c))
  {
    var steps: seq<Step>, states := [], [Init(c)];
    assert Run(c, steps, states) && states[|steps|] == Init(c);
  }

  lemma {:induction false} RunExtended(c: Config, steps: seq<Step>, states: seq<System>, step: Step, s': System)
    requires Run(c, steps, states)
    requires Enabled(c, states[|steps|], step) && s' == Next(c, states[|steps|], step)
    ensures Run(c, steps + [step], states + [s'])
  {
    var steps', states' := steps + [step], states + [s'];
    forall k | 0 <= k < |steps'|
      ensures Enabled(c, states'[k], steps'[k]) && states'[k + 1] == Next(c, states'[k], steps'[k])
    {
      assert states'[k] == states[k];
      assert k < |steps| ==> steps'[k] == steps[k] && states'[k + 1] == states[k + 1];
    }
  }

  lemma {:induction false} ReachedNext(c: Config, s: System, step: Step)
    requires Reached(c, s) && Enabled(c, s, step)
    ensures Reached(c, Next(c, s, step))
  {
    var steps, states :| Run(c, steps, states) && states[|steps|] == s;
    var s' := Next(c, s, step);
    RunExtended(c, steps, states, step, s');
    assert (states + [s'])[|steps + [step]|] == s';
  }

  lemma {:induction false} ReachedIsSafe(c: Config, s: System)
    requires Reached(c, s)
    ensures Safe(c, s)
  {
    var steps, states :| Run(c, steps, states) && states[|steps|] == s;
    RunSafe(c, steps, states, |steps|);
  }

  /* ---------- Forgetting slot 0 ---------- */

  /** Counting `msg` erases slot 0's instance before a majority has answered for slot 0. */
  predicate Erases(members: Members, instances: map<nat, Instance>, msg: Message) {
    && msg.CommitResponse? && DEFAULT_SLOT in instances
    && instances[DEFAULT_SLOT].numCommits + 1 == |members.acceptors|
    && 2 * instances[DEFAULT_SLOT].numAccepts <= |members.acceptors|
  }

  /** The step makes the leader forget slot 0 too early. */
  predicate Forgets(c: Config, s: System, step: Step)
    requires |c.members.acceptors| > 0 && Enabled(c, s, step)
  {
    && step.Deliver? && step.link.dst == LeaderOf(c)
    && Erases(c.members, s.nodes[step.link.dst].leader.instances, Q(s.net, step.link)[step.index])
  }

  /** Slot 0 was given away, is not announced, and its instance is gone. */
  predicate Missing(instances: map<nat, Instance>, h: History) {
    |h.chosen| > 0 && DEFAULT_SLOT !in h.announced && DEFAULT_SLOT !in instances
  }

  predicate Lost(c: Config, s: System)
    requires |c.members.acceptors| > 0
  {
    LeaderOf(c) in s.nodes && Missing(s.nodes[LeaderOf(c)].leader.instances, s.hist)
  }

  /** The step is the leader taking the response to a commit. */
  predicate TakesCommit(c: Config, s: System, step: Step)
    requires |c.members.acceptors| > 0 && Enabled(c, s, step)
  {
    step.Deliver? && step.link.dst == LeaderOf(c) && Q(s.net, step.link)[step.index].CommitResponse?
  }

  /** How many such responses, whatever their slots, the leader takes in the first `n` steps. */
  ghost function CommitsTaken(c: Config, steps: seq<Step>, states: seq<System>, n: nat): nat
    requires Run(c, steps, states) && n < |states|
  {
    if n == 0 then 0
    else CommitsTaken(c, steps, states, n - 1) + if TakesCommit(c, states[n - 1], steps[n - 1]) then 1 else 0
  }

  /** Slot 0's instance after `n` responses. */
  ghost predicate HeldAfter(members: Members, instances: map<nat, Instance>, h: History, n: nat) {
    && (h.chosen == [] ==> n == 0)
    && (DEFAULT_SLOT in instances <==> h.chosen != [] && n < |members.acceptors|)
    && (DEFAULT_SLOT in instances ==> instances[DEFAULT_SLOT].numCommits == n)
  }

  lemma {:induction false} HeldLeader(c: Config, node: Node, h: History, link: Link, msg: Message, n: nat)
    requires |c.members.acceptors| > 0 && node.leader.elected && node.leader.nextSlot == |h.chosen|
    requires HeldAfter(c.members, node.leader.instances, h, n)
    requires (msg.Propose? ==> msg.ticket < |h.places|) && (msg.CommitResponse? ==> h.chosen != [])
    ensures HeldAfter(c.members, After(c, node, link, msg).leader.instances, Recorded(c, h, node, link, msg),
                      n + if msg.CommitResponse? then 1 else 0)
  {
  }

  lemma {:induction false} HeldElsewhere(c: Config, node: Node, instances: map<nat, Instance>, h: History,
                                         link: Link, msg: Message, n: nat)
    requires !node.leader.elected && HeldAfter(c.members, instances, h, n)
    ensures HeldAfter(c.members, instances, Recorded(c, h, node, link, msg), n)
  {
  }

  ghost predicate Held(c: Config, s: System, n: nat) {
    && |c.members.acceptors| > 0 && LeaderOf(c) in s.nodes
    && HeldAfter(c.members, s.nodes[LeaderOf(c)].leader.instances, s.hist, n)
  }

  lemma {:induction false} HeldStep(c: Config, s: System, step: Step, n: nat)
    requires Safe(c, s) && Enabled(c, s, step) && Held(c, s, n)
    ensures Held(c, Next(c, s, step), n + if TakesCommit(c, s, step) then 1 else 0)
  {
    if step.Deliver? {
      var link, msg, node := step.link, Q(s.net, step.link)[step.index], s.nodes[step.link.dst];
      var _, _ := DeliveryParts(c, s, link, step.index);
      if link.dst == LeaderOf(c) {
        HeldLeader(c, node, s.hist, link, msg, n);
      } else {
        HeldElsewhere(c, node, s.nodes[LeaderOf(c)].leader.instances, s.hist, link, msg, n);
      }
    }
  }

  lemma {:induction false} HeldStart(c: Config)
    requires ValidConfig(c)
    ensures Held(c, Init(c), 0)
  {
    assert LeaderOf(c) in c.machines;
  }

  lemma {:induction false} RunStepHeld(c: Config, steps: seq<Step>, states: seq<System>, k: nat, n: nat)
    requires Run(c, steps, states) && k < |steps| && Held(c, states[k], n)
    ensures Held(c, states[k + 1], n + if TakesCommit(c, states[k], steps[k]) then 1 else 0)
  {
    RunSafe(c, steps, states, k);
    HeldStep(c, states[k], steps[k], n);
  }

  /**
    The leader holds slot 0's instance from the first proposal until it has taken as many commit
    responses, of any slots, as there are acceptors.
  */
  lemma {:induction false} SlotZeroHeldIff(c: Config, steps: seq<Step>, states: seq<System>, i: nat)
    requires Run(c, steps, states) && i < |states|
    ensures LeaderOf(c) in states[i].nodes
    ensures DEFAULT_SLOT in states[i].nodes[LeaderOf(c)].leader.instances <==>
            states[i].hist.chosen != [] && CommitsTaken(c, steps, states, i) < |c.members.acceptors|
  {
    HeldStart(c);
    for k := 0 to i
      invariant Held(c, states[k], CommitsTaken(c, steps, states, k))
    {
      RunStepHeld(c, steps, states, k, CommitsTaken(c, steps, states, k));
    }
  }

  /** What a message does to slot 0 at the leader. */
  lemma {:induction false} MissingAfter(c: Config, node: Node, h: History, link: Link, msg: Message)
    requires node.leader.elected && node.leader.nextSlot == |h.chosen|
    requires AnnouncedOk(c, node.leader.instances, h) && InstancesOk(node.leader.instances, h)
    requires msg.Propose? ==> msg.ticket < |h.places|
    ensures Missing(After(c, node, link, msg).leader.instances, Recorded(c, h, node, link, msg)) <==>
            Missing(node.leader.instances, h) || Erases(c.members, node.leader.instances, msg)
  {
  }

  /** Elsewhere, slot 0 is not touched. */
  lemma {:induction false} MissingElsewhere(c: Config, node: Node, instances: map<nat, Instance>, h: History,
                                            link: Link, msg: Message)
    requires !node.leader.elected && !msg.AcceptResponse?
    ensures Missing(instances, Recorded(c, h, node, link, msg)) <==> Missing(instances, h)
  {
  }

  lemma {:induction false} LostDeliver(c: Config, s: System, link: Link, i: nat)
    requires Safe(c, s) && i < |Q(s.net, link)| && link.dst in s.nodes
    ensures Lost(c, Delivered(c, s, link, i)) <==> Lost(c, s) || Forgets(c, s, Deliver(link, i))
  {
    var msg, node := Q(s.net, link)[i], s.nodes[link.dst];
    var _, _ := DeliveryParts(c, s, link, i);
    if link.dst == LeaderOf(c) {
      MissingAfter(c, node, s.hist, link, msg);
    } else {
      MissingElsewhere(c, node, s.nodes[LeaderOf(c)].leader.instances, s.hist, link, msg);
    }
  }

  /** Slot 0 is lost by exactly the steps that forget it, and for ever. */
  lemma {:induction false} LostStep(c: Config, s: System, step: Step)
    requires Safe(c, s) && Enabled(c, s, step)
    ensures Lost(c, Next(c, s, step)) <==> Lost(c, s) || Forgets(c, s, step)
  {
    if step.Deliver? {
      LostDeliver(c, s, step.link, step.index);
    }
  }

  /** One of the first `i` steps of the run forgets slot 0. */
  ghost predicate Forgot(c: Config, steps: seq<Step>, states: seq<System>, i: nat)
    requires Run(c, steps, states) && i < |states|
  {
    exists j :: 0 <= j < i && Forgets(c, states[j], steps[j])
  }

  lemma {:induction false} RunLost(c: Config, steps: seq<Step>, states: seq<System>, k: nat)
    requires Run(c, steps, states) && k < |steps|
    ensures Lost(c, states[k + 1]) <==> Lost(c, states[k]) || Forgets(c, states[k], steps[k])
  {
    RunSafe(c, steps, states, k);
    LostStep(c, states[k], steps[k]);
  }

  function Losses(c: Config, states: seq<System>): (bs: seq<bool>)
    requires |c.members.acceptors| > 0
    ensures |bs| == |states| && forall k :: 0 <= k < |states| ==> bs[k] == Lost(c, states[k])
  {
    seq(|states|, k requires 0 <= k < |states| => Lost(c, states[k]))
  }

  ghost function Forgettings(c: Config, steps: seq<Step>, states: seq<System>): (bs: seq<bool>)
    requires Run(c, steps, states)
    ensures |bs| == |steps| && forall k :: 0 <= k < |steps| ==> bs[k] == Forgets(c, states[k], steps[k])
  {
    seq(|steps|, k requires 0 <= k < |steps| => Forgets(c, states[k], steps[k]))
  }

  lemma {:induction false} LostIsForgotten(c: Config, steps: seq<Step>, states: seq<System>, i: nat)
    requires Run(c, steps, states) && i < |states|
    ensures Lost(c, states[i]) <==> Forgot(c, steps, states, i)
  {
    var lost, forgets := Losses(c, states), Forgettings(c, steps, states);
    forall k | 0 <= k < |steps| ensures lost[k + 1] <==> lost[k] || forgets[k] {
      RunLost(c, steps, states, k);
    }
    TurnedOn(lost, forgets, i);
  }

  /* ---------- At rest ---------- */

  /** Every proposal is in exactly one slot and there is no empty slot. */
  ghost predicate AllPlaced(h: History) {
    && |h.chosen| == |h.tickets| && Distinct(h.chosen) && ChosenInRange(h)
    && forall t: nat :: t < |h.tickets| ==> t in h.chosen
  }

  /** How often machine `x` has been told of slot `k`. */
  ghost function Tellings(c: Config, h: History, x: Machine, k: nat): nat
    requires ValidConfig(c) && ChosenInRange(h) && x in h.learned && k < |h.chosen|
  {
    multiset(h.learned[x])[Commit(k, Bound(h, k), LeaderOf(c))]
  }

  /** Machine `x` has been told of each slot exactly once, and of nothing else. */
  ghost predicate ToldOfAll(c: Config, h: History, x: Machine)
    requires ValidConfig(c)
  {
    && ChosenInRange(h) && x in h.learned
    && (forall k :: 0 <= k < |h.chosen| ==> Tellings(c, h, x, k) == 1)
    && (forall i :: 0 <= i < |h.learned[x]| ==> h.learned[x][i].slot < |h.chosen|)
  }

  lemma {:induction false} PlacedInSlots(b: Bag, h: History)
    requires PlacesOk(b, h) && forall l, x :: b(l, x) == 0
    ensures AllPlaced(h)
  {
    forall t: nat | t < |h.tickets| ensures t in h.chosen {
      assert h.places[t].InSlot?;
      assert h.chosen[h.places[t].slot] == t;
    }
    forall i, j | 0 <= i < j < |h.chosen| ensures h.chosen[i] != h.chosen[j] {
      assert h.places[h.chosen[i]] == InSlot(i) && h.places[h.chosen[j]] == InSlot(j);
    }
    OntoSize(h.chosen, |h.tickets|);
  }

  lemma {:induction false} QuiescentEmpty(s: System)
    requires Quiescent(s)
    ensures forall link :: Q(s.net, link) == []
    ensures forall l, x :: BagOf(s.net)(l, x) == 0
  {
  }

  /** With no request or response in flight every acceptor's answer is in. */
  lemma {:induction false} AllAnswered(c: Config, b: Bag, h: History, k: nat)
    requires ValidConfig(c) && AcceptTokens(c, b, h) && k < |h.chosen| && forall l, x :: b(l, x) == 0
    ensures |Answerers(h.answered, k)| >= Majority(c.members)
  {
    forall a | a in c.members.acceptors ensures a in Answerers(h.answered, k) {
      assert (k, a) in h.answered;
    }
    DistinctSize(c.members.acceptors);
    SubsetSize(Elements(c.members.acceptors), Answerers(h.answered, k));
  }

  lemma {:induction false} AnnouncedUnlessMissing(c: Config, instances: map<nat, Instance>, h: History, k: nat)
    requires InstancesOk(instances, h) && AnnouncedOk(c, instances, h)
    requires k < |h.chosen| && |Answerers(h.answered, k)| >= Majority(c.members)
    ensures k in h.announced <==> k > 0 || !Missing(instances, h)
  {
  }

  lemma {:induction false} RestAnnounced(c: Config, s: System, k: nat)
    requires Safe(c, s) && Quiescent(s) && k < |s.hist.chosen|
    ensures k in s.hist.announced <==> k > 0 || !Lost(c, s)
  {
    QuiescentEmpty(s);
    AllAnswered(c, BagOf(s.net), s.hist, k);
    AnnouncedUnlessMissing(c, s.nodes[LeaderOf(c)].leader.instances, s.hist, k);
  }

  lemma {:induction false} RestTellings(c: Config, s: System, x: Machine, k: nat)
    requires Safe(c, s) && Quiescent(s) && x in c.members.learners && k < |s.hist.chosen|
    ensures x in s.hist.learned
    ensures Tellings(c, s.hist, x, k) == if k > 0 || !Lost(c, s) then 1 else 0
  {
    QuiescentEmpty(s);
    RestAnnounced(c, s, k);
  }

  lemma {:induction false} ToldIff(c: Config, h: History, x: Machine, missing: bool)
    requires ValidConfig(c) && ChosenInRange(h) && x in h.learned && LearnedOk(c, h, x, h.learned[x])
    requires missing ==> |h.chosen| > 0
    requires forall k :: 0 <= k < |h.chosen| ==> Tellings(c, h, x, k) == if k > 0 || !missing then 1 else 0
    ensures ToldOfAll(c, h, x) <==> !missing
  {
    assert missing ==> Tellings(c, h, x, 0) == 0;
  }

  lemma {:induction false} RestToldOfAll(c: Config, s: System, x: Machine)
    requires Safe(c, s) && Quiescent(s) && x in c.members.learners
    ensures ToldOfAll(c, s.hist, x) <==> !Lost(c, s)
  {
    assert LearnedOk(c, s.hist, x, s.hist.learned[x]);
    forall k | 0 <= k < |s.hist.chosen|
      ensures Tellings(c, s.hist, x, k) == if k > 0 || !Lost(c, s) then 1 else 0
    {
      RestTellings(c, s, x, k);
    }
    ToldIff(c, s.hist, x, Lost(c, s));
  }

  /**
    Whatever the order of deliveries, once nothing is in flight: every proposal ever submitted sits
    in exactly one slot, the slots are 0 .. n-1 with no gap, and every learner has been told
    exactly once of every slot but possibly slot 0, of which all of them have been told if its
    commit was ever broadcast and none of them otherwise.
  */
  lemma {:induction false} QuiescentTold(c: Config, steps: seq<Step>, states: seq<System>, i: nat)
    requires Run(c, steps, states) && i < |states| && Quiescent(states[i])
    ensures var h := states[i].hist;
            && AllPlaced(h)
            && forall x, k: nat :: x in c.members.learners && k < |h.chosen| ==>
                 && x in h.learned
                 && Tellings(c, h, x, k) == if k > 0 || 0 in h.announced then 1 else 0
  {
    var s := states[i];
    RunSafe(c, steps, states, i);
    QuiescentEmpty(s);
    PlacedInSlots(BagOf(s.net), s.hist);
    forall x, k: nat | x in c.members.learners && k < |s.hist.chosen|
      ensures x in s.hist.learned
      ensures Tellings(c, s.hist, x, k) == if k > 0 || 0 in s.hist.announced then 1 else 0
    {
      RestTellings(c, s, x, k);
      RestAnnounced(c, s, k);
    }
  }

  /**
    Every learner has in the end been told of every slot if and only if no step of the run erased
    slot 0's instance before a majority had answered for slot 0.
  */
  lemma {:induction false} QuiescentIsCompleteIff(c: Config, steps: seq<Step>, states: seq<System>, i: nat)
    requires Run(c, steps, states) && i < |states| && Quiescent(states[i]) && c.members.learners != []
    ensures (forall x :: x in c.members.learners ==> ToldOfAll(c, states[i].hist, x)) <==> !Forgot(c, steps, states, i)
  {
    RunSafe(c, steps, states, i);
    LostIsForgotten(c, steps, states, i);
    forall x | x in c.members.learners
      ensures ToldOfAll(c, states[i].hist, x) <==> !Lost(c, states[i])
    {
      RestToldOfAll(c, states[i], x);
    }
    assert c.members.learners[0] in c.members.learners;
  }
}
