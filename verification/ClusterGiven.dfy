/**
  What a run is given: the contents that its generators finish, step by step, and where they end up.
*/
module ClusterGiven {
  import opened Topology
  import opened Deployments
  import opened RegionOrders
  import opened Clusters
  import opened ClusterInvariant
  import opened ClusterLogs
  import opened ClusterForgets
  import opened ClusterRest

  /** The batch that a step finishes on machine `m`: its contents per partition. */
  function FinishedIn(step: Step, m: Machine): seq<seq<seq<Txn>>> {
    if step.Generate? && step.at == m then [step.contents] else []
  }

  /** What machine `m` finished in the first `n` steps, in order. */
  function Finished(steps: seq<Step>, n: nat, m: Machine): seq<seq<seq<Txn>>>
    requires n <= |steps|
  {
    if n == 0 then [] else Finished(steps, n - 1, m) + FinishedIn(steps[n - 1], m)
  }

  /** The batches of a generator are what it finished, numbered from 1, one share per partition. */
  ghost predicate MadeOf(m: Machine, made: seq<seq<Batch>>, given: seq<seq<seq<Txn>>>) {
    && |made| == |given|
    && forall k :: 0 <= k < |made| ==>
         && |made[k]| == |given[k]|
         && forall p :: 0 <= p < |made[k]| ==> made[k][p] == Batch(BatchId(k + 1, m), given[k][p])
  }

  lemma {:induction false} MadeUnchanged(d: Deployment, c: Cluster, step: Step, c': Cluster)
    requires Valid(d) && Enabled(d, c, step) && Next(d, c, step) == Success(c') && !step.Generate?
    ensures c'.made == c.made
  {
  }

  lemma {:induction false} StepMade(d: Deployment, c: Cluster, step: Step, c': Cluster, m: Machine,
                                    given: seq<seq<seq<Txn>>>)
    requires Valid(d) && Enabled(d, c, step) && Next(d, c, step) == Success(c')
    requires m in c.made && MadeOf(m, c.made[m], given)
    ensures m in c'.made && MadeOf(m, c'.made[m], given + FinishedIn(step, m))
  {
    assert given + [] == given;
    if !step.Generate? {
      MadeUnchanged(d, c, step, c');
    }
  }

  lemma {:induction false} StartMade(d: Deployment, m: Machine)
    requires Valid(d) && IsMachine(d, m)
    ensures m in Start(d).made && Start(d).made[m] == []
  {
    assert m in MachinesOf(d, m.region);
  }

  ghost predicate MadeAt(c: Cluster, m: Machine, given: seq<seq<seq<Txn>>>) {
    m in c.made && MadeOf(m, c.made[m], given)
  }

  lemma {:induction false} RunStepMade(d: Deployment, steps: seq<Step>, states: seq<Cluster>, k: nat, m: Machine,
                                       given: seq<seq<seq<Txn>>>)
    requires Run(d, steps, states) && k < |steps| && MadeAt(states[k], m, given)
    ensures MadeAt(states[k + 1], m, given + FinishedIn(steps[k], m))
  {
    StepMade(d, states[k], steps[k], states[k + 1], m, given);
  }

  lemma {:induction false} RunStartMade(d: Deployment, steps: seq<Step>, states: seq<Cluster>, m: Machine)
    requires Run(d, steps, states) && IsMachine(d, m)
    ensures MadeAt(states[0], m, [])
  {
    StartMade(d, m);
  }

  /** In every state of a run, the batches of a generator are those that its steps finished. */
  lemma {:induction false} MadeAsFinished(d: Deployment, steps: seq<Step>, states: seq<Cluster>, i: nat, m: Machine)
    requires Run(d, steps, states) && i < |states| && IsMachine(d, m)
    ensures MadeAt(states[i], m, Finished(steps, i, m))
  {
    RunStartMade(d, steps, states, m);
    for k := 0 to i
      invariant MadeAt(states[k], m, Finished(steps, k, m))
    {
      RunStepMade(d, steps, states, k, m, Finished(steps, k, m));
    }
  }

  /** The share of batch `id` for machine `m`, if the batch is among those its generator finished. */
  ghost predicate IsFinished(m: Machine, id: BatchId, given: seq<seq<seq<Txn>>>, batch: Batch) {
    && 1 <= id.counter <= |given| && m.partition < |given[id.counter - 1]|
    && batch == Batch(id, given[id.counter - 1][m.partition])
  }

  lemma {:induction false} ShareIsFinished(c: Cluster, m: Machine, id: BatchId, given: seq<seq<seq<Txn>>>, batch: Batch)
    requires MadeAt(c, id.machine, given) && IsShare(c.made, m, id, batch)
    ensures IsFinished(m, id, given, batch)
  {
  }

  lemma {:induction false} MadeByMachine(d: Deployment, steps: seq<Step>, states: seq<Cluster>, i: nat, m: Machine)
    requires Run(d, steps, states) && i < |states| && m in states[i].made
    ensures IsMachine(d, m)
  {
    RunInv(d, steps, states, i);
  }

  /**
    Whatever a machine hands out in slot `s` of a region's log is what the generator that the slot
    names finished for the machine's partition, in the batch that the slot stands for.
  */
  lemma {:induction false} EmitsFinished(d: Deployment, steps: seq<Step>, states: seq<Cluster>, i: nat, m: Machine,
                                         h: nat, s: nat)
    requires Run(d, steps, states) && i < |states| && s < |Emitted(states[i], m, h)|
    ensures s < |OrderOf(states[i], h)| && i <= |steps|
    ensures var id := Common(OrderOf(states[i], h), s);
            IsMachine(d, id.machine) && IsFinished(m, id, Finished(steps, i, id.machine), Emitted(states[i], m, h)[s])
  {
    RunFollows(d, steps, states, i, m, h);
    assert FollowsAt(states[i].made, m, OrderOf(states[i], h), Emitted(states[i], m, h), s);
    var id := Common(OrderOf(states[i], h), s);
    MadeByMachine(d, steps, states, i, id.machine);
    MadeAsFinished(d, steps, states, i, id.machine);
    ShareIsFinished(states[i], m, id, Finished(steps, i, id.machine), Emitted(states[i], m, h)[s]);
  }

  /** No batch is handed out twice. */
  lemma {:induction false} EmitsOnce(d: Deployment, steps: seq<Step>, states: seq<Cluster>, i: nat, m: Machine,
                                     h: nat, s: nat, t: nat)
    requires Run(d, steps, states) && i < |states| && s < t < |Emitted(states[i], m, h)|
    ensures Emitted(states[i], m, h)[s].id != Emitted(states[i], m, h)[t].id
  {
    EmitsFinished(d, steps, states, i, m, h, s);
    EmitsFinished(d, steps, states, i, m, h, t);
    if Emitted(states[i], m, h)[s].id == Emitted(states[i], m, h)[t].id {
      CommonDistinct(OrderOf(states[i], h), s, t);
    }
  }

  /* ---------- At rest ---------- */

  /** Machine `m` has handed out its share of the batch `id`, as the generator finished it. */
  ghost predicate HandedOut(c: Cluster, m: Machine, id: BatchId, given: seq<seq<seq<Txn>>>) {
    exists s: nat :: s < |Emitted(c, m, id.machine.region)| &&
                     IsFinished(m, id, given, Emitted(c, m, id.machine.region)[s])
  }

  lemma {:induction false} RestLogged(d: Deployment, steps: seq<Step>, states: seq<Cluster>, i: nat, g: Machine,
                                      k: nat)
    returns (s: nat)
    requires Run(d, steps, states) && i < |states| && AtRest(states[i]) && IsMachine(d, g)
    requires k < |Finished(steps, i, g)|
    ensures s < |OrderOf(states[i], g.region)| && Common(OrderOf(states[i], g.region), s) == BatchId(k + 1, g)
  {
    MadeAsFinished(d, steps, states, i, g);
    RestHoldsAll(d, steps, states, i, g, k);
    var log := CommonLog(OrderOf(states[i], g.region));
    s :| 0 <= s < |log| && log[s] == BatchId(k + 1, g);
  }

  /**
    At rest, a machine has handed out its share of a batch that a generator finished, as the generator
    finished it, if and only if the generator's region did not lose slot 0 of its order and is either
    another region or one whose replication order names enough regions.
  */
  lemma {:induction false} RestEmitsFinished(d: Deployment, steps: seq<Step>, states: seq<Cluster>, i: nat, m: Machine,
                                             g: Machine, k: nat)
    requires Run(d, steps, states) && i < |states| && AtRest(states[i]) && IsMachine(d, m) && IsMachine(d, g)
    requires k < |Finished(steps, i, g)|
    ensures HandedOut(states[i], m, BatchId(k + 1, g), Finished(steps, i, g)) <==>
            !Forgot(d, steps, states, i, g.region) && (m.region != g.region || EnoughNamed(d, g.region))
  {
    RestIsComplete(d, steps, states, i, m, g.region);
    var s := RestLogged(d, steps, states, i, g, k);
    if s < |Emitted(states[i], m, g.region)| {
      EmitsFinished(d, steps, states, i, m, g.region, s);
    }
  }
}
