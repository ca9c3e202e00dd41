/**
  What becomes of the transactions that the orderers are given: the rounds hold exactly those, in
  order, and each reaches exactly the regions it involves, as often as it was given.
*/
module OrdererSubmits {
  import opened Topology
  import opened Counting
  import opened Deployments
  import opened Orderers
  import opened OrdererSystem
  import opened OrdererInvariant
  import opened OrdererStreams
  import opened OrdererRest

  /* ---------- The rounds, read off the steps ---------- */

  /** How many rounds of `m` the first `n` steps finish. */
  function Finishes(steps: seq<Step>, n: nat, m: Machine): nat
    requires n <= |steps|
  {
    if n == 0 then 0 else Finishes(steps, n - 1, m) + if steps[n - 1] == Finish(m) then 1 else 0
  }

  /** Step `j` gives `m` a transaction after `m` has finished `k` rounds. */
  predicate Gives(steps: seq<Step>, j: nat, m: Machine, k: nat)
    requires j < |steps|
  {
    steps[j].Add? && steps[j].at == m && Finishes(steps, j, m) == k
  }

  /** The transactions that `m` is given after it has finished `k` rounds and before it finishes the next, in order. */
  function RoundGiven(steps: seq<Step>, n: nat, m: Machine, k: nat): seq<Txn>
    requires n <= |steps|
  {
    if n == 0 then []
    else RoundGiven(steps, n - 1, m, k) + if Gives(steps, n - 1, m, k) then [steps[n - 1].txn] else []
  }

  /** The rounds are those that the first `n` steps give and finish. */
  ghost predicate AsGiven(steps: seq<Step>, n: nat, rounds: Rounds)
    requires n <= |steps|
  {
    forall m {:trigger Finishes(steps, n, m)} :: m in rounds ==>
      && |rounds[m]| == Finishes(steps, n, m) + 1
      && forall k :: 0 <= k < |rounds[m]| ==> rounds[m][k] == RoundGiven(steps, n, m, k)
  }

  lemma {:induction false} FinishesRise(steps: seq<Step>, i: nat, j: nat, m: Machine)
    requires i <= j <= |steps|
    ensures Finishes(steps, i, m) <= Finishes(steps, j, m)
    ensures Finishes(steps, i, m) < Finishes(steps, j, m) <==> exists k :: i <= k < j && steps[k] == Finish(m)
    decreases j - i
  {
    if i < j {
      FinishesRise(steps, i, j - 1, m);
    }
  }

  /** Nothing is given in a round that is yet to come. */
  lemma {:induction false} NotYetGiven(steps: seq<Step>, n: nat, m: Machine, k: nat)
    requires n <= |steps| && k > Finishes(steps, n, m)
    ensures RoundGiven(steps, n, m, k) == []
  {
    if n > 0 {
      NotYetGiven(steps, n - 1, m, k);
    }
  }

  lemma {:induction false} StepAsGiven(d: Deployment, s: Global, s': Global, steps: seq<Step>, i: nat)
    requires i < |steps| && Valid(d) && Enabled(d, s, steps[i]) && Next(d, s, steps[i]) == Success(s')
    requires AsGiven(steps, i, s.rounds)
    ensures AsGiven(steps, i + 1, s'.rounds)
  {
    var step := steps[i];
    if step.Take? {
      TakeRounds(s, step.index);
    }
    forall m | m in s'.rounds
      ensures |s'.rounds[m]| == Finishes(steps, i + 1, m) + 1
      ensures forall k :: 0 <= k < |s'.rounds[m]| ==> s'.rounds[m][k] == RoundGiven(steps, i + 1, m, k)
    {
      assert |s.rounds[m]| == Finishes(steps, i, m) + 1;
      NotYetGiven(steps, i, m, Finishes(steps, i, m) + 1);
    }
  }

  ghost function AsGivenAt(steps: seq<Step>, states: seq<Global>): (bs: seq<bool>)
    requires |states| == |steps| + 1
    ensures |bs| == |states| && forall k :: 0 <= k < |states| ==> bs[k] == AsGiven(steps, k, states[k].rounds)
  {
    seq(|states|, k requires 0 <= k < |states| => AsGiven(steps, k, states[k].rounds))
  }

  lemma {:induction false} StartAsGiven(d: Deployment, steps: seq<Step>)
    requires Valid(d)
    ensures AsGiven(steps, 0, Start(d).rounds)
  {
    var rounds := Start(d).rounds;
    forall m | m in rounds
      ensures |rounds[m]| == Finishes(steps, 0, m) + 1
      ensures forall k :: 0 <= k < |rounds[m]| ==> rounds[m][k] == RoundGiven(steps, 0, m, k)
    {
      assert rounds[m] == [[]];
    }
  }

  /**
    The rounds of a machine are the transactions it was given, in order and each once, cut exactly
    where it finished a round.
  */
  lemma {:induction false} RoundsAsGiven(d: Deployment, steps: seq<Step>, states: seq<Global>, i: nat, m: Machine)
    requires Run(d, steps, states) && i < |states|
    ensures m in states[i].rounds <==> IsMachine(d, m)
    ensures m in states[i].rounds ==>
              && |states[i].rounds[m]| == Finishes(steps, i, m) + 1
              && forall k :: 0 <= k < |states[i].rounds[m]| ==> states[i].rounds[m][k] == RoundGiven(steps, i, m, k)
  {
    RunAsGiven(d, steps, states, i);
    RunInv(d, steps, states, i);
    assert Finishes(steps, i, m) >= 0;
  }

  lemma {:induction false} RunAsGiven(d: Deployment, steps: seq<Step>, states: seq<Global>, i: nat)
    requires Run(d, steps, states) && i < |states|
    ensures AsGiven(steps, i, states[i].rounds)
  {
    var bs := AsGivenAt(steps, states);
    StartAsGiven(d, steps);
    forall k | 0 <= k < |bs| - 1 && bs[k] ensures bs[k + 1] {
      RunStep(d, steps, states, k);
      StepAsGiven(d, states[k], states[k + 1], steps, k);
    }
    HoldsThroughout(bs, i);
  }

  /* ---------- Counting ---------- */

  /** The steps below `n` that give `m` the transaction `t` in round `k`. */
  function Givings(steps: seq<Step>, n: nat, m: Machine, k: nat, t: Txn): set<nat>
    requires n <= |steps|
  {
    set j | 0 <= j < n && Gives(steps, j, m, k) && steps[j].txn == t
  }

  lemma {:induction false} GivingsStep(steps: seq<Step>, n: nat, m: Machine, k: nat, t: Txn)
    requires 0 < n <= |steps|
    ensures |Givings(steps, n, m, k, t)| ==
            |Givings(steps, n - 1, m, k, t)| + if Gives(steps, n - 1, m, k) && steps[n - 1].txn == t then 1 else 0
  {
    var before := Givings(steps, n - 1, m, k, t);
    if Gives(steps, n - 1, m, k) && steps[n - 1].txn == t {
      assert Givings(steps, n, m, k, t) == before + {n - 1};
    } else {
      assert Givings(steps, n, m, k, t) == before;
    }
  }

  lemma {:induction false} JoinCount(xs: seq<Txn>, ys: seq<Txn>, t: Txn)
    ensures multiset(xs + ys)[t] == multiset(xs)[t] + multiset(ys)[t]
  {
  }

  lemma {:induction false} GivenCount(steps: seq<Step>, n: nat, m: Machine, k: nat, t: Txn)
    requires n <= |steps|
    ensures multiset(RoundGiven(steps, n, m, k))[t] == |Givings(steps, n, m, k, t)|
  {
    if n == 0 {
      assert Givings(steps, 0, m, k, t) == {};
    } else {
      GivenCount(steps, n - 1, m, k, t);
      GivingsStep(steps, n, m, k, t);
      JoinCount(RoundGiven(steps, n - 1, m, k), if Gives(steps, n - 1, m, k) then [steps[n - 1].txn] else [], t);
    }
  }

  /** The round that step `j` gives a transaction to. */
  function RoundId(steps: seq<Step>, j: nat): BatchId
    requires j < |steps| && steps[j].Add?
  {
    BatchId(Finishes(steps, j, steps[j].at) + 1, steps[j].at)
  }

  /** The steps below `i` that give `t` to one of the first `n` rounds of `ord`. */
  function GivenTo(steps: seq<Step>, i: nat, ord: seq<BatchId>, n: nat, t: Txn): set<nat>
    requires i <= |steps| && n <= |ord|
  {
    set j | 0 <= j < i && steps[j].Add? && steps[j].txn == t && RoundId(steps, j) in ord[..n]
  }

  lemma {:induction false} GivenToStep(steps: seq<Step>, i: nat, ord: seq<BatchId>, n: nat, t: Txn)
    requires i <= |steps| && 0 < n <= |ord| && Distinct(ord) && ord[n - 1].counter > 0
    ensures |GivenTo(steps, i, ord, n, t)| ==
            |GivenTo(steps, i, ord, n - 1, t)|
            + |Givings(steps, i, ord[n - 1].machine, ord[n - 1].counter - 1, t)|
  {
    var id := ord[n - 1];
    var before, more := GivenTo(steps, i, ord, n - 1, t), Givings(steps, i, id.machine, id.counter - 1, t);
    assert ord[..n] == ord[..n - 1] + [id];
    forall j | 0 <= j < i && steps[j].Add? ensures j in more <==> RoundId(steps, j) == id && steps[j].txn == t {
    }
    assert id !in ord[..n - 1];
    assert before !! more;
    assert GivenTo(steps, i, ord, n, t) == before + more;
  }

  lemma {:induction false} GlobalCount(steps: seq<Step>, i: nat, rounds: Rounds, ord: seq<BatchId>, n: nat, t: Txn)
    requires i <= |steps| && n <= |ord| && Distinct(ord) && AsGiven(steps, i, rounds)
    requires forall k :: 0 <= k < |ord| ==> Closed(rounds, ord[k])
    ensures multiset(GlobalTxns(rounds, ord[..n]))[t] == |GivenTo(steps, i, ord, n, t)|
  {
    if n == 0 {
      assert ord[..0] == [] && GivenTo(steps, i, ord, 0, t) == {};
    } else {
      GlobalCount(steps, i, rounds, ord, n - 1, t);
      OneRoundMore(steps, i, rounds, ord, n, t);
      GivenToStep(steps, i, ord, n, t);
    }
  }

  lemma {:induction false} OneRoundMore(steps: seq<Step>, i: nat, rounds: Rounds, ord: seq<BatchId>, n: nat, t: Txn)
    requires i <= |steps| && 0 < n <= |ord| && AsGiven(steps, i, rounds) && Closed(rounds, ord[n - 1])
    ensures multiset(GlobalTxns(rounds, ord[..n]))[t] ==
            multiset(GlobalTxns(rounds, ord[..n - 1]))[t]
            + |Givings(steps, i, ord[n - 1].machine, ord[n - 1].counter - 1, t)|
  {
    GlobalStep(rounds, ord, n - 1);
    JoinCount(GlobalTxns(rounds, ord[..n - 1]), RoundOf(rounds, ord[n - 1]), t);
    RoundCount(steps, i, rounds, ord[n - 1], t);
  }

  lemma {:induction false} RoundCount(steps: seq<Step>, i: nat, rounds: Rounds, id: BatchId, t: Txn)
    requires i <= |steps| && AsGiven(steps, i, rounds) && Closed(rounds, id)
    ensures multiset(RoundOf(rounds, id))[t] == |Givings(steps, i, id.machine, id.counter - 1, t)|
  {
    assert |rounds[id.machine]| == Finishes(steps, i, id.machine) + 1;
    GivenCount(steps, i, id.machine, id.counter - 1, t);
  }

  lemma {:induction false} InvolvingCount(txns: seq<Txn>, g: nat, t: Txn)
    ensures multiset(Involving(txns, g))[t] == if g in t.regions then multiset(txns)[t] else 0
  {
    if txns != [] {
      InvolvingCount(txns[..|txns| - 1], g, t);
      assert txns == txns[..|txns| - 1] + [txns[|txns| - 1]];
    }
  }

  /* ---------- Main results ---------- */

  /** Step `j` gives a transaction to a round that is finished by the first `i` steps. */
  predicate Finished(steps: seq<Step>, j: nat, i: nat)
    requires j < i <= |steps|
  {
    steps[j].Add? && exists k :: j < k < i && steps[k] == Finish(steps[j].at)
  }

  /** The steps that give `t` to some machine that then finishes its round. */
  function FinishedGivings(steps: seq<Step>, i: nat, t: Txn): set<nat>
    requires i <= |steps|
  {
    set j | 0 <= j < i && Finished(steps, j, i) && steps[j].txn == t
  }

  /** A round is finished exactly if the machine finishes a round after the transaction was given. */
  lemma {:induction false} ClosedIsFinished(steps: seq<Step>, j: nat, i: nat, rounds: Rounds)
    requires j < i <= |steps| && steps[j].Add? && steps[j].at in rounds && AsGiven(steps, i, rounds)
    ensures Closed(rounds, RoundId(steps, j)) <==> Finished(steps, j, i)
  {
    var m := steps[j].at;
    FinishesRise(steps, j, i, m);
    assert |rounds[m]| == Finishes(steps, i, m) + 1;
    if k :| j <= k < i && steps[k] == Finish(m) {
      assert j != k;
    }
  }

  lemma {:induction false} GivenAtMachines(d: Deployment, steps: seq<Step>, states: seq<Global>, i: nat, j: nat)
    requires Run(d, steps, states) && j < i < |states| && steps[j].Add?
    ensures steps[j].at in states[i].rounds
  {
    RunInv(d, steps, states, j);
    RunInv(d, steps, states, i);
    RunStep(d, steps, states, j);
  }

  lemma {:induction false} OrderedAreFinished(d: Deployment, steps: seq<Step>, states: seq<Global>, i: nat, t: Txn)
    requires Run(d, steps, states) && i < |states|
    ensures var ord := View(states[i]).ord;
            && GivenTo(steps, i, ord, |ord|, t) <= FinishedGivings(steps, i, t)
            && (AtRest(states[i]) ==> GivenTo(steps, i, ord, |ord|, t) == FinishedGivings(steps, i, t))
  {
    var ord := View(states[i]).ord;
    assert ord[..|ord|] == ord;
    RunOrd(d, steps, states, i);
    RunAsGiven(d, steps, states, i);
    forall j | 0 <= j < i && steps[j].Add?
      ensures RoundId(steps, j) in ord ==> Finished(steps, j, i)
      ensures AtRest(states[i]) && Finished(steps, j, i) ==> RoundId(steps, j) in ord
    {
      GivenAtMachines(d, steps, states, i, j);
      ClosedIsFinished(steps, j, i, states[i].rounds);
      if AtRest(states[i]) {
        RestIsComplete(d, steps, states, i, 0, RoundId(steps, j));
      }
    }
  }

  lemma {:induction false} GlobalOfCount(d: Deployment, steps: seq<Step>, states: seq<Global>, i: nat, t: Txn)
    requires Run(d, steps, states) && i < |states|
    ensures var ord := View(states[i]).ord; multiset(GlobalOf(states[i]))[t] == |GivenTo(steps, i, ord, |ord|, t)|
  {
    var w := View(states[i]);
    RunOrd(d, steps, states, i);
    RunAsGiven(d, steps, states, i);
    GlobalCount(steps, i, w.rounds, w.ord, |w.ord|, t);
    assert w.ord[..|w.ord|] == w.ord;
  }

  lemma {:induction false} PrefixCount(xs: seq<Txn>, ys: seq<Txn>, t: Txn)
    requires xs <= ys
    ensures multiset(xs)[t] <= multiset(ys)[t]
  {
    assert ys == xs + ys[|xs|..];
  }

  /**
    No transaction is made up, doubled or sent astray: at any time a region has been given a
    transaction at most as often as it was submitted to rounds finished by then, and never one that
    does not involve the region.
  */
  lemma {:induction false} NeverMoreThanGiven(d: Deployment, steps: seq<Step>, states: seq<Global>, i: nat, g: nat,
                                              t: Txn)
    requires Run(d, steps, states) && i < |states|
    ensures multiset(Stream(states[i], g))[t] <= if g in t.regions then |FinishedGivings(steps, i, t)| else 0
  {
    StreamIsPrefix(d, steps, states, i, i, g);
    PrefixCount(Stream(states[i], g), Involving(GlobalOf(states[i]), g), t);
    InvolvingCount(GlobalOf(states[i]), g, t);
    GlobalOfCount(d, steps, states, i, t);
    OrderedAreFinished(d, steps, states, i, t);
    SubsetSize(GivenTo(steps, i, View(states[i]).ord, |View(states[i]).ord|, t), FinishedGivings(steps, i, t));
  }

  /**
    Nothing is lost either: once nothing is on its way, every region that a transaction involves has
    been given it exactly as often as it was submitted to rounds finished by then, and no other region
    has been given it at all.  If the global leader forgot slot 0 too early, nobody has been given it.
  */
  lemma {:induction false} RestHasAllGiven(d: Deployment, steps: seq<Step>, states: seq<Global>, i: nat, g: nat, t: Txn)
    requires Run(d, steps, states) && i < |states| && AtRest(states[i]) && g < Regions(d)
    ensures multiset(Stream(states[i], g))[t] ==
            if g in t.regions && !Forgot(d, steps, states, i) then |FinishedGivings(steps, i, t)| else 0
  {
    RunInv(d, steps, states, i);
    RestIsComplete(d, steps, states, i, g, BatchId(0, Machine(0, 0, 0)));
    InvolvingCount(GlobalOf(states[i]), g, t);
    GlobalOfCount(d, steps, states, i, t);
    OrderedAreFinished(d, steps, states, i, t);
  }
}
