/**
  The order of a region's batches that its Paxos group decides, and the batch that each slot of it
  stands for: the next batch of the generator that the slot names.
*/
module RegionOrders {
  import opened Topology
  import opened Counting
  import opened PaxosRoles
  import opened PaxosSystem
  import opened PaxosQueues
  import opened PaxosSafety
  import PaxosRest
  import L = LocalLogs

  function GeneratorOf(v: Value): Machine {
    match v
    case FromGenerator(m) => m
    case OfBatch(id) => id.machine
  }

  /** The generators that the slots are bound to. */
  function Ord(h: History): seq<Machine>
    requires ChosenInRange(h)
  {
    seq(|h.chosen|, k requires 0 <= k < |h.chosen| => GeneratorOf(Bound(h, k)))
  }

  /** How many of the first `n` slots name generator `g`. */
  function RankIn(ord: seq<Machine>, n: nat, g: Machine): nat
    requires n <= |ord|
  {
    if n == 0 then 0 else RankIn(ord, n - 1, g) + if ord[n - 1] == g then 1 else 0
  }

  /** The batch in slot `s`. */
  function Common(ord: seq<Machine>, s: nat): BatchId
    requires s < |ord|
  {
    BatchId(RankIn(ord, s, ord[s]) + 1, ord[s])
  }

  /** The sequence of batches that every machine hands out. */
  function CommonLog(ord: seq<Machine>): seq<BatchId> {
    seq(|ord|, s requires 0 <= s < |ord| => Common(ord, s))
  }

  lemma {:induction false} RankPrefix(ord: seq<Machine>, ord': seq<Machine>, n: nat, g: Machine)
    requires ord <= ord' && n <= |ord|
    ensures RankIn(ord, n, g) == RankIn(ord', n, g)
  {
    if n > 0 {
      RankPrefix(ord, ord', n - 1, g);
    }
  }

  lemma {:induction false} CommonPrefix(ord: seq<Machine>, ord': seq<Machine>, s: nat)
    requires ord <= ord' && s < |ord|
    ensures Common(ord, s) == Common(ord', s)
  {
    RankPrefix(ord, ord', s, ord[s]);
  }

  lemma {:induction false} RankInMonotone(ord: seq<Machine>, s: nat, t: nat, g: Machine)
    requires s <= t <= |ord|
    ensures RankIn(ord, s, g) <= RankIn(ord, t, g)
    decreases t - s
  {
    if s < t {
      RankInMonotone(ord, s, t - 1, g);
    }
  }

  /** No batch stands in two slots. */
  lemma {:induction false} CommonDistinct(ord: seq<Machine>, s: nat, t: nat)
    requires s < |ord| && t < |ord| && Common(ord, s) == Common(ord, t)
    ensures s == t
  {
    if s < t {
      RankInMonotone(ord, s + 1, t, ord[s]);
    } else if t < s {
      RankInMonotone(ord, t + 1, s, ord[s]);
    }
  }

  /** A generator's batches stand in the order in which it made them. */
  lemma {:induction false} CommonInOrder(ord: seq<Machine>, s: nat, t: nat)
    requires s < t < |ord| && ord[s] == ord[t]
    ensures Common(ord, s).machine == Common(ord, t).machine && Common(ord, s).counter < Common(ord, t).counter
  {
    RankInMonotone(ord, s + 1, t, ord[s]);
  }

  /** The slots that a machine has heard of are those of the order. */
  ghost predicate SlotsAgree(slots: map<nat, L.SlotEntry>, ord: seq<Machine>, leader: Machine) {
    forall s :: s in slots ==> s < |ord| && slots[s] == L.SlotEntry(ord[s], leader)
  }

  lemma {:induction false} RankAgrees(slots: map<nat, L.SlotEntry>, ord: seq<Machine>, leader: Machine, n: nat,
                                      g: Machine)
    requires SlotsAgree(slots, ord, leader) && forall s :: 0 <= s < n ==> s in slots
    ensures n <= |ord| && L.Rank(slots, n, g) == RankIn(ord, n, g)
  {
    if n > 0 {
      assert n - 1 in slots;
      RankAgrees(slots, ord, leader, n - 1, g);
    }
  }

  lemma {:induction false} PairedIsCommon(a: L.Arrivals, ord: seq<Machine>, leader: Machine, s: nat)
    requires SlotsAgree(a.slots, ord, leader) && forall t :: 0 <= t < s ==> t in a.slots
    requires forall q, p :: (q, p) in a.ids ==> a.ids[(q, p)] == BatchId(p + 1, q)
    requires L.Complete(a, s)
    ensures s < |ord| && L.Paired(a, s).id == Common(ord, s) && L.Paired(a, s).leader == leader
  {
    RankAgrees(a.slots, ord, leader, s, ord[s]);
  }

  /* ---------- What one Paxos delivery does to the order ---------- */

  function SlotsOf(commits: seq<Commit>): set<nat> {
    set k | k in commits :: k.slot
  }

  function Heard(h: History, x: Machine): set<nat> {
    if x in h.learned then SlotsOf(h.learned[x]) else {}
  }

  /** The commits that a delivery reports on the machine it goes to. */
  function Reported(c: Config, s: System, link: Link, i: nat): seq<Commit>
    requires i < |Q(s.net, link)| && link.dst in s.nodes
  {
    LeaderHandle(c.members, link.dst, s.nodes[link.dst].leader, Q(s.net, link)[i]).commits
  }

  lemma {:induction false} OrdGrows(h: History, h': History)
    requires Grows(h, h') && ChosenInRange(h) && ChosenInRange(h')
    ensures Ord(h) <= Ord(h')
  {
    forall k | 0 <= k < |h.chosen| ensures Ord(h)[k] == Ord(h')[k] {
      BoundKept(h, h', k);
    }
  }

  lemma {:induction false} SubmitOrder(c: Config, s: System, at: Machine, value: Value)
    requires Safe(c, s) && at in c.machines
    ensures var s' := Submitted(s, at, value);
            ChosenInRange(s'.hist) && Ord(s'.hist) == Ord(s.hist) && s'.hist.learned == s.hist.learned
  {
  }

  lemma {:induction false} DeliverLearned(c: Config, s: System, link: Link, i: nat)
    requires i < |Q(s.net, link)| && link.dst in s.nodes && link.dst in s.hist.learned
    ensures |Reported(c, s, link, i)| <= 1
    ensures Delivered(c, s, link, i).hist.learned ==
            s.hist.learned[link.dst := s.hist.learned[link.dst] + Reported(c, s, link, i)]
  {
    var before := s.hist.learned;
    assert before[link.dst] + [] == before[link.dst];
    assert before == before[link.dst := before[link.dst]];
  }

  lemma {:induction false} DeliverHeard(h: History, h': History, x: Machine, ks: seq<Commit>)
    requires x in h.learned && h'.learned == h.learned[x := h.learned[x] + ks]
    ensures forall y :: Heard(h', y) == Heard(h, y) + if y == x then SlotsOf(ks) else {}
  {
  }

  /** What the machine is told last is a slot it has not been told of, as the order has it. */
  lemma {:induction false} LastIsNews(c: Config, b: Bag, h: History, x: Machine, before: seq<Commit>, k: Commit)
    requires ValidConfig(c) && CommitTokens(c, b, h) && x in h.learned && h.learned[x] == before + [k]
    ensures x in c.members.learners && k.leader == LeaderOf(c) && k.slot !in SlotsOf(before)
    ensures k.slot < |h.chosen| && k.value == Bound(h, k.slot)
  {
    var n := |before|;
    assert h.learned[x][n] == k;
    assert LearnedOk(c, h, x, h.learned[x]);
    forall i | 0 <= i < n ensures before[i].slot != k.slot {
      assert h.learned[x][i] == before[i];
      LearnedDistinct(c, b, h, x, i, n);
    }
  }

  lemma {:induction false} SafeParts(c: Config, s: System)
    requires Safe(c, s)
    ensures ValidConfig(c) && CommitTokens(c, BagOf(s.net), s.hist) && ChosenInRange(s.hist)
    ensures s.nodes.Keys == c.machines == s.hist.learned.Keys
  {
  }

  lemma {:induction false} ReachedParts(c: Config, s: System)
    requires PaxosRest.Reached(c, s)
    ensures ValidConfig(c) && CommitTokens(c, BagOf(s.net), s.hist) && ChosenInRange(s.hist)
    ensures s.nodes.Keys == c.machines == s.hist.learned.Keys
  {
    PaxosRest.ReachedIsSafe(c, s);
    SafeParts(c, s);
  }

  lemma {:induction false} DeliverTickets(c: Config, s: System, link: Link, i: nat)
    requires i < |Q(s.net, link)| && link.dst in s.nodes
    ensures Delivered(c, s, link, i).hist.tickets == s.hist.tickets
  {
  }

  /** A delivery reports at most one commit: a slot new to the machine, as the order has it. */
  lemma {:induction false} DeliverOrder(c: Config, s: System, s': System, link: Link, i: nat, ks: seq<Commit>)
    requires ValidConfig(c) && ChosenInRange(s.hist) && link.dst in s.hist.learned
    requires i < |Q(s.net, link)| && link.dst in s.nodes
    requires s' == Delivered(c, s, link, i) && ks == Reported(c, s, link, i)
    requires ChosenInRange(s'.hist) && CommitTokens(c, BagOf(s'.net), s'.hist)
    ensures Ord(s.hist) <= Ord(s'.hist)
    ensures forall x :: Heard(s'.hist, x) == Heard(s.hist, x) + if x == link.dst then SlotsOf(ks) else {}
    ensures |ks| <= 1
    ensures ks != [] ==>
              && link.dst in c.members.learners && ks[0].leader == LeaderOf(c)
              && ks[0].slot !in Heard(s.hist, link.dst)
              && ks[0].slot < |s'.hist.chosen| && ks[0].value == Bound(s'.hist, ks[0].slot)
  {
    StepGrows(c, s, Deliver(link, i));
    OrdGrows(s.hist, s'.hist);
    DeliverLearned(c, s, link, i);
    DeliverHeard(s.hist, s'.hist, link.dst, ks);
    if ks != [] {
      assert ks == [ks[0]];
      LastIsNews(c, BagOf(s'.net), s'.hist, link.dst, s.hist.learned[link.dst], ks[0]);
    }
  }

  /* ---------- When every proposal has its slot ---------- */

  lemma {:induction false} RankIsPlaces(ord: seq<Machine>, n: nat, g: Machine)
    requires n <= |ord|
    ensures RankIn(ord, n, g) == |Places(ord, n, g)|
  {
    if n == 0 {
      assert Places(ord, 0, g) == {};
    } else {
      RankIsPlaces(ord, n - 1, g);
      PlacesStep(ord, n, g);
    }
  }

  function Generators(tickets: seq<Value>): seq<Machine> {
    seq(|tickets|, t requires 0 <= t < |tickets| => GeneratorOf(tickets[t]))
  }

  lemma {:induction false} GeneratorCount(tickets: seq<Value>, n: nat, g: Machine)
    requires n <= |tickets| && forall v :: v in tickets ==> v.FromGenerator?
    ensures multiset(Generators(tickets)[..n])[g] == multiset(tickets[..n])[FromGenerator(g)]
  {
    if n > 0 {
      GeneratorCount(tickets, n - 1, g);
      assert tickets[..n] == tickets[..n - 1] + [tickets[n - 1]];
      assert Generators(tickets)[..n] == Generators(tickets)[..n - 1] + [GeneratorOf(tickets[n - 1])];
      assert tickets[n - 1] in tickets;
    }
  }

  /** The order then names each generator as often as it proposed. */
  lemma {:induction false} RankTotal(h: History, g: Machine)
    requires PaxosRest.AllPlaced(h) && forall v :: v in h.tickets ==> v.FromGenerator?
    ensures RankIn(Ord(h), |Ord(h)|, g) == multiset(h.tickets)[FromGenerator(g)]
  {
    var ord, gens := Ord(h), Generators(h.tickets);
    RankIsPlaces(ord, |ord|, g);
    PermutedCount(gens, h.chosen, ord, g);
    GeneratorCount(h.tickets, |h.tickets|, g);
    assert gens[..|h.tickets|] == gens && h.tickets[..|h.tickets|] == h.tickets;
  }
}
