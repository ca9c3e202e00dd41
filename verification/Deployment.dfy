/** The configured shape of the system: regions, replicas, partitions, Paxos groups, placement. */
module Deployments {
  import opened Topology
  import opened Counting
  import opened PaxosRoles

  /**
    `replicas[g]` replicas in region g, `partitions` partitions everywhere; `sync[g]` says whether
    region g replicates locally through its Paxos group; a batch of region g needs
    `factor - 1` acknowledgements, asked for in the order `order[g]`; `rrr` spreads the entry
    points of batches round-robin.
  */
  datatype Deployment = Deployment(
    replicas: seq<nat>, partitions: nat, sync: seq<bool>, factor: nat, order: seq<seq<nat>>, rrr: bool)

  ghost predicate Valid(d: Deployment) {
    && |d.replicas| > 0 && d.partitions > 0 && d.factor > 0
    && |d.sync| == |d.replicas| && |d.order| == |d.replicas|
    && (forall g :: 0 <= g < |d.replicas| ==> d.replicas[g] > 0)
    && (forall g, i :: 0 <= g < |d.order| && 0 <= i < |d.order[g]| ==>
          d.order[g][i] < |d.replicas| && d.order[g][i] != g)
  }

  function Regions(d: Deployment): nat {
    |d.replicas|
  }

  predicate IsMachine(d: Deployment, m: Machine) {
    m.region < |d.replicas| && m.replica < d.replicas[m.region] && m.partition < d.partitions
  }

  function MachinesOf(d: Deployment, g: nat): set<Machine>
    requires g < |d.replicas|
  {
    set r, p | 0 <= r < d.replicas[g] && 0 <= p < d.partitions :: Machine(g, r, p)
  }

  function AllMachines(d: Deployment): set<Machine> {
    set g, m | 0 <= g < |d.replicas| && m in MachinesOf(d, g) :: m
  }

  function Row(g: nat, r: nat, n: nat): seq<Machine>
    ensures |Row(g, r, n)| == n && forall p :: 0 <= p < n ==> Row(g, r, n)[p] == Machine(g, r, p)
  {
    if n == 0 then [] else Row(g, r, n - 1) + [Machine(g, r, n - 1)]
  }

  /** Partition 0 of the first `n` replicas. */
  function Column(g: nat, n: nat): seq<Machine>
    ensures |Column(g, n)| == n && forall r :: 0 <= r < n ==> Column(g, n)[r] == Machine(g, r, 0)
  {
    if n == 0 then [] else Column(g, n - 1) + [Machine(g, n - 1, 0)]
  }

  const LEADER_REPLICA := 0
  const LEADER_PARTITION := 0

  /** The largest odd number not above `n`. */
  function OddCutoff(n: nat): (r: nat)
    requires n > 0
    ensures r % 2 == 1 && r <= n < r + 2
  {
    (n - 1) / 2 * 2 + 1
  }

  /** The Paxos group of region `g`. */
  function MembersOf(d: Deployment, g: nat): Members
    requires Valid(d) && g < Regions(d)
  {
    Members(
      if d.sync[g] then Column(g, OddCutoff(d.replicas[g])) else Row(g, LEADER_REPLICA, OddCutoff(d.partitions)),
      Row(g, LEADER_REPLICA, d.partitions) + Column(g, d.replicas[g])[1..])
  }

  method GetMembers(d: Deployment, localRegion: nat) returns (members: Members)
    requires Valid(d) && localRegion < Regions(d)
    ensures members == MembersOf(d, localRegion)
  {
    var acceptors: seq<Machine>, learners: seq<Machine> := [], [];
    for part := 0 to d.partitions
      invariant learners == Row(localRegion, LEADER_REPLICA, part)
    {
      learners := learners + [Machine(localRegion, LEADER_REPLICA, part)];
    }
    ghost var row := learners;
    for rep := 0 to d.replicas[localRegion]
      invariant learners == row + if rep == 0 then [] else Column(localRegion, rep)[1..]
    {
      if rep != LEADER_REPLICA {
        learners := learners + [Machine(localRegion, rep, LEADER_PARTITION)];
      }
    }
    if d.sync[localRegion] {
      var cutoff := (d.replicas[localRegion] - 1) / 2 * 2 + 1;
      for rep := 0 to cutoff
        invariant acceptors == Column(localRegion, rep)
      {
        acceptors := acceptors + [Machine(localRegion, rep, LEADER_PARTITION)];
      }
    } else {
      var cutoff := (d.partitions - 1) / 2 * 2 + 1;
      for part := 0 to cutoff
        invariant acceptors == Row(localRegion, LEADER_REPLICA, part)
      {
        acceptors := acceptors + [Machine(localRegion, LEADER_REPLICA, part)];
      }
    }
    members := Members(acceptors, learners);
  }

  /** Partition 0 of the first replicas, of all of them or of all but one. */
  ghost predicate AreFirstReplicas(d: Deployment, g: nat, acceptors: seq<Machine>)
    requires g < |d.replicas|
  {
    && |acceptors| <= d.replicas[g] < |acceptors| + 2
    && forall m :: m in acceptors <==>
         m.region == g && m.partition == LEADER_PARTITION && m.replica < |acceptors|
  }

  /** The first partitions of replica 0, all of them or all but one. */
  ghost predicate AreFirstPartitions(d: Deployment, g: nat, acceptors: seq<Machine>) {
    && |acceptors| <= d.partitions < |acceptors| + 2
    && forall m :: m in acceptors <==>
         m.region == g && m.replica == LEADER_REPLICA && m.partition < |acceptors|
  }

  lemma {:induction false} AcceptorsSound(d: Deployment, g: nat)
    requires Valid(d) && g < Regions(d)
    ensures var acceptors := MembersOf(d, g).acceptors;
            && |acceptors| % 2 == 1 && Distinct(acceptors) && acceptors[0] == Machine(g, 0, 0)
            && (forall m :: m in acceptors ==> IsMachine(d, m) && m.region == g)
            && (d.sync[g] ==> AreFirstReplicas(d, g, acceptors))
            && (!d.sync[g] ==> AreFirstPartitions(d, g, acceptors))
  {
    var acceptors := MembersOf(d, g).acceptors;
    forall m: Machine | m.region == g && m.replica < |acceptors| && m.partition == LEADER_PARTITION && d.sync[g]
      ensures m in acceptors
    {
      assert acceptors[m.replica] == m;
    }
    forall m: Machine | m.region == g && m.replica == LEADER_REPLICA && m.partition < |acceptors| && !d.sync[g]
      ensures m in acceptors
    {
      assert acceptors[m.partition] == m;
    }
  }

  lemma {:induction false} LearnersDistinct(d: Deployment, g: nat)
    requires Valid(d) && g < Regions(d)
    ensures Distinct(MembersOf(d, g).learners)
    ensures forall m :: m in MembersOf(d, g).learners ==>
              IsMachine(d, m) && m.region == g && (m.replica == 0 || m.partition == 0)
  {
    var learners, row, rest := MembersOf(d, g).learners, Row(g, 0, d.partitions), Column(g, d.replicas[g])[1..];
    forall i, j | 0 <= i < j < |learners| ensures learners[i] != learners[j] {
      if i < |row| <= j {
        assert learners[j] == rest[j - |row|] == Machine(g, j - |row| + 1, 0);
      }
    }
  }

  lemma {:induction false} LearnersComplete(d: Deployment, g: nat, m: Machine)
    requires Valid(d) && g < Regions(d)
    requires IsMachine(d, m) && m.region == g && (m.replica == 0 || m.partition == 0)
    ensures m in MembersOf(d, g).learners
  {
    var learners, row, rest := MembersOf(d, g).learners, Row(g, 0, d.partitions), Column(g, d.replicas[g])[1..];
    if m.replica == 0 {
      assert learners[m.partition] == m;
    } else {
      assert learners[|row| + m.replica - 1] == rest[m.replica - 1] == m;
    }
  }

  /** The members are distinct machines of the region, led by its first one. */
  lemma {:induction false} MembersAreMachines(d: Deployment, g: nat)
    requires Valid(d) && g < Regions(d)
    ensures var ms := MembersOf(d, g);
            && ms.acceptors != [] && Distinct(ms.acceptors) && ms.acceptors[0] == Machine(g, 0, 0)
            && (forall m :: m in ms.acceptors ==> IsMachine(d, m) && m.region == g)
            && Distinct(ms.learners)
            && (forall m :: m in ms.learners <==>
                  IsMachine(d, m) && m.region == g && (m.replica == 0 || m.partition == 0))
  {
    MembersSound(d, g);
  }

  /**
    Whatever the replication mode: an odd number of distinct acceptors led by the first machine,
    and the learners are, once each, the leader replica and the first partitions.  With synchronous
    replication the acceptors are spread over the replicas, otherwise over the partitions.
  */
  lemma {:induction false} MembersSound(d: Deployment, g: nat)
    requires Valid(d) && g < Regions(d)
    ensures var ms := MembersOf(d, g);
            && |ms.acceptors| % 2 == 1 && Distinct(ms.acceptors) && ms.acceptors[0] == Machine(g, 0, 0)
            && (forall m :: m in ms.acceptors ==> IsMachine(d, m) && m.region == g)
            && (d.sync[g] ==> AreFirstReplicas(d, g, ms.acceptors))
            && (!d.sync[g] ==> AreFirstPartitions(d, g, ms.acceptors))
            && Distinct(ms.learners)
            && (forall m :: m in ms.learners <==>
                  IsMachine(d, m) && m.region == g && (m.replica == 0 || m.partition == 0))
  {
    AcceptorsSound(d, g);
    LearnersDistinct(d, g);
    forall m | IsMachine(d, m) && m.region == g && (m.replica == 0 || m.partition == 0)
      ensures m in MembersOf(d, g).learners
    {
      LearnersComplete(d, g, m);
    }
  }

  /* ---------- Which regions acknowledge ---------- */

  /** The regions that `home` asks to acknowledge its orders. */
  function Needed(d: Deployment, home: nat): set<nat>
    requires Valid(d) && home < Regions(d)
  {
    Elements(d.order[home][..if |d.order[home]| < d.factor - 1 then |d.order[home]| else d.factor - 1])
  }

  /** They are those named by the first factor - 1 entries of the replication order. */
  lemma {:induction false} NeededIs(d: Deployment, home: nat, g: nat)
    requires Valid(d) && home < Regions(d)
    ensures g in Needed(d, home) <==> exists i :: 0 <= i < |d.order[home]| && i < d.factor - 1 && d.order[home][i] == g
  {
    var order := d.order[home];
    var first := order[..if |order| < d.factor - 1 then |order| else d.factor - 1];
    if g in Needed(d, home) {
      var i :| 0 <= i < |first| && first[i] == g;
      assert order[i] == g;
    }
    if i :| 0 <= i < |order| && i < d.factor - 1 && order[i] == g {
      assert first[i] == g;
    }
  }

  /** The order names as many distinct regions as a slot waits for. */
  lemma {:induction false} NeededEnough(d: Deployment, home: nat)
    requires Valid(d) && home < Regions(d)
    ensures |Needed(d, home)| == d.factor - 1 <==>
            |d.order[home]| >= d.factor - 1 && Distinct(d.order[home][..d.factor - 1])
  {
    var order, k := d.order[home], d.factor - 1;
    if |order| >= k {
      DistinctIffSize(order[..k]);
      SameNeeded(d, home, Elements(order[..k]));
    } else {
      ElementsSize(order);
      SameNeeded(d, home, Elements(order));
    }
  }

  lemma {:induction false} SameNeeded(d: Deployment, home: nat, regions: set<nat>)
    requires Valid(d) && home < Regions(d)
    requires forall g :: g in regions <==>
               exists i :: 0 <= i < |d.order[home]| && i < d.factor - 1 && d.order[home][i] == g
    ensures Needed(d, home) == regions
  {
    forall g ensures g in Needed(d, home) <==> g in regions {
      NeededIs(d, home, g);
    }
  }

  /** Never more acknowledgements than a slot waits for. */
  lemma {:induction false} NeededBounded(d: Deployment, home: nat)
    requires Valid(d) && home < Regions(d)
    ensures |Needed(d, home)| <= d.factor - 1
    ensures forall g :: g in Needed(d, home) ==> g < Regions(d) && g != home
  {
    ElementsSize(d.order[home][..if |d.order[home]| < d.factor - 1 then |d.order[home]| else d.factor - 1]);
  }

  /* ---------- Where the log of one region enters another ---------- */

  /** The fixed partition of `region` that the orders of `home` are sent to. */
  function EntryPartition(d: Deployment, home: nat, region: nat): nat
    requires Valid(d) && home < Regions(d)
  {
    (region + Regions(d) - home) % Regions(d) % d.partitions
  }

  function Entry(d: Deployment, home: nat, region: nat): Machine
    requires Valid(d) && home < Regions(d)
  {
    Machine(region, 0, EntryPartition(d, home, region))
  }

  lemma {:induction false} EntryIsMachine(d: Deployment, home: nat, region: nat)
    requires Valid(d) && home < Regions(d) && region < Regions(d)
    ensures IsMachine(d, Entry(d, home, region))
  {
  }

  /** How many of the `n` distances 1 .. n fall on partition `p`. */
  function Hits(n: nat, partitions: nat, p: nat): nat
    requires partitions > 0
  {
    if n == 0 then 0 else Hits(n - 1, partitions, p) + if n % partitions == p then 1 else 0
  }

  /** The remote logs that enter `region` at partition `p`, among those of homes below `n`. */
  function LogsAt(d: Deployment, region: nat, p: nat, n: nat): nat
    requires Valid(d) && n <= Regions(d)
  {
    if n == 0 then 0
    else LogsAt(d, region, p, n - 1) +
         if n - 1 != region && EntryPartition(d, n - 1, region) == p then 1 else 0
  }

  lemma {:induction false} HitsClosed(n: nat, partitions: nat, p: nat)
    requires p < partitions
    ensures Hits(n, partitions, p) ==
            n / partitions + (if 0 < p <= n % partitions then 1 else 0)
  {
    if n > 0 {
      HitsClosed(n - 1, partitions, p);
      DivStep(n, partitions);
    }
  }

  lemma {:induction false} DivStep(n: nat, k: nat)
    requires n > 0 && k > 0
    ensures if n % k == 0 then n / k == (n - 1) / k + 1 && (n - 1) % k == k - 1
            else n / k == (n - 1) / k && (n - 1) % k == n % k - 1
  {
    var q, r := (n - 1) / k, (n - 1) % k;
    assert n - 1 == q * k + r;
    if r == k - 1 {
      assert n == (q + 1) * k;
      DivUnique(n, k, q + 1, 0);
    } else {
      DivUnique(n, k, q, r + 1);
    }
  }

  /** The distance from `home` to `region`, going up and around. */
  lemma {:induction false} DistanceOf(d: Deployment, home: nat, region: nat)
    requires Valid(d) && home < Regions(d) && region < Regions(d)
    ensures (region + Regions(d) - home) % Regions(d) ==
            if home <= region then region - home else region + Regions(d) - home
  {
    if home <= region {
      DivUnique(region + Regions(d) - home, Regions(d), 1, region - home);
    } else {
      DivUnique(region + Regions(d) - home, Regions(d), 0, region + Regions(d) - home);
    }
  }

  lemma {:induction false} LogsAreHits(d: Deployment, region: nat, p: nat, n: nat)
    requires Valid(d) && region < Regions(d) && n <= Regions(d)
    ensures LogsAt(d, region, p, n) ==
            if n <= region then Hits(region, d.partitions, p) - Hits(region - n, d.partitions, p)
            else Hits(region, d.partitions, p) + Hits(Regions(d) - 1, d.partitions, p)
                 - Hits(region + Regions(d) - n, d.partitions, p)
  {
    if n > 0 {
      LogsAreHits(d, region, p, n - 1);
      DistanceOf(d, n - 1, region);
      if n - 1 < region {
        assert Hits(region - (n - 1), d.partitions, p) ==
               Hits(region - n, d.partitions, p) + if (region - (n - 1)) % d.partitions == p then 1 else 0;
      } else if n - 1 > region {
        var k := region + Regions(d) - (n - 1);
        assert Hits(k, d.partitions, p) == Hits(k - 1, d.partitions, p) + if k % d.partitions == p then 1 else 0;
      }
    }
  }

  /** The log of a region enters the k-th region after it at partition k, counted round and round. */
  lemma {:induction false} EntryRotates(d: Deployment, home: nat, k: nat)
    requires Valid(d) && home < Regions(d) && k < Regions(d)
    ensures var region := if home + k < Regions(d) then home + k else home + k - Regions(d);
            Entry(d, home, region) == Machine(region, LEADER_REPLICA, k % d.partitions)
  {
    DistanceOf(d, home, if home + k < Regions(d) then home + k else home + k - Regions(d));
  }

  /** The entry points of the remote logs are spread over the partitions as evenly as possible. */
  lemma {:induction false} LogsBalanced(d: Deployment, region: nat, p: nat, q: nat)
    requires Valid(d) && region < Regions(d) && p < d.partitions && q < d.partitions
    ensures LogsAt(d, region, p, Regions(d)) <= LogsAt(d, region, q, Regions(d)) + 1
  {
    LogsAreHits(d, region, p, Regions(d));
    LogsAreHits(d, region, q, Regions(d));
    HitsClosed(Regions(d) - 1, d.partitions, p);
    HitsClosed(Regions(d) - 1, d.partitions, q);
  }
}
