/** One packet entering a region, and everything it sets off. */
module Spreading {
  import opened Topology
  import opened Counting
  import opened Deployments
  import opened Fanout

  /** Packets in flight, and packets received so far in order. */
  datatype State = State(net: seq<Packet>, got: seq<Packet>)

  function Next(d: Deployment, s: State, i: nat): State
    requires i < |s.net| && IsMachine(d, s.net[i].to)
  {
    State(s.net[..i] + s.net[i + 1..] + Forwards(d, s.net[i]), s.got + [s.net[i]])
  }

  /** The run that receives, one after the other, the packets at the given places. */
  ghost predicate Run(d: Deployment, first: Packet, picks: seq<nat>, states: seq<State>) {
    && |states| == |picks| + 1 && states[0] == State([first], [])
    && forall k :: 0 <= k < |picks| ==>
         picks[k] < |states[k].net| && IsMachine(d, states[k].net[picks[k]].to)
         && states[k + 1] == Next(d, states[k], picks[k])
  }

  function ReceivedAt(got: seq<Packet>, x: Machine): nat {
    if got == [] then 0 else ReceivedAt(got[..|got| - 1], x) + Bit(got[|got| - 1].to == x)
  }

  /** The share that the receiver keeps. */
  function Kept(p: Packet): Batch
    requires p.payload.Data? && |p.payload.shares| > 0
    requires FirstInReplica(p) ==> p.to.partition < |p.payload.shares|
  {
    if FirstInReplica(p) then p.payload.shares[p.to.partition] else p.payload.shares[|p.payload.shares| - 1]
  }

  /** `p` descends from `first`: same item, and full data or the receiver's own share. */
  ghost predicate Descends(d: Deployment, first: Packet, p: Packet) {
    && IsMachine(d, p.to) && WellSized(d, p) && ItemOf(p) == ItemOf(first)
    && (first.payload.Data? ==>
          p.payload.Data? && p.to.partition < |first.payload.shares| && Kept(p) == first.payload.shares[p.to.partition])
    && (FirstInReplica(p) ==> p.payload == first.payload)
    && (!first.payload.Data? ==> p.payload == first.payload)
  }

  ghost predicate Inv(d: Deployment, first: Packet, s: State) {
    && (forall i :: 0 <= i < |s.net| ==> Descends(d, first, s.net[i]))
    && (forall i :: 0 <= i < |s.got| ==> Descends(d, first, s.got[i]))
    && forall x :: Count(d, s.net, ItemOf(first), x) + ReceivedAt(s.got, x) == Bit(Reaches(d, first, x))
  }

  lemma {:induction false} CountRemove(d: Deployment, ps: seq<Packet>, i: nat, item: Item, x: Machine)
    requires i < |ps|
    ensures Count(d, ps, item, x) == Count(d, ps[..i] + ps[i + 1..], item, x) + Bit(ItemOf(ps[i]) == item && Reaches(d, ps[i], x))
  {
    CountAppend(d, ps[..i], ps[i + 1..], item, x);
    CountAppend(d, ps[..i], [ps[i]], item, x);
    CountAppend(d, ps[..i] + [ps[i]], ps[i + 1..], item, x);
    CountOne(d, ps[i], item, x);
    assert ps == ps[..i] + [ps[i]] + ps[i + 1..];
  }

  lemma {:induction false} ReplicasDescend(d: Deployment, first: Packet, p: Packet, n: nat)
    requires Descends(d, first, p) && FirstInRegion(p) && n <= d.replicas[p.to.region] && !p.payload.LocalOrder?
    ensures forall q :: q in ToReplicas(p.to, p.payload, n) ==> Descends(d, first, q)
  {
    if n > 0 {
      ReplicasDescend(d, first, p, n - 1);
    }
  }

  lemma {:induction false} PartitionsDescend(d: Deployment, first: Packet, p: Packet, n: nat)
    requires Descends(d, first, p) && n <= d.partitions && !p.payload.Data?
    ensures forall q :: q in ToPartitions(p.to, p.payload, n) ==> Descends(d, first, q)
  {
    if n > 0 {
      PartitionsDescend(d, first, p, n - 1);
    }
  }

  lemma {:induction false} SharesDescend(d: Deployment, first: Packet, p: Packet, n: nat)
    requires Descends(d, first, p) && p.payload.Data? && FirstInReplica(p) && n <= |p.payload.shares|
    ensures forall q :: q in SharesToPartitions(p.to, p.payload, n) ==> Descends(d, first, q)
  {
    if n > 0 {
      SharesDescend(d, first, p, n - 1);
    }
  }

  lemma {:induction false} ForwardsDescend(d: Deployment, first: Packet, p: Packet)
    requires Descends(d, first, p)
    ensures forall q :: q in Forwards(d, p) ==> Descends(d, first, q)
  {
    if FirstInRegion(p) && !p.payload.LocalOrder? {
      ReplicasDescend(d, first, p, d.replicas[p.to.region]);
    }
    if p.payload.Data? {
      if FirstInReplica(p) {
        SharesDescend(d, first, p, |p.payload.shares|);
      }
    } else {
      PartitionsDescend(d, first, p, d.partitions);
    }
  }

  lemma {:induction false} StepInv(d: Deployment, first: Packet, s: State, i: nat)
    requires Inv(d, first, s) && i < |s.net|
    ensures Inv(d, first, Next(d, s, i))
  {
    var p := s.net[i];
    var s' := Next(d, s, i);
    ForwardsDescend(d, first, p);
    forall x ensures Count(d, s'.net, ItemOf(first), x) + ReceivedAt(s'.got, x) == Bit(Reaches(d, first, x)) {
      CountRemove(d, s.net, i, ItemOf(first), x);
      CountAppend(d, s.net[..i] + s.net[i + 1..], Forwards(d, p), ItemOf(first), x);
      ForwardsPartition(d, p, ItemOf(first), x);
      assert s'.got[..|s'.got| - 1] == s.got;
    }
    forall k | 0 <= k < |s'.net| ensures Descends(d, first, s'.net[k]) {
      assert s'.net[k] in s.net || s'.net[k] in Forwards(d, p);
    }
  }

  lemma {:induction false} RunInv(d: Deployment, first: Packet, picks: seq<nat>, states: seq<State>, k: nat)
    requires Run(d, first, picks, states) && k < |states|
    requires IsMachine(d, first.to) && Entering(d, first)
    ensures Inv(d, first, states[k])
  {
    if k == 0 {
      forall x ensures Count(d, [first], ItemOf(first), x) == Bit(Reaches(d, first, x)) {
        assert [first][..0] == [];
      }
    } else {
      RunInv(d, first, picks, states, k - 1);
      StepInv(d, first, states[k - 1], picks[k - 1]);
    }
  }

  /** Batch data enters a replica whole. */
  predicate Entering(d: Deployment, p: Packet) {
    p.payload.Data? ==> FirstInReplica(p) && |p.payload.shares| == d.partitions
  }

  lemma {:induction false} ReceivedMember(got: seq<Packet>, k: nat, x: Machine)
    requires k < |got| && got[k].to == x
    ensures ReceivedAt(got, x) >= 1
  {
    if k < |got| - 1 {
      ReceivedMember(got[..|got| - 1], k, x);
    }
  }

  lemma {:induction false} ReceivedTwice(got: seq<Packet>, j: nat, k: nat)
    requires j < k < |got| && got[j].to == got[k].to
    ensures ReceivedAt(got, got[k].to) >= 2
  {
    if k == |got| - 1 {
      ReceivedMember(got[..|got| - 1], j, got[k].to);
    } else {
      ReceivedTwice(got[..|got| - 1], j, k);
    }
  }

  lemma {:induction false} ReceivedWitness(got: seq<Packet>, x: Machine) returns (k: nat)
    requires ReceivedAt(got, x) >= 1
    ensures k < |got| && got[k].to == x
  {
    if got[|got| - 1].to == x {
      k := |got| - 1;
    } else {
      k := ReceivedWitness(got[..|got| - 1], x);
    }
  }

  function Receivers(got: seq<Packet>): seq<Machine> {
    seq(|got|, i requires 0 <= i < |got| => got[i].to)
  }

  /**
    Exactly once: no machine ever receives the packet's item twice, so the spreading stops after
    at most as many receptions as the region has machines; what a machine keeps of a batch is its
    own share; and once nothing is in flight exactly the machines that the packet reaches have it.
  */
  lemma {:induction false} SpreadsOnce(d: Deployment, first: Packet, picks: seq<nat>, states: seq<State>, k: nat)
    requires Run(d, first, picks, states) && k < |states|
    requires IsMachine(d, first.to) && Entering(d, first)
    ensures Distinct(Receivers(states[k].got))
    ensures k <= |MachinesOf(d, first.to.region)|
    ensures forall i :: 0 <= i < |states[k].got| ==> Descends(d, first, states[k].got[i])
    ensures states[k].net == [] ==>
              forall x :: Reaches(d, first, x) <==> x in Receivers(states[k].got)
  {
    RunInv(d, first, picks, states, k);
    var s := states[k];
    var rs := Receivers(s.got);
    forall i, j | 0 <= i < j < |rs| ensures rs[i] != rs[j] {
      assert ReceivedAt(s.got, rs[j]) <= 1 by {
        assert Count(d, s.net, ItemOf(first), rs[j]) + ReceivedAt(s.got, rs[j]) == Bit(Reaches(d, first, rs[j]));
      }
      if rs[i] == rs[j] {
        ReceivedTwice(s.got, i, j);
      }
    }
    forall i | 0 <= i < |rs| ensures Reaches(d, first, rs[i]) {
      ReceivedMember(s.got, i, rs[i]);
      assert Count(d, s.net, ItemOf(first), rs[i]) + ReceivedAt(s.got, rs[i]) == Bit(Reaches(d, first, rs[i]));
    }
    DistinctSize(rs);
    SubsetSize(Elements(rs), MachinesOf(d, first.to.region));
    GotLength(d, first, picks, states, k);
    if s.net == [] {
      forall x | Reaches(d, first, x) ensures x in rs {
        assert Count(d, s.net, ItemOf(first), x) + ReceivedAt(s.got, x) == Bit(Reaches(d, first, x));
        var i := ReceivedWitness(s.got, x);
        assert rs[i] == x;
      }
    }
  }

  lemma {:induction false} GotLength(d: Deployment, first: Packet, picks: seq<nat>, states: seq<State>, k: nat)
    requires Run(d, first, picks, states) && k < |states|
    ensures |states[k].got| == k
  {
    if k > 0 {
      GotLength(d, first, picks, states, k - 1);
    }
  }

  /** What enters from another region reaches every machine of the region. */
  lemma {:induction false} EntersWholeRegion(d: Deployment, first: Packet, x: Machine)
    requires FirstInRegion(first) && !first.payload.LocalOrder?
    ensures Reaches(d, first, x) <==> IsMachine(d, x) && x.region == first.to.region
  {
  }
}
