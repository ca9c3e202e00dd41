/** How a generator sends a finished batch out. */
module Generation {
  import opened Topology
  import opened Deployments
  import opened Fanout
  import opened Exchange
  import opened Sending

  /** One share to each partition of the generator's own replica. */
  function OwnShares(g: Machine, position: nat, shares: seq<Batch>, n: nat): seq<Packet>
    requires n <= |shares|
  {
    if n == 0 then []
    else OwnShares(g, position, shares, n - 1) +
         [Packet(g, Machine(g.region, g.replica, n - 1), Data(g, position, [shares[n - 1]]))]
  }

  /** The partition of another region or replica that gets the whole batch. */
  function Gate(d: Deployment, position: nat, distance: nat, around: nat): nat
    requires d.partitions > 0 && around > 0
  {
    if d.rrr then position % d.partitions else distance % around % d.partitions
  }

  /** The whole batch to each other replica below `n`. */
  function ToOtherReplicas(d: Deployment, g: Machine, position: nat, shares: seq<Batch>, n: nat): seq<Packet>
    requires Valid(d) && IsMachine(d, g) && n <= d.replicas[g.region]
  {
    if n == 0 then []
    else ToOtherReplicas(d, g, position, shares, n - 1) +
         var around := d.replicas[g.region];
         if n - 1 == g.replica then []
         else [Packet(g, Machine(g.region, n - 1, Gate(d, position, n - 1 + around - g.replica, around)),
                      Data(g, position, shares))]
  }

  /** The whole batch to each region below `n`; inside the own region, to each other replica. */
  function ToRegions(d: Deployment, g: Machine, position: nat, shares: seq<Batch>, n: nat): seq<Packet>
    requires Valid(d) && IsMachine(d, g) && n <= Regions(d)
  {
    if n == 0 then []
    else ToRegions(d, g, position, shares, n - 1) +
         if n - 1 == g.region then ToOtherReplicas(d, g, position, shares, d.replicas[g.region])
         else [Packet(g, Machine(n - 1, 0, Gate(d, position, n - 1 + Regions(d) - g.region, Regions(d))),
                      Data(g, position, shares))]
  }

  function DataPackets(d: Deployment, g: Machine, position: nat, shares: seq<Batch>): seq<Packet>
    requires Valid(d) && IsMachine(d, g) && |shares| == d.partitions
  {
    OwnShares(g, position, shares, d.partitions) + ToRegions(d, g, position, shares, Regions(d))
  }

  lemma {:induction false} CountOwnShares(f: Measure, d: Deployment, g: Machine, position: nat, shares: seq<Batch>,
                                          n: nat, item: Item, x: Machine)
    requires Counts(f, d, item, x) && IsMachine(d, g) && n <= |shares| && n <= d.partitions
    ensures f(OwnShares(g, position, shares, n)) ==
            Bit(item == DataItem(g, position) && IsMachine(d, x)
                && x.region == g.region && x.replica == g.replica && x.partition < n)
  {
    if n > 0 {
      CountOwnShares(f, d, g, position, shares, n - 1, item, x);
    }
  }

  lemma {:induction false} CountOtherReplicas(f: Measure, d: Deployment, g: Machine, position: nat,
                                              shares: seq<Batch>, n: nat, item: Item, x: Machine)
    requires Counts(f, d, item, x) && Valid(d) && IsMachine(d, g) && n <= d.replicas[g.region]
    ensures f(ToOtherReplicas(d, g, position, shares, n)) ==
            Bit(item == DataItem(g, position) && IsMachine(d, x)
                && x.region == g.region && x.replica != g.replica && x.replica < n)
  {
    if n > 0 {
      CountOtherReplicas(f, d, g, position, shares, n - 1, item, x);
    }
  }

  lemma {:induction false} CountRegions(f: Measure, d: Deployment, g: Machine, position: nat, shares: seq<Batch>,
                                        n: nat, item: Item, x: Machine)
    requires Counts(f, d, item, x) && Valid(d) && IsMachine(d, g) && n <= Regions(d)
    ensures f(ToRegions(d, g, position, shares, n)) ==
            Bit(item == DataItem(g, position) && IsMachine(d, x)
                && x.region < n && (x.region == g.region ==> x.replica != g.replica))
  {
    if n > 0 {
      CountRegions(f, d, g, position, shares, n - 1, item, x);
      CountOtherReplicas(f, d, g, position, shares, d.replicas[g.region], item, x);
    }
  }

  /** A batch is sent so that it gets to every machine of the cluster, once. */
  lemma {:induction false} CountDataPackets(f: Measure, d: Deployment, g: Machine, position: nat, shares: seq<Batch>,
                                            item: Item, x: Machine)
    requires Counts(f, d, item, x) && Valid(d) && IsMachine(d, g) && |shares| == d.partitions
    ensures f(DataPackets(d, g, position, shares)) == Bit(item == DataItem(g, position) && IsMachine(d, x))
  {
    CountOwnShares(f, d, g, position, shares, d.partitions, item, x);
    CountRegions(f, d, g, position, shares, Regions(d), item, x);
  }

  /* ---------- The packets carry the right shares ---------- */

  lemma {:induction false} OwnSharesOk(d: Deployment, w: World, g: Machine, position: nat, n: nat)
    requires Valid(d) && Shaped(d, w) && IsMachine(d, g) && position < |w.made[g]|
    requires |w.made[g][position]| == d.partitions && n <= d.partitions
    ensures AllOk(d, w, OwnShares(g, position, w.made[g][position], n))
  {
    if n > 0 {
      OwnSharesOk(d, w, g, position, n - 1);
    }
  }

  lemma {:induction false} OtherReplicasOk(d: Deployment, w: World, g: Machine, position: nat, n: nat)
    requires Valid(d) && Shaped(d, w) && IsMachine(d, g) && position < |w.made[g]|
    requires |w.made[g][position]| == d.partitions && n <= d.replicas[g.region]
    ensures AllOk(d, w, ToOtherReplicas(d, g, position, w.made[g][position], n))
  {
    if n > 0 {
      OtherReplicasOk(d, w, g, position, n - 1);
    }
  }

  lemma {:induction false} ToRegionsOk(d: Deployment, w: World, g: Machine, position: nat, n: nat)
    requires Valid(d) && Shaped(d, w) && IsMachine(d, g) && position < |w.made[g]|
    requires |w.made[g][position]| == d.partitions && n <= Regions(d)
    ensures AllOk(d, w, ToRegions(d, g, position, w.made[g][position], n))
  {
    if n > 0 {
      ToRegionsOk(d, w, g, position, n - 1);
      OtherReplicasOk(d, w, g, position, d.replicas[g.region]);
    }
  }

  lemma {:induction false} DataPacketsOk(d: Deployment, w: World, g: Machine, position: nat)
    requires Valid(d) && Shaped(d, w) && IsMachine(d, g) && position < |w.made[g]|
    requires |w.made[g][position]| == d.partitions
    ensures AllOk(d, w, DataPackets(d, g, position, w.made[g][position]))
  {
    OwnSharesOk(d, w, g, position, d.partitions);
    ToRegionsOk(d, w, g, position, Regions(d));
  }
}
