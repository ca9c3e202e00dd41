/** The log manager as the source has it: handlers that update the logs in place. */
module LogManagerModule {
  import opened Topology
  import opened Deployments
  import opened Fanout
  import opened LogManagers
  import L = LocalLogs
  import B = BatchLogs

  /** The same payload to each of the targets. */
  function Sends(from: Machine, targets: seq<Machine>, payload: Payload): seq<Packet> {
    seq(|targets|, i requires 0 <= i < |targets| => Packet(from, targets[i], payload))
  }

  lemma {:induction false} SendsAppend(from: Machine, targets: seq<Machine>, last: Machine, payload: Payload)
    ensures Sends(from, targets + [last], payload) == Sends(from, targets, payload) + [Packet(from, last, payload)]
  {
  }

  function HomeDrained(st: LogState, home: nat): LogState
    requires home in st.logs
  {
    st.(logs := st.logs[home := Drained(st.logs[home]).0],
        emitted := st.emitted[home := EmittedOf(st.emitted, home) + Drained(st.logs[home]).1])
  }

  /** Nothing of home region `h` is left to hand out. */
  predicate AtEnd(st: LogState, h: nat)
    requires h in st.logs
  {
    h in st.emitted && Drained(st.logs[h]) == (st.logs[h], [])
  }

  lemma {:induction false} DrainedTwice(b: B.BatchState)
    ensures Drained(Drained(b).0) == (Drained(b).0, [])
    decreases |b.ready|
  {
    if b.ready != [] && b.ready[0].id in b.batches {
      DrainedTwice(B.Popped(b));
    }
  }

  lemma {:induction false} AllEmpty<T>(all: seq<T>)
    ensures all + [] == all
  {
  }

  lemma {:induction false} HomeDrainedAt(st: LogState, st': LogState, home: nat, h: nat)
    requires home in st.logs && st' == HomeDrained(st, home)
    ensures Drained(LogOf(st'.logs, h)).0 == Drained(LogOf(st.logs, h)).0
    ensures EmittedOf(st'.emitted, h) + Drained(LogOf(st'.logs, h)).1 == EmittedOf(st.emitted, h) + Drained(LogOf(st.logs, h)).1
  {
    if h == home {
      DrainedTwice(st.logs[home]);
      AllEmpty(EmittedOf(st.emitted, h) + Drained(st.logs[h]).1);
    } else {
      assert LogOf(st'.logs, h) == LogOf(st.logs, h) && EmittedOf(st'.emitted, h) == EmittedOf(st.emitted, h);
    }
  }

  lemma {:induction false} SameLogs(st: LogState, st': LogState, home: nat)
    requires home in st.logs && st' == HomeDrained(st, home)
    ensures AdvanceAll(st').logs == AdvanceAll(st).logs
  {
    var a, b := AdvanceAll(st').logs, AdvanceAll(st).logs;
    assert a.Keys == b.Keys;
    forall h | h in b ensures a[h] == b[h] {
      HomeDrainedAt(st, st', home, h);
      assert a[h] == Drained(LogOf(st'.logs, h)).0 && b[h] == Drained(LogOf(st.logs, h)).0;
    }
  }

  lemma {:induction false} SameEmitted(st: LogState, st': LogState, home: nat)
    requires home in st.logs && st' == HomeDrained(st, home)
    ensures AdvanceAll(st').emitted == AdvanceAll(st).emitted
  {
    var a, b := AdvanceAll(st').emitted, AdvanceAll(st).emitted;
    assert a.Keys == b.Keys;
    forall h | h in b ensures a[h] == b[h] {
      HomeDrainedAt(st, st', home, h);
    }
  }

  /** Draining one log leaves to be done what was to be done, less that log. */
  lemma {:induction false} HomeDrainedKeeps(st: LogState, st': LogState, home: nat)
    requires home in st.logs && st' == HomeDrained(st, home)
    ensures AdvanceAll(st') == AdvanceAll(st) && AtEnd(st', home)
    ensures forall h :: h in st.logs && h != home && AtEnd(st, h) ==> AtEnd(st', h)
  {
    DrainedTwice(st.logs[home]);
    SameLogs(st, st', home);
    SameEmitted(st, st', home);
  }

  lemma {:induction false} AllAtEnd(st: LogState)
    requires forall h :: h in st.logs ==> AtEnd(st, h)
    ensures AdvanceAll(st) == st
  {
    var a := AdvanceAll(st);
    assert a.logs == st.logs;
    forall h | h in a.emitted ensures h in st.emitted && a.emitted[h] == st.emitted[h] {
      assert h !in st.logs ==> Drained(LogOf(st.logs, h)).1 == [];
      assert EmittedOf(st.emitted, h) + [] == EmittedOf(st.emitted, h);
    }
    assert a.emitted == st.emitted;
  }

  /** The other partitions of a replica, in order. */
  method OtherPartitions(me: Machine, n: nat) returns (others: seq<Machine>)
    ensures forall payload :: Sends(me, others, payload) == ToPartitions(me, payload, n)
    ensures forall m: Machine :: m in others <==>
              m.region == me.region && m.replica == me.replica && m.partition != me.partition && m.partition < n
  {
    others := [];
    var p := 0;
    while p < n
      invariant p <= n
      invariant forall payload :: Sends(me, others, payload) == ToPartitions(me, payload, p)
      invariant forall m: Machine :: m in others <==>
                  m.region == me.region && m.replica == me.replica && m.partition != me.partition && m.partition < p
    {
      if p != me.partition {
        ghost var before := others;
        others := others + [Machine(me.region, me.replica, p)];
        forall payload ensures Sends(me, others, payload) == ToPartitions(me, payload, p + 1) {
          SendsAppend(me, before, Machine(me.region, me.replica, p), payload);
        }
      } else {
        assert forall payload :: ToPartitions(me, payload, p + 1) == ToPartitions(me, payload, p);
      }
      p := p + 1;
    }
  }

  /** The same partition of the other replicas of a region, in order. */
  method OtherReplicas(me: Machine, n: nat) returns (others: seq<Machine>)
    ensures forall payload :: Sends(me, others, payload) == ToReplicas(me, payload, n)
    ensures forall m: Machine :: m in others <==>
              m.region == me.region && m.partition == me.partition && m.replica != me.replica && m.replica < n
  {
    others := [];
    var r := 0;
    while r < n
      invariant r <= n
      invariant forall payload :: Sends(me, others, payload) == ToReplicas(me, payload, r)
      invariant forall m: Machine :: m in others <==>
                  m.region == me.region && m.partition == me.partition && m.replica != me.replica && m.replica < r
    {
      if r != me.replica {
        ghost var before := others;
        others := others + [Machine(me.region, r, me.partition)];
        forall payload ensures Sends(me, others, payload) == ToReplicas(me, payload, r + 1) {
          SendsAppend(me, before, Machine(me.region, r, me.partition), payload);
        }
      } else {
        assert forall payload :: ToReplicas(me, payload, r + 1) == ToReplicas(me, payload, r);
      }
      r := r + 1;
    }
  }

  /** The regions whose acknowledgements a machine waits for: the first factor - 1 of the order. */
  method NeedAckFrom(d: Deployment, home: nat) returns (need: set<nat>)
    requires Valid(d) && home < Regions(d)
    ensures need == Needed(d, home)
    ensures forall g :: g in need <==>
              exists i :: 0 <= i < |d.order[home]| && i < d.factor - 1 && d.order[home][i] == g
  {
    var order := d.order[home];
    var limit := if |order| < d.factor - 1 then |order| else d.factor - 1;
    need := {};
    var k := 0;
    while k < limit
      invariant k <= limit
      invariant need == set g | g in order[..k]
    {
      assert order[..k + 1] == order[..k] + [order[k]];
      need := need + {order[k]};
      k := k + 1;
    }
    forall g ensures g in need <==> exists i :: 0 <= i < |order| && i < d.factor - 1 && order[i] == g {
      NeededIs(d, home, g);
    }
  }

  class LogManager {
    const d: Deployment
    const me: Machine
    var otherPartitions: seq<Machine>
    var otherReplicas: seq<Machine>
    var needAckFrom: set<nat>
    var local: L.LocalState
    var logs: map<nat, B.BatchState>
    var emitted: map<nat, seq<Batch>>

    ghost predicate Ready()
      reads this
    {
      && Valid(d) && IsMachine(d, me)
      && (forall payload :: Sends(me, otherPartitions, payload) == ToPartitions(me, payload, d.partitions))
      && (forall payload :: Sends(me, otherReplicas, payload) == ToReplicas(me, payload, d.replicas[me.region]))
      && needAckFrom == Needed(d, me.region)
    }

    function State(): LogState
      reads this
    {
      LogState(local, logs, emitted)
    }

    constructor (d: Deployment, me: Machine)
      requires Valid(d) && IsMachine(d, me)
      ensures this.d == d && this.me == me && Ready() && State() == Fresh
      ensures forall m: Machine :: m in otherPartitions <==>
                IsMachine(d, m) && m.region == me.region && m.replica == me.replica && m.partition != me.partition
      ensures forall m: Machine :: m in otherReplicas <==>
                IsMachine(d, m) && m.region == me.region && m.replica != me.replica && m.partition == me.partition
      ensures forall g :: g in needAckFrom <==>
                exists i :: 0 <= i < |d.order[me.region]| && i < d.factor - 1 && d.order[me.region][i] == g
    {
      this.d, this.me := d, me;
      local, logs, emitted := L.Empty, map[], map[];
      otherPartitions, otherReplicas, needAckFrom := [], [], {};
      new;
      otherPartitions := OtherPartitions(me, d.partitions);
      otherReplicas := OtherReplicas(me, d.replicas[me.region]);
      needAckFrom := NeedAckFrom(d, me.region);
    }

    method ProcessBatchReplicationAck(p: Packet) returns (sends: seq<Packet>)
      requires Ready() && p.to == me && p.payload.Ack?
      modifies this`logs
      ensures Absorb(d, old(State()), p) == Success(State()) && sends == Forwards(d, p)
    {
      sends := [];
      if p.from.region != me.region {
        sends := sends + Sends(me, otherReplicas, p.payload);
      }
      if p.from.region != me.region || p.from.replica != me.replica {
        sends := sends + Sends(me, otherPartitions, p.payload);
      }
      logs := logs[me.region := B.Acked(LogOf(logs, me.region), p.payload.id)];
    }

    /** The receiver's share of a batch, and the packets that carry the others to their partitions. */
    method Distribute(p: Packet) returns (mine: Batch, sends: seq<Packet>)
      requires Ready() && p.to == me && p.payload.Data? && |p.payload.shares| == d.partitions
      ensures mine == p.payload.shares[me.partition]
      ensures sends == SharesToPartitions(me, p.payload, d.partitions)
    {
      var shares := p.payload.shares;
      var k: nat := d.partitions;
      mine, sends := shares[me.partition], [];
      assert [] + SharesToPartitions(me, p.payload, k) == SharesToPartitions(me, p.payload, k);
      while k > 0
        invariant k <= d.partitions && mine == shares[me.partition]
        invariant SharesToPartitions(me, p.payload, d.partitions) == sends + SharesToPartitions(me, p.payload, k)
      {
        k := k - 1;
        if k == me.partition {
          mine := shares[k];
          assert SharesToPartitions(me, p.payload, k + 1) == SharesToPartitions(me, p.payload, k);
        } else {
          var packet := Packet(me, Machine(me.region, me.replica, k), p.payload.(shares := [shares[k]]));
          assert SharesToPartitions(me, p.payload, k + 1) == [packet] + SharesToPartitions(me, p.payload, k);
          sends := sends + [packet];
        }
      }
      assert sends + [] == sends;
    }

    /** Puts the receiver's share into the logs; fails where the source throws. */
    method AddData(generator: Machine, position: nat, mine: Batch) returns (error: string, ok: bool)
      modifies this`local, this`logs
      ensures var l := if generator.region == me.region then L.BatchIdAdded(old(local), generator, position, mine.id)
                       else Success(old(local));
              && ok == l.Success?
              && (ok ==> local == l.value
                         && logs == old(logs)[generator.region := B.BatchAdded(LogOf(old(logs), generator.region), mine)])
              && (!ok ==> error == l.error)
    {
      error, ok := "", true;
      if generator.region == me.region {
        match L.BatchIdAdded(local, generator, position, mine.id) {
          case Success(l) => local := l;
          case Failure(e) => error, ok := e, false; return;
        }
      }
      logs := logs[generator.region := B.BatchAdded(LogOf(logs, generator.region), mine)];
    }

    method ProcessForwardBatchData(p: Packet) returns (r: Result<seq<Packet>>)
      requires Ready() && p.to == me && p.payload.Data?
      modifies this`local, this`logs
      ensures match Absorb(d, old(State()), p)
              case Success(st) => State() == st && r == Success(Forwards(d, p))
              case Failure(e) => r == Failure(e)
    {
      var sends := [];
      if p.from.region != me.region {
        sends := Sends(me, otherReplicas, p.payload);
      }
      var mine;
      if p.from.region != me.region || p.from.replica != me.replica {
        if |p.payload.shares| != d.partitions {
          return Failure("Check failed: batch_data_size() == num_partitions()");
        }
        var shares;
        mine, shares := Distribute(p);
        sends := sends + shares;
      } else {
        if |p.payload.shares| == 0 {
          return Failure("no share");
        }
        mine := p.payload.shares[|p.payload.shares| - 1];
        assert sends + [] == sends;
      }
      var error, ok := AddData(p.payload.generator, p.payload.position, mine);
      r := if ok then Success(sends) else Failure(error);
    }

    method ProcessLocalBatchOrder(p: Packet) returns (r: Result<seq<Packet>>)
      requires Ready() && p.to == me && p.payload.LocalOrder?
      modifies this`local
      ensures match Absorb(d, old(State()), p)
              case Success(st) => State() == st && r == Success(Forwards(d, p))
              case Failure(e) => r == Failure(e)
    {
      var entry := L.SlotEntry(p.payload.generator, p.payload.leader);
      match L.SlotAdded(local, p.payload.slot, entry) {
        case Success(l) =>
          local := l;
        case Failure(e) =>
          return Failure(e);
      }
      var sends := [];
      if p.payload.leader.replica != me.replica && p.from.partition == me.partition {
        sends := Sends(me, otherPartitions, p.payload);
      }
      r := Success(sends);
    }

    /** The acknowledgement goes out between the two rounds of forwarding. */
    method ProcessRemoteBatchOrder(p: Packet) returns (r: Result<seq<Packet>>)
      requires Ready() && p.to == me && p.payload.RemoteOrder?
      modifies this`logs
      ensures match Absorb(d, old(State()), p)
              case Success(st) => State() == st && r == Success(Responses(d, p))
              case Failure(e) => r == Failure(e)
    {
      var home := p.payload.home;
      var replicas, reply, partitions := [], [], [];
      if p.from.region != me.region {
        replicas := Sends(me, otherReplicas, p.payload);
        if p.payload.needAck {
          reply := [Packet(me, p.from, Ack(home, p.payload.id, me.region))];
        }
      }
      if p.from.region != me.region || p.from.replica != me.replica {
        partitions := Sends(me, otherPartitions, p.payload);
      }
      match B.SlotAdded(LogOf(logs, home), p.payload.slot, p.payload.id, 0) {
        case Success(b) =>
          logs := logs[home := b];
        case Failure(e) =>
          return Failure(e);
      }
      assert Reply(p) == reply;
      r := Success(replicas + reply + partitions);
    }

    /* ---------- Advancing the logs ---------- */

    method Orders(slot: nat, id: BatchId) returns (sends: seq<Packet>)
      requires Ready()
      ensures sends == LogManagers.Orders(d, me, slot, id)
    {
      var destinations, ackDestinations := [], [];
      var g := 0;
      while g < |d.replicas|
        invariant g <= |d.replicas|
        invariant Sends(me, destinations, RemoteOrder(me.region, slot, id, false)) == OrdersTo(d, me, slot, id, g, false)
        invariant Sends(me, ackDestinations, RemoteOrder(me.region, slot, id, true)) == OrdersTo(d, me, slot, id, g, true)
      {
        if g != me.region {
          if g in needAckFrom {
            SendsAppend(me, ackDestinations, Entry(d, me.region, g), RemoteOrder(me.region, slot, id, true));
            ackDestinations := ackDestinations + [Entry(d, me.region, g)];
          } else {
            SendsAppend(me, destinations, Entry(d, me.region, g), RemoteOrder(me.region, slot, id, false));
            destinations := destinations + [Entry(d, me.region, g)];
          }
        }
        g := g + 1;
      }
      sends := Sends(me, destinations, RemoteOrder(me.region, slot, id, false))
               + Sends(me, ackDestinations, RemoteOrder(me.region, slot, id, true));
    }

    /** One round: the oldest ready local slot moves to the region's own log. */
    method PassOn() returns (r: Result<seq<Packet>>)
      requires Ready() && local.ready != []
      modifies this`local, this`logs
      ensures var next := old(local).ready[0];
              match B.SlotAdded(LogOf(old(logs), me.region), next.slot, next.id, d.factor - 1)
              case Success(b) => State() == PassedOn(old(State()), me.region, b) && r == Success(Announce(d, me, next))
              case Failure(e) => r == Failure(e)
    {
      var next := local.ready[0];
      var sends := [];
      if me == next.leader {
        sends := Orders(next.slot, next.id);
      }
      match B.SlotAdded(LogOf(logs, me.region), next.slot, next.id, d.factor - 1) {
        case Success(b) =>
          local := local.(ready := local.ready[1..]);
          logs := logs[me.region := b];
        case Failure(e) =>
          return Failure(e);
      }
      r := Success(sends);
    }

    method AdvanceLocalLog() returns (r: Result<seq<Packet>>)
      requires Ready()
      modifies this`local, this`logs
      ensures match AdvanceLocal(d, me, old(State()))
              case Success(o) => State() == o.state && r == Success(o.sends)
              case Failure(e) => r == Failure(e)
    {
      var sends: seq<Packet> := [];
      SendingNothing(AdvanceLocal(d, me, State()));
      while local.ready != []
        invariant Ready()
        invariant AdvanceLocal(d, me, old(State())) == SendingFirst(sends, AdvanceLocal(d, me, State()))
        decreases |local.ready|
      {
        ghost var st, next := State(), local.ready[0];
        var passed := PassOn();
        AdvanceLocalUnrolled(d, me, st, B.SlotAdded(LogOf(st.logs, me.region), next.slot, next.id, d.factor - 1));
        if passed.Failure? {
          return Failure(passed.error);
        }
        SendingMore(sends, passed.value, sends + passed.value, AdvanceLocal(d, me, State()));
        sends := sends + passed.value;
      }
      assert sends + [] == sends;
      r := Success(sends);
    }

    /** Hands out everything that is ready in the log of `home`. */
    method Drain(home: nat)
      requires home in logs
      modifies this`logs, this`emitted
      ensures State() == HomeDrained(old(State()), home)
    {
      var log, out := logs[home], [];
      assert [] + Drained(log).1 == Drained(log).1;
      while log.ready != [] && log.ready[0].id in log.batches
        invariant Drained(logs[home]).0 == Drained(log).0
        invariant Drained(logs[home]).1 == out + Drained(log).1
        decreases |log.ready|
      {
        var next := log.batches[log.ready[0].id];
        assert out + ([next] + Drained(B.Popped(log)).1) == out + [next] + Drained(B.Popped(log)).1;
        out := out + [next];
        log := B.Popped(log);
      }
      assert out + [] == out;
      logs := logs[home := log];
      emitted := emitted[home := EmittedOf(emitted, home) + out];
    }

    /** Drains every log; the order of the logs does not matter. */
    method DrainAll()
      modifies this`logs, this`emitted
      ensures State() == AdvanceAll(old(State()))
    {
      var left := logs.Keys;
      while left != {}
        invariant left <= logs.Keys && logs.Keys == old(logs).Keys && local == old(local)
        invariant AdvanceAll(State()) == AdvanceAll(old(State()))
        invariant forall h :: h in logs && h !in left ==> AtEnd(State(), h)
        decreases |left|
      {
        var home: nat :| home in left;
        ghost var st := State();
        Drain(home);
        HomeDrainedKeeps(st, State(), home);
        left := left - {home};
      }
      AllAtEnd(State());
    }

    /** Drains the local log into the region's own, then every log to the scheduler. */
    method AdvanceLog() returns (r: Result<seq<Packet>>)
      requires Ready()
      modifies this`local, this`logs, this`emitted
      ensures match AdvanceLocal(d, me, old(State()))
              case Success(o) => State() == AdvanceAll(o.state) && r == Success(o.sends)
              case Failure(e) => r == Failure(e)
    {
      r := AdvanceLocalLog();
      if r.Success? {
        DrainAll();
      }
    }

    /** One handler call; it throws exactly where `Receive` fails. */
    method OnInternalRequestReceived(p: Packet) returns (r: Result<seq<Packet>>)
      requires Ready() && p.to == me
      modifies this`local, this`logs, this`emitted
      ensures match Receive(d, old(State()), p)
              case Success(o) =>
                && State() == o.state && r.Success? && multiset(r.value) == multiset(o.sends)
                && r.value == Responses(d, p) + o.sends[|Responses(d, p)|..]
              case Failure(e) => r == Failure(e)
    {
      ResponsesAre(d, p);
      r := Process(p);
      if r.Success? {
        var forwarded := r.value;
        var advanced := AdvanceLog();
        if advanced.Failure? {
          return Failure(advanced.error);
        }
        r := Success(forwarded + advanced.value);
      }
    }

    /** The part of a handler call that takes the packet in. */
    method Process(p: Packet) returns (r: Result<seq<Packet>>)
      requires Ready() && p.to == me
      modifies this`local, this`logs
      ensures match Absorb(d, old(State()), p)
              case Success(st) => State() == st && r == Success(Responses(d, p))
              case Failure(e) => r == Failure(e)
    {
      assert Forwards(d, p) + [] == Forwards(d, p);
      match p.payload {
        case Ack(_, _, _) =>
          var sends := ProcessBatchReplicationAck(p);
          r := Success(sends);
        case Data(_, _, _) =>
          r := ProcessForwardBatchData(p);
        case LocalOrder(_, _, _) =>
          r := ProcessLocalBatchOrder(p);
        case RemoteOrder(_, _, _, _) =>
          r := ProcessRemoteBatchOrder(p);
      }
    }
  }

  /** The order apart, a machine sends the forwarded packets and its reply. */
  lemma {:induction false} ResponsesAre(d: Deployment, p: Packet)
    requires IsMachine(d, p.to)
    ensures |Responses(d, p)| == |Forwards(d, p) + Reply(p)|
    ensures multiset(Responses(d, p)) == multiset(Forwards(d, p) + Reply(p))
  {
  }

  lemma {:induction false} SendingNothing(r: Result<Outcome>)
    ensures SendingFirst([], r) == r
  {
    if r.Success? {
      assert [] + r.value.sends == r.value.sends;
    }
  }

  lemma {:induction false} AdvanceLocalUnrolled(d: Deployment, me: Machine, st: LogState, r: Result<B.BatchState>)
    requires Valid(d) && me.region < Regions(d) && st.local.ready != []
    requires r == B.SlotAdded(LogOf(st.logs, me.region), st.local.ready[0].slot, st.local.ready[0].id, d.factor - 1)
    ensures AdvanceLocal(d, me, st) ==
            match r
            case Failure(e) => Failure(e)
            case Success(b) =>
              SendingFirst(Announce(d, me, st.local.ready[0]), AdvanceLocal(d, me, PassedOn(st, me.region, b)))
  {
  }

  lemma {:induction false} SendingMore(sent: seq<Packet>, more: seq<Packet>, all: seq<Packet>, r: Result<Outcome>)
    requires all == sent + more
    ensures SendingFirst(all, r) == SendingFirst(sent, SendingFirst(more, r))
  {
    if r.Success? {
      assert sent + more + r.value.sends == sent + (more + r.value.sends);
    }
  }
}
