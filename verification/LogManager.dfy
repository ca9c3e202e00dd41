/** What a machine's log manager does with one packet. */
module LogManagers {
  import opened Topology
  import opened Deployments
  import opened Fanout
  import L = LocalLogs
  import B = BatchLogs

  /** The logs of one machine, and what it has handed to its scheduler for each home region. */
  datatype LogState = LogState(local: L.LocalState, logs: map<nat, B.BatchState>, emitted: map<nat, seq<Batch>>)

  datatype Outcome = Outcome(state: LogState, sends: seq<Packet>)

  const Fresh := LogState(L.Empty, map[], map[])

  /** A home region's log springs into being on first use. */
  function LogOf(logs: map<nat, B.BatchState>, home: nat): B.BatchState {
    if home in logs then logs[home] else B.Empty
  }

  function EmittedOf(emitted: map<nat, seq<Batch>>, home: nat): seq<Batch> {
    if home in emitted then emitted[home] else []
  }

  /** The part of the batch that is the receiver's. */
  function Mine(d: Deployment, p: Packet): Result<Batch>
    requires p.payload.Data?
  {
    var shares := p.payload.shares;
    if FirstInReplica(p) then
      if |shares| == d.partitions && p.to.partition < |shares| then Success(shares[p.to.partition])
      else Failure("Check failed: batch_data_size() == num_partitions()")
    else if |shares| > 0 then Success(shares[|shares| - 1])
    else Failure("no share")
  }

  function Absorb(d: Deployment, st: LogState, p: Packet): Result<LogState> {
    var here := p.to.region;
    match p.payload
    case Ack(_, id, _) => Success(st.(logs := st.logs[here := B.Acked(LogOf(st.logs, here), id)]))
    case Data(generator, position, _) => AbsorbData(d, st, p)
    case LocalOrder(slot, generator, leader) =>
      (match L.SlotAdded(st.local, slot, L.SlotEntry(generator, leader))
       case Success(l) => Success(st.(local := l))
       case Failure(e) => Failure(e))
    case RemoteOrder(home, slot, id, _) =>
      match B.SlotAdded(LogOf(st.logs, home), slot, id, 0)
      case Success(b) => Success(st.(logs := st.logs[home := b]))
      case Failure(e) => Failure(e)
  }

  function AbsorbData(d: Deployment, st: LogState, p: Packet): Result<LogState>
    requires p.payload.Data?
  {
    var generator := p.payload.generator;
    match Mine(d, p)
    case Failure(e) => Failure(e)
    case Success(mine) =>
      var local :=
        if generator.region == p.to.region then L.BatchIdAdded(st.local, generator, p.payload.position, mine.id)
        else Success(st.local);
      match local
      case Success(l) =>
        var home := generator.region;
        Success(st.(local := l, logs := st.logs[home := B.BatchAdded(LogOf(st.logs, home), mine)]))
      case Failure(e) => Failure(e)
  }

  /** The receiver of a remote order tells the home region, if asked and if it is the entry point. */
  function Reply(p: Packet): seq<Packet> {
    match p.payload
    case RemoteOrder(home, _, id, needAck) =>
      if FirstInRegion(p) && needAck then [Packet(p.to, p.from, Ack(home, id, p.to.region))] else []
    case _ => []
  }

  /** The orders that the leader sends to the regions below `n`, with or without a wish for an answer. */
  function OrdersTo(d: Deployment, me: Machine, slot: nat, id: BatchId, n: nat, needAck: bool): seq<Packet>
    requires Valid(d) && me.region < Regions(d) && n <= Regions(d)
  {
    if n == 0 then []
    else
      var g := n - 1;
      OrdersTo(d, me, slot, id, n - 1, needAck) +
      if g != me.region && (g in Needed(d, me.region)) == needAck
      then [Packet(me, Entry(d, me.region, g), RemoteOrder(me.region, slot, id, needAck))] else []
  }

  function Orders(d: Deployment, me: Machine, slot: nat, id: BatchId): seq<Packet>
    requires Valid(d) && me.region < Regions(d)
  {
    OrdersTo(d, me, slot, id, Regions(d), false) + OrdersTo(d, me, slot, id, Regions(d), true)
  }

  /** Each slot of the local log has a leader, who replicates it to the other regions. */
  function Announce(d: Deployment, me: Machine, next: L.Ready): seq<Packet>
    requires Valid(d) && me.region < Regions(d)
  {
    if me == next.leader then Orders(d, me, next.slot, next.id) else []
  }

  /**
    What the receiver of `p` forwards and answers, in the order in which it sends it: the
    acknowledgement of a remote order goes out between the two rounds of forwarding.
  */
  function Responses(d: Deployment, p: Packet): seq<Packet>
    requires IsMachine(d, p.to)
  {
    if p.payload.RemoteOrder? then
      (if FirstInRegion(p) then ToReplicas(p.to, p.payload, d.replicas[p.to.region]) else []) + Reply(p) +
      (if FirstInReplica(p) then ToPartitions(p.to, p.payload, d.partitions) else [])
    else Forwards(d, p) + Reply(p)
  }

  /** The oldest ready local slot has moved to the region's own log, which is now `b`. */
  function PassedOn(st: LogState, here: nat, b: B.BatchState): LogState
    requires st.local.ready != []
  {
    st.(local := st.local.(ready := st.local.ready[1..]), logs := st.logs[here := b])
  }

  function SendingFirst(ps: seq<Packet>, r: Result<Outcome>): Result<Outcome> {
    match r
    case Failure(e) => Failure(e)
    case Success(o) => Success(o.(sends := ps + o.sends))
  }

  /** Local slots go into the region's own log; the leader also announces them to other regions. */
  function AdvanceLocal(d: Deployment, me: Machine, st: LogState): Result<Outcome>
    requires Valid(d) && me.region < Regions(d)
    decreases |st.local.ready|
  {
    if st.local.ready == [] then Success(Outcome(st, []))
    else
      var next := st.local.ready[0];
      match B.SlotAdded(LogOf(st.logs, me.region), next.slot, next.id, d.factor - 1)
      case Failure(e) => Failure(e)
      case Success(b) => SendingFirst(Announce(d, me, next), AdvanceLocal(d, me, PassedOn(st, me.region, b)))
  }

  /** Everything ready in a log is handed out. */
  function Drained(b: B.BatchState): (B.BatchState, seq<Batch>)
    decreases |b.ready|
  {
    if b.ready == [] || b.ready[0].id !in b.batches then (b, [])
    else
      var rest := Drained(B.Popped(b));
      (rest.0, [b.batches[b.ready[0].id]] + rest.1)
  }

  function AdvanceAll(st: LogState): LogState {
    st.(logs := map h | h in st.logs :: Drained(st.logs[h]).0,
        emitted := map h | h in st.logs.Keys + st.emitted.Keys ::
                     EmittedOf(st.emitted, h) + Drained(LogOf(st.logs, h)).1)
  }

  /** One handler call. */
  function Receive(d: Deployment, st: LogState, p: Packet): Result<Outcome>
    requires Valid(d) && IsMachine(d, p.to)
  {
    match Absorb(d, st, p)
    case Failure(e) => Failure(e)
    case Success(st1) =>
      match AdvanceLocal(d, p.to, st1)
      case Failure(e) => Failure(e)
      case Success(o) =>
        Success(Outcome(AdvanceAll(o.state), Forwards(d, p) + Reply(p) + o.sends))
  }
}
