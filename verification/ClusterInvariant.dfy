/** What every step of the cluster keeps. */
module ClusterInvariant {
  import opened Topology
  import opened Counting
  import opened Deployments
  import opened Fanout
  import opened LogManagers
  import opened LogNodes
  import opened RegionOrders
  import opened Exchange
  import opened Receptions
  import opened Sending
  import opened Generation
  import opened Growth
  import opened Clusters
  import P = PaxosSystem
  import PaxosRoles
  import PaxosRest
  import L = LocalLogs
  import B = BatchLogs

  /** Every machine knows only what is the case. */
  ghost predicate Knowledge(d: Deployment, w: World)
    requires Valid(d) && Shaped(d, w)
  {
    && MadeOk(d, w.made)
    && forall m {:trigger SeenOk(d, w, m, w.seen[m])} :: IsMachine(d, m) ==> SeenOk(d, w, m, w.seen[m])
  }

  ghost predicate Traffic(d: Deployment, w: World, net: seq<Packet>)
    requires Valid(d) && Shaped(d, w)
  {
    AllOk(d, w, net) && Tokens(d, w, LoadOf(d, net))
  }

  /** One proposal for each batch generated, and no others. */
  ghost predicate TicketsOk(d: Deployment, tickets: seq<PaxosRoles.Value>, made: map<Machine, seq<seq<Batch>>>, g: nat) {
    && (forall v :: v in tickets ==> v.FromGenerator? && IsMachine(d, v.machine) && v.machine.region == g)
    && (forall m :: m in made && m.region == g ==> multiset(tickets)[PaxosRoles.FromGenerator(m)] == |made[m]|)
  }

  ghost predicate AllTickets(d: Deployment, c: Cluster) {
    forall g :: 0 <= g < |c.groups| ==> TicketsOk(d, c.groups[g].hist.tickets, c.made, g)
  }

  /** All of the invariant but the state of the log managers. */
  ghost predicate Sound(d: Deployment, c: Cluster) {
    && Valid(d) && GroupsOk(d, c.groups) && AllTickets(d, c)
    && Shaped(d, View(c)) && Knowledge(d, View(c)) && Traffic(d, View(c), c.net)
  }

  ghost predicate Inv(d: Deployment, c: Cluster) {
    Sound(d, c) && Peopled(d, c) && NodesOk(d, c)
  }

  lemma {:induction false} ViewShaped(d: Deployment, c: Cluster)
    requires |c.groups| == Regions(d) && Peopled(d, c)
    ensures Shaped(d, View(c))
  {
  }

  /* ---------- A log manager takes a packet ---------- */

  lemma {:induction false} PacketMeansMissing(f: Measure, d: Deployment, w: World, before: seq<Packet>, p: Packet,
                                              after: seq<Packet>)
    requires Counts(f, d, ItemOf(p), p.to) && Valid(d) && Shaped(d, w) && IsMachine(d, p.to)
    requires f(before + [p] + after) + Bit(Has(w.seen[p.to], p.to, ItemOf(p))) == Bit(Due(d, w, p.to, ItemOf(p)))
    ensures !Has(w.seen[p.to], p.to, ItemOf(p))
  {
    assert Reaches(d, p, p.to);
  }

  lemma {:induction false} ReceivedIsNew(d: Deployment, w: World, st: LogState, net: seq<Packet>, i: nat)
    requires Valid(d) && Shaped(d, w) && Knowledge(d, w) && Traffic(d, w, net) && i < |net|
    requires PacketOk(d, w, net[i]) && NodeOk(d, net[i].to, st, w.seen[net[i].to])
    ensures NewTo(d, w.seen[net[i].to], net[i]) && !Has(w.seen[net[i].to], net[i].to, ItemOf(net[i]))
  {
    var p := net[i];
    CounterCounts(d, ItemOf(p), p.to);
    SplitAt(net, i);
    assert LoadOf(d, net)(ItemOf(p), p.to) == Counter(d, ItemOf(p), p.to)(net);
    PacketMeansMissing(Counter(d, ItemOf(p), p.to), d, w, net[..i], p, net[i + 1..]);
    NodeInverted(d, p.to, st, w.seen[p.to]);
    IsNew(d, w, w.seen[p.to], p);
  }

  /** The newly paired slots follow the first `n` and are those of the region's order. */
  ghost predicate NewsInOrder(w: World, h: nat, news: seq<L.Ready>, n: nat)
    requires h < |w.ords|
  {
    forall i :: 0 <= i < |news| ==>
      && news[i].slot == n + i && news[i].leader == LeaderAt(h)
      && news[i].slot < |w.ords[h]| && news[i].id == Common(w.ords[h], news[i].slot)
  }

  /** The newly paired slots are those of the region's order. */
  lemma {:induction false} NewsOk(ord: seq<Machine>, leader: Machine, a: L.Arrivals, news: seq<L.Ready>, n: nat)
    requires SlotsAgree(a.slots, ord, leader) && IdsOk(a) && PairedFrom(a, news, n)
    requires forall t :: 0 <= t < n + |news| ==> L.Complete(a, t)
    ensures forall i :: 0 <= i < |news| ==>
              && news[i].slot == n + i && news[i].leader == leader
              && news[i].slot < |ord| && news[i].id == Common(ord, news[i].slot)
  {
    forall i | 0 <= i < |news|
      ensures news[i].slot == n + i && news[i].leader == leader
      ensures news[i].slot < |ord| && news[i].id == Common(ord, news[i].slot)
    {
      forall t | 0 <= t < n + i ensures t in a.slots {
        assert L.Complete(a, t);
      }
      PairedIsCommon(a, ord, leader, n + i);
    }
  }

  lemma {:induction false} NodeNews(d: Deployment, m: Machine, st: LogState, s: Seen, ord: seq<Machine>,
                                    news: seq<L.Ready>, n: nat)
    requires Valid(d) && NodeOk(d, m, st, s) && SlotsAgree(s.local.slots, ord, LeaderAt(m.region))
    requires PairedFrom(s.local, news, n) && n + |news| == st.local.slots.next
    ensures forall i :: 0 <= i < |news| ==>
              && news[i].slot == n + i && news[i].leader == LeaderAt(m.region)
              && news[i].slot < |ord| && news[i].id == Common(ord, news[i].slot)
  {
    ReadyIsPaired(st.local, s.local, SeenOf(s.logs, m.region), st.local.slots.next);
    NewsOk(ord, LeaderAt(m.region), s.local, news, n);
  }

  lemma {:induction false} SameOrders(d: Deployment, w: World, w': World, m: Machine, s: Seen, sent: nat)
    requires Valid(d) && Shaped(d, w) && IsMachine(d, m) && w' == Receptions.After(w, m, s, sent)
    ensures Shaped(d, w') && w'.ords == w.ords && w'.made == w.made
    ensures forall p :: PacketOk(d, w, p) ==> PacketOk(d, w', p)
    ensures forall x, s' :: IsMachine(d, x) && SeenOk(d, w, x, s') ==> SeenOk(d, w', x, s')
  {
  }

  lemma {:induction false} KnowledgeReceive(d: Deployment, w: World, w': World, st: LogState, s': Seen, p: Packet,
                                            sent: nat)
    requires Valid(d) && Shaped(d, w) && PacketOk(d, w, p) && Knowledge(d, w) && Absorb(d, st, p).Success?
    requires s' == SeenAfter(d, st, w.seen[p.to], p) && w' == Receptions.After(w, p.to, s', sent)
    ensures SeenOk(d, w, p.to, s') && Shaped(d, w') && Knowledge(d, w')
  {
    var m := p.to;
    ObservedOk(d, w, w.seen[m], p);
    ReadyKeepsOk(d, w, m, Observe(d, w.seen[m], p), Absorb(d, st, p).value.local.ready);
    SameOrders(d, w, w', m, s', sent);
  }

  lemma {:induction false} SendsOk(d: Deployment, w: World, p: Packet, news: seq<L.Ready>, n: nat)
    requires Valid(d) && Shaped(d, w) && PacketOk(d, w, p)
    requires NewsInOrder(w, p.to.region, news, n)
    ensures AllOk(d, w, Forwards(d, p) + Reply(p) + Announcements(d, p.to, news))
  {
    ForwardsOk(d, w, p);
    ReplyOk(d, w, p);
    AnnouncementsOk(d, w, p.to, news);
  }

  lemma {:induction false} OkReceive(d: Deployment, w: World, w': World, net: seq<Packet>, net': seq<Packet>, i: nat,
                                     sends: seq<Packet>)
    requires Valid(d) && Shaped(d, w) && Shaped(d, w') && AllOk(d, w, net) && AllOk(d, w, sends) && i < |net|
    requires (forall q :: PacketOk(d, w, q) ==> PacketOk(d, w', q)) && net' == net[..i] + net[i + 1..] + sends
    ensures AllOk(d, w', net')
  {
    forall q | q in net' ensures PacketOk(d, w', q) {
      assert q in net || q in sends;
      assert PacketOk(d, w, q);
    }
  }

  /** What the handler's packets change of everything that is on its way. */
  lemma {:induction false} LoadReceive(d: Deployment, net: seq<Packet>, net': seq<Packet>, i: nat, p: Packet,
                                       sends: seq<Packet>, news: seq<L.Ready>, n: nat, sent: nat)
    requires Valid(d) && IsMachine(d, p.to) && WellSized(d, p) && i < |net| && p == net[i] && sent == n + |news|
    requires forall j :: 0 <= j < |news| ==> news[j].slot == n + j && news[j].leader == LeaderAt(p.to.region)
    requires sends == Forwards(d, p) + Reply(p) + Announcements(d, p.to, news) && net' == net[..i] + net[i + 1..] + sends
    ensures forall item, x ::
              LoadOf(d, net')(item, x) + Bit(item == ItemOf(p) && x == p.to) ==
              LoadOf(d, net)(item, x) + Bit(Replied(d, p, item, x)) + Bit(Announced(d, p.to, n, sent, item, x))
  {
    SplitAt(net, i);
    forall item, x
      ensures LoadOf(d, net')(item, x) + Bit(item == ItemOf(p) && x == p.to) ==
              LoadOf(d, net)(item, x) + Bit(Replied(d, p, item, x)) + Bit(Announced(d, p.to, n, sent, item, x))
    {
      CounterCounts(d, item, x);
      LoadAfter(Counter(d, item, x), d, net[..i], p, net[i + 1..], news, n, item, x);
    }
  }

  lemma {:induction false} TrafficReceive(d: Deployment, w: World, w': World, st: LogState, s': Seen, net: seq<Packet>,
                                          net': seq<Packet>, i: nat, p: Packet, sends: seq<Packet>,
                                          news: seq<L.Ready>, n: nat, sent: nat)
    requires Valid(d) && Shaped(d, w) && Traffic(d, w, net) && i < |net| && p == net[i] && MadeOk(d, w.made)
    requires PacketOk(d, w, p) && Absorb(d, st, p).Success?
    requires NewTo(d, w.seen[p.to], p) && !Has(w.seen[p.to], p.to, ItemOf(p))
    requires p.to == LeaderAt(p.to.region) ==> w.sent[p.to.region] == n
    requires NewsInOrder(w, p.to.region, news, n) && sent == n + |news|
    requires s' == SeenAfter(d, st, w.seen[p.to], p) && w' == Receptions.After(w, p.to, s', sent)
    requires sends == Forwards(d, p) + Reply(p) + Announcements(d, p.to, news) && net' == net[..i] + net[i + 1..] + sends
    ensures Shaped(d, w') && Traffic(d, w', net')
  {
    PacketFits(d, w, p);
    SendsOk(d, w, p, news, n);
    SameOrders(d, w, w', p.to, s', sent);
    OkReceive(d, w, w', net, net', i, sends);
    LoadReceive(d, net, net', i, p, sends, news, n, sent);
    TokensReceive(d, w, w', st, s', p, n, sent, LoadOf(d, net), LoadOf(d, net'));
  }

  lemma {:induction false} ViewReceive(d: Deployment, c: Cluster, c': Cluster, m: Machine, st: LogState, s: Seen)
    requires |c.groups| == Regions(d) && Peopled(d, c) && IsMachine(d, m)
    requires c'.groups == c.groups && c'.made == c.made && c'.logs == c.logs[m := st] && c'.seen == c.seen[m := s]
    ensures View(c') == Receptions.After(View(c), m, s, st.local.slots.next)
  {
    var w, w' := View(c), View(c');
    var after := Receptions.After(w, m, s, st.local.slots.next);
    forall g | 0 <= g < Regions(d) ensures w'.sent[g] == after.sent[g] {
      assert LeaderAt(g) == m ==> g == m.region;
    }
    assert w'.sent == after.sent;
    assert w'.ords == after.ords;
    assert w'.heard == after.heard;
  }

  /** What the leader has sent is what it has paired. */
  lemma {:induction false} SentIsPaired(d: Deployment, c: Cluster, m: Machine)
    requires |c.groups| == Regions(d) && Peopled(d, c) && IsMachine(d, m) && m == LeaderAt(m.region)
    ensures |View(c).sent| == Regions(d) && View(c).sent[m.region] == c.logs[m].local.slots.next
  {
  }

  lemma {:induction false} NodesReceive(d: Deployment, c: Cluster, c': Cluster, m: Machine, st: LogState, s: Seen)
    requires Valid(d) && NodesOk(d, c) && NodeOk(d, m, st, s)
    requires c'.logs == c.logs[m := st] && c'.seen == c.seen[m := s]
    ensures NodesOk(d, c')
  {
    forall x | x in c'.logs && x in c'.seen ensures NodeOk(d, x, c'.logs[x], c'.seen[x]) {
      assert x != m ==> NodeOk(d, x, c.logs[x], c.seen[x]);
    }
  }

  /** What the handler does, as far as the receiving machine is concerned. */
  lemma {:induction false} HandlerNews(d: Deployment, w: World, net: seq<Packet>, i: nat, p: Packet, st: LogState)
    returns (o: Outcome, s': Seen, news: seq<L.Ready>)
    requires Valid(d) && Shaped(d, w) && Knowledge(d, w) && Traffic(d, w, net)
    requires i < |net| && p == net[i] && PacketOk(d, w, p) && NodeOk(d, p.to, st, w.seen[p.to])
    ensures LogManagers.Receive(d, st, p) == Success(o) && s' == SeenAfter(d, st, w.seen[p.to], p)
    ensures NodeOk(d, p.to, o.state, s') && Absorb(d, st, p).Success?
    ensures forall h :: EmittedOf(st.emitted, h) <= EmittedOf(o.state.emitted, h)
    ensures NewTo(d, w.seen[p.to], p) && !Has(w.seen[p.to], p.to, ItemOf(p))
    ensures NewsInOrder(w, p.to.region, news, st.local.slots.next)
    ensures o.state.local.slots.next == st.local.slots.next + |news|
    ensures o.sends == Forwards(d, p) + Reply(p) + Announcements(d, p.to, news)
  {
    var m, n, seen := p.to, st.local.slots.next, w.seen[p.to];
    ReceivedIsNew(d, w, st, net, i);
    news := NodeReceives(d, st, seen, p);
    o, s' := LogManagers.Receive(d, st, p).value, SeenAfter(d, st, seen, p);
    KnowledgeReceive(d, w, Receptions.After(w, m, s', o.state.local.slots.next), st, s', p, o.state.local.slots.next);
    NodeNews(d, m, o.state, s', w.ords[m.region], news, n);
  }

  /** The handler's part of `InvReceive`. */
  lemma {:induction false} HandlerReceive(d: Deployment, w: World, net: seq<Packet>, i: nat, p: Packet, st: LogState)
    returns (o: Outcome, s': Seen, w': World)
    requires Valid(d) && Shaped(d, w) && Knowledge(d, w) && Traffic(d, w, net)
    requires i < |net| && p == net[i] && PacketOk(d, w, p) && NodeOk(d, p.to, st, w.seen[p.to])
    requires p.to == LeaderAt(p.to.region) ==> w.sent[p.to.region] == st.local.slots.next
    ensures LogManagers.Receive(d, st, p) == Success(o) && s' == SeenAfter(d, st, w.seen[p.to], p)
    ensures NodeOk(d, p.to, o.state, s')
    ensures forall h :: EmittedOf(st.emitted, h) <= EmittedOf(o.state.emitted, h)
    ensures w' == Receptions.After(w, p.to, s', o.state.local.slots.next)
    ensures Shaped(d, w') && Knowledge(d, w') && Traffic(d, w', net[..i] + net[i + 1..] + o.sends)
  {
    var news;
    o, s', news := HandlerNews(d, w, net, i, p, st);
    w' := Receptions.After(w, p.to, s', o.state.local.slots.next);
    KnowledgeReceive(d, w, w', st, s', p, o.state.local.slots.next);
    TrafficReceive(d, w, w', st, s', net, net[..i] + net[i + 1..] + o.sends, i, p, o.sends, news,
                   st.local.slots.next, o.state.local.slots.next);
  }

  function Updated(c: Cluster, m: Machine, st: LogState, s: Seen, net: seq<Packet>): Cluster {
    c.(logs := c.logs[m := st], seen := c.seen[m := s], net := net)
  }

  lemma {:induction false} HandledIs(d: Deployment, c: Cluster, i: nat, p: Packet, o: Outcome, s': Seen)
    requires Valid(d) && i < |c.net| && p == c.net[i] && IsMachine(d, p.to) && p.to in c.logs && p.to in c.seen
    requires LogManagers.Receive(d, c.logs[p.to], p) == Success(o)
    requires s' == SeenAfter(d, c.logs[p.to], c.seen[p.to], p)
    ensures Handled(d, c, i) == Success(Updated(c, p.to, o.state, s', c.net[..i] + c.net[i + 1..] + o.sends))
  {
  }

  lemma {:induction false} InvUpdated(d: Deployment, c: Cluster, m: Machine, st: LogState, s: Seen, net: seq<Packet>,
                                      w: World)
    requires Inv(d, c) && IsMachine(d, m) && NodeOk(d, m, st, s)
    requires w == Receptions.After(View(c), m, s, st.local.slots.next)
    requires Shaped(d, w) && Knowledge(d, w) && Traffic(d, w, net)
    ensures Inv(d, Updated(c, m, st, s, net))
  {
    var c' := Updated(c, m, st, s, net);
    ViewReceive(d, c, c', m, st, s);
    NodesReceive(d, c, c', m, st, s);
  }

  lemma {:induction false} InvReceive(d: Deployment, c: Cluster, i: nat)
    requires Inv(d, c) && i < |c.net|
    ensures Handled(d, c, i).Success?
    ensures Inv(d, Handled(d, c, i).value)
  {
    var w, p := View(c), c.net[i];
    assert PacketOk(d, w, p);
    var o, s', w' := InvHandler(d, c, w, i, p);
    HandledIs(d, c, i, p, o, s');
    InvUpdated(d, c, p.to, o.state, s', c.net[..i] + c.net[i + 1..] + o.sends, w');
  }

  lemma {:induction false} InvHandler(d: Deployment, c: Cluster, w: World, i: nat, p: Packet)
    returns (o: Outcome, s': Seen, w': World)
    requires Inv(d, c) && w == View(c) && i < |c.net| && p == c.net[i] && PacketOk(d, w, p)
    ensures LogManagers.Receive(d, c.logs[p.to], p) == Success(o)
    ensures s' == SeenAfter(d, c.logs[p.to], c.seen[p.to], p) && NodeOk(d, p.to, o.state, s')
    ensures forall h :: EmittedOf(c.logs[p.to].emitted, h) <= EmittedOf(o.state.emitted, h)
    ensures w' == Receptions.After(w, p.to, s', o.state.local.slots.next)
    ensures Shaped(d, w') && Knowledge(d, w') && Traffic(d, w', c.net[..i] + c.net[i + 1..] + o.sends)
  {
    assert NodeOk(d, p.to, c.logs[p.to], c.seen[p.to]);
    if p.to == LeaderAt(p.to.region) {
      SentIsPaired(d, c, p.to);
    }
    o, s', w' := HandlerReceive(d, w, c.net, i, p, c.logs[p.to]);
  }

  /* ---------- A generator finishes a batch ---------- */

  lemma {:induction false} GroupsUpdated(d: Deployment, groups: seq<P.System>, g: nat, group: P.System)
    requires Valid(d) && GroupsOk(d, groups) && g < Regions(d) && PaxosRest.Reached(Group(d, g), group)
    ensures GroupsOk(d, groups[g := group])
  {
  }

  lemma {:induction false} GroupSubmits(d: Deployment, group: P.System, at: Machine)
    requires Valid(d) && IsMachine(d, at) && PaxosRest.Reached(Group(d, at.region), group)
    ensures var group' := P.Submitted(group, at, PaxosRoles.FromGenerator(at));
            && PaxosRest.Reached(Group(d, at.region), group')
            && OrdOf(group'.hist) == OrdOf(group.hist) && group'.hist.learned == group.hist.learned
            && group'.hist.tickets == group.hist.tickets + [PaxosRoles.FromGenerator(at)]
  {
    GroupValid(d, at.region);
    PaxosRest.ReachedNext(Group(d, at.region), group, P.Submit(at, PaxosRoles.FromGenerator(at)));
    PaxosRest.ReachedIsSafe(Group(d, at.region), group);
    SubmitOrder(Group(d, at.region), group, at, PaxosRoles.FromGenerator(at));
  }

  lemma {:induction false} ViewGenerate(c: Cluster, c': Cluster, g: nat, group: P.System)
    requires g < |c.groups| && c'.groups == c.groups[g := group] && c'.logs == c.logs && c'.seen == c.seen
    requires OrdOf(group.hist) == OrdOf(c.groups[g].hist) && group.hist.learned == c.groups[g].hist.learned
    ensures View(c') == View(c).(made := c'.made)
  {
    var w, w' := View(c), View(c');
    assert w'.ords == w.ords;
    forall m | m in c.logs ensures w'.heard[m] == w.heard[m] {
      assert HeardBy(c'.groups, m) == HeardBy(c.groups, m);
    }
    assert w'.heard == w.heard;
  }

  lemma {:induction false} TicketAdded(d: Deployment, c: Cluster, c': Cluster, at: Machine, shares: seq<Batch>)
    requires IsMachine(d, at) && at in c.made && at.region < |c.groups| == |c'.groups| && AllTickets(d, c)
    requires c'.made == c.made[at := c.made[at] + [shares]]
    requires c'.groups[at.region].hist.tickets ==
             c.groups[at.region].hist.tickets + [PaxosRoles.FromGenerator(at)]
    requires forall g :: 0 <= g < |c.groups| && g != at.region ==> c'.groups[g] == c.groups[g]
    ensures AllTickets(d, c')
  {
    forall g | 0 <= g < |c'.groups| ensures TicketsOk(d, c'.groups[g].hist.tickets, c'.made, g) {
      assert TicketsOk(d, c.groups[g].hist.tickets, c.made, g);
    }
  }

  lemma {:induction false} SharesMade(d: Deployment, made: map<Machine, seq<seq<Batch>>>, at: Machine,
                                      contents: seq<seq<Txn>>)
    requires MadeOk(d, made) && at in made && |contents| == d.partitions
    ensures MadeOk(d, made[at := made[at] + [Shares(BatchId(|made[at]| + 1, at), contents)]])
  {
    var n, shares := |made[at]|, Shares(BatchId(|made[at]| + 1, at), contents);
    var made' := made[at := made[at] + [shares]];
    forall g, i: nat | g in made' && i < |made'[g]| ensures SharesOf(d, made'[g][i], BatchId(i + 1, g)) {
      if g == at && i == n {
        assert made'[g][i] == shares;
      } else {
        assert made'[g][i] == made[g][i];
      }
    }
  }

  lemma {:induction false} TrafficGenerate(d: Deployment, w: World, w': World, net: seq<Packet>, at: Machine,
                                           shares: seq<Batch>)
    requires Valid(d) && Shaped(d, w) && Traffic(d, w, net) && IsMachine(d, at) && |shares| == d.partitions
    requires w' == w.(made := w.made[at := w.made[at] + [shares]])
    ensures Shaped(d, w') && Extends(d, w, w')
    ensures Traffic(d, w', net + DataPackets(d, at, |w.made[at]|, shares))
  {
    var position := |w.made[at]|;
    var sends := DataPackets(d, at, position, shares);
    AllKept(d, w, w', net);
    DataPacketsOk(d, w', at, position);
    forall item, x
      ensures LoadOf(d, net + sends)(item, x) ==
              LoadOf(d, net)(item, x) + Bit(item == DataItem(at, position) && IsMachine(d, x))
    {
      CounterCounts(d, item, x);
      assert Counter(d, item, x)(net + sends) == Counter(d, item, x)(net) + Counter(d, item, x)(sends);
      CountDataPackets(Counter(d, item, x), d, at, position, shares, item, x);
    }
    TokensGenerate(d, w, w', at, LoadOf(d, net), LoadOf(d, net + sends));
  }

  lemma {:induction false} KnowledgeGrows(d: Deployment, w: World, w': World)
    requires Valid(d) && Shaped(d, w) && Shaped(d, w') && Extends(d, w, w') && Knowledge(d, w) && MadeOk(d, w'.made)
    ensures Knowledge(d, w')
  {
    forall m | IsMachine(d, m) ensures SeenOk(d, w', m, w'.seen[m]) {
      SeenKept(d, w, w', m, w.seen[m]);
    }
  }

  lemma {:induction false} GroupsGenerate(d: Deployment, c: Cluster, c': Cluster, at: Machine, contents: seq<seq<Txn>>)
    requires Valid(d) && GroupsOk(d, c.groups) && AllTickets(d, c)
    requires IsMachine(d, at) && |contents| == d.partitions && at in c.made && c' == Generated(d, c, at, contents)
    ensures GroupsOk(d, c'.groups) && AllTickets(d, c') && View(c') == View(c).(made := c'.made)
  {
    var group := P.Submitted(c.groups[at.region], at, PaxosRoles.FromGenerator(at));
    GroupSubmits(d, c.groups[at.region], at);
    GroupsUpdated(d, c.groups, at.region, group);
    ViewGenerate(c, c', at.region, group);
    TicketAdded(d, c, c', at, Shares(BatchId(|c.made[at]| + 1, at), contents));
  }

  lemma {:induction false} WorldGenerate(d: Deployment, w: World, w': World, net: seq<Packet>, at: Machine,
                                         contents: seq<seq<Txn>>)
    requires Valid(d) && Shaped(d, w) && Knowledge(d, w) && Traffic(d, w, net)
    requires IsMachine(d, at) && |contents| == d.partitions
    requires w' == w.(made := w.made[at := w.made[at] + [Shares(BatchId(|w.made[at]| + 1, at), contents)]])
    ensures Shaped(d, w') && Knowledge(d, w')
    ensures Traffic(d, w', net + DataPackets(d, at, |w.made[at]|, Shares(BatchId(|w.made[at]| + 1, at), contents)))
  {
    var shares := Shares(BatchId(|w.made[at]| + 1, at), contents);
    SharesMade(d, w.made, at, contents);
    TrafficGenerate(d, w, w', net, at, shares);
    KnowledgeGrows(d, w, w');
  }

  lemma {:induction false} SoundGenerate(d: Deployment, c: Cluster, c': Cluster, at: Machine, contents: seq<seq<Txn>>)
    requires Sound(d, c) && IsMachine(d, at) && |contents| == d.partitions && at in c.made
    requires c' == Generated(d, c, at, contents)
    ensures Sound(d, c')
  {
    GroupsGenerate(d, c, c', at, contents);
    WorldGenerate(d, View(c), View(c'), c.net, at, contents);
  }

  /** Log managers are not touched. */
  lemma {:induction false} InvGrown(d: Deployment, c: Cluster, c': Cluster)
    requires Valid(d) && Peopled(d, c) && NodesOk(d, c) && Sound(d, c')
    requires c'.logs == c.logs && c'.seen == c.seen && c'.made.Keys == c.made.Keys
    ensures Inv(d, c')
  {
    forall m | m in c'.logs && m in c'.seen ensures NodeOk(d, m, c'.logs[m], c'.seen[m]) {
      assert NodeOk(d, m, c.logs[m], c.seen[m]);
    }
  }

  lemma {:induction false} GeneratedFrame(d: Deployment, c: Cluster, c': Cluster, at: Machine, contents: seq<seq<Txn>>)
    requires Valid(d) && IsMachine(d, at) && |contents| == d.partitions && at in c.made && at.region < |c.groups|
    requires c' == Generated(d, c, at, contents)
    ensures c'.logs == c.logs && c'.seen == c.seen && c'.made.Keys == c.made.Keys
  {
  }

  lemma {:induction false} InvGenerate(d: Deployment, c: Cluster, c': Cluster, at: Machine, contents: seq<seq<Txn>>)
    requires Inv(d, c) && IsMachine(d, at) && |contents| == d.partitions && at in c.made
    requires c' == Generated(d, c, at, contents)
    ensures Inv(d, c')
  {
    GeneratedFrame(d, c, c', at, contents);
    SoundGenerate(d, c, c', at, contents);
    InvGrown(d, c, c');
  }

  /* ---------- A Paxos group delivers a message ---------- */

  lemma {:induction false} GroupDelivers(d: Deployment, g: nat, group: P.System, group': P.System, link: P.Link,
                                         i: nat, ks: seq<PaxosRoles.Commit>)
    requires Valid(d) && g < Regions(d) && PaxosRest.Reached(Group(d, g), group)
    requires i < |P.Q(group.net, link)| && link.dst in group.nodes
    requires group' == P.Delivered(Group(d, g), group, link, i) && ks == Reported(Group(d, g), group, link, i)
    ensures PaxosRest.Reached(Group(d, g), group') && group'.hist.tickets == group.hist.tickets
    ensures OrdOf(group.hist) <= OrdOf(group'.hist) && IsMachine(d, link.dst) && link.dst.region == g
    ensures forall x :: Heard(group'.hist, x) == Heard(group.hist, x) + if x == link.dst then SlotsOf(ks) else {}
    ensures |ks| <= 1
    ensures ks != [] ==>
              && (link.dst.replica == 0 || link.dst.partition == 0) && ks[0].leader == LeaderAt(g)
              && ks[0].slot !in Heard(group.hist, link.dst)
              && ks[0].slot < |OrdOf(group'.hist)| && GeneratorOf(ks[0].value) == OrdOf(group'.hist)[ks[0].slot]
  {
    var config := Group(d, g);
    GroupValid(d, g);
    PaxosRest.ReachedNext(config, group, P.Deliver(link, i));
    ReachedParts(config, group);
    ReachedParts(config, group');
    DeliverTickets(config, group, link, i);
    DeliverOrder(config, group, group', link, i, ks);
  }

  /** The world after group `g` has gone on to `group`. */
  ghost function Decides(w: World, g: nat, group: P.System): World
    requires g < |w.ords|
  {
    w.(ords := w.ords[g := OrdOf(group.hist)],
       heard := map m | m in w.heard :: if m.region == g then Heard(group.hist, m) else w.heard[m])
  }

  lemma {:induction false} ViewDecides(c: Cluster, c': Cluster, g: nat, group: P.System)
    requires g < |c.groups| && c'.groups == c.groups[g := group]
    requires c'.logs == c.logs && c'.seen == c.seen && c'.made == c.made
    ensures View(c') == Decides(View(c), g, group)
  {
    var w, w' := Decides(View(c), g, group), View(c');
    assert w'.ords == w.ords;
    forall m | m in c.logs ensures w'.heard[m] == w.heard[m] {
    }
    assert w'.heard == w.heard;
  }

  lemma {:induction false} TicketsKept(d: Deployment, c: Cluster, c': Cluster, g: nat, group: P.System)
    requires AllTickets(d, c) && g < |c.groups| && c'.groups == c.groups[g := group] && c'.made == c.made
    requires group.hist.tickets == c.groups[g].hist.tickets
    ensures AllTickets(d, c')
  {
    forall k | 0 <= k < |c'.groups| ensures TicketsOk(d, c'.groups[k].hist.tickets, c'.made, k) {
      assert TicketsOk(d, c.groups[k].hist.tickets, c.made, k);
    }
  }

  lemma {:induction false} TrafficTold(d: Deployment, w: World, w': World, net: seq<Packet>, l: Machine, slot: nat,
                                       g: Machine)
    requires Valid(d) && Shaped(d, w) && Shaped(d, w') && Traffic(d, w, net) && Extends(d, w, w') && w'.made == w.made
    requires IsMachine(d, l) && (l.replica == 0 || l.partition == 0) && slot !in w.heard[l]
    requires forall x :: IsMachine(d, x) ==> w'.heard[x] == w.heard[x] + if x == l then {slot} else {}
    requires slot < |w'.ords[l.region]| && g == w'.ords[l.region][slot]
    ensures Traffic(d, w', net + [Told(l, slot, g)])
  {
    var sends := [Told(l, slot, g)];
    AllKept(d, w, w', net);
    LearnerIsMachine(d, l);
    assert PacketOk(d, w', Told(l, slot, g));
    forall item, x
      ensures LoadOf(d, net + sends)(item, x) ==
              LoadOf(d, net)(item, x) + Bit(item == LocalItem(l.region, slot) && IsMachine(d, x) && LearnerOf(x) == l)
    {
      CounterCounts(d, item, x);
      assert Counter(d, item, x)(net + sends) == Counter(d, item, x)(net) + Counter(d, item, x)(sends);
      CountTold(Counter(d, item, x), d, l, slot, g, item, x);
    }
    TokensTold(d, w, w', l, slot, LoadOf(d, net), LoadOf(d, net + sends));
  }

  lemma {:induction false} TrafficSame(d: Deployment, w: World, w': World, net: seq<Packet>)
    requires Valid(d) && Shaped(d, w) && Shaped(d, w') && Traffic(d, w, net) && Extends(d, w, w') && w'.made == w.made
    requires forall x :: IsMachine(d, x) ==> w'.heard[x] == w.heard[x]
    ensures Traffic(d, w', net)
  {
    AllKept(d, w, w', net);
    TokensSame(d, w, w', LoadOf(d, net));
  }

  lemma {:induction false} ToldOne(x: Machine, ks: seq<PaxosRoles.Commit>)
    requires |ks| <= 1 && (ks != [] ==> ks[0].leader == LeaderAt(x.region))
    ensures ToldAll(x, ks) == if ks == [] then [] else [Told(x, ks[0].slot, GeneratorOf(ks[0].value))]
  {
  }

  lemma {:induction false} DecidesExtends(d: Deployment, w: World, w': World, g: nat, group: P.System)
    requires Valid(d) && Shaped(d, w) && g < Regions(d)
    requires w' == Decides(w, g, group) && w.ords[g] <= OrdOf(group.hist)
    ensures Shaped(d, w') && Extends(d, w, w') && w'.made == w.made
    ensures forall x :: IsMachine(d, x) ==>
              w'.heard[x] == if x.region == g then Heard(group.hist, x) else w.heard[x]
  {
  }

  lemma {:induction false} WorldDecides(d: Deployment, w: World, w': World, net: seq<Packet>, g: nat, group: P.System,
                                        x: Machine, ks: seq<PaxosRoles.Commit>)
    requires Valid(d) && Shaped(d, w) && Knowledge(d, w) && Traffic(d, w, net) && g < Regions(d)
    requires w' == Decides(w, g, group) && w.ords[g] <= OrdOf(group.hist) && IsMachine(d, x) && x.region == g
    requires forall m :: IsMachine(d, m) && m.region == g ==>
               Heard(group.hist, m) == w.heard[m] + if m == x then SlotsOf(ks) else {}
    requires |ks| <= 1
    requires ks != [] ==>
               && (x.replica == 0 || x.partition == 0) && ks[0].leader == LeaderAt(g) && ks[0].slot !in w.heard[x]
               && ks[0].slot < |OrdOf(group.hist)| && GeneratorOf(ks[0].value) == OrdOf(group.hist)[ks[0].slot]
    ensures Shaped(d, w') && Knowledge(d, w') && Traffic(d, w', net + ToldAll(x, ks))
  {
    DecidesExtends(d, w, w', g, group);
    KnowledgeGrows(d, w, w');
    ToldOne(x, ks);
    if ks == [] {
      assert SlotsOf(ks) == {};
      assert net + [] == net;
      TrafficSame(d, w, w', net);
    } else {
      assert SlotsOf(ks) == {ks[0].slot};
      TrafficTold(d, w, w', net, x, ks[0].slot, GeneratorOf(ks[0].value));
    }
  }

  lemma {:induction false} SoundConsensus(d: Deployment, c: Cluster, c': Cluster, g: nat, link: P.Link, i: nat)
    requires Sound(d, c) && Peopled(d, c) && Enabled(d, c, Consensus(g, link, i)) && c' == Decided(d, c, g, link, i)
    ensures Sound(d, c')
  {
    var group, group' := c.groups[g], P.Delivered(Group(d, g), c.groups[g], link, i);
    var ks := Reported(Group(d, g), group, link, i);
    assert PaxosRest.Reached(Group(d, g), group);
    GroupDelivers(d, g, group, group', link, i, ks);
    GroupsUpdated(d, c.groups, g, group');
    ViewDecides(c, c', g, group');
    TicketsKept(d, c, c', g, group');
    WorldDecides(d, View(c), View(c'), c.net, g, group', link.dst, ks);
  }

  lemma {:induction false} InvConsensus(d: Deployment, c: Cluster, c': Cluster, g: nat, link: P.Link, i: nat)
    requires Inv(d, c) && Enabled(d, c, Consensus(g, link, i)) && c' == Decided(d, c, g, link, i)
    ensures Inv(d, c')
  {
    SoundConsensus(d, c, c', g, link, i);
    InvGrown(d, c, c');
  }

  /* ---------- All steps ---------- */

  lemma {:induction false} InvStart(d: Deployment)
    requires Valid(d)
    ensures Inv(d, Start(d))
  {
    var c := Start(d);
    StartPeopled(d);
    forall g | 0 <= g < Regions(d) ensures PaxosRest.Reached(Group(d, g), c.groups[g]) {
      GroupValid(d, g);
      PaxosRest.ReachedStart(Group(d, g));
    }
    forall m | m in c.logs && m in c.seen ensures NodeOk(d, m, c.logs[m], c.seen[m]) {
      FreshOk(d, m);
    }
    ViewShaped(d, c);
    StartBlank(d, c);
    BlankKnowledge(d, View(c));
    BlankTraffic(d, View(c));
  }

  lemma {:induction false} StartPeopled(d: Deployment)
    requires Valid(d)
    ensures Peopled(d, Start(d))
  {
    forall m ensures m in AllMachines(d) <==> IsMachine(d, m) {
      if IsMachine(d, m) {
        assert m in MachinesOf(d, m.region);
      }
    }
  }

  /** At the start nothing is decided, sent, heard, made or seen. */
  ghost predicate Blank(d: Deployment, w: World)
    requires Shaped(d, w)
  {
    && (forall g :: 0 <= g < Regions(d) ==> w.ords[g] == [] && w.sent[g] == 0)
    && (forall m :: IsMachine(d, m) ==> w.heard[m] == {} && w.seen[m] == Unseen)
    && (forall m :: m in w.made ==> w.made[m] == [])
  }

  lemma {:induction false} StartGroupBlank(d: Deployment, g: nat)
    requires Valid(d) && g < Regions(d)
    ensures var h := GroupStart(d, g).hist;
            OrdOf(h) == [] && h.tickets == [] && forall m :: Heard(h, m) == {}
  {
  }

  lemma {:induction false} StartBlank(d: Deployment, c: Cluster)
    requires Valid(d) && c == Start(d) && Shaped(d, View(c)) && Peopled(d, c)
    ensures Blank(d, View(c)) && AllTickets(d, c)
  {
    var w := View(c);
    forall g | 0 <= g < Regions(d)
      ensures w.ords[g] == [] && w.sent[g] == 0 && TicketsOk(d, c.groups[g].hist.tickets, c.made, g)
    {
      StartGroupBlank(d, g);
      assert c.groups[g] == GroupStart(d, g);
    }
    forall m | IsMachine(d, m) ensures w.heard[m] == {} && w.seen[m] == Unseen {
      StartGroupBlank(d, m.region);
      assert c.groups[m.region] == GroupStart(d, m.region);
    }
  }

  lemma {:induction false} BlankKnowledge(d: Deployment, w: World)
    requires Valid(d) && Shaped(d, w) && Blank(d, w)
    ensures Knowledge(d, w)
  {
    forall m | IsMachine(d, m) ensures SeenOk(d, w, m, w.seen[m]) {
      assert forall h: nat :: SeenOf(Unseen.logs, h) == B.Nothing;
    }
  }

  lemma {:induction false} BlankTraffic(d: Deployment, w: World)
    requires Valid(d) && Shaped(d, w) && Blank(d, w)
    ensures Traffic(d, w, [])
  {
    forall item: Item, m: Machine | IsMachine(d, m)
      ensures LoadOf(d, [])(item, m) + Bit(Has(w.seen[m], m, item)) == Bit(Due(d, w, m, item))
    {
      LearnerIsMachine(d, m);
    }
  }

  /** No step of a reachable cluster throws, and each keeps the invariant. */
  lemma {:induction false} InvStep(d: Deployment, c: Cluster, step: Step)
    requires Inv(d, c) && Enabled(d, c, step)
    ensures Next(d, c, step).Success? && Inv(d, Next(d, c, step).value)
  {
    match step
    case Generate(at, contents) => StepGenerates(d, c, at, contents);
    case Consensus(g, link, i) => InvConsensus(d, c, Decided(d, c, g, link, i), g, link, i);
    case Receive(i) => InvReceive(d, c, i);
  }

  lemma {:induction false} StepGenerates(d: Deployment, c: Cluster, at: Machine, contents: seq<seq<Txn>>)
    requires Inv(d, c) && IsMachine(d, at) && |contents| == d.partitions
    ensures at in c.made && at.region < |c.groups| && Inv(d, Generated(d, c, at, contents))
  {
    InvGenerate(d, c, Generated(d, c, at, contents), at, contents);
  }

  lemma {:induction false} RunInvStep(d: Deployment, steps: seq<Step>, states: seq<Cluster>, i: nat)
    requires Run(d, steps, states) && i < |steps| && Inv(d, states[i])
    ensures Inv(d, states[i + 1])
  {
    InvStep(d, states[i], steps[i]);
  }

  ghost function InvAt(d: Deployment, states: seq<Cluster>): (bs: seq<bool>)
    ensures |bs| == |states| && forall k :: 0 <= k < |states| ==> bs[k] == Inv(d, states[k])
  {
    seq(|states|, k requires 0 <= k < |states| => Inv(d, states[k]))
  }

  lemma {:induction false} RunInv(d: Deployment, steps: seq<Step>, states: seq<Cluster>, i: nat)
    requires Run(d, steps, states) && i < |states|
    ensures Inv(d, states[i])
  {
    var bs := InvAt(d, states);
    InvStart(d);
    forall k | 0 <= k < |bs| - 1 && bs[k] ensures bs[k + 1] {
      RunInvStep(d, steps, states, k);
    }
    HoldsThroughout(bs, i);
  }
}
