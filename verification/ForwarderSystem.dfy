/**
  The lookup protocol as a step system: one forwarder, the requests and replies on their way, and
  the partitions that answer.

  Every key whose master is still unknown is covered: a buffered request, a request on its way or
  a reply on its way holds both the key and the id of its transaction.
*/
module ForwarderSystem {
  import opened Topology
  import opened Forwarders

  /** `arrived` and `sent` are history. */
  datatype System = System(
    st: State, asked: seq<Asked>, replies: seq<Reply>, arrived: map<nat, seq<Key>>, sent: seq<Sent>)

  function Start(c: Config): System {
    System(State(map[], seq(c.partitions, p => Request([], [])), 0), [], [], map[], [])
  }

  /** Each lookup comes with what the storage says at that time. */
  datatype Step =
    | Arrive(id: nat, keys: seq<Key>, lookup: Lookup)
    | Timer
    | Answer(index: nat, lookup: Lookup)
    | Receive(index: nat)

  predicate Enabled(s: System, step: Step) {
    match step
    case Arrive(id, _, _) => id !in s.arrived
    case Timer => s.st.size > 0
    case Answer(i, _) => i < |s.asked|
    case Receive(j) => j < |s.replies|
  }

  function Without<T>(xs: seq<T>, i: nat): seq<T>
    requires i < |xs|
  {
    xs[..i] + xs[i + 1..]
  }

  function Next(c: Config, s: System, step: Step): System
    requires Enabled(s, step)
  {
    match step
    case Arrive(id, keys, lookup) =>
      var o := Arrived(c, s.st, lookup, id, keys);
      s.(st := o.state, arrived := s.arrived[id := keys], sent := s.sent + o.sent)
    case Timer =>
      s.(st := s.st.(requests := Cleared(s.st.requests), size := 0),
         asked := s.asked + Outgoing(s.st.requests, |s.st.requests|))
    case Answer(i, lookup) =>
      s.(asked := Without(s.asked, i),
         replies := s.replies + [Answered(c, s.asked[i].part, lookup, s.asked[i].request)])
    case Receive(j) =>
      var o := MasterInfoUpdated(s.st, s.replies[j]);
      s.(st := o.state, replies := Without(s.replies, j), sent := s.sent + o.sent)
  }

  ghost predicate Run(c: Config, steps: seq<Step>, states: seq<System>) {
    && ValidConfig(c) && |states| == |steps| + 1 && states[0] == Start(c)
    && forall i {:trigger steps[i]} :: 0 <= i < |steps| ==>
         Enabled(states[i], steps[i]) && states[i + 1] == Next(c, states[i], steps[i])
  }

  /* ---------- Coverage ---------- */

  predicate Buffered(c: Config, requests: seq<Request>, key: Key, id: nat) {
    var p := c.part(key);
    p < |requests| && key in requests[p].keys && id in requests[p].ids
  }

  predicate Flying(c: Config, asked: seq<Asked>, key: Key, id: nat) {
    exists q :: q in asked && q.part == c.part(key) && key in q.request.keys && id in q.request.ids
  }

  predicate Returning(replies: seq<Reply>, key: Key, id: nat) {
    exists r :: r in replies && id in r.ids && key in IndexOf(r.results)
  }

  predicate Covered(c: Config, s: System, key: Key, id: nat) {
    Buffered(c, s.st.requests, key, id) || Flying(c, s.asked, key, id) || Returning(s.replies, key, id)
  }

  /** Every open key of a pending transaction is covered, with the transaction's id. */
  ghost predicate AllCovered(c: Config, s: System) {
    forall id, i :: id in s.st.pending && 0 <= i < |s.st.pending[id]| && s.st.pending[id][i].meta.None? ==>
      Covered(c, s, s.st.pending[id][i].key, id)
  }

  /** The keys of a transaction stay the same while their masters are found. */
  predicate SameKeys(entries: seq<Entry>, keys: seq<Key>) {
    |entries| == |keys| && forall i :: 0 <= i < |keys| ==> entries[i].key == keys[i]
  }

  ghost predicate PendingOk(s: System) {
    forall id :: id in s.st.pending ==>
      id in s.arrived && s.arrived[id] != [] && SameKeys(s.st.pending[id], s.arrived[id]) && !Complete(s.st.pending[id])
  }

  ghost predicate SentOk(s: System) {
    && (forall i :: 0 <= i < |s.sent| ==>
          && s.sent[i].id in s.arrived && s.sent[i].id !in s.st.pending
          && SameKeys(s.sent[i].entries, s.arrived[s.sent[i].id])
          && Complete(s.sent[i].entries) && s.sent[i].kind == KindOf(s.sent[i].entries))
    && (forall i, j :: 0 <= i < j < |s.sent| ==> s.sent[i].id != s.sent[j].id)
  }

  predicate IsSent(sent: seq<Sent>, id: nat) {
    exists i :: 0 <= i < |sent| && sent[i].id == id
  }

  /** Nothing is forgotten. */
  ghost predicate AllAccounted(s: System) {
    forall id :: id in s.arrived && s.arrived[id] != [] ==> id in s.st.pending || IsSent(s.sent, id)
  }

  /** A timer is set whenever something is buffered. */
  ghost predicate TimerSet(s: System) {
    s.st.size == 0 ==> forall p :: 0 <= p < |s.st.requests| ==> s.st.requests[p].ids == []
  }

  ghost predicate Inv(c: Config, s: System) {
    && ValidConfig(c) && |s.st.requests| == c.partitions
    && AllCovered(c, s) && PendingOk(s) && SentOk(s) && AllAccounted(s) && TimerSet(s)
  }

  /* ---------- A transaction arrives ---------- */

  lemma {:induction false} AskedAtHas(c: Config, keys: seq<Key>, i: nat)
    requires i < |keys| && Remote(c, keys[i])
    ensures keys[i] in AskedAt(c, keys, c.part(keys[i]))
  {
    if i < |keys| - 1 {
      AskedAtHas(c, keys[..|keys| - 1], i);
    }
  }

  lemma {:induction false} ArriveCovers(c: Config, requests: seq<Request>, keys: seq<Key>, id: nat, i: nat)
    requires i < |keys| && Remote(c, keys[i]) && c.part(keys[i]) < |requests|
    ensures Buffered(c, Asking(c, requests, keys, id), keys[i], id)
  {
    AskedAtHas(c, keys, i);
    assert Involved(c, keys, c.part(keys[i]));
  }

  lemma {:induction false} ArriveKeeps(c: Config, requests: seq<Request>, keys: seq<Key>, id: nat, key: Key, other: nat)
    requires Buffered(c, requests, key, other)
    ensures Buffered(c, Asking(c, requests, keys, id), key, other)
  {
  }

  lemma {:induction false} KnownAtOnce(c: Config, lookup: Lookup, keys: seq<Key>)
    requires ValidConfig(c)
    ensures var entries := EntriesFor(c, lookup, keys);
            && SameKeys(entries, keys)
            && (Complete(entries) <==> keys != [] && !NeedsLookup(c, keys))
            && (KindOf(entries).Unknown? <==> !Complete(entries))
            && forall i :: 0 <= i < |keys| ==> (entries[i].meta.None? <==> Remote(c, keys[i]))
  {
    var entries := EntriesFor(c, lookup, keys);
    forall i | 0 <= i < |keys| ensures entries[i].meta.None? <==> Remote(c, keys[i]) {
    }
    if NeedsLookup(c, keys) {
      var i :| 0 <= i < |keys| && Remote(c, keys[i]);
      assert entries[i].meta.None?;
    }
  }

  lemma {:induction false} InvArriveKnown(c: Config, s: System, id: nat, keys: seq<Key>, lookup: Lookup)
    requires Inv(c, s) && id !in s.arrived && !NeedsLookup(c, keys)
    ensures Inv(c, Next(c, s, Arrive(id, keys, lookup)))
  {
    KnownAtOnce(c, lookup, keys);
    var s' := Next(c, s, Arrive(id, keys, lookup));
    StillCovered(c, s, s');
    forall k | k in s'.arrived && s'.arrived[k] != [] ensures k in s'.st.pending || IsSent(s'.sent, k) {
      if k == id {
        assert s'.sent[|s.sent|].id == id;
      } else if k !in s.st.pending {
        StillSent(s.sent, s'.sent, k);
      }
    }
  }

  lemma {:induction false} StillCovered(c: Config, s: System, s': System)
    requires AllCovered(c, s) && s'.st == s.st && s'.asked == s.asked && s'.replies == s.replies
    ensures AllCovered(c, s')
  {
    forall k, i | k in s'.st.pending && 0 <= i < |s'.st.pending[k]| && s'.st.pending[k][i].meta.None?
      ensures Covered(c, s', s'.st.pending[k][i].key, k)
    {
      assert Covered(c, s, s.st.pending[k][i].key, k);
    }
  }

  lemma {:induction false} StillSent(sent: seq<Sent>, sent': seq<Sent>, k: nat)
    requires IsSent(sent, k) && sent <= sent'
    ensures IsSent(sent', k)
  {
    var i :| 0 <= i < |sent| && sent[i].id == k;
    assert sent'[i].id == k;
  }

  lemma {:induction false} AskedCovered(c: Config, s: System, s': System, id: nat, keys: seq<Key>, lookup: Lookup)
    requires ValidConfig(c) && |s.st.requests| == c.partitions && AllCovered(c, s) && NeedsLookup(c, keys)
    requires s'.st.requests == Asking(c, s.st.requests, keys, id)
    requires s'.st.pending == s.st.pending[id := EntriesFor(c, lookup, keys)]
    requires s'.asked == s.asked && s'.replies == s.replies
    ensures AllCovered(c, s')
  {
    KnownAtOnce(c, lookup, keys);
    forall k, i | k in s'.st.pending && 0 <= i < |s'.st.pending[k]| && s'.st.pending[k][i].meta.None?
      ensures Covered(c, s', s'.st.pending[k][i].key, k)
    {
      if k == id {
        ArriveCovers(c, s.st.requests, keys, id, i);
      } else {
        var key := s.st.pending[k][i].key;
        assert Covered(c, s, key, k);
        if Buffered(c, s.st.requests, key, k) {
          ArriveKeeps(c, s.st.requests, keys, id, key, k);
        }
      }
    }
  }

  lemma {:induction false} InvArriveAsks(c: Config, s: System, id: nat, keys: seq<Key>, lookup: Lookup)
    requires Inv(c, s) && id !in s.arrived && NeedsLookup(c, keys)
    ensures Inv(c, Next(c, s, Arrive(id, keys, lookup)))
  {
    KnownAtOnce(c, lookup, keys);
    var s' := Next(c, s, Arrive(id, keys, lookup));
    AskedCovered(c, s, s', id, keys, lookup);
    assert s'.sent == s.sent;
  }

  /* ---------- Requests go out and are answered ---------- */

  lemma {:induction false} OutgoingHas(requests: seq<Request>, n: nat, p: nat)
    requires p < n <= |requests| && requests[p].ids != []
    ensures Asked(p, requests[p]) in Outgoing(requests, n)
  {
    if p < n - 1 {
      OutgoingHas(requests, n - 1, p);
    }
  }

  lemma {:induction false} InvTimer(c: Config, s: System)
    requires Inv(c, s) && s.st.size > 0
    ensures Inv(c, Next(c, s, Timer))
  {
    var s' := Next(c, s, Timer);
    forall id, i | id in s'.st.pending && 0 <= i < |s'.st.pending[id]| && s'.st.pending[id][i].meta.None?
      ensures Covered(c, s', s'.st.pending[id][i].key, id)
    {
      TimerCovers(c, s, s', s.st.pending[id][i].key, id);
    }
  }

  lemma {:induction false} TimerCovers(c: Config, s: System, s': System, key: Key, id: nat)
    requires Covered(c, s, key, id) && s'.asked == s.asked + Outgoing(s.st.requests, |s.st.requests|)
    requires s'.replies == s.replies
    ensures Covered(c, s', key, id)
  {
    if Buffered(c, s.st.requests, key, id) {
      var p := c.part(key);
      OutgoingHas(s.st.requests, |s.st.requests|, p);
      assert Asked(p, s.st.requests[p]) in s'.asked;
    } else if Flying(c, s.asked, key, id) {
      var q :| q in s.asked && q.part == c.part(key) && key in q.request.keys && id in q.request.ids;
      assert q in s'.asked;
    }
  }

  lemma {:induction false} AnswersHas(c: Config, p: nat, lookup: Lookup, keys: seq<Key>, key: Key)
    requires key in keys && c.part(key) == p
    ensures key in IndexOf(Answers(c, p, lookup, keys))
  {
    var n := |keys| - 1;
    var before := Answers(c, p, lookup, keys[..n]);
    if c.part(keys[n]) == p {
      assert (before + [Found(keys[n], lookup(keys[n]))])[..|before|] == before;
    } else {
      assert before + [] == before;
    }
    if key != keys[n] {
      AnswersHas(c, p, lookup, keys[..n], key);
    }
  }

  lemma {:induction false} WithoutKeeps<T>(xs: seq<T>, i: nat, x: T)
    requires i < |xs| && x in xs && x != xs[i]
    ensures x in Without(xs, i)
  {
    var k :| 0 <= k < |xs| && xs[k] == x;
    if k < i {
      assert Without(xs, i)[k] == x;
    } else {
      assert Without(xs, i)[k - 1] == x;
    }
  }

  lemma {:induction false} AnswerCovers(c: Config, s: System, s': System, i: nat, lookup: Lookup, key: Key, id: nat)
    requires Covered(c, s, key, id) && i < |s.asked| && s'.st == s.st && s'.asked == Without(s.asked, i)
    requires s'.replies == s.replies + [Answered(c, s.asked[i].part, lookup, s.asked[i].request)]
    ensures Covered(c, s', key, id)
  {
    if Flying(c, s.asked, key, id) {
      var q :| q in s.asked && q.part == c.part(key) && key in q.request.keys && id in q.request.ids;
      if q == s.asked[i] {
        AnswersHas(c, q.part, lookup, q.request.keys, key);
        var r := Answered(c, q.part, lookup, q.request);
        assert r in s'.replies && id in r.ids && key in IndexOf(r.results);
      } else {
        WithoutKeeps(s.asked, i, q);
      }
    } else if Returning(s.replies, key, id) {
      var r :| r in s.replies && id in r.ids && key in IndexOf(r.results);
      assert r in s'.replies;
    }
  }

  lemma {:induction false} InvAnswer(c: Config, s: System, i: nat, lookup: Lookup)
    requires Inv(c, s) && i < |s.asked|
    ensures Inv(c, Next(c, s, Answer(i, lookup)))
  {
    var s' := Next(c, s, Answer(i, lookup));
    forall id, k | id in s'.st.pending && 0 <= k < |s'.st.pending[id]| && s'.st.pending[id][k].meta.None?
      ensures Covered(c, s', s'.st.pending[id][k].key, id)
    {
      AnswerCovers(c, s, s', i, lookup, s.st.pending[id][k].key, id);
    }
  }

  /* ---------- A reply comes back ---------- */

  lemma {:induction false} FilledTwice(entries: seq<Entry>, index: map<Key, Meta>)
    ensures Filled(Filled(entries, index), index) == Filled(entries, index)
  {
  }

  /** What a reply does to each pending transaction, whatever the order of the ids. */
  ghost predicate UpdateSpec(pending: map<nat, seq<Entry>>, index: map<Key, Meta>, ids: seq<nat>,
                             after: map<nat, seq<Entry>>, sent: seq<Sent>) {
    && (forall id :: id in after <==>
          id in pending && (id in ids ==> KindOf(Filled(pending[id], index)).Unknown?))
    && (forall id :: id in after ==> after[id] == if id in ids then Filled(pending[id], index) else pending[id])
    && (forall i :: 0 <= i < |sent| ==>
          var id := sent[i].id;
          && id in pending && id in ids && !KindOf(Filled(pending[id], index)).Unknown?
          && sent[i] == Sent(id, Filled(pending[id], index), KindOf(Filled(pending[id], index))))
    && (forall i, j :: 0 <= i < j < |sent| ==> sent[i].id != sent[j].id)
    && (forall id :: id in pending && id !in after ==> IsSent(sent, id))
  }

  lemma {:induction false} SentMore(sent: seq<Sent>, x: Sent, id: nat)
    requires IsSent(sent, id) || x.id == id
    ensures IsSent(sent + [x], id)
  {
    if IsSent(sent, id) {
      var i :| 0 <= i < |sent| && sent[i].id == id;
      assert (sent + [x])[i].id == id;
    } else {
      assert (sent + [x])[|sent|].id == id;
    }
  }

  lemma {:induction false} UpdatedSpec(pending: map<nat, seq<Entry>>, index: map<Key, Meta>, ids: seq<nat>)
    ensures UpdateSpec(pending, index, ids, Updated(pending, index, ids).0, Updated(pending, index, ids).1)
  {
    if ids != [] {
      var n := |ids| - 1;
      var before, id := Updated(pending, index, ids[..n]), ids[n];
      UpdatedSpec(pending, index, ids[..n]);
      assert ids == ids[..n] + [id];
      if id in before.0 {
        UpdateOne(pending, index, ids[..n], id, before.0, before.1);
      } else {
        UpdateNone(pending, index, ids[..n], id, before.0, before.1);
      }
    }
  }

  lemma {:induction false} UpdateNone(pending: map<nat, seq<Entry>>, index: map<Key, Meta>, ids: seq<nat>, id: nat,
                                      after: map<nat, seq<Entry>>, sent: seq<Sent>)
    requires UpdateSpec(pending, index, ids, after, sent) && id !in after
    ensures UpdateSpec(pending, index, ids + [id], after, sent)
  {
  }

  lemma {:induction false} UpdateOne(pending: map<nat, seq<Entry>>, index: map<Key, Meta>, ids: seq<nat>, id: nat,
                                     after: map<nat, seq<Entry>>, sent: seq<Sent>)
    requires UpdateSpec(pending, index, ids, after, sent) && id in after
    ensures var entries := Filled(after[id], index);
            if KindOf(entries).Unknown? then UpdateSpec(pending, index, ids + [id], after[id := entries], sent)
            else UpdateSpec(pending, index, ids + [id], after - {id}, sent + [Sent(id, entries, KindOf(entries))])
  {
    FilledTwice(pending[id], index);
    var entries := Filled(after[id], index);
    assert entries == Filled(pending[id], index);
    if KindOf(entries).Unknown? {
      UpdateKeep(pending, index, ids, id, after, sent);
    } else {
      UpdateSend(pending, index, ids, id, after, sent);
    }
  }

  lemma {:induction false} UpdateKeep(pending: map<nat, seq<Entry>>, index: map<Key, Meta>, ids: seq<nat>, id: nat,
                                      after: map<nat, seq<Entry>>, sent: seq<Sent>)
    requires UpdateSpec(pending, index, ids, after, sent) && id in after && KindOf(Filled(pending[id], index)).Unknown?
    ensures UpdateSpec(pending, index, ids + [id], after[id := Filled(pending[id], index)], sent)
  {
  }

  lemma {:induction false} UpdateSend(pending: map<nat, seq<Entry>>, index: map<Key, Meta>, ids: seq<nat>, id: nat,
                                      after: map<nat, seq<Entry>>, sent: seq<Sent>)
    requires UpdateSpec(pending, index, ids, after, sent) && id in after && !KindOf(Filled(pending[id], index)).Unknown?
    ensures var entries := Filled(pending[id], index);
            UpdateSpec(pending, index, ids + [id], after - {id}, sent + [Sent(id, entries, KindOf(entries))])
  {
    var entries := Filled(pending[id], index);
    var last := Sent(id, entries, KindOf(entries));
    forall k | k in pending && k !in after - {id} ensures IsSent(sent + [last], k) {
      SentMore(sent, last, k);
    }
  }

  lemma {:induction false} FilledKeys(entries: seq<Entry>, index: map<Key, Meta>, keys: seq<Key>)
    requires SameKeys(entries, keys)
    ensures SameKeys(Filled(entries, index), keys)
    ensures forall i :: 0 <= i < |entries| && Filled(entries, index)[i].meta.None? ==>
              entries[i].meta.None? && entries[i].key !in index
  {
  }

  lemma {:induction false} ReceiveCovers(c: Config, s: System, s': System, j: nat, key: Key, id: nat)
    requires Covered(c, s, key, id) && j < |s.replies| && s'.st.requests == s.st.requests && s'.asked == s.asked
    requires s'.replies == Without(s.replies, j)
    requires !(id in s.replies[j].ids && key in IndexOf(s.replies[j].results))
    ensures Covered(c, s', key, id)
  {
    if Returning(s.replies, key, id) {
      var r :| r in s.replies && id in r.ids && key in IndexOf(r.results);
      WithoutKeeps(s.replies, j, r);
    }
  }

  lemma {:induction false} ReceiveAllCovered(c: Config, s: System, s': System, j: nat)
    requires Inv(c, s) && j < |s.replies| && s' == Next(c, s, Receive(j))
    ensures AllCovered(c, s') && PendingOk(s')
  {
    var index, ids := IndexOf(s.replies[j].results), s.replies[j].ids;
    UpdatedSpec(s.st.pending, index, ids);
    forall id | id in s'.st.pending
      ensures SameKeys(s'.st.pending[id], s.arrived[id]) && !Complete(s'.st.pending[id])
      ensures forall i :: 0 <= i < |s'.st.pending[id]| && s'.st.pending[id][i].meta.None? ==>
                Covered(c, s', s'.st.pending[id][i].key, id)
    {
      FilledKeys(s.st.pending[id], index, s.arrived[id]);
      forall i | 0 <= i < |s'.st.pending[id]| && s'.st.pending[id][i].meta.None?
        ensures Covered(c, s', s'.st.pending[id][i].key, id)
      {
        assert s.st.pending[id][i].meta.None?;
        ReceiveCovers(c, s, s', j, s.st.pending[id][i].key, id);
      }
    }
  }

  lemma {:induction false} ReceiveSent(c: Config, s: System, s': System, j: nat)
    requires PendingOk(s) && SentOk(s) && j < |s.replies| && s' == Next(c, s, Receive(j))
    ensures SentOk(s')
  {
    var index, ids := IndexOf(s.replies[j].results), s.replies[j].ids;
    UpdatedSpec(s.st.pending, index, ids);
    var more := Updated(s.st.pending, index, ids).1;
    assert s'.sent == s.sent + more;
    forall i | 0 <= i < |s'.sent|
      ensures s'.sent[i].id in s'.arrived && s'.sent[i].id !in s'.st.pending
      ensures SameKeys(s'.sent[i].entries, s'.arrived[s'.sent[i].id])
      ensures Complete(s'.sent[i].entries) && s'.sent[i].kind == KindOf(s'.sent[i].entries)
    {
      if i >= |s.sent| {
        var id := more[i - |s.sent|].id;
        FilledKeys(s.st.pending[id], index, s.arrived[id]);
      }
    }
  }

  lemma {:induction false} ReceiveAccounted(c: Config, s: System, s': System, j: nat)
    requires AllAccounted(s) && j < |s.replies| && s' == Next(c, s, Receive(j))
    ensures AllAccounted(s')
  {
    var index, ids := IndexOf(s.replies[j].results), s.replies[j].ids;
    UpdatedSpec(s.st.pending, index, ids);
    var more := Updated(s.st.pending, index, ids).1;
    assert s'.sent == s.sent + more;
    forall id | id in s'.arrived && s'.arrived[id] != [] ensures id in s'.st.pending || IsSent(s'.sent, id) {
      if id in s.st.pending && id !in s'.st.pending {
        JustSent(s.sent, more, id);
      } else if id !in s.st.pending {
        StillSent(s.sent, s'.sent, id);
      }
    }
  }

  lemma {:induction false} JustSent(sent: seq<Sent>, more: seq<Sent>, id: nat)
    requires IsSent(more, id)
    ensures IsSent(sent + more, id)
  {
    var i :| 0 <= i < |more| && more[i].id == id;
    assert (sent + more)[|sent| + i].id == id;
  }

  lemma {:induction false} InvReceive(c: Config, s: System, j: nat)
    requires Inv(c, s) && j < |s.replies|
    ensures Inv(c, Next(c, s, Receive(j)))
  {
    var s' := Next(c, s, Receive(j));
    ReceiveAllCovered(c, s, s', j);
    ReceiveSent(c, s, s', j);
    ReceiveAccounted(c, s, s', j);
  }

  /* ---------- All steps ---------- */

  lemma {:induction false} InvStep(c: Config, s: System, step: Step)
    requires Inv(c, s) && Enabled(s, step)
    ensures Inv(c, Next(c, s, step))
  {
    match step
    case Arrive(id, keys, lookup) =>
      if NeedsLookup(c, keys) {
        InvArriveAsks(c, s, id, keys, lookup);
      } else {
        InvArriveKnown(c, s, id, keys, lookup);
      }
    case Timer => InvTimer(c, s);
    case Answer(i, lookup) => InvAnswer(c, s, i, lookup);
    case Receive(j) => InvReceive(c, s, j);
  }

  lemma {:induction false} RunInv(c: Config, steps: seq<Step>, states: seq<System>, i: nat)
    requires Run(c, steps, states) && i < |states|
    ensures Inv(c, states[i])
  {
    if i > 0 {
      RunInv(c, steps, states, i - 1);
      InvStep(c, states[i - 1], steps[i - 1]);
    }
  }

  /* ---------- Main results ---------- */

  /** In every run, each open key of a pending transaction is covered by a request or reply with its id. */
  lemma {:induction false} OpenKeysCovered(c: Config, steps: seq<Step>, states: seq<System>, i: nat, id: nat, k: nat)
    requires Run(c, steps, states) && i < |states| && id in states[i].st.pending
    requires k < |states[i].st.pending[id]| && states[i].st.pending[id][k].meta.None?
    ensures Covered(c, states[i], states[i].st.pending[id][k].key, id)
  {
    RunInv(c, steps, states, i);
  }

  /** The first `n` steps bring transaction `id` with `keys`. */
  predicate Brought(steps: seq<Step>, n: nat, id: nat, keys: seq<Key>)
    requires n <= |steps|
  {
    exists j :: 0 <= j < n && steps[j].Arrive? && steps[j].id == id && steps[j].keys == keys
  }

  /** The transactions on record, with their keys, are exactly those that arrived. */
  lemma {:induction false} ArrivedAsBrought(c: Config, steps: seq<Step>, states: seq<System>, i: nat)
    requires Run(c, steps, states) && i < |states|
    ensures forall id, keys :: (id in states[i].arrived && states[i].arrived[id] == keys) <==> Brought(steps, i, id, keys)
  {
    if i > 0 {
      ArrivedAsBrought(c, steps, states, i - 1);
      forall id, keys
        ensures Brought(steps, i, id, keys) <==>
                || Brought(steps, i - 1, id, keys)
                || (steps[i - 1].Arrive? && steps[i - 1].id == id && steps[i - 1].keys == keys)
      {
      }
    }
  }

  /** A transaction leaves at most once, complete and with its own keys, and only when it is not pending. */
  lemma {:induction false} LeavesOnce(c: Config, steps: seq<Step>, states: seq<System>, i: nat, a: nat, b: nat)
    requires Run(c, steps, states) && i < |states| && a < |states[i].sent| && b < |states[i].sent|
    ensures var s := states[i].sent[a];
            && s.id in states[i].arrived && s.id !in states[i].st.pending
            && SameKeys(s.entries, states[i].arrived[s.id]) && Complete(s.entries) && s.kind == KindOf(s.entries)
    ensures states[i].sent[a].id == states[i].sent[b].id ==> a == b
  {
    RunInv(c, steps, states, i);
  }

  /** Nothing is buffered, asked or answered. */
  predicate AtRest(s: System) {
    s.st.size == 0 && s.asked == [] && s.replies == []
  }

  lemma {:induction false} NothingCovers(c: Config, s: System, key: Key, id: nat)
    requires AtRest(s) && TimerSet(s)
    ensures !Covered(c, s, key, id)
  {
  }

  /** At rest no transaction is pending, and exactly those with keys have left. */
  lemma {:induction false} NoneStuck(c: Config, steps: seq<Step>, states: seq<System>, i: nat, id: nat)
    requires Run(c, steps, states) && i < |states| && AtRest(states[i]) && id in states[i].arrived
    ensures id !in states[i].st.pending
    ensures IsSent(states[i].sent, id) <==> states[i].arrived[id] != []
  {
    RunInv(c, steps, states, i);
    var s := states[i];
    forall key ensures !Covered(c, s, key, id) {
      NothingCovers(c, s, key, id);
    }
    if IsSent(s.sent, id) {
      var a :| 0 <= a < |s.sent| && s.sent[a].id == id;
      assert Complete(s.sent[a].entries);
    }
  }

  /* ---------- The masters that were found are the right ones ---------- */

  /** Every lookup of the run answers from the same table; with one region, metadata is zero. */
  ghost predicate Consistent(c: Config, steps: seq<Step>, table: Lookup) {
    && (c.regions == 1 ==> forall key :: table(key) == Meta(0, 0))
    && forall i {:trigger steps[i]} :: 0 <= i < |steps| ==> Uses(steps[i], table)
  }

  ghost predicate Uses(step: Step, table: Lookup) {
    step.Arrive? || step.Answer? ==> forall key :: step.lookup(key) == table(key)
  }

  predicate TrueEntries(entries: seq<Entry>, table: Lookup) {
    forall i :: 0 <= i < |entries| && entries[i].meta.Some? ==> entries[i].meta.value == table(entries[i].key)
  }

  predicate TrueResults(results: seq<Found>, table: Lookup) {
    forall i :: 0 <= i < |results| ==> results[i].meta == table(results[i].key)
  }

  ghost predicate Truthful(s: System, table: Lookup) {
    && (forall id :: id in s.st.pending ==> TrueEntries(s.st.pending[id], table))
    && (forall r :: r in s.replies ==> TrueResults(r.results, table))
    && (forall i :: 0 <= i < |s.sent| ==> TrueEntries(s.sent[i].entries, table))
  }

  lemma {:induction false} TrueIndex(results: seq<Found>, table: Lookup)
    requires TrueResults(results, table)
    ensures forall key :: key in IndexOf(results) ==> IndexOf(results)[key] == table(key)
  {
    if results != [] {
      TrueIndex(results[..|results| - 1], table);
    }
  }

  lemma {:induction false} TrueAnswers(c: Config, p: nat, lookup: Lookup, keys: seq<Key>, table: Lookup)
    requires forall key :: lookup(key) == table(key)
    ensures TrueResults(Answers(c, p, lookup, keys), table)
  {
    if keys != [] {
      TrueAnswers(c, p, lookup, keys[..|keys| - 1], table);
    }
  }

  lemma {:induction false} TruthfulReceive(c: Config, s: System, s': System, j: nat, table: Lookup)
    requires Truthful(s, table) && j < |s.replies| && s' == Next(c, s, Receive(j))
    ensures Truthful(s', table)
  {
    var index := IndexOf(s.replies[j].results);
    TrueIndex(s.replies[j].results, table);
    UpdatedSpec(s.st.pending, index, s.replies[j].ids);
    forall id | id in s.st.pending ensures TrueEntries(Filled(s.st.pending[id], index), table) {
    }
    var more := Updated(s.st.pending, index, s.replies[j].ids).1;
    forall i | 0 <= i < |s'.sent| ensures TrueEntries(s'.sent[i].entries, table) {
      if i >= |s.sent| {
        assert s'.sent[i] == more[i - |s.sent|];
      }
    }
  }

  lemma {:induction false} TruthfulStep(c: Config, s: System, step: Step, table: Lookup)
    requires Truthful(s, table) && Enabled(s, step) && Uses(step, table)
    requires c.regions == 1 ==> forall key :: table(key) == Meta(0, 0)
    ensures Truthful(Next(c, s, step), table)
  {
    match step
    case Arrive(_, keys, lookup) => assert TrueEntries(EntriesFor(c, lookup, keys), table);
    case Timer =>
    case Answer(i, lookup) => TrueAnswers(c, s.asked[i].part, lookup, s.asked[i].request.keys, table);
    case Receive(j) => TruthfulReceive(c, s, Next(c, s, step), j, table);
  }

  lemma {:induction false} RunTruthful(c: Config, steps: seq<Step>, states: seq<System>, i: nat, table: Lookup)
    requires Run(c, steps, states) && Consistent(c, steps, table) && i < |states|
    ensures Truthful(states[i], table)
  {
    if i > 0 {
      RunTruthful(c, steps, states, i - 1, table);
      TruthfulStep(c, states[i - 1], steps[i - 1], table);
    }
  }

  /** If lookups agree on one table, a transaction leaves with the table's master for each of its keys. */
  lemma {:induction false} LeavesWithMasters(c: Config, steps: seq<Step>, states: seq<System>, i: nat, a: nat, k: nat,
                                             table: Lookup)
    requires Run(c, steps, states) && Consistent(c, steps, table) && i < |states| && a < |states[i].sent|
    requires k < |states[i].sent[a].entries|
    ensures var e := states[i].sent[a].entries[k]; e.meta == Some(table(e.key))
  {
    RunInv(c, steps, states, i);
    RunTruthful(c, steps, states, i, table);
  }

  /**
    If lookups agree on one table, a transaction leaves as single-home at `h` exactly if the table
    names `h` for all its keys, and as multi-home exactly if the table names different masters.
  */
  lemma {:induction false} LeavesWithKind(c: Config, steps: seq<Step>, states: seq<System>, i: nat, a: nat, table: Lookup)
    requires Run(c, steps, states) && Consistent(c, steps, table) && i < |states| && a < |states[i].sent|
    ensures states[i].sent[a].id in states[i].arrived
    ensures var kind, keys := states[i].sent[a].kind, states[i].arrived[states[i].sent[a].id];
            && keys != [] && !kind.Unknown?
            && (forall h: nat :: kind == SingleHome(h) <==> forall key :: key in keys ==> table(key).master == h)
            && (kind.MultiHome? <==>
                  exists key, key' :: key in keys && key' in keys && table(key).master != table(key').master)
  {
    RunInv(c, steps, states, i);
    RunTruthful(c, steps, states, i, table);
    var s := states[i].sent[a];
    KindByTable(s.entries, states[i].arrived[s.id], table);
  }

  lemma {:induction false} KindByTable(entries: seq<Entry>, keys: seq<Key>, table: Lookup)
    requires SameKeys(entries, keys) && Complete(entries) && TrueEntries(entries, table)
    ensures keys != [] && !KindOf(entries).Unknown?
    ensures forall h: nat :: KindOf(entries) == SingleHome(h) <==> forall key :: key in keys ==> table(key).master == h
    ensures KindOf(entries).MultiHome? <==>
            exists key, key' :: key in keys && key' in keys && table(key).master != table(key').master
  {
    KindIs(entries);
    assert forall i :: 0 <= i < |keys| ==> keys[i] in keys && entries[i].meta.value == table(keys[i]);
    if MastersDiffer(entries) {
      var i, j :| 0 <= i < j < |entries| && entries[i].meta.value.master != entries[j].meta.value.master;
      assert keys[i] in keys && keys[j] in keys && table(keys[i]).master != table(keys[j]).master;
    }
    if key, key' :| key in keys && key' in keys && table(key).master != table(key').master {
      var i :| 0 <= i < |keys| && keys[i] == key;
      var j :| 0 <= j < |keys| && keys[j] == key';
      assert entries[i].meta.value.master != entries[j].meta.value.master;
      assert i < j || j < i;
    }
  }
}
