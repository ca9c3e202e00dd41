/**
  The forwarder of one machine: it finds out who masters the keys of a transaction, asking the
  other partitions in batches, and then sends the transaction on.
*/
module Forwarders {
  import opened Topology
  import opened Listings

  type Key = string

  datatype Meta = Meta(master: nat, counter: nat)

  /** A key of a transaction and, once known, its metadata. */
  datatype Entry = Entry(key: Key, meta: Option<Meta>)

  datatype Request = Request(keys: seq<Key>, ids: seq<nat>)
  datatype Found = Found(key: Key, meta: Meta)
  datatype Reply = Reply(ids: seq<nat>, results: seq<Found>)

  datatype Kind = Unknown | SingleHome(home: nat) | MultiHome

  /** A transaction that has left the forwarder. */
  datatype Sent = Sent(id: nat, entries: seq<Entry>, kind: Kind)

  /** How many regions and partitions there are, which partition this is, and where keys belong. */
  datatype Config = Config(regions: nat, partitions: nat, local: nat, part: Key -> nat)

  /** What a machine answers for its own keys: the stored metadata or the default. */
  type Lookup = Key -> Meta

  ghost predicate ValidConfig(c: Config) {
    c.regions > 0 && c.local < c.partitions && forall key :: c.part(key) < c.partitions
  }

  /* ---------- The type of a transaction ---------- */

  predicate Complete(entries: seq<Entry>) {
    entries != [] && forall i :: 0 <= i < |entries| ==> entries[i].meta.Some?
  }

  /** Unknown until every key's master is known; then by whether the masters agree. */
  function KindOf(entries: seq<Entry>): Kind {
    if !Complete(entries) then Unknown
    else if forall i :: 0 <= i < |entries| ==> entries[i].meta.value.master == entries[0].meta.value.master
    then SingleHome(entries[0].meta.value.master) else MultiHome
  }

  predicate AllMasteredBy(entries: seq<Entry>, h: nat) {
    forall i :: 0 <= i < |entries| ==> entries[i].meta.Some? && entries[i].meta.value.master == h
  }

  predicate MastersDiffer(entries: seq<Entry>) {
    exists i, j :: 0 <= i < j < |entries| && entries[i].meta.Some? && entries[j].meta.Some?
                   && entries[i].meta.value.master != entries[j].meta.value.master
  }

  lemma {:induction false} KindIs(entries: seq<Entry>)
    ensures KindOf(entries).Unknown? <==> !Complete(entries)
    ensures forall h: nat :: KindOf(entries) == SingleHome(h) <==> Complete(entries) && AllMasteredBy(entries, h)
    ensures KindOf(entries).MultiHome? <==> Complete(entries) && MastersDiffer(entries)
  {
    if Complete(entries) && !AllMasteredBy(entries, entries[0].meta.value.master) {
      var j :| 0 <= j < |entries| && entries[j].meta.value.master != entries[0].meta.value.master;
      assert 0 < j;
    }
  }

  method SetTransactionType(entries: seq<Entry>) returns (kind: Kind)
    ensures kind == KindOf(entries)
    ensures kind.Unknown? <==> !Complete(entries)
    ensures forall h: nat :: kind == SingleHome(h) <==> Complete(entries) && AllMasteredBy(entries, h)
    ensures kind.MultiHome? <==> Complete(entries) && MastersDiffer(entries)
  {
    KindIs(entries);
    var complete := entries != [];
    var i := 0;
    while i < |entries| && complete
      invariant i <= |entries|
      invariant complete <==> entries != [] && forall k :: 0 <= k < i ==> entries[k].meta.Some?
    {
      if entries[i].meta.None? {
        complete := false;
      }
      i := i + 1;
    }
    if !complete {
      return Unknown;
    }
    var home := entries[0].meta.value.master;
    var single := true;
    i := 0;
    while i < |entries| && single
      invariant i <= |entries|
      invariant single <==> forall k :: 0 <= k < i ==> entries[k].meta.value.master == home
    {
      if entries[i].meta.value.master != home {
        single := false;
      }
      i := i + 1;
    }
    kind := if single then SingleHome(home) else MultiHome;
  }

  /* ---------- A transaction arrives ---------- */

  predicate Remote(c: Config, key: Key) {
    c.regions != 1 && c.part(key) != c.local
  }

  /** With one region metadata is irrelevant; own keys are looked up; the others stay open. */
  function EntryFor(c: Config, lookup: Lookup, key: Key): Entry {
    if c.regions == 1 then Entry(key, Some(Meta(0, 0)))
    else if c.part(key) == c.local then Entry(key, Some(lookup(key)))
    else Entry(key, None)
  }

  function EntriesFor(c: Config, lookup: Lookup, keys: seq<Key>): seq<Entry> {
    seq(|keys|, i requires 0 <= i < |keys| => EntryFor(c, lookup, keys[i]))
  }

  /** The keys of partition `p` that have to be asked for, in order. */
  function AskedAt(c: Config, keys: seq<Key>, p: nat): seq<Key> {
    if keys == [] then []
    else AskedAt(c, keys[..|keys| - 1], p) +
         if Remote(c, keys[|keys| - 1]) && c.part(keys[|keys| - 1]) == p then [keys[|keys| - 1]] else []
  }

  /** The requests after a transaction's remote keys, and its id, were added. */
  function Asking(c: Config, requests: seq<Request>, keys: seq<Key>, id: nat): seq<Request> {
    seq(|requests|, p requires 0 <= p < |requests| =>
          var more := AskedAt(c, keys, p);
          Request(requests[p].keys + more, requests[p].ids + if p != c.local && Involved(c, keys, p) then [id] else []))
  }

  predicate Involved(c: Config, keys: seq<Key>, p: nat) {
    exists i :: 0 <= i < |keys| && c.part(keys[i]) == p
  }

  /** The forwarder's own state. */
  datatype State = State(pending: map<nat, seq<Entry>>, requests: seq<Request>, size: nat)

  datatype Outcome = Outcome(state: State, sent: seq<Sent>)

  /** Forwarding a transaction whose type is not known comes to nothing. */
  function Forwarded(id: nat, entries: seq<Entry>): seq<Sent> {
    if KindOf(entries).Unknown? then [] else [Sent(id, entries, KindOf(entries))]
  }

  predicate NeedsLookup(c: Config, keys: seq<Key>) {
    exists i :: 0 <= i < |keys| && Remote(c, keys[i])
  }

  function Arrived(c: Config, st: State, lookup: Lookup, id: nat, keys: seq<Key>): Outcome {
    var entries := EntriesFor(c, lookup, keys);
    if !NeedsLookup(c, keys) then Outcome(st, Forwarded(id, entries))
    else Outcome(State(st.pending[id := entries], Asking(c, st.requests, keys, id), st.size + 1), [])
  }

  /* ---------- A lookup is answered, and the answer comes back ---------- */

  function Answers(c: Config, p: nat, lookup: Lookup, keys: seq<Key>): seq<Found> {
    if keys == [] then []
    else
      var last := keys[|keys| - 1];
      Answers(c, p, lookup, keys[..|keys| - 1]) + if c.part(last) == p then [Found(last, lookup(last))] else []
  }

  /** What partition `p` replies. */
  function Answered(c: Config, p: nat, lookup: Lookup, request: Request): Reply {
    Reply(request.ids, Answers(c, p, lookup, request.keys))
  }

  method ProcessLookUpMasterRequest(c: Config, p: nat, lookup: Lookup, request: Request) returns (reply: Reply)
    ensures reply == Answered(c, p, lookup, request)
  {
    var results := [];
    var i := 0;
    while i < |request.keys|
      invariant i <= |request.keys|
      invariant results == Answers(c, p, lookup, request.keys[..i])
    {
      var key := request.keys[i];
      assert request.keys[..i + 1][..i] == request.keys[..i];
      if c.part(key) == p {
        results := results + [Found(key, lookup(key))];
      }
      i := i + 1;
    }
    assert request.keys[..i] == request.keys;
    reply := Reply(request.ids, results);
  }

  /** The last result for each key. */
  function IndexOf(results: seq<Found>): map<Key, Meta> {
    if results == [] then map[]
    else IndexOf(results[..|results| - 1])[results[|results| - 1].key := results[|results| - 1].meta]
  }

  function FilledIn(e: Entry, index: map<Key, Meta>): Entry {
    if e.meta.None? && e.key in index then e.(meta := Some(index[e.key])) else e
  }

  function Filled(entries: seq<Entry>, index: map<Key, Meta>): seq<Entry> {
    seq(|entries|, i requires 0 <= i < |entries| => FilledIn(entries[i], index))
  }

  /** Transactions that are complete now leave. */
  function Updated(pending: map<nat, seq<Entry>>, index: map<Key, Meta>, ids: seq<nat>): (map<nat, seq<Entry>>, seq<Sent>) {
    if ids == [] then (pending, [])
    else
      var before := Updated(pending, index, ids[..|ids| - 1]);
      var id := ids[|ids| - 1];
      if id !in before.0 then before
      else
        var entries := Filled(before.0[id], index);
        if KindOf(entries).Unknown? then (before.0[id := entries], before.1)
        else (before.0 - {id}, before.1 + [Sent(id, entries, KindOf(entries))])
  }

  function MasterInfoUpdated(st: State, reply: Reply): Outcome {
    var r := Updated(st.pending, IndexOf(reply.results), reply.ids);
    Outcome(st.(pending := r.0), r.1)
  }

  /* ---------- The batch of requests goes out ---------- */

  datatype Asked = Asked(part: nat, request: Request)

  /** The non-empty requests to the partitions below `n`. */
  function Outgoing(requests: seq<Request>, n: nat): seq<Asked>
    requires n <= |requests|
  {
    if n == 0 then []
    else Outgoing(requests, n - 1) + if requests[n - 1].ids != [] then [Asked(n - 1, requests[n - 1])] else []
  }

  function Cleared(requests: seq<Request>): seq<Request> {
    seq(|requests|, p requires 0 <= p < |requests| => if requests[p].ids != [] then Request([], []) else requests[p])
  }

  /** One of the keys that are written belongs to partition `p`. */
  predicate Active(c: Config, keys: seq<Key>, writes: seq<bool>, p: nat) {
    exists i :: 0 <= i < |keys| && i < |writes| && writes[i] && c.part(keys[i]) == p
  }

  /** The partitions that the keys belong to, and those that the written keys belong to, ascending. */
  method PopulateInvolvedPartitions(c: Config, keys: seq<Key>, writes: seq<bool>)
    returns (involved: seq<nat>, active: seq<nat>)
    requires ValidConfig(c) && |writes| == |keys|
    ensures Ascending(involved) && forall p: nat :: p in involved <==> Involved(c, keys, p)
    ensures Ascending(active) && forall p: nat :: p in active <==> Active(c, keys, writes, p)
  {
    var isInvolved, isActive := new bool[c.partitions](p => false), new bool[c.partitions](p => false);
    var i := 0;
    while i < |keys|
      invariant i <= |keys|
      invariant forall p :: 0 <= p < c.partitions ==> (isInvolved[p] <==> Involved(c, keys[..i], p))
      invariant forall p :: 0 <= p < c.partitions ==> (isActive[p] <==> Active(c, keys[..i], writes, p))
    {
      var at := c.part(keys[i]);
      isInvolved[at] := true;
      if writes[i] {
        isActive[at] := true;
      }
      forall p | 0 <= p < c.partitions
        ensures isInvolved[p] <==> Involved(c, keys[..i + 1], p)
        ensures isActive[p] <==> Active(c, keys[..i + 1], writes, p)
      {
        InvolvedMore(c, keys, i, p);
        ActiveMore(c, keys, writes, i, p);
      }
      i := i + 1;
    }
    assert keys[..i] == keys;
    involved := ListSet(isInvolved[..]);
    active := ListSet(isActive[..]);
  }

  lemma {:induction false} ActiveMore(c: Config, keys: seq<Key>, writes: seq<bool>, i: nat, p: nat)
    requires i < |keys| == |writes|
    ensures Active(c, keys[..i + 1], writes, p) <==>
            Active(c, keys[..i], writes, p) || (writes[i] && c.part(keys[i]) == p)
  {
    if Active(c, keys[..i], writes, p) {
      var k :| 0 <= k < i && writes[k] && c.part(keys[..i][k]) == p;
      assert keys[..i + 1][k] == keys[..i][k];
    }
    if writes[i] && c.part(keys[i]) == p {
      assert keys[..i + 1][i] == keys[i];
    }
    if Active(c, keys[..i + 1], writes, p) {
      var k :| 0 <= k < i + 1 && writes[k] && c.part(keys[..i + 1][k]) == p;
      assert k < i ==> keys[..i][k] == keys[..i + 1][k];
    }
  }

  lemma {:induction false} InvolvedMore(c: Config, keys: seq<Key>, i: nat, p: nat)
    requires i < |keys|
    ensures Involved(c, keys[..i + 1], p) <==> Involved(c, keys[..i], p) || c.part(keys[i]) == p
  {
    if Involved(c, keys[..i], p) {
      var k :| 0 <= k < i && c.part(keys[..i][k]) == p;
      assert keys[..i + 1][k] == keys[..i][k];
    }
    if c.part(keys[i]) == p {
      assert keys[..i + 1][i] == keys[i];
    }
    if Involved(c, keys[..i + 1], p) {
      var k :| 0 <= k < i + 1 && c.part(keys[..i + 1][k]) == p;
      assert k < i ==> keys[..i][k] == keys[..i + 1][k];
    }
  }

  lemma {:induction false} AskedAtMore(c: Config, keys: seq<Key>, i: nat, p: nat)
    requires i < |keys|
    ensures AskedAt(c, keys[..i + 1], p) ==
            AskedAt(c, keys[..i], p) + if Remote(c, keys[i]) && c.part(keys[i]) == p then [keys[i]] else []
  {
    assert keys[..i + 1][..i] == keys[..i];
  }

  class Forwarder {
    const c: Config
    var pending: map<nat, seq<Entry>>
    var requests: seq<Request>
    var size: nat

    ghost predicate Ready()
      reads this
    {
      ValidConfig(c) && |requests| == c.partitions
    }

    function Current(): State
      reads this
    {
      State(pending, requests, size)
    }

    constructor (c: Config)
      requires ValidConfig(c)
      ensures this.c == c && Ready()
      ensures Current() == State(map[], seq(c.partitions, p => Request([], [])), 0)
    {
      this.c := c;
      pending, size := map[], 0;
      requests := seq(c.partitions, p => Request([], []));
    }

    /** Looks up what it can and notes what has to be asked. */
    method Look(lookup: Lookup, keys: seq<Key>) returns (entries: seq<Entry>, remote: bool)
      requires Ready()
      modifies this`requests
      ensures Ready() && entries == EntriesFor(c, lookup, keys) && remote == NeedsLookup(c, keys)
      ensures forall p :: 0 <= p < c.partitions ==>
                requests[p] == Request(old(requests)[p].keys + AskedAt(c, keys, p), old(requests)[p].ids)
    {
      entries, remote := [], false;
      var i := 0;
      while i < |keys|
        modifies this`requests
        invariant i <= |keys| && Ready() && |entries| == i
        invariant forall k :: 0 <= k < i ==> entries[k] == EntryFor(c, lookup, keys[k])
        invariant remote <==> exists k :: 0 <= k < i && Remote(c, keys[k])
        invariant forall p :: 0 <= p < c.partitions ==>
                    requests[p] == Request(old(requests)[p].keys + AskedAt(c, keys[..i], p), old(requests)[p].ids)
      {
        var key := keys[i];
        forall p | 0 <= p < c.partitions
          ensures AskedAt(c, keys[..i + 1], p) ==
                  AskedAt(c, keys[..i], p) + if Remote(c, key) && c.part(key) == p then [key] else []
        {
          AskedAtMore(c, keys, i, p);
        }
        if c.regions == 1 {
          entries := entries + [Entry(key, Some(Meta(0, 0)))];
        } else if c.part(key) == c.local {
          entries := entries + [Entry(key, Some(lookup(key)))];
        } else {
          entries := entries + [Entry(key, None)];
          var p := c.part(key);
          requests := requests[p := requests[p].(keys := requests[p].keys + [key])];
          remote := true;
        }
        i := i + 1;
      }
      assert keys[..i] == keys;
    }

    /** The requests that the transaction waits for carry its id. */
    method Note(id: nat, keys: seq<Key>, writes: seq<bool>)
      requires Ready() && |writes| == |keys|
      modifies this`requests
      ensures Ready()
      ensures forall p :: 0 <= p < c.partitions ==>
                requests[p] == Request(old(requests)[p].keys,
                                       old(requests)[p].ids + if p != c.local && Involved(c, keys, p) then [id] else [])
    {
      var involved, _ := PopulateInvolvedPartitions(c, keys, writes);
      var j := 0;
      while j < |involved|
        modifies this`requests
        invariant j <= |involved| && Ready()
        invariant forall p :: 0 <= p < c.partitions ==>
                    requests[p] == Request(old(requests)[p].keys,
                                           old(requests)[p].ids + if p != c.local && p in involved[..j] then [id] else [])
      {
        var p := involved[j];
        assert p in involved && p !in involved[..j] && involved[..j + 1] == involved[..j] + [p];
        assert p < c.partitions by {
          var i :| 0 <= i < |keys| && c.part(keys[i]) == p;
        }
        if p != c.local {
          requests := requests[p := requests[p].(ids := requests[p].ids + [id])];
        }
        j := j + 1;
      }
      assert involved[..j] == involved;
    }

    method ProcessForwardTxn(id: nat, keys: seq<Key>, writes: seq<bool>, lookup: Lookup)
      returns (sent: seq<Sent>, first: bool)
      requires Ready() && |writes| == |keys|
      modifies this
      ensures Ready() && Outcome(Current(), sent) == Arrived(c, old(Current()), lookup, id, keys)
      ensures first <==> size == 1 && old(size) == 0
    {
      first := false;
      var entries, remote := Look(lookup, keys);
      if !remote {
        NothingToAsk(c, keys, old(requests), requests);
        var kind := SetTransactionType(entries);
        sent := if kind.Unknown? then [] else [Sent(id, entries, kind)];
        return;
      }
      Note(id, keys, writes);
      sent := [];
      pending := pending[id := entries];
      size := size + 1;
      first := size == 1;
      assert requests == Asking(c, old(requests), keys, id);
    }

    method SendLookupMasterRequestBatch() returns (asked: seq<Asked>)
      requires Ready()
      modifies this`requests, this`size
      ensures Ready() && requests == Cleared(old(requests)) && size == 0
      ensures asked == Outgoing(old(requests), c.partitions)
    {
      asked := [];
      var p := 0;
      while p < c.partitions
        modifies this`requests
        invariant p <= c.partitions && Ready()
        invariant asked == Outgoing(old(requests), p)
        invariant forall k :: 0 <= k < c.partitions ==>
                    requests[k] == if k < p then Cleared(old(requests))[k] else old(requests)[k]
      {
        if requests[p].ids != [] {
          asked := asked + [Asked(p, requests[p])];
          requests := requests[p := Request([], [])];
        }
        p := p + 1;
      }
      size := 0;
    }

    method UpdateMasterInfo(reply: Reply) returns (sent: seq<Sent>)
      modifies this`pending
      ensures Outcome(Current(), sent) == MasterInfoUpdated(old(Current()), reply)
    {
      var index := map[];
      var i := 0;
      while i < |reply.results|
        invariant i <= |reply.results| && index == IndexOf(reply.results[..i])
      {
        assert reply.results[..i + 1][..i] == reply.results[..i];
        index := index[reply.results[i].key := reply.results[i].meta];
        i := i + 1;
      }
      assert reply.results[..i] == reply.results;
      sent := [];
      var j := 0;
      while j < |reply.ids|
        modifies this`pending
        invariant j <= |reply.ids|
        invariant (pending, sent) == Updated(old(pending), index, reply.ids[..j])
      {
        assert reply.ids[..j + 1][..j] == reply.ids[..j];
        var id := reply.ids[j];
        if id in pending {
          var entries := Fill(pending[id], index);
          var kind := SetTransactionType(entries);
          if kind.Unknown? {
            pending := pending[id := entries];
          } else {
            sent := sent + [Sent(id, entries, kind)];
            pending := pending - {id};
          }
        }
        j := j + 1;
      }
      assert reply.ids[..j] == reply.ids;
    }
  }

  method Fill(entries: seq<Entry>, index: map<Key, Meta>) returns (filled: seq<Entry>)
    ensures filled == Filled(entries, index)
  {
    filled := entries;
    var i := 0;
    while i < |entries|
      invariant i <= |entries| == |filled|
      invariant forall k :: 0 <= k < |entries| ==>
                  filled[k] == if k < i then FilledIn(entries[k], index) else entries[k]
    {
      if filled[i].meta.None? && filled[i].key in index {
        filled := filled[i := filled[i].(meta := Some(index[filled[i].key]))];
      }
      i := i + 1;
    }
  }

  lemma {:induction false} NothingAskedAt(c: Config, keys: seq<Key>, p: nat)
    requires forall i :: 0 <= i < |keys| ==> !Remote(c, keys[i])
    ensures AskedAt(c, keys, p) == []
  {
    if keys != [] {
      NothingAskedAt(c, keys[..|keys| - 1], p);
    }
  }

  lemma {:induction false} NothingToAsk(c: Config, keys: seq<Key>, before: seq<Request>, after: seq<Request>)
    requires !NeedsLookup(c, keys) && |before| == |after|
    requires forall p :: 0 <= p < |before| ==> after[p] == Request(before[p].keys + AskedAt(c, keys, p), before[p].ids)
    ensures after == before
  {
    forall p | 0 <= p < |before| ensures after[p] == before[p] {
      NothingAskedAt(c, keys, p);
      assert before[p].keys + [] == before[p].keys;
    }
  }
}
