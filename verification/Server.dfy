/**
  The server's part: giving each client request an id, collecting the results of a transaction's
  partitions and answering the client once.
*/
module Servers {
  import opened Topology
  import opened TxnSplit
  import opened TxnMerge

  /** A transaction that some partitions have finished; `remaining` others have not. */
  datatype Finished = Finished(remaining: int, txn: Tx)

  /** The ids given so far, the clients that wait, the half-finished transactions, and the answers given. */
  datatype State = State(counter: nat, pending: set<nat>, finished: map<nat, Finished>, answers: seq<Tx>)

  /** A client asks, or a partition sends a result. */
  datatype Event = Ask | Result(sub: Tx, part: nat)

  const Begin := State(0, {}, map[], [])

  /** The first result counts how many there will be. */
  function SubTxnAdded(f: Finished, first: bool, sub: Tx, part: nat): Result<Finished> {
    if first then Success(Finished(f.remaining - 1, sub.(partitions := [part])))
    else
      match Merged(f.txn, sub)
      case Failure(error) => Failure(error)
      case Success(txn) => Success(Finished(f.remaining - 1, txn.(partitions := txn.partitions + [part])))
  }

  function Asked(s: State): State {
    s.(counter := s.counter + 1, pending := s.pending + {s.counter + 1})
  }

  function Collected(s: State, sub: Tx, part: nat): Result<State> {
    var id := sub.id;
    if id !in s.pending then Success(s)
    else
      var f := if id in s.finished then s.finished[id] else Finished(|sub.partitions|, sub);
      match SubTxnAdded(f, id !in s.finished, sub, part)
      case Failure(error) => Failure(error)
      case Success(f') =>
        if f'.remaining == 0 then
          Success(s.(pending := s.pending - {id}, finished := s.finished - {id}, answers := s.answers + [f'.txn]))
        else Success(s.(finished := s.finished[id := f']))
  }

  function Handled(s: State, e: Event): Result<State> {
    match e
    case Ask => Success(Asked(s))
    case Result(sub, part) => Collected(s, sub, part)
  }

  class Server {
    const machine: nat
    var counter: nat
    var pending: set<nat>
    var finished: map<nat, Finished>
    var answers: seq<Tx>

    function Current(): State
      reads this
    {
      State(counter, pending, finished, answers)
    }

    constructor (machine: nat)
      ensures this.machine == machine && Current() == Begin
    {
      this.machine := machine;
      counter, pending, finished, answers := 0, {}, map[], [];
    }

    /** A client's request gets the next id, under which its answer is awaited. */
    method NextTxnId() returns (id: nat)
      modifies this`counter, this`pending
      ensures Current() == Asked(old(Current())) && id == counter
    {
      counter := counter + 1;
      id := counter;
      pending := pending + {id};
    }

    method AddSubTxn(f: Finished, first: bool, sub: Tx, part: nat) returns (r: Result<Finished>)
      ensures r == SubTxnAdded(f, first, sub, part)
    {
      var remaining := f.remaining - 1;
      if first {
        r := Success(Finished(remaining, sub.(partitions := [part])));
      } else {
        var merged := MergeTransaction(f.txn, sub);
        if merged.Failure? {
          return Failure(merged.error);
        }
        var txn := merged.value;
        r := Success(Finished(remaining, txn.(partitions := txn.partitions + [part])));
      }
    }

    method ProcessFinishedSubtxn(sub: Tx, part: nat) returns (r: Result<bool>)
      modifies this`pending, this`finished, this`answers
      ensures match Collected(old(Current()), sub, part)
              case Success(s) => Current() == s && r == Success(s.answers != old(answers))
              case Failure(error) => r == Failure(error)
    {
      var id := sub.id;
      if id !in pending {
        return Success(false);
      }
      var first := id !in finished;
      if first {
        finished := finished[id := Finished(|sub.partitions|, sub)];
      }
      var added := AddSubTxn(finished[id], first, sub, part);
      if added.Failure? {
        return Failure(added.error);
      }
      finished := finished[id := added.value];
      if added.value.remaining == 0 {
        answers := answers + [added.value.txn];
        pending := pending - {id};
        finished := finished - {id};
        assert first ==> finished == old(finished) - {id};
        assert |answers| == |old(answers)| + 1;
        return Success(true);
      }
      r := Success(false);
    }
  }

  /* ---------- Any order of arrival ---------- */

  function Replay(es: seq<Event>): Result<State> {
    if es == [] then Success(Begin)
    else
      match Replay(es[..|es| - 1])
      case Failure(error) => Failure(error)
      case Success(s) => Handled(s, es[|es| - 1])
  }

  function Asks(es: seq<Event>): nat {
    if es == [] then 0 else Asks(es[..|es| - 1]) + if es[|es| - 1].Ask? then 1 else 0
  }

  /** Id `id` has been given to a client. */
  predicate Given(es: seq<Event>, id: nat) {
    1 <= id <= Asks(es)
  }

  /** The results of transaction `id` since its client asked, in order of arrival. */
  function Of(es: seq<Event>, id: nat): seq<Tx> {
    if es == [] then []
    else
      var before, e := es[..|es| - 1], es[|es| - 1];
      Of(before, id) + if e.Result? && e.sub.id == id && Given(before, id) then [e.sub] else []
  }

  /** The partitions that these results came from. */
  function From(es: seq<Event>, id: nat): (from: seq<nat>)
    ensures |from| == |Of(es, id)|
  {
    if es == [] then []
    else
      var before, e := es[..|es| - 1], es[|es| - 1];
      From(before, id) + if e.Result? && e.sub.id == id && Given(before, id) then [e.part] else []
  }

  function AnswersTo(answers: seq<Tx>, id: nat): seq<Tx> {
    if answers == [] then []
    else AnswersTo(answers[..|answers| - 1], id) +
         if answers[|answers| - 1].id == id then [answers[|answers| - 1]] else []
  }

  /** How many results the first one announces. */
  function Announced(parts: seq<Tx>): nat
    requires parts != []
  {
    |parts[0].partitions|
  }

  /** All results that a client waits for have come. */
  predicate AllIn(parts: seq<Tx>) {
    parts != [] && 0 < Announced(parts) <= |parts|
  }

  /** Where transaction `id` stands after its results `parts` have come in from partitions `from`. */
  ghost predicate Stands(s: State, id: nat, parts: seq<Tx>, from: seq<nat>)
    requires |from| == |parts|
  {
    if AllIn(parts) then
      && id !in s.pending && id !in s.finished && |AnswersTo(s.answers, id)| == 1
      && Answer(parts[..Announced(parts)], AnswersTo(s.answers, id)[0])
      && AnswersTo(s.answers, id)[0].partitions == from[..Announced(parts)]
    else
      && id in s.pending && AnswersTo(s.answers, id) == []
      && (id in s.finished <==> parts != [])
      && (parts != [] ==>
            && s.finished[id].remaining == Announced(parts) - |parts|
            && Answer(parts, s.finished[id].txn) && s.finished[id].txn.partitions == from)
  }

  lemma {:induction false} AnswersStep(answers: seq<Tx>, txn: Tx, id: nat)
    ensures AnswersTo(answers + [txn], id) == AnswersTo(answers, id) + if txn.id == id then [txn] else []
  {
    assert (answers + [txn])[..|answers|] == answers;
  }

  /** The table's entry after one more result. */
  lemma {:induction false} AddedAnswers(parts: seq<Tx>, f: Finished, sub: Tx, part: nat)
    requires Fit(parts + [sub])
    requires parts != [] ==> f.remaining == Announced(parts) - |parts| && Answer(parts, f.txn)
    requires parts == [] ==> f.remaining == |sub.partitions|
    ensures var r := SubTxnAdded(f, parts == [], sub, part);
            && r.Success? && r.value.remaining == Announced(parts + [sub]) - |parts| - 1
            && Answer(parts + [sub], r.value.txn) && r.value.txn.id == (parts + [sub])[0].id
            && r.value.txn.partitions == if parts == [] then [part] else f.txn.partitions + [part]
  {
    var more := parts + [sub];
    if parts == [] {
      assert more == [sub];
      AnswerOne(sub);
      SamePartsApart(more, sub, [part]);
    } else {
      assert more[0] == parts[0] && more[|parts|] == sub;
      AnswerMore(parts, f.txn, sub);
      var txn := Merged(f.txn, sub).value;
      SamePartsApart(more, txn, txn.partitions + [part]);
    }
  }

  lemma {:induction false} SamePartsApart(parts: seq<Tx>, txn: Tx, partitions: seq<nat>)
    requires parts != [] && Answer(parts, txn)
    ensures Answer(parts, txn.(partitions := partitions))
  {
  }

  /** Half-finished transactions are kept under their ids. */
  ghost predicate Filed(finished: map<nat, Finished>) {
    forall k :: k in finished ==> finished[k].txn.id == k
  }

  /** A result is answered, if at all, under its own id; other transactions are not touched. */
  lemma {:induction false} CollectedShape(s: State, sub: Tx, part: nat, s': State)
    requires Filed(s.finished) && Collected(s, sub, part) == Success(s')
    ensures s'.counter == s.counter && Filed(s'.finished)
    ensures forall k :: k != sub.id ==>
              && (k in s'.pending <==> k in s.pending) && (k in s'.finished <==> k in s.finished)
              && (k in s.finished ==> s'.finished[k] == s.finished[k])
    ensures s'.answers == s.answers || exists txn :: s'.answers == s.answers + [txn] && txn.id == sub.id
    ensures sub.id !in s.pending ==> s' == s
  {
    if s' != s {
      var f := if sub.id in s.finished then s.finished[sub.id] else Finished(|sub.partitions|, sub);
      var f' := SubTxnAdded(f, sub.id !in s.finished, sub, part).value;
      assert f'.txn.id == sub.id;
    }
  }

  /** What a result leaves alone of the other transactions' answers. */
  lemma {:induction false} OthersAnswers(s: State, sub: Tx, part: nat, s': State, id: nat)
    requires Filed(s.finished) && Collected(s, sub, part) == Success(s') && (sub.id != id || sub.id !in s.pending)
    ensures AnswersTo(s'.answers, id) == AnswersTo(s.answers, id)
  {
    CollectedShape(s, sub, part, s');
    if s'.answers != s.answers {
      var txn :| s'.answers == s.answers + [txn] && txn.id == sub.id;
      AnswersStep(s.answers, txn, id);
    }
  }

  lemma {:induction false} StandsOther(s: State, sub: Tx, part: nat, s': State, id: nat, parts: seq<Tx>,
                                         from: seq<nat>)
    requires |from| == |parts| && Stands(s, id, parts, from)
    requires sub.id != id && Collected(s, sub, part) == Success(s') && Filed(s.finished)
    ensures Stands(s', id, parts, from)
  {
    CollectedShape(s, sub, part, s');
    OthersAnswers(s, sub, part, s', id);
  }

  /** A result that comes after all announced ones have come is dropped. */
  lemma {:induction false} StandsLate(s: State, sub: Tx, part: nat, parts: seq<Tx>, from: seq<nat>)
    requires |from| == |parts| && Stands(s, sub.id, parts, from) && AllIn(parts)
    ensures Collected(s, sub, part) == Success(s) && Stands(s, sub.id, parts + [sub], from + [part])
  {
    var more, n := parts + [sub], Announced(parts);
    assert more[0] == parts[0] && more[..n] == parts[..n] && (from + [part])[..n] == from[..n];
  }

  lemma {:induction false} StandsAnswered(s: State, id: nat, parts: seq<Tx>, from: seq<nat>, txn: Tx)
    requires |from| == |parts| && AllIn(parts) && |parts| == Announced(parts)
    requires id !in s.pending && id !in s.finished && AnswersTo(s.answers, id) == [txn]
    requires Answer(parts, txn) && txn.partitions == from
    ensures Stands(s, id, parts, from)
  {
    assert parts[..|parts|] == parts && from[..|parts|] == from;
  }

  /** What taking in a result does, in terms of the table's new entry `f`. */
  lemma {:induction false} CollectedWith(s: State, sub: Tx, part: nat, f: Finished)
    requires sub.id in s.pending
    requires var was := if sub.id in s.finished then s.finished[sub.id] else Finished(|sub.partitions|, sub);
             SubTxnAdded(was, sub.id !in s.finished, sub, part) == Success(f)
    ensures Collected(s, sub, part) ==
            Success(if f.remaining == 0 then
                      s.(answers := s.answers + [f.txn], pending := s.pending - {sub.id}, finished := s.finished - {sub.id})
                    else s.(finished := s.finished[sub.id := f]))
  {
  }

  /** A result that comes before is merged, and completes the answer if it is the last announced one. */
  lemma {:induction false} StandsEarly(s: State, sub: Tx, part: nat, parts: seq<Tx>, from: seq<nat>)
    requires |from| == |parts| && Stands(s, sub.id, parts, from) && !AllIn(parts)
    requires Fit(parts + [sub]) && (parts != [] ==> parts[0].id == sub.id)
    ensures Collected(s, sub, part).Success?
    ensures Stands(Collected(s, sub, part).value, sub.id, parts + [sub], from + [part])
  {
    var id, more := sub.id, parts + [sub];
    assert parts != [] ==> more[0] == parts[0];
    var f := if id in s.finished then s.finished[id] else Finished(|sub.partitions|, sub);
    AddedAnswers(parts, f, sub, part);
    var f' := SubTxnAdded(f, parts == [], sub, part).value;
    CollectedWith(s, sub, part, f');
    if f'.remaining == 0 {
      AnswersStep(s.answers, f'.txn, id);
      StandsAnswered(Collected(s, sub, part).value, id, more, from + [part], f'.txn);
    }
  }

  lemma {:induction false} StandsOwn(s: State, sub: Tx, part: nat, parts: seq<Tx>, from: seq<nat>)
    requires |from| == |parts| && Stands(s, sub.id, parts, from)
    requires Fit(parts + [sub]) && (parts != [] ==> parts[0].id == sub.id)
    ensures Collected(s, sub, part).Success?
    ensures Stands(Collected(s, sub, part).value, sub.id, parts + [sub], from + [part])
  {
    if AllIn(parts) {
      StandsLate(s, sub, part, parts, from);
    } else {
      StandsEarly(s, sub, part, parts, from);
    }
  }

  /** Nobody has asked under `id`, so nothing is kept or answered. */
  ghost predicate Ignored(s: State, id: nat) {
    id !in s.pending && id !in s.finished && AnswersTo(s.answers, id) == []
  }

  ghost predicate StandsOr(s: State, es: seq<Event>, id: nat) {
    if Given(es, id) then Stands(s, id, Of(es, id), From(es, id)) else Ignored(s, id)
  }

  ghost predicate AllStand(s: State, es: seq<Event>) {
    && s.counter == Asks(es) && Filed(s.finished)
    && forall id {:trigger StandsOr(s, es, id)} :: StandsOr(s, es, id)
  }

  lemma {:induction false} Last(es: seq<Event>, e: Event)
    ensures (es + [e])[..|es + [e]| - 1] == es && (es + [e])[|es + [e]| - 1] == e
  {
  }

  lemma {:induction false} OfIds(es: seq<Event>, id: nat)
    ensures forall i :: 0 <= i < |Of(es, id)| ==> Of(es, id)[i].id == id
    ensures !Given(es, id) ==> Of(es, id) == []
  {
    if es != [] {
      OfIds(es[..|es| - 1], id);
    }
  }

  lemma {:induction false} AskStands(s: State, es: seq<Event>, id: nat)
    requires AllStand(s, es)
    ensures StandsOr(Asked(s), es + [Ask], id)
  {
    Last(es, Ask);
    assert Of(es + [Ask], id) == Of(es, id) + [] == Of(es, id);
    assert From(es + [Ask], id) == From(es, id) + [] == From(es, id);
    assert StandsOr(s, es, id);
    OfIds(es, id);
  }

  lemma {:induction false} ResultStands(s: State, es: seq<Event>, sub: Tx, part: nat, s': State, id: nat)
    requires AllStand(s, es) && (Given(es, sub.id) ==> Fit(Of(es, sub.id) + [sub])) && Collected(s, sub, part) == Success(s')
    ensures StandsOr(s', es + [Result(sub, part)], id)
  {
    Last(es, Result(sub, part));
    assert StandsOr(s, es, id);
    OfIds(es, id);
    assert Of(es, id) + [] == Of(es, id) && From(es, id) + [] == From(es, id);
    if !Given(es, id) {
      CollectedShape(s, sub, part, s');
      OthersAnswers(s, sub, part, s', id);
    } else if id == sub.id {
      StandsOwn(s, sub, part, Of(es, id), From(es, id));
    } else {
      StandsOther(s, sub, part, s', id, Of(es, id), From(es, id));
    }
  }

  lemma {:induction false} ResultSucceeds(s: State, es: seq<Event>, sub: Tx, part: nat)
    requires AllStand(s, es) && (Given(es, sub.id) ==> Fit(Of(es, sub.id) + [sub]))
    ensures Collected(s, sub, part).Success?
  {
    assert StandsOr(s, es, sub.id);
    OfIds(es, sub.id);
    if Given(es, sub.id) {
      StandsOwn(s, sub, part, Of(es, sub.id), From(es, sub.id));
    }
  }

  lemma {:induction false} StepStands(s: State, es: seq<Event>, e: Event)
    requires AllStand(s, es) && (e.Result? && Given(es, e.sub.id) ==> Fit(Of(es, e.sub.id) + [e.sub]))
    ensures Handled(s, e).Success? && AllStand(Handled(s, e).value, es + [e])
  {
    Last(es, e);
    match e
    case Ask =>
      forall id ensures StandsOr(Asked(s), es + [e], id) {
        AskStands(s, es, id);
      }
    case Result(sub, part) =>
      ResultSucceeds(s, es, sub, part);
      var s' := Collected(s, sub, part).value;
      CollectedShape(s, sub, part, s');
      forall id ensures StandsOr(s', es + [e], id) {
        ResultStands(s, es, sub, part, s', id);
      }
  }

  lemma {:induction false} FitEarlier(es: seq<Event>, id: nat)
    requires es != [] && Fit(Of(es, id))
    ensures Fit(Of(es[..|es| - 1], id))
  {
    var n := |Of(es[..|es| - 1], id)|;
    FitPrefix(Of(es, id), n);
    assert Of(es, id)[..n] == Of(es[..|es| - 1], id);
  }

  lemma {:induction false} BeginStands()
    ensures AllStand(Begin, [])
  {
  }

  /** Results that fit are taken in without an error, in whatever order results and clients come. */
  lemma {:induction false} ReplayStands(es: seq<Event>)
    requires forall id :: Fit(Of(es, id))
    ensures Replay(es).Success? && AllStand(Replay(es).value, es)
  {
    if es == [] {
      BeginStands();
    } else {
      var before, e := es[..|es| - 1], es[|es| - 1];
      forall id ensures Fit(Of(before, id)) {
        FitEarlier(es, id);
      }
      ReplayStands(before);
      assert es == before + [e];
      assert e.Result? && Given(before, e.sub.id) ==> Of(es, e.sub.id) == Of(before, e.sub.id) + [e.sub];
      StepStands(Replay(before).value, before, e);
    }
  }

  /**
    A client gets exactly one answer once all announced results are in, and none before; it says
    aborted exactly if some result did, and otherwise holds each key and region of the results, and
    lists the partitions that the results came from.
    Ids under which nobody asked get no answer.  Clients come at any time.
  */
  lemma {:induction false} AnsweredOnce(es: seq<Event>, id: nat)
    requires forall k :: Fit(Of(es, k))
    ensures Replay(es).Success?
    ensures var s, parts := Replay(es).value, Of(es, id);
            && |AnswersTo(s.answers, id)| == (if Given(es, id) && AllIn(parts) then 1 else 0)
            && (id in s.pending <==> Given(es, id) && !AllIn(parts))
            && (Given(es, id) && AllIn(parts) ==>
                  && Answer(parts[..Announced(parts)], AnswersTo(s.answers, id)[0])
                  && AnswersTo(s.answers, id)[0].partitions == From(es, id)[..Announced(parts)])
  {
    ReplayStands(es);
    assert StandsOr(Replay(es).value, es, id);
  }

  /** With one result per announced partition, the order of arrival does not change the answer. */
  lemma {:induction false} OrderIrrelevant(es: seq<Event>, es': seq<Event>, id: nat)
    requires (forall k :: Fit(Of(es, k))) && (forall k :: Fit(Of(es', k)))
    requires AllIn(Of(es, id)) && |Of(es, id)| == Announced(Of(es, id))
    requires AllIn(Of(es', id)) && |Of(es', id)| == Announced(Of(es', id))
    requires forall p :: p in Of(es, id) <==> p in Of(es', id)
    ensures Replay(es).Success? && Replay(es').Success?
    ensures var a, b := AnswersTo(Replay(es).value.answers, id), AnswersTo(Replay(es').value.answers, id);
            && |a| == |b| == 1 && (a[0].status == Aborted <==> b[0].status == Aborted)
            && a[0].regions == b[0].regions
            && (a[0].status != Aborted ==> forall kv :: kv in a[0].keys <==> kv in b[0].keys)
  {
    OfIds(es, id);
    OfIds(es', id);
    AnsweredOnce(es, id);
    AnsweredOnce(es', id);
    assert Of(es, id)[..|Of(es, id)|] == Of(es, id) && Of(es', id)[..|Of(es', id)|] == Of(es', id);
    SameParts(Of(es, id), Of(es', id), AnswersTo(Replay(es).value.answers, id)[0],
              AnswersTo(Replay(es').value.answers, id)[0]);
  }

  lemma {:induction false} SameParts(parts: seq<Tx>, parts': seq<Tx>, txn: Tx, txn': Tx)
    requires AllIn(parts) && |parts| == Announced(parts) && AllIn(parts') && |parts'| == Announced(parts') && Fit(parts)
    requires (forall p :: p in parts <==> p in parts')
    requires Answer(parts, txn) && Answer(parts', txn')
    ensures txn.status == Aborted <==> txn'.status == Aborted
    ensures txn.status != Aborted ==> forall kv :: kv in txn.keys <==> kv in txn'.keys
    ensures txn.regions == txn'.regions
  {
    SameNumber(parts, parts');
    AnswersAlike(parts, parts', txn, txn');
  }

  /** One result is announced in both orders, or several are. */
  lemma {:induction false} SameNumber(parts: seq<Tx>, parts': seq<Tx>)
    requires AllIn(parts) && |parts| == Announced(parts) && AllIn(parts') && |parts'| == Announced(parts')
    requires (forall p :: p in parts <==> p in parts')
    ensures |parts| == 1 <==> |parts'| == 1
  {
    assert parts[0] in parts' && parts'[0] in parts;
    assert |parts| == 1 ==> parts'[0] == parts[0];
    assert |parts'| == 1 ==> parts[0] == parts'[0];
  }
}
