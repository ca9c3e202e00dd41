/**
  The reader-writer latch, for any number of threads and any limit `max` on readers.

  A step is what one thread does between getting the mutex and giving it up or starting to wait.
  A thread that waits on a condition variable sleeps until a notification, or a spurious wakeup,
  makes it contend for the mutex again.
*/
module RwLatch {

  datatype Mode =
    | Idle
    | WantRead | SleepRead | Reading
    | WantWrite | SleepEnter | WantDrain | SleepDrain | Writing

  datatype Latch = Latch(threads: seq<Mode>, readerCount: nat, writerEntered: bool)

  function Start(n: nat): Latch {
    Latch(seq(n, t => Idle), 0, false)
  }

  /** `woken` is the thread that a single notification wakes, if any thread waits for it. */
  datatype Step =
    | CallRLock(t: nat)
    | CallWLock(t: nat)
    | Proceed(t: nat)
    | RUnlock(t: nat, woken: nat)
    | WUnlock(t: nat)
    | Spurious(t: nat)

  function Set(l: Latch, t: nat, m: Mode): Latch
    requires t < |l.threads|
  {
    l.(threads := l.threads[t := m])
  }

  /** The mode that a sleeping thread has once it is woken. */
  function Awake(m: Mode): Mode {
    match m
    case SleepRead => WantRead
    case SleepEnter => WantWrite
    case SleepDrain => WantDrain
    case _ => m
  }

  /** Waits on the condition variable that readers and arriving writers share. */
  predicate OnReader(m: Mode) {
    m.SleepRead? || m.SleepEnter?
  }

  /** A single notification of the sleepers that satisfy `on` may wake `t`. */
  predicate MayWake(threads: seq<Mode>, on: Mode -> bool, t: nat) {
    t < |threads| && (on(threads[t]) || forall k :: 0 <= k < |threads| ==> !on(threads[k]))
  }

  function Notified(threads: seq<Mode>, on: Mode -> bool, t: nat): seq<Mode>
    requires t < |threads|
  {
    if on(threads[t]) then threads[t := Awake(threads[t])] else threads
  }

  function AllNotified(threads: seq<Mode>, on: Mode -> bool): seq<Mode> {
    seq(|threads|, k requires 0 <= k < |threads| => if on(threads[k]) then Awake(threads[k]) else threads[k])
  }

  function OnReaderVariable(): Mode -> bool {
    (m: Mode) => OnReader(m)
  }

  function OnWriterVariable(): Mode -> bool {
    (m: Mode) => m.SleepDrain?
  }

  /** What a reader leaving wakes: the draining writer when it was the last, a reader when the latch was full. */
  datatype Signal = ToWriter | ToReader | Silent

  function SignalOf(max: nat, count: nat, entered: bool): Signal {
    if entered then if count == 0 then ToWriter else Silent
    else if count + 1 == max then ToReader else Silent
  }

  predicate Enabled(max: nat, l: Latch, step: Step) {
    match step
    case CallRLock(t) => t < |l.threads| && l.threads[t].Idle?
    case CallWLock(t) => t < |l.threads| && l.threads[t].Idle?
    case Proceed(t) =>
      t < |l.threads| && (l.threads[t].WantRead? || l.threads[t].WantWrite? || l.threads[t].WantDrain?)
    case RUnlock(t, woken) =>
      && t < |l.threads| && l.threads[t].Reading? && l.readerCount > 0
      && (match SignalOf(max, l.readerCount - 1, l.writerEntered)
          case ToWriter => MayWake(l.threads[t := Idle], OnWriterVariable(), woken)
          case ToReader => MayWake(l.threads[t := Idle], OnReaderVariable(), woken)
          case Silent => true)
    case WUnlock(t) => t < |l.threads| && l.threads[t].Writing?
    case Spurious(t) => t < |l.threads|
  }

  /** A thread that has the mutex goes on until it holds the latch or waits. */
  function Proceeded(max: nat, l: Latch, t: nat): Latch
    requires t < |l.threads|
  {
    match l.threads[t]
    case WantRead =>
      if l.writerEntered || l.readerCount == max then Set(l, t, SleepRead)
      else Set(l, t, Reading).(readerCount := l.readerCount + 1)
    case WantWrite =>
      if l.writerEntered then Set(l, t, SleepEnter)
      else Set(l, t, if l.readerCount > 0 then SleepDrain else Writing).(writerEntered := true)
    case WantDrain =>
      Set(l, t, if l.readerCount > 0 then SleepDrain else Writing)
    case _ => l
  }

  function Next(max: nat, l: Latch, step: Step): Latch
    requires Enabled(max, l, step)
  {
    match step
    case CallRLock(t) => Set(l, t, WantRead)
    case CallWLock(t) => Set(l, t, WantWrite)
    case Proceed(t) => Proceeded(max, l, t)
    case RUnlock(t, woken) =>
      var count := l.readerCount - 1;
      var threads := l.threads[t := Idle];
      (match SignalOf(max, count, l.writerEntered)
       case ToWriter => Latch(Notified(threads, OnWriterVariable(), woken), count, l.writerEntered)
       case ToReader => Latch(Notified(threads, OnReaderVariable(), woken), count, l.writerEntered)
       case Silent => Latch(threads, count, l.writerEntered))
    case WUnlock(t) =>
      Latch(AllNotified(l.threads[t := Idle], OnReaderVariable()), l.readerCount, false)
    case Spurious(t) => Set(l, t, Awake(l.threads[t]))
  }

  ghost predicate Run(max: nat, n: nat, steps: seq<Step>, states: seq<Latch>) {
    && |states| == |steps| + 1 && states[0] == Start(n)
    && forall i {:trigger steps[i]} :: 0 <= i < |steps| ==>
         Enabled(max, states[i], steps[i]) && states[i + 1] == Next(max, states[i], steps[i])
  }

  /* ---------- The invariant ---------- */

  function Readers(threads: seq<Mode>): nat {
    if threads == [] then 0
    else Readers(threads[..|threads| - 1]) + if threads[|threads| - 1].Reading? then 1 else 0
  }

  lemma {:induction false} ReadersUpdated(threads: seq<Mode>, t: nat, m: Mode)
    requires t < |threads|
    ensures Readers(threads[t := m]) + (if threads[t].Reading? then 1 else 0) ==
            Readers(threads) + if m.Reading? then 1 else 0
  {
    var n := |threads| - 1;
    if t < n {
      ReadersUpdated(threads[..n], t, m);
      assert threads[t := m][..n] == threads[..n][t := m];
    } else {
      assert threads[t := m][..n] == threads[..n];
    }
  }

  /** Two threads that do not read leave at least two fewer readers than threads. */
  lemma {:induction false} NonReaders(threads: seq<Mode>, s: nat, t: nat)
    requires s < t < |threads| && !threads[s].Reading? && !threads[t].Reading?
    ensures Readers(threads) + 2 <= |threads|
  {
    var n := |threads| - 1;
    if t < n {
      NonReaders(threads[..n], s, t);
    } else {
      NonReader(threads[..n], s);
    }
  }

  lemma {:induction false} NonReader(threads: seq<Mode>, s: nat)
    requires s < |threads| && !threads[s].Reading?
    ensures Readers(threads) + 1 <= |threads|
  {
    var n := |threads| - 1;
    ReadersBounded(threads[..n]);
    if s < n {
      NonReader(threads[..n], s);
    }
  }

  lemma {:induction false} ReadersBounded(threads: seq<Mode>)
    ensures Readers(threads) <= |threads|
  {
    if threads != [] {
      ReadersBounded(threads[..|threads| - 1]);
    }
  }

  lemma {:induction false} ReaderCounts(threads: seq<Mode>, t: nat)
    requires t < |threads| && threads[t].Reading?
    ensures Readers(threads) > 0
  {
    if t < |threads| - 1 {
      ReaderCounts(threads[..|threads| - 1], t);
    }
  }

  /** Has set `writerEntered` and not yet left. */
  predicate Entered(m: Mode) {
    m.WantDrain? || m.SleepDrain? || m.Writing?
  }

  ghost predicate Inv(max: nat, n: nat, l: Latch) {
    && |l.threads| == n && l.readerCount == Readers(l.threads) && l.readerCount <= max
    && (forall t :: 0 <= t < n && Entered(l.threads[t]) ==> l.writerEntered)
    && (forall s, t :: 0 <= s < t < n ==> !(Entered(l.threads[s]) && Entered(l.threads[t])))
    && (forall t :: 0 <= t < n && l.threads[t].Writing? ==> l.readerCount == 0)
    && (forall t :: 0 <= t < n && l.threads[t].SleepEnter? ==> l.writerEntered)
    && (forall t :: 0 <= t < n && l.threads[t].SleepDrain? ==> l.readerCount > 0)
    && (l.writerEntered ==> exists t :: 0 <= t < n && Entered(l.threads[t]))
  }

  /** Readers sleep only while the latch is full or a writer is in. */
  ghost predicate ReadersRight(max: nat, l: Latch) {
    forall t :: 0 <= t < |l.threads| && l.threads[t].SleepRead? ==> l.writerEntered || l.readerCount == max
  }

  lemma {:induction false} NoReaders(threads: seq<Mode>)
    requires forall t :: 0 <= t < |threads| ==> !threads[t].Reading?
    ensures Readers(threads) == 0
  {
    if threads != [] {
      NoReaders(threads[..|threads| - 1]);
    }
  }

  lemma {:induction false} InvStart(max: nat, n: nat)
    ensures Inv(max, n, Start(n)) && ReadersRight(max, Start(n))
  {
    NoReaders(Start(n).threads);
  }

  /** Modes that matter to nobody else. */
  predicate Neutral(m: Mode) {
    m.Idle? || m.WantRead? || m.WantWrite?
  }

  lemma {:induction false} InvNeutral(max: nat, n: nat, l: Latch, t: nat, m: Mode)
    requires Inv(max, n, l) && t < n && !l.threads[t].Reading? && !Entered(l.threads[t])
    requires Neutral(m) || (m.SleepRead? && (l.writerEntered || l.readerCount == max)) || (m.SleepEnter? && l.writerEntered)
    ensures Inv(max, n, Set(l, t, m))
    ensures ReadersRight(max, l) ==> ReadersRight(max, Set(l, t, m))
  {
    ReadersUpdated(l.threads, t, m);
    var l' := Set(l, t, m);
    if l.writerEntered {
      var e :| 0 <= e < n && Entered(l.threads[e]);
      assert Entered(l'.threads[e]);
    }
  }

  /** A thread that entered goes from one stage of its wait to another, or gets the latch. */
  lemma {:induction false} InvEntered(max: nat, n: nat, l: Latch, t: nat, m: Mode)
    requires Inv(max, n, l) && t < n && Entered(l.threads[t]) && Entered(m)
    requires (m.Writing? ==> l.readerCount == 0) && (m.SleepDrain? ==> l.readerCount > 0)
    ensures Inv(max, n, Set(l, t, m))
    ensures ReadersRight(max, l) ==> ReadersRight(max, Set(l, t, m))
  {
    ReadersUpdated(l.threads, t, m);
    var l' := Set(l, t, m);
    assert Entered(l'.threads[t]);
  }

  lemma {:induction false} InvEnters(max: nat, n: nat, l: Latch, t: nat)
    requires Inv(max, n, l) && t < n && l.threads[t].WantWrite? && !l.writerEntered
    ensures Inv(max, n, Proceeded(max, l, t))
    ensures ReadersRight(max, l) ==> ReadersRight(max, Proceeded(max, l, t))
  {
    var l' := Proceeded(max, l, t);
    ReadersUpdated(l.threads, t, l'.threads[t]);
    assert Entered(l'.threads[t]);
  }

  lemma {:induction false} InvReads(max: nat, n: nat, l: Latch, t: nat)
    requires Inv(max, n, l) && t < n && l.threads[t].WantRead? && !l.writerEntered && l.readerCount < max
    ensures Inv(max, n, Proceeded(max, l, t))
    ensures ReadersRight(max, l) ==> ReadersRight(max, Proceeded(max, l, t))
  {
    ReadersUpdated(l.threads, t, Reading);
  }

  lemma {:induction false} InvProceed(max: nat, n: nat, l: Latch, t: nat)
    requires Inv(max, n, l) && Enabled(max, l, Proceed(t))
    ensures Inv(max, n, Proceeded(max, l, t))
    ensures ReadersRight(max, l) ==> ReadersRight(max, Proceeded(max, l, t))
  {
    match l.threads[t] {
      case WantRead =>
        if l.writerEntered || l.readerCount == max {
          InvNeutral(max, n, l, t, SleepRead);
        } else {
          InvReads(max, n, l, t);
        }
      case WantWrite =>
        if l.writerEntered {
          InvNeutral(max, n, l, t, SleepEnter);
        } else {
          InvEnters(max, n, l, t);
        }
      case _ =>
        InvEntered(max, n, l, t, if l.readerCount > 0 then SleepDrain else Writing);
    }
  }

  lemma {:induction false} InvSpurious(max: nat, n: nat, l: Latch, t: nat)
    requires Inv(max, n, l) && t < n
    ensures Inv(max, n, Set(l, t, Awake(l.threads[t])))
    ensures ReadersRight(max, l) ==> ReadersRight(max, Set(l, t, Awake(l.threads[t])))
  {
    match l.threads[t]
    case SleepRead => InvNeutral(max, n, l, t, WantRead);
    case SleepEnter => InvNeutral(max, n, l, t, WantWrite);
    case SleepDrain => InvEntered(max, n, l, t, WantDrain);
    case _ => assert l.threads[t := l.threads[t]] == l.threads;
  }

  /* ---------- Leaving ---------- */

  /** A reader is gone; nobody waits for it to go. */
  lemma {:induction false} InvGone(max: nat, n: nat, l: Latch, t: nat)
    requires Inv(max, n, l) && t < n && l.threads[t].Reading? && l.readerCount > 0
    requires forall k :: 0 <= k < n && l.threads[k].SleepDrain? ==> l.readerCount > 1
    ensures Inv(max, n, Latch(l.threads[t := Idle], l.readerCount - 1, l.writerEntered))
  {
    ReadersUpdated(l.threads, t, Idle);
    var l' := Latch(l.threads[t := Idle], l.readerCount - 1, l.writerEntered);
    if l.writerEntered {
      var e :| 0 <= e < n && Entered(l.threads[e]);
      assert Entered(l'.threads[e]);
    }
  }

  lemma {:induction false} OneDrains(max: nat, n: nat, l: Latch, j: nat, k: nat)
    requires Inv(max, n, l) && j < n && k < n && Entered(l.threads[j]) && Entered(l.threads[k])
    ensures j == k
  {
  }

  /** The last reader wakes the writer that waits for it. */
  lemma {:induction false} InvLastLeaves(max: nat, n: nat, l: Latch, t: nat, woken: nat)
    requires Inv(max, n, l) && Enabled(max, l, RUnlock(t, woken)) && l.writerEntered && l.readerCount == 1
    ensures Inv(max, n, Next(max, l, RUnlock(t, woken)))
  {
    var left, l' := l.threads[t := Idle], Next(max, l, RUnlock(t, woken));
    if OnWriterVariable()(left[woken]) {
      var l1 := Set(l, woken, WantDrain);
      InvEntered(max, n, l, woken, WantDrain);
      forall k | 0 <= k < n && k != woken ensures !l1.threads[k].SleepDrain? {
        if l.threads[k].SleepDrain? {
          OneDrains(max, n, l, k, woken);
        }
      }
      InvGone(max, n, l1, t);
      assert l1.threads[t := Idle] == l'.threads;
    } else {
      forall k | 0 <= k < n ensures !l.threads[k].SleepDrain? {
        assert !OnWriterVariable()(left[k]);
      }
      InvGone(max, n, l, t);
    }
  }

  lemma {:induction false} InvLeaves(max: nat, n: nat, l: Latch, t: nat, woken: nat)
    requires Inv(max, n, l) && Enabled(max, l, RUnlock(t, woken))
    ensures Inv(max, n, Next(max, l, RUnlock(t, woken)))
  {
    if l.writerEntered && l.readerCount == 1 {
      InvLastLeaves(max, n, l, t, woken);
    } else {
      assert forall k :: 0 <= k < n && l.threads[k].SleepDrain? ==> Entered(l.threads[k]);
      InvGone(max, n, l, t);
      var l1 := Latch(l.threads[t := Idle], l.readerCount - 1, l.writerEntered);
      if SignalOf(max, l.readerCount - 1, l.writerEntered).ToReader? && OnReader(l1.threads[woken]) {
        InvSpurious(max, n, l1, woken);
      }
    }
  }

  lemma {:induction false} ReadersSame(a: seq<Mode>, b: seq<Mode>)
    requires |a| == |b| && forall k :: 0 <= k < |a| ==> (a[k].Reading? <==> b[k].Reading?)
    ensures Readers(a) == Readers(b)
  {
    if a != [] {
      ReadersSame(a[..|a| - 1], b[..|b| - 1]);
    }
  }

  lemma {:induction false} InvWUnlock(max: nat, n: nat, l: Latch, t: nat)
    requires Inv(max, n, l) && Enabled(max, l, WUnlock(t))
    ensures Inv(max, n, Next(max, l, WUnlock(t))) && ReadersRight(max, Next(max, l, WUnlock(t)))
  {
    var l' := Next(max, l, WUnlock(t));
    ReadersSame(l.threads, l'.threads);
    forall k | 0 <= k < n && k != t ensures !Entered(l'.threads[k]) {
      assert !(Entered(l.threads[t]) && Entered(l.threads[k]));
    }
  }

  lemma {:induction false} InvStep(max: nat, n: nat, l: Latch, step: Step)
    requires Inv(max, n, l) && Enabled(max, l, step)
    ensures Inv(max, n, Next(max, l, step))
  {
    match step
    case CallRLock(t) => InvNeutral(max, n, l, t, WantRead);
    case CallWLock(t) => InvNeutral(max, n, l, t, WantWrite);
    case Proceed(t) => InvProceed(max, n, l, t);
    case RUnlock(t, woken) => InvLeaves(max, n, l, t, woken);
    case WUnlock(t) => InvWUnlock(max, n, l, t);
    case Spurious(t) => InvSpurious(max, n, l, t);
  }

  lemma {:induction false} RunInv(max: nat, n: nat, steps: seq<Step>, states: seq<Latch>, i: nat)
    requires Run(max, n, steps, states) && i < |states|
    ensures Inv(max, n, states[i])
  {
    if i == 0 {
      InvStart(max, n);
    } else {
      RunInv(max, n, steps, states, i - 1);
      InvStep(max, n, states[i - 1], steps[i - 1]);
    }
  }

  /* ---------- No wakeup is lost ---------- */

  /** With at most one thread more than the limit, the one reader that waits for room is woken. */
  lemma {:induction false} RightLeaves(max: nat, n: nat, l: Latch, t: nat, woken: nat)
    requires n <= max + 1 && Inv(max, n, l) && ReadersRight(max, l) && Enabled(max, l, RUnlock(t, woken))
    ensures ReadersRight(max, Next(max, l, RUnlock(t, woken)))
  {
    var l' := Next(max, l, RUnlock(t, woken));
    forall k | 0 <= k < n && l'.threads[k].SleepRead? ensures l'.writerEntered {
      assert k != t && l.threads[k].SleepRead?;
      if !l.writerEntered {
        RoomIsSignalled(max, n, l, t, woken, k);
      }
    }
  }

  lemma {:induction false} RoomIsSignalled(max: nat, n: nat, l: Latch, t: nat, woken: nat, k: nat)
    requires n <= max + 1 && Inv(max, n, l) && ReadersRight(max, l) && Enabled(max, l, RUnlock(t, woken))
    requires k < n && l.threads[k].SleepRead? && !l.writerEntered
    ensures !Next(max, l, RUnlock(t, woken)).threads[k].SleepRead?
  {
    var left := l.threads[t := Idle];
    assert l.readerCount == max;
    assert OnReaderVariable()(left[k]);
    assert OnReader(left[woken]) && !l.threads[woken].Reading?;
    if woken < k {
      NonReaders(l.threads, woken, k);
    } else if k < woken {
      NonReaders(l.threads, k, woken);
    }
  }

  lemma {:induction false} RightStep(max: nat, n: nat, l: Latch, step: Step)
    requires n <= max + 1 && Inv(max, n, l) && ReadersRight(max, l) && Enabled(max, l, step)
    ensures ReadersRight(max, Next(max, l, step))
  {
    match step
    case CallRLock(t) => InvNeutral(max, n, l, t, WantRead);
    case CallWLock(t) => InvNeutral(max, n, l, t, WantWrite);
    case Proceed(t) => InvProceed(max, n, l, t);
    case RUnlock(t, woken) => RightLeaves(max, n, l, t, woken);
    case WUnlock(t) => InvWUnlock(max, n, l, t);
    case Spurious(t) => InvSpurious(max, n, l, t);
  }

  lemma {:induction false} RunRight(max: nat, n: nat, steps: seq<Step>, states: seq<Latch>, i: nat)
    requires n <= max + 1 && Run(max, n, steps, states) && i < |states|
    ensures ReadersRight(max, states[i])
  {
    if i == 0 {
      InvStart(max, n);
    } else {
      RunInv(max, n, steps, states, i - 1);
      RunRight(max, n, steps, states, i - 1);
      RightStep(max, n, states[i - 1], steps[i - 1]);
    }
  }

  /* ---------- Main results ---------- */

  /** A writer holds the latch alone, and never more than `max` readers hold it, whatever the number of threads. */
  lemma {:induction false} MutualExclusion(max: nat, n: nat, steps: seq<Step>, states: seq<Latch>, i: nat, s: nat,
                                           t: nat)
    requires Run(max, n, steps, states) && i < |states| && s < |states[i].threads| && t < |states[i].threads| && s != t
    ensures states[i].threads[s].Writing? ==> !states[i].threads[t].Writing? && !states[i].threads[t].Reading?
    ensures Readers(states[i].threads) <= max
  {
    RunInv(max, n, steps, states, i);
    var l := states[i];
    if l.threads[t].Reading? {
      ReaderCounts(l.threads, t);
    }
    assert s < t ==> !(Entered(l.threads[s]) && Entered(l.threads[t]));
    assert t < s ==> !(Entered(l.threads[t]) && Entered(l.threads[s]));
  }

  /** The condition that a sleeping thread waits on still holds. */
  predicate WaitsRightly(max: nat, l: Latch, m: Mode) {
    && (m.SleepRead? ==> l.writerEntered || l.readerCount == max)
    && (m.SleepEnter? ==> l.writerEntered)
    && (m.SleepDrain? ==> l.readerCount > 0)
  }

  /** In no run does a thread sleep on a condition that no longer holds without having been woken. */
  ghost predicate NoWakeupLost(max: nat, n: nat) {
    forall steps: seq<Step>, states: seq<Latch>, i: nat, t: nat ::
      Run(max, n, steps, states) && i < |states| && t < |states[i].threads| ==>
        WaitsRightly(max, states[i], states[i].threads[t])
  }

  /** The latch loses no wakeup exactly as long as there is at most one thread more than the limit on readers. */
  lemma {:induction false} NoWakeupLostIff(max: nat, n: nat)
    requires max > 0
    ensures NoWakeupLost(max, n) <==> n <= max + 1
  {
    if n <= max + 1 {
      forall steps: seq<Step>, states: seq<Latch>, i: nat, t: nat
        | Run(max, n, steps, states) && i < |states| && t < |states[i].threads|
        ensures WaitsRightly(max, states[i], states[i].threads[t])
      {
        RunInv(max, n, steps, states, i);
        RunRight(max, n, steps, states, i);
      }
    } else {
      var steps, states := LostWakeup(max, n);
      assert !WaitsRightly(max, states[|steps|], states[|steps|].threads[max + 1]);
    }
  }

  /** Nobody holds the latch and nobody contends for it. */
  predicate Deserted(l: Latch) {
    forall t :: 0 <= t < |l.threads| ==> l.threads[t].Idle? || OnReader(l.threads[t]) || l.threads[t].SleepDrain?
  }

  predicate AllIdle(l: Latch) {
    forall t :: 0 <= t < |l.threads| ==> l.threads[t].Idle?
  }

  /** In no run is the latch deserted while somebody still waits for it. */
  ghost predicate NeverStuck(max: nat, n: nat) {
    forall steps: seq<Step>, states: seq<Latch>, i: nat ::
      Run(max, n, steps, states) && i < |states| && Deserted(states[i]) ==> AllIdle(states[i])
  }

  /** Only a reader can be left behind, at an open latch. */
  lemma {:induction false} DesertedIsOpen(max: nat, n: nat, l: Latch)
    requires Inv(max, n, l) && Deserted(l)
    ensures l.readerCount == 0 && !l.writerEntered
    ensures forall t :: 0 <= t < n ==> l.threads[t].Idle? || l.threads[t].SleepRead?
  {
    NoReaders(l.threads);
  }

  /* With room for one reader only, every reader that leaves wakes the next. */

  predicate Contends(m: Mode) {
    m.WantRead? || m.WantWrite?
  }

  /** Where a reader waits at an open, empty latch, somebody contends for it. */
  ghost predicate Attended(l: Latch) {
    !l.writerEntered && l.readerCount == 0 && (exists t :: 0 <= t < |l.threads| && l.threads[t].SleepRead?) ==>
      exists t :: 0 <= t < |l.threads| && Contends(l.threads[t])
  }

  lemma {:induction false} AttendedLeaves(n: nat, l: Latch, t: nat, woken: nat)
    requires Inv(1, n, l) && Enabled(1, l, RUnlock(t, woken))
    ensures Attended(Next(1, l, RUnlock(t, woken)))
  {
    var left, l' := l.threads[t := Idle], Next(1, l, RUnlock(t, woken));
    if !l.writerEntered {
      forall k | 0 <= k < n && l'.threads[k].SleepRead? ensures Contends(l'.threads[woken]) {
        assert OnReaderVariable()(left[k]);
      }
    }
  }

  lemma {:induction false} AttendedSpurious(n: nat, l: Latch, t: nat)
    requires Inv(1, n, l) && Attended(l) && t < n
    ensures Attended(Next(1, l, Spurious(t)))
  {
    var l' := Next(1, l, Spurious(t));
    if k :| 0 <= k < n && Contends(l.threads[k]) {
      assert Contends(l'.threads[k]);
    } else {
      forall k | 0 <= k < n && l'.threads[k].SleepRead? ensures l.threads[k].SleepRead? {
      }
    }
  }

  lemma {:induction false} AttendedStep(n: nat, l: Latch, step: Step)
    requires Inv(1, n, l) && Attended(l) && Enabled(1, l, step)
    ensures Attended(Next(1, l, step))
  {
    match step
    case CallRLock(t) => assert Contends(Next(1, l, step).threads[t]);
    case CallWLock(t) => assert Contends(Next(1, l, step).threads[t]);
    case Proceed(t) => assert l.threads[t].WantDrain? ==> Entered(l.threads[t]);
    case RUnlock(t, woken) => AttendedLeaves(n, l, t, woken);
    case WUnlock(_) =>
    case Spurious(t) => AttendedSpurious(n, l, t);
  }

  lemma {:induction false} RunAttended(n: nat, steps: seq<Step>, states: seq<Latch>, i: nat)
    requires Run(1, n, steps, states) && i < |states|
    ensures Attended(states[i])
  {
    if i > 0 {
      RunInv(1, n, steps, states, i - 1);
      RunAttended(n, steps, states, i - 1);
      AttendedStep(n, states[i - 1], steps[i - 1]);
    }
  }

  lemma {:induction false} NobodyStuck(max: nat, n: nat, steps: seq<Step>, states: seq<Latch>, i: nat)
    requires 0 < max && (max == 1 || n <= max + 1) && Run(max, n, steps, states) && i < |states|
    requires Deserted(states[i])
    ensures AllIdle(states[i])
  {
    RunInv(max, n, steps, states, i);
    DesertedIsOpen(max, n, states[i]);
    if max == 1 {
      RunAttended(n, steps, states, i);
    } else {
      RunRight(max, n, steps, states, i);
    }
  }

  /**
    Nobody is ever left waiting at a deserted latch exactly if there is room for one reader only or
    there is at most one thread more than the limit on readers.
  */
  lemma {:induction false} NeverStuckIff(max: nat, n: nat)
    requires max > 0
    ensures NeverStuck(max, n) <==> max == 1 || n <= max + 1
  {
    if max == 1 || n <= max + 1 {
      forall steps: seq<Step>, states: seq<Latch>, i: nat
        | Run(max, n, steps, states) && i < |states| && Deserted(states[i])
        ensures AllIdle(states[i])
      {
        NobodyStuck(max, n, steps, states, i);
      }
    } else {
      var steps, states := LeftBehind(max, n);
      assert Deserted(states[|steps|]) && !AllIdle(states[|steps|]);
    }
  }

  /* ---------- Who proceeds gets the latch ---------- */

  predicate Holder(m: Mode) {
    m.Reading? || m.Writing?
  }

  predicate Held(l: Latch) {
    exists t :: 0 <= t < |l.threads| && Holder(l.threads[t])
  }

  /** Waits for the mutex, on its way to the latch. */
  predicate Contending(m: Mode) {
    m.WantRead? || m.WantWrite? || m.WantDrain?
  }

  /** Nothing stands in the way of thread `t`, going by what the other threads do. */
  predicate Free(max: nat, l: Latch, t: nat)
    requires t < |l.threads|
  {
    match l.threads[t]
    case WantRead => Readers(l.threads) < max && forall k :: 0 <= k < |l.threads| ==> !Entered(l.threads[k])
    case WantWrite => forall k :: 0 <= k < |l.threads| ==> !Entered(l.threads[k]) && !l.threads[k].Reading?
    case WantDrain => forall k :: 0 <= k < |l.threads| ==> !l.threads[k].Reading?
    case _ => false
  }

  lemma {:induction false} ReadersPositive(threads: seq<Mode>)
    ensures Readers(threads) > 0 <==> exists t :: 0 <= t < |threads| && threads[t].Reading?
  {
    if t :| 0 <= t < |threads| && threads[t].Reading? {
      ReaderCounts(threads, t);
    } else {
      NoReaders(threads);
    }
  }

  /** The flag is set exactly while some thread has entered. */
  lemma {:induction false} FlagIsEntered(max: nat, n: nat, l: Latch)
    requires Inv(max, n, l)
    ensures l.writerEntered <==> exists t :: 0 <= t < n && Entered(l.threads[t])
  {
  }

  lemma {:induction false} StateGetsIff(max: nat, n: nat, l: Latch, t: nat)
    requires Inv(max, n, l) && Enabled(max, l, Proceed(t))
    ensures Holder(Proceeded(max, l, t).threads[t]) <==> Free(max, l, t)
    ensures Free(max, l, t) ==> Proceeded(max, l, t).threads[t] == if l.threads[t].WantRead? then Reading else Writing
    ensures forall k :: 0 <= k < n && k != t ==> Proceeded(max, l, t).threads[k] == l.threads[k]
  {
    ReadersPositive(l.threads);
    FlagIsEntered(max, n, l);
  }

  /**
    In every run a contending thread that goes on gets the latch, as reader or as writer, exactly if
    no other thread is in its way: for a reader, no writer has entered and there are fewer than
    `max` readers; for a writer, no other writer has entered and there is no reader.
  */
  lemma {:induction false} GetsIff(max: nat, n: nat, steps: seq<Step>, states: seq<Latch>, i: nat)
    requires Run(max, n, steps, states) && i < |steps| && steps[i].Proceed?
    ensures var t := steps[i].t;
            && t < |states[i].threads| == |states[i + 1].threads| == n
            && (Holder(states[i + 1].threads[t]) <==> Free(max, states[i], t))
            && (Free(max, states[i], t) ==>
                  states[i + 1].threads[t] == if states[i].threads[t].WantRead? then Reading else Writing)
            && forall k :: 0 <= k < n && k != t ==> states[i + 1].threads[k] == states[i].threads[k]
  {
    RunInv(max, n, steps, states, i);
    RunInv(max, n, steps, states, i + 1);
    StateGetsIff(max, n, states[i], steps[i].t);
  }

  /** A thread that gives the latch back is done with it; others are at most woken. */
  lemma {:induction false} UnlockFrees(max: nat, n: nat, steps: seq<Step>, states: seq<Latch>, i: nat)
    requires Run(max, n, steps, states) && i < |steps| && (steps[i].RUnlock? || steps[i].WUnlock?)
    ensures var t := steps[i].t;
            && t < |states[i].threads| == |states[i + 1].threads| == n
            && Holder(states[i].threads[t]) && states[i + 1].threads[t].Idle?
            && forall k :: 0 <= k < n && k != t ==>
                 states[i + 1].threads[k] == states[i].threads[k] || states[i + 1].threads[k] == Awake(states[i].threads[k])
  {
    RunInv(max, n, steps, states, i);
    RunInv(max, n, steps, states, i + 1);
  }

  /* ---------- Progress ---------- */

  /** Who is in the way of others at a latch that nobody holds is about to get it. */
  lemma {:induction false} UnheldIsFree(max: nat, n: nat, l: Latch, t: nat) returns (k: nat)
    requires Inv(max, n, l) && max > 0 && !Held(l) && t < n && Contending(l.threads[t])
    ensures k < n && Contending(l.threads[k]) && Free(max, l, k)
  {
    NoReaders(l.threads);
    FlagIsEntered(max, n, l);
    k := t;
    if e :| 0 <= e < n && Entered(l.threads[e]) {
      k := e;
    }
  }

  /** In every run: where nobody holds the latch and somebody contends for it, one thread need only go on to get it. */
  lemma {:induction false} SomeoneCanGet(max: nat, n: nat, steps: seq<Step>, states: seq<Latch>, i: nat, t: nat)
    returns (k: nat)
    requires Run(max, n, steps, states) && i < |states| && max > 0 && !Held(states[i])
    requires t < |states[i].threads| && Contending(states[i].threads[t])
    ensures Enabled(max, states[i], Proceed(k))
    ensures k < |Next(max, states[i], Proceed(k)).threads| && Holder(Next(max, states[i], Proceed(k)).threads[k])
  {
    RunInv(max, n, steps, states, i);
    k := UnheldIsFree(max, n, states[i], t);
    StateGetsIff(max, n, states[i], k);
  }

  function Contenders(threads: seq<Mode>): nat {
    if threads == [] then 0
    else Contenders(threads[..|threads| - 1]) + if Contending(threads[|threads| - 1]) then 1 else 0
  }

  lemma {:induction false} ContendersUpdated(threads: seq<Mode>, t: nat, m: Mode)
    requires t < |threads|
    ensures Contenders(threads[t := m]) + (if Contending(threads[t]) then 1 else 0) ==
            Contenders(threads) + if Contending(m) then 1 else 0
  {
    var n := |threads| - 1;
    if t < n {
      ContendersUpdated(threads[..n], t, m);
      assert threads[t := m][..n] == threads[..n][t := m];
    } else {
      assert threads[t := m][..n] == threads[..n];
    }
  }

  lemma {:induction false} ContendersBounded(threads: seq<Mode>)
    ensures Contenders(threads) <= |threads|
  {
    if threads != [] {
      ContendersBounded(threads[..|threads| - 1]);
    }
  }

  /** A thread that goes on contends no more: it holds the latch or sleeps. */
  lemma {:induction false} FewerContend(max: nat, l: Latch, t: nat)
    requires Enabled(max, l, Proceed(t))
    ensures Contenders(Proceeded(max, l, t).threads) + 1 == Contenders(l.threads)
  {
    var l' := Proceeded(max, l, t);
    ContendersUpdated(l.threads, t, l'.threads[t]);
    assert l'.threads == l.threads[t := l'.threads[t]];
  }

  lemma {:induction false} ContendersFall(max: nat, n: nat, steps: seq<Step>, states: seq<Latch>, i: nat, j: nat)
    requires Run(max, n, steps, states) && i <= j <= |steps| && forall k :: i <= k < j ==> steps[k].Proceed?
    ensures Contenders(states[j].threads) + (j - i) == Contenders(states[i].threads)
    decreases j - i
  {
    if i < j {
      ContendersFall(max, n, steps, states, i, j - 1);
      FewerContend(max, states[j - 1], steps[j - 1].t);
    }
  }

  /** A contender is left wherever the latch stays unheld. */
  lemma {:induction false} StillContended(max: nat, n: nat, l: Latch, t: nat, e: nat)
    requires Inv(max, n, l) && max > 0 && !Held(l) && Enabled(max, l, Proceed(t)) && !Held(Proceeded(max, l, t))
    requires e < n && Contending(l.threads[e]) && Free(max, l, e)
    ensures e != t && Proceeded(max, l, t).threads[e] == l.threads[e]
  {
    StateGetsIff(max, n, l, t);
    assert !Holder(Proceeded(max, l, t).threads[t]);
  }

  lemma {:induction false} UnheldThroughout(max: nat, n: nat, steps: seq<Step>, states: seq<Latch>, i: nat, j: nat, t: nat)
    returns (e: nat)
    requires Run(max, n, steps, states) && i <= j <= |steps| && max > 0
    requires forall k :: i <= k < j ==> steps[k].Proceed?
    requires forall k :: i <= k <= j ==> !Held(states[k])
    requires t < |states[i].threads| && Contending(states[i].threads[t])
    ensures e < |states[j].threads| && Contending(states[j].threads[e])
    decreases j - i
  {
    e := t;
    if i < j {
      var before := UnheldThroughout(max, n, steps, states, i, j - 1, t);
      RunInv(max, n, steps, states, j - 1);
      e := UnheldIsFree(max, n, states[j - 1], before);
      StillContended(max, n, states[j - 1], steps[j - 1].t, e);
    }
  }

  lemma {:induction false} ContenderCounts(threads: seq<Mode>, t: nat)
    requires t < |threads| && Contending(threads[t])
    ensures Contenders(threads) > 0
  {
    if t < |threads| - 1 {
      ContenderCounts(threads[..|threads| - 1], t);
    }
  }

  /**
    Bounded progress, whoever goes on: where somebody contends, fewer steps of contending threads
    than there are threads can pass before somebody holds the latch.
  */
  lemma {:induction false} SomeoneGets(max: nat, n: nat, steps: seq<Step>, states: seq<Latch>, i: nat, j: nat, t: nat)
    requires Run(max, n, steps, states) && i <= j <= |steps| && max > 0
    requires forall k :: i <= k < j ==> steps[k].Proceed?
    requires t < |states[i].threads| && Contending(states[i].threads[t])
    ensures j - i >= n ==> exists k :: i <= k <= j && Held(states[k])
  {
    if forall k :: i <= k <= j ==> !Held(states[k]) {
      var e := UnheldThroughout(max, n, steps, states, i, j, t);
      ContenderCounts(states[j].threads, e);
      ContendersFall(max, n, steps, states, i, j);
      ContendersBounded(states[i].threads);
      RunInv(max, n, steps, states, i);
    }
  }

  /* ---------- Two readers waiting for room ---------- */

  function Holding(n: nat, k: nat): Latch {
    Latch(seq(n, t => if t < k then Reading else Idle), k, false)
  }

  lemma {:induction false} Extended(max: nat, n: nat, steps: seq<Step>, states: seq<Latch>, step: Step)
    requires Run(max, n, steps, states) && Enabled(max, states[|steps|], step)
    ensures Run(max, n, steps + [step], states + [Next(max, states[|steps|], step)])
  {
  }

  /** The first `k` threads get read latches. */
  lemma {:induction false} Fill(max: nat, n: nat, k: nat) returns (steps: seq<Step>, states: seq<Latch>)
    requires k <= max && k <= n
    ensures Run(max, n, steps, states) && states[|steps|] == Holding(n, k)
  {
    if k == 0 {
      steps, states := [], [Start(n)];
      assert Start(n).threads == Holding(n, 0).threads;
    } else {
      steps, states := Fill(max, n, k - 1);
      steps, states := Add(max, n, steps, states, CallRLock(k - 1));
      steps, states := Add(max, n, steps, states, Proceed(k - 1));
      assert states[|steps|].threads == Holding(n, k).threads;
    }
  }

  lemma {:induction false} Add(max: nat, n: nat, steps: seq<Step>, states: seq<Latch>, step: Step)
    returns (steps': seq<Step>, states': seq<Latch>)
    requires Run(max, n, steps, states) && Enabled(max, states[|steps|], step)
    ensures Run(max, n, steps', states') && states'[|steps'|] == Next(max, states[|steps|], step)
  {
    Extended(max, n, steps, states, step);
    steps', states' := steps + [step], states + [Next(max, states[|steps|], step)];
  }

  /** Two readers too many: they sleep behind a full latch. */
  lemma {:induction false} Crowd(max: nat, n: nat) returns (steps: seq<Step>, states: seq<Latch>)
    requires max > 0 && n >= max + 2
    ensures Run(max, n, steps, states)
    ensures states[|steps|] == Latch(Holding(n, max).threads[max := SleepRead][max + 1 := SleepRead], max, false)
  {
    steps, states := Fill(max, n, max);
    var full := Holding(n, max).threads;
    steps, states := Add(max, n, steps, states, CallRLock(max));
    steps, states := Add(max, n, steps, states, Proceed(max));
    assert full[max := WantRead][max := SleepRead] == full[max := SleepRead];
    var one := full[max := SleepRead];
    steps, states := Add(max, n, steps, states, CallRLock(max + 1));
    steps, states := Add(max, n, steps, states, Proceed(max + 1));
    assert one[max + 1 := WantRead][max + 1 := SleepRead] == one[max + 1 := SleepRead];
  }

  /** One leaves and one is woken; the other sleeps on although there is room. */
  lemma {:induction false} LostWakeup(max: nat, n: nat) returns (steps: seq<Step>, states: seq<Latch>)
    requires max > 0 && n >= max + 2
    ensures Run(max, n, steps, states)
    ensures var l := states[|steps|];
            && |l.threads| == n && l.threads[max + 1].SleepRead? && !l.writerEntered && l.readerCount < max
            && l == Latch(Holding(n, max).threads[0 := Idle][max := WantRead][max + 1 := SleepRead], max - 1, false)
  {
    steps, states := Crowd(max, n);
    var l := states[|steps|];
    assert OnReaderVariable()(l.threads[0 := Idle][max]);
    steps, states := Add(max, n, steps, states, RUnlock(0, max));
    assert states[|steps|].threads == Holding(n, max).threads[0 := Idle][max := WantRead][max + 1 := SleepRead];
  }

  /** Threads `j` to `max` read, thread `max + 1` sleeps, the others are idle. */
  function Leaving(max: nat, n: nat, j: nat): Latch
    requires j <= max + 1
  {
    Latch(seq(n, t => if j <= t <= max then Reading else if t == max + 1 then SleepRead else Idle), max + 1 - j, false)
  }

  /** Another reader leaves before the woken one goes on, so that the latch is never full again. */
  lemma {:induction false} BeginLeaving(max: nat, n: nat) returns (steps: seq<Step>, states: seq<Latch>)
    requires max > 1 && n >= max + 2
    ensures Run(max, n, steps, states) && states[|steps|] == Leaving(max, n, 2)
  {
    steps, states := LostWakeup(max, n);
    steps, states := Add(max, n, steps, states, RUnlock(1, 0));
    steps, states := Add(max, n, steps, states, Proceed(max));
    assert states[|steps|].threads == Leaving(max, n, 2).threads;
  }

  lemma {:induction false} KeepLeaving(max: nat, n: nat, j: nat) returns (steps: seq<Step>, states: seq<Latch>)
    requires max > 1 && n >= max + 2 && 2 <= j <= max + 1
    ensures Run(max, n, steps, states) && states[|steps|] == Leaving(max, n, j)
  {
    if j == 2 {
      steps, states := BeginLeaving(max, n);
    } else {
      steps, states := KeepLeaving(max, n, j - 1);
      steps, states := Add(max, n, steps, states, RUnlock(j - 1, 0));
      assert states[|steps|].threads == Leaving(max, n, j).threads;
    }
  }

  /** Everybody has gone and one reader sleeps on at an open latch, for good. */
  lemma {:induction false} LeftBehind(max: nat, n: nat) returns (steps: seq<Step>, states: seq<Latch>)
    requires max > 1 && n >= max + 2
    ensures Run(max, n, steps, states)
    ensures var l := states[|steps|];
            && |l.threads| == n && l.threads[max + 1].SleepRead? && Deserted(l) && !l.writerEntered && l.readerCount == 0
  {
    steps, states := KeepLeaving(max, n, max + 1);
  }
}
