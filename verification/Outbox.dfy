/**
 * The handshake between Send and CoSendMessage: a queue that is FIFO per producer and a sticky flag.
 * Every shared-memory access is one step, so any thread may run between any two of them.
 */
module Outbox {
  import opened Bytes
  import opened Frames

  datatype Consumer =
    | Waiting            // polling the flag in Wait
    | Top                // about to try_dequeue
    | Busy(item: Item)   // writing a package to the socket
    | Failed             // try_dequeue has failed, Reset is next

  /**
   * `mid` maps a thread between its enqueue and its Signal to the ticket of its package. The rest is history:
   * when each package was signalled, the last failed try_dequeue, Reset and Signal, and the packages sent and taken.
   */
  datatype State = State(
    queue: seq<Item>, flag: bool, consumer: Consumer, mid: map<nat, nat>,
    clock: nat, signalAt: map<nat, nat>, lastFail: nat, lastReset: nat, lastSignal: nat,
    sent: seq<Item>, taken: seq<Item>)

  const INIT := State([], false, Waiting, map[], 1, map[], 0, 0, 0, [], [])

  datatype Action =
    | Enqueue(t: nat, f: Frame)   // m_outQueue.enqueue
    | Signal(t: nat)              // m_flag.store(true)
    | Wake                        // Wait reads true
    | Pop(i: nat)                 // try_dequeue succeeds
    | Done                        // async_write completes
    | Fail                        // try_dequeue fails
    | Reset                       // m_flag.store(false), then Wait

  predicate Can(s: State, a: Action) {
    match a
    case Enqueue(t, _) => t !in s.mid
    case Signal(t) => t in s.mid
    case Wake => s.consumer.Waiting? && s.flag
    case Pop(i) => s.consumer.Top? && First(s.queue, i)
    case Done => s.consumer.Busy?
    case Fail => s.consumer.Top? && s.queue == []
    case Reset => s.consumer.Failed?
  }

  function Do(s: State, a: Action): State
    requires Can(s, a)
  {
    match a
    case Enqueue(t, f) =>
      var x := Item(t, f, s.clock);
      s.(queue := s.queue + [x], sent := s.sent + [x], mid := s.mid[t := s.clock], clock := s.clock + 1)
    case Signal(t) =>
      s.(flag := true, mid := s.mid - {t}, signalAt := s.signalAt[s.mid[t] := s.clock], lastSignal := s.clock,
        clock := s.clock + 1)
    case Wake => s.(consumer := Top)
    case Pop(i) =>
      s.(consumer := Busy(s.queue[i]), queue := Without(s.queue, i), taken := s.taken + [s.queue[i]])
    case Done => s.(consumer := Top)
    case Fail => s.(consumer := Failed, lastFail := s.clock, clock := s.clock + 1)
    case Reset => s.(consumer := Waiting, flag := false, lastReset := s.clock, clock := s.clock + 1)
  }

  /** Its Send has returned. */
  predicate Completed(s: State, x: Item) {
    x.ticket in s.signalAt
  }

  /** Its Send has returned, or its thread is still between enqueue and Signal. */
  predicate Accounted(s: State, x: Item) {
    Completed(s, x) || (x.tid in s.mid && s.mid[x.tid] == x.ticket)
  }

  ghost predicate Inv(s: State) {
    && s.lastFail < s.clock && s.lastReset < s.clock && s.lastSignal < s.clock
      && (s.lastReset == s.lastSignal ==> s.lastReset == 0)
    && (s.flag <==> s.lastSignal > s.lastReset)
    && (s.consumer.Top? || s.consumer.Busy? || s.consumer.Failed? ==> s.flag)
    && (s.consumer.Failed? ==> s.lastReset < s.lastFail)
    && (s.consumer.Waiting? || s.consumer.Failed? ==> forall x :: x in s.queue ==> x.ticket > s.lastFail)
    && (forall x :: x in s.queue ==> x.ticket < s.clock && Accounted(s, x))
    && (forall n :: n in s.signalAt ==> n < s.signalAt[n] <= s.lastSignal)
    && (forall t :: t in s.mid ==> s.mid[t] < s.clock)
  }

  /** Nothing is dropped, duplicated or reordered within its producer. */
  ghost predicate Conserved(s: State) {
    forall t :: Keep(SentBy(t), s.taken) + Keep(SentBy(t), s.queue) == Keep(SentBy(t), s.sent)
  }

  lemma StepInv(s: State, a: Action)
    requires Inv(s) && Can(s, a)
    ensures Inv(Do(s, a))
  {
    match a
    case Pop(i) => assert forall x :: x in Without(s.queue, i) ==> x in s.queue;
    case _ =>
  }

  lemma EnqueueConserves(c: Class, taken: seq<Item>, queue: seq<Item>, sent: seq<Item>, x: Item)
    requires Keep(c, taken) + Keep(c, queue) == Keep(c, sent)
    ensures Keep(c, taken) + Keep(c, queue + [x]) == Keep(c, sent + [x])
  {
    KeepConcat(c, queue, [x]);
    KeepConcat(c, sent, [x]);
    Grouped(Keep(c, taken), Keep(c, queue), Keep(c, [x]));
  }

  lemma PopConserves(c: Class, taken: seq<Item>, queue: seq<Item>, i: nat)
    requires First(queue, i) && OneThread(c, queue)
    ensures Keep(c, taken + [queue[i]]) + Keep(c, Without(queue, i)) == Keep(c, taken) + Keep(c, queue)
  {
    var x := [queue[i]];
    KeepConcat(c, taken, x);
    KeepConcat(c, x, Without(queue, i));
    Overtake(c, queue, i);
    Grouped(Keep(c, taken), Keep(c, x), Keep(c, Without(queue, i)));
  }

  lemma StepConserved(s: State, a: Action)
    requires Conserved(s) && Can(s, a)
    ensures Conserved(Do(s, a))
  {
    forall t ensures Keep(SentBy(t), Do(s, a).taken) + Keep(SentBy(t), Do(s, a).queue)
      == Keep(SentBy(t), Do(s, a).sent) {
      assert Keep(SentBy(t), s.taken) + Keep(SentBy(t), s.queue) == Keep(SentBy(t), s.sent);
      match a
      case Enqueue(u, f) => EnqueueConserves(SentBy(t), s.taken, s.queue, s.sent, Item(u, f, s.clock));
      case Pop(i) => PopConserves(SentBy(t), s.taken, s.queue, i);
      case _ =>
    }
  }

  // ----- Runs -----

  predicate CanAll(s: State, acts: seq<Action>)
    decreases |acts|
  {
    acts == [] || (Can(s, acts[0]) && CanAll(Do(s, acts[0]), acts[1..]))
  }

  function After(s: State, acts: seq<Action>): State
    requires CanAll(s, acts)
    decreases |acts|
  {
    if acts == [] then s else After(Do(s, acts[0]), acts[1..])
  }

  lemma {:induction false} RunInv(s: State, acts: seq<Action>)
    requires Inv(s) && Conserved(s) && CanAll(s, acts)
    ensures Inv(After(s, acts)) && Conserved(After(s, acts))
    decreases |acts|
  {
    if acts != [] {
      StepInv(s, acts[0]);
      StepConserved(s, acts[0]);
      RunInv(Do(s, acts[0]), acts[1..]);
    }
  }

  // ----- Lost wake-ups -----

  /** A package whose Send has returned lies in the queue while the sender waits on a false flag. */
  ghost predicate Stranded(s: State) {
    s.consumer.Waiting? && !s.flag && exists x :: x in s.queue && Completed(s, x)
  }

  /** Both the enqueue and the flag store fell between the failed try_dequeue and the Reset. */
  ghost predicate CaughtInWindow(s: State, x: Item) {
    s.lastFail < x.ticket && Completed(s, x) && x.ticket < s.signalAt[x.ticket] < s.lastReset
  }

  /** Exactly when a wake-up is lost: over every run, with any number of producers. */
  lemma StrandedExactly(acts: seq<Action>)
    requires CanAll(INIT, acts)
    ensures var s := After(INIT, acts);
      && (Stranded(s) <==>
            s.consumer.Waiting? && s.lastSignal <= s.lastReset && exists x :: x in s.queue && CaughtInWindow(s, x))
      && (Stranded(s) && s.mid == map[] ==> forall x :: x in s.queue ==> CaughtInWindow(s, x))
  {
    RunInv(INIT, acts);
  }

  /** With no Send under way, all that lies beside a sender waiting on a false flag was caught in the window. */
  lemma WaitingMeansCaught(s: State)
    requires Inv(s) && s.consumer.Waiting? && !s.flag && s.mid == map[]
    ensures forall x :: x in s.queue ==> CaughtInWindow(s, x)
  {
  }

  lemma OneStep(s: State, a: Action, rest: seq<Action>)
    requires Can(s, a) && CanAll(Do(s, a), rest)
    ensures CanAll(s, [a] + rest) && After(s, [a] + rest) == After(Do(s, a), rest)
  {
    assert ([a] + rest)[1..] == rest;
  }

  lemma {:induction false} Append(s: State, a: seq<Action>, b: seq<Action>)
    requires CanAll(s, a) && CanAll(After(s, a), b)
    ensures CanAll(s, a + b) && After(s, a + b) == After(After(s, a), b)
    decreases |a|
  {
    if a == [] {
      assert a + b == b;
    } else {
      Append(Do(s, a[0]), a[1..], b);
      assert (a + b)[1..] == a[1..] + b;
    }
  }

  /** One whole Send from thread t. */
  lemma {:induction false} SendRun(s: State, t: nat, f: Frame)
    requires t !in s.mid
    ensures var acts := [Enqueue(t, f)] + [Signal(t)];
      CanAll(s, acts) && After(s, acts) == Do(Do(s, Enqueue(t, f)), Signal(t))
  {
    OneStep(Do(s, Enqueue(t, f)), Signal(t), []);
    OneStep(s, Enqueue(t, f), [Signal(t)]);
    assert [Signal(t)] + [] == [Signal(t)];
  }

  /** The sender takes the only package, writes it and finds the queue empty. */
  lemma TakeOneRun(s: State)
    requires s.consumer.Waiting? && s.flag && |s.queue| == 1
    ensures var acts := [Wake] + ([Pop(0)] + ([Done] + [Fail]));
      CanAll(s, acts) && After(s, acts) == Do(Do(Do(Do(s, Wake), Pop(0)), Done), Fail)
  {
    var s2 := Do(Do(s, Wake), Pop(0));
    OneStep(Do(s2, Done), Fail, []);
    assert [Fail] + [] == [Fail];
    OneStep(s2, Done, [Fail]);
    OneStep(Do(s, Wake), Pop(0), [Done] + [Fail]);
    OneStep(s, Wake, [Pop(0)] + ([Done] + [Fail]));
  }

  /** The wake-up can be lost: a second producer sends inside the window and its package stays behind. */
  lemma WakeupCanBeLost(f: Frame, g: Frame) returns (acts: seq<Action>)
    ensures CanAll(INIT, acts) && Stranded(After(INIT, acts)) && After(INIT, acts).mid == map[]
  {
    SendRun(INIT, 1, f);
    acts := [Enqueue(1, f)] + [Signal(1)];
    var s1 := After(INIT, acts);
    TakeOneRun(s1);
    var take := [Wake] + ([Pop(0)] + ([Done] + [Fail]));
    Append(INIT, acts, take);
    acts := acts + take;
    var s2 := After(INIT, acts);
    assert s2.consumer.Failed? && s2.queue == [] && s2.mid == map[];
    SendRun(s2, 2, g);
    Append(INIT, acts, [Enqueue(2, g)] + [Signal(2)]);
    acts := acts + ([Enqueue(2, g)] + [Signal(2)]);
    var s3 := After(INIT, acts);
    assert s3.consumer.Failed? && s3.mid == map[] && s3.queue[0] in s3.queue && Completed(s3, s3.queue[0]);
    OneStep(s3, Reset, []);
    assert [Reset] + [] == [Reset];
    Append(INIT, acts, [Reset]);
    acts := acts + [Reset];
  }

  lemma {:induction false} TakenStays(s: State, acts: seq<Action>)
    requires CanAll(s, acts)
    ensures forall x :: x in s.taken ==> x in After(s, acts).taken
    decreases |acts|
  {
    if acts != [] {
      TakenStays(Do(s, acts[0]), acts[1..]);
    }
  }

  /** Once a Signal has landed on a waiting sender, the flag survives until every package then queued is taken. */
  lemma {:induction false} SignalDrains(s: State, acts: seq<Action>)
    requires CanAll(s, acts) && s.flag && !s.consumer.Failed?
    requires After(s, acts).consumer.Failed? || !After(s, acts).flag
    ensures forall x :: x in s.queue ==> x in After(s, acts).taken
    decreases |acts|
  {
    if acts != [] {
      var s' := Do(s, acts[0]);
      if acts[0].Fail? {
        TakenStays(s', acts[1..]);
      } else {
        assert forall x :: x in s.queue ==> x in s'.queue || x in s'.taken by {
          if acts[0].Pop? {
            assert s.queue == s.queue[..acts[0].i] + [s.queue[acts[0].i]] + s.queue[acts[0].i + 1..];
          }
        }
        SignalDrains(s', acts[1..]);
        TakenStays(s', acts[1..]);
      }
    }
  }

  // ----- One thread -----

  /** All producers run on the io thread: a Send and the failed-dequeue segment are never interleaved. */
  predicate Prompt(s: State, a: Action) {
    && (s.mid != map[] ==> a.Signal?)
    && (s.consumer.Failed? ==> a.Reset?)
  }

  predicate PromptAll(s: State, acts: seq<Action>)
    decreases |acts|
  {
    acts == [] || (Can(s, acts[0]) && Prompt(s, acts[0]) && PromptAll(Do(s, acts[0]), acts[1..]))
  }

  /** A waiting sender with a false flag has an empty queue, except inside a Send. */
  predicate Awake(s: State) {
    && (s.consumer.Failed? ==> s.queue == [] && s.mid == map[])
    && (s.consumer.Waiting? && !s.flag && s.mid == map[] ==> s.queue == [])
  }

  lemma StepAwake(s: State, a: Action)
    requires Awake(s) && Can(s, a) && Prompt(s, a)
    ensures Awake(Do(s, a))
  {
  }

  lemma {:induction false} PromptNeverLoses(s: State, acts: seq<Action>)
    requires Awake(s) && PromptAll(s, acts)
    ensures CanAll(s, acts) && Awake(After(s, acts))
    decreases |acts|
  {
    if acts != [] {
      StepAwake(s, acts[0]);
      PromptNeverLoses(Do(s, acts[0]), acts[1..]);
    }
  }
}
