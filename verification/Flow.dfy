/** The outgoing side of a peer: frames queued, being written and on the wire, in the order the other peer sees them. */
module Flow {
  import opened Frames
  import opened Transfer
  import O = Outbox

  /** What a peer has still to put on its message socket, the package being written first. */
  function Held(o: O.State): seq<Item> {
    (if o.consumer.Busy? then [o.consumer.item] else []) + o.queue
  }

  /** CoSendFile is about to announce a file. */
  predicate Announces(env: Env, me: Peer) {
    var q := me.serves.queue;
    q != [] && q[0].frame.Request? && q[0].frame.path in env.files
  }

  function Announcement(env: Env, me: Peer): Item
    requires Announces(env, me)
  {
    var f := me.serves.queue[0].frame;
    Item(IO, Info(f.id, |Content(env.files, f.path)|), me.outbox.clock)
  }

  /** The packages a step puts into the out-queue. */
  function Fresh(env: Env, n: Node, a: Action): seq<Item>
    requires Can(env, n, a)
  {
    var o := n.me.outbox;
    match a
    case Submit(k) => var c := n.me.asks.calls[k]; [Item(c.tid, Request(c.id, c.asked.path), o.clock)]
    case Post(t, typ, body) => [Item(t, Message(typ, body), o.clock)]
    case Serve => if Announces(env, n.me) then [Announcement(env, n.me)] else []
    case _ => []
  }

  /** Every step of a peer is a short run of its outbox. */
  function OutboxActs(env: Env, n: Node, a: Action): seq<O.Action>
    requires Can(env, n, a)
  {
    match a
    case Submit(_) => [O.Enqueue(Fresh(env, n, a)[0].tid, Fresh(env, n, a)[0].frame)]
    case Post(_, _, _) => [O.Enqueue(Fresh(env, n, a)[0].tid, Fresh(env, n, a)[0].frame)]
    case Raise(t) => [O.Signal(t)]
    case Wake => [O.Wake]
    case Pop(i) => [O.Pop(i)]
    case Write => [O.Done]
    case Fail => [O.Fail]
    case Reset => [O.Reset]
    case Serve => if Announces(env, n.me) then [O.Enqueue(IO, Announcement(env, n.me).frame)] + [O.Signal(IO)] else []
    case _ => []
  }

  lemma {:induction false} OutboxRuns(env: Env, n: Node, a: Action)
    requires Can(env, n, a)
    ensures var acts := OutboxActs(env, n, a);
      O.CanAll(n.me.outbox, acts) && O.After(n.me.outbox, acts) == Step(env, n, a).me.outbox
  {
    var acts := OutboxActs(env, n, a);
    if a.Serve? {
      if acts != [] { O.SendRun(n.me.outbox, IO, acts[0].f); }
    } else if acts != [] {
      assert acts[1..] == [];
    }
  }

  // ----- Order -----

  lemma SendFlow(c: Class, front: seq<Item>, o: O.State, t: nat, f: Frame)
    requires t !in o.mid
    ensures var x := Item(t, f, o.clock);
      Keep(c, front + Held(O.Do(o, O.Enqueue(t, f)))) == Keep(c, front + Held(o)) + Keep(c, [x])
  {
    var x := Item(t, f, o.clock);
    assert front + Held(O.Do(o, O.Enqueue(t, f))) == (front + Held(o)) + [x];
    KeepConcat(c, front + Held(o), [x]);
  }

  /** A producer's package may overtake other producers' packages. */
  lemma PopFlow(c: Class, front: seq<Item>, o: O.State, i: nat)
    requires O.Can(o, O.Pop(i)) && OneThread(c, o.queue)
    ensures Keep(c, front + Held(O.Do(o, O.Pop(i)))) == Keep(c, front + Held(o))
  {
    assert Held(o) == o.queue;
    Overtake(c, o.queue, i);
    KeepConcat(c, front, Held(o));
    KeepConcat(c, front, Held(O.Do(o, O.Pop(i))));
  }

  lemma WriteFlow(front: seq<Item>, o: O.State)
    requires o.consumer.Busy?
    ensures (front + [o.consumer.item]) + Held(O.Do(o, O.Done)) == front + Held(o)
  {
  }

  /** A step that sends a frame appends it. */
  lemma SendsFlow(env: Env, n: Node, a: Action, c: Class)
    requires Can(env, n, a) && (a.Submit? || a.Post? || (a.Serve? && Announces(env, n.me)))
    ensures var n', out := Step(env, n, a), n.tx.frames + Held(n.me.outbox);
      Keep(c, n'.tx.frames + Held(n'.me.outbox)) == Keep(c, out) + Keep(c, Fresh(env, n, a))
  {
    var x := Fresh(env, n, a)[0];
    SendFlow(c, n.tx.frames, n.me.outbox, x.tid, x.frame);
    assert Fresh(env, n, a) == [x];
  }

  /** Any other step leaves every class of the outgoing frames as it is. */
  lemma QuietFlow(env: Env, n: Node, a: Action, c: Class)
    requires Can(env, n, a) && OneThread(c, n.me.outbox.queue)
    requires !a.Submit? && !a.Post? && !(a.Serve? && Announces(env, n.me))
    ensures var n' := Step(env, n, a);
      Keep(c, n'.tx.frames + Held(n'.me.outbox)) == Keep(c, n.tx.frames + Held(n.me.outbox)) && Fresh(env, n, a) == []
  {
    if a.Pop? {
      PopFlow(c, n.tx.frames, n.me.outbox, a.i);
    } else if a.Write? {
      WriteFlow(n.tx.frames, n.me.outbox);
    }
  }

  lemma SentFlow(env: Env, n: Node, a: Action)
    requires Can(env, n, a)
    ensures Step(env, n, a).me.outbox.sent == n.me.outbox.sent + Fresh(env, n, a)
  {
  }

  /** A step appends what it enqueues and otherwise changes no class of the outgoing frames. */
  lemma StepFlow(env: Env, n: Node, a: Action, c: Class)
    requires Can(env, n, a) && OneThread(c, n.me.outbox.queue)
    ensures var n', out := Step(env, n, a), n.tx.frames + Held(n.me.outbox);
      && Keep(c, n'.tx.frames + Held(n'.me.outbox)) == Keep(c, out) + Keep(c, Fresh(env, n, a))
      && n'.me.outbox.sent == n.me.outbox.sent + Fresh(env, n, a)
  {
    SentFlow(env, n, a);
    if a.Submit? || a.Post? || (a.Serve? && Announces(env, n.me)) {
      SendsFlow(env, n, a, c);
    } else {
      QuietFlow(env, n, a, c);
    }
  }

  // ----- Membership -----

  /** Items enter the outgoing side only by an enqueue. */
  lemma NewlySent(env: Env, n: Node, a: Action, x: Item)
    requires Can(env, n, a)
    requires x in Step(env, n, a).tx.frames + Held(Step(env, n, a).me.outbox)
    ensures x in n.tx.frames + Held(n.me.outbox) || x in Fresh(env, n, a)
  {
    KeptAreMembers(SentBy(x.tid), n.tx.frames + Held(n.me.outbox));
    KeptAreMembers(SentBy(x.tid), Step(env, n, a).tx.frames + Held(Step(env, n, a).me.outbox));
    KeptAreMembers(SentBy(x.tid), Fresh(env, n, a));
    StepFlow(env, n, a, SentBy(x.tid));
  }
}
