/**
 * Every step of the protocol's own work lowers a measure; where no work is left, all that was asked for has arrived.
 */
module Progress {
  import opened Bytes
  import opened Frames
  import opened Transfer
  import opened Flow
  import O = Outbox
  import P = Pipes
  import R = Refinement
  import L = Ledger
  import D = Delivery

  type Files = P.Files

  /** Everything but the arrival of new requests, new messages and disconnects. */
  predicate IsWork(a: Action) {
    !a.Allocate? && !a.Post? && !a.Disconnect?
  }

  // ----- The measure -----
  // A frame weighs what it can still cause: a request its announcement and twice its file, since each byte is
  // written once and read once; and more the further it is from its deque.

  function Weight(files: Files, x: Frame): nat {
    match x
    case Request(_, path) => 12 + 2 * |Content(files, path)|
    case Info(_, _) => 2
    case Message(_, _) => 1
  }

  function Load(files: Files, stage: nat, s: seq<Item>): nat {
    if s == [] then 0 else Weight(files, s[0].frame) + stage + Load(files, stage, s[1..])
  }

  function CallLoad(files: Files, s: seq<Call>): nat {
    if s == [] then 0 else
      Weight(files, Request(s[0].id, s[0].asked.path)) + (if s[0].recorded then 10 else 11) + CallLoad(files, s[1..])
  }

  function SenderRank(o: O.State): nat {
    match o.consumer
    case Waiting => if o.flag then 3 else 0
    case Top => 2
    case Busy(_) => 2
    case Failed => 1
  }

  function OutLoad(files: Files, o: O.State): nat {
    Load(files, 5, o.queue) + (if o.consumer.Busy? then Weight(files, o.consumer.item.frame) + 4 else 0) + 4 * |o.mid|
      + SenderRank(o)
  }

  function ServeLoad(files: Files, v: Serving): nat {
    Load(files, 0, v.queue) +
    match v.server
    case Parked => if v.flag then 2 else 0
    case Ready => 1
    case Streaming(_, rest) => 2 + 2 * |rest|
    case Stopped(_) => 0
  }

  function GetLoad(files: Files, g: Getting): nat {
    Load(files, 0, g.queue) +
    match g.receiver
    case Idle => if g.flag then 2 else 0
    case Looking => 1
    case Receiving(_, _, _, _) => 2
    case Gone(_) => 0
  }

  function LinkLoad(files: Files, l: Link): nat {
    Load(files, 3, l.frames) + |l.bytes|
  }

  /** `mine` are the files the peer serves, `theirs` those of the peer that serves its requests. */
  function PeerLoad(me: Peer, mine: Files, theirs: Files): nat {
    CallLoad(theirs, me.asks.calls) + OutLoad(theirs, me.outbox) + ServeLoad(mine, me.serves) + GetLoad(mine, me.gets)
      + |me.inbox.queue|
  }

  function NodeLoad(n: Node, mine: Files, theirs: Files): nat {
    PeerLoad(n.me, mine, theirs) + LinkLoad(theirs, n.tx) + LinkLoad(mine, n.rx)
  }

  function SysLoad(e: Envs, s: Sys): nat {
    PeerLoad(s.a, e.a.files, e.b.files) + PeerLoad(s.b, e.b.files, e.a.files) + LinkLoad(e.b.files, s.ab)
      + LinkLoad(e.a.files, s.ba)
  }

  lemma {:induction false} LoadConcat(files: Files, stage: nat, a: seq<Item>, b: seq<Item>)
    ensures Load(files, stage, a + b) == Load(files, stage, a) + Load(files, stage, b)
  {
    if a == [] {
      assert a + b == b;
    } else {
      LoadConcat(files, stage, a[1..], b);
      assert (a + b)[1..] == a[1..] + b;
    }
  }

  lemma LoadAppend(files: Files, stage: nat, s: seq<Item>, x: Item)
    ensures Load(files, stage, s + [x]) == Load(files, stage, s) + Weight(files, x.frame) + stage
  {
    LoadConcat(files, stage, s, [x]);
    assert [x][1..] == [];
  }

  lemma LoadWithout(files: Files, stage: nat, s: seq<Item>, i: nat)
    requires i < |s|
    ensures Load(files, stage, s) == Load(files, stage, Without(s, i)) + Weight(files, s[i].frame) + stage
  {
    assert s == (s[..i] + [s[i]]) + s[i + 1..];
    LoadConcat(files, stage, s[..i] + [s[i]], s[i + 1..]);
    LoadAppend(files, stage, s[..i], s[i]);
    LoadConcat(files, stage, s[..i], s[i + 1..]);
  }

  lemma {:induction false} CallLoadConcat(files: Files, a: seq<Call>, b: seq<Call>)
    ensures CallLoad(files, a + b) == CallLoad(files, a) + CallLoad(files, b)
  {
    if a == [] {
      assert a + b == b;
    } else {
      CallLoadConcat(files, a[1..], b);
      assert (a + b)[1..] == a[1..] + b;
    }
  }

  lemma CallLoadAt(files: Files, s: seq<Call>, k: nat)
    requires k < |s|
    ensures CallLoad(files, s) == CallLoad(files, s[..k]) + CallLoad(files, [s[k]]) + CallLoad(files, s[k + 1..])
  {
    assert s == (s[..k] + [s[k]]) + s[k + 1..];
    CallLoadConcat(files, s[..k] + [s[k]], s[k + 1..]);
    CallLoadConcat(files, s[..k], [s[k]]);
  }

  lemma CallLoadOne(files: Files, c: Call)
    ensures CallLoad(files, [c]) == Weight(files, Request(c.id, c.asked.path)) + if c.recorded then 10 else 11
  {
    assert [c][1..] == [];
  }

  /** Recording a name costs one, and a call that leaves takes its weight with it. */
  lemma CallWork(files: Files, q: Asking, k: nat)
    requires k < |q.calls|
    ensures !q.calls[k].recorded ==> CallLoad(files, RecordName(q, k).calls) == CallLoad(files, q.calls) - 1
    ensures CallLoad(files, LeaveCall(q, k).calls) == CallLoad(files, q.calls) - CallLoad(files, [q.calls[k]])
  {
    var s' := RecordName(q, k).calls;
    CallLoadAt(files, q.calls, k);
    CallLoadAt(files, s', k);
    assert s'[..k] == q.calls[..k] && s'[k + 1..] == q.calls[k + 1..];
    CallLoadOne(files, q.calls[k]);
    CallLoadOne(files, s'[k]);
    CallLoadConcat(files, q.calls[..k], q.calls[k + 1..]);
  }

  lemma OneMoreInside(mid: map<nat, nat>, t: nat, ticket: nat)
    requires t !in mid
    ensures |mid[t := ticket]| == |mid| + 1
  {
    assert mid[t := ticket].Keys == mid.Keys + {t};
  }

  lemma EnqueueWork(files: Files, o: O.State, t: nat, f: Frame)
    requires t !in o.mid
    ensures OutLoad(files, O.Do(o, O.Enqueue(t, f))) == OutLoad(files, o) + Weight(files, f) + 9
  {
    LoadAppend(files, 5, o.queue, Item(t, f, o.clock));
    OneMoreInside(o.mid, t, o.clock);
  }

  lemma SignalWork(files: Files, o: O.State, t: nat)
    requires t in o.mid
    ensures OutLoad(files, O.Do(o, O.Signal(t))) < OutLoad(files, o)
  {
    assert (o.mid - {t}).Keys == o.mid.Keys - {t};
  }

  /** CoSendMessage's own steps. */
  lemma SenderWork(files: Files, o: O.State, a: O.Action)
    requires O.Can(o, a) && !a.Enqueue? && !a.Signal? && !a.Done?
    ensures OutLoad(files, O.Do(o, a)) < OutLoad(files, o)
  {
    if a.Pop? {
      LoadWithout(files, 5, o.queue, a.i);
    }
  }

  lemma RouteWork(files: Files, me: Peer, x: Item)
    ensures var me' := Route(me, x);
      ServeLoad(files, me'.serves) + GetLoad(files, me'.gets) + |me'.inbox.queue|
      < ServeLoad(files, me.serves) + GetLoad(files, me.gets) + |me.inbox.queue| + Weight(files, x.frame) + 3
  {
    LoadAppend(files, 0, me.serves.queue, x);
    LoadAppend(files, 0, me.gets.queue, x);
  }

  lemma ServeWork(env: Env, me: Peer, theirs: Files)
    requires IO !in me.outbox.mid && me.serves.server.Ready?
    ensures var me' := ServeNext(env, me);
      OutLoad(theirs, me'.outbox) + ServeLoad(env.files, me'.serves)
        < OutLoad(theirs, me.outbox) + ServeLoad(env.files, me.serves)
  {
    if Announces(env, me) {
      var f := Announcement(env, me).frame;
      EnqueueWork(theirs, me.outbox, IO, f);
      SignalWork(theirs, O.Do(me.outbox, O.Enqueue(IO, f)), IO);
    }
  }

  /** RequestFile, Send and CoSendMessage. */
  predicate IsSending(a: Action) {
    a.Record? || a.Submit? || a.Raise? || a.Wake? || a.Pop? || a.Write? || a.Fail? || a.Reset?
  }

  lemma SendingLowers(env: Env, n: Node, a: Action, theirs: Files)
    requires Can(env, n, a) && IsSending(a)
    ensures NodeLoad(Step(env, n, a), env.files, theirs) < NodeLoad(n, env.files, theirs)
  {
    var o := n.me.outbox;
    match a
    case Record(k) => CallWork(theirs, n.me.asks, k);
    case Submit(k) =>
      var c := n.me.asks.calls[k];
      CallWork(theirs, n.me.asks, k);
      CallLoadOne(theirs, c);
      EnqueueWork(theirs, o, c.tid, Request(c.id, c.asked.path));
    case Raise(t) => SignalWork(theirs, o, t);
    case Wake => SenderWork(theirs, o, O.Wake);
    case Pop(i) => SenderWork(theirs, o, O.Pop(i));
    case Write => LoadAppend(theirs, 3, n.tx.frames, o.consumer.item);
    case Fail => SenderWork(theirs, o, O.Fail);
    case Reset => SenderWork(theirs, o, O.Reset);
  }

  lemma ServeLowers(env: Env, n: Node, theirs: Files)
    requires Can(env, n, Serve)
    ensures NodeLoad(Step(env, n, Serve), env.files, theirs) < NodeLoad(n, env.files, theirs)
  {
    ServeWork(env, n.me, theirs);
  }

  lemma ReadLowers(env: Env, n: Node, theirs: Files)
    requires Can(env, n, Read)
    ensures NodeLoad(Step(env, n, Read), env.files, theirs) < NodeLoad(n, env.files, theirs)
  {
    RouteWork(env.files, n.me, n.rx.frames[0]);
  }

  lemma ServerLowers(env: Env, n: Node, a: Action, theirs: Files)
    requires Can(env, n, a) && (a.ServerWake? || a.WriteBytes? || a.Served? || a.Handle?)
    ensures NodeLoad(Step(env, n, a), env.files, theirs) < NodeLoad(n, env.files, theirs)
  {
  }

  lemma TakeLowers(env: Env, n: Node, writable: bool, theirs: Files)
    requires Can(env, n, TakeInfo(writable))
    ensures NodeLoad(Step(env, n, TakeInfo(writable)), env.files, theirs) < NodeLoad(n, env.files, theirs)
  {
    var me, me' := n.me, TakeNext(n.me, writable);
    assert GetLoad(env.files, me'.gets) < GetLoad(env.files, me.gets);
  }

  lemma ReceiverLowers(env: Env, n: Node, a: Action, theirs: Files)
    requires Can(env, n, a) && (a.ReceiverWake? || a.ReadBytes? || a.Close?)
    ensures NodeLoad(Step(env, n, a), env.files, theirs) < NodeLoad(n, env.files, theirs)
  {
  }

  /** Work by one peer lowers the load of the peer and its links. */
  lemma WorkLowers(env: Env, n: Node, a: Action, theirs: Files)
    requires Can(env, n, a) && IsWork(a)
    ensures NodeLoad(Step(env, n, a), env.files, theirs) < NodeLoad(n, env.files, theirs)
  {
    if IsSending(a) {
      SendingLowers(env, n, a, theirs);
    } else if a.Serve? {
      ServeLowers(env, n, theirs);
    } else if a.Read? {
      ReadLowers(env, n, theirs);
    } else if a.ServerWake? || a.WriteBytes? || a.Served? || a.Handle? {
      ServerLowers(env, n, a, theirs);
    } else if a.TakeInfo? {
      TakeLowers(env, n, a.writable, theirs);
    } else {
      ReceiverLowers(env, n, a, theirs);
    }
  }

  predicate AllWork(moves: seq<Move>) {
    forall i :: 0 <= i < |moves| ==> IsWork(moves[i].act)
  }

  /** From any state the protocol's own work ends: no run of it is longer than the load. */
  lemma {:induction false} WorkIsBounded(e: Envs, s: Sys, moves: seq<Move>)
    requires IsRun(e, s, moves) && AllWork(moves)
    ensures |moves| + SysLoad(e, After(e, s, moves)) <= SysLoad(e, s)
    decreases |moves|
  {
    if moves != [] {
      var m := moves[0];
      if m.A? { WorkLowers(e.a, NodeA(s), m.act, e.b.files); } else { WorkLowers(e.b, NodeB(s), m.act, e.a.files); }
      WorkIsBounded(e, Next(e, s, m), moves[1..]);
    }
  }

  // ----- The file flags -----

  /** A parked file worker with a false flag has an empty deque, and only a disconnected peer has given up on a file. */
  ghost predicate FlagsOk(me: Peer) {
    && (me.serves.server.Parked? && !me.serves.flag ==> me.serves.queue == [])
    && (me.gets.receiver.Idle? && !me.gets.flag ==> me.gets.queue == [])
    && (me.connected ==> !me.serves.server.Stopped? && !me.gets.receiver.Gone?)
  }

  lemma FlagsStep(env: Env, n: Node, a: Action)
    requires Can(env, n, a) && FlagsOk(n.me)
    ensures FlagsOk(Step(env, n, a).me)
  {
  }

  /** No wake-up of CoSendFile or CoReceiveFile is lost in any run. */
  lemma {:induction false} FileFlagsNeverLose(e: Envs, s: Sys, moves: seq<Move>)
    requires IsRun(e, s, moves) && FlagsOk(s.a) && FlagsOk(s.b)
    ensures FlagsOk(After(e, s, moves).a) && FlagsOk(After(e, s, moves).b)
    decreases |moves|
  {
    if moves != [] {
      var m := moves[0];
      if m.A? { FlagsStep(e.a, NodeA(s), m.act); } else { FlagsStep(e.b, NodeB(s), m.act); }
      FileFlagsNeverLose(e, Next(e, s, m), moves[1..]);
    }
  }

  // ----- Quiescence -----

  ghost predicate Quiet(env: Env, n: Node) {
    forall a :: IsWork(a) ==> !Can(env, n, a)
  }

  /** The sender waits on a false flag beside a non-empty queue, and no Send is under way. */
  predicate LostWakeup(o: O.State) {
    o.consumer.Waiting? && !o.flag && o.mid == map[] && o.queue != []
  }

  lemma QuietCalls(env: Env, n: Node)
    requires Quiet(env, n) && n.me.connected
    ensures n.me.asks.calls == [] && n.me.outbox.mid == map[] && IoFree(n.me)
  {
    assert !Can(env, n, Reset) && !Can(env, n, Record(0)) && !Can(env, n, Submit(0));
    forall t ensures t !in n.me.outbox.mid {
      assert !Can(env, n, Raise(t));
    }
  }

  lemma QuietSender(env: Env, n: Node)
    requires Quiet(env, n) && n.me.connected
    ensures n.rx.frames == [] && n.me.inbox.queue == []
    ensures n.me.outbox.consumer.Waiting? ==> !n.me.outbox.flag
    ensures n.me.outbox.consumer.Waiting? || (n.me.outbox.consumer.Busy? && |n.tx.frames| >= env.frameCap)
  {
    QuietCalls(env, n);
    assert !Can(env, n, Read) && !Can(env, n, Handle) && !Can(env, n, Wake);
    assert !Can(env, n, Fail) && !Can(env, n, Pop(0)) && !Can(env, n, Write);
  }

  /** Parked, or kept from writing by bytes nobody has read. */
  predicate Sending(s: Server, bytes: seq<byte>) {
    s.Parked? || (s.Streaming? && s.rest != [] && bytes != [])
  }

  lemma QuietServer(env: Env, n: Node)
    requires Quiet(env, n) && n.me.connected && FlagsOk(n.me) && env.byteCap > 0
    ensures Sending(n.me.serves.server, n.tx.bytes)
    ensures n.me.serves.server.Parked? ==> n.me.serves.queue == []
  {
    QuietCalls(env, n);
    assert !Can(env, n, ServerWake) && !Can(env, n, Serve) && !Can(env, n, Served) && !Can(env, n, WriteBytes(1));
  }

  /** Idle, or kept from reading by the lack of bytes. */
  predicate Awaiting(r: Receiver, bytes: seq<byte>) {
    r.Idle? || (r.Receiving? && r.left > 0 && bytes == [])
  }

  lemma QuietReceiver(env: Env, n: Node)
    requires Quiet(env, n) && n.me.connected && FlagsOk(n.me)
    ensures Awaiting(n.me.gets.receiver, n.rx.bytes)
    ensures n.me.gets.receiver.Idle? ==> n.me.gets.queue == []
  {
    QuietCalls(env, n);
    assert !Can(env, n, ReceiverWake) && !Can(env, n, TakeInfo(true)) && !Can(env, n, Close)
      && !Can(env, n, ReadBytes(1));
  }

  /** With no frame left in flight, an aligned pipe has no byte in flight either. */
  lemma QuietPipe(r: Peer, s: Peer, down: Link, files: Files)
    requires P.Inv(files, R.Dir(r, s, down)) && down.frames + Held(s.outbox) == []
    requires Sending(s.serves.server, down.bytes) && Awaiting(r.gets.receiver, down.bytes)
    requires r.gets.receiver.Idle? ==> r.gets.queue == []
    ensures s.serves.server.Parked? && r.gets.receiver.Idle?
  {
    var p := R.Dir(r, s, down);
    var owed, later := P.Owed(files, p), P.Contents(files, p.issued, p.infos);
    assert p.infos == r.gets.queue;
    assert |owed| + |later| == |owed + later| == |p.bytes + p.rest| == |p.bytes| + |p.rest|;
  }

  ghost predicate AllQuiet(e: Envs, s: Sys) {
    Quiet(e.a, NodeA(s)) && Quiet(e.b, NodeB(s))
  }

  predicate Roomy(e: Envs) {
    e.a.frameCap > 0 && e.a.byteCap > 0 && e.b.frameCap > 0 && e.b.byteCap > 0
  }

  ghost predicate Sound(e: Envs, s: Sys) {
    L.Inv(e, s) && D.Inv(s) && FlagsOk(s.a) && FlagsOk(s.b)
  }

  /** Everything r asked s for has arrived, once, and every message s's threads sent has been handled by r. */
  ghost predicate Complete(r: Peer, s: Peer) {
    && r.asks.calls == []
    && (forall id: nat :: L.ClosedCount(id, r.gets.finished) == L.One(id < |r.asks.issued|))
    && (forall t :: Keep(MessagesOf(t), r.inbox.handled) == Keep(MessagesOf(t), s.outbox.sent))
  }

  lemma NothingLeft(r: Peer, s: Peer, up: Link, down: Link)
    requires L.Balanced(r, s, up, down) && D.InOrder(s, r, down) && r.inbox.queue == []
    requires r.asks.calls == [] && up.frames + Held(r.outbox) == [] && down.frames + Held(s.outbox) == []
    requires s.serves.server.Parked? && s.serves.queue == [] && r.gets.receiver.Idle? && r.gets.queue == []
    ensures Complete(r, s)
  {
    forall id: nat ensures L.ClosedCount(id, r.gets.finished) == L.One(id < |r.asks.issued|) {
      assert L.Located(id, r, s, up, down) == L.One(id < |r.asks.issued|);
    }
    forall t ensures Keep(MessagesOf(t), r.inbox.handled) == Keep(MessagesOf(t), s.outbox.sent) {
      assert D.Way(s, r, down) == r.inbox.handled;
      assert Keep(MessagesOf(t), D.Way(s, r, down)) == Keep(MessagesOf(t), s.outbox.sent);
    }
  }

  lemma QuietIsComplete(e: Envs, s: Sys)
    requires Sound(e, s) && AllQuiet(e, s) && Roomy(e) && s.a.connected && s.b.connected
    requires !LostWakeup(s.a.outbox) && !LostWakeup(s.b.outbox)
    ensures Complete(s.a, s.b) && Complete(s.b, s.a)
  {
    QuietCalls(e.a, NodeA(s));
    QuietCalls(e.b, NodeB(s));
    QuietSender(e.a, NodeA(s));
    QuietSender(e.b, NodeB(s));
    assert s.ab.frames == [] && s.ba.frames == [];
    assert Held(s.a.outbox) == [] && Held(s.b.outbox) == [];
    QuietServer(e.a, NodeA(s));
    QuietServer(e.b, NodeB(s));
    QuietReceiver(e.a, NodeA(s));
    QuietReceiver(e.b, NodeB(s));
    QuietPipe(s.a, s.b, s.ba, e.b.files);
    QuietPipe(s.b, s.a, s.ab, e.a.files);
    NothingLeft(s.a, s.b, s.ab, s.ba);
    NothingLeft(s.b, s.a, s.ba, s.ab);
  }

  lemma Reached(e: Envs, moves: seq<Move>)
    requires IsRun(e, START, moves)
    requires |After(e, START, moves).a.asks.issued| <= ID_SPACE && |After(e, START, moves).b.asks.issued| <= ID_SPACE
    ensures Sound(e, After(e, START, moves))
  {
    R.StartInv(e);
    L.RunInv(e, START, moves);
    D.RunInv(e, START, moves);
    FileFlagsNeverLose(e, START, moves);
  }

  /** Every step of a peer is a run of its outbox, so what holds of the outbox over its runs holds of both peers'. */
  lemma {:induction false} OutboxesSound(e: Envs, s: Sys, moves: seq<Move>)
    requires IsRun(e, s, moves)
    requires O.Inv(s.a.outbox) && O.Conserved(s.a.outbox) && O.Inv(s.b.outbox) && O.Conserved(s.b.outbox)
    ensures O.Inv(After(e, s, moves).a.outbox) && O.Inv(After(e, s, moves).b.outbox)
    decreases |moves|
  {
    if moves != [] {
      var act := moves[0].act;
      if moves[0].A? {
        OutboxRuns(e.a, NodeA(s), act);
        O.RunInv(s.a.outbox, OutboxActs(e.a, NodeA(s), act));
      } else {
        OutboxRuns(e.b, NodeB(s), act);
        O.RunInv(s.b.outbox, OutboxActs(e.b, NodeB(s), act));
      }
      OutboxesSound(e, Next(e, s, moves[0]), moves[1..]);
    }
  }

  /** A wake-up was lost, and every package left was enqueued and signalled between a failed dequeue and the reset. */
  ghost predicate LostInWindow(o: O.State) {
    LostWakeup(o) && forall x :: x in o.queue ==> O.CaughtInWindow(o, x)
  }

  /** In every reachable state a lost wake-up is one lost in the window. */
  lemma LostOnlyInWindow(e: Envs, moves: seq<Move>)
    requires IsRun(e, START, moves)
    ensures LostWakeup(After(e, START, moves).a.outbox) ==> LostInWindow(After(e, START, moves).a.outbox)
    ensures LostWakeup(After(e, START, moves).b.outbox) ==> LostInWindow(After(e, START, moves).b.outbox)
  {
    OutboxesSound(e, START, moves);
    var s := After(e, START, moves);
    if LostWakeup(s.a.outbox) { O.WaitingMeansCaught(s.a.outbox); }
    if LostWakeup(s.b.outbox) { O.WaitingMeansCaught(s.b.outbox); }
  }

  /**
   * Deadlock freedom, with socket buffers as small as one frame and one byte: after any run in which both peers are
   * still connected, either some work can be done, or a Send's wake-up was lost in the window, or all requests of both
   * peers have been answered with their files and all messages handled.
   */
  lemma StuckOnlyWhenDone(e: Envs, moves: seq<Move>)
    requires IsRun(e, START, moves) && Roomy(e)
    requires |After(e, START, moves).a.asks.issued| <= ID_SPACE && |After(e, START, moves).b.asks.issued| <= ID_SPACE
    ensures var s := After(e, START, moves);
      s.a.connected && s.b.connected && AllQuiet(e, s)
      ==> LostInWindow(s.a.outbox) || LostInWindow(s.b.outbox) || (Complete(s.a, s.b) && Complete(s.b, s.a))
  {
    var s := After(e, START, moves);
    Reached(e, moves);
    LostOnlyInWindow(e, moves);
    if s.a.connected && s.b.connected && AllQuiet(e, s) && !LostWakeup(s.a.outbox) && !LostWakeup(s.b.outbox) {
      QuietIsComplete(e, s);
    }
  }

  // ----- All sends on the io thread -----

  predicate OnIo(a: Action) {
    (a.Allocate? || a.Post? ==> a.t == IO)
  }

  ghost predicate IoOnly(me: Peer) {
    && O.Awake(me.outbox)
    && (forall t :: t in me.outbox.mid ==> t == IO)
    && (forall c :: c in me.asks.calls ==> c.tid == IO)
  }

  lemma IoCalls(env: Env, n: Node, a: Action)
    requires Can(env, n, a) && OnIo(a) && IoOnly(n.me)
    ensures forall c :: c in Step(env, n, a).me.asks.calls ==> c.tid == IO
    ensures forall t :: t in Step(env, n, a).me.outbox.mid ==> t == IO
  {
    if a.Record? || a.Submit? {
      assert n.me.asks.calls[a.k] in n.me.asks.calls;
    }
  }

  lemma PromptSteps(env: Env, n: Node, a: Action)
    requires Can(env, n, a) && OnIo(a) && IoOnly(n.me)
    ensures O.PromptAll(n.me.outbox, OutboxActs(env, n, a))
  {
    var acts := OutboxActs(env, n, a);
    if a.Submit? {
      assert n.me.asks.calls[a.k] in n.me.asks.calls;
    }
    if acts != [] && !a.Serve? {
      assert acts[1..] == [];
    } else if acts != [] {
      assert acts[1..] == [O.Signal(IO)] && acts[1..][1..] == [];
    }
  }

  lemma IoOnlyStep(env: Env, n: Node, a: Action)
    requires Can(env, n, a) && OnIo(a) && IoOnly(n.me)
    ensures IoOnly(Step(env, n, a).me)
  {
    PromptSteps(env, n, a);
    OutboxRuns(env, n, a);
    O.PromptNeverLoses(n.me.outbox, OutboxActs(env, n, a));
    IoCalls(env, n, a);
  }

  lemma {:induction false} IoOnlyRun(e: Envs, s: Sys, moves: seq<Move>)
    requires IsRun(e, s, moves) && IoOnly(s.a) && IoOnly(s.b) && forall i :: 0 <= i < |moves| ==> OnIo(moves[i].act)
    ensures IoOnly(After(e, s, moves).a) && IoOnly(After(e, s, moves).b)
    decreases |moves|
  {
    if moves != [] {
      var m := moves[0];
      if m.A? { IoOnlyStep(e.a, NodeA(s), m.act); } else { IoOnlyStep(e.b, NodeB(s), m.act); }
      IoOnlyRun(e, Next(e, s, m), moves[1..]);
    }
  }

  /** When all sends are made on the io thread no wake-up is lost: a stuck connected system is a finished one. */
  lemma IoSendsComplete(e: Envs, moves: seq<Move>)
    requires IsRun(e, START, moves) && Roomy(e) && forall i :: 0 <= i < |moves| ==> OnIo(moves[i].act)
    requires |After(e, START, moves).a.asks.issued| <= ID_SPACE && |After(e, START, moves).b.asks.issued| <= ID_SPACE
    ensures var s := After(e, START, moves);
      s.a.connected && s.b.connected && AllQuiet(e, s) ==> Complete(s.a, s.b) && Complete(s.b, s.a)
  {
    StuckOnlyWhenDone(e, moves);
    IoOnlyRun(e, START, moves);
  }
}
