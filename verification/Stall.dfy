/** When the work of two peers stops short: exactly when a sender has lost its wake-up, and a run in which one does. */
module Stalls {
  import opened Bytes
  import opened Frames
  import opened Transfer
  import opened Flow
  import opened Progress
  import D = Delivery
  import L = Ledger
  import O = Outbox

  // ----- What a lost wake-up leaves undone -----

  lemma {:induction false} MemberCounts(g: L.Tag, s: seq<Item>, x: Item)
    requires x in s && L.Hit(g, x)
    ensures L.Count(g, s) > 0
  {
    if s[0] != x {
      MemberCounts(g, s[1..], x);
    }
  }

  /** A request still in its requester's out-queue has no closed file. */
  lemma RequestUndone(r: Peer, s: Peer, up: Link, down: Link, x: Item)
    requires L.Balanced(r, s, up, down) && x in r.outbox.queue && x.frame.Request?
    ensures !Complete(r, s)
  {
    var id, out := x.frame.id, up.frames + Held(r.outbox);
    assert x in out;
    MemberCounts(L.Asks(id), out, x);
    assert L.Located(id, r, s, up, down) == L.One(id < |r.asks.issued|);
    assert L.ClosedCount(id, r.gets.finished) != L.One(id < |r.asks.issued|);
  }

  /** Nor has a request whose announcement is still in its server's out-queue. */
  lemma InfoUndone(r: Peer, s: Peer, up: Link, down: Link, x: Item)
    requires L.Balanced(r, s, up, down) && x in s.outbox.queue && x.frame.Info?
    ensures !Complete(r, s)
  {
    var id, out := x.frame.id, down.frames + Held(s.outbox);
    assert x in out;
    MemberCounts(L.Answers(id), out, x);
    assert L.Located(id, r, s, up, down) == L.One(id < |r.asks.issued|);
    assert L.ClosedCount(id, r.gets.finished) != L.One(id < |r.asks.issued|);
  }

  /** A message still in its sender's out-queue has not been handled. */
  lemma MessageUndone(r: Peer, s: Peer, down: Link, x: Item)
    requires D.InOrder(s, r, down) && x in s.outbox.queue && x.frame.Message?
    ensures !Complete(r, s)
  {
    var c, rest := MessagesOf(x.tid), r.inbox.queue + (down.frames + Held(s.outbox));
    D.Split(c, s, r, down);
    KeptAreMembers(c, rest);
    assert x in rest && x in Keep(c, rest);
    assert Keep(c, r.inbox.handled) + Keep(c, rest) == Keep(c, s.outbox.sent);
    assert |Keep(c, r.inbox.handled)| < |Keep(c, s.outbox.sent)|;
  }

  /** Whatever lies in the out-queue of a, one of the peers is still without something. */
  lemma QueuedIsUndone(a: Peer, b: Peer, ab: Link, ba: Link)
    requires L.Balanced(a, b, ab, ba) && L.Balanced(b, a, ba, ab) && D.InOrder(a, b, ab) && a.outbox.queue != []
    ensures !(Complete(a, b) && Complete(b, a))
  {
    var x := a.outbox.queue[0];
    match x.frame
    case Request(_, _) => RequestUndone(a, b, ab, ba, x);
    case Info(_, _) => InfoUndone(b, a, ba, ab, x);
    case Message(_, _) => MessageUndone(b, a, ab, x);
  }

  /**
   * Exactly when two peers finish: after any run that leaves them connected and with nothing they can do, all requests
   * have been answered with their files and all messages handled if and only if neither sender has lost its wake-up in
   * the window between its failed dequeue and its reset.
   */
  lemma DoneExactly(e: Envs, moves: seq<Move>)
    requires IsRun(e, START, moves) && Roomy(e)
    requires |After(e, START, moves).a.asks.issued| <= ID_SPACE && |After(e, START, moves).b.asks.issued| <= ID_SPACE
    ensures var s := After(e, START, moves);
      s.a.connected && s.b.connected && AllQuiet(e, s) ==>
        (Complete(s.a, s.b) && Complete(s.b, s.a) <==> !LostInWindow(s.a.outbox) && !LostInWindow(s.b.outbox))
  {
    var s := After(e, START, moves);
    StuckOnlyWhenDone(e, moves);
    Reached(e, moves);
    if LostInWindow(s.a.outbox) {
      QueuedIsUndone(s.a, s.b, s.ab, s.ba);
    }
    if LostInWindow(s.b.outbox) {
      QueuedIsUndone(s.b, s.a, s.ba, s.ab);
    }
  }

  // ----- A run that stalls -----

  predicate CanDo(env: Env, n: Node, acts: seq<Action>)
    decreases |acts|
  {
    acts == [] || (Can(env, n, acts[0]) && CanDo(env, Step(env, n, acts[0]), acts[1..]))
  }

  function Done(env: Env, n: Node, acts: seq<Action>): Node
    requires CanDo(env, n, acts)
    decreases |acts|
  {
    if acts == [] then n else Done(env, Step(env, n, acts[0]), acts[1..])
  }

  function MovesOfA(acts: seq<Action>): (moves: seq<Move>)
    ensures |moves| == |acts|
  {
    if acts == [] then [] else [A(acts[0])] + MovesOfA(acts[1..])
  }

  function MovesOfB(acts: seq<Action>): (moves: seq<Move>)
    ensures |moves| == |acts|
  {
    if acts == [] then [] else [B(acts[0])] + MovesOfB(acts[1..])
  }

  lemma {:induction false} RunOfA(e: Envs, s: Sys, acts: seq<Action>)
    requires CanDo(e.a, NodeA(s), acts)
    ensures IsRun(e, s, MovesOfA(acts))
    ensures var n := Done(e.a, NodeA(s), acts); After(e, s, MovesOfA(acts)) == Sys(n.me, s.b, n.tx, n.rx)
    decreases |acts|
  {
    if acts != [] {
      RunOfA(e, Next(e, s, A(acts[0])), acts[1..]);
      assert MovesOfA(acts)[1..] == MovesOfA(acts[1..]);
    }
  }

  lemma {:induction false} RunOfB(e: Envs, s: Sys, acts: seq<Action>)
    requires CanDo(e.b, NodeB(s), acts)
    ensures IsRun(e, s, MovesOfB(acts))
    ensures var n := Done(e.b, NodeB(s), acts); After(e, s, MovesOfB(acts)) == Sys(s.a, n.me, n.rx, n.tx)
    decreases |acts|
  {
    if acts != [] {
      RunOfB(e, Next(e, s, B(acts[0])), acts[1..]);
      assert MovesOfB(acts)[1..] == MovesOfB(acts[1..]);
    }
  }

  lemma {:induction false} RunJoin(e: Envs, s: Sys, first: seq<Move>, rest: seq<Move>)
    requires IsRun(e, s, first) && IsRun(e, After(e, s, first), rest)
    ensures IsRun(e, s, first + rest) && After(e, s, first + rest) == After(e, After(e, s, first), rest)
    decreases |first|
  {
    if first == [] {
      assert first + rest == rest;
    } else {
      RunJoin(e, Next(e, s, first[0]), first[1..], rest);
      assert (first + rest)[1..] == first[1..] + rest;
    }
  }

  lemma ThenDo(env: Env, n: Node, a: Action, acts: seq<Action>)
    requires Can(env, n, a) && CanDo(env, Step(env, n, a), acts)
    ensures CanDo(env, n, [a] + acts) && Done(env, n, [a] + acts) == Done(env, Step(env, n, a), acts)
  {
    assert ([a] + acts)[1..] == acts;
  }

  // Peer A sends a message; its sender writes it and finds the out-queue empty. Before it resets the flag, another
  // thread makes a whole RequestFile, whose Signal the reset then wipes out.

  function SendAndWake(typ: nat, body: seq<byte>): seq<Action> {
    [Post(1, typ, body)] + ([Raise(1)] + ([Wake] + []))
  }

  function WriteAndFail(): seq<Action> {
    [Pop(0)] + ([Write] + ([Fail] + []))
  }

  function RequestInWindow(asked: Asked): seq<Action> {
    [Allocate(2, asked)] + ([Record(0)] + ([Submit(0)] + []))
  }

  function SignalAndReset(): seq<Action> {
    [Raise(2)] + ([Reset] + [])
  }

  function ReadAndHandle(): seq<Action> {
    [Read] + ([Handle] + [])
  }

  /** A node on which nothing has been asked for, served, received or read. */
  predicate Untouched(n: Node) {
    && n.me.connected && n.me.asks == NEW_PEER.asks && n.me.serves == NEW_PEER.serves && n.me.gets == NEW_PEER.gets
    && n.me.inbox == NEW_PEER.inbox && n.rx == Link([], []) && n.tx.bytes == []
  }

  lemma Woken(env: Env, n: Node, typ: nat, body: seq<byte>)
    requires Untouched(n) && n.me.outbox == O.INIT && n.tx.frames == []
    ensures CanDo(env, n, SendAndWake(typ, body))
    ensures var n', x := Done(env, n, SendAndWake(typ, body)), Item(1, Message(typ, body), 1);
      && Untouched(n') && n'.tx.frames == []
      && n'.me.outbox.queue == [x] && n'.me.outbox.flag && n'.me.outbox.consumer.Top? && n'.me.outbox.mid == map[]
  {
    var n1 := Step(env, n, Post(1, typ, body));
    var n2 := Step(env, n1, Raise(1));
    ThenDo(env, n2, Wake, []);
    ThenDo(env, n1, Raise(1), [Wake] + []);
    ThenDo(env, n, Post(1, typ, body), [Raise(1)] + ([Wake] + []));
  }

  lemma DequeueFailed(env: Env, n: Node, x: Item)
    requires Untouched(n) && n.tx.frames == [] && env.frameCap > 0
    requires n.me.outbox.queue == [x] && n.me.outbox.flag && n.me.outbox.consumer.Top? && n.me.outbox.mid == map[]
    ensures CanDo(env, n, WriteAndFail())
    ensures var n' := Done(env, n, WriteAndFail());
      && Untouched(n') && n'.tx.frames == [x]
      && n'.me.outbox.queue == [] && n'.me.outbox.consumer.Failed? && n'.me.outbox.mid == map[]
  {
    var n1 := Step(env, n, Pop(0));
    var n2 := Step(env, n1, Write);
    ThenDo(env, n2, Fail, []);
    ThenDo(env, n1, Write, [Fail] + []);
    ThenDo(env, n, Pop(0), [Write] + ([Fail] + []));
  }

  /** The sender waits on a false flag beside one queued request, and nothing else has been asked for. */
  ghost predicate Stalled(me: Peer, asked: Asked) {
    && me.connected && me.asks.issued == [asked] && me.asks.calls == [] && LostWakeup(me.outbox)
    && me.serves == NEW_PEER.serves && me.gets == NEW_PEER.gets && me.inbox == NEW_PEER.inbox
  }

  /** The same before the Signal and the reset. */
  predicate InWindow(n: Node, asked: Asked) {
    && n.me.connected && n.me.asks.issued == [asked] && n.me.asks.calls == []
    && n.me.outbox.consumer.Failed? && n.me.outbox.queue != [] && n.me.outbox.mid.Keys == {2}
    && n.me.serves == NEW_PEER.serves && n.me.gets == NEW_PEER.gets && n.me.inbox == NEW_PEER.inbox
  }

  lemma Requested(env: Env, n: Node, asked: Asked)
    requires Untouched(n) && n.me.outbox.queue == [] && n.me.outbox.consumer.Failed? && n.me.outbox.mid == map[]
    ensures CanDo(env, n, RequestInWindow(asked))
    ensures var n' := Done(env, n, RequestInWindow(asked)); InWindow(n', asked) && n'.tx == n.tx && n'.rx == n.rx
  {
    var n1 := Step(env, n, Allocate(2, asked));
    var n2 := Step(env, n1, Record(0));
    ThenDo(env, n2, Submit(0), []);
    ThenDo(env, n1, Record(0), [Submit(0)] + []);
    ThenDo(env, n, Allocate(2, asked), [Record(0)] + ([Submit(0)] + []));
  }

  lemma SignalLost(env: Env, n: Node, asked: Asked)
    requires InWindow(n, asked)
    ensures CanDo(env, n, SignalAndReset())
    ensures var n' := Done(env, n, SignalAndReset()); Stalled(n'.me, asked) && n'.tx == n.tx && n'.rx == n.rx
  {
    var n1 := Step(env, n, Raise(2));
    assert n1.me.outbox.mid.Keys == {};
    ThenDo(env, n1, Reset, []);
    ThenDo(env, n, Raise(2), [Reset] + []);
  }

  lemma Handled(env: Env, n: Node, x: Item)
    requires n.me == NEW_PEER && n.tx == Link([], []) && n.rx == Link([x], []) && x.frame.Message?
    ensures CanDo(env, n, ReadAndHandle())
    ensures var n' := Done(env, n, ReadAndHandle());
      n' == Node(NEW_PEER.(inbox := Inbox([], [x])), Link([], []), Link([], []))
  {
    var n1 := Step(env, n, Read);
    ThenDo(env, n1, Handle, []);
    ThenDo(env, n, Read, [Handle] + []);
  }

  lemma NothingToDo(env: Env, n: Node)
    requires n.me.asks.calls == [] && n.me.outbox.mid == map[] && n.me.outbox.consumer.Waiting? && !n.me.outbox.flag
    requires n.me.serves == NEW_PEER.serves && n.me.gets == NEW_PEER.gets
    requires n.me.inbox.queue == [] && n.rx.frames == []
    ensures Quiet(env, n)
  {
  }

  /**
   * The transfer can stall: with any room in the sockets and for any request, a run ends with both peers connected,
   * nothing they can do, the request issued, its wake-up lost and no file received.
   */
  lemma StallIsReachable(e: Envs, asked: Asked, typ: nat, body: seq<byte>) returns (moves: seq<Move>)
    requires Roomy(e)
    ensures IsRun(e, START, moves)
    ensures var s := After(e, START, moves);
      && s.a.connected && s.b.connected && AllQuiet(e, s) && LostInWindow(s.a.outbox)
      && s.a.asks.issued == [asked] && s.a.gets.finished == [] && !Complete(s.a, s.b)
  {
    var x, n := Item(1, Message(typ, body), 1), NodeA(START);
    Woken(e.a, n, typ, body);
    moves := MovesOfA(SendAndWake(typ, body));
    RunOfA(e, START, SendAndWake(typ, body));
    var s1 := After(e, START, moves);
    DequeueFailed(e.a, NodeA(s1), x);
    RunOfA(e, s1, WriteAndFail());
    RunJoin(e, START, moves, MovesOfA(WriteAndFail()));
    moves := moves + MovesOfA(WriteAndFail());
    var s2 := After(e, START, moves);
    Requested(e.a, NodeA(s2), asked);
    RunOfA(e, s2, RequestInWindow(asked));
    RunJoin(e, START, moves, MovesOfA(RequestInWindow(asked)));
    moves := moves + MovesOfA(RequestInWindow(asked));
    var s3 := After(e, START, moves);
    SignalLost(e.a, NodeA(s3), asked);
    RunOfA(e, s3, SignalAndReset());
    RunJoin(e, START, moves, MovesOfA(SignalAndReset()));
    moves := moves + MovesOfA(SignalAndReset());
    var s4 := After(e, START, moves);
    Handled(e.b, NodeB(s4), x);
    RunOfB(e, s4, ReadAndHandle());
    RunJoin(e, START, moves, MovesOfB(ReadAndHandle()));
    moves := moves + MovesOfB(ReadAndHandle());
    var s := After(e, START, moves);
    NothingToDo(e.a, NodeA(s));
    NothingToDo(e.b, NodeB(s));
    LostOnlyInWindow(e, moves);
    assert L.ClosedCount(0, s.a.gets.finished) == 0 && L.One(0 < |s.a.asks.issued|) == 1;
  }
}
