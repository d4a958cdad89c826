/** In each direction the protocol is an ideal pipe: over every run, files arrive whole and under their names. */
module Refinement {
  import opened Bytes
  import opened Frames
  import opened Transfer
  import opened Flow
  import P = Pipes

  function Rest(s: Server): seq<byte> {
    if s.Streaming? then s.rest else []
  }

  /** The direction in which s serves r's requests. */
  function Dir(r: Peer, s: Peer, down: Link): P.Pipe {
    P.Pipe(
      r.asks.issued, r.asks.names, r.gets.queue + Keep(Infos, down.frames + Held(s.outbox)), r.gets.receiver,
      down.bytes, Rest(s.serves.server), r.gets.finished)
  }

  // ----- Invariants -----

  ghost predicate RequestOk(r: Peer, x: Item) {
    x.frame.Request? ==>
      P.Known(r.asks.issued, r.asks.names, x.frame.id) && r.asks.issued[x.frame.id].path == x.frame.path
  }

  ghost predicate CallOk(q: Asking, c: Call) {
    c.id < |q.issued| && q.issued[c.id] == c.asked && (c.recorded ==> P.Known(q.issued, q.names, c.id))
  }

  ghost predicate CallsOk(q: Asking) {
    (|q.issued| < ID_SPACE ==> q.nextId == |q.issued|) && forall c :: c in q.calls ==> CallOk(q, c)
  }

  ghost predicate PeerInv(me: Peer) {
    && CallsOk(me.asks)
    && (forall x :: x in Held(me.outbox) && x.frame.Info? ==> x.tid == IO)
    && (forall x :: x in me.serves.queue ==> x.frame.Request?)
  }

  ghost predicate Half(r: Peer, s: Peer, up: Link, down: Link, files: P.Files) {
    && (forall x :: x in up.frames + Held(r.outbox) ==> RequestOk(r, x))
    && (forall x :: x in s.serves.queue ==> RequestOk(r, x))
    && P.Inv(files, Dir(r, s, down))
  }

  ghost predicate NodeInv(n: Node, other: Peer, mine: P.Files, theirs: P.Files) {
    && PeerInv(n.me) && PeerInv(other)
    && Half(n.me, other, n.tx, n.rx, theirs)
    && Half(other, n.me, n.rx, n.tx, mine)
  }

  ghost predicate Inv(e: Envs, s: Sys) {
    NodeInv(NodeA(s), s.b, e.a.files, e.b.files)
  }

  // ----- The requester's side -----

  /** What a step of peer n.me is to the pipe that brings it its files. */
  function RequesterEvent(n: Node, a: Action): P.Event {
    match a
    case Allocate(_, asked) => P.Ask(asked)
    case Record(k) => if k < |n.me.asks.calls| then P.Register(n.me.asks.calls[k].id) else P.Stutter
    case ReceiverWake => P.Look(Looking)
    case TakeInfo(writable) =>
      if n.me.gets.queue == [] then P.Look(Idle)
      else
        var f := n.me.gets.queue[0].frame;
        if writable && f.Info? && f.id in n.me.asks.names then P.Take else P.Lose
    case ReadBytes(k) => P.Pull(k)
    case Close => P.Finish
    case _ => P.Stutter
  }

  /** Moving a frame from the wire into a deque changes nothing in the pipe. */
  lemma ReadIsStutter(n: Node, other: Peer)
    requires n.rx.frames != []
    ensures Dir(Route(n.me, n.rx.frames[0]), other, n.rx.(frames := n.rx.frames[1..])) == Dir(n.me, other, n.rx)
  {
    var x, tail := n.rx.frames[0], n.rx.frames[1..] + Held(other.outbox);
    assert n.rx.frames + Held(other.outbox) == [x] + tail;
    KeepConcat(Infos, [x], tail);
    KeepOne(Infos, x);
    var me' := Route(n.me, x);
    assert me'.gets.queue == n.me.gets.queue + Keep(Infos, [x]);
    assert (n.me.gets.queue + Keep(Infos, [x])) + Keep(Infos, tail)
      == n.me.gets.queue + (Keep(Infos, [x]) + Keep(Infos, tail));
  }

  lemma TakeIsEvent(n: Node, other: Peer, writable: bool, files: P.Files)
    requires n.me.gets.receiver.Looking? && P.Inv(files, Dir(n.me, other, n.rx))
    ensures var p, ev := Dir(n.me, other, n.rx), RequesterEvent(n, TakeInfo(writable));
      P.Can(files, p, ev) && Dir(TakeNext(n.me, writable), other, n.rx) == P.Do(files, p, ev)
  {
    if n.me.gets.queue != [] {
      var p := Dir(n.me, other, n.rx);
      assert p.infos[0] == n.me.gets.queue[0] && p.infos[0] in p.infos;
      assert p.infos[1..] == n.me.gets.queue[1..] + Keep(Infos, n.rx.frames + Held(other.outbox));
    }
  }

  lemma RequesterStep(env: Env, n: Node, a: Action, other: Peer, files: P.Files)
    requires Can(env, n, a) && PeerInv(n.me) && P.Inv(files, Dir(n.me, other, n.rx))
    ensures var p, ev, n' := Dir(n.me, other, n.rx), RequesterEvent(n, a), Step(env, n, a);
      P.Can(files, p, ev) && Dir(n'.me, other, n'.rx) == P.Do(files, p, ev)
  {
    match a
    case Read => ReadIsStutter(n, other);
    case TakeInfo(writable) => TakeIsEvent(n, other, writable, files);
    case Record(k) => assert n.me.asks.calls[k] in n.me.asks.calls;
    case _ =>
  }

  // ----- The server's side -----

  /** What a step of peer n.me is to the pipe through which it serves the other peer. */
  function ServerEvent(env: Env, n: Node, a: Action): P.Event {
    match a
    case Serve => if Announces(env, n.me) then P.Announce(Announcement(env, n.me)) else P.Stutter
    case WriteBytes(k) => P.Push(k)
    case _ => P.Stutter
  }

  lemma FreshInfos(env: Env, n: Node, a: Action)
    requires Can(env, n, a)
    ensures Keep(Infos, Fresh(env, n, a)) == if a.Serve? && Announces(env, n.me) then [Announcement(env, n.me)] else []
  {
    if Fresh(env, n, a) != [] {
      KeepOne(Infos, Fresh(env, n, a)[0]);
    }
  }

  lemma ServerStep(env: Env, n: Node, a: Action, other: Peer)
    requires Can(env, n, a) && PeerInv(n.me) && Half(other, n.me, n.rx, n.tx, env.files)
    ensures var p, ev, n' := Dir(other, n.me, n.tx), ServerEvent(env, n, a), Step(env, n, a);
      P.Can(env.files, p, ev) && Dir(other, n'.me, n'.tx) == P.Do(env.files, p, ev)
  {
    StepFlow(env, n, a, Infos);
    FreshInfos(env, n, a);
    var out := Keep(Infos, n.tx.frames + Held(n.me.outbox));
    if a.Serve? && Announces(env, n.me) {
      assert n.me.serves.queue[0] in n.me.serves.queue;
      assert other.gets.queue + (out + [Announcement(env, n.me)])
        == (other.gets.queue + out) + [Announcement(env, n.me)];
    } else {
      assert out + [] == out;
    }
  }

  // ----- Preservation -----

  /** Names and ids only grow, so what was known stays known. */
  lemma StillKnown(env: Env, n: Node, a: Action, id: nat)
    requires Can(env, n, a) && PeerInv(n.me) && P.Known(n.me.asks.issued, n.me.asks.names, id)
    ensures P.Known(Step(env, n, a).me.asks.issued, Step(env, n, a).me.asks.names, id)
    ensures Step(env, n, a).me.asks.issued[id] == n.me.asks.issued[id]
  {
    if a.Record? {
      assert n.me.asks.calls[a.k] in n.me.asks.calls;
    }
  }

  lemma AllocateInv(me: Peer, t: nat, asked: Asked)
    requires PeerInv(me) && |me.asks.issued| < ID_SPACE
    ensures CallsOk(AllocateId(me.asks, t, asked))
  {
    var q, q' := me.asks, AllocateId(me.asks, t, asked);
    forall c | c in q'.calls ensures CallOk(q', c) {
      assert c in q.calls || c == Call(t, q.nextId, asked, false);
    }
  }

  lemma RecordInv(me: Peer, k: nat)
    requires PeerInv(me) && k < |me.asks.calls|
    ensures CallsOk(RecordName(me.asks, k))
  {
    var q, q' := me.asks, RecordName(me.asks, k);
    assert q.calls[k] in q.calls;
    forall d | d in q'.calls ensures CallOk(q', d) {
      assert d in q.calls || d == q.calls[k].(recorded := true);
    }
  }

  lemma CallsInv(env: Env, n: Node, a: Action)
    requires Can(env, n, a) && PeerInv(n.me) && |Step(env, n, a).me.asks.issued| <= ID_SPACE
    ensures CallsOk(Step(env, n, a).me.asks)
  {
    if a.Allocate? {
      AllocateInv(n.me, a.t, a.asked);
    } else if a.Record? {
      RecordInv(n.me, a.k);
    } else {
      assert forall c :: c in Step(env, n, a).me.asks.calls ==> c in n.me.asks.calls;
    }
  }

  lemma OutgoingInv(env: Env, n: Node, a: Action)
    requires Can(env, n, a) && PeerInv(n.me) && forall x :: x in n.tx.frames + Held(n.me.outbox) ==> RequestOk(n.me, x)
    ensures var n' := Step(env, n, a);
      forall x :: x in n'.tx.frames + Held(n'.me.outbox) ==> RequestOk(n'.me, x)
  {
    var n' := Step(env, n, a);
    forall x | x in n'.tx.frames + Held(n'.me.outbox) && x.frame.Request? ensures RequestOk(n'.me, x) {
      NewlySent(env, n, a, x);
      if x in n.tx.frames + Held(n.me.outbox) {
        StillKnown(env, n, a, x.frame.id);
      } else {
        assert a.Submit?;
        assert n.me.asks.calls[a.k] in n.me.asks.calls;
      }
    }
  }

  lemma NewlyHeld(env: Env, n: Node, a: Action, x: Item)
    requires Can(env, n, a) && x in Held(Step(env, n, a).me.outbox)
    ensures x in Held(n.me.outbox) || x in Fresh(env, n, a)
  {
    if a.Pop? {
      assert x in Without(n.me.outbox.queue, a.i) ==> x in n.me.outbox.queue;
    }
  }

  lemma SendersInv(env: Env, n: Node, a: Action)
    requires Can(env, n, a) && PeerInv(n.me)
    ensures forall x :: x in Held(Step(env, n, a).me.outbox) && x.frame.Info? ==> x.tid == IO
  {
    forall x | x in Held(Step(env, n, a).me.outbox) && x.frame.Info? ensures x.tid == IO {
      NewlyHeld(env, n, a, x);
    }
  }

  lemma ArrivedInv(env: Env, n: Node, a: Action, r: Peer)
    requires Can(env, n, a)
    requires forall x :: x in n.me.serves.queue ==> x.frame.Request?
    requires forall x :: x in n.me.serves.queue ==> RequestOk(r, x)
    requires forall x :: x in n.rx.frames ==> RequestOk(r, x)
    ensures forall x :: x in Step(env, n, a).me.serves.queue ==> x.frame.Request? && RequestOk(r, x)
  {
    forall x | x in Step(env, n, a).me.serves.queue ensures x.frame.Request? && RequestOk(r, x) {
      assert x in n.me.serves.queue || (a.Read? && x == n.rx.frames[0] && x.frame.Request?);
    }
  }

  /** The direction in which n.me is served. */
  lemma RequesterHalf(env: Env, n: Node, a: Action, other: Peer, theirs: P.Files)
    requires Can(env, n, a) && PeerInv(n.me) && Half(n.me, other, n.tx, n.rx, theirs)
    ensures Half(Step(env, n, a).me, other, Step(env, n, a).tx, Step(env, n, a).rx, theirs)
  {
    OutgoingInv(env, n, a);
    RequesterStep(env, n, a, other, theirs);
    P.EventInv(theirs, Dir(n.me, other, n.rx), RequesterEvent(n, a));
    forall x | x in other.serves.queue ensures RequestOk(Step(env, n, a).me, x) {
      assert RequestOk(n.me, x);
      if x.frame.Request? { StillKnown(env, n, a, x.frame.id); }
    }
  }

  /** The direction in which n.me serves; the requests it has been sent are still what the other peer asked for. */
  lemma ServerHalf(env: Env, n: Node, a: Action, other: Peer)
    requires Can(env, n, a) && PeerInv(n.me) && Half(other, n.me, n.rx, n.tx, env.files)
    ensures Half(other, Step(env, n, a).me, Step(env, n, a).rx, Step(env, n, a).tx, env.files)
  {
    var n' := Step(env, n, a);
    assert forall x :: x in n.rx.frames ==> x in n.rx.frames + Held(other.outbox);
    ArrivedInv(env, n, a, other);
    ServerStep(env, n, a, other);
    P.EventInv(env.files, Dir(other, n.me, n.tx), ServerEvent(env, n, a));
    assert forall x :: x in n'.rx.frames ==> x in n.rx.frames;
  }

  lemma PeerStep(env: Env, n: Node, a: Action, other: Peer)
    requires Can(env, n, a) && PeerInv(n.me) && |Step(env, n, a).me.asks.issued| <= ID_SPACE
    requires forall x :: x in n.rx.frames ==> RequestOk(other, x)
    requires forall x :: x in n.me.serves.queue ==> RequestOk(other, x)
    ensures PeerInv(Step(env, n, a).me)
  {
    CallsInv(env, n, a);
    SendersInv(env, n, a);
    ArrivedInv(env, n, a, other);
  }

  /** One step of either peer keeps the invariant of both directions. */
  lemma StepInv(env: Env, n: Node, a: Action, other: Peer, theirs: P.Files)
    requires Can(env, n, a) && NodeInv(n, other, env.files, theirs) && |Step(env, n, a).me.asks.issued| <= ID_SPACE
    ensures NodeInv(Step(env, n, a), other, env.files, theirs)
  {
    assert forall x :: x in n.rx.frames ==> x in n.rx.frames + Held(other.outbox);
    PeerStep(env, n, a, other);
    RequesterHalf(env, n, a, other, theirs);
    ServerHalf(env, n, a, other);
  }

  /** The info deque holds announcements of known requests only. */
  lemma InfosQueued(r: Peer, s: Peer, down: Link, files: P.Files)
    requires P.Inv(files, Dir(r, s, down))
    ensures forall x :: x in r.gets.queue ==> x.frame.Info? && x.frame.id in r.asks.names
  {
    forall x | x in r.gets.queue ensures x.frame.Info? && x.frame.id in r.asks.names {
      assert x in Dir(r, s, down).infos;
    }
  }

  lemma MoveInv(e: Envs, s: Sys, m: Move)
    requires CanMove(e, s, m) && Inv(e, s)
    requires |Next(e, s, m).a.asks.issued| <= ID_SPACE && |Next(e, s, m).b.asks.issued| <= ID_SPACE
    ensures Inv(e, Next(e, s, m))
  {
    if m.A? {
      StepInv(e.a, NodeA(s), m.act, s.b, e.b.files);
    } else {
      StepInv(e.b, NodeB(s), m.act, s.a, e.a.files);
    }
  }

  lemma OneIssue(env: Env, n: Node, a: Action)
    requires Can(env, n, a)
    ensures |n.me.asks.issued| <= |Step(env, n, a).me.asks.issued|
  {
  }

  lemma {:induction false} IssuedGrows(e: Envs, s: Sys, moves: seq<Move>)
    requires IsRun(e, s, moves)
    ensures |s.a.asks.issued| <= |After(e, s, moves).a.asks.issued|
      && |s.b.asks.issued| <= |After(e, s, moves).b.asks.issued|
    decreases |moves|
  {
    if moves != [] {
      var s' := Next(e, s, moves[0]);
      assert |s.a.asks.issued| <= |s'.a.asks.issued| && |s.b.asks.issued| <= |s'.b.asks.issued| by {
        if moves[0].A? { OneIssue(e.a, NodeA(s), moves[0].act); } else { OneIssue(e.b, NodeB(s), moves[0].act); }
      }
      IssuedGrows(e, s', moves[1..]);
    }
  }

  /** The invariant holds after every run in which neither peer has used up its 64-bit ids. */
  lemma {:induction false} RunInv(e: Envs, s: Sys, moves: seq<Move>)
    requires IsRun(e, s, moves) && Inv(e, s)
    requires |After(e, s, moves).a.asks.issued| <= ID_SPACE && |After(e, s, moves).b.asks.issued| <= ID_SPACE
    ensures Inv(e, After(e, s, moves))
    decreases |moves|
  {
    if moves != [] {
      IssuedGrows(e, Next(e, s, moves[0]), moves[1..]);
      MoveInv(e, s, moves[0]);
      RunInv(e, Next(e, s, moves[0]), moves[1..]);
    }
  }

  lemma StartInv(e: Envs)
    ensures Inv(e, START)
  {
  }

  /**
   * End-to-end integrity: after any run, whatever the interleaving, every file either peer has closed carries the
   * name registered for its id and the bytes of the path requested with that id.
   */
  lemma Integrity(e: Envs, moves: seq<Move>)
    requires IsRun(e, START, moves)
    requires |After(e, START, moves).a.asks.issued| <= ID_SPACE && |After(e, START, moves).b.asks.issued| <= ID_SPACE
    ensures var s := After(e, START, moves);
      && (forall c :: c in s.a.gets.finished ==> P.Delivered(e.b.files, s.a.asks.issued, c))
      && (forall c :: c in s.b.gets.finished ==> P.Delivered(e.a.files, s.b.asks.issued, c))
  {
    StartInv(e);
    RunInv(e, START, moves);
  }
}
