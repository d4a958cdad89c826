/** Conservation: every request ever made is in exactly one place, from its call to its closed file. */
module Ledger {
  import opened Frames
  import opened Transfer
  import opened Flow
  import R = Refinement

  /** What to count among frames: requests with an id, or announcements with an id. */
  datatype Tag = Asks(id: nat) | Answers(id: nat)

  predicate Hit(g: Tag, x: Item) {
    match g
    case Asks(id) => x.frame.Request? && x.frame.id == id
    case Answers(id) => x.frame.Info? && x.frame.id == id
  }

  function One(b: bool): nat { if b then 1 else 0 }

  function Count(g: Tag, s: seq<Item>): nat {
    if s == [] then 0 else One(Hit(g, s[0])) + Count(g, s[1..])
  }

  function CallCount(id: nat, s: seq<Call>): nat {
    if s == [] then 0 else One(s[0].id == id) + CallCount(id, s[1..])
  }

  function ClosedCount(id: nat, s: seq<Closed>): nat {
    if s == [] then 0 else One(s[0].id == id) + ClosedCount(id, s[1..])
  }

  lemma {:induction false} CountConcat(g: Tag, a: seq<Item>, b: seq<Item>)
    ensures Count(g, a + b) == Count(g, a) + Count(g, b)
  {
    if a == [] {
      assert a + b == b;
    } else {
      CountConcat(g, a[1..], b);
      assert (a + b)[1..] == a[1..] + b;
    }
  }

  lemma CountOne(g: Tag, x: Item)
    ensures Count(g, [x]) == One(Hit(g, x))
  {
    assert [x][1..] == [];
  }

  lemma {:induction false} CallConcat(id: nat, a: seq<Call>, b: seq<Call>)
    ensures CallCount(id, a + b) == CallCount(id, a) + CallCount(id, b)
  {
    if a == [] {
      assert a + b == b;
    } else {
      CallConcat(id, a[1..], b);
      assert (a + b)[1..] == a[1..] + b;
    }
  }

  lemma CallOne(id: nat, c: Call)
    ensures CallCount(id, [c]) == One(c.id == id)
  {
    assert [c][1..] == [];
  }

  lemma {:induction false} ClosedAppend(id: nat, s: seq<Closed>, c: Closed)
    ensures ClosedCount(id, s + [c]) == ClosedCount(id, s) + One(c.id == id)
  {
    if s == [] {
      assert (s + [c])[1..] == [];
    } else {
      ClosedAppend(id, s[1..], c);
      assert (s + [c])[1..] == s[1..] + [c];
    }
  }

  lemma SplitCalls(id: nat, s: seq<Call>, k: nat)
    requires k < |s|
    ensures CallCount(id, s) == CallCount(id, s[..k]) + One(s[k].id == id) + CallCount(id, s[k + 1..])
  {
    assert s == (s[..k] + [s[k]]) + s[k + 1..];
    CallConcat(id, s[..k] + [s[k]], s[k + 1..]);
    CallConcat(id, s[..k], [s[k]]);
    CallOne(id, s[k]);
  }

  // ----- The outgoing side -----

  lemma PopCount(g: Tag, front: seq<Item>, q: seq<Item>, i: nat)
    requires i < |q|
    ensures Count(g, front + ([q[i]] + Without(q, i))) == Count(g, front + q)
  {
    assert q == q[..i] + ([q[i]] + q[i + 1..]);
    CountConcat(g, q[..i], [q[i]] + q[i + 1..]);
    CountConcat(g, [q[i]], q[i + 1..]);
    CountConcat(g, [q[i]], Without(q, i));
    CountConcat(g, q[..i], q[i + 1..]);
    CountConcat(g, front, [q[i]] + Without(q, i));
    CountConcat(g, front, q);
  }

  lemma SendCount(g: Tag, out: seq<Item>, x: Item)
    ensures Count(g, out + [x]) == Count(g, out) + Count(g, [x])
  {
    CountConcat(g, out, [x]);
  }

  function Outgoing(n: Node): seq<Item> {
    n.tx.frames + Held(n.me.outbox)
  }

  /** A step adds to the outgoing frames what it enqueues and nothing else. */
  lemma StepCount(env: Env, n: Node, a: Action, g: Tag)
    requires Can(env, n, a)
    ensures Count(g, Outgoing(Step(env, n, a))) == Count(g, Outgoing(n)) + Count(g, Fresh(env, n, a))
  {
    var out, out', added := Outgoing(n), Outgoing(Step(env, n, a)), Fresh(env, n, a);
    if added != [] {
      assert added == [added[0]];
      assert out' == out + [added[0]];
      SendCount(g, out, added[0]);
    } else if a.Pop? {
      assert Held(n.me.outbox) == n.me.outbox.queue;
      PopCount(g, n.tx.frames, n.me.outbox.queue, a.i);
    } else if a.Write? {
      WriteFlow(n.tx.frames, n.me.outbox);
    }
  }

  /** Requests enter the out-queue from calls, announcements from CoSendFile. */
  lemma FreshCount(env: Env, n: Node, a: Action, id: nat)
    requires Can(env, n, a)
    ensures Count(Asks(id), Fresh(env, n, a)) == One(a.Submit? && n.me.asks.calls[a.k].id == id)
    ensures Count(Answers(id), Fresh(env, n, a))
      == One(a.Serve? && Announces(env, n.me) && n.me.serves.queue[0].frame.id == id)
  {
    if Fresh(env, n, a) != [] {
      assert Fresh(env, n, a) == [Fresh(env, n, a)[0]];
      CountOne(Asks(id), Fresh(env, n, a)[0]);
      CountOne(Answers(id), Fresh(env, n, a)[0]);
    }
  }

  // ----- The ledger -----

  /** Request id at its requester: a call in progress, a request not yet read by the other peer. */
  function AtRequester(id: nat, calls: seq<Call>, out: seq<Item>): nat {
    CallCount(id, calls) + Count(Asks(id), out)
  }

  /** At its server: a queued request or one the server has stopped on. */
  function AtServer(id: nat, v: Serving): nat {
    Count(Asks(id), v.queue) + One(v.server == Stopped(id))
  }

  /** Back at its requester: a queued announcement, the file being received or given up, a closed file. */
  function BackAtRequester(id: nat, g: Getting): nat {
    Count(Answers(id), g.queue)
    + One((g.receiver.Receiving? || g.receiver.Gone?) && g.receiver.id == id)
    + ClosedCount(id, g.finished)
  }

  /** How often request id of peer r occurs between r and the peer s that serves it. */
  function Located(id: nat, r: Peer, s: Peer, up: Link, down: Link): nat {
    AtRequester(id, r.asks.calls, up.frames + Held(r.outbox))
    + AtServer(id, s.serves) + Count(Answers(id), down.frames + Held(s.outbox))
    + BackAtRequester(id, r.gets)
  }

  ghost predicate Balanced(r: Peer, s: Peer, up: Link, down: Link) {
    forall id: nat :: Located(id, r, s, up, down) == One(id < |r.asks.issued|)
  }

  // ----- The requester -----

  lemma CallsStep(q: Asking, k: nat, id: nat)
    requires k < |q.calls|
    ensures CallCount(id, RecordName(q, k).calls) == CallCount(id, q.calls)
    ensures CallCount(id, LeaveCall(q, k).calls) == CallCount(id, q.calls) - One(q.calls[k].id == id)
  {
    SplitCalls(id, q.calls, k);
    var s' := RecordName(q, k).calls;
    SplitCalls(id, s', k);
    assert s'[..k] == q.calls[..k] && s'[k + 1..] == q.calls[k + 1..];
    CallConcat(id, q.calls[..k], q.calls[k + 1..]);
  }

  lemma NewCall(q: Asking, t: nat, asked: Asked, id: nat)
    ensures CallCount(id, AllocateId(q, t, asked).calls) == CallCount(id, q.calls) + One(q.nextId == id)
  {
    var c := Call(t, q.nextId, asked, false);
    CallConcat(id, q.calls, [c]);
    CallOne(id, c);
  }

  /** Calls come with an allocation and leave with their request. */
  lemma CallsChange(env: Env, n: Node, a: Action, id: nat)
    requires Can(env, n, a)
    ensures CallCount(id, Step(env, n, a).me.asks.calls) + One(a.Submit? && n.me.asks.calls[a.k].id == id)
      == CallCount(id, n.me.asks.calls) + One(a.Allocate? && n.me.asks.nextId == id)
  {
    match a
    case Allocate(t, asked) => NewCall(n.me.asks, t, asked, id);
    case Record(k) => CallsStep(n.me.asks, k, id);
    case Submit(k) => CallsStep(n.me.asks, k, id);
    case _ =>
  }

  /** An allocation issues the id it takes from the counter. */
  lemma IssuedChange(env: Env, n: Node, a: Action, id: nat)
    requires Can(env, n, a) && R.CallsOk(n.me.asks) && |Step(env, n, a).me.asks.issued| <= ID_SPACE
    ensures One(id < |Step(env, n, a).me.asks.issued|)
      == One(id < |n.me.asks.issued|) + One(a.Allocate? && n.me.asks.nextId == id)
  {
  }

  /** At the asking end only an allocation adds a request. */
  lemma AskingStep(env: Env, n: Node, a: Action, id: nat)
    requires Can(env, n, a) && R.CallsOk(n.me.asks) && |Step(env, n, a).me.asks.issued| <= ID_SPACE
    ensures var n' := Step(env, n, a);
      AtRequester(id, n'.me.asks.calls, Outgoing(n')) - One(id < |n'.me.asks.issued|)
      == AtRequester(id, n.me.asks.calls, Outgoing(n)) - One(id < |n.me.asks.issued|)
  {
    StepCount(env, n, a, Asks(id));
    FreshCount(env, n, a, id);
    CallsChange(env, n, a, id);
    IssuedChange(env, n, a, id);
  }

  // ----- Reading -----

  /** The frames of the other peer that are still on the wire or in its out-queue. */
  lemma ReadCount(g: Tag, frames: seq<Item>, held: seq<Item>)
    requires frames != []
    ensures Count(g, frames + held) == One(Hit(g, frames[0])) + Count(g, frames[1..] + held)
  {
    assert (frames + held)[1..] == frames[1..] + held;
  }

  /** A frame read moves from the other peer's outgoing side into a deque. */
  lemma RouteCount(g: Tag, me: Peer, frames: seq<Item>, held: seq<Item>)
    requires frames != []
    ensures var q, q' := me.serves.queue, Route(me, frames[0]).serves.queue;
      g.Asks? ==> Count(g, q') + Count(g, frames[1..] + held) == Count(g, q) + Count(g, frames + held)
    ensures var q, q' := me.gets.queue, Route(me, frames[0]).gets.queue;
      g.Answers? ==> Count(g, q') + Count(g, frames[1..] + held) == Count(g, q) + Count(g, frames + held)
  {
    ReadCount(g, frames, held);
    CountOne(g, frames[0]);
    CountConcat(g, me.serves.queue, [frames[0]]);
    CountConcat(g, me.gets.queue, [frames[0]]);
  }

  // ----- The server -----

  /** At its loop head the server answers the first request or stops on it. */
  lemma ServeCount(env: Env, me: Peer, id: nat)
    requires IO !in me.outbox.mid && me.serves.server.Ready? && forall x :: x in me.serves.queue ==> x.frame.Request?
    ensures AtServer(id, ServeNext(env, me).serves) + One(Announces(env, me) && me.serves.queue[0].frame.id == id)
      == AtServer(id, me.serves)
  {
    if me.serves.queue != [] {
      assert me.serves.queue[0] in me.serves.queue;
    }
  }

  lemma ServerChange(env: Env, n: Node, a: Action, held: seq<Item>, id: nat)
    requires Can(env, n, a) && forall x :: x in n.me.serves.queue ==> x.frame.Request?
    ensures var n' := Step(env, n, a);
      AtServer(id, n'.me.serves) + Count(Asks(id), n'.rx.frames + held)
      + One(a.Serve? && Announces(env, n.me) && n.me.serves.queue[0].frame.id == id)
      == AtServer(id, n.me.serves) + Count(Asks(id), n.rx.frames + held)
  {
    match a
    case Read => RouteCount(Asks(id), n.me, n.rx.frames, held);
    case Serve => ServeCount(env, n.me, id);
    case _ =>
  }

  /** At the serving end nothing adds or loses a request: it is queued, stopped on or announced. */
  lemma ServingStep(env: Env, n: Node, a: Action, held: seq<Item>, id: nat)
    requires Can(env, n, a) && forall x :: x in n.me.serves.queue ==> x.frame.Request?
    ensures var n' := Step(env, n, a);
      AtServer(id, n'.me.serves) + Count(Answers(id), Outgoing(n')) + Count(Asks(id), n'.rx.frames + held)
      == AtServer(id, n.me.serves) + Count(Answers(id), Outgoing(n)) + Count(Asks(id), n.rx.frames + held)
  {
    StepCount(env, n, a, Answers(id));
    FreshCount(env, n, a, id);
    ServerChange(env, n, a, held, id);
  }

  // ----- The receiver -----

  /** At its loop head the receiver takes an announcement up. */
  lemma TakeCount(me: Peer, writable: bool, id: nat)
    requires me.gets.receiver.Looking? && forall x :: x in me.gets.queue ==> x.frame.Info?
    ensures BackAtRequester(id, TakeNext(me, writable).gets) == BackAtRequester(id, me.gets)
  {
    if me.gets.queue != [] {
      assert me.gets.queue[0] in me.gets.queue;
    }
  }

  lemma CloseCount(env: Env, n: Node, id: nat)
    requires Can(env, n, Close)
    ensures BackAtRequester(id, Step(env, n, Close).me.gets) == BackAtRequester(id, n.me.gets)
  {
    var Receiving(i, name, _, got) := n.me.gets.receiver;
    ClosedAppend(id, n.me.gets.finished, Closed(i, name, got));
  }

  lemma GettingStep(env: Env, n: Node, a: Action, held: seq<Item>, id: nat)
    requires Can(env, n, a) && forall x :: x in n.me.gets.queue ==> x.frame.Info?
    ensures var n' := Step(env, n, a);
      BackAtRequester(id, n'.me.gets) + Count(Answers(id), n'.rx.frames + held)
      == BackAtRequester(id, n.me.gets) + Count(Answers(id), n.rx.frames + held)
  {
    match a
    case Read => RouteCount(Answers(id), n.me, n.rx.frames, held);
    case TakeInfo(writable) => TakeCount(n.me, writable, id);
    case Close => CloseCount(env, n, id);
    case _ =>
  }

  // ----- Every step -----

  ghost predicate Inv(e: Envs, s: Sys) {
    R.Inv(e, s) && Balanced(s.a, s.b, s.ab, s.ba) && Balanced(s.b, s.a, s.ba, s.ab)
  }

  /** One step of the requester keeps each of its requests in one place. */
  lemma RequesterBalanced(env: Env, n: Node, a: Action, other: Peer, id: nat)
    requires Can(env, n, a) && R.CallsOk(n.me.asks) && |Step(env, n, a).me.asks.issued| <= ID_SPACE
    requires forall x :: x in n.me.gets.queue ==> x.frame.Info?
    requires Located(id, n.me, other, n.tx, n.rx) == One(id < |n.me.asks.issued|)
    ensures var n' := Step(env, n, a); Located(id, n'.me, other, n'.tx, n'.rx) == One(id < |n'.me.asks.issued|)
  {
    AskingStep(env, n, a, id);
    GettingStep(env, n, a, Held(other.outbox), id);
  }

  lemma ServerBalanced(env: Env, n: Node, a: Action, other: Peer, id: nat)
    requires Can(env, n, a) && forall x :: x in n.me.serves.queue ==> x.frame.Request?
    requires Located(id, other, n.me, n.rx, n.tx) == One(id < |other.asks.issued|)
    ensures var n' := Step(env, n, a); Located(id, other, n'.me, n'.rx, n'.tx) == One(id < |other.asks.issued|)
  {
    ServingStep(env, n, a, Held(other.outbox), id);
  }

  lemma StepBalanced(env: Env, n: Node, a: Action, other: Peer, theirs: R.P.Files)
    requires Can(env, n, a) && R.NodeInv(n, other, env.files, theirs) && |Step(env, n, a).me.asks.issued| <= ID_SPACE
    requires Balanced(n.me, other, n.tx, n.rx) && Balanced(other, n.me, n.rx, n.tx)
    ensures var n' := Step(env, n, a);
      Balanced(n'.me, other, n'.tx, n'.rx) && Balanced(other, n'.me, n'.rx, n'.tx)
  {
    var n' := Step(env, n, a);
    R.InfosQueued(n.me, other, n.rx, theirs);
    forall id: nat ensures Located(id, n'.me, other, n'.tx, n'.rx) == One(id < |n'.me.asks.issued|) {
      RequesterBalanced(env, n, a, other, id);
    }
    forall id: nat ensures Located(id, other, n'.me, n'.rx, n'.tx) == One(id < |other.asks.issued|) {
      ServerBalanced(env, n, a, other, id);
    }
  }

  lemma {:induction false} RunInv(e: Envs, s: Sys, moves: seq<Move>)
    requires IsRun(e, s, moves) && Inv(e, s)
    requires |After(e, s, moves).a.asks.issued| <= ID_SPACE && |After(e, s, moves).b.asks.issued| <= ID_SPACE
    ensures Inv(e, After(e, s, moves))
    decreases |moves|
  {
    if moves != [] {
      var s' := Next(e, s, moves[0]);
      R.IssuedGrows(e, s', moves[1..]);
      R.MoveInv(e, s, moves[0]);
      if moves[0].A? {
        StepBalanced(e.a, NodeA(s), moves[0].act, s.b, e.b.files);
      } else {
        StepBalanced(e.b, NodeB(s), moves[0].act, s.a, e.a.files);
      }
      RunInv(e, s', moves[1..]);
    }
  }

  /** After every run each request of either peer, known by its id, is in exactly one place. */
  lemma RequestsConserved(e: Envs, moves: seq<Move>, id: nat)
    requires IsRun(e, START, moves)
    requires |After(e, START, moves).a.asks.issued| <= ID_SPACE && |After(e, START, moves).b.asks.issued| <= ID_SPACE
    ensures var s := After(e, START, moves);
      && Located(id, s.a, s.b, s.ab, s.ba) == One(id < |s.a.asks.issued|)
      && Located(id, s.b, s.a, s.ba, s.ab) == One(id < |s.b.asks.issued|)
  {
    R.StartInv(e);
    RunInv(e, START, moves);
  }
}
