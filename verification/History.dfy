/** What a run has done: the ids it issued, the frames each peer has read and those its workers have taken up. */
module History {
  import opened Bytes
  import opened Frames
  import opened Transfer
  import W = Wire

  /** Peer a or peer b, with its links. */
  function NodeOf(s: Sys, isA: bool): Node {
    if isA then NodeA(s) else NodeB(s)
  }

  function EnvOf(e: Envs, isA: bool): Env {
    if isA then e.a else e.b
  }

  /** What a move is to one of the peers: a step of its own, or a step of the other peer, which leaves it as it is. */
  lemma MoveOf(e: Envs, s: Sys, m: Move, isA: bool)
    requires CanMove(e, s, m)
    ensures m.A? == isA ==>
      && Can(EnvOf(e, isA), NodeOf(s, isA), m.act)
      && NodeOf(Next(e, s, m), isA) == Step(EnvOf(e, isA), NodeOf(s, isA), m.act)
    ensures m.A? != isA ==> NodeOf(Next(e, s, m), isA).me == NodeOf(s, isA).me
  {
  }

  // ----- Request ids -----

  /** The id of the k-th request: fetch_add on a 64-bit counter. */
  function IdAt(k: nat): nat {
    if k == 0 then 0 else if IdAt(k - 1) + 1 == ID_SPACE then 0 else IdAt(k - 1) + 1
  }

  lemma {:induction false} IdCounts(k: nat)
    requires k < ID_SPACE
    ensures IdAt(k) == k
  {
    if k > 0 {
      IdCounts(k - 1);
    }
  }

  lemma {:induction false} IdAtIsMod(k: nat)
    ensures IdAt(k) == k % 0x1_0000_0000_0000_0000
  {
    if k > 0 {
      IdAtIsMod(k - 1);
    }
  }

  /** The ids that a peer's fetch_adds have returned in a run, in order. */
  function Ids(e: Envs, s: Sys, moves: seq<Move>, isA: bool): seq<nat>
    requires IsRun(e, s, moves)
    decreases |moves|
  {
    if moves == [] then []
    else
      (if moves[0].A? == isA && moves[0].act.Allocate? then [NodeOf(s, isA).me.asks.nextId] else [])
      + Ids(e, Next(e, s, moves[0]), moves[1..], isA)
  }

  ghost predicate CounterOk(q: Asking) {
    q.nextId == IdAt(|q.issued|)
  }

  lemma CounterStep(env: Env, n: Node, a: Action)
    requires Can(env, n, a) && CounterOk(n.me.asks)
    ensures CounterOk(Step(env, n, a).me.asks)
    ensures |Step(env, n, a).me.asks.issued| == |n.me.asks.issued| + if a.Allocate? then 1 else 0
  {
  }

  ghost predicate CountFrom(ids: seq<nat>, n: nat) {
    forall k :: 0 <= k < |ids| ==> ids[k] == IdAt(n + k)
  }

  lemma CountOn(first: seq<nat>, later: seq<nat>, n: nat)
    requires CountFrom(first, n) && CountFrom(later, n + |first|)
    ensures CountFrom(first + later, n)
  {
    forall k | 0 <= k < |first + later| ensures (first + later)[k] == IdAt(n + k) {
      if k >= |first| {
        assert (first + later)[k] == later[k - |first|] == IdAt(n + |first| + (k - |first|));
      }
    }
  }

  /** Over every run, with no bound: the counter is IdAt of the requests made, and the k-th call has got IdAt(k). */
  lemma {:induction false} IdsIssued(e: Envs, s: Sys, moves: seq<Move>, isA: bool)
    requires IsRun(e, s, moves) && CounterOk(NodeOf(s, isA).me.asks)
    ensures var q, q' := NodeOf(s, isA).me.asks, NodeOf(After(e, s, moves), isA).me.asks;
      && CounterOk(q') && |q'.issued| == |q.issued| + |Ids(e, s, moves, isA)|
      && CountFrom(Ids(e, s, moves, isA), |q.issued|)
    decreases |moves|
  {
    if moves != [] {
      var s', q := Next(e, s, moves[0]), NodeOf(s, isA).me.asks;
      MoveOf(e, s, moves[0], isA);
      if moves[0].A? == isA {
        CounterStep(EnvOf(e, isA), NodeOf(s, isA), moves[0].act);
      }
      IdsIssued(e, s', moves[1..], isA);
      var first := if moves[0].A? == isA && moves[0].act.Allocate? then [q.nextId] else [];
      CountOn(first, Ids(e, s', moves[1..], isA), |q.issued|);
    }
  }

  // ----- Queues -----

  /** The items meant for a destination, in order. */
  function For(d: W.Destination, s: seq<Item>): seq<Item> {
    if s == [] then [] else if W.MeantFor(s[0].frame) == d then [s[0]] + For(d, s[1..]) else For(d, s[1..])
  }

  /** The queue of a destination. */
  function Queue(d: W.Destination, me: Peer): seq<Item> {
    match d
    case ToReceiveFile => me.gets.queue
    case ToSendFile => me.serves.queue
    case ToHandlers => me.inbox.queue
  }

  /** The item a step takes out of the queue. */
  function TakenUp(d: W.Destination, n: Node, a: Action): seq<Item> {
    var q := Queue(d, n.me);
    var takes := if d.ToReceiveFile? then a.TakeInfo? else if d.ToSendFile? then a.Serve? else a.Handle?;
    if q != [] && takes then [q[0]] else []
  }

  /** The frame a step reads from the wire. */
  function ReadBy(n: Node, a: Action): seq<Item> {
    if a.Read? && n.rx.frames != [] then [n.rx.frames[0]] else []
  }

  lemma ReadDrains(me: Peer, x: Item, d: W.Destination)
    ensures Queue(d, Route(me, x)) == Queue(d, me) + For(d, [x])
  {
    assert [x][1..] == [];
  }

  lemma RequestsDrain(env: Env, n: Node, a: Action)
    requires Can(env, n, a) && !a.Read?
    ensures TakenUp(W.ToSendFile, n, a) + Queue(W.ToSendFile, Step(env, n, a).me) == Queue(W.ToSendFile, n.me)
  {
  }

  lemma InfosDrain(env: Env, n: Node, a: Action)
    requires Can(env, n, a) && !a.Read?
    ensures TakenUp(W.ToReceiveFile, n, a) + Queue(W.ToReceiveFile, Step(env, n, a).me) == Queue(W.ToReceiveFile, n.me)
  {
  }

  lemma MessagesDrain(env: Env, n: Node, a: Action)
    requires Can(env, n, a) && !a.Read?
    ensures TakenUp(W.ToHandlers, n, a) + Queue(W.ToHandlers, Step(env, n, a).me) == Queue(W.ToHandlers, n.me)
  {
  }

  /** A step takes from the front of a queue or adds to its end. */
  lemma StepDrains(env: Env, n: Node, a: Action, d: W.Destination)
    requires Can(env, n, a)
    ensures TakenUp(d, n, a) + Queue(d, Step(env, n, a).me) == Queue(d, n.me) + For(d, ReadBy(n, a))
  {
    if a.Read? {
      ReadDrains(n.me, n.rx.frames[0], d);
    } else {
      match d {
        case ToSendFile => RequestsDrain(env, n, a);
        case ToReceiveFile => InfosDrain(env, n, a);
        case ToHandlers => MessagesDrain(env, n, a);
      }
      assert Queue(d, n.me) + [] == Queue(d, n.me);
    }
  }

  /** All the frames a peer has read in a run, and all the items a destination has taken up. */
  function Arrived(e: Envs, s: Sys, moves: seq<Move>, isA: bool): seq<Item>
    requires IsRun(e, s, moves)
    decreases |moves|
  {
    if moves == [] then []
    else
      (if moves[0].A? == isA then ReadBy(NodeOf(s, isA), moves[0].act) else [])
      + Arrived(e, Next(e, s, moves[0]), moves[1..], isA)
  }

  function Drained(d: W.Destination, e: Envs, s: Sys, moves: seq<Move>, isA: bool): seq<Item>
    requires IsRun(e, s, moves)
    decreases |moves|
  {
    if moves == [] then []
    else
      (if moves[0].A? == isA then TakenUp(d, NodeOf(s, isA), moves[0].act) else [])
      + Drained(d, e, Next(e, s, moves[0]), moves[1..], isA)
  }

  lemma {:induction false} ForConcat(d: W.Destination, a: seq<Item>, b: seq<Item>)
    ensures For(d, a + b) == For(d, a) + For(d, b)
  {
    if a == [] {
      assert a + b == b;
    } else {
      ForConcat(d, a[1..], b);
      assert (a + b)[1..] == a[1..] + b;
      Grouped([a[0]], For(d, a[1..]), For(d, b));
    }
  }

  lemma Shuffle(taken: seq<Item>, q: seq<Item>, read: seq<Item>, q1: seq<Item>, drained: seq<Item>, q2: seq<Item>,
                later: seq<Item>)
    requires taken + q1 == q + read && drained + q2 == q1 + later
    ensures (taken + drained) + q2 == q + (read + later)
  {
    Grouped(taken, drained, q2);
    Grouped(taken, q1, later);
    Grouped(q, read, later);
  }

  /**
   * Over every run and for every destination: what has been taken up, followed by what is queued, is what was queued
   * at the start followed by all that has arrived for it, in order.
   */
  lemma {:induction false} RunDrains(d: W.Destination, e: Envs, s: Sys, moves: seq<Move>, isA: bool)
    requires IsRun(e, s, moves)
    ensures Drained(d, e, s, moves, isA) + Queue(d, NodeOf(After(e, s, moves), isA).me)
      == Queue(d, NodeOf(s, isA).me) + For(d, Arrived(e, s, moves, isA))
    decreases |moves|
  {
    var n := NodeOf(s, isA);
    if moves == [] {
      assert [] + Queue(d, n.me) == Queue(d, n.me) + [];
    } else {
      var m, s' := moves[0], Next(e, s, moves[0]);
      var later, q1 := Arrived(e, s', moves[1..], isA), Queue(d, NodeOf(s', isA).me);
      var taken := if m.A? == isA then TakenUp(d, n, m.act) else [];
      var read := if m.A? == isA then ReadBy(n, m.act) else [];
      MoveOf(e, s, m, isA);
      if m.A? == isA {
        StepDrains(EnvOf(e, isA), n, m.act, d);
      } else {
        assert [] + q1 == Queue(d, n.me) + For(d, []);
      }
      RunDrains(d, e, s', moves[1..], isA);
      ForConcat(d, read, later);
      Shuffle(taken, Queue(d, n.me), For(d, read), q1, Drained(d, e, s', moves[1..], isA),
              Queue(d, NodeOf(After(e, s, moves), isA).me), For(d, later));
    }
  }

  lemma HandledStep(env: Env, n: Node, a: Action)
    requires Can(env, n, a)
    ensures Step(env, n, a).me.inbox.handled == n.me.inbox.handled + TakenUp(W.ToHandlers, n, a)
  {
  }

  /** Handlers have been called with what the dispatch thread has taken up. */
  lemma {:induction false} HandledIsDrained(e: Envs, s: Sys, moves: seq<Move>, isA: bool)
    requires IsRun(e, s, moves)
    ensures NodeOf(After(e, s, moves), isA).me.inbox.handled
      == NodeOf(s, isA).me.inbox.handled + Drained(W.ToHandlers, e, s, moves, isA)
    decreases |moves|
  {
    if moves != [] {
      var n, s' := NodeOf(s, isA), Next(e, s, moves[0]);
      MoveOf(e, s, moves[0], isA);
      HandledIsDrained(e, s', moves[1..], isA);
      var taken := if moves[0].A? == isA then TakenUp(W.ToHandlers, n, moves[0].act) else [];
      if moves[0].A? == isA {
        HandledStep(EnvOf(e, isA), n, moves[0].act);
      }
      Grouped(n.me.inbox.handled, taken, Drained(W.ToHandlers, e, s', moves[1..], isA));
    }
  }

  lemma NoneFirst(a: seq<Item>)
    ensures [] + a == a
  {
  }
}
