/** Message delivery: handlers see each sending thread's messages in send order, without gaps or repeats. */
module Delivery {
  import opened Frames
  import opened Transfer
  import opened Flow

  /** Everything on its way from sender s to r's handlers, oldest first. */
  function Way(s: Peer, r: Peer, link: Link): seq<Item> {
    r.inbox.handled + r.inbox.queue + (link.frames + Held(s.outbox))
  }

  ghost predicate InOrder(s: Peer, r: Peer, link: Link) {
    forall t :: Keep(MessagesOf(t), Way(s, r, link)) == Keep(MessagesOf(t), s.outbox.sent)
  }

  ghost predicate Inv(s: Sys) {
    InOrder(s.a, s.b, s.ab) && InOrder(s.b, s.a, s.ba)
  }

  lemma SenderStep(env: Env, n: Node, a: Action, other: Peer)
    requires Can(env, n, a) && InOrder(n.me, other, n.tx)
    ensures InOrder(Step(env, n, a).me, other, Step(env, n, a).tx)
  {
    var n' := Step(env, n, a);
    forall t ensures Keep(MessagesOf(t), Way(n'.me, other, n'.tx)) == Keep(MessagesOf(t), n'.me.outbox.sent) {
      var c, before, x := MessagesOf(t), other.inbox.handled + other.inbox.queue, Fresh(env, n, a);
      var out := n.tx.frames + Held(n.me.outbox);
      StepFlow(env, n, a, c);
      KeepConcat(c, before, out);
      KeepConcat(c, before, n'.tx.frames + Held(n'.me.outbox));
      KeepConcat(c, n.me.outbox.sent, x);
      assert Keep(c, before) + (Keep(c, out) + Keep(c, x)) == (Keep(c, before) + Keep(c, out)) + Keep(c, x);
      assert Keep(c, Way(n.me, other, n.tx)) == Keep(c, n.me.outbox.sent);
    }
  }

  lemma {:induction false} ReadKeepsWay(c: Class, me: Peer, frames: seq<Item>, held: seq<Item>)
    requires c.MessagesOf? && frames != []
    ensures var me' := Route(me, frames[0]);
      Keep(c, me'.inbox.handled + me'.inbox.queue + (frames[1..] + held))
        == Keep(c, me.inbox.handled + me.inbox.queue + (frames + held))
  {
    var me', x, before, after := Route(me, frames[0]), [frames[0]], me.inbox.handled + me.inbox.queue,
      frames[1..] + held;
    assert before + (frames + held) == (before + x) + after;
    KeepConcat(c, before + x, after);
    KeepConcat(c, before, x);
    KeepConcat(c, me'.inbox.handled + me'.inbox.queue, after);
    if frames[0].frame.Message? {
      assert me'.inbox.handled + me'.inbox.queue == before + x;
    } else {
      KeepOne(c, frames[0]);
      assert Keep(c, before) + [] == Keep(c, before);
    }
  }

  lemma ReceiverStep(env: Env, n: Node, a: Action, other: Peer)
    requires Can(env, n, a) && InOrder(other, n.me, n.rx)
    ensures InOrder(other, Step(env, n, a).me, Step(env, n, a).rx)
  {
    var n' := Step(env, n, a);
    if a.Read? {
      forall t ensures Keep(MessagesOf(t), Way(other, n'.me, n'.rx)) == Keep(MessagesOf(t), other.outbox.sent) {
        ReadKeepsWay(MessagesOf(t), n.me, n.rx.frames, Held(other.outbox));
      }
    } else {
      assert n'.me.inbox.handled + n'.me.inbox.queue == n.me.inbox.handled + n.me.inbox.queue
        && n'.rx.frames == n.rx.frames;
    }
  }

  lemma {:induction false} RunInv(e: Envs, s: Sys, moves: seq<Move>)
    requires IsRun(e, s, moves) && Inv(s)
    ensures Inv(After(e, s, moves))
    decreases |moves|
  {
    if moves != [] {
      var act := moves[0].act;
      if moves[0].A? {
        SenderStep(e.a, NodeA(s), act, s.b);
        ReceiverStep(e.a, NodeA(s), act, s.b);
      } else {
        SenderStep(e.b, NodeB(s), act, s.a);
        ReceiverStep(e.b, NodeB(s), act, s.a);
      }
      RunInv(e, Next(e, s, moves[0]), moves[1..]);
    }
  }

  lemma Split(c: Class, s: Peer, r: Peer, link: Link)
    ensures Keep(c, Way(s, r, link))
      == Keep(c, r.inbox.handled) + Keep(c, r.inbox.queue + (link.frames + Held(s.outbox)))
  {
    assert Way(s, r, link) == r.inbox.handled + (r.inbox.queue + (link.frames + Held(s.outbox)));
    KeepConcat(c, r.inbox.handled, r.inbox.queue + (link.frames + Held(s.outbox)));
  }

  /** After any run, what b's handlers saw of a's thread t is a prefix of what t sent, and the rest is on its way. */
  lemma {:induction false} MessagesArriveInOrder(e: Envs, moves: seq<Move>, t: nat)
    requires IsRun(e, START, moves)
    ensures var s, c := After(e, START, moves), MessagesOf(t);
      && Keep(c, s.b.inbox.handled) + Keep(c, s.b.inbox.queue + (s.ab.frames + Held(s.a.outbox)))
        == Keep(c, s.a.outbox.sent)
      && Keep(c, s.a.inbox.handled) + Keep(c, s.a.inbox.queue + (s.ba.frames + Held(s.b.outbox)))
        == Keep(c, s.b.outbox.sent)
  {
    RunInv(e, START, moves);
    var s, c := After(e, START, moves), MessagesOf(t);
    Split(c, s.a, s.b, s.ab);
    Split(c, s.b, s.a, s.ba);
  }
}
