/**
 * The two-channel file transfer between two peers, one step per coroutine segment.
 * A peer's io thread runs CoReceiveMessage, CoReceiveFile, CoSendMessage and CoSendFile; any thread may call
 * RequestFile and Send, whose shared accesses are separate steps.
 */
module Transfer {
  import opened Bytes
  import opened Frames
  import O = Outbox

  type Path = seq<byte>

  /** A RequestFile call: what it asked for, in the order of the ids. */
  datatype Asked = Asked(path: Path, name: Path)

  /** A RequestFile call between fetch_add and the insertion of its name, or between that and its enqueue. */
  datatype Call = Call(tid: nat, id: nat, asked: Asked, recorded: bool)

  /**
   * CoSendFile: in Wait, at the loop head, in the chunk loop with bytes still to write, or ended on an unreadable
   * file.
   */
  datatype Server = Parked | Ready | Streaming(id: nat, rest: seq<byte>) | Stopped(id: nat)

  /** CoReceiveFile: in Wait, at the loop head, in the chunk loop, or ended on an unknown id or unwritable file. */
  datatype Receiver = Idle | Looking | Receiving(id: nat, name: Path, left: nat, got: seq<byte>) | Gone(id: nat)

  /** A file CoReceiveFile has closed. */
  datatype Closed = Closed(id: nat, name: Path, data: seq<byte>)

  /** RequestFile's part of a connection. `issued` is history: what each id was allocated for. */
  datatype Asking = Asking(nextId: nat, names: map<nat, Path>, issued: seq<Asked>, calls: seq<Call>)

  /** CoSendFile, its deque and its flag. */
  datatype Serving = Serving(queue: seq<Item>, flag: bool, server: Server)

  /** CoReceiveFile, its deque and its flag, the download directory and the files closed so far. */
  datatype Getting = Getting(queue: seq<Item>, flag: bool, receiver: Receiver, disk: map<Path, seq<byte>>,
    finished: seq<Closed>)

  /** m_inQueue and the packages handlers have been called with. */
  datatype Inbox = Inbox(queue: seq<Item>, handled: seq<Item>)

  datatype Peer = Peer(connected: bool, asks: Asking, outbox: O.State, serves: Serving, gets: Getting, inbox: Inbox)

  /** One direction of the connection: the message socket, framed, and the raw file socket. */
  datatype Link = Link(frames: seq<Item>, bytes: seq<byte>)

  /** A peer with its outgoing and incoming links. */
  datatype Node = Node(me: Peer, tx: Link, rx: Link)

  /** The files a peer can open for reading, and the room in its sockets' send buffers. */
  datatype Env = Env(files: map<Path, seq<byte>>, frameCap: nat, byteCap: nat)

  const NEW_PEER := Peer(true, Asking(0, map[], [], []), O.INIT, Serving([], false, Parked),
    Getting([], false, Idle, map[], []), Inbox([], []))

  /** file_size is cut to 32 bits, and that many bytes are read from the start of the file. */
  function Content(files: map<Path, seq<byte>>, path: Path): (c: seq<byte>)
    ensures |c| < U32
  {
    if path in files then files[path][..Wrapped(files[path])] else []
  }

  function Wrapped(data: seq<byte>): (n: nat)
    ensures n <= |data| && n < U32
  {
    Wrap32AtMost(|data|);
    Wrap32(|data|)
  }

  // ----- Steps -----

  datatype Action =
    // RequestFile and Send on thread t
    | Allocate(t: nat, asked: Asked) | Record(k: nat) | Submit(k: nat)
    | Post(t: nat, typ: nat, body: seq<byte>) | Raise(t: nat)
    // CoSendMessage
    | Wake | Pop(i: nat) | Write | Fail | Reset
    // CoReceiveMessage
    | Read
    // CoSendFile
    | ServerWake | Serve | WriteBytes(n: nat) | Served
    // CoReceiveFile
    | ReceiverWake | TakeInfo(writable: bool) | ReadBytes(n: nat) | Close
    // the dispatch thread and the user
    | Handle | Disconnect

  predicate InCall(me: Peer, t: nat) {
    t in me.outbox.mid || exists k :: 0 <= k < |me.asks.calls| && me.asks.calls[k].tid == t
  }

  /** The single io thread is at a suspension point. */
  predicate IoFree(me: Peer) {
    me.connected && !InCall(me, IO) && !me.outbox.consumer.Failed?
  }

  /** Thread t may execute its next step: the io thread cannot leave the failed-dequeue segment half done. */
  predicate Runs(me: Peer, t: nat) {
    t == IO ==> !me.outbox.consumer.Failed?
  }

  predicate Can(env: Env, n: Node, a: Action) {
    var me := n.me;
    match a
    case Allocate(t, _) => !InCall(me, t) && Runs(me, t)
    case Record(k) => k < |me.asks.calls| && !me.asks.calls[k].recorded && Runs(me, me.asks.calls[k].tid)
    case Submit(k) => k < |me.asks.calls| && me.asks.calls[k].recorded && Runs(me, me.asks.calls[k].tid)
      && me.asks.calls[k].tid !in me.outbox.mid
    case Post(t, _, _) => !InCall(me, t) && Runs(me, t)
    case Raise(t) => t in me.outbox.mid && Runs(me, t)
    case Wake => IoFree(me) && O.Can(me.outbox, O.Wake)
    case Pop(i) => IoFree(me) && O.Can(me.outbox, O.Pop(i))
    case Write => IoFree(me) && me.outbox.consumer.Busy? && |n.tx.frames| < env.frameCap
    case Fail => IoFree(me) && O.Can(me.outbox, O.Fail)
    case Reset => me.connected && O.Can(me.outbox, O.Reset)
    case Read => IoFree(me) && n.rx.frames != []
    case ServerWake => IoFree(me) && me.serves.server.Parked? && me.serves.flag
    case Serve => IoFree(me) && me.serves.server.Ready?
    case WriteBytes(k) => IoFree(me) && me.serves.server.Streaming? && 0 < k <= |me.serves.server.rest|
      && |n.tx.bytes| + k <= env.byteCap
    case Served => IoFree(me) && me.serves.server.Streaming? && me.serves.server.rest == []
    case ReceiverWake => IoFree(me) && me.gets.receiver.Idle? && me.gets.flag
    case TakeInfo(_) => IoFree(me) && me.gets.receiver.Looking?
    case ReadBytes(k) => IoFree(me) && me.gets.receiver.Receiving? && 0 < k <= me.gets.receiver.left
      && k <= |n.rx.bytes|
    case Close => IoFree(me) && me.gets.receiver.Receiving? && me.gets.receiver.left == 0
    case Handle => me.connected && me.inbox.queue != []
    case Disconnect => true
  }

  /** CoReceiveMessage routes a frame by its flags and signals the worker it is for. */
  function Route(me: Peer, x: Item): Peer {
    match x.frame
    case Info(_, _) => me.(gets := me.gets.(queue := me.gets.queue + [x], flag := true))
    case Request(_, _) => me.(serves := me.serves.(queue := me.serves.queue + [x], flag := true))
    case Message(_, _) => me.(inbox := me.inbox.(queue := me.inbox.queue + [x]))
  }

  /** A whole Send inside one io-thread segment. */
  function SendFromIo(s: O.State, f: Frame): O.State
    requires IO !in s.mid
  {
    O.Do(O.Do(s, O.Enqueue(IO, f)), O.Signal(IO))
  }

  /** CoSendFile at its loop head. */
  function ServeNext(env: Env, me: Peer): Peer
    requires IO !in me.outbox.mid
  {
    var sv := me.serves;
    if sv.queue == [] then me.(serves := Serving([], false, Parked))
    else if !sv.queue[0].frame.Request? then me.(serves := sv.(queue := sv.queue[1..]))
    else
      var id, path := sv.queue[0].frame.id, sv.queue[0].frame.path;
      if path !in env.files then
        me.(connected := false, serves := sv.(queue := sv.queue[1..], server := Stopped(id)))
      else
        var data := Content(env.files, path);
        me.(outbox := SendFromIo(me.outbox, Info(id, |data|)),
          serves := sv.(queue := sv.queue[1..], server := Streaming(id, data)))
  }

  /** CoReceiveFile at its loop head. */
  function TakeNext(me: Peer, writable: bool): Peer {
    var g := me.gets;
    if g.queue == [] then me.(gets := g.(flag := false, receiver := Idle))
    else if !g.queue[0].frame.Info? then me.(gets := g.(queue := g.queue[1..]))
    else
      var id, size := g.queue[0].frame.id, g.queue[0].frame.size;
      if id !in me.asks.names || !writable then
        me.(connected := false, gets := g.(queue := g.queue[1..], receiver := Gone(id)))
      else
        var name := me.asks.names[id];
        me.(gets := g.(queue := g.queue[1..], receiver := Receiving(id, name, size, []), disk := g.disk[name := []]))
  }

  // RequestFile's three shared accesses.

  function AllocateId(q: Asking, t: nat, asked: Asked): Asking {
    var next := if q.nextId + 1 == ID_SPACE then 0 else q.nextId + 1;
    Asking(next, q.names, q.issued + [asked], q.calls + [Call(t, q.nextId, asked, false)])
  }

  function RecordName(q: Asking, k: nat): Asking
    requires k < |q.calls|
  {
    var c := q.calls[k];
    q.(names := q.names[c.id := c.asked.name], calls := q.calls[k := c.(recorded := true)])
  }

  function LeaveCall(q: Asking, k: nat): Asking
    requires k < |q.calls|
  {
    q.(calls := q.calls[..k] + q.calls[k + 1..])
  }

  function Step(env: Env, n: Node, a: Action): Node
    requires Can(env, n, a)
  {
    var Node(me, tx, rx) := n;
    match a
    case Allocate(t, asked) => n.(me := me.(asks := AllocateId(me.asks, t, asked)))
    case Record(k) => n.(me := me.(asks := RecordName(me.asks, k)))
    case Submit(k) =>
      var c := me.asks.calls[k];
      n.(me := me.(asks := LeaveCall(me.asks, k),
        outbox := O.Do(me.outbox, O.Enqueue(c.tid, Request(c.id, c.asked.path)))))
    case Post(t, typ, body) => n.(me := me.(outbox := O.Do(me.outbox, O.Enqueue(t, Message(typ, body)))))
    case Raise(t) => n.(me := me.(outbox := O.Do(me.outbox, O.Signal(t))))
    case Wake => n.(me := me.(outbox := O.Do(me.outbox, O.Wake)))
    case Pop(i) => n.(me := me.(outbox := O.Do(me.outbox, O.Pop(i))))
    case Write => n.(me := me.(outbox := O.Do(me.outbox, O.Done)),
      tx := tx.(frames := tx.frames + [me.outbox.consumer.item]))
    case Fail => n.(me := me.(outbox := O.Do(me.outbox, O.Fail)))
    case Reset => n.(me := me.(outbox := O.Do(me.outbox, O.Reset)))
    case Read => n.(me := Route(me, rx.frames[0]), rx := rx.(frames := rx.frames[1..]))
    case ServerWake => n.(me := me.(serves := me.serves.(server := Ready)))
    case Serve => n.(me := ServeNext(env, me))
    case WriteBytes(k) =>
      var Streaming(id, rest) := me.serves.server;
      n.(me := me.(serves := me.serves.(server := Streaming(id, rest[k..]))), tx := tx.(bytes := tx.bytes + rest[..k]))
    case Served => n.(me := me.(serves := me.serves.(server := Ready)))
    case ReceiverWake => n.(me := me.(gets := me.gets.(receiver := Looking)))
    case TakeInfo(writable) => n.(me := TakeNext(me, writable))
    case ReadBytes(k) =>
      var Receiving(id, name, left, got) := me.gets.receiver;
      n.(me := me.(gets := me.gets.(receiver := Receiving(id, name, left - k, got + rx.bytes[..k]))),
        rx := rx.(bytes := rx.bytes[k..]))
    case Close =>
      var Receiving(id, name, _, got) := me.gets.receiver;
      n.(me := me.(gets := me.gets.(receiver := Looking, disk := me.gets.disk[name := got],
                                    finished := me.gets.finished + [Closed(id, name, got)])))
    case Handle => n.(me := me.(inbox := Inbox(me.inbox.queue[1..], me.inbox.handled + [me.inbox.queue[0]])))
    case Disconnect => n.(me := me.(connected := false))
  }

  // ----- The two peers -----

  datatype Sys = Sys(a: Peer, b: Peer, ab: Link, ba: Link)
  datatype Envs = Envs(a: Env, b: Env)
  datatype Move = A(act: Action) | B(act: Action)

  function NodeA(s: Sys): Node { Node(s.a, s.ab, s.ba) }
  function NodeB(s: Sys): Node { Node(s.b, s.ba, s.ab) }

  const START := Sys(NEW_PEER, NEW_PEER, Link([], []), Link([], []))

  predicate CanMove(e: Envs, s: Sys, m: Move) {
    if m.A? then Can(e.a, NodeA(s), m.act) else Can(e.b, NodeB(s), m.act)
  }

  function Next(e: Envs, s: Sys, m: Move): Sys
    requires CanMove(e, s, m)
  {
    if m.A? then var n := Step(e.a, NodeA(s), m.act); Sys(n.me, s.b, n.tx, n.rx)
    else var n := Step(e.b, NodeB(s), m.act); Sys(s.a, n.me, n.rx, n.tx)
  }

  /** A run from the state after connecting; the system's state after each of its moves. */
  predicate IsRun(e: Envs, s: Sys, moves: seq<Move>)
    decreases |moves|
  {
    moves == [] || (CanMove(e, s, moves[0]) && IsRun(e, Next(e, s, moves[0]), moves[1..]))
  }

  function After(e: Envs, s: Sys, moves: seq<Move>): Sys
    requires IsRun(e, s, moves)
    decreases |moves|
  {
    if moves == [] then s else After(e, Next(e, s, moves[0]), moves[1..])
  }

  lemma {:induction false} RunSplit(e: Envs, s: Sys, first: seq<Move>, rest: seq<Move>)
    requires IsRun(e, s, first + rest)
    ensures IsRun(e, s, first) && IsRun(e, After(e, s, first), rest)
    ensures After(e, After(e, s, first), rest) == After(e, s, first + rest)
    decreases |first|
  {
    if first == [] {
      assert first + rest == rest;
    } else {
      assert (first + rest)[1..] == first[1..] + rest;
      RunSplit(e, Next(e, s, first[0]), first[1..], rest);
    }
  }
}
