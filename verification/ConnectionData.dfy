/** The data a TCPConnection holds, and what of a protocol state it stands for. */
module ConnectionData {
  import opened Bytes
  import opened Frames
  import opened Transfer
  import opened Framing
  import opened Wire
  import F = Flow
  import O = Outbox

  const FILE_BUFFER_SIZE: nat := 131072

  /** An element of m_outQueue: the package and the producer whose token it was enqueued with. */
  datatype Queued = Queued(producer: nat, package: Packet)

  /** CoSendMessage: in Wait, about to dequeue, in async_write, about to reset the flag. */
  datatype Sender = Polling | Dequeuing | Writing(package: Packet) | Resetting

  /** CoSendFile and CoReceiveFile: in Wait, at the loop head, in the chunk loop, over. */
  datatype Place = InWait | AtHead | InLoop | Ended

  /**
   * CoSendFile's locals: the open file and its position, what is left of `size`, and the part of the buffer that
   * async_write has still to send.
   */
  datatype Upload = Upload(requestID: nat, data: seq<byte>, position: nat, size: nat, sent: nat, filled: nat)

  /** CoReceiveFile's locals: what is left of `size`, what the file stream has got, and how far async_read has come. */
  datatype Download = Download(requestID: nat, filename: Path, size: nat, written: seq<byte>, filled: nat, wanted: nat)

  /** The bytes given to the two sockets and the bytes that have arrived on them. */
  datatype Sockets = Sockets(messageOut: seq<byte>, messageIn: seq<byte>, fileOut: seq<byte>, fileIn: seq<byte>)

  /** The coroutines' places and locals. */
  datatype Workers = Workers(sender: Sender, server: Place, upload: Upload, receiver: Place, download: Download)

  const NO_DOWNLOAD := Download(0, [], 0, [], 0, 0)

  const NO_BYTES := Sockets([], [], [], [])
  const NEW_WORKERS := Workers(Polling, InWait, Upload(0, [], 0, 0, 0, 0), InWait, NO_DOWNLOAD)

  function Min(a: nat, b: nat): (m: nat)
    ensures m <= a && m <= b && (m == a || m == b)
  {
    if a < b then a else b
  }

  // ----- What the fields stand for -----

  ghost predicate QueueAs(ps: seq<Packet>, xs: seq<Item>) {
    |ps| == |xs| && forall i {:trigger Carries(ps[i], xs[i].frame)} :: 0 <= i < |ps| ==> Carries(ps[i], xs[i].frame)
  }

  /** p carries the frame of x. */
  ghost predicate Bears(p: Packet, x: Item) {
    QueueAs([p], [x])
  }

  lemma BearsMeansCarries(p: Packet, x: Item)
    ensures Bears(p, x) <==> Carries(p, x.frame)
  {
    assert [p][0] == p && [x][0] == x;
    if Bears(p, x) {
      assert Carries([p][0], [x][0].frame);
    }
  }

  ghost predicate OutQueueAs(qs: seq<Queued>, xs: seq<Item>) {
    && |qs| == |xs|
    && (forall i :: 0 <= i < |qs| ==> qs[i].producer == xs[i].tid)
    && (forall i {:trigger Carries(qs[i].package, xs[i].frame)} ::
          0 <= i < |qs| ==> Carries(qs[i].package, xs[i].frame))
  }

  ghost predicate SenderAs(qs: seq<Queued>, s: Sender, o: O.State) {
    OutQueueAs(qs, o.queue) &&
    match o.consumer
    case Waiting => s.Polling?
    case Top => s.Dequeuing?
    case Busy(x) => s.Writing? && Bears(s.package, x)
    case Failed => s.Resetting?
  }

  ghost predicate MeantForAll(d: Destination, xs: seq<Item>) {
    forall i {:trigger MeantFor(xs[i].frame)} :: 0 <= i < |xs| ==> MeantFor(xs[i].frame) == d
  }

  /** What CoSendFile has still to write: the rest of its buffer, then the rest of the file. */
  function Unsent(u: Upload, buffer: seq<byte>): seq<byte>
    requires u.sent <= u.filled <= |buffer| && u.position + u.size <= |u.data|
  {
    buffer[u.sent..u.filled] + u.data[u.position..u.position + u.size]
  }

  ghost predicate ServerAs(place: Place, u: Upload, buffer: seq<byte>, s: Server) {
    u.sent <= u.filled <= |buffer| && u.position + u.size <= |u.data| &&
    match s
    case Parked => place == InWait
    case Ready => place == AtHead
    case Streaming(id, rest) => place == InLoop && id == u.requestID && rest == Unsent(u, buffer)
    case Stopped(_) => place == Ended
  }

  ghost predicate ReceiverAs(place: Place, d: Download, buffer: seq<byte>, r: Receiver) {
    d.filled <= d.wanted <= |buffer| && (d.filled == d.wanted ==> d.wanted == 0) &&
    match r
    case Idle => place == InWait
    case Looking => place == AtHead
    case Receiving(id, name, left, got) =>
      && place == InLoop && id == d.requestID && name == d.filename
      && left == d.size + d.wanted - d.filled && got == d.written + buffer[..d.filled]
    case Gone(_) => place == Ended
  }

  /** The bytes on the message wire are whole packages that carry the frames, in order. */
  ghost predicate WireAs(bytes: seq<byte>, xs: seq<Item>) {
    Parse(bytes).1 == [] && QueueAs(Parse(bytes).0, xs)
  }

  // ----- Packages -----

  /** The flags lead a package to the worker its frame is meant for. */
  lemma BearsFlags(p: Packet, x: Item)
    requires Bears(p, x)
    ensures DestinationOf(p) == MeantFor(x.frame)
  {
    BearsMeansCarries(p, x);
    FlagsTellFrames(p, x.frame);
  }

  lemma BearsFits(p: Packet, x: Item)
    requires Bears(p, x)
    ensures p.Fits()
  {
    BearsMeansCarries(p, x);
  }

  method MakeRequest(requestID: nat, path: Path, ghost x: Item) returns (p: Packet)
    requires requestID < ID_SPACE && |path| + 12 < U32 && x.frame == Request(requestID, path)
    ensures Bears(p, x) && p == Packet(0, 2, ToBE(8, requestID) + (ToBE(4, |path|) + path))
  {
    p := PackRequest(requestID, path);
    BearsMeansCarries(p, x);
  }

  method MakeInfo(requestID: nat, size: nat, ghost x: Item) returns (p: Packet)
    requires requestID < ID_SPACE && size < U32 && x.frame == Info(requestID, size)
    ensures Bears(p, x) && p == Packet(0, 4, ToBE(8, requestID) + ToBE(4, size))
  {
    p := PackInfo(requestID, size);
    BearsMeansCarries(p, x);
  }

  method OpenRequest(p: Packet, ghost x: Item) returns (requestID: nat, path: Path)
    requires Bears(p, x) && x.frame.Request?
    ensures x.frame == Request(requestID, path) && requestID < ID_SPACE
  {
    BearsMeansCarries(p, x);
    requestID, path := UnpackRequest(p, x.frame);
  }

  method OpenInfo(p: Packet, ghost x: Item) returns (requestID: nat, size: nat)
    requires Bears(p, x) && x.frame.Info?
    ensures x.frame == Info(requestID, size)
  {
    BearsMeansCarries(p, x);
    requestID, size := UnpackInfo(p, x.frame);
  }

  // ----- Queues and wires -----

  lemma AppendAs(ps: seq<Packet>, xs: seq<Item>, p: Packet, x: Item)
    requires QueueAs(ps, xs) && Bears(p, x)
    ensures QueueAs(ps + [p], xs + [x])
  {
    BearsMeansCarries(p, x);
    forall i | 0 <= i < |ps| + 1 ensures Carries((ps + [p])[i], (xs + [x])[i].frame) {
      assert i < |ps| ==> Carries(ps[i], xs[i].frame);
    }
  }

  lemma FirstAs(ps: seq<Packet>, xs: seq<Item>)
    requires QueueAs(ps, xs) && ps != []
    ensures Bears(ps[0], xs[0]) && QueueAs(ps[1..], xs[1..])
  {
    assert Carries(ps[0], xs[0].frame);
    BearsMeansCarries(ps[0], xs[0]);
    forall i | 0 <= i < |ps| - 1 ensures Carries(ps[1..][i], xs[1..][i].frame) {
      assert Carries(ps[i + 1], xs[i + 1].frame);
    }
  }

  lemma MeantForTail(d: Destination, xs: seq<Item>)
    requires MeantForAll(d, xs) && xs != []
    ensures MeantFor(xs[0].frame) == d && MeantForAll(d, xs[1..])
  {
    forall i | 0 <= i < |xs| - 1 ensures MeantFor(xs[1..][i].frame) == d {
      assert MeantFor(xs[i + 1].frame) == d;
    }
  }

  lemma OutAppendAs(qs: seq<Queued>, xs: seq<Item>, q: Queued, x: Item)
    requires OutQueueAs(qs, xs) && q.producer == x.tid && Bears(q.package, x)
    ensures OutQueueAs(qs + [q], xs + [x])
  {
    BearsMeansCarries(q.package, x);
    forall i | 0 <= i < |qs| + 1 ensures Carries((qs + [q])[i].package, (xs + [x])[i].frame) {
      assert i < |qs| ==> Carries(qs[i].package, xs[i].frame);
    }
  }

  lemma MeantForMore(d: Destination, xs: seq<Item>, x: Item)
    requires MeantForAll(d, xs) && MeantFor(x.frame) == d
    ensures MeantForAll(d, xs + [x])
  {
    forall i | 0 <= i < |xs| + 1 ensures MeantFor((xs + [x])[i].frame) == d {
      assert i < |xs| ==> MeantFor(xs[i].frame) == d;
    }
  }

  lemma EnqueueAs(qs: seq<Queued>, s: Sender, o: O.State, t: nat, p: Packet, f: Frame)
    requires SenderAs(qs, s, o) && Bears(p, Item(t, f, o.clock)) && t !in o.mid
    ensures SenderAs(qs + [Queued(t, p)], s, O.Do(o, O.Enqueue(t, f)))
  {
    OutAppendAs(qs, o.queue, Queued(t, p), Item(t, f, o.clock));
  }

  function WithRequests(n: Node, queue: seq<Item>): Node {
    n.(me := n.me.(serves := n.me.serves.(queue := queue)))
  }

  function WithIncoming(n: Node, frames: seq<Item>): Node {
    n.(rx := n.rx.(frames := frames))
  }

  function WithOutgoing(n: Node, frames: seq<Item>): Node {
    n.(tx := n.tx.(frames := frames))
  }

  function WithGetting(n: Node, g: Getting): Node {
    n.(me := n.me.(gets := g))
  }

  /** k bytes of the file wire have gone to the file being received. */
  function WithArrived(n: Node, k: nat): Node
    requires n.me.gets.receiver.Receiving? && k <= n.me.gets.receiver.left && k <= |n.rx.bytes|
  {
    var r := n.me.gets.receiver;
    var g := n.me.gets.(receiver := Receiving(r.id, r.name, r.left - k, r.got + n.rx.bytes[..k]));
    WithGetting(n.(rx := n.rx.(bytes := n.rx.bytes[k..])), g)
  }

  function WithServer(n: Node, server: Server): Node {
    n.(me := n.me.(serves := n.me.serves.(server := server)))
  }

  /** An announcement has been taken: its id is unknown or its file cannot be opened, or the file is open and empty. */
  function Began(n: Node, id: nat, size: nat, writable: bool): Node {
    if id !in n.me.asks.names || !writable then
      WithGetting(n.(me := n.me.(connected := false)), n.me.gets.(receiver := Gone(id)))
    else
      var g, name := n.me.gets, n.me.asks.names[id];
      WithGetting(n, g.(receiver := Receiving(id, name, size, []), disk := g.disk[name := []]))
  }

  lemma TakeStep(env: Env, n: Node, writable: bool)
    requires Can(env, n, TakeInfo(writable)) && n.me.gets.queue != [] && n.me.gets.queue[0].frame.Info?
    ensures var Info(id, size), g := n.me.gets.queue[0].frame, n.me.gets.(queue := n.me.gets.queue[1..]);
      Step(env, n, TakeInfo(writable)) == Began(WithGetting(n, g), id, size, writable)
  {
  }

  function WithOutbox(n: Node, o: O.State): Node {
    n.(me := n.me.(outbox := o))
  }

  /** A request has been taken: its file cannot be read, or it is announced and CoSendFile enters the chunk loop. */
  function Answered(env: Env, n: Node, id: nat, path: Path): Node
    requires IO !in n.me.outbox.mid
  {
    if path !in env.files then WithServer(n.(me := n.me.(connected := false)), Stopped(id))
    else
      var data := Content(env.files, path);
      WithServer(WithOutbox(n, SendFromIo(n.me.outbox, Info(id, |data|))), Streaming(id, data))
  }

  lemma ServeStep(env: Env, n: Node)
    requires Can(env, n, Serve) && n.me.serves.queue != [] && n.me.serves.queue[0].frame.Request?
    ensures var Request(id, path) := n.me.serves.queue[0].frame;
      Step(env, n, Serve) == Answered(env, WithRequests(n, n.me.serves.queue[1..]), id, path)
  {
  }

  /** m is n but for the calls in progress and the ids' history, which live on other threads' stacks. */
  ghost predicate CallsApart(n: Node, m: Node) {
    m == n.(me := n.me.(asks := m.me.asks)) && m.me.asks.nextId == n.me.asks.nextId
      && m.me.asks.names == n.me.asks.names
  }

  /** What a step that sends a frame changes, besides the history of calls. */
  lemma SendingStep(env: Env, n: Node, a: Action, t: nat, f: Frame)
    requires Can(env, n, a) && (a.Submit? || a.Post?) && F.Fresh(env, n, a) == [Item(t, f, n.me.outbox.clock)]
    ensures t !in n.me.outbox.mid && Can(env, Step(env, n, a), Raise(t))
    ensures CallsApart(WithOutbox(n, O.Do(n.me.outbox, O.Enqueue(t, f))), Step(env, n, a))
    ensures CallsApart(WithOutbox(n, O.Do(O.Do(n.me.outbox, O.Enqueue(t, f)), O.Signal(t))),
      Step(env, Step(env, n, a), Raise(t)))
  {
  }

  lemma PopAs(qs: seq<Queued>, s: Sender, o: O.State, i: nat)
    requires SenderAs(qs, s, o) && O.Can(o, O.Pop(i))
    ensures i < |qs| && SenderAs(qs[..i] + qs[i + 1..], Writing(qs[i].package), O.Do(o, O.Pop(i)))
  {
    assert Carries(qs[i].package, o.queue[i].frame);
    BearsMeansCarries(qs[i].package, o.queue[i]);
    forall j | 0 <= j < |qs| - 1
      ensures Carries((qs[..i] + qs[i + 1..])[j].package, Without(o.queue, i)[j].frame)
    {
      var k := if j < i then j else j + 1;
      assert Carries(qs[k].package, o.queue[k].frame);
    }
  }

  lemma ParseOne(w: Written)
    requires w.Fits()
    ensures Parse(HeaderBytes(w) + w.p.body) == ([w.p], [])
  {
    assert HeaderBytes(w) + w.p.body + [] == HeaderBytes(w) + w.p.body;
    ParseWritten(w, []);
    assert Parse([]) == ([], []);
    assert [w.p] + Parse([]).0 == [w.p];
  }

  lemma StreamOfOne(w: Written)
    requires w.Fits()
    ensures AllFit([w]) && Stream([w]) == HeaderBytes(w) + w.p.body
  {
    assert [w][1..] == [];
  }

  lemma WriteAs(bytes: seq<byte>, xs: seq<Item>, w: Written, x: Item)
    requires WireAs(bytes, xs) && w.Fits() && Bears(w.p, x)
    ensures WireAs(bytes + (HeaderBytes(w) + w.p.body), xs + [x])
  {
    var more := HeaderBytes(w) + w.p.body;
    ParseMore(bytes, more);
    assert [] + more == more;
    ParseOne(w);
    AppendAs(Parse(bytes).0, xs, w.p, x);
  }

  /** Bytes that carry one more frame, whoever wrote them. */
  lemma ArriveOnWire(bytes: seq<byte>, xs: seq<Item>, more: seq<byte>, x: Item)
    requires WireAs(bytes, xs) && WireAs(more, [x])
    ensures WireAs(bytes + more, xs + [x])
  {
    ParseMore(bytes, more);
    assert [] + more == more;
    assert Parse(more).0 == [Parse(more).0[0]] && Bears(Parse(more).0[0], x);
    AppendAs(Parse(bytes).0, xs, Parse(more).0[0], x);
  }

  lemma ArriveBehind(pending: seq<byte>, waiting: seq<byte>, xs: seq<Item>, more: seq<byte>, x: Item)
    requires WireAs(pending + waiting, xs) && WireAs(more, [x])
    ensures WireAs(pending + (waiting + more), xs + [x])
  {
    ArriveOnWire(pending + waiting, xs, more, x);
    Grouped(pending, waiting, more);
  }

  lemma WrittenOnWire(w: Written, x: Item)
    requires w.Fits() && Bears(w.p, x)
    ensures WireAs(HeaderBytes(w) + w.p.body, [x])
  {
    ParseOne(w);
  }

  lemma ReadAs(bytes: seq<byte>, xs: seq<Item>)
    requires WireAs(bytes, xs) && Complete(bytes)
    ensures xs != [] && Bears(Framing.First(bytes), xs[0]) && WireAs(Tail(bytes), xs[1..])
  {
    var ps := Parse(bytes).0;
    assert ps[0] == Framing.First(bytes) && ps[1..] == Parse(Tail(bytes)).0;
    FirstAs(ps, xs);
  }

  /** With a frame on the wire its package is there in whole. */
  lemma OnWire(bytes: seq<byte>, xs: seq<Item>)
    requires WireAs(bytes, xs) && xs != []
    ensures Complete(bytes)
  {
  }

  /** One read of CoReceiveMessage leaves the incoming bytes as they are, but for the package it completes. */
  ghost predicate Took(before: seq<byte>, after: seq<byte>, done: seq<Packet>) {
    if done == [] then after == before
    else Complete(before) && done == [Framing.First(before)] && after == Tail(before)
  }

  lemma TakeMore(pending: seq<byte>, chunk: seq<byte>, later: seq<byte>, pending': seq<byte>, rest: seq<byte>,
    done: seq<Packet>)
    requires Took(pending + chunk, pending' + rest, done)
    ensures Took(pending + (chunk + later), pending' + (rest + later), done)
  {
    assert pending + (chunk + later) == (pending + chunk) + later;
    assert pending' + (rest + later) == (pending' + rest) + later;
    if done != [] {
      CompleteMore(pending + chunk, later);
    }
  }

  lemma TookAs(before: seq<byte>, after: seq<byte>, done: seq<Packet>, xs: seq<Item>)
    requires WireAs(before, xs) && Took(before, after, done)
    ensures done != [] ==> xs != [] && Bears(done[0], xs[0])
    ensures WireAs(after, if done == [] then xs else xs[1..])
  {
    if done != [] {
      ReadAs(before, xs);
    }
  }

  // ----- The chunk loops -----

  /** CoSendFile reads the next min(size, buffer) bytes of the file into its buffer. */
  lemma FillAs(u: Upload, buffer: seq<byte>, buffer': seq<byte>, n: nat)
    requires u.sent == u.filled <= |buffer| && u.position + u.size <= |u.data| && n <= u.size && n <= |buffer'|
    requires buffer'[..n] == u.data[u.position..u.position + n]
    ensures Unsent(u.(position := u.position + n, size := u.size - n, sent := 0, filled := n), buffer')
      == Unsent(u, buffer)
  {
    assert buffer'[0..n] == buffer'[..n];
    assert u.data[u.position..u.position + u.size]
      == u.data[u.position..u.position + n] + u.data[u.position + n..u.position + u.size];
  }

  lemma SendAs(u: Upload, buffer: seq<byte>, k: nat, s: Server)
    requires ServerAs(InLoop, u, buffer, s) && s.Streaming? && u.sent + k <= u.filled
    ensures k <= |s.rest| && s.rest[..k] == buffer[u.sent..u.sent + k]
    ensures ServerAs(InLoop, u.(sent := u.sent + k), buffer, Streaming(s.id, s.rest[k..]))
  {
    assert Unsent(u.(sent := u.sent + k), buffer) == Unsent(u, buffer)[k..];
  }

  /** async_read has got k more bytes; a full chunk goes to the file stream. */
  function Arrived(d: Download, buffer: seq<byte>, k: nat): Download
    requires d.filled + k <= d.wanted <= |buffer|
  {
    if d.filled + k == d.wanted then d.(written := d.written + buffer[..d.wanted], filled := 0, wanted := 0)
    else d.(filled := d.filled + k)
  }

  /** Bytes that have arrived stand in the buffer behind those before them. */
  lemma ArriveAs(d: Download, buffer: seq<byte>, buffer': seq<byte>, chunk: seq<byte>, r: Receiver)
    requires ReceiverAs(InLoop, d, buffer, r) && r.Receiving?
    requires 0 < |chunk| && d.filled + |chunk| <= d.wanted && |buffer| == |buffer'|
    requires buffer'[..d.filled] == buffer[..d.filled] && buffer'[d.filled..d.filled + |chunk|] == chunk
    ensures |chunk| <= r.left
    ensures ReceiverAs(InLoop, Arrived(d, buffer', |chunk|), buffer',
                       Receiving(r.id, r.name, r.left - |chunk|, r.got + chunk))
  {
    var k := |chunk|;
    assert buffer'[..d.filled + k] == buffer'[..d.filled] + buffer'[d.filled..d.filled + k];
    assert d.written + buffer'[..d.filled + k] == (d.written + buffer[..d.filled]) + chunk;
    var d' := Arrived(d, buffer', k);
    assert d'.filled == 0 ==> d'.written + buffer'[..0] == d'.written;
  }

  lemma ClosedAs(d: Download, buffer: seq<byte>, r: Receiver)
    requires ReceiverAs(InLoop, d, buffer, r) && d.wanted == 0 && d.size == 0
    ensures r.Receiving? && r.left == 0 && r.name == d.filename && r.got == d.written
  {
    if r.Receiving? {
      assert d.written + buffer[..0] == d.written;
    }
  }

  /** From protocol state n to the state in which the file being received has been read to its end and closed. */
  ghost function FileReceived(n: Node): Node
    requires n.me.gets.receiver.Receiving? && n.me.gets.receiver.left <= |n.rx.bytes|
  {
    var g, r := n.me.gets, n.me.gets.receiver;
    var data := r.got + n.rx.bytes[..r.left];
    var g' := g.(receiver := Looking, disk := g.disk[r.name := data],
      finished := g.finished + [Closed(r.id, r.name, data)]);
    n.(me := n.me.(gets := g'), rx := n.rx.(bytes := n.rx.bytes[r.left..]))
  }

  lemma ReadThenReceive(env: Env, n: Node, k: nat)
    requires Can(env, n, ReadBytes(k)) && n.me.gets.receiver.left <= |n.rx.bytes|
    ensures FileReceived(Step(env, n, ReadBytes(k))) == FileReceived(n)
  {
    var r, bytes := n.me.gets.receiver, n.rx.bytes;
    assert (r.got + bytes[..k]) + bytes[k..][..r.left - k] == r.got + bytes[..r.left];
    assert bytes[k..][r.left - k..] == bytes[r.left..];
  }

  lemma CloseIsReceived(env: Env, n: Node)
    requires Can(env, n, Close)
    ensures FileReceived(n) == Step(env, n, Close)
  {
    var r := n.me.gets.receiver;
    assert r.got + n.rx.bytes[..0] == r.got && n.rx.bytes[0..] == n.rx.bytes;
  }

  // ----- RequestFile -----

  /** The four steps of a RequestFile that no other thread's steps come between. */
  ghost function Requested(env: Env, n: Node, t: nat, asked: Asked): (ns: (Node, Node, Node, Node))
    requires Can(env, n, Allocate(t, asked))
    ensures Can(env, ns.0, Record(|n.me.asks.calls|)) && Can(env, ns.1, Submit(|n.me.asks.calls|))
      && Can(env, ns.2, Raise(t))
    ensures ns.0 == Step(env, n, Allocate(t, asked)) && ns.1 == Step(env, ns.0, Record(|n.me.asks.calls|))
    ensures ns.2 == Step(env, ns.1, Submit(|n.me.asks.calls|)) && ns.3 == Step(env, ns.2, Raise(t))
    ensures F.Fresh(env, ns.1, Submit(|n.me.asks.calls|))
      == [Item(t, Request(n.me.asks.nextId, asked.path), n.me.outbox.clock)]
    ensures ns.0.me.asks.calls[|n.me.asks.calls|] == Call(t, n.me.asks.nextId, asked, false)
  {
    var k := |n.me.asks.calls|;
    var n1 := Step(env, n, Allocate(t, asked));
    var n2 := Step(env, n1, Record(k));
    var n3 := Step(env, n2, Submit(k));
    (n1, n2, n3, Step(env, n3, Raise(t)))
  }

  const NEW_NODE := Node(NEW_PEER, Link([], []), Link([], []))

  /** native_to_big on a header's fields; the padding goes out as it is. */
  method WriteHeader(p: Packet, pad: seq<byte>) returns (s: seq<byte>)
    requires p.Fits() && |pad| == 5
    ensures s == HeaderBytes(Written(p, pad))
    ensures s == ToBE(2, p.typ) + pad[..2] + ToBE(4, |p.body|) + [p.flags] + pad[2..]
  {
    NativeToBig(2, p.typ);
    NativeToBig(4, |p.body|);
    s := Reverse(ToLE(2, p.typ)) + pad[..2] + Reverse(ToLE(4, |p.body|)) + [p.flags] + pad[2..];
  }
}
