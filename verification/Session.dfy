/**
 * Two connection objects and the network between them: whichever of them takes a step, together they go on standing
 * for the protocol's two peers.
 */
module Sessions {
  import opened Bytes
  import opened Connection
  import opened ConnectionData
  import opened Frames
  import opened Transfer
  import Disk
  import Results

  // ----- Two peers that face each other -----

  /** The peer that faces node n, with n's outgoing links as its incoming ones. */
  function Facing(n: Node, other: Peer): Node {
    Node(other, n.rx, n.tx)
  }

  /** What a move does to the node that moves and to the one that faces it. */
  lemma MoveFaces(e: Envs, s: Sys, m: Move)
    requires CanMove(e, s, m)
    ensures NodeB(s) == Facing(NodeA(s), s.b) && NodeA(s) == Facing(NodeB(s), s.a)
    ensures m.A? ==>
      NodeA(Next(e, s, m)) == Step(e.a, NodeA(s), m.act) && NodeB(Next(e, s, m)) == Facing(NodeA(Next(e, s, m)), s.b)
    ensures m.B? ==>
      NodeB(Next(e, s, m)) == Step(e.b, NodeB(s), m.act) && NodeA(Next(e, s, m)) == Facing(NodeB(Next(e, s, m)), s.a)
  {
  }

  /** The steps that put something on a wire or take something off one. */
  predicate OnLinks(a: Action) {
    a.Write? || a.Read? || a.WriteBytes? || a.ReadBytes?
  }

  /** What a step does to its node's links, and so to the links of the peer that faces it. */
  lemma LinksAfter(env: Env, n: Node, a: Action)
    requires Can(env, n, a)
    ensures var n' := Step(env, n, a);
      && n'.tx.frames == n.tx.frames + (if a.Write? then [n.me.outbox.consumer.item] else [])
      && n'.tx.bytes == n.tx.bytes + (if a.WriteBytes? then n.me.serves.server.rest[..a.n] else [])
      && n'.rx.frames == (if a.Read? then n.rx.frames[1..] else n.rx.frames)
      && n'.rx.bytes == (if a.ReadBytes? then n.rx.bytes[a.n..] else n.rx.bytes)
  {
  }

  // ----- Two objects that face each other -----

  /** x stands for n and y for the peer that faces it. */
  ghost predicate Faced(x: TCPConnection, y: TCPConnection, n: Node, other: Peer)
    reads x.Objects(), y.Objects()
  {
    x.Objects() !! y.Objects() && x.Models(n) && y.Models(Facing(n, other))
  }

  /** a and b stand for the two peers of s. */
  ghost predicate Stand(a: TCPConnection, b: TCPConnection, s: Sys)
    reads a.Objects(), b.Objects()
  {
    Faced(a, b, NodeA(s), s.b)
  }

  lemma StandBothWays(a: TCPConnection, b: TCPConnection, s: Sys)
    ensures Stand(a, b, s) <==> Faced(b, a, NodeB(s), s.a)
  {
  }

  /** Two connections that have come up stand for the two peers at the start of a run. */
  lemma StandAtStart(a: TCPConnection, b: TCPConnection)
    requires a.Objects() !! b.Objects() && a.Models(NEW_NODE) && b.Models(NEW_NODE)
    ensures Stand(a, b, START)
  {
  }

  /** When the object that moves and the one that faces it have done their halves, they stand for the next state. */
  lemma StandNext(a: TCPConnection, b: TCPConnection, e: Envs, s: Sys, m: Move)
    requires CanMove(e, s, m)
    requires if m.A? then Faced(a, b, Step(e.a, NodeA(s), m.act), s.b) else Faced(b, a, Step(e.b, NodeB(s), m.act), s.a)
    ensures Stand(a, b, Next(e, s, m))
  {
    MoveFaces(e, s, m);
    StandBothWays(a, b, Next(e, s, m));
  }

  /** What is requested through one object and served by the other is what the first one's directory holds. */
  lemma DownloadsHoldRequests(a: TCPConnection, b: TCPConnection, e: Envs, moves: seq<Move>, i: nat)
    requires IsRun(e, START, moves) && Stand(a, b, After(e, START, moves))
    requires |After(e, START, moves).a.asks.issued| <= ID_SPACE && |After(e, START, moves).b.asks.issued| <= ID_SPACE
    requires Disk.DistinctNames(After(e, START, moves).a.asks.issued)
    requires i < |After(e, START, moves).a.gets.finished|
    ensures var q, id := After(e, START, moves).a.asks, After(e, START, moves).a.gets.finished[i].id;
      && id < |q.issued| && q.issued[id].name in a.downloads
      && a.downloads[q.issued[id].name] == Content(e.b.files, q.issued[id].path)
  {
    Results.ClosedFilesOnDisk(e, moves);
    assert Disk.OnDisk(After(e, START, moves).a, e.b.files, After(e, START, moves).a.gets.finished[i].id);
  }

  /** A step that touches no wire needs no network: the peer's object stands for what it stood for. */
  lemma LocalStep(x: TCPConnection, y: TCPConnection, n: Node, other: Peer, a: Action)
    requires Can(x.env, n, a) && !OnLinks(a)
    requires x.Objects() !! y.Objects() && x.Models(Step(x.env, n, a)) && y.Models(Facing(n, other))
    ensures Faced(x, y, Step(x.env, n, a), other)
  {
    LinksAfter(x.env, n, a);
    assert Step(x.env, n, a).tx == n.tx && Step(x.env, n, a).rx == n.rx;
  }

  // ----- The network's half of a step -----
  // x has taken the step to n'; y still stands for the peer that faced n.

  ghost predicate HalfWay(x: TCPConnection, y: TCPConnection, n: Node, n': Node, other: Peer)
    reads x.Objects(), y.Objects()
  {
    x.Objects() !! y.Objects() && x.Models(n') && y.Models(Facing(n, other))
  }

  method BringPackage(x: TCPConnection, y: TCPConnection, bytes: seq<byte>, ghost i: Item,
                      ghost n: Node, ghost n': Node, ghost other: Peer)
    requires HalfWay(x, y, n, n', other) && WireAs(bytes, [i])
    requires n'.tx == n.tx.(frames := n.tx.frames + [i]) && n'.rx == n.rx
    modifies y`sockets
    ensures Faced(x, y, n', other)
  {
    y.Arrive(bytes, i, Facing(n, other));
  }

  method TakePackage(x: TCPConnection, y: TCPConnection, ghost n: Node, ghost n': Node, ghost other: Peer)
    requires HalfWay(x, y, n, n', other) && n.rx.frames != []
    requires n'.rx == n.rx.(frames := n.rx.frames[1..]) && n'.tx == n.tx
    modifies y`sockets
    ensures Faced(x, y, n', other)
  {
    y.Depart(Facing(n, other));
  }

  method BringBytes(x: TCPConnection, y: TCPConnection, bytes: seq<byte>,
                    ghost n: Node, ghost n': Node, ghost other: Peer)
    requires HalfWay(x, y, n, n', other)
    requires n'.tx == n.tx.(bytes := n.tx.bytes + bytes) && n'.rx == n.rx
    modifies y`sockets
    ensures Faced(x, y, n', other)
  {
    y.ArriveFile(bytes, Facing(n, other));
  }

  method TakeBytes(x: TCPConnection, y: TCPConnection, k: nat, ghost n: Node, ghost n': Node, ghost other: Peer)
    requires HalfWay(x, y, n, n', other) && k <= |n.rx.bytes|
    requires n'.rx == n.rx.(bytes := n.rx.bytes[k..]) && n'.tx == n.tx
    modifies y`sockets
    ensures Faced(x, y, n', other)
  {
    y.DepartFile(k, Facing(n, other));
  }

  // ----- A connection's half of a step -----

  method Write(x: TCPConnection, y: TCPConnection, pad: seq<byte>, ghost n: Node, ghost other: Peer)
    returns (bytes: seq<byte>)
    requires Faced(x, y, n, other) && Can(x.env, n, Action.Write) && |pad| == 5
    modifies x`sockets, x`workers
    ensures HalfWay(x, y, n, Step(x.env, n, Action.Write), other) && WireAs(bytes, [n.me.outbox.consumer.item])
  {
    var before := |x.sockets.messageOut|;
    x.WritePackage(pad, n);
    bytes := x.sockets.messageOut[before..];
  }

  method Read(x: TCPConnection, y: TCPConnection, k: nat, ghost n: Node, ghost other: Peer) returns (done: bool)
    requires Faced(x, y, n, other) && IoFree(n.me) && 0 < k <= |x.sockets.messageIn|
    modifies x`sockets, x`fileInfoQueue, x`fileRequestQueue, x`inQueue, x.reader, x.sendFileFlag, x.receiveFileFlag
    ensures done ==> Can(x.env, n, Action.Read)
    ensures HalfWay(x, y, n, if done then Step(x.env, n, Action.Read) else n, other)
  {
    done := x.ReceiveBytes(k, n);
  }

  method WriteFile(x: TCPConnection, y: TCPConnection, k: nat, ghost n: Node, ghost other: Peer)
    returns (bytes: seq<byte>)
    requires Faced(x, y, n, other) && Can(x.env, n, WriteBytes(k))
    requires x.workers.upload.sent + k <= x.workers.upload.filled
    modifies x`sockets, x`workers
    ensures HalfWay(x, y, n, Step(x.env, n, WriteBytes(k)), other) && bytes == n.me.serves.server.rest[..k]
  {
    var before := |x.sockets.fileOut|;
    ghost var out := x.sockets.fileOut;
    x.WriteSome(k, n);
    assert x.sockets.fileOut == out + n.me.serves.server.rest[..k];
    bytes := x.sockets.fileOut[before..];
  }

  method ReadFile(x: TCPConnection, y: TCPConnection, k: nat, ghost n: Node, ghost other: Peer)
    requires Faced(x, y, n, other) && Can(x.env, n, ReadBytes(k))
    requires x.workers.download.filled + k <= x.workers.download.wanted
    modifies x`sockets, x`workers, x.dataBuffer
    ensures HalfWay(x, y, n, Step(x.env, n, ReadBytes(k)), other)
  {
    x.ReadSome(k, n);
  }

  // ----- Whole steps -----

  /** x writes a package and the network brings its bytes to y. */
  method WriteAcross(x: TCPConnection, y: TCPConnection, pad: seq<byte>, ghost n: Node, ghost other: Peer)
    requires Faced(x, y, n, other) && Can(x.env, n, Action.Write) && |pad| == 5
    modifies x`sockets, x`workers, y`sockets
    ensures Faced(x, y, Step(x.env, n, Action.Write), other)
  {
    ghost var n', item := Step(x.env, n, Action.Write), n.me.outbox.consumer.item;
    var bytes := Write(x, y, pad, n, other);
    LinksAfter(x.env, n, Action.Write);
    BringPackage(x, y, bytes, item, n, n', other);
  }

  /** k bytes of y's are read by x; a package that they complete is off the wire. */
  method ReadAcross(x: TCPConnection, y: TCPConnection, k: nat, ghost n: Node, ghost other: Peer) returns (done: bool)
    requires Faced(x, y, n, other) && IoFree(n.me) && 0 < k <= |x.sockets.messageIn|
    modifies x`sockets, x`fileInfoQueue, x`fileRequestQueue, x`inQueue, x.reader, x.sendFileFlag, x.receiveFileFlag
    modifies y`sockets
    ensures done ==> Can(x.env, n, Action.Read)
    ensures Faced(x, y, if done then Step(x.env, n, Action.Read) else n, other)
  {
    done := Read(x, y, k, n, other);
    if done {
      LinksAfter(x.env, n, Action.Read);
      TakePackage(x, y, n, Step(x.env, n, Action.Read), other);
    }
  }

  /** x gives the file socket a part of its buffer and the network brings it to y. */
  method WriteFileAcross(x: TCPConnection, y: TCPConnection, k: nat, ghost n: Node, ghost other: Peer)
    requires Faced(x, y, n, other) && Can(x.env, n, WriteBytes(k))
    requires x.workers.upload.sent + k <= x.workers.upload.filled
    modifies x`sockets, x`workers, y`sockets
    ensures Faced(x, y, Step(x.env, n, WriteBytes(k)), other)
  {
    var bytes := WriteFile(x, y, k, n, other);
    LinksAfter(x.env, n, WriteBytes(k));
    BringBytes(x, y, bytes, n, Step(x.env, n, WriteBytes(k)), other);
  }

  /** x reads a part of a chunk, which is then off the wire. */
  method ReadFileAcross(x: TCPConnection, y: TCPConnection, k: nat, ghost n: Node, ghost other: Peer)
    requires Faced(x, y, n, other) && Can(x.env, n, ReadBytes(k))
    requires x.workers.download.filled + k <= x.workers.download.wanted
    modifies x`sockets, x`workers, x.dataBuffer, y`sockets
    ensures Faced(x, y, Step(x.env, n, ReadBytes(k)), other)
  {
    ReadFile(x, y, k, n, other);
    LinksAfter(x.env, n, ReadBytes(k));
    TakeBytes(x, y, k, n, Step(x.env, n, ReadBytes(k)), other);
  }
}
