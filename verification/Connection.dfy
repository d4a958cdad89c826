/**
 * TCPConnection as the object it is: queues of packages, three flags, bytes on sockets and two buffers. Whatever
 * protocol state the object stands for, a method leaves it standing for the state one protocol step later.
 */
module Connection {
  import opened AwaitableFlags
  import opened Bytes
  import opened ConnectionData
  import opened ConnectionStates
  import opened Frames
  import opened Framing
  import opened Transfer
  import opened Wire
  import F = Flow
  import O = Outbox
  import Packages

  class TCPConnection {
    const env: Env
    const sendMessageFlag: AwaitableFlag
    const sendFileFlag: AwaitableFlag
    const receiveFileFlag: AwaitableFlag
    const reader: MessageReader        // CoReceiveMessage's header and the package being read
    const fileBuffer: array<byte>      // CoSendFile's buffer
    const dataBuffer: array<byte>      // CoReceiveFile's buffer

    var connectionState: ConnectionState
    var fileCurrentID: nat
    var fileNameMap: map<nat, Path>
    var outQueue: seq<Queued>
    var fileRequestQueue: seq<Packet>
    var fileInfoQueue: seq<Packet>
    var inQueue: seq<Packet>
    var downloads: map<Path, seq<byte>>

    var sockets: Sockets
    var workers: Workers

    ghost function Objects(): set<object> {
      {this, sendMessageFlag, sendFileFlag, receiveFileFlag, reader, fileBuffer, dataBuffer}
    }

    ghost predicate FlagsValid()
      reads sendMessageFlag, sendFileFlag, receiveFileFlag
    {
      sendMessageFlag.Valid() && sendFileFlag.Valid() && receiveFileFlag.Valid()
    }

    ghost predicate Valid()
      reads this, sendMessageFlag, sendFileFlag, receiveFileFlag, reader
    {
      && sendMessageFlag != sendFileFlag && sendMessageFlag != receiveFileFlag && sendFileFlag != receiveFileFlag
      && FlagsValid() && reader.Valid()
      && fileBuffer != dataBuffer && fileBuffer.Length == dataBuffer.Length == FILE_BUFFER_SIZE
      && fileCurrentID < ID_SPACE
    }

    /** The bytes received and not yet made into packages. */
    ghost function Incoming(): seq<byte>
      reads this, reader
    {
      reader.Pending() + sockets.messageIn
    }

    /** The object stands for protocol state n. History lives in n alone. */
    ghost predicate Models(n: Node)
      reads this, sendMessageFlag, sendFileFlag, receiveFileFlag, reader, fileBuffer, dataBuffer
    {
      && Valid()
      && (connectionState.CONNECTED? <==> n.me.connected)
      && (n.me.connected ==>
            && sendMessageFlag.flag == n.me.outbox.flag
            && sendFileFlag.flag == n.me.serves.flag
            && receiveFileFlag.flag == n.me.gets.flag)
      && fileCurrentID == n.me.asks.nextId && fileNameMap == n.me.asks.names
      && SenderAs(outQueue, workers.sender, n.me.outbox)
      && QueueAs(fileRequestQueue, n.me.serves.queue) && MeantForAll(ToSendFile, n.me.serves.queue)
      && ServerAs(workers.server, workers.upload, fileBuffer[..], n.me.serves.server)
      && QueueAs(fileInfoQueue, n.me.gets.queue) && MeantForAll(ToReceiveFile, n.me.gets.queue)
      && ReceiverAs(workers.receiver, workers.download, dataBuffer[..], n.me.gets.receiver)
      && downloads == n.me.gets.disk
      && QueueAs(inQueue, n.me.inbox.queue)
      && WireAs(sockets.messageOut, n.tx.frames) && sockets.fileOut == n.tx.bytes
      && WireAs(Incoming(), n.rx.frames) && sockets.fileIn == n.rx.bytes
    }

    /** Nothing has been done with the connection yet. */
    ghost predicate Unused()
      reads this, sendMessageFlag, sendFileFlag, receiveFileFlag, reader
    {
      && Valid() && !sendMessageFlag.flag && !sendFileFlag.flag && !receiveFileFlag.flag && reader.Pending() == []
      && fileCurrentID == 0 && fileNameMap == map[] && outQueue == [] && downloads == map[]
      && fileRequestQueue == [] && fileInfoQueue == [] && inQueue == []
      && sockets == NO_BYTES && workers == NEW_WORKERS
    }

    constructor (env: Env)
      ensures Unused() && connectionState == DISCONNECTED && this.env == env
      ensures fresh(sendMessageFlag) && fresh(sendFileFlag) && fresh(receiveFileFlag) && fresh(reader)
      ensures fresh(fileBuffer) && fresh(dataBuffer) && fileBuffer.Length == dataBuffer.Length == 131072
    {
      this.env := env;
      sendMessageFlag := new AwaitableFlag();
      sendFileFlag := new AwaitableFlag();
      receiveFileFlag := new AwaitableFlag();
      reader := new MessageReader();
      fileBuffer := new byte[FILE_BUFFER_SIZE];
      dataBuffer := new byte[FILE_BUFFER_SIZE];
      connectionState, fileCurrentID, fileNameMap, downloads := DISCONNECTED, 0, map[], map[];
      outQueue, fileRequestQueue, fileInfoQueue, inQueue := [], [], [], [];
      sockets, workers := NO_BYTES, NEW_WORKERS;
    }

    // ----- Connecting and disconnecting -----

    /** CoStart and CoSeek up to their first suspension. */
    method Start()
      requires Unused() && connectionState == DISCONNECTED
      modifies this`connectionState
      ensures Unused() && connectionState == CONNECTING
    {
      connectionState := CONNECTING;
    }

    /** Both sockets are up: from here on the connection runs the protocol, from its first state. */
    method Established()
      requires Unused() && connectionState == CONNECTING
      modifies this`connectionState
      ensures Models(NEW_NODE)
    {
      connectionState := CONNECTED;
      assert Parse([]) == ([], []) && reader.Pending() + sockets.messageIn == [];
    }

    method Close()
      requires Valid()
      modifies this`connectionState, sendMessageFlag, sendFileFlag, receiveFileFlag
      ensures Valid() && sendMessageFlag.flag && sendFileFlag.flag && receiveFileFlag.flag
      ensures connectionState == DISCONNECTED
    {
      connectionState := DISCONNECTED;
      receiveFileFlag.Signal();
      sendMessageFlag.Signal();
      sendFileFlag.Signal();
    }

    /** Closing the sockets ends the protocol; the three Signals release the workers. */
    method Disconnect(ghost n: Node)
      requires Models(n)
      modifies this`connectionState, sendMessageFlag, sendFileFlag, receiveFileFlag
      ensures Models(Step(env, n, Transfer.Disconnect)) && connectionState == DISCONNECTED
      ensures sendMessageFlag.flag && sendFileFlag.flag && receiveFileFlag.flag
    {
      Close();
    }

    // ----- RequestFile and Send, one shared access at a time -----

    method FetchAddId(t: nat, ghost asked: Asked, ghost n: Node) returns (requestID: nat)
      requires Models(n) && Can(env, n, Allocate(t, asked))
      modifies this`fileCurrentID
      ensures Models(Step(env, n, Allocate(t, asked))) && requestID == old(fileCurrentID)
      ensures fileCurrentID == if requestID + 1 == 0x1_0000_0000_0000_0000 then 0 else requestID + 1
    {
      requestID := fileCurrentID;
      fileCurrentID := if fileCurrentID + 1 == ID_SPACE then 0 else fileCurrentID + 1;
    }

    method InsertName(requestID: nat, name: Path, ghost k: nat, ghost n: Node)
      requires Models(n) && Can(env, n, Record(k))
      requires requestID == n.me.asks.calls[k].id && name == n.me.asks.calls[k].asked.name
      modifies this`fileNameMap
      ensures Models(Step(env, n, Record(k))) && fileNameMap == old(fileNameMap)[requestID := name]
    {
      fileNameMap := fileNameMap[requestID := name];
    }

    method Enqueue(t: nat, package: Packet, ghost f: Frame, ghost n: Node)
      requires Models(n) && Bears(package, Item(t, f, n.me.outbox.clock)) && t !in n.me.outbox.mid
      modifies this`outQueue
      ensures Models(WithOutbox(n, O.Do(n.me.outbox, O.Enqueue(t, f))))
      ensures outQueue == old(outQueue) + [Queued(t, package)]
    {
      EnqueueAs(outQueue, workers.sender, n.me.outbox, t, package, f);
      outQueue := outQueue + [Queued(t, package)];
    }

    method SignalSender(ghost t: nat, ghost n: Node)
      requires Models(n) && t in n.me.outbox.mid
      modifies sendMessageFlag
      ensures Models(WithOutbox(n, O.Do(n.me.outbox, O.Signal(t)))) && sendMessageFlag.flag
    {
      sendMessageFlag.Signal();
    }

    /** Send: the package is in the out-queue before the sender is signalled. */
    method Send(t: nat, package: Packet, ghost f: Frame, ghost n: Node)
      requires Models(n) && Bears(package, Item(t, f, n.me.outbox.clock)) && t !in n.me.outbox.mid
      modifies this`outQueue, sendMessageFlag
      ensures Models(WithOutbox(n, O.Do(O.Do(n.me.outbox, O.Enqueue(t, f)), O.Signal(t))))
      ensures outQueue == old(outQueue) + [Queued(t, package)] && sendMessageFlag.flag
    {
      Enqueue(t, package, f, n);
      SignalSender(t, WithOutbox(n, O.Do(n.me.outbox, O.Enqueue(t, f))));
    }

    lemma CallsDoNotMatter(n: Node, m: Node)
      requires Models(n) && CallsApart(n, m)
      ensures Models(m)
    {
    }

    /** A message of the user's: two steps of the protocol. */
    method SendMessage(t: nat, package: Packet, ghost n: Node)
      requires Models(n) && Can(env, n, Post(t, package.typ, package.body))
      requires Carries(package, Message(package.typ, package.body))
      modifies this`outQueue, sendMessageFlag
      ensures var n1 := Step(env, n, Post(t, package.typ, package.body));
        Can(env, n1, Raise(t)) && Models(Step(env, n1, Raise(t)))
      ensures outQueue == old(outQueue) + [Queued(t, package)] && sendMessageFlag.flag
    {
      ghost var f := Message(package.typ, package.body);
      BearsMeansCarries(package, Item(t, f, n.me.outbox.clock));
      SendingStep(env, n, Post(t, package.typ, package.body), t, f);
      Send(t, package, f, n);
    }

    /** RequestFile's id, and the name under it. */
    method Register(t: nat, path: Path, name: Path, ghost n: Node) returns (requestID: nat)
      requires Models(n) && Can(env, n, Allocate(t, Asked(path, name)))
      modifies this`fileCurrentID, this`fileNameMap
      ensures Models(Requested(env, n, t, Asked(path, name)).1)
      ensures requestID == old(fileCurrentID) == n.me.asks.nextId && requestID < ID_SPACE
      ensures fileCurrentID == if requestID + 1 == 0x1_0000_0000_0000_0000 then 0 else requestID + 1
      ensures fileNameMap == old(fileNameMap)[requestID := name]
    {
      requestID := FetchAddId(t, Asked(path, name), n);
      InsertName(requestID, name, |n.me.asks.calls|, Requested(env, n, t, Asked(path, name)).0);
    }

    /** The package of a request, and its Send. */
    method SendRequest(t: nat, requestID: nat, path: Path, ghost k: nat, ghost n: Node)
      requires Models(n) && Can(env, n, Submit(k)) && requestID < ID_SPACE && |path| + 12 < U32
      requires F.Fresh(env, n, Submit(k)) == [Item(t, Request(requestID, path), n.me.outbox.clock)]
      modifies this`outQueue, sendMessageFlag
      ensures var n1 := Step(env, n, Submit(k)); Can(env, n1, Raise(t)) && Models(Step(env, n1, Raise(t)))
      ensures var body := ToBE(8, requestID) + (ToBE(4, |path|) + path);
        outQueue == old(outQueue) + [Queued(t, Packet(0, 2, body))] && sendMessageFlag.flag
    {
      ghost var f := Request(requestID, path);
      var package := MakeRequest(requestID, path, Item(t, f, n.me.outbox.clock));
      SendingStep(env, n, Submit(k), t, f);
      Send(t, package, f, n);
      ghost var o := n.me.outbox;
      CallsDoNotMatter(WithOutbox(n, O.Do(O.Do(o, O.Enqueue(t, f)), O.Signal(t))),
        Step(env, Step(env, n, Submit(k)), Raise(t)));
    }

    /** RequestFile: the id, the name under it, the package and its Send. A package's sizes are 32-bit words. */
    method RequestFile(t: nat, path: Path, name: Path, ghost n: Node)
      requires Models(n) && Can(env, n, Allocate(t, Asked(path, name))) && |path| + 12 < U32
      modifies this`fileCurrentID, this`fileNameMap, this`outQueue, sendMessageFlag
      ensures Models(Requested(env, n, t, Asked(path, name)).3)
      ensures fileCurrentID == if old(fileCurrentID) + 1 == 0x1_0000_0000_0000_0000 then 0 else old(fileCurrentID) + 1
      ensures fileNameMap == old(fileNameMap)[old(fileCurrentID) := name]
      ensures var body := ToBE(8, old(fileCurrentID)) + (ToBE(4, |path|) + path);
        outQueue == old(outQueue) + [Queued(t, Packet(0, 2, body))] && sendMessageFlag.flag
    {
      var requestID := Register(t, path, name, n);
      SendRequest(t, requestID, path, |n.me.asks.calls|, Requested(env, n, t, Asked(path, name)).1);
    }

    // ----- CoSendMessage -----

    method TakeQueued(i: nat, ghost n: Node)
      requires Models(n) && O.Can(n.me.outbox, O.Pop(i)) && i < |outQueue|
      modifies this`outQueue, this`workers
      ensures Models(WithOutbox(n, O.Do(n.me.outbox, O.Pop(i))))
      ensures workers.sender == Writing(old(outQueue)[i].package)
      ensures outQueue == old(outQueue)[..i] + old(outQueue)[i + 1..]
    {
      PopAs(outQueue, workers.sender, n.me.outbox, i);
      var package := outQueue[i].package;
      outQueue := outQueue[..i] + outQueue[i + 1..];
      workers := workers.(sender := Writing(package));
    }

    /** CoSendMessage goes on, at a place that stands for the out-queue's new state. */
    method MoveSender(sender: Sender, ghost o: O.State, ghost n: Node)
      requires Models(n) && SenderAs(outQueue, sender, o) && o.flag == n.me.outbox.flag
      modifies this`workers
      ensures Models(WithOutbox(n, o)) && workers == old(workers).(sender := sender)
    {
      workers := workers.(sender := sender);
    }

    /** try_dequeue picks a producer and takes its first package, or fails on an empty queue. */
    method TryDequeue(i: nat, ghost n: Node) returns (ok: bool)
      requires Models(n) && IoFree(n.me) && workers.sender.Dequeuing?
      requires outQueue != [] ==>
        i < |outQueue| && forall j :: 0 <= j < i ==> outQueue[j].producer != outQueue[i].producer
      modifies this`outQueue, this`workers
      ensures ok == (old(outQueue) != []) && (!ok ==> workers.sender == Resetting)
      ensures var a := if ok then Pop(i) else Fail; Can(env, n, a) && Models(Step(env, n, a))
      ensures ok ==> workers.sender == Writing(old(outQueue)[i].package)
      ensures outQueue == if ok then old(outQueue)[..i] + old(outQueue)[i + 1..] else []
    {
      ok := outQueue != [];
      if ok {
        TakeQueued(i, n);
      } else {
        MoveSender(Resetting, O.Do(n.me.outbox, O.Fail), n);
      }
    }

    method ResetSender(ghost n: Node)
      requires Models(n) && Can(env, n, Reset)
      modifies this`workers, sendMessageFlag
      ensures Models(Step(env, n, Reset)) && !sendMessageFlag.flag && workers.sender == Polling
    {
      sendMessageFlag.Reset();
      workers := workers.(sender := Polling);
    }

    /** Wait polls the flag: it returns iff the flag is set, and a poll that finds it false changes nothing. */
    method PollSender(ghost n: Node) returns (awake: bool)
      requires Models(n) && IoFree(n.me) && workers.sender.Polling?
      modifies this`workers, sendMessageFlag
      ensures awake == old(sendMessageFlag.flag)
      ensures workers == if awake then old(workers).(sender := Dequeuing) else old(workers)
      ensures if awake then Can(env, n, Wake) && Models(Step(env, n, Wake)) else Models(n)
    {
      awake := sendMessageFlag.Poll();
      if awake {
        MoveSender(Dequeuing, O.Do(n.me.outbox, O.Wake), n);
      }
    }

    method AsyncWrite(bytes: seq<byte>, ghost w: Written, ghost x: Item, ghost n: Node)
      requires Models(n) && w.Fits() && bytes == HeaderBytes(w) + w.p.body && Bears(w.p, x)
      modifies this`sockets
      ensures Models(WithOutgoing(n, n.tx.frames + [x])) && sockets.messageOut == old(sockets.messageOut) + bytes
    {
      WriteAs(sockets.messageOut, n.tx.frames, w, x);
      sockets := sockets.(messageOut := sockets.messageOut + bytes);
    }

    /** The dequeued package goes out as a header in network order, its padding as it happens to be, and its body. */
    method WritePackage(pad: seq<byte>, ghost n: Node)
      requires Models(n) && Can(env, n, Write) && |pad| == 5
      modifies this`sockets, this`workers
      ensures Models(Step(env, n, Write)) && workers.sender == Dequeuing
      ensures old(workers.sender).Writing? && old(workers.sender.package).Fits()
      ensures sockets.messageOut == old(sockets.messageOut) + Stream([Written(old(workers.sender.package), pad)])
      ensures var p := old(workers.sender.package);
        sockets.messageOut == old(sockets.messageOut)
          + (ToBE(2, p.typ) + pad[..2] + ToBE(4, |p.body|) + [p.flags] + pad[2..] + p.body)
      ensures WireAs(Stream([Written(old(workers.sender.package), pad)]), [n.me.outbox.consumer.item])
    {
      var package := workers.sender.package;
      BearsFits(package, n.me.outbox.consumer.item);
      var header := WriteHeader(package, pad);
      StreamOfOne(Written(package, pad));
      ghost var x := n.me.outbox.consumer.item;
      WrittenOnWire(Written(package, pad), x);
      AsyncWrite(header + package.body, Written(package, pad), x, n);
      MoveSender(Dequeuing, O.Do(n.me.outbox, O.Done), WithOutgoing(n, n.tx.frames + [x]));
    }

    // ----- CoReceiveMessage -----

    method AsyncRead(k: nat) returns (packages: seq<Packet>)
      requires reader.Valid() && 0 < k <= |sockets.messageIn|
      modifies this`sockets, reader
      ensures reader.Valid() && sockets == old(sockets).(messageIn := sockets.messageIn)
      ensures Took(old(Incoming()), Incoming(), packages)
    {
      var chunk, later := sockets.messageIn[..k], sockets.messageIn[k..];
      ghost var pending := reader.Pending();
      assert chunk + later == sockets.messageIn;
      var rest;
      rest, packages := reader.Take(chunk);
      TakeMore(pending, chunk, later, reader.Pending(), rest, packages);
      sockets := sockets.(messageIn := rest + later);
    }

    method TakeBytes(k: nat, ghost n: Node) returns (packages: seq<Packet>)
      requires Models(n) && 0 < k <= |sockets.messageIn|
      modifies this`sockets, reader
      ensures packages != [] ==> n.rx.frames != [] && Bears(packages[0], n.rx.frames[0])
      ensures Models(WithIncoming(n, if packages == [] then n.rx.frames else n.rx.frames[1..]))
      ensures Took(old(Incoming()), Incoming(), packages)
    {
      ghost var before := Incoming();
      packages := AsyncRead(k);
      TookAs(before, Incoming(), packages, n.rx.frames);
    }

    method QueueInfo(package: Packet, ghost x: Item, ghost n: Node)
      requires Models(n) && Bears(package, x) && MeantFor(x.frame) == ToReceiveFile
      modifies this`fileInfoQueue, receiveFileFlag
      ensures Models(n.(me := Transfer.Route(n.me, x)))
      ensures fileInfoQueue == old(fileInfoQueue) + [package] && receiveFileFlag.flag
    {
      AppendAs(fileInfoQueue, n.me.gets.queue, package, x);
      MeantForMore(ToReceiveFile, n.me.gets.queue, x);
      fileInfoQueue := fileInfoQueue + [package];
      receiveFileFlag.Signal();
    }

    method QueueRequest(package: Packet, ghost x: Item, ghost n: Node)
      requires Models(n) && Bears(package, x) && MeantFor(x.frame) == ToSendFile
      modifies this`fileRequestQueue, sendFileFlag
      ensures Models(n.(me := Transfer.Route(n.me, x)))
      ensures fileRequestQueue == old(fileRequestQueue) + [package] && sendFileFlag.flag
    {
      AppendAs(fileRequestQueue, n.me.serves.queue, package, x);
      MeantForMore(ToSendFile, n.me.serves.queue, x);
      fileRequestQueue := fileRequestQueue + [package];
      sendFileFlag.Signal();
    }

    method QueueMessage(package: Packet, ghost x: Item, ghost n: Node)
      requires Models(n) && Bears(package, x) && MeantFor(x.frame) == ToHandlers
      modifies this`inQueue
      ensures Models(n.(me := Transfer.Route(n.me, x)))
      ensures inQueue == old(inQueue) + [package]
    {
      AppendAs(inQueue, n.me.inbox.queue, package, x);
      inQueue := inQueue + [package];
    }

    /** The two tests of the flags, in their order, on the package that carries x. */
    method Dispatch(package: Packet, ghost x: Item, ghost n: Node)
      requires Models(n) && Bears(package, x)
      modifies this`fileInfoQueue, this`fileRequestQueue, this`inQueue, sendFileFlag, receiveFileFlag
      ensures Models(n.(me := Transfer.Route(n.me, x)))
      ensures var info := package.flags as bv8 & 4 != 0;
        var request := !info && package.flags as bv8 & 2 != 0;
        && fileInfoQueue == (if info then old(fileInfoQueue) + [package] else old(fileInfoQueue))
        && receiveFileFlag.flag == (info || old(receiveFileFlag.flag))
        && fileRequestQueue == (if request then old(fileRequestQueue) + [package] else old(fileRequestQueue))
        && sendFileFlag.flag == (request || old(sendFileFlag.flag))
        && inQueue == if info || request then old(inQueue) else old(inQueue) + [package]
    {
      BearsFlags(package, x);
      if HasFlag(package.flags, FILE_RECEIVE_INFO) {
        QueueInfo(package, x, n);
        return;
      }
      if HasFlag(package.flags, FILE_REQUEST) {
        QueueRequest(package, x, n);
        return;
      }
      QueueMessage(package, x, n);
    }

    /**
     * k bytes arrive: they complete the header or the body being read, or are part of it. A package that is complete
     * goes to the queue its flags name, and that queue's worker is signalled; nothing else is a step of the protocol.
     */
    method ReceiveBytes(k: nat, ghost n: Node) returns (done: bool)
      requires Models(n) && IoFree(n.me) && 0 < k <= |sockets.messageIn|
      modifies this`sockets, this`fileInfoQueue, this`fileRequestQueue, this`inQueue, reader, sendFileFlag,
        receiveFileFlag
      ensures if done then Can(env, n, Read) && Models(Step(env, n, Read)) else Models(n)
      ensures !done ==> Incoming() == old(Incoming()) && unchanged(`fileInfoQueue, `fileRequestQueue, `inQueue)
      ensures done ==> Complete(old(Incoming())) && Incoming() == Tail(old(Incoming()))
      ensures done ==>
        var p := Framing.First(old(Incoming()));
        if p.flags as bv8 & 4 != 0 then fileInfoQueue == old(fileInfoQueue) + [p] && receiveFileFlag.flag
        else if p.flags as bv8 & 2 != 0 then fileRequestQueue == old(fileRequestQueue) + [p] && sendFileFlag.flag
        else inQueue == old(inQueue) + [p]
    {
      var packages := TakeBytes(k, n);
      done := packages != [];
      assert WithIncoming(n, n.rx.frames) == n;
      if done {
        Dispatch(packages[0], n.rx.frames[0], WithIncoming(n, n.rx.frames[1..]));
      }
    }

    // ----- CoSendFile -----

    method PollServer(ghost n: Node) returns (awake: bool)
      requires Models(n) && IoFree(n.me) && workers.server == InWait
      modifies this`workers
      ensures awake == old(sendFileFlag.flag)
      ensures workers == if awake then old(workers).(server := AtHead) else old(workers)
      ensures if awake then Can(env, n, ServerWake) && Models(Step(env, n, ServerWake)) else Models(n)
    {
      awake := sendFileFlag.Poll();
      if awake {
        workers := workers.(server := AtHead);
      }
    }

    method PopRequest(ghost n: Node) returns (package: Packet)
      requires Models(n) && n.me.serves.queue != []
      modifies this`fileRequestQueue
      ensures Models(WithRequests(n, n.me.serves.queue[1..])) && fileRequestQueue == old(fileRequestQueue)[1..]
      ensures Bears(package, n.me.serves.queue[0]) && n.me.serves.queue[0].frame.Request?
    {
      FirstAs(fileRequestQueue, n.me.serves.queue);
      MeantForTail(ToSendFile, n.me.serves.queue);
      package := fileRequestQueue[0];
      fileRequestQueue := fileRequestQueue[1..];
    }

    method NextRequest(ghost n: Node) returns (requestID: nat, path: Path)
      requires Models(n) && n.me.serves.queue != []
      modifies this`fileRequestQueue
      ensures Models(WithRequests(n, n.me.serves.queue[1..])) && fileRequestQueue == old(fileRequestQueue)[1..]
      ensures n.me.serves.queue[0].frame == Request(requestID, path) && requestID < ID_SPACE
    {
      var package := PopRequest(n);
      requestID, path := OpenRequest(package, n.me.serves.queue[0]);
    }

    method OpenUpload(requestID: nat, path: Path, size: nat, ghost n: Node)
      requires Models(n) && path in env.files && size == Wrapped(env.files[path])
      modifies this`workers
      ensures Models(WithServer(n, Streaming(requestID, Content(env.files, path))))
      ensures workers.server == InLoop && workers.upload == Upload(requestID, env.files[path], 0, size, 0, 0)
    {
      workers := workers.(server := InLoop, upload := Upload(requestID, env.files[path], 0, size, 0, 0));
      assert Unsent(workers.upload, fileBuffer[..]) == env.files[path][..size];
    }

    /** The announcement stands at the end of the out-queue, and all of the size announced is still to be sent. */
    ghost predicate Announced(before: seq<Queued>, requestID: nat, data: seq<byte>)
      reads this
    {
      var size := |data| % 0x1_0000_0000;
      && outQueue == before + [Queued(IO, Packet(0, 4, ToBE(8, requestID) + ToBE(4, size)))]
      && workers.server == InLoop && workers.upload == Upload(requestID, data, 0, size, 0, 0)
    }

    /** A request has been answered: with a disconnect if its file cannot be read, else with its announcement. */
    ghost predicate ServedAs(state: ConnectionState, before: seq<Queued>, requestID: nat, path: Path)
      reads this, sendMessageFlag, sendFileFlag, receiveFileFlag
    {
      sendMessageFlag.flag &&
      if path in env.files then connectionState == state && Announced(before, requestID, env.files[path])
      else connectionState == DISCONNECTED && sendFileFlag.flag && receiveFileFlag.flag && outQueue == before
    }

    /** The announcement is made from copies, so `size` still bounds the loop that follows. */
    method Announce(requestID: nat, path: Path, ghost n: Node)
      requires Models(n) && path in env.files && requestID < ID_SPACE && IO !in n.me.outbox.mid
      modifies this`outQueue, this`workers, sendMessageFlag
      ensures var data := Content(env.files, path);
        Models(WithServer(WithOutbox(n, SendFromIo(n.me.outbox, Info(requestID, |data|))), Streaming(requestID, data)))
      ensures Announced(old(outQueue), requestID, env.files[path]) && sendMessageFlag.flag
    {
      var size := Wrapped(env.files[path]);
      Wrap32IsMod(|env.files[path]|);
      var info := MakeInfo(requestID, size, Item(IO, Info(requestID, size), n.me.outbox.clock));
      Send(IO, info, Info(requestID, size), n);
      OpenUpload(requestID, path, size, WithOutbox(n, SendFromIo(n.me.outbox, Info(requestID, size))));
    }

    /** Disconnect() and co_return. */
    method FailServer(requestID: nat, ghost n: Node)
      requires Models(n)
      modifies this`connectionState, this`workers, sendMessageFlag, sendFileFlag, receiveFileFlag
      ensures Models(WithServer(n.(me := n.me.(connected := false)), Stopped(requestID)))
      ensures connectionState == DISCONNECTED && sendMessageFlag.flag && sendFileFlag.flag && receiveFileFlag.flag
    {
      Close();
      workers := workers.(server := Ended);
    }

    method BeginUpload(requestID: nat, path: Path, ghost n: Node)
      requires Models(n) && requestID < ID_SPACE && IO !in n.me.outbox.mid
      modifies this`connectionState, this`outQueue, this`workers, sendMessageFlag, sendFileFlag, receiveFileFlag
      ensures Models(Answered(env, n, requestID, path))
      ensures ServedAs(old(connectionState), old(outQueue), requestID, path)
    {
      if path !in env.files {
        FailServer(requestID, n);
      } else {
        Announce(requestID, path, n);
      }
    }

    method ServeFirst(ghost n: Node)
      requires Models(n) && Can(env, n, Serve) && n.me.serves.queue != []
      modifies this, sendMessageFlag, sendFileFlag, receiveFileFlag
      ensures Models(Step(env, n, Serve)) && fileRequestQueue == old(fileRequestQueue)[1..]
      ensures var f := n.me.serves.queue[0].frame;
        f.Request? && ServedAs(old(connectionState), old(outQueue), f.id, f.path)
    {
      var requestID, path := NextRequest(n);
      ServeStep(env, n);
      BeginUpload(requestID, path, WithRequests(n, n.me.serves.queue[1..]));
    }

    method ResetServer(ghost n: Node)
      requires Models(n) && Can(env, n, Serve) && n.me.serves.queue == []
      modifies this`workers, sendFileFlag
      ensures Models(Step(env, n, Serve)) && !sendFileFlag.flag && workers.server == InWait
    {
      sendFileFlag.Reset();
      workers := workers.(server := InWait);
    }

    /** The loop head: unpack a request, open its file and announce it; or reset the flag and wait. */
    method ServeRequest(ghost n: Node)
      requires Models(n) && Can(env, n, Serve)
      modifies this, sendMessageFlag, sendFileFlag, receiveFileFlag
      ensures Models(Step(env, n, Serve))
      ensures old(fileRequestQueue) == [] ==> !sendFileFlag.flag && workers.server == InWait
      ensures old(fileRequestQueue) != [] ==>
        && fileRequestQueue == old(fileRequestQueue)[1..] && n.me.serves.queue[0].frame.Request?
        && var Request(id, path) := n.me.serves.queue[0].frame;
          if path in env.files then
            var size := |env.files[path]| % 0x1_0000_0000;
            && connectionState == old(connectionState) && sendMessageFlag.flag
            && outQueue == old(outQueue) + [Queued(IO, Packet(0, 4, ToBE(8, id) + ToBE(4, size)))]
            && workers.upload == Upload(id, env.files[path], 0, size, 0, 0)
          else
            && connectionState == DISCONNECTED && outQueue == old(outQueue)
            && sendMessageFlag.flag && sendFileFlag.flag && receiveFileFlag.flag
    {
      if fileRequestQueue == [] {
        ResetServer(n);
      } else {
        ServeFirst(n);
      }
    }

    /** The chunk loop reads the next min(size, buffer) bytes of the file; what is still to be sent is the same. */
    method FillBuffer(ghost n: Node) returns (readSize: nat)
      requires Models(n) && workers.server == InLoop && workers.upload.sent == workers.upload.filled
        && workers.upload.size > 0
      modifies this`workers, fileBuffer
      ensures Models(n) && 0 < readSize == Min(old(workers.upload.size), 131072)
      ensures workers.upload.size == old(workers.upload.size) - readSize
      ensures workers.upload.sent == 0 && workers.upload.filled == readSize
    {
      var u := workers.upload;
      readSize := Min(u.size, FILE_BUFFER_SIZE);
      ghost var before := fileBuffer[..];
      Packages.Memcpy(fileBuffer, 0, u.data[u.position..u.position + readSize]);
      assert fileBuffer[..][..readSize] == fileBuffer[0..readSize];
      FillAs(u, before, fileBuffer[..], readSize);
      workers := workers.(upload := u.(position := u.position + readSize, size := u.size - readSize, sent := 0,
        filled := readSize));
    }

    /** async_write hands the buffer to the socket in parts, as its room allows. */
    method WriteSome(k: nat, ghost n: Node)
      requires Models(n) && Can(env, n, WriteBytes(k)) && workers.upload.sent + k <= workers.upload.filled
      modifies this`workers, this`sockets
      ensures Models(Step(env, n, WriteBytes(k)))
      ensures sockets.fileOut == old(sockets.fileOut + fileBuffer[workers.upload.sent..workers.upload.sent + k])
    {
      var u := workers.upload;
      SendAs(u, fileBuffer[..], k, n.me.serves.server);
      sockets := sockets.(fileOut := sockets.fileOut + fileBuffer[u.sent..u.sent + k]);
      workers := workers.(upload := u.(sent := u.sent + k));
    }

    /** The loop ends when all of `size` has been read and sent. */
    method CloseUpload(ghost n: Node)
      requires Models(n) && IoFree(n.me) && workers.server == InLoop
      requires workers.upload.sent == workers.upload.filled && workers.upload.size == 0
      modifies this`workers
      ensures Can(env, n, Served) && Models(Step(env, n, Served)) && workers == old(workers).(server := AtHead)
    {
      workers := workers.(server := AtHead);
    }

    // ----- CoReceiveFile -----

    method PollReceiver(ghost n: Node) returns (awake: bool)
      requires Models(n) && IoFree(n.me) && workers.receiver == InWait
      modifies this`workers
      ensures awake == old(receiveFileFlag.flag)
      ensures workers == if awake then old(workers).(receiver := AtHead) else old(workers)
      ensures if awake then Can(env, n, ReceiverWake) && Models(Step(env, n, ReceiverWake)) else Models(n)
    {
      awake := receiveFileFlag.Poll();
      if awake {
        workers := workers.(receiver := AtHead);
      }
    }

    method ResetReceiver(ghost n: Node)
      requires Models(n) && n.me.gets.queue == []
      modifies this`workers, receiveFileFlag
      ensures Models(WithGetting(n, n.me.gets.(flag := false, receiver := Idle))) && !receiveFileFlag.flag
      ensures workers.receiver == InWait
    {
      receiveFileFlag.Reset();
      workers := workers.(receiver := InWait, download := NO_DOWNLOAD);
    }

    method PopInfo(ghost n: Node) returns (package: Packet)
      requires Models(n) && n.me.gets.queue != []
      modifies this`fileInfoQueue
      ensures Models(WithGetting(n, n.me.gets.(queue := n.me.gets.queue[1..])))
      ensures fileInfoQueue == old(fileInfoQueue)[1..]
      ensures fileNameMap == n.me.asks.names
      ensures Bears(package, n.me.gets.queue[0]) && n.me.gets.queue[0].frame.Info?
    {
      FirstAs(fileInfoQueue, n.me.gets.queue);
      MeantForTail(ToReceiveFile, n.me.gets.queue);
      package := fileInfoQueue[0];
      fileInfoQueue := fileInfoQueue[1..];
    }

    method NextInfo(ghost n: Node) returns (requestID: nat, size: nat)
      requires Models(n) && n.me.gets.queue != []
      modifies this`fileInfoQueue
      ensures Models(WithGetting(n, n.me.gets.(queue := n.me.gets.queue[1..])))
      ensures fileInfoQueue == old(fileInfoQueue)[1..]
      ensures n.me.gets.queue[0].frame == Info(requestID, size)
    {
      var package := PopInfo(n);
      requestID, size := OpenInfo(package, n.me.gets.queue[0]);
    }

    /** Disconnect() and co_return. */
    method FailReceiver(requestID: nat, ghost n: Node)
      requires Models(n)
      modifies this`connectionState, this`workers, sendMessageFlag, sendFileFlag, receiveFileFlag
      ensures Models(WithGetting(n.(me := n.me.(connected := false)), n.me.gets.(receiver := Gone(requestID))))
      ensures connectionState == DISCONNECTED && sendMessageFlag.flag && sendFileFlag.flag && receiveFileFlag.flag
    {
      Close();
      workers := workers.(receiver := Ended, download := NO_DOWNLOAD);
    }

    /** An announcement has been taken up: with a disconnect, or with its file open, empty and all still to be read. */
    ghost predicate BegunAs(state: ConnectionState, before: map<Path, seq<byte>>, requestID: nat, size: nat,
        writable: bool)
      reads this, sendMessageFlag, sendFileFlag, receiveFileFlag
    {
      if requestID in fileNameMap && writable then
        && connectionState == state && downloads == before[fileNameMap[requestID] := []]
        && workers.receiver == InLoop
        && workers.download == Download(requestID, fileNameMap[requestID], size, [], 0, 0)
      else
        && connectionState == DISCONNECTED && downloads == before
        && sendMessageFlag.flag && sendFileFlag.flag && receiveFileFlag.flag
    }

    /** Opening the file truncates it. */
    method OpenDownload(requestID: nat, size: nat, ghost n: Node)
      requires Models(n) && requestID in n.me.asks.names
      modifies this`workers, this`downloads
      ensures var g, name := n.me.gets, n.me.asks.names[requestID];
        Models(WithGetting(n, g.(receiver := Receiving(requestID, name, size, []), disk := g.disk[name := []])))
      ensures requestID in fileNameMap && BegunAs(connectionState, old(downloads), requestID, size, true)
    {
      var filename := fileNameMap[requestID];
      downloads := downloads[filename := []];
      workers := workers.(receiver := InLoop, download := Download(requestID, filename, size, [], 0, 0));
    }

    method BeginFile(requestID: nat, size: nat, writable: bool, ghost n: Node)
      requires Models(n)
      modifies this`connectionState, this`workers, this`downloads, sendMessageFlag, sendFileFlag, receiveFileFlag
      ensures Models(Began(n, requestID, size, writable))
      ensures BegunAs(old(connectionState), old(downloads), requestID, size, writable)
    {
      if requestID !in fileNameMap || !writable {
        FailReceiver(requestID, n);
      } else {
        OpenDownload(requestID, size, n);
      }
    }

    method TakeFirst(writable: bool, ghost n: Node)
      requires Models(n) && Can(env, n, TakeInfo(writable)) && n.me.gets.queue != []
      modifies this`connectionState, this`workers, this`downloads, this`fileInfoQueue, sendMessageFlag,
        sendFileFlag, receiveFileFlag
      ensures Models(Step(env, n, TakeInfo(writable))) && fileInfoQueue == old(fileInfoQueue)[1..]
      ensures var f := n.me.gets.queue[0].frame;
        f.Info? && BegunAs(old(connectionState), old(downloads), f.id, f.size, writable)
    {
      var requestID, size := NextInfo(n);
      TakeStep(env, n, writable);
      BeginFile(requestID, size, writable, WithGetting(n, n.me.gets.(queue := n.me.gets.queue[1..])));
    }

    /** The loop head: unpack an announcement and open the file registered for it; or reset the flag and wait. */
    method TakeAnnouncement(writable: bool, ghost n: Node)
      requires Models(n) && Can(env, n, TakeInfo(writable))
      modifies this, sendMessageFlag, sendFileFlag, receiveFileFlag
      ensures Models(Step(env, n, TakeInfo(writable))) && fileNameMap == old(fileNameMap)
      ensures old(fileInfoQueue) == [] ==> !receiveFileFlag.flag && workers.receiver == InWait
      ensures old(fileInfoQueue) != [] ==>
        && fileInfoQueue == old(fileInfoQueue)[1..] && n.me.gets.queue[0].frame.Info?
        && var Info(id, size) := n.me.gets.queue[0].frame;
          if id in fileNameMap && writable then
            && connectionState == old(connectionState) && downloads == old(downloads)[fileNameMap[id] := []]
            && workers.download == Download(id, fileNameMap[id], size, [], 0, 0)
          else
            && connectionState == DISCONNECTED && downloads == old(downloads)
            && sendMessageFlag.flag && sendFileFlag.flag && receiveFileFlag.flag
    {
      if fileInfoQueue == [] {
        ResetReceiver(n);
      } else {
        TakeFirst(writable, n);
      }
    }

    /** The chunk loop asks for the next min(size, buffer) bytes. */
    method BeginRead(ghost n: Node) returns (readSize: nat)
      requires Models(n) && workers.receiver == InLoop && workers.download.wanted == 0 && workers.download.size > 0
      modifies this`workers
      ensures Models(n) && 0 < readSize == Min(old(workers.download.size), 131072)
      ensures workers.download == old(workers.download).(size := old(workers.download.size) - readSize,
        wanted := readSize)
    {
      var d := workers.download;
      readSize := Min(d.size, FILE_BUFFER_SIZE);
      workers := workers.(download := d.(size := d.size - readSize, wanted := readSize));
    }

    method AsyncReadSome(k: nat, ghost n: Node)
      requires Models(n) && n.me.gets.receiver.Receiving? && 0 < k <= |n.rx.bytes|
      requires workers.download.filled + k <= workers.download.wanted
      modifies this`workers, this`sockets, dataBuffer
      ensures k <= n.me.gets.receiver.left && Models(WithArrived(n, k))
      ensures sockets.fileIn == old(sockets.fileIn)[k..]
    {
      var d := workers.download;
      ghost var before := dataBuffer[..];
      Packages.Memcpy(dataBuffer, d.filled, sockets.fileIn[..k]);
      ArriveAs(d, before, dataBuffer[..], sockets.fileIn[..k], n.me.gets.receiver);
      sockets := sockets.(fileIn := sockets.fileIn[k..]);
      workers := workers.(download := Arrived(d, dataBuffer[..], k));
    }

    /** async_read fills the buffer in parts, as bytes arrive; a full chunk is written to the file stream. */
    method ReadSome(k: nat, ghost n: Node)
      requires Models(n) && Can(env, n, ReadBytes(k)) && workers.download.filled + k <= workers.download.wanted
      modifies this`workers, this`sockets, dataBuffer
      ensures Models(Step(env, n, ReadBytes(k)))
      ensures sockets.fileIn == old(sockets.fileIn)[k..]
    {
      AsyncReadSome(k, n);
    }

    /** fileStream.close: what the stream got is what the file holds. */
    method CloseFile(ghost n: Node)
      requires Models(n) && IoFree(n.me) && workers.receiver == InLoop
      requires workers.download.wanted == 0 && workers.download.size == 0
      modifies this`workers, this`downloads
      ensures Can(env, n, Transfer.Close) && Models(Step(env, n, Transfer.Close))
      ensures downloads == old(downloads[workers.download.filename := workers.download.written])
      ensures workers.receiver == AtHead
    {
      var d := workers.download;
      ClosedAs(d, dataBuffer[..], n.me.gets.receiver);
      downloads := downloads[d.filename := d.written];
      workers := workers.(receiver := AtHead, download := NO_DOWNLOAD);
    }

    /** One pass of the loop, or the rest of one; m is the state after it. */
    method ReceiveChunk(ghost n: Node) returns (ghost m: Node)
      requires Models(n) && IoFree(n.me) && workers.receiver == InLoop
      requires n.me.gets.receiver.Receiving? && n.me.gets.receiver.left <= |n.rx.bytes|
      requires workers.download.size > 0 || workers.download.wanted > 0
      modifies this`workers, this`sockets, dataBuffer
      ensures Models(m) && IoFree(m.me) && workers.receiver == InLoop && m.me.gets.receiver.Receiving?
      ensures m.me.gets.receiver.left <= |m.rx.bytes| && m.me.gets.receiver.left < n.me.gets.receiver.left
      ensures FileReceived(m) == FileReceived(n)
    {
      if workers.download.wanted == 0 {
        var readSize := BeginRead(n);
      }
      var missing := workers.download.wanted - workers.download.filled;
      ReadSome(missing, n);
      ReadThenReceive(env, n, missing);
      m := Step(env, n, ReadBytes(missing));
    }

    /**
     * The whole loop over a file whose bytes have all arrived, however much of it is already read: in the end the file
     * holds them all, and the bytes of the next file are the first on the wire.
     */
    method ReceiveFile(ghost n: Node)
      requires Models(n) && IoFree(n.me) && workers.receiver == InLoop
      requires n.me.gets.receiver.Receiving? && n.me.gets.receiver.left <= |n.rx.bytes|
      modifies this`workers, this`sockets, this`downloads, dataBuffer
      ensures Models(FileReceived(n)) && workers.receiver == AtHead
      ensures var r := n.me.gets.receiver;
        && downloads == old(downloads)[r.name := r.got + old(sockets.fileIn)[..r.left]]
        && sockets.fileIn == old(sockets.fileIn)[r.left..]
    {
      ghost var m := n;
      while workers.download.size > 0 || workers.download.wanted > 0
        invariant Models(m) && IoFree(m.me) && workers.receiver == InLoop
        invariant m.me.gets.receiver.Receiving? && m.me.gets.receiver.left <= |m.rx.bytes|
        invariant FileReceived(m) == FileReceived(n)
        decreases m.me.gets.receiver.left
      {
        m := ReceiveChunk(m);
      }
      CloseFile(m);
      CloseIsReceived(env, m);
    }

    // ----- The dispatch thread -----

    /** m_packagesIn.try_dequeue: the oldest package that has arrived. */
    method NextPackage(ghost n: Node) returns (package: Packet)
      requires Models(n) && Can(env, n, Handle)
      modifies this`inQueue
      ensures Models(Step(env, n, Handle)) && Bears(package, n.me.inbox.queue[0])
      ensures old(inQueue) == [package] + inQueue
    {
      FirstAs(inQueue, n.me.inbox.queue);
      package := inQueue[0];
      inQueue := inQueue[1..];
    }

    // ----- The network -----

    /** A package of the peer's comes in on the message socket. */
    method Arrive(bytes: seq<byte>, ghost x: Item, ghost n: Node)
      requires Models(n) && WireAs(bytes, [x])
      modifies this`sockets
      ensures Models(WithIncoming(n, n.rx.frames + [x]))
      ensures sockets == old(sockets).(messageIn := old(sockets.messageIn) + bytes)
    {
      ArriveBehind(reader.Pending(), sockets.messageIn, n.rx.frames, bytes, x);
      sockets := sockets.(messageIn := sockets.messageIn + bytes);
    }

    /** The peer has read the first package that was on its way to it. */
    method Depart(ghost n: Node)
      requires Models(n) && n.tx.frames != []
      modifies this`sockets
      ensures Models(WithOutgoing(n, n.tx.frames[1..]))
      ensures Complete(old(sockets.messageOut)) && sockets == old(sockets).(messageOut := Tail(old(sockets.messageOut)))
    {
      OnWire(sockets.messageOut, n.tx.frames);
      ReadAs(sockets.messageOut, n.tx.frames);
      sockets := sockets.(messageOut := Tail(sockets.messageOut));
    }

    method ArriveFile(bytes: seq<byte>, ghost n: Node)
      requires Models(n)
      modifies this`sockets
      ensures Models(n.(rx := n.rx.(bytes := n.rx.bytes + bytes)))
      ensures sockets == old(sockets).(fileIn := old(sockets.fileIn) + bytes)
    {
      sockets := sockets.(fileIn := sockets.fileIn + bytes);
    }

    method DepartFile(k: nat, ghost n: Node)
      requires Models(n) && k <= |n.tx.bytes|
      modifies this`sockets
      ensures Models(n.(tx := n.tx.(bytes := n.tx.bytes[k..])))
      ensures k <= |old(sockets.fileOut)| && sockets == old(sockets).(fileOut := old(sockets.fileOut)[k..])
    {
      sockets := sockets.(fileOut := sockets.fileOut[k..]);
    }
  }
}
