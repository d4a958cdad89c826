/** The client: it hands its calls to the connection it has, and its dispatch thread hands packages to handlers. */
module Clients {
  import opened Bytes
  import opened Connection
  import opened ConnectionData
  import opened ConnectionStates
  import opened Framing
  import opened Frames
  import opened Transfer
  import opened Wire

  /** A call of a registered handler. */
  datatype HandlerCall = HandlerCall(handler: nat, package: Packet)

  /** n with every package that has arrived handed over. */
  function AllHandled(n: Node): Node {
    n.(me := n.me.(inbox := Inbox([], n.me.inbox.handled + n.me.inbox.queue)))
  }

  lemma HandlingLeaves(env: Env, n: Node)
    requires Can(env, n, Handle)
    ensures AllHandled(Step(env, n, Handle)) == AllHandled(n)
  {
    var i := n.me.inbox;
    assert i.handled + i.queue == (i.handled + [i.queue[0]]) + i.queue[1..];
  }

  lemma NoneLeft(n: Node)
    requires n.me.inbox.queue == []
    ensures AllHandled(n) == n
  {
    assert n.me.inbox.handled + [] == n.me.inbox.handled;
  }

  /** The packages of ps that are not in `left` have gone to their handlers, in order. */
  ghost predicate HandedOver(handlers: map<nat, nat>, ps: seq<Packet>, left: seq<Packet>, calls: seq<HandlerCall>) {
    && |calls| <= |ps| && left == ps[|calls|..]
    && forall i :: 0 <= i < |calls| ==> ps[i].typ in handlers && calls[i] == HandlerCall(handlers[ps[i].typ], ps[i])
  }

  lemma OneHandedOver(handlers: map<nat, nat>, ps: seq<Packet>, left: seq<Packet>, calls: seq<HandlerCall>)
    requires HandedOver(handlers, ps, left, calls) && left != [] && left[0].typ in handlers
    ensures HandedOver(handlers, ps, left[1..], calls + [HandlerCall(handlers[left[0].typ], left[0])])
  {
  }

  class Client {
    var connection: TCPConnection?
    var handlers: map<nat, nat>

    constructor ()
      ensures connection == null && handlers == map[]
    {
      connection, handlers := null, map[];
    }

    predicate Connected()
      reads this, connection
    {
      connection != null && connection.connectionState == CONNECTED
    }

    method AddHandler(typ: nat, handler: nat)
      modifies this`handlers
      ensures handlers == old(handlers)[typ := handler]
    {
      handlers := handlers[typ := handler];
    }

    /**
     * Every connect makes a connection object of its own and starts it; until it is up, the client is not connected.
     */
    method Connect(env: Env)
      modifies this`connection
      ensures connection != null && fresh(connection) && connection.env == env
      ensures connection.Unused() && connection.connectionState == CONNECTING && !Connected()
    {
      connection := new TCPConnection(env);
      connection.Start();
    }

    /** A package sent before or after the connection's life is dropped and changes nothing. */
    method Send(t: nat, package: Packet, ghost n: Node)
      requires Connected() ==> connection.Models(n) && Can(connection.env, n, Post(t, package.typ, package.body))
      requires Carries(package, Message(package.typ, package.body))
      modifies connection, if connection == null then {} else {connection.sendMessageFlag}
      ensures connection == old(connection)
      ensures !old(Connected()) && connection != null ==> unchanged(connection, connection.sendMessageFlag)
      ensures old(Connected()) ==>
        var n1 := Step(connection.env, n, Post(t, package.typ, package.body));
        connection.Models(Step(connection.env, n1, Raise(t)))
      ensures old(Connected()) ==>
        connection.outQueue == old(connection.outQueue) + [Queued(t, package)] && connection.sendMessageFlag.flag
    {
      if connection == null || connection.connectionState != CONNECTED {
        return;
      }
      connection.SendMessage(t, package, n);
    }

    method RequestFile(t: nat, path: Path, name: Path, ghost n: Node)
      requires Connected() ==> connection.Models(n) && Can(connection.env, n, Allocate(t, Asked(path, name)))
      requires |path| + 12 < U32
      modifies connection, if connection == null then {} else {connection.sendMessageFlag}
      ensures connection == old(connection)
      ensures !old(Connected()) && connection != null ==> unchanged(connection, connection.sendMessageFlag)
      ensures old(Connected()) ==> connection.Models(Requested(connection.env, n, t, Asked(path, name)).3)
      ensures old(Connected()) ==>
        var id := old(connection.fileCurrentID);
        && connection.fileNameMap == old(connection.fileNameMap)[id := name] && connection.sendMessageFlag.flag
        && connection.outQueue
            == old(connection.outQueue) + [Queued(t, Packet(0, 2, ToBE(8, id) + (ToBE(4, |path|) + path)))]
    {
      if connection == null || connection.connectionState != CONNECTED {
        return;
      }
      connection.RequestFile(t, path, name, n);
    }

    predicate Known(ps: seq<Packet>)
      reads this
    {
      forall p :: p in ps ==> p.typ in handlers
    }

    /** Dequeues the oldest package and hands it to its handler; m is the state after it. */
    method HandleOne(c: TCPConnection, ghost n: Node) returns (call: HandlerCall, ghost m: Node)
      requires c.connectionState == CONNECTED && c.Models(n) && c.inQueue != [] && Known(c.inQueue)
      modifies c`inQueue
      ensures c.Models(m) && AllHandled(m) == AllHandled(n) && Known(c.inQueue)
      ensures c.inQueue == old(c.inQueue)[1..]
      ensures call == HandlerCall(handlers[old(c.inQueue)[0].typ], old(c.inQueue)[0])
    {
      ghost var queue := c.inQueue;
      var package := c.NextPackage(n);
      assert queue[0] == package && queue[1..] == c.inQueue;
      HandlingLeaves(c.env, n);
      m := Step(c.env, n, Handle);
      call := HandlerCall(handlers[package.typ], package);
    }

    /** The inner loop of the dispatch thread; m is the state after it. */
    method HandleAll(c: TCPConnection, ghost n: Node) returns (calls: seq<HandlerCall>, ghost m: Node)
      requires c.connectionState == CONNECTED && c.Models(n) && Known(c.inQueue)
      modifies c`inQueue
      ensures c.Models(m) && AllHandled(m) == AllHandled(n) && c.inQueue == []
      ensures HandedOver(handlers, old(c.inQueue), [], calls)
    {
      ghost var arrived := c.inQueue;
      calls, m := [], n;
      while c.connectionState == CONNECTED && c.inQueue != []
        invariant c.connectionState == CONNECTED && c.Models(m) && AllHandled(m) == AllHandled(n)
        invariant Known(c.inQueue) && HandedOver(handlers, arrived, c.inQueue, calls)
        decreases |c.inQueue|
      {
        OneHandedOver(handlers, arrived, c.inQueue, calls);
        var call;
        call, m := HandleOne(c, m);
        calls := calls + [call];
      }
    }

    /**
     * One visit of the dispatch thread: while connected, every package that has arrived is handed, in order, to the
     * handler registered for its type.
     */
    method HandleIncomingPackages(ghost n: Node) returns (calls: seq<HandlerCall>)
      requires Connected() ==> connection.Models(n) && Known(connection.inQueue)
      modifies if connection == null then {} else {connection}
      ensures !old(Connected()) ==> calls == [] && (connection != null ==> unchanged(connection))
      ensures old(Connected()) ==>
        && connection.Models(n.(me := n.me.(inbox := Inbox([], n.me.inbox.handled + n.me.inbox.queue))))
        && connection.inQueue == [] && |calls| == |old(connection.inQueue)|
        && forall i :: 0 <= i < |calls| ==>
          && calls[i].handler == handlers[old(connection.inQueue)[i].typ]
          && calls[i].package == old(connection.inQueue)[i]
    {
      calls := [];
      if connection == null || connection.connectionState != CONNECTED {
        return;
      }
      ghost var m;
      calls, m := HandleAll(connection, n);
      NoneLeft(m);
    }
  }
}
