/**
 * The life cycle of a TLSConnection: one Start or Seek, any number of Disconnects, the closing of the two sockets and
 * the four workers. The io thread is single, so a step is what a coroutine does between two suspensions.
 */
module TlsLifecycle {
  import opened ConnectionStates

  /** CoStart or CoSeek: before Start, spawned, suspended on one of its four operations, or over. */
  datatype Starter =
    | NotStarted | Spawned | ConnectMessage | HandshakeMessage | ConnectStream | HandshakeStream | Up | Failed

  /** A CoDisconnect: spawned, suspended in the shutdown of a socket, or over. */
  datatype Closer = Called | ShuttingMessage | ShuttingStream | Returned

  datatype Worker = ReceiveMessage | ReceiveFile | SendMessage | SendFile

  /**
   * A worker: not spawned, spawned, in Wait, at its loop head, suspended on a socket operation, or over.
   * `live` says whether the socket was open when the operation began; Header is CoReceiveMessage's first read.
   */
  datatype Place = Unborn | Entry | Waiting | Top | Header(live: bool) | Op(live: bool) | Left

  datatype Workers = Workers(receiveMessage: Place, receiveFile: Place, sendMessage: Place, sendFile: Place) {
    function At(w: Worker): Place {
      match w
      case ReceiveMessage => receiveMessage
      case ReceiveFile => receiveFile
      case SendMessage => sendMessage
      case SendFile => sendFile
    }

    function With(w: Worker, p: Place): Workers {
      match w
      case ReceiveMessage => this.(receiveMessage := p)
      case ReceiveFile => this.(receiveFile := p)
      case SendMessage => this.(sendMessage := p)
      case SendFile => this.(sendFile := p)
    }
  }

  /** The three AwaitableFlags. CoReceiveMessage waits on none. */
  datatype Flags = Flags(receiveFile: bool, sendMessage: bool, sendFile: bool) {
    predicate IsSet(w: Worker) {
      match w
      case ReceiveMessage => true
      case ReceiveFile => receiveFile
      case SendMessage => sendMessage
      case SendFile => sendFile
    }

    function With(w: Worker, b: bool): Flags {
      match w
      case ReceiveMessage => this
      case ReceiveFile => this.(receiveFile := b)
      case SendMessage => this.(sendMessage := b)
      case SendFile => this.(sendFile := b)
    }
  }

  const ALL_SET := Flags(true, true, true)

  /**
   * `message` and `stream` say which sockets are open; `ended` records that a CoDisconnect has reached its last line.
   */
  datatype State = State(
    conn: ConnectionState, message: bool, stream: bool, flags: Flags,
    starter: Starter, closers: seq<Closer>, workers: Workers, ended: bool)

  const INIT := State(DISCONNECTED, false, false, Flags(false, false, false), NotStarted, [],
                      Workers(Unborn, Unborn, Unborn, Unborn), false)

  /** How a worker's segment goes: its operation fails, or what it finds in its queue, file or package. */
  datatype Outcome =
    | Fails
    | Nothing          // the deque is empty, or there is nothing to look at yet
    | Missing          // an unknown id or a file that cannot be opened
    | More             // a further operation begins
    | Finished         // the write is done, or the file has no byte left
    | ToReceiver | ToServer | ToInbox

  datatype Action =
    | Start
    | Establish(ok: bool)            // the next segment of CoStart or CoSeek
    | Disconnect                     // any thread
    | Close(k: nat)                  // the next segment of the k-th CoDisconnect
    | Signal                         // a Send on any thread
    | Run(w: Worker, o: Outcome)     // the next segment of a worker

  // ----- Steps -----

  predicate Possible(w: Worker, p: Place, o: Outcome) {
    match p
    case Entry => o.Nothing?
    case Waiting => o.Nothing? && !w.ReceiveMessage?
    case Top =>
      (match w
       case ReceiveMessage => o.Nothing?
       case SendMessage => o.Nothing? || o.More?
       case _ => o.Nothing? || o.Missing? || o.Finished? || o.More?)
    case Header(live) => w.ReceiveMessage? && (o.Fails? || (live && o.More?))
    case Op(live) =>
      o.Fails? || (live &&
        match w
        case ReceiveMessage => o.ToReceiver? || o.ToServer? || o.ToInbox?
        case SendMessage => o.Finished?
        case _ => o.Finished? || o.More?)
    case _ => false
  }

  predicate Can(s: State, a: Action) {
    match a
    case Start => s.starter.NotStarted?
    case Establish(_) => !s.starter.NotStarted? && !s.starter.Up? && !s.starter.Failed?
    case Disconnect => true
    case Close(k) => k < |s.closers| && !s.closers[k].Returned?
    case Signal => true
    case Run(w, o) =>
      Possible(w, s.workers.At(w), o) && (s.workers.At(w).Waiting? ==> s.flags.IsSet(w))
  }

  function EstablishNext(s: State, ok: bool): State
    requires Can(s, Establish(ok))
  {
    var s := if s.starter.Spawned? then s.(conn := CONNECTING) else s;
    if !ok then s.(starter := Failed, closers := s.closers + [Called])
    else match s.starter
      case Spawned => s.(starter := ConnectMessage)
      case ConnectMessage => s.(starter := HandshakeMessage, message := true)
      case HandshakeMessage => s.(starter := ConnectStream)
      case ConnectStream => s.(starter := HandshakeStream, stream := true)
      case _ => s.(starter := Up, conn := CONNECTED, workers := Workers(Entry, Entry, Entry, Entry))
  }

  /** The last lines of CoDisconnect. */
  function Finish(s: State, k: nat): State
    requires k < |s.closers|
  {
    s.(conn := DISCONNECTED, flags := ALL_SET, closers := s.closers[k := Returned], ended := true)
  }

  /** CoCloseSocket on the file socket up to its suspension, or the end if it is closed already. */
  function CloseStream(s: State, k: nat): State
    requires k < |s.closers|
  {
    if s.stream then s.(closers := s.closers[k := ShuttingStream]) else Finish(s, k)
  }

  function CloseMessage(s: State, k: nat): State
    requires k < |s.closers|
  {
    if s.message then s.(closers := s.closers[k := ShuttingMessage]) else CloseStream(s, k)
  }

  function CloseNext(s: State, k: nat): State
    requires Can(s, Close(k))
  {
    match s.closers[k]
    case Called =>
      if !s.conn.CONNECTED? then s.(closers := s.closers[k := Returned])
      else if !s.message && !s.stream then s.(conn := DISCONNECTED, closers := s.closers[k := Returned])
      else CloseMessage(s.(conn := DISCONNECTING), k)
    case ShuttingMessage => CloseStream(s.(message := false), k)
    case _ => Finish(s.(stream := false), k)
  }

  function Leave(s: State, w: Worker): State { s.(workers := s.workers.With(w, Left)) }
  function Go(s: State, w: Worker, p: Place): State { s.(workers := s.workers.With(w, p)) }
  function CallDisconnect(s: State): State { s.(closers := s.closers + [Called]) }

  /** Is the socket that w works on open? */
  predicate Open(s: State, w: Worker) {
    if w.ReceiveMessage? || w.SendMessage? then s.message else s.stream
  }

  /** A worker at its loop head, where it looks at the connection's state. */
  function LoopHead(s: State, w: Worker, o: Outcome): State {
    if !s.conn.CONNECTED? then Leave(s, w)
    else if w.ReceiveMessage? then Go(s, w, Header(s.message))
    else match o
      case Nothing => Go(s.(flags := s.flags.With(w, false)), w, Waiting)
      case Missing => CallDisconnect(Leave(s, w))
      case _ =>
        var s := if w.SendFile? then s.(flags := s.flags.With(SendMessage, true)) else s;
        if o.More? then Go(s, w, Op(Open(s, w))) else s
  }

  function RunNext(s: State, w: Worker, o: Outcome): State
    requires Can(s, Run(w, o))
  {
    match s.workers.At(w)
    case Entry => if !s.conn.CONNECTED? then Leave(s, w) else Go(s, w, if w.ReceiveMessage? then Top else Waiting)
    case Waiting => Go(s, w, Top)
    case Top => LoopHead(s, w, o)
    case _ =>
      (match o
       case Fails => if w.SendMessage? || w.SendFile? then CallDisconnect(Leave(s, w)) else Leave(s, w)
       case More => Go(s, w, Op(Open(s, w)))
       case ToReceiver => Go(s.(flags := s.flags.With(ReceiveFile, true)), w, Top)
       case ToServer => Go(s.(flags := s.flags.With(SendFile, true)), w, Top)
       case _ => Go(s, w, Top))
  }

  function Do(s: State, a: Action): State
    requires Can(s, a)
  {
    match a
    case Start => s.(starter := Spawned)
    case Establish(ok) => EstablishNext(s, ok)
    case Disconnect => CallDisconnect(s)
    case Close(k) => CloseNext(s, k)
    case Signal => s.(flags := s.flags.With(SendMessage, true))
    case Run(w, o) => RunNext(s, w, o)
  }

  predicate CanAll(s: State, acts: seq<Action>)
    decreases |acts|
  {
    acts == [] || (Can(s, acts[0]) && CanAll(Do(s, acts[0]), acts[1..]))
  }

  function After(s: State, acts: seq<Action>): State
    requires CanAll(s, acts)
    decreases |acts|
  {
    if acts == [] then s else After(Do(s, acts[0]), acts[1..])
  }

  lemma {:induction false} Split(s: State, first: seq<Action>, rest: seq<Action>)
    requires CanAll(s, first + rest)
    ensures CanAll(s, first) && CanAll(After(s, first), rest)
    ensures After(After(s, first), rest) == After(s, first + rest)
    decreases |first|
  {
    if first == [] {
      assert first + rest == rest;
    } else {
      assert (first + rest)[1..] == first[1..] + rest;
      Split(Do(s, first[0]), first[1..], rest);
    }
  }

  // ----- What every step keeps -----

  predicate IsClosing(c: Closer) { c.ShuttingMessage? || c.ShuttingStream? }

  /** How far the life cycle has come. */
  function Phase(s: State): nat {
    if s.starter.NotStarted? || s.starter.Spawned? then 0
    else match s.conn
      case CONNECTING => 1
      case CONNECTED => 2
      case DISCONNECTING => 3
      case DISCONNECTED => 4
  }

  /** Only the workers with a flag wait, and only CoReceiveMessage reads headers. */
  predicate Placed(w: Worker, p: Place) {
    (p.Waiting? ==> !w.ReceiveMessage?) && (p.Header? ==> w.ReceiveMessage?)
  }

  predicate ClosingAt(s: State, k: nat)
    requires k < |s.closers|
  {
    Phase(s) == 3 && s.message == s.closers[k].ShuttingMessage? && s.stream
  }

  /** One closing run, from the moment the connection is DISCONNECTING until it ends. */
  ghost predicate ClosersInv(s: State) {
    && (Phase(s) == 3 ==> exists k :: 0 <= k < |s.closers| && IsClosing(s.closers[k]))
    && (forall k :: 0 <= k < |s.closers| && IsClosing(s.closers[k]) ==> ClosingAt(s, k))
    && (forall j, k :: 0 <= j < k < |s.closers| ==> !(IsClosing(s.closers[j]) && IsClosing(s.closers[k])))
  }

  ghost predicate Inv(s: State) {
    && (Phase(s) == 0 ==> s.conn.DISCONNECTED?)
    && (Phase(s) < 2 <==> !s.starter.Up?)
    && (s.starter.ConnectStream? || s.starter.HandshakeMessage? || s.starter.HandshakeStream? ==> s.message)
    && (s.starter.HandshakeStream? ==> s.stream)
    && (Phase(s) == 2 ==> s.message && s.stream)
    && (s.ended <==> Phase(s) == 4)
    && (s.ended ==> !s.message && !s.stream && s.flags == ALL_SET)
    && (forall w :: (s.workers.At(w).Unborn? <==> Phase(s) < 2) && Placed(w, s.workers.At(w)))
    && ClosersInv(s)
  }

  lemma EstablishInv(s: State, ok: bool)
    requires Inv(s) && Can(s, Establish(ok))
    ensures Inv(Do(s, Establish(ok))) && Phase(s) <= Phase(Do(s, Establish(ok))) <= Phase(s) + 1
  {
  }

  lemma CloseInv(s: State, k: nat)
    requires Inv(s) && Can(s, Close(k))
    ensures Inv(Do(s, Close(k))) && Phase(s) <= Phase(Do(s, Close(k))) <= Phase(s) + 1
  {
    var s' := Do(s, Close(k));
    assert s'.workers == s.workers && |s'.closers| == |s.closers|;
    assert forall j :: 0 <= j < |s.closers| && j != k ==> s'.closers[j] == s.closers[j];
    if Phase(s') == 3 {
      if Phase(s) == 3 {
        var j :| 0 <= j < |s.closers| && IsClosing(s.closers[j]);
        assert ClosingAt(s, j);
        assert IsClosing(s'.closers[j]);
      } else {
        assert IsClosing(s'.closers[k]);
      }
    }
  }

  /** Calling CoDisconnect once more changes nothing yet. */
  lemma OneMoreCall(s: State)
    requires ClosersInv(s)
    ensures ClosersInv(CallDisconnect(s))
  {
    var s' := CallDisconnect(s);
    assert forall j :: 0 <= j < |s.closers| ==> s'.closers[j] == s.closers[j];
    assert forall j :: 0 <= j < |s.closers| && IsClosing(s.closers[j]) ==> ClosingAt(s, j);
  }

  /**
   * What a worker's segment does: it moves that worker and may call CoDisconnect; a closed connection keeps its
   * flags.
   */
  ghost predicate Frame(s: State, s': State, w: Worker) {
    && s'.conn == s.conn && s'.message == s.message && s'.stream == s.stream && s'.starter == s.starter
      && s'.ended == s.ended
    && !s'.workers.At(w).Unborn? && Placed(w, s'.workers.At(w)) && s'.workers == s.workers.With(w, s'.workers.At(w))
    && (s'.closers == s.closers || s'.closers == s.closers + [Called])
    && (s.conn.DISCONNECTED? && s.flags == ALL_SET ==> s'.flags == ALL_SET)
  }

  lemma GoFrame(s: State, flags: Flags, w: Worker, p: Place)
    requires !p.Unborn? && Placed(w, p) && (s.conn.DISCONNECTED? && s.flags == ALL_SET ==> flags == ALL_SET)
    ensures var s' := Go(s.(flags := flags), w, p); Frame(s, s', w) && Frame(s, CallDisconnect(s'), w)
  {
  }

  lemma LoopHeadFrame(s: State, w: Worker, o: Outcome)
    requires s.workers.At(w).Top? && Possible(w, Top, o)
    ensures Frame(s, LoopHead(s, w, o), w)
  {
    if !s.conn.CONNECTED? || o.Missing? {
      GoFrame(s, s.flags, w, Left);
    } else if w.ReceiveMessage? {
      GoFrame(s, s.flags, w, Header(s.message));
    } else if o.Nothing? {
      GoFrame(s, s.flags.With(w, false), w, Waiting);
    } else {
      var flags := if w.SendFile? then s.flags.With(SendMessage, true) else s.flags;
      GoFrame(s, flags, w, if o.More? then Op(Open(s, w)) else Top);
      if !o.More? {
        assert s.workers.With(w, Top) == s.workers;
      }
    }
  }

  lemma OpFrame(s: State, w: Worker, o: Outcome)
    requires Can(s, Run(w, o)) && (s.workers.At(w).Header? || s.workers.At(w).Op?)
    ensures Frame(s, Do(s, Run(w, o)), w)
  {
    if o.Fails? {
      GoFrame(s, s.flags, w, Left);
    } else if o.More? {
      GoFrame(s, s.flags, w, Op(Open(s, w)));
    } else if o.ToReceiver? {
      GoFrame(s, s.flags.With(ReceiveFile, true), w, Top);
    } else if o.ToServer? {
      GoFrame(s, s.flags.With(SendFile, true), w, Top);
    } else {
      GoFrame(s, s.flags, w, Top);
    }
  }

  lemma RunFrame(s: State, w: Worker, o: Outcome)
    requires Can(s, Run(w, o))
    ensures Frame(s, Do(s, Run(w, o)), w)
  {
    if s.workers.At(w).Top? {
      LoopHeadFrame(s, w, o);
    } else if s.workers.At(w).Entry? || s.workers.At(w).Waiting? {
      GoFrame(s, s.flags, w, if s.workers.At(w).Waiting? || w.ReceiveMessage? then Top else Waiting);
      GoFrame(s, s.flags, w, Left);
    } else {
      OpFrame(s, w, o);
    }
  }

  lemma RunInv(s: State, w: Worker, o: Outcome)
    requires Inv(s) && Can(s, Run(w, o))
    ensures Inv(Do(s, Run(w, o))) && Phase(s) == Phase(Do(s, Run(w, o)))
  {
    assert s.workers.At(w).Unborn? <==> Phase(s) < 2;
    RunFrame(s, w, o);
    OneMoreCall(s);
    var s' := Do(s, Run(w, o));
    assert forall v :: v != w ==> s'.workers.At(v) == s.workers.At(v);
    assert ClosersInv(s') by {
      assert forall k :: 0 <= k < |s'.closers| && IsClosing(s'.closers[k]) ==> ClosingAt(CallDisconnect(s), k);
    }
  }

  lemma StepInv(s: State, a: Action)
    requires Inv(s) && Can(s, a)
    ensures Inv(Do(s, a)) && Phase(s) <= Phase(Do(s, a)) <= Phase(s) + 1
  {
    match a
    case Establish(ok) => EstablishInv(s, ok);
    case Close(k) => CloseInv(s, k);
    case Run(w, o) => RunInv(s, w, o);
    case Disconnect => OneMoreCall(s);
    case _ =>
  }

  lemma {:induction false} Reached(s: State, acts: seq<Action>)
    requires Inv(s) && CanAll(s, acts)
    ensures Inv(After(s, acts)) && Phase(s) <= Phase(After(s, acts))
    decreases |acts|
  {
    if acts != [] {
      StepInv(s, acts[0]);
      Reached(Do(s, acts[0]), acts[1..]);
    }
  }

  // ----- Monotone life cycle -----

  const LIFE := [DISCONNECTED, CONNECTING, CONNECTED, DISCONNECTING, DISCONNECTED]

  /** The connection states of a run, each change noted once. */
  function Visited(s: State, acts: seq<Action>): seq<ConnectionState>
    requires CanAll(s, acts)
    decreases |acts|
  {
    if acts == [] then [s.conn]
    else
      var later := Visited(Do(s, acts[0]), acts[1..]);
      if Do(s, acts[0]).conn == s.conn then later else [s.conn] + later
  }

  lemma LifeFrom(p: nat, q: nat)
    requires p <= q <= 4
    ensures LIFE[p..q + 1] == [LIFE[p]] + LIFE[p + 1..q + 1]
  {
  }

  lemma PhaseTellsState(s: State)
    requires Inv(s)
    ensures Phase(s) <= 4 && s.conn == LIFE[Phase(s)]
  {
  }

  lemma {:induction false} VisitedPhases(s: State, acts: seq<Action>)
    requires Inv(s) && CanAll(s, acts)
    ensures Phase(s) <= Phase(After(s, acts)) <= 4
    ensures Visited(s, acts) == LIFE[Phase(s)..Phase(After(s, acts)) + 1]
    decreases |acts|
  {
    PhaseTellsState(s);
    if acts != [] {
      var s' := Do(s, acts[0]);
      StepInv(s, acts[0]);
      PhaseTellsState(s');
      VisitedPhases(s', acts[1..]);
      LifeFrom(Phase(s), Phase(After(s, acts)));
    }
  }

  /** In every run the states come in this order, none skipped and none revisited; the last is reached by closing. */
  lemma LifeCycle(acts: seq<Action>)
    requires CanAll(INIT, acts)
    ensures Visited(INIT, acts) <= LIFE
    ensures Visited(INIT, acts) == LIFE <==> After(INIT, acts).ended
  {
    VisitedPhases(INIT, acts);
    Reached(INIT, acts);
  }

  // ----- One shutdown -----

  /** How many CoDisconnects of a run find the connection CONNECTED. */
  function Passes(s: State, acts: seq<Action>): nat
    requires CanAll(s, acts)
    decreases |acts|
  {
    if acts == [] then 0
    else
      (if acts[0].Close? && s.closers[acts[0].k].Called? && s.conn.CONNECTED? then 1 else 0)
      + Passes(Do(s, acts[0]), acts[1..])
  }

  /** A CoDisconnect leaves CONNECTED exactly when it passes the check. */
  lemma PassMoves(s: State, a: Action)
    requires Inv(s) && Can(s, a)
    ensures Phase(s) == 2 && Phase(Do(s, a)) == 3 <==> a.Close? && s.closers[a.k].Called? && s.conn.CONNECTED?
  {
  }

  lemma {:induction false} PassesOnce(s: State, acts: seq<Action>)
    requires Inv(s) && CanAll(s, acts)
    ensures Passes(s, acts) == if Phase(s) < 3 <= Phase(After(s, acts)) then 1 else 0
    decreases |acts|
  {
    if acts != [] {
      StepInv(s, acts[0]);
      Reached(Do(s, acts[0]), acts[1..]);
      PassesOnce(Do(s, acts[0]), acts[1..]);
      PassMoves(s, acts[0]);
    }
  }

  /** At most one CoDisconnect passes the check, and exactly one once the connection has left CONNECTED. */
  lemma SingleShutdown(acts: seq<Action>)
    requires CanAll(INIT, acts)
    ensures var s := After(INIT, acts);
      && Passes(INIT, acts) <= 1
      && (Passes(INIT, acts) == 1 <==> s.conn.DISCONNECTING? || s.ended)
  {
    Reached(INIT, acts);
    PassesOnce(INIT, acts);
  }

  /** A connected connection has both sockets open, so CoDisconnect never takes the exit that signals nobody. */
  lemma EarlyExitUnreachable(acts: seq<Action>, k: nat)
    requires CanAll(INIT, acts)
    ensures var s := After(INIT, acts);
      && (s.conn.CONNECTED? ==> s.message && s.stream)
      && (s.conn.CONNECTED? && k < |s.closers| && s.closers[k].Called? ==> Do(s, Close(k)).conn.DISCONNECTING?)
  {
    Reached(INIT, acts);
    var s := After(INIT, acts);
    assert s.conn.CONNECTED? ==> Phase(s) == 2;
  }

  /** While DISCONNECTING there is one closing run; two more of its segments at most, and it ends. */
  lemma ClosingRunEnds(acts: seq<Action>) returns (k: nat)
    requires CanAll(INIT, acts) && After(INIT, acts).conn.DISCONNECTING?
    ensures var s := After(INIT, acts);
      && k < |s.closers| && IsClosing(s.closers[k]) && Can(s, Close(k))
      && (Do(s, Close(k)).ended || (Can(Do(s, Close(k)), Close(k)) && Do(Do(s, Close(k)), Close(k)).ended))
  {
    Reached(INIT, acts);
    var s := After(INIT, acts);
    assert Phase(s) == 3;
    k :| 0 <= k < |s.closers| && IsClosing(s.closers[k]);
    assert ClosingAt(s, k);
  }

  /** A Start that failed stays CONNECTING for the object's life: no Disconnect gets past the check any more. */
  lemma {:induction false} FailedStartStays(s: State, acts: seq<Action>)
    requires Inv(s) && s.starter.Failed? && CanAll(s, acts)
    ensures After(s, acts).starter.Failed? && After(s, acts).conn.CONNECTING? && Passes(s, acts) == 0
    decreases |acts|
  {
    if acts != [] {
      StepInv(s, acts[0]);
      FailedStartStays(Do(s, acts[0]), acts[1..]);
    }
  }

  lemma CloseKeepsStarter(s: State, k: nat)
    requires Can(s, Close(k))
    ensures Do(s, Close(k)).starter == s.starter
  {
  }

  lemma FailureStep(s: State, a: Action)
    requires Can(s, a)
    ensures Do(s, a).starter.Failed? <==> s.starter.Failed? || a == Establish(false)
  {
    if a.Run? {
      RunFrame(s, a.w, a.o);
    } else if a.Close? {
      CloseKeepsStarter(s, a.k);
    }
  }

  /** A start has failed exactly when one of its operations has. */
  lemma {:induction false} FailedExactly(s: State, acts: seq<Action>)
    requires CanAll(s, acts)
    ensures After(s, acts).starter.Failed? <==> s.starter.Failed? || Establish(false) in acts
    decreases |acts|
  {
    if acts != [] {
      FailureStep(s, acts[0]);
      FailedExactly(Do(s, acts[0]), acts[1..]);
      assert acts == [acts[0]] + acts[1..];
    }
  }

  /** The first operation of a start may already be the one that fails. */
  lemma StartCanFail() returns (acts: seq<Action>)
    ensures CanAll(INIT, acts) && After(INIT, acts).starter.Failed? && After(INIT, acts).conn.CONNECTING?
  {
    acts := [Start, Establish(false)];
    assert acts[1..] == [Establish(false)] && acts[1..][1..] == [];
  }

  /** The operations a start has still to wait for. */
  function OperationsLeft(p: Starter): nat {
    match p
    case ConnectMessage => 4
    case HandshakeMessage => 3
    case ConnectStream => 2
    case HandshakeStream => 1
    case _ => 0
  }

  /** A start that has not failed can still connect. */
  lemma {:induction false} CanConnect(s: State) returns (more: seq<Action>)
    requires Inv(s) && s.conn.CONNECTING? && !s.starter.Failed?
    ensures CanAll(s, more) && After(s, more).conn.CONNECTED?
    decreases OperationsLeft(s.starter)
  {
    var s' := Do(s, Establish(true));
    EstablishInv(s, true);
    if s'.conn.CONNECTED? {
      more := [];
    } else {
      more := CanConnect(s');
    }
    assert ([Establish(true)] + more)[1..] == more;
    more := [Establish(true)] + more;
  }

  /** Exactly when a connection is CONNECTING for good: when its start has failed, which is when an operation has. */
  lemma StuckExactly(acts: seq<Action>)
    requires CanAll(INIT, acts) && After(INIT, acts).conn.CONNECTING?
    ensures var s := After(INIT, acts);
      && (s.starter.Failed? <==> Establish(false) in acts)
      && (s.starter.Failed? <==> forall more :: CanAll(s, more) ==> After(s, more).conn.CONNECTING?)
  {
    var s := After(INIT, acts);
    Reached(INIT, acts);
    FailedExactly(INIT, acts);
    if s.starter.Failed? {
      forall more | CanAll(s, more) ensures After(s, more).conn.CONNECTING? {
        FailedStartStays(s, more);
      }
    } else {
      var more := CanConnect(s);
      assert CanAll(s, more) && !After(s, more).conn.CONNECTING?;
    }
  }

  // ----- Flags and exits -----

  lemma FlagsAtHead(s: State, w: Worker, o: Outcome, v: Worker)
    requires s.workers.At(w).Top? && Possible(w, Top, o) && !v.ReceiveMessage?
    ensures LoopHead(s, w, o).flags.IsSet(v) <==>
      || (v.SendMessage? && w.SendFile? && s.conn.CONNECTED? && (o.More? || o.Finished?))
      || (s.flags.IsSet(v) && !(v == w && s.conn.CONNECTED? && o.Nothing?))
  {
  }

  lemma FlagsElsewhere(s: State, w: Worker, o: Outcome, v: Worker)
    requires Can(s, Run(w, o)) && !v.ReceiveMessage? && !s.workers.At(w).Top?
    ensures Do(s, Run(w, o)).flags.IsSet(v) <==>
      (v.ReceiveFile? && o.ToReceiver?) || (v.SendFile? && o.ToServer?) || s.flags.IsSet(v)
  {
  }

  /** Which flags a worker's segment leaves set: nobody else clears a worker's flag, and three events set one. */
  lemma FlagsAfter(s: State, w: Worker, o: Outcome, v: Worker)
    requires Can(s, Run(w, o)) && !v.ReceiveMessage?
    ensures var head := s.workers.At(w).Top? && s.conn.CONNECTED?;
      Do(s, Run(w, o)).flags.IsSet(v) <==>
        || (v.ReceiveFile? && o.ToReceiver?) || (v.SendFile? && o.ToServer?)
        || (v.SendMessage? && w.SendFile? && head && (o.More? || o.Finished?))
        || (s.flags.IsSet(v) && !(v == w && head && o.Nothing?))
  {
    if s.workers.At(w).Top? {
      FlagsAtHead(s, w, o, v);
    } else {
      FlagsElsewhere(s, w, o, v);
    }
  }

  /**
   * A worker in Wait can go on once the package, the request or the announcement meant for it has come, and with a
   * false flag not before.
   */
  lemma WakesItsWorker(s: State, w: Worker, o: Outcome, v: Worker)
    requires Can(s, Run(w, o)) && s.workers.At(v).Waiting? && v != w
    requires (v.ReceiveFile? && o.ToReceiver?) || (v.SendFile? && o.ToServer?)
      || (v.SendMessage? && w.SendFile? && s.workers.At(w).Top? && s.conn.CONNECTED? && (o.More? || o.Finished?))
    ensures Can(Do(s, Run(w, o)), Run(v, Nothing))
    ensures !s.flags.IsSet(v) ==> forall p :: !Can(s, Run(v, p))
  {
    RunFrame(s, w, o);
    FlagsAfter(s, w, o, v);
  }

  lemma AtHead(s: State, w: Worker, o: Outcome)
    requires s.workers.At(w).Top? && Possible(w, Top, o) && s.conn.CONNECTED?
    ensures LoopHead(s, w, o).workers.At(w).Left? <==> o.Missing?
    ensures LoopHead(s, w, o).closers == if o.Missing? then s.closers + [Called] else s.closers
  {
  }

  lemma Elsewhere(s: State, w: Worker, o: Outcome)
    requires Can(s, Run(w, o)) && s.conn.CONNECTED? && !s.workers.At(w).Top?
    ensures Do(s, Run(w, o)).workers.At(w).Left? <==> o.Fails?
    ensures Do(s, Run(w, o)).closers ==
      if o.Fails? && (w.SendMessage? || w.SendFile?) then s.closers + [Called] else s.closers
  {
  }

  /** While connected a worker leaves exactly on a failure or a missing file, and who calls CoDisconnect for it. */
  lemma LeavesExactly(s: State, w: Worker, o: Outcome)
    requires Can(s, Run(w, o)) && s.conn.CONNECTED?
    ensures Do(s, Run(w, o)).workers.At(w).Left? <==> o.Fails? || o.Missing?
    ensures Do(s, Run(w, o)).closers ==
      if o.Missing? || (o.Fails? && (w.SendMessage? || w.SendFile?)) then s.closers + [Called] else s.closers
  {
    if s.workers.At(w).Top? {
      AtHead(s, w, o);
    } else {
      Elsewhere(s, w, o);
    }
  }

  // ----- Quiescence -----

  /** The segments a worker may still have once the connection is closed. */
  function Rank(p: Place): nat {
    match p
    case Unborn => 0
    case Left => 0
    case Top => 1
    case Header(live) => if live then 2 else 1
    case Op(live) => if live then 2 else 1
    case _ => 2
  }

  function Load(ws: Workers): (n: nat)
    ensures n <= 8
  {
    Rank(ws.receiveMessage) + Rank(ws.receiveFile) + Rank(ws.sendMessage) + Rank(ws.sendFile)
  }

  function WorkerSteps(acts: seq<Action>): nat {
    if acts == [] then 0 else (if acts[0].Run? then 1 else 0) + WorkerSteps(acts[1..])
  }

  lemma WorkerStepLowers(s: State, w: Worker, o: Outcome)
    requires Inv(s) && s.ended && Can(s, Run(w, o))
    ensures Load(Do(s, Run(w, o)).workers) < Load(s.workers)
  {
    var s' := Do(s, Run(w, o));
    assert s'.workers == s.workers.With(w, s'.workers.At(w));
    assert Rank(s'.workers.At(w)) < Rank(s.workers.At(w));
  }

  /** The segment that takes a worker one step further towards its exit. */
  function Exit(p: Place): Outcome {
    if p.Header? || p.Op? then Fails else Nothing
  }

  lemma {:induction false} StaysClosed(s: State, acts: seq<Action>)
    requires Inv(s) && s.ended && CanAll(s, acts)
    ensures After(s, acts).ended && Inv(After(s, acts))
    ensures WorkerSteps(acts) + Load(After(s, acts).workers) <= Load(s.workers)
    decreases |acts|
  {
    if acts != [] {
      var a := acts[0];
      StepInv(s, a);
      if a.Run? {
        WorkerStepLowers(s, a.w, a.o);
      }
      StaysClosed(Do(s, a), acts[1..]);
    }
  }

  /**
   * Once a closing run has ended: the connection stays DISCONNECTED, no flag is ever reset again, the workers take
   * eight segments at most between them, and a worker that has not left can always take one.
   */
  lemma Quiescence(first: seq<Action>, rest: seq<Action>)
    requires CanAll(INIT, first + rest)
    requires CanAll(INIT, first) && After(INIT, first).ended
    ensures var s := After(INIT, first + rest);
      && s.conn.DISCONNECTED? && s.flags == ALL_SET && !s.message && !s.stream
      && WorkerSteps(rest) <= 8
      && forall w :: !s.workers.At(w).Left? ==> Can(s, Run(w, Exit(s.workers.At(w))))
  {
    Split(INIT, first, rest);
    Reached(INIT, first);
    StaysClosed(After(INIT, first), rest);
  }

  /** Any run that goes on until no worker can move has all four gone. */
  lemma AllLeave(first: seq<Action>, rest: seq<Action>)
    requires CanAll(INIT, first + rest)
    requires CanAll(INIT, first) && After(INIT, first).ended
    requires forall w, o :: !Can(After(INIT, first + rest), Run(w, o))
    ensures After(INIT, first + rest).workers == Workers(Left, Left, Left, Left)
  {
    Quiescence(first, rest);
    var s := After(INIT, first + rest);
    forall w ensures s.workers.At(w).Left? {
      assert !Can(s, Run(w, Exit(s.workers.At(w))));
    }
    assert s.workers.At(ReceiveMessage).Left? && s.workers.At(ReceiveFile).Left? && s.workers.At(SendMessage).Left?
      && s.workers.At(SendFile).Left?;
  }

  // ----- The object -----

  class TLSConnection {
    var connectionState: ConnectionState
    var socketOpen: bool
    var fileStreamSocketOpen: bool
    var receiveFileFlag: bool
    var sendMessageFlag: bool
    var sendFileFlag: bool

    // where its coroutines are suspended
    var starter: Starter
    var disconnects: seq<Closer>
    var workers: Workers

    // history: a CoDisconnect has reached its last line
    ghost var ended: bool

    ghost function View(): State
      reads this
    {
      State(connectionState, socketOpen, fileStreamSocketOpen, Flags(receiveFileFlag, sendMessageFlag, sendFileFlag),
            starter, disconnects, workers, ended)
    }

    constructor ()
      ensures View() == INIT && connectionState == DISCONNECTED && !socketOpen && !fileStreamSocketOpen
      ensures !receiveFileFlag && !sendMessageFlag && !sendFileFlag && starter == NotStarted && disconnects == []
    {
      connectionState, socketOpen, fileStreamSocketOpen := DISCONNECTED, false, false;
      receiveFileFlag, sendMessageFlag, sendFileFlag := false, false, false;
      starter, disconnects, workers, ended := NotStarted, [], Workers(Unborn, Unborn, Unborn, Unborn), false;
    }

    method CallCoDisconnect()
      modifies this`disconnects
      ensures disconnects == old(disconnects) + [Called]
    {
      disconnects := disconnects + [Called];
    }

    /** CoStart and CoSeek from one suspension to the next; `ok` is how the awaited operation went. */
    method CoStart(ok: bool)
      requires Can(View(), Establish(ok))
      modifies `connectionState, `socketOpen, `fileStreamSocketOpen, `starter, `disconnects, `workers
      ensures View() == Do(old(View()), Establish(ok))
      ensures disconnects == if ok then old(disconnects) else old(disconnects) + [Called]
      ensures starter ==
        if !ok then Failed
        else if old(starter).Spawned? then ConnectMessage
        else if old(starter).ConnectMessage? then HandshakeMessage
        else if old(starter).HandshakeMessage? then ConnectStream
        else if old(starter).ConnectStream? then HandshakeStream
        else Up
      ensures socketOpen == (old(socketOpen) || (ok && old(starter).ConnectMessage?))
      ensures fileStreamSocketOpen == (old(fileStreamSocketOpen) || (ok && old(starter).ConnectStream?))
      ensures connectionState ==
        if old(starter).Spawned? then CONNECTING
        else if ok && old(starter).HandshakeStream? then CONNECTED
        else old(connectionState)
      ensures workers ==
        if ok && old(starter).HandshakeStream? then Workers(Entry, Entry, Entry, Entry) else old(workers)
    {
      if starter.Spawned? {
        connectionState := CONNECTING;
      }
      if !ok {
        starter := Failed;
        CallCoDisconnect();
        return;
      }
      if starter.Spawned? {
        starter := ConnectMessage;
      } else if starter.ConnectMessage? {
        starter, socketOpen := HandshakeMessage, true;
      } else if starter.HandshakeMessage? {
        starter := ConnectStream;
      } else if starter.ConnectStream? {
        starter, fileStreamSocketOpen := HandshakeStream, true;
      } else {
        starter, connectionState := Up, CONNECTED;
        workers := Workers(Entry, Entry, Entry, Entry);
      }
    }

    /** The k-th CoDisconnect from one suspension to the next, through both calls of CoCloseSocket. */
    method CoDisconnect(k: nat)
      requires Can(View(), Close(k))
      modifies `connectionState, `socketOpen, `fileStreamSocketOpen, `receiveFileFlag, `sendMessageFlag, `sendFileFlag,
        `disconnects, `ended
      ensures View() == Do(old(View()), Close(k))
      ensures disconnects == old(disconnects)[k := disconnects[k]]
      ensures old(disconnects)[k].Called? ==>
        && unchanged(`socketOpen, `fileStreamSocketOpen)
        && connectionState == (if old(connectionState) != CONNECTED then old(connectionState)
          else if socketOpen || fileStreamSocketOpen then DISCONNECTING else DISCONNECTED)
        && disconnects[k] == if old(connectionState) != CONNECTED then Returned
          else if socketOpen then ShuttingMessage else if fileStreamSocketOpen then ShuttingStream else Returned
      ensures old(disconnects)[k].ShuttingMessage? ==>
        && !socketOpen && fileStreamSocketOpen == old(fileStreamSocketOpen)
        && disconnects[k] == if fileStreamSocketOpen then ShuttingStream else Returned
      ensures old(disconnects)[k].ShuttingStream? ==>
        !fileStreamSocketOpen && socketOpen == old(socketOpen) && disconnects[k] == Returned
      ensures if old(disconnects)[k].Called? || disconnects[k] != Returned then
          unchanged(`receiveFileFlag, `sendMessageFlag, `sendFileFlag, `ended)
        else connectionState == DISCONNECTED && receiveFileFlag && sendMessageFlag && sendFileFlag && ended
      ensures !old(disconnects)[k].Called? && disconnects[k] != Returned ==> connectionState == old(connectionState)
    {
      if disconnects[k].Called? {
        if connectionState != CONNECTED {
          disconnects := disconnects[k := Returned];
          return;
        }
        if !socketOpen && !fileStreamSocketOpen {
          connectionState, disconnects := DISCONNECTED, disconnects[k := Returned];
          return;
        }
        connectionState := DISCONNECTING;
        if socketOpen {
          disconnects := disconnects[k := ShuttingMessage];
          return;
        }
        if fileStreamSocketOpen {
          disconnects := disconnects[k := ShuttingStream];
          return;
        }
      } else if disconnects[k].ShuttingMessage? {
        socketOpen := false;
        if fileStreamSocketOpen {
          disconnects := disconnects[k := ShuttingStream];
          return;
        }
      } else {
        fileStreamSocketOpen := false;
      }
      connectionState := DISCONNECTED;
      receiveFileFlag := true;
      sendMessageFlag := true;
      sendFileFlag := true;
      disconnects, ended := disconnects[k := Returned], true;
    }

    /** CoSendMessage from one suspension to the next. */
    method CoSendMessage(o: Outcome)
      requires Can(View(), Run(SendMessage, o))
      modifies `sendMessageFlag, `disconnects, `workers
      ensures View() == Do(old(View()), Run(SendMessage, o))
      ensures disconnects == if o.Fails? then old(disconnects) + [Called] else old(disconnects)
      ensures var p, up := old(workers.sendMessage), connectionState == CONNECTED;
        && sendMessageFlag == (old(sendMessageFlag) && !(p.Top? && up && o.Nothing?))
        && workers == old(workers).(sendMessage :=
          if o.Fails? || ((p.Entry? || p.Top?) && !up) then Left
          else if p.Entry? || (p.Top? && o.Nothing?) then Waiting
          else if o.More? then Op(socketOpen) else Top)
    {
      var place := workers.sendMessage;
      if place.Entry? {
        place := if connectionState != CONNECTED then Left else Waiting;
      } else if place.Waiting? {
        place := Top;
      } else if place.Top? {
        if connectionState != CONNECTED {
          place := Left;
        } else if o.More? {
          place := Op(socketOpen);
        } else {
          sendMessageFlag := false;
          place := Waiting;
        }
      } else {
        place := Top;
        if o.Fails? {
          CallCoDisconnect();
          place := Left;
        }
      }
      workers := workers.(sendMessage := place);
    }

    /** CoSendFile from one suspension to the next. */
    method CoSendFile(o: Outcome)
      requires Can(View(), Run(SendFile, o))
      modifies `sendMessageFlag, `sendFileFlag, `disconnects, `workers
      ensures View() == Do(old(View()), Run(SendFile, o))
      ensures var p, up := old(workers.sendFile), connectionState == CONNECTED;
        && disconnects == (if o.Fails? || (up && o.Missing?) then old(disconnects) + [Called] else old(disconnects))
        && sendFileFlag == (old(sendFileFlag) && !(p.Top? && up && o.Nothing?))
        && sendMessageFlag == (old(sendMessageFlag) || (p.Top? && up && (o.More? || o.Finished?)))
        && workers == old(workers).(sendFile :=
          if o.Fails? || o.Missing? || ((p.Entry? || p.Top?) && !up) then Left
          else if p.Entry? || (p.Top? && o.Nothing?) then Waiting
          else if o.More? then Op(fileStreamSocketOpen) else Top)
    {
      var place := workers.sendFile;
      if place.Entry? {
        place := if connectionState != CONNECTED then Left else Waiting;
      } else if place.Waiting? {
        place := Top;
      } else if place.Top? {
        if connectionState != CONNECTED {
          place := Left;
        } else if o.Nothing? {
          sendFileFlag := false;
          place := Waiting;
        } else if o.Missing? {
          CallCoDisconnect();
          place := Left;
        } else {
          sendMessageFlag := true;
          place := if o.More? then Op(fileStreamSocketOpen) else Top;
        }
      } else {
        if o.Fails? {
          CallCoDisconnect();
          place := Left;
        } else {
          place := if o.More? then Op(fileStreamSocketOpen) else Top;
        }
      }
      workers := workers.(sendFile := place);
    }

    /** CoReceiveFile from one suspension to the next; an exception ends it without a Disconnect. */
    method CoReceiveFile(o: Outcome)
      requires Can(View(), Run(ReceiveFile, o))
      modifies `receiveFileFlag, `disconnects, `workers
      ensures View() == Do(old(View()), Run(ReceiveFile, o))
      ensures var p, up := old(workers.receiveFile), connectionState == CONNECTED;
        && disconnects == (if up && o.Missing? then old(disconnects) + [Called] else old(disconnects))
        && receiveFileFlag == (old(receiveFileFlag) && !(p.Top? && up && o.Nothing?))
        && workers == old(workers).(receiveFile :=
          if o.Fails? || o.Missing? || ((p.Entry? || p.Top?) && !up) then Left
          else if p.Entry? || (p.Top? && o.Nothing?) then Waiting
          else if o.More? then Op(fileStreamSocketOpen) else Top)
    {
      var place := workers.receiveFile;
      if place.Entry? {
        place := if connectionState != CONNECTED then Left else Waiting;
      } else if place.Waiting? {
        place := Top;
      } else if place.Top? {
        if connectionState != CONNECTED {
          place := Left;
        } else if o.Nothing? {
          receiveFileFlag := false;
          place := Waiting;
        } else if o.Missing? {
          CallCoDisconnect();
          place := Left;
        } else {
          place := if o.More? then Op(fileStreamSocketOpen) else Top;
        }
      } else {
        if o.Fails? {
          place := Left;
        } else {
          place := if o.More? then Op(fileStreamSocketOpen) else Top;
        }
      }
      workers := workers.(receiveFile := place);
    }

    /** CoReceiveMessage from one suspension to the next: a header, a body, and the package goes where its flags say. */
    method CoReceiveMessage(o: Outcome)
      requires Can(View(), Run(ReceiveMessage, o))
      modifies `receiveFileFlag, `sendFileFlag, `workers
      ensures View() == Do(old(View()), Run(ReceiveMessage, o))
      ensures receiveFileFlag == (old(receiveFileFlag) || o.ToReceiver?)
      ensures sendFileFlag == (old(sendFileFlag) || o.ToServer?)
      ensures var p, up := old(workers.receiveMessage), connectionState == CONNECTED;
        workers == old(workers).(receiveMessage :=
          if o.Fails? || ((p.Entry? || p.Top?) && !up) then Left
          else if p.Top? then Header(socketOpen)
          else if o.More? then Op(socketOpen) else Top)
    {
      var place := workers.receiveMessage;
      if place.Entry? {
        place := if connectionState != CONNECTED then Left else Top;
      } else if place.Top? {
        place := if connectionState != CONNECTED then Left else Header(socketOpen);
      } else if place.Waiting? {
        place := Top;
      } else {
        if o.Fails? {
          place := Left;
        } else if o.More? {
          place := Op(socketOpen);
        } else {
          place := Top;
          if o.ToReceiver? {
            receiveFileFlag := true;
          } else if o.ToServer? {
            sendFileFlag := true;
          }
        }
      }
      workers := workers.(receiveMessage := place);
    }
  }
}
