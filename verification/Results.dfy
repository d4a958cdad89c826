/** What a user of the file transfer can rely on, over all runs of two peers. */
module Results {
  import opened Bytes
  import opened Frames
  import opened Transfer
  import Disk
  import G = Progress
  import H = History
  import L = Ledger
  import P = Pipes
  import R = Refinement
  import W = Wire

  // ----- Files -----

  /** What is transferred of a file: its first bytes, as many as its size modulo 2^32. */
  lemma ContentIsPrefix(files: P.Files, path: Path)
    requires path in files
    ensures Content(files, path) <= files[path] && |Content(files, path)| == |files[path]| % 0x1_0000_0000
  {
    Wrap32IsMod(|files[path]|);
  }

  /** The whole file is transferred exactly when it is shorter than 4 GiB. */
  lemma WholeFileExactly(files: P.Files, path: Path)
    requires path in files
    ensures Content(files, path) == files[path] <==> |files[path]| < 0x1_0000_0000
  {
    if |files[path]| < U32 {
      assert files[path][..|files[path]|] == files[path];
    }
  }

  /** After any run the announced bytes of each direction are the bytes in flight and those still to be written. */
  lemma StreamsAligned(e: Envs, moves: seq<Move>)
    requires IsRun(e, START, moves)
    requires |After(e, START, moves).a.asks.issued| <= ID_SPACE && |After(e, START, moves).b.asks.issued| <= ID_SPACE
    ensures var s := After(e, START, moves);
      && (s.a.gets.receiver.Gone? || P.Aligned(e.b.files, R.Dir(s.a, s.b, s.ba)))
      && (s.b.gets.receiver.Gone? || P.Aligned(e.a.files, R.Dir(s.b, s.a, s.ab)))
  {
    R.StartInv(e);
    R.RunInv(e, START, moves);
  }

  /**
   * From node n to n' one file was stored: under its registered name, with its requested content, for the first time.
   */
  ghost predicate Stores(n: Node, n': Node, theirs: P.Files) {
    n.me.gets.receiver.Receiving? &&
    var id := n.me.gets.receiver.id;
    id < |n.me.asks.issued| &&
    var asked := n.me.asks.issued[id];
    && n'.me.gets.disk == n.me.gets.disk[asked.name := Content(theirs, asked.path)]
    && L.ClosedCount(id, n.me.gets.finished) == 0 && L.ClosedCount(id, n'.me.gets.finished) == 1
  }

  lemma NodeStores(env: Env, n: Node, other: Peer, theirs: P.Files)
    requires Can(env, n, Close)
    requires P.Inv(theirs, R.Dir(n.me, other, n.rx)) && L.Balanced(n.me, other, n.tx, n.rx)
    ensures Stores(n, Step(env, n, Close), theirs)
  {
    var Receiving(id, name, left, got) := n.me.gets.receiver;
    assert P.Owed(theirs, R.Dir(n.me, other, n.rx)) == [];
    assert got + [] == got;
    assert L.Located(id, n.me, other, n.tx, n.rx) == 1;
    L.ClosedAppend(id, n.me.gets.finished, Closed(id, name, got));
  }

  /** Whenever a peer closes a file, it stores the file requested under that id, once per request. */
  lemma CloseStores(e: Envs, moves: seq<Move>, m: Move)
    requires IsRun(e, START, moves) && CanMove(e, After(e, START, moves), m) && m.act == Close
    requires |After(e, START, moves).a.asks.issued| <= ID_SPACE && |After(e, START, moves).b.asks.issued| <= ID_SPACE
    ensures var s, s' := After(e, START, moves), Next(e, After(e, START, moves), m);
      if m.A? then Stores(NodeA(s), NodeA(s'), e.b.files) else Stores(NodeB(s), NodeB(s'), e.a.files)
  {
    R.StartInv(e);
    L.RunInv(e, START, moves);
    var s := After(e, START, moves);
    if m.A? {
      NodeStores(e.a, NodeA(s), s.b, e.b.files);
    } else {
      NodeStores(e.b, NodeB(s), s.a, e.a.files);
    }
  }

  /**
   * After every run either peer's directory holds the file closed last under each name, unless one is being received
   * there; and if its requests' names are distinct, it holds every closed request's content under that request's name.
   */
  lemma ClosedFilesOnDisk(e: Envs, moves: seq<Move>)
    requires IsRun(e, START, moves)
    requires |After(e, START, moves).a.asks.issued| <= ID_SPACE && |After(e, START, moves).b.asks.issued| <= ID_SPACE
    ensures var s := After(e, START, moves);
      && Disk.Holds(s.a.gets) && Disk.Holds(s.b.gets)
      && (Disk.DistinctNames(s.a.asks.issued) ==>
            forall i :: 0 <= i < |s.a.gets.finished| ==> Disk.OnDisk(s.a, e.b.files, s.a.gets.finished[i].id))
      && (Disk.DistinctNames(s.b.asks.issued) ==>
            forall i :: 0 <= i < |s.b.gets.finished| ==> Disk.OnDisk(s.b, e.a.files, s.b.gets.finished[i].id))
  {
    Disk.RunHolds(e, START, moves, true);
    Disk.RunHolds(e, START, moves, false);
    G.Reached(e, moves);
    var s := After(e, START, moves);
    if Disk.DistinctNames(s.a.asks.issued) {
      Disk.ClosedOnDisk(s.a, s.b, s.ab, s.ba, e.b.files);
    }
    if Disk.DistinctNames(s.b.asks.issued) {
      Disk.ClosedOnDisk(s.b, s.a, s.ba, s.ab, e.a.files);
    }
  }

  // ----- Request ids -----

  ghost predicate Distinct(ids: seq<nat>) {
    forall i, j :: 0 <= i < j < |ids| ==> ids[i] != ids[j]
  }

  /** The first n values of the counter are pairwise distinct exactly for n up to 2^64. */
  lemma DistinctExactly(ids: seq<nat>)
    requires H.CountFrom(ids, 0)
    ensures Distinct(ids) <==> |ids| <= ID_SPACE
  {
    if |ids| <= ID_SPACE {
      forall i, j | 0 <= i < j < |ids| ensures ids[i] != ids[j] {
        H.IdCounts(i);
        H.IdCounts(j);
      }
    } else {
      H.IdCounts(ID_SPACE - 1);
      assert ids[0] == ids[ID_SPACE];
    }
  }

  /**
   * In every run, of any length: each peer's counter stands at IdAt of its requests, its k-th call has got IdAt(k), and
   * the ids its calls have got are pairwise distinct exactly if there are at most 2^64 of them.
   */
  lemma IdsDistinctExactly(e: Envs, moves: seq<Move>, isA: bool)
    requires IsRun(e, START, moves)
    ensures var q, ids := H.NodeOf(After(e, START, moves), isA).me.asks, H.Ids(e, START, moves, isA);
      && |ids| == |q.issued| && q.nextId == H.IdAt(|ids|) && H.CountFrom(ids, 0)
      && (forall k :: 0 <= k < |ids| ==> ids[k] == k % 0x1_0000_0000_0000_0000)
      && (Distinct(ids) <==> |ids| <= 0x1_0000_0000_0000_0000)
  {
    H.IdsIssued(e, START, moves, isA);
    forall k | 0 <= k < |H.Ids(e, START, moves, isA)|
      ensures H.Ids(e, START, moves, isA)[k] == k % 0x1_0000_0000_0000_0000
    {
      H.IdAtIsMod(k);
    }
    DistinctExactly(H.Ids(e, START, moves, isA));
  }

  /** Between two peers running this code no announcement names an unknown id. */
  lemma UnknownIdUnreachable(e: Envs, moves: seq<Move>)
    requires IsRun(e, START, moves)
    requires |After(e, START, moves).a.asks.issued| <= ID_SPACE && |After(e, START, moves).b.asks.issued| <= ID_SPACE
    ensures var s := After(e, START, moves);
      && (forall x :: x in s.a.gets.queue ==> x.frame.Info? && x.frame.id in s.a.asks.names)
      && (forall x :: x in s.b.gets.queue ==> x.frame.Info? && x.frame.id in s.b.asks.names)
  {
    R.StartInv(e);
    R.RunInv(e, START, moves);
    var s := After(e, START, moves);
    R.InfosQueued(s.a, s.b, s.ba, e.b.files);
    R.InfosQueued(s.b, s.a, s.ab, e.a.files);
  }

  // ----- Queues -----

  /**
   * After every run each queue of each peer holds what has arrived for it and has not been taken up, in order; the two
   * file queues are drained whenever their worker is parked with its flag false.
   */
  lemma QueuesDrainInOrder(e: Envs, moves: seq<Move>, isA: bool, d: W.Destination)
    requires IsRun(e, START, moves)
    ensures var me, arrived := H.NodeOf(After(e, START, moves), isA).me, H.For(d, H.Arrived(e, START, moves, isA));
      && H.Drained(d, e, START, moves, isA) + H.Queue(d, me) == arrived
      && (d.ToSendFile? && me.serves.server.Parked? && !me.serves.flag
        ==> H.Drained(d, e, START, moves, isA) == arrived)
      && (d.ToReceiveFile? && me.gets.receiver.Idle? && !me.gets.flag ==> H.Drained(d, e, START, moves, isA) == arrived)
  {
    H.RunDrains(d, e, START, moves, isA);
    G.FileFlagsNeverLose(e, START, moves);
    var arrived := H.For(d, H.Arrived(e, START, moves, isA));
    H.NoneFirst(arrived);
    assert H.Drained(d, e, START, moves, isA) + [] == H.Drained(d, e, START, moves, isA);
  }

  /** What handlers have been called with is a prefix of all the flag-free packages received, across all threads. */
  lemma HandledIsPrefix(e: Envs, moves: seq<Move>, isA: bool)
    requires IsRun(e, START, moves)
    ensures var i := H.NodeOf(After(e, START, moves), isA).me.inbox;
      i.handled + i.queue == H.For(W.ToHandlers, H.Arrived(e, START, moves, isA))
  {
    QueuesDrainInOrder(e, moves, isA, W.ToHandlers);
    H.HandledIsDrained(e, START, moves, isA);
    H.NoneFirst(H.Drained(W.ToHandlers, e, START, moves, isA));
  }

  // ----- Completion -----

  /** Every requested path exists at the peer that is to serve it. */
  ghost predicate Servable(issued: seq<Asked>, files: P.Files) {
    forall i :: 0 <= i < |issued| ==> issued[i].path in files
  }

  /** The user does not disconnect and every download can be opened. */
  predicate Benign(a: Action) {
    !a.Disconnect? && (a.TakeInfo? ==> a.writable)
  }

  lemma StepConnected(env: Env, n: Node, a: Action, other: Peer, theirs: P.Files)
    requires Can(env, n, a) && Benign(a) && R.NodeInv(n, other, env.files, theirs)
    requires Servable(other.asks.issued, env.files)
    ensures n.me.connected ==> Step(env, n, a).me.connected
  {
    R.InfosQueued(n.me, other, n.rx, theirs);
    if a.Serve? && n.me.serves.queue != [] {
      var x := n.me.serves.queue[0];
      assert x in n.me.serves.queue && R.RequestOk(other, x);
    } else if a.TakeInfo? && n.me.gets.queue != [] {
      assert n.me.gets.queue[0] in n.me.gets.queue;
    }
  }

  lemma StepPrefix(env: Env, n: Node, a: Action)
    requires Can(env, n, a)
    ensures n.me.asks.issued <= Step(env, n, a).me.asks.issued
  {
  }

  lemma {:induction false} IssuedPrefix(e: Envs, s: Sys, moves: seq<Move>)
    requires IsRun(e, s, moves)
    ensures s.a.asks.issued <= After(e, s, moves).a.asks.issued && s.b.asks.issued <= After(e, s, moves).b.asks.issued
    decreases |moves|
  {
    if moves != [] {
      if moves[0].A? { StepPrefix(e.a, NodeA(s), moves[0].act); } else { StepPrefix(e.b, NodeB(s), moves[0].act); }
      IssuedPrefix(e, Next(e, s, moves[0]), moves[1..]);
    }
  }

  lemma {:induction false} StaysConnected(e: Envs, s: Sys, moves: seq<Move>)
    requires IsRun(e, s, moves) && R.Inv(e, s) && s.a.connected && s.b.connected
    requires forall i :: 0 <= i < |moves| ==> Benign(moves[i].act)
    requires var t := After(e, s, moves);
      && |t.a.asks.issued| <= ID_SPACE && |t.b.asks.issued| <= ID_SPACE
      && Servable(t.a.asks.issued, e.b.files) && Servable(t.b.asks.issued, e.a.files)
    ensures After(e, s, moves).a.connected && After(e, s, moves).b.connected
    decreases |moves|
  {
    if moves != [] {
      var m, s' := moves[0], Next(e, s, moves[0]);
      IssuedPrefix(e, s, moves);
      IssuedPrefix(e, s', moves[1..]);
      R.MoveInv(e, s, m);
      if m.A? {
        StepConnected(e.a, NodeA(s), m.act, s.b, e.b.files);
      } else {
        StepConnected(e.b, NodeB(s), m.act, s.a, e.a.files);
      }
      StaysConnected(e, s', moves[1..]);
    }
  }

  /** Under distinct names, every request's content is in the directory under the request's name. */
  ghost predicate AllDownloaded(r: Peer, files: P.Files) {
    Disk.DistinctNames(r.asks.issued) ==> forall id: nat :: id < |r.asks.issued| ==> Disk.OnDisk(r, files, id)
  }

  lemma CompleteOnDisk(e: Envs, moves: seq<Move>)
    requires IsRun(e, START, moves)
    requires var s := After(e, START, moves);
      && |s.a.asks.issued| <= ID_SPACE && |s.b.asks.issued| <= ID_SPACE
      && G.Complete(s.a, s.b) && G.Complete(s.b, s.a)
    ensures var s := After(e, START, moves); AllDownloaded(s.a, e.b.files) && AllDownloaded(s.b, e.a.files)
  {
    Disk.RunHolds(e, START, moves, true);
    Disk.RunHolds(e, START, moves, false);
    G.Reached(e, moves);
    var s := After(e, START, moves);
    if Disk.DistinctNames(s.a.asks.issued) {
      Disk.AllOnDisk(s.a, s.b, s.ab, s.ba, e.b.files);
    }
    if Disk.DistinctNames(s.b.asks.issued) {
      Disk.AllOnDisk(s.b, s.a, s.ba, s.ab, e.a.files);
    }
  }

  /** All that has been asked for is there, each file once and as it was requested, and every message handled. */
  ghost predicate Fulfilled(e: Envs, s: Sys) {
    && G.Complete(s.a, s.b) && G.Complete(s.b, s.a)
    && (forall c :: c in s.a.gets.finished ==> P.Delivered(e.b.files, s.a.asks.issued, c))
    && (forall c :: c in s.b.gets.finished ==> P.Delivered(e.a.files, s.b.asks.issued, c))
    && AllDownloaded(s.a, e.b.files) && AllDownloaded(s.b, e.a.files)
  }

  lemma CompleteIsFulfilled(e: Envs, moves: seq<Move>)
    requires IsRun(e, START, moves)
    requires var s := After(e, START, moves);
      && |s.a.asks.issued| <= ID_SPACE && |s.b.asks.issued| <= ID_SPACE
      && G.Complete(s.a, s.b) && G.Complete(s.b, s.a)
    ensures Fulfilled(e, After(e, START, moves))
  {
    R.Integrity(e, moves);
    CompleteOnDisk(e, moves);
  }

  /** The users of both peers disconnect nothing, and send from the io thread. */
  predicate Peaceful(moves: seq<Move>) {
    forall i :: 0 <= i < |moves| ==> Benign(moves[i].act) && G.OnIo(moves[i].act)
  }

  lemma QuietIsFulfilled(e: Envs, moves: seq<Move>)
    requires IsRun(e, START, moves) && G.Roomy(e) && Peaceful(moves)
    requires var s := After(e, START, moves);
      && |s.a.asks.issued| <= ID_SPACE && |s.b.asks.issued| <= ID_SPACE
      && Servable(s.a.asks.issued, e.b.files) && Servable(s.b.asks.issued, e.a.files)
    ensures G.AllQuiet(e, After(e, START, moves)) ==> Fulfilled(e, After(e, START, moves))
  {
    R.StartInv(e);
    StaysConnected(e, START, moves);
    G.IoSendsComplete(e, moves);
    if G.AllQuiet(e, After(e, START, moves)) {
      CompleteIsFulfilled(e, moves);
    }
  }

  /**
   * The transfer's promise. Let both peers make any requests and sends from the io thread, for files that exist and
   * can be opened on both sides. Whatever happened so far, the work then left is bounded, and wherever it stops, every
   * request has been answered exactly once with its file, every message has been handled, and if a peer's requests
   * have distinct names, its directory holds under each of them the content requested.
   */
  lemma {:induction false} EveryRunCompletes(e: Envs, moves: seq<Move>, work: seq<Move>)
    requires IsRun(e, START, moves + work) && G.AllWork(work) && G.Roomy(e) && Peaceful(moves + work)
    requires var s := After(e, START, moves + work);
      && |s.a.asks.issued| <= ID_SPACE && |s.b.asks.issued| <= ID_SPACE
      && Servable(s.a.asks.issued, e.b.files) && Servable(s.b.asks.issued, e.a.files)
    ensures IsRun(e, START, moves) && |work| <= G.SysLoad(e, After(e, START, moves))
    ensures G.AllQuiet(e, After(e, START, moves + work)) ==> Fulfilled(e, After(e, START, moves + work))
  {
    RunSplit(e, START, moves, work);
    G.WorkIsBounded(e, After(e, START, moves), work);
    QuietIsFulfilled(e, moves + work);
  }
}
