/** The download directory: what it holds under the names of the files that have been closed. */
module Disk {
  import opened Transfer
  import H = History
  import L = Ledger
  import P = Pipes
  import R = Refinement

  /** The i-th file closed is the last one closed under its name. */
  ghost predicate LastUnder(finished: seq<Closed>, i: nat) {
    i < |finished| && forall j :: i < j < |finished| ==> finished[j].name != finished[i].name
  }

  predicate HoldsFile(g: Getting, c: Closed) {
    c.name in g.disk && (g.disk[c.name] == c.data || (g.receiver.Receiving? && g.receiver.name == c.name))
  }

  /** The file closed last under a name is what the directory holds there, unless one is being received there. */
  ghost predicate Holds(g: Getting) {
    forall i :: 0 <= i < |g.finished| && LastUnder(g.finished, i) ==> HoldsFile(g, g.finished[i])
  }

  lemma CloseHolds(env: Env, n: Node)
    requires Can(env, n, Close) && Holds(n.me.gets)
    ensures Holds(Step(env, n, Close).me.gets)
  {
    var g, g' := n.me.gets, Step(env, n, Close).me.gets;
    var last := |g.finished|;
    forall i | 0 <= i < |g'.finished| && LastUnder(g'.finished, i) ensures HoldsFile(g', g'.finished[i]) {
      if i < last {
        assert g'.finished[i] == g.finished[i] && g'.finished[last].name != g.finished[i].name;
        assert forall j :: i < j < last ==> g'.finished[j] == g.finished[j];
        assert LastUnder(g.finished, i);
      }
    }
  }

  /** Opening a file truncates it, and the receiver is at it from then on. */
  lemma TakeHolds(env: Env, n: Node, writable: bool)
    requires Can(env, n, TakeInfo(writable)) && Holds(n.me.gets)
    ensures Holds(Step(env, n, TakeInfo(writable)).me.gets)
  {
    var g, g' := n.me.gets, TakeNext(n.me, writable).gets;
    forall i | 0 <= i < |g'.finished| && LastUnder(g'.finished, i) ensures HoldsFile(g', g'.finished[i]) {
      assert LastUnder(g.finished, i) && HoldsFile(g, g.finished[i]);
    }
  }

  lemma StepHolds(env: Env, n: Node, a: Action)
    requires Can(env, n, a) && Holds(n.me.gets)
    ensures Holds(Step(env, n, a).me.gets)
  {
    if a.Close? {
      CloseHolds(env, n);
    } else if a.TakeInfo? {
      TakeHolds(env, n, a.writable);
    } else {
      var g, g' := n.me.gets, Step(env, n, a).me.gets;
      assert g'.finished == g.finished && g'.disk == g.disk;
      assert g.receiver.Receiving? ==> g'.receiver.Receiving? && g'.receiver.name == g.receiver.name;
    }
  }

  /** In every reachable state the directory of either peer holds the file closed last under each name. */
  lemma {:induction false} RunHolds(e: Envs, s: Sys, moves: seq<Move>, isA: bool)
    requires IsRun(e, s, moves) && Holds(H.NodeOf(s, isA).me.gets)
    ensures Holds(H.NodeOf(After(e, s, moves), isA).me.gets)
    decreases |moves|
  {
    if moves != [] {
      H.MoveOf(e, s, moves[0], isA);
      if moves[0].A? == isA {
        StepHolds(H.EnvOf(e, isA), H.NodeOf(s, isA), moves[0].act);
      }
      RunHolds(e, Next(e, s, moves[0]), moves[1..], isA);
    }
  }

  // ----- Distinct names -----

  ghost predicate DistinctNames(issued: seq<Asked>) {
    forall i, j :: 0 <= i < j < |issued| ==> issued[i].name != issued[j].name
  }

  lemma {:induction false} ClosedOnceCounts(id: nat, s: seq<Closed>, i: nat)
    requires i < |s| && s[i].id == id
    ensures L.ClosedCount(id, s) > 0
  {
    if i > 0 {
      ClosedOnceCounts(id, s[1..], i - 1);
    }
  }

  lemma {:induction false} ClosedTwiceCounts(id: nat, s: seq<Closed>, i: nat, j: nat)
    requires i < j < |s| && s[i].id == id && s[j].id == id
    ensures L.ClosedCount(id, s) > 1
  {
    if i > 0 {
      ClosedTwiceCounts(id, s[1..], i - 1, j - 1);
    } else {
      ClosedOnceCounts(id, s[1..], j - 1);
    }
  }

  lemma {:induction false} CountedIsClosed(id: nat, s: seq<Closed>) returns (i: nat)
    requires L.ClosedCount(id, s) > 0
    ensures i < |s| && s[i].id == id
  {
    if s[0].id == id {
      i := 0;
    } else {
      i := CountedIsClosed(id, s[1..]);
      i := i + 1;
    }
  }

  /** Under distinct names no other file ever comes to a closed file's place. */
  lemma ClosedIsLast(r: Peer, s: Peer, up: Link, down: Link, files: P.Files, i: nat)
    requires L.Balanced(r, s, up, down) && P.Inv(files, R.Dir(r, s, down)) && DistinctNames(r.asks.issued)
    requires i < |r.gets.finished|
    ensures LastUnder(r.gets.finished, i)
    ensures r.gets.receiver.Receiving? ==> r.gets.receiver.name != r.gets.finished[i].name
  {
    var fs, c := r.gets.finished, r.gets.finished[i];
    assert c in R.Dir(r, s, down).finished && P.Delivered(files, r.asks.issued, c);
    assert L.Located(c.id, r, s, up, down) == 1;
    ClosedOnceCounts(c.id, fs, i);
    forall j | i < j < |fs| ensures fs[j].name != c.name {
      assert fs[j] in R.Dir(r, s, down).finished && P.Delivered(files, r.asks.issued, fs[j]);
      if fs[j].id == c.id {
        ClosedTwiceCounts(c.id, fs, i, j);
      }
    }
  }

  /** Request id's file is in the directory, under its name and with its content. */
  ghost predicate OnDisk(r: Peer, files: P.Files, id: nat) {
    id < |r.asks.issued| &&
    var asked := r.asks.issued[id];
    asked.name in r.gets.disk && r.gets.disk[asked.name] == Content(files, asked.path)
  }

  /** With distinct names, what a request's name leads to once its file is closed is the content it asked for. */
  lemma ClosedOnDisk(r: Peer, s: Peer, up: Link, down: Link, files: P.Files)
    requires L.Balanced(r, s, up, down) && P.Inv(files, R.Dir(r, s, down)) && DistinctNames(r.asks.issued)
    requires Holds(r.gets)
    ensures forall i :: 0 <= i < |r.gets.finished| ==> OnDisk(r, files, r.gets.finished[i].id)
  {
    forall i | 0 <= i < |r.gets.finished| ensures OnDisk(r, files, r.gets.finished[i].id) {
      var c := r.gets.finished[i];
      ClosedIsLast(r, s, up, down, files, i);
      assert HoldsFile(r.gets, c);
      assert c in R.Dir(r, s, down).finished && P.Delivered(files, r.asks.issued, c);
    }
  }

  /** Once every request has a closed file, every request's file is in the directory. */
  lemma AllOnDisk(r: Peer, s: Peer, up: Link, down: Link, files: P.Files)
    requires L.Balanced(r, s, up, down) && P.Inv(files, R.Dir(r, s, down)) && DistinctNames(r.asks.issued)
    requires Holds(r.gets) && forall id: nat :: L.ClosedCount(id, r.gets.finished) == L.One(id < |r.asks.issued|)
    ensures forall id: nat :: id < |r.asks.issued| ==> OnDisk(r, files, id)
  {
    ClosedOnDisk(r, s, up, down, files);
    forall id: nat | id < |r.asks.issued| ensures OnDisk(r, files, id) {
      assert L.ClosedCount(id, r.gets.finished) == 1;
      var i := CountedIsClosed(id, r.gets.finished);
    }
  }
}
