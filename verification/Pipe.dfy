/**
 * The ideal file transfer in one direction: requests are answered in some order by announcements, and the
 * announced files follow as one byte stream. The two-peer protocol refines two of these.
 */
module Pipes {
  import opened Bytes
  import opened Frames
  import opened Transfer

  /** `infos` are the announcements not yet taken up, `rest` the announced bytes not yet written to the socket. */
  datatype Pipe = Pipe(
    issued: seq<Asked>, names: map<nat, Path>, infos: seq<Item>, receiver: Receiver,
    bytes: seq<byte>, rest: seq<byte>, finished: seq<Closed>)

  datatype Event =
    | Stutter
    | Ask(asked: Asked)
    | Register(id: nat)
    | Announce(x: Item)
    | Push(k: nat)
    | Look(receiver: Receiver)
    | Take
    | Lose
    | Pull(k: nat)
    | Finish

  type Files = map<Path, seq<byte>>

  /** The bytes request id must deliver. */
  function Body(files: Files, issued: seq<Asked>, id: nat): seq<byte> {
    if id < |issued| then Content(files, issued[id].path) else []
  }

  function Contents(files: Files, issued: seq<Asked>, infos: seq<Item>): seq<byte> {
    if infos == [] then [] else
      (if infos[0].frame.Info? then Body(files, issued, infos[0].frame.id) else [])
        + Contents(files, issued, infos[1..])
  }

  /** What the file being received still lacks. */
  function Owed(files: Files, p: Pipe): seq<byte> {
    match p.receiver
    case Receiving(id, _, left, got) => var c := Body(files, p.issued, id); if |got| <= |c| then c[|got|..] else []
    case _ => []
  }

  ghost predicate Known(issued: seq<Asked>, names: map<nat, Path>, id: nat) {
    id < |issued| && id in names && names[id] == issued[id].name
  }

  ghost predicate InfoOk(files: Files, issued: seq<Asked>, names: map<nat, Path>, x: Item) {
    x.frame.Info? && Known(issued, names, x.frame.id) && x.frame.size == |Body(files, issued, x.frame.id)|
  }

  ghost predicate ReceiverOk(files: Files, p: Pipe) {
    p.receiver.Receiving? ==>
      var Receiving(id, name, left, got) := p.receiver;
      Known(p.issued, p.names, id) && name == p.issued[id].name && got + Owed(files, p) == Body(files, p.issued, id)
      && left == |Owed(files, p)|
  }

  /** Stored under the registered name, with exactly the bytes of the requested path. */
  ghost predicate Delivered(files: Files, issued: seq<Asked>, c: Closed) {
    c.id < |issued| && c.name == issued[c.id].name && c.data == Content(files, issued[c.id].path)
  }

  ghost predicate Names(issued: seq<Asked>, names: map<nat, Path>) {
    forall id :: id in names ==> Known(issued, names, id)
  }

  /** The bytes still owed by announcements are the bytes in flight and then the bytes yet to be written. */
  ghost predicate Aligned(files: Files, p: Pipe) {
    Owed(files, p) + Contents(files, p.issued, p.infos) == p.bytes + p.rest
  }

  ghost predicate Inv(files: Files, p: Pipe) {
    && Names(p.issued, p.names)
    && (forall x :: x in p.infos ==> InfoOk(files, p.issued, p.names, x))
    && ReceiverOk(files, p)
    && (forall c :: c in p.finished ==> Delivered(files, p.issued, c))
    && (p.receiver.Gone? || Aligned(files, p))
  }

  ghost predicate Can(files: Files, p: Pipe, e: Event) {
    match e
    case Stutter => true
    case Ask(_) => true
    case Register(id) => id < |p.issued|
    case Announce(x) => InfoOk(files, p.issued, p.names, x) && p.rest == []
    case Push(k) => k <= |p.rest|
    case Look(r) => (r.Idle? || r.Looking?) && (p.receiver.Idle? || p.receiver.Looking?)
    case Take => p.receiver.Looking? && p.infos != [] && InfoOk(files, p.issued, p.names, p.infos[0])
    case Lose => p.infos != []
    case Pull(k) => p.receiver.Receiving? && k <= p.receiver.left && k <= |p.bytes|
    case Finish => p.receiver.Receiving? && p.receiver.left == 0
  }

  ghost function Do(files: Files, p: Pipe, e: Event): Pipe
    requires Can(files, p, e)
  {
    match e
    case Stutter => p
    case Ask(asked) => p.(issued := p.issued + [asked])
    case Register(id) => p.(names := p.names[id := p.issued[id].name])
    case Announce(x) => p.(infos := p.infos + [x], rest := Body(files, p.issued, x.frame.id))
    case Push(k) => p.(bytes := p.bytes + p.rest[..k], rest := p.rest[k..])
    case Look(r) => p.(receiver := r)
    case Take =>
      var f := p.infos[0].frame;
      p.(infos := p.infos[1..], receiver := Receiving(f.id, p.names[f.id], f.size, []))
    case Lose => p.(infos := p.infos[1..], receiver := Gone(if p.infos[0].frame.Info? then p.infos[0].frame.id else 0))
    case Pull(k) =>
      p.(receiver := p.receiver.(left := p.receiver.left - k, got := p.receiver.got + p.bytes[..k]),
        bytes := p.bytes[k..])
    case Finish =>
      var r := p.receiver;
      p.(receiver := Looking, finished := p.finished + [Closed(r.id, r.name, r.got)])
  }

  lemma {:induction false} ContentsConcat(files: Files, issued: seq<Asked>, a: seq<Item>, b: seq<Item>)
    ensures Contents(files, issued, a + b) == Contents(files, issued, a) + Contents(files, issued, b)
  {
    if a == [] {
      assert a + b == b;
    } else {
      var first := if a[0].frame.Info? then Body(files, issued, a[0].frame.id) else [];
      ContentsConcat(files, issued, a[1..], b);
      assert (a + b)[1..] == a[1..] + b;
      Grouped(first, Contents(files, issued, a[1..]), Contents(files, issued, b));
    }
  }

  lemma {:induction false} ContentsGrow(files: Files, issued: seq<Asked>, more: seq<Asked>, infos: seq<Item>)
    requires forall x :: x in infos ==> x.frame.Info? && x.frame.id < |issued|
    ensures Contents(files, issued + more, infos) == Contents(files, issued, infos)
  {
    if infos != [] {
      assert infos[0] in infos;
      ContentsGrow(files, issued, more, infos[1..]);
    }
  }

  lemma AskInv(files: Files, p: Pipe, asked: Asked)
    requires Inv(files, p)
    ensures Inv(files, Do(files, p, Ask(asked)))
  {
    ContentsGrow(files, p.issued, [asked], p.infos);
  }

  /** The announced file's bytes come last among those owed, as among those to be written. */
  lemma AnnounceAligned(files: Files, p: Pipe, x: Item)
    requires Can(files, p, Announce(x)) && Aligned(files, p)
    ensures Aligned(files, Do(files, p, Announce(x)))
  {
    var body, owed, later := Body(files, p.issued, x.frame.id), Owed(files, p), Contents(files, p.issued, p.infos);
    ContentsConcat(files, p.issued, p.infos, [x]);
    assert Contents(files, p.issued, [x]) == body by { assert [x][1..] == []; }
    assert owed + (later + body) == (owed + later) + body == p.bytes + body;
  }

  lemma AnnounceInv(files: Files, p: Pipe, x: Item)
    requires Inv(files, p) && Can(files, p, Announce(x))
    ensures Inv(files, Do(files, p, Announce(x)))
  {
    if Aligned(files, p) {
      AnnounceAligned(files, p, x);
    }
  }

  lemma PullInv(files: Files, p: Pipe, k: nat)
    requires Inv(files, p) && Can(files, p, Pull(k))
    ensures Inv(files, Do(files, p, Pull(k)))
  {
    var q := Do(files, p, Pull(k));
    var owed, later := Owed(files, p), Contents(files, p.issued, p.infos);
    assert owed[..k] == (owed + later)[..k] == (p.bytes + p.rest)[..k] == p.bytes[..k];
    assert q.receiver.got == p.receiver.got + owed[..k];
    assert Body(files, p.issued, p.receiver.id)[|p.receiver.got| + k..] == owed[k..];
    assert Owed(files, q) == owed[k..];
    assert owed == owed[..k] + owed[k..];
    assert (owed + later)[k..] == owed[k..] + later;
    assert (p.bytes + p.rest)[k..] == p.bytes[k..] + p.rest;
  }

  lemma PushInv(files: Files, p: Pipe, k: nat)
    requires Inv(files, p) && Can(files, p, Push(k))
    ensures Inv(files, Do(files, p, Push(k)))
  {
    assert (p.bytes + p.rest[..k]) + p.rest[k..] == p.bytes + p.rest;
  }

  lemma TakeInv(files: Files, p: Pipe)
    requires Inv(files, p) && Can(files, p, Take)
    ensures Inv(files, Do(files, p, Take))
  {
    var q := Do(files, p, Take);
    var body := Body(files, p.issued, p.infos[0].frame.id);
    var later := Contents(files, p.issued, q.infos);
    assert q.receiver.got + body == body;
    assert Owed(files, q) + later == body + later == [] + (body + later)
      == Owed(files, p) + Contents(files, p.issued, p.infos);
  }

  lemma FinishInv(files: Files, p: Pipe)
    requires Inv(files, p) && Can(files, p, Finish)
    ensures Inv(files, Do(files, p, Finish))
  {
    var q, r := Do(files, p, Finish), p.receiver;
    assert Owed(files, p) == [];
    assert r.got + [] == r.got;
    forall c | c in q.finished ensures Delivered(files, q.issued, c) {
      assert c in p.finished || c == Closed(r.id, r.name, r.got);
    }
  }

  /** Every event keeps the pipe aligned and everything delivered so far correct. */
  lemma EventInv(files: Files, p: Pipe, e: Event)
    requires Inv(files, p) && Can(files, p, e)
    ensures Inv(files, Do(files, p, e))
  {
    match e
    case Ask(asked) => AskInv(files, p, asked);
    case Announce(x) => AnnounceInv(files, p, x);
    case Push(k) => PushInv(files, p, k);
    case Pull(k) => PullInv(files, p, k);
    case Take => TakeInv(files, p);
    case Finish => FinishInv(files, p);
    case _ =>
  }
}
