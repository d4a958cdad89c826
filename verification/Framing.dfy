/** The message socket's framing: a 12-byte header in network order, then header.size body bytes. */
module Framing {
  import opened Bytes
  import opened Packages

  const HEADER: nat := 12

  /** A package as it crosses the wire. */
  datatype Packet = Packet(typ: nat, flags: byte, body: seq<byte>) {
    predicate Fits() {
      typ < 0x1_0000 && |body| < U32
    }
  }

  /** One write of CoSendMessage; the struct's five padding bytes go out with whatever they hold. */
  datatype Written = Written(p: Packet, pad: seq<byte>) {
    predicate Fits() {
      p.Fits() && |pad| == 5
    }
  }

  function HeaderBytes(w: Written): (s: seq<byte>)
    requires w.Fits()
    ensures |s| == HEADER
  {
    ToBE(2, w.p.typ) + w.pad[..2] + ToBE(4, |w.p.body|) + [w.p.flags] + w.pad[2..]
  }

  ghost predicate AllFit(ws: seq<Written>) {
    forall i :: 0 <= i < |ws| ==> ws[i].Fits()
  }

  /** What CoSendMessage puts on the socket. */
  function Stream(ws: seq<Written>): seq<byte>
    requires AllFit(ws)
  {
    if ws == [] then [] else HeaderBytes(ws[0]) + ws[0].p.body + Stream(ws[1..])
  }

  function PacketsOf(ws: seq<Written>): (ps: seq<Packet>)
    ensures |ps| == |ws|
  {
    if ws == [] then [] else [ws[0].p] + PacketsOf(ws[1..])
  }

  datatype Header = Header(typ: nat, size: nat, flags: byte)

  /** FromBigEndianToNative on the header struct's memory. */
  function ReadHeader(s: seq<byte>): Header
    requires |s| >= HEADER
  {
    Header(FromBE(s[..2]), FromBE(s[4..8]), s[8])
  }

  /** A whole package stands at the front of s. */
  predicate Complete(s: seq<byte>) {
    |s| >= HEADER && |s| - HEADER >= ReadHeader(s).size
  }

  function First(s: seq<byte>): Packet
    requires Complete(s)
  {
    var h := ReadHeader(s);
    Packet(h.typ, h.flags, s[HEADER..HEADER + h.size])
  }

  function Tail(s: seq<byte>): (t: seq<byte>)
    requires Complete(s)
    ensures |t| < |s|
  {
    s[HEADER + ReadHeader(s).size..]
  }

  /** What CoReceiveMessage makes of a stream: the packages it completes and the bytes left over. */
  function Parse(s: seq<byte>): (seq<Packet>, seq<byte>)
    decreases |s|
  {
    if !Complete(s) then ([], s) else ([First(s)] + Parse(Tail(s)).0, Parse(Tail(s)).1)
  }

  lemma HeaderBack(w: Written)
    requires w.Fits()
    ensures ReadHeader(HeaderBytes(w)) == Header(w.p.typ, |w.p.body|, w.p.flags)
  {
    var s := HeaderBytes(w);
    assert s[..2] == ToBE(2, w.p.typ) && s[4..8] == ToBE(4, |w.p.body|) && s[8] == w.p.flags;
    Pow256Values();
    ReadBE(2, w.p.typ);
    ReadBE(4, |w.p.body|);
  }

  /** The header as bytes: the type, two bytes of padding, the size, the flags, three bytes of padding. */
  lemma HeaderLayout(w: Written)
    requires w.Fits()
    ensures var s := HeaderBytes(w);
      && |s| == 12 && s[0] as int * 256 + s[1] == w.p.typ && s[2..4] == w.pad[..2]
      && ((s[4] as int * 256 + s[5]) * 256 + s[6]) * 256 + s[7] == |w.p.body|
      && s[8] == w.p.flags && s[9..] == w.pad[2..]
  {
    HeaderBack(w);
    WordOrder(HeaderBytes(w)[..2]);
    WordOrder(HeaderBytes(w)[4..8]);
  }

  /** What is read off the front of the incoming bytes. */
  lemma PackageLayout(s: seq<byte>)
    requires |s| >= 12
    ensures var n := ((s[4] as int * 256 + s[5]) * 256 + s[6]) * 256 + s[7];
      && (Complete(s) <==> |s| >= 12 + n)
      && (Complete(s) ==> First(s) == Packet(s[0] as int * 256 + s[1], s[8], s[12..12 + n]) && Tail(s) == s[12 + n..])
  {
    WordOrder(s[..2]);
    WordOrder(s[4..8]);
  }

  lemma Assembled(head: seq<byte>, body: seq<byte>, tail: seq<byte>)
    requires |head| == HEADER && ReadHeader(head).size == |body|
    ensures var s := head + body + tail;
      Complete(s) && First(s) == Packet(ReadHeader(head).typ, ReadHeader(head).flags, body) && Tail(s) == tail
  {
    var s := head + body + tail;
    assert s[..2] == head[..2] && s[4..8] == head[4..8] && s[8] == head[8];
    assert s[HEADER..HEADER + |body|] == body && s[HEADER + |body|..] == tail;
  }

  /** One package written is one package read. */
  lemma ParseWritten(w: Written, tail: seq<byte>)
    requires w.Fits()
    ensures var s := HeaderBytes(w) + w.p.body + tail;
      Complete(s) && First(s) == w.p && Tail(s) == tail
  {
    HeaderBack(w);
    Assembled(HeaderBytes(w), w.p.body, tail);
  }

  /** Framing round trip: the receiver splits the stream into exactly the packages written. */
  lemma {:induction false} ParseStream(ws: seq<Written>, tail: seq<byte>)
    requires AllFit(ws)
    ensures Parse(Stream(ws) + tail) == (PacketsOf(ws) + Parse(tail).0, Parse(tail).1)
  {
    if ws == [] {
      assert Stream(ws) + tail == tail;
      assert PacketsOf(ws) + Parse(tail).0 == Parse(tail).0;
    } else {
      var more := Stream(ws[1..]) + tail;
      ParseStream(ws[1..], tail);
      ParseWritten(ws[0], more);
      assert Stream(ws) + tail == HeaderBytes(ws[0]) + ws[0].p.body + more;
      Grouped([ws[0].p], PacketsOf(ws[1..]), Parse(tail).0);
    }
  }

  lemma CompleteMore(a: seq<byte>, b: seq<byte>)
    requires Complete(a)
    ensures Complete(a + b) && First(a + b) == First(a) && Tail(a + b) == Tail(a) + b
  {
    var n := HEADER + ReadHeader(a).size;
    assert (a + b)[..2] == a[..2] && (a + b)[4..8] == a[4..8];
    assert (a + b)[HEADER..n] == a[HEADER..n] && (a + b)[n..] == a[n..] + b;
  }

  /** Bytes that complete no package stay pending, whatever arrives next. */
  lemma {:induction false} ParseMore(a: seq<byte>, b: seq<byte>)
    ensures Parse(a + b) == (Parse(a).0 + Parse(Parse(a).1 + b).0, Parse(Parse(a).1 + b).1)
    decreases |a|
  {
    if Complete(a) {
      CompleteMore(a, b);
      ParseMore(Tail(a), b);
      Grouped([First(a)], Parse(Tail(a)).0, Parse(Parse(a).1 + b).0);
    } else {
      assert [] + Parse(a + b).0 == Parse(a + b).0;
    }
  }

  /** Reading from a socket that delivers the stream in segments. */
  function ParseSegments(pending: seq<byte>, segments: seq<seq<byte>>): (seq<Packet>, seq<byte>)
    decreases |segments|
  {
    if segments == [] then ([], pending) else
      var now := Parse(pending + segments[0]);
      var later := ParseSegments(now.1, segments[1..]);
      (now.0 + later.0, later.1)
  }

  function Join(segments: seq<seq<byte>>): seq<byte> {
    if segments == [] then [] else segments[0] + Join(segments[1..])
  }

  lemma {:induction false} PendingIsStuck(s: seq<byte>)
    ensures !Complete(Parse(s).1)
    decreases |s|
  {
    if Complete(s) {
      PendingIsStuck(Tail(s));
    }
  }

  /** The segmentation of the stream does not matter. */
  lemma {:induction false} SegmentationIrrelevant(pending: seq<byte>, segments: seq<seq<byte>>)
    requires !Complete(pending)
    ensures ParseSegments(pending, segments) == Parse(pending + Join(segments))
    decreases |segments|
  {
    if segments == [] {
      assert pending + Join(segments) == pending;
    } else {
      var first, rest := pending + segments[0], Join(segments[1..]);
      PendingIsStuck(first);
      SegmentationIrrelevant(Parse(first).1, segments[1..]);
      ParseMore(first, rest);
      Grouped(pending, segments[0], rest);
    }
  }

  lemma PartOfFirst(w: Written, more: seq<byte>, s: seq<byte>)
    requires w.Fits() && s <= HeaderBytes(w) + w.p.body + more && |s| < HEADER + |w.p.body|
    ensures !Complete(s)
  {
    HeaderBack(w);
    if |s| >= HEADER {
      assert s[..2] == HeaderBytes(w)[..2] && s[4..8] == HeaderBytes(w)[4..8];
    }
  }

  lemma AllOfFirst(w: Written, more: seq<byte>, s: seq<byte>)
    requires w.Fits() && s <= HeaderBytes(w) + w.p.body + more && |s| >= HEADER + |w.p.body|
    ensures Complete(s) && First(s) == w.p && Tail(s) <= more && |Tail(s)| == |s| - HEADER - |w.p.body|
  {
    var n := HEADER + |w.p.body|;
    var all := HeaderBytes(w) + w.p.body + more;
    assert s == all[..|s|];
    assert s == HeaderBytes(w) + w.p.body + more[..|s| - n];
    ParseWritten(w, more[..|s| - n]);
  }

  lemma OneMore(ws: seq<Written>, j: nat)
    requires AllFit(ws) && j < |ws|
    ensures PacketsOf(ws[..j + 1]) == [ws[0].p] + PacketsOf(ws[1..][..j])
    ensures |Stream(ws[..j + 1])| == HEADER + |ws[0].p.body| + |Stream(ws[1..][..j])|
  {
    assert ws[..j + 1][1..] == ws[1..][..j];
  }

  /** From any prefix of the stream exactly the packages wholly inside it are decoded. */
  lemma {:induction false} PrefixDecodesPrefix(ws: seq<Written>, s: seq<byte>) returns (k: nat)
    requires AllFit(ws) && s <= Stream(ws)
    ensures k <= |ws| && Parse(s).0 == PacketsOf(ws[..k])
    ensures |Stream(ws[..k])| <= |s| && (k < |ws| ==> |s| < |Stream(ws[..k + 1])|)
  {
    k := 0;
    if ws != [] {
      var more := Stream(ws[1..]);
      assert Stream(ws) == HeaderBytes(ws[0]) + ws[0].p.body + more;
      if |s| < HEADER + |ws[0].p.body| {
        PartOfFirst(ws[0], more, s);
        OneMore(ws, 0);
      } else {
        AllOfFirst(ws[0], more, s);
        var j := PrefixDecodesPrefix(ws[1..], Tail(s));
        k := j + 1;
        OneMore(ws, j);
        if k < |ws| { OneMore(ws, k); }
      }
    }
  }

  lemma TakeParses(all: seq<byte>, done: seq<Packet>, pending: seq<byte>, rest: seq<byte>)
    requires if done == [] then pending + rest == all
      else Complete(all) && done == [First(all)] && pending == [] && rest == Tail(all)
    ensures Parse(all) == (done + Parse(pending + rest).0, Parse(pending + rest).1)
  {
    if done == [] {
      assert [] + Parse(all).0 == Parse(all).0;
    } else {
      assert pending + rest == rest;
    }
  }

  /** The two reads of CoReceiveMessage as a machine fed with whatever the socket delivers. */
  class MessageReader {
    var header: Option<Header>
    var buffer: seq<byte>
    ghost var headerBytes: seq<byte>

    /** The bytes received of the package not yet complete. */
    ghost function Pending(): seq<byte>
      reads this
    {
      if header.None? then buffer else headerBytes + buffer
    }

    ghost predicate Valid()
      reads this
    {
      match header
      case None => |buffer| < HEADER
      case Some(h) => |headerBytes| == HEADER && ReadHeader(headerBytes) == h && |buffer| < h.size
    }

    constructor ()
      ensures Valid() && Pending() == []
    {
      header, buffer, headerBytes := None, [], [];
    }

    /** Takes what the current read still needs, or less if less is there. */
    method Take(chunk: seq<byte>) returns (rest: seq<byte>, done: seq<Packet>)
      requires Valid() && chunk != []
      modifies this
      ensures Valid() && |rest| < |chunk|
      ensures var all := old(Pending()) + chunk;
        if done == [] then Pending() + rest == all
        else Complete(all) && done == [First(all)] && Pending() == [] && rest == Tail(all)
    {
      var need := (if header.None? then HEADER else header.value.size) - |buffer|;
      var n := if need < |chunk| then need else |chunk|;
      rest, done := chunk[n..], [];
      ghost var all := Pending() + chunk;
      assert chunk == chunk[..n] + rest;
      buffer := buffer + chunk[..n];
      assert Pending() + rest == all;
      if n == need {
        if header.None? {
          headerBytes := buffer;
          header := Some(ReadHeader(buffer));
          buffer := [];
          assert headerBytes + buffer + rest == all;
        }
        if header.value.size == |buffer| {
          Assembled(headerBytes, buffer, rest);
          done := [Packet(header.value.typ, header.value.flags, buffer)];
          header, buffer := None, [];
        }
      }
    }

    lemma NothingDone()
      requires Valid()
      ensures !Complete(Pending())
    {
      if header.Some? {
        assert Pending()[..2] == headerBytes[..2] && Pending()[4..8] == headerBytes[4..8];
      }
    }

    method Receive(chunk: seq<byte>) returns (done: seq<Packet>)
      requires Valid()
      modifies this
      ensures Valid() && (done, Pending()) == Parse(old(Pending()) + chunk)
    {
      done := [];
      var rest := chunk;
      ghost var all := Parse(Pending() + chunk);
      assert [] + all.0 == all.0;
      while rest != []
        invariant Valid() && done + Parse(Pending() + rest).0 == all.0 && Parse(Pending() + rest).1 == all.1
        decreases |rest|
      {
        var more: seq<Packet>;
        ghost var now := Pending() + rest;
        rest, more := Take(rest);
        TakeParses(now, more, Pending(), rest);
        Grouped(done, more, Parse(Pending() + rest).0);
        done := done + more;
      }
      assert Pending() + rest == Pending();
      NothingDone();
      assert done + [] == done;
    }
  }
}
