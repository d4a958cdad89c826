/** The protocol's frames as packages: how they are made, told apart, read back and carried by the message socket. */
module Wire {
  import opened Bytes
  import opened Packages
  import opened Framing
  import opened Frames

  const FILE_REQUEST: bv8 := 1 << 1
  const FILE_RECEIVE_INFO: bv8 := 1 << 2

  predicate HasFlag(flags: byte, flag: bv8) {
    flags as bv8 & flag != 0
  }

  function U64Value(n: nat): Value { Scalar(ToLE(8, n)) }

  function U32Value(n: nat): Value { Scalar(ToLE(4, n)) }

  /** p is a package that carries frame f. */
  ghost predicate Carries(p: Packet, f: Frame) {
    p.Fits() &&
    match f
    case Request(id, path) =>
      id < ID_SPACE && p.flags == FILE_REQUEST as byte && p.body == EncodeAll([U64Value(id), Text(path)])
    case Info(id, size) =>
      id < ID_SPACE && size < U32 && p.flags == FILE_RECEIVE_INFO as byte
      && p.body == EncodeAll([U64Value(id), U32Value(size)])
    case Message(typ, body) =>
      !HasFlag(p.flags, FILE_REQUEST) && !HasFlag(p.flags, FILE_RECEIVE_INFO) && p.typ == typ && p.body == body
  }

  // ----- Making packages -----

  lemma TotalOfTwo(v: Value, w: Value)
    ensures TotalSize([v, w]) == v.Size() + w.Size()
  {
    assert Sizes([v, w]) == [v.Size(), w.Size()];
    assert [v.Size(), w.Size()][1..] == [w.Size()];
    assert Sum([w.Size()]) == w.Size() by { assert [w.Size()][1..] == []; }
  }

  lemma SizeOfTwo(v: Value, w: Value)
    requires v.Ok() && w.Ok()
    ensures |EncodeAll([v, w])| == v.Size() + w.Size()
  {
    TotalOfTwo(v, w);
    EncodeAllSize([v, w]);
  }

  /**
   * Package::CreateUnique on two temporaries, which hold copies of the caller's values and are swapped in their
   * place.
   */
  method MakePackage(flags: byte, v: Value, w: Value) returns (p: Packet)
    requires v.Ok() && w.Ok() && v.Size() + w.Size() < U32
    ensures p == Packet(0, flags, EncodeAll([v, w]))
  {
    var memory := new Value[2][v, w];
    assert memory[..] == [v, w];
    assert ValuesOf([v, w], [0, 1]) == [v, w];
    TotalOfTwo(v, w);
    DistinctLvaluesFaithful([v, w], [0, 1]);
    var package := Package.Create(0, memory, [0, 1]);
    p := Packet(package.typ, flags, package.rawBody[..]);
  }

  /** The body of a package of two arguments: the first one's bytes, then the second one's. */
  lemma EncodingOfTwo(v: Value, w: Value)
    ensures EncodeAll([v, w]) == v.Encode() + w.Encode()
  {
    assert [v, w][1..] == [w] && [w][1..] == [];
    assert EncodeAll([w]) == w.Encode() + [];
  }

  lemma RequestLayout(id: nat, path: seq<byte>)
    ensures EncodeAll([U64Value(id), Text(path)]) == ToBE(8, id) + (ToBE(4, |path|) + path)
  {
    EncodingOfTwo(U64Value(id), Text(path));
    NativeToBig(8, id);
  }

  lemma InfoLayout(id: nat, size: nat)
    ensures EncodeAll([U64Value(id), U32Value(size)]) == ToBE(8, id) + ToBE(4, size)
  {
    EncodingOfTwo(U64Value(id), U32Value(size));
    NativeToBig(8, id);
    NativeToBig(4, size);
  }

  /** RequestFile's package. */
  method PackRequest(id: nat, path: seq<byte>) returns (p: Packet)
    requires id < ID_SPACE && |path| + 12 < U32
    ensures Carries(p, Request(id, path))
    ensures p == Packet(0, 2, ToBE(8, id) + (ToBE(4, |path|) + path))
    ensures p.flags as bv8 & 2 != 0 && p.flags as bv8 & 4 == 0
  {
    RequestLayout(id, path);
    SizeOfTwo(U64Value(id), Text(path));
    p := MakePackage(FILE_REQUEST as byte, U64Value(id), Text(path));
  }

  /** CoSendFile's announcement. */
  method PackInfo(id: nat, size: nat) returns (p: Packet)
    requires id < ID_SPACE && size < U32
    ensures Carries(p, Info(id, size))
    ensures p == Packet(0, 4, ToBE(8, id) + ToBE(4, size)) && p.flags as bv8 & 4 != 0
  {
    InfoLayout(id, size);
    SizeOfTwo(U64Value(id), U32Value(size));
    p := MakePackage(FILE_RECEIVE_INFO as byte, U64Value(id), U32Value(size));
  }

  // ----- Reading packages -----

  lemma KindsOfTwo(v: Value, w: Value)
    ensures Kinds([v, w]) == [KindOf(v), KindOf(w)]
  {
    assert [v, w][1..] == [w] && [w][1..] == [];
    assert Kinds([w]) == [KindOf(w)];
  }

  lemma TwoBack(v: Value, w: Value)
    requires v.Ok() && w.Ok() && v.CountFits() && w.CountFits()
    ensures DecodeAll([KindOf(v), KindOf(w)], EncodeAll([v, w])) == Some(([v, w], []))
  {
    RoundTrip([v, w], []);
    assert EncodeAll([v, w]) + [] == EncodeAll([v, w]);
    KindsOfTwo(v, w);
  }

  /** A received package, its cursor at the start of the body. */
  method Receive(p: Packet) returns (package: Package)
    requires |p.body| < U32
    ensures fresh(package) && fresh(package.rawBody) && package.Valid() && package.Unread() == p.body
  {
    package := new Package(p.typ, |p.body|, p.flags);
    Memcpy(package.rawBody, 0, p.body);
    assert package.rawBody[0..] == package.rawBody[0..|p.body|];
  }

  /** GetValue twice on a received package. */
  method ReadPackage(p: Packet, k: Kind, l: Kind, ghost v: Value, ghost w: Value) returns (first: Value, second: Value)
    requires v.Ok() && w.Ok() && v.CountFits() && w.CountFits() && k == KindOf(v) && l == KindOf(w)
    requires p.body == EncodeAll([v, w]) && |p.body| < U32
    ensures first == v && second == w
  {
    TwoBack(v, w);
    var package := Receive(p);
    var vs := ReadAll(package, [k, l]);
    first, second := vs[0], vs[1];
  }

  lemma WordsBack(id: nat, size: nat)
    requires id < ID_SPACE && size < U32
    ensures FromLE(ToLE(8, id)) == id && FromLE(ToLE(4, size)) == size
  {
    Pow256Values();
    ReadLE(8, id);
    ReadLE(4, size);
  }

  /** What CoSendFile reads from a request is what RequestFile packed. */
  method UnpackRequest(p: Packet, ghost f: Frame) returns (requestID: nat, path: seq<byte>)
    requires Carries(p, f) && f.Request?
    ensures requestID == f.id && path == f.path
  {
    SizeOfTwo(U64Value(f.id), Text(f.path));
    WordsBack(f.id, 0);
    var v, w := ReadPackage(p, KScalar(8), KText, U64Value(f.id), Text(f.path));
    requestID, path := FromLE(v.mem), w.s;
  }

  /** What CoReceiveFile reads from an announcement is what CoSendFile packed. */
  method UnpackInfo(p: Packet, ghost f: Frame) returns (requestID: nat, size: nat)
    requires Carries(p, f) && f.Info?
    ensures requestID == f.id && size == f.size
  {
    WordsBack(f.id, f.size);
    var v, w := ReadPackage(p, KScalar(8), KScalar(4), U64Value(f.id), U32Value(f.size));
    requestID, size := FromLE(v.mem), FromLE(w.mem);
  }

  // ----- Telling packages apart -----

  datatype Destination = ToReceiveFile | ToSendFile | ToHandlers

  /** CoReceiveMessage's tests, in its order. */
  function DestinationOf(p: Packet): (d: Destination)
    ensures p.flags as bv8 & 4 != 0 ==> d == ToReceiveFile
    ensures p.flags as bv8 & 4 == 0 && p.flags as bv8 & 2 != 0 ==> d == ToSendFile
    ensures p.flags as bv8 & 4 == 0 && p.flags as bv8 & 2 == 0 ==> d == ToHandlers
  {
    if HasFlag(p.flags, FILE_RECEIVE_INFO) then ToReceiveFile
    else if HasFlag(p.flags, FILE_REQUEST) then ToSendFile
    else ToHandlers
  }

  function MeantFor(f: Frame): Destination {
    match f
    case Info(_, _) => ToReceiveFile
    case Request(_, _) => ToSendFile
    case Message(_, _) => ToHandlers
  }

  /** The flags of a package lead it to the worker its frame is meant for. */
  lemma FlagsTellFrames(p: Packet, f: Frame)
    requires Carries(p, f)
    ensures DestinationOf(p) == MeantFor(f)
  {
    match f
    case Request(_, _) => assert 2 as bv8 & 4 == 0 && 2 as bv8 & 2 != 0;
    case Info(_, _) => assert 4 as bv8 & 4 != 0;
    case Message(_, _) =>
  }

  // ----- From frames to bytes and back -----

  /** What CoReceiveFile reads in a body. */
  function ReadInfo(body: seq<byte>): Option<Frame> {
    match DecodeAll([KScalar(8), KScalar(4)], body)
    case Some((vs, _)) =>
      if |vs| == 2 && vs[0].Scalar? && vs[1].Scalar? then Some(Info(FromLE(vs[0].mem), FromLE(vs[1].mem))) else None
    case None => None
  }

  /** What CoSendFile reads in a body. */
  function ReadRequest(body: seq<byte>): Option<Frame> {
    match DecodeAll([KScalar(8), KText], body)
    case Some((vs, _)) =>
      if |vs| == 2 && vs[0].Scalar? && vs[1].Text? then Some(Request(FromLE(vs[0].mem), vs[1].s)) else None
    case None => None
  }

  /** What the worker a package is routed to reads in it. */
  function Unpack(p: Packet): Option<Frame> {
    match DestinationOf(p)
    case ToHandlers => Some(Message(p.typ, p.body))
    case ToReceiveFile => ReadInfo(p.body)
    case ToSendFile => ReadRequest(p.body)
  }

  lemma InfoBack(id: nat, size: nat)
    requires id < ID_SPACE && size < U32
    ensures ReadInfo(EncodeAll([U64Value(id), U32Value(size)])) == Some(Info(id, size))
  {
    WordsBack(id, size);
    TwoBack(U64Value(id), U32Value(size));
  }

  lemma RequestBack(id: nat, path: seq<byte>)
    requires id < ID_SPACE && |path| < U32
    ensures ReadRequest(EncodeAll([U64Value(id), Text(path)])) == Some(Request(id, path))
  {
    WordsBack(id, 0);
    TwoBack(U64Value(id), Text(path));
  }

  lemma UnpackBack(p: Packet, f: Frame)
    requires Carries(p, f)
    ensures Unpack(p) == Some(f)
  {
    FlagsTellFrames(p, f);
    match f
    case Request(id, path) =>
      SizeOfTwo(U64Value(id), Text(path));
      RequestBack(id, path);
    case Info(id, size) => InfoBack(id, size);
    case Message(_, _) =>
  }

  ghost predicate CarryAll(ps: seq<Packet>, fs: seq<Frame>) {
    |ps| == |fs| && forall i :: 0 <= i < |ps| ==> Carries(ps[i], fs[i])
  }

  /** The packages that are routed to d, unpacked, in the order of their arrival. */
  function Received(d: Destination, ps: seq<Packet>): seq<Option<Frame>> {
    if ps == [] then []
    else if DestinationOf(ps[0]) == d then [Unpack(ps[0])] + Received(d, ps[1..])
    else Received(d, ps[1..])
  }

  /** The frames meant for d, in the order in which they were sent. */
  function Sent(d: Destination, fs: seq<Frame>): seq<Option<Frame>> {
    if fs == [] then []
    else if MeantFor(fs[0]) == d then [Some(fs[0])] + Sent(d, fs[1..])
    else Sent(d, fs[1..])
  }

  lemma {:induction false} ReceivedAsSent(d: Destination, ps: seq<Packet>, fs: seq<Frame>)
    requires CarryAll(ps, fs)
    ensures Received(d, ps) == Sent(d, fs)
  {
    if ps != [] {
      UnpackBack(ps[0], fs[0]);
      FlagsTellFrames(ps[0], fs[0]);
      ReceivedAsSent(d, ps[1..], fs[1..]);
    }
  }

  lemma {:induction false} PacketAt(ws: seq<Written>, i: nat)
    requires i < |ws|
    ensures PacketsOf(ws)[i] == ws[i].p
  {
    if i > 0 {
      PacketAt(ws[1..], i - 1);
    }
  }

  /**
   * The whole way: frames are packed, written with arbitrary padding, cut into arbitrary segments, reassembled, routed
   * by their flags and unpacked; each worker gets exactly the frames meant for it, in the order in which they were
   * sent.
   */
  lemma WireRoundTrip(d: Destination, fs: seq<Frame>, ws: seq<Written>, segments: seq<seq<byte>>)
    requires AllFit(ws) && |ws| == |fs| && forall i :: 0 <= i < |ws| ==> Carries(ws[i].p, fs[i])
    requires Join(segments) == Stream(ws)
    ensures ParseSegments([], segments).1 == [] && Received(d, ParseSegments([], segments).0) == Sent(d, fs)
  {
    SegmentationIrrelevant([], segments);
    assert [] + Join(segments) == Stream(ws) + [];
    ParseStream(ws, []);
    assert PacketsOf(ws) + Parse([]).0 == PacketsOf(ws);
    forall i | 0 <= i < |ws| ensures Carries(PacketsOf(ws)[i], fs[i]) {
      PacketAt(ws, i);
    }
    ReceivedAsSent(d, PacketsOf(ws), fs);
  }
}
