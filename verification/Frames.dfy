/** Frames as the two peers exchange them, tagged with the thread whose Send produced them. */
module Frames {
  import opened Bytes

  /** The io thread; CoSendFile sends its announcements from it. */
  const IO: nat := 0

  /** Request ids are 64-bit words. */
  const ID_SPACE: nat := 0x1_0000_0000_0000_0000

  datatype Frame =
    | Request(id: nat, path: seq<byte>)
    | Info(id: nat, size: nat)
    | Message(typ: nat, body: seq<byte>)

  /** One Send: the thread, the frame and the time of the enqueue, which identifies it. */
  datatype Item = Item(tid: nat, frame: Frame, ticket: nat)

  datatype Class = SentBy(t: nat) | MessagesOf(t: nat) | Infos

  predicate In(c: Class, x: Item) {
    match c
    case SentBy(t) => x.tid == t
    case MessagesOf(t) => x.tid == t && x.frame.Message?
    case Infos => x.frame.Info?
  }

  /** The members of a class, in order. */
  function Keep(c: Class, s: seq<Item>): seq<Item> {
    if s == [] then [] else if In(c, s[0]) then [s[0]] + Keep(c, s[1..]) else Keep(c, s[1..])
  }

  lemma {:induction false} KeptAreMembers(c: Class, s: seq<Item>)
    ensures forall x :: x in Keep(c, s) <==> x in s && In(c, x)
  {
    if s != [] {
      KeptAreMembers(c, s[1..]);
      assert s == [s[0]] + s[1..];
    }
  }

  lemma KeepOne(c: Class, x: Item)
    ensures Keep(c, [x]) == if In(c, x) then [x] else []
  {
    assert [x][1..] == [];
  }

  lemma {:induction false} KeepConcat(c: Class, a: seq<Item>, b: seq<Item>)
    ensures Keep(c, a + b) == Keep(c, a) + Keep(c, b)
  {
    if a == [] {
      assert a + b == b;
    } else {
      KeepConcat(c, a[1..], b);
      assert (a + b)[1..] == a[1..] + b;
      Grouped([a[0]], Keep(c, a[1..]), Keep(c, b));
    }
  }

  lemma {:induction false} KeepNone(c: Class, s: seq<Item>)
    requires forall x :: x in s ==> !In(c, x)
    ensures Keep(c, s) == []
  {
    if s != [] {
      KeepNone(c, s[1..]);
    }
  }

  function Without(s: seq<Item>, i: nat): seq<Item>
    requires i < |s|
  {
    s[..i] + s[i + 1..]
  }

  /** The queue is FIFO per producer: item i may leave when its thread has nothing before it. */
  predicate First(s: seq<Item>, i: nat) {
    i < |s| && forall j :: 0 <= j < i ==> s[j].tid != s[i].tid
  }

  /** Infos come from one thread only, so every class here lives inside one thread. */
  ghost predicate OneThread(c: Class, s: seq<Item>) {
    c.Infos? ==> forall x :: x in s && x.frame.Info? ==> x.tid == IO
  }

  lemma Interchange(x: seq<Item>, a: seq<Item>, b: seq<Item>)
    requires x == [] || a == []
    ensures x + (a + b) == a + (x + b)
  {
  }

  /** Letting a thread's first item overtake other threads' items changes no class. */
  lemma Overtake(c: Class, s: seq<Item>, i: nat)
    requires First(s, i) && OneThread(c, s)
    ensures Keep(c, [s[i]] + Without(s, i)) == Keep(c, s)
  {
    var a, x, b := s[..i], s[i], s[i + 1..];
    assert s == a + ([x] + b);
    KeepConcat(c, a, [x] + b);
    KeepConcat(c, [x], b);
    KeepConcat(c, [x], a + b);
    KeepConcat(c, a, b);
    if In(c, x) {
      assert forall y :: y in a ==> !In(c, y);
      KeepNone(c, a);
    } else {
      KeepOne(c, x);
    }
    Interchange(Keep(c, [x]), Keep(c, a), Keep(c, b));
  }
}
