/** The package codec: two-pass size calculation, big-endian insertion in place, cursor-driven reading. */
module Packages {
  import opened Bytes

  datatype Option<+T> = None | Some(value: T)

  /** The memory of one machine word on the little-endian host. */
  type word = seq<byte>

  function BEWords(xs: seq<word>): seq<byte> {
    if xs == [] then [] else Reverse(xs[0]) + BEWords(xs[1..])
  }

  /** An argument of Create: a word, a vector of w-byte words, or a string. */
  datatype Value = Scalar(mem: word) | Vector(w: nat, xs: seq<word>) | Text(s: seq<byte>) {
    ghost predicate Ok() {
      Vector? ==> forall i :: 0 <= i < |xs| ==> |xs[i]| == w
    }

    /** The count written before the data fits the 32-bit count field. */
    predicate CountFits() {
      (Text? ==> |s| < U32) && (Vector? ==> |xs| < U32)
    }

    function Size(): nat {
      match this
      case Scalar(mem) => |mem|
      case Vector(w, xs) => 4 + Span(|xs|, w)
      case Text(s) => 4 + |s|
    }

    /** What native_to_big_inplace leaves in the caller's lvalue. */
    function Swapped(): (v: Value) {
      match this
      case Scalar(mem) => Scalar(Reverse(mem))
      case Vector(w, xs) => Vector(w, seq(|xs|, i requires 0 <= i < |xs| => Reverse(xs[i])))
      case Text(_) => this
    }

    /** The bytes the format promises for this value: words most significant byte first, counts likewise. */
    function Encode(): seq<byte> {
      match this
      case Scalar(mem) => Reverse(mem)
      case Vector(_, xs) => ToBE(4, |xs|) + BEWords(xs)
      case Text(s) => ToBE(4, |s|) + s
    }
  }

  /** The memory behind a vector's data(). */
  function NativeWords(xs: seq<word>): seq<byte> {
    if xs == [] then [] else xs[0] + NativeWords(xs[1..])
  }

  lemma {:induction false} SwappedWords(xs: seq<word>, ys: seq<word>)
    requires |ys| == |xs| && forall i :: 0 <= i < |xs| ==> ys[i] == Reverse(xs[i])
    ensures NativeWords(ys) == BEWords(xs)
  {
    if xs != [] {
      assert forall i :: 0 < i < |ys| ==> ys[i] == ys[1..][i - 1];
      SwappedWords(xs[1..], ys[1..]);
    }
  }

  lemma {:induction false} BEWordsSize(w: nat, xs: seq<word>)
    requires forall i :: 0 <= i < |xs| ==> |xs[i]| == w
    ensures |BEWords(xs)| == Span(|xs|, w)
  {
    if xs != [] {
      BEWordsSize(w, xs[1..]);
    }
  }

  lemma SwappedFacts(v: Value)
    requires v.Ok()
    ensures v.Swapped().Ok() && v.Swapped().Size() == v.Size() == |v.Encode()|
    ensures v.Swapped().Swapped() == v
  {
    match v
    case Scalar(mem) => ReverseTwice(mem);
    case Vector(w, xs) =>
      BEWordsSize(w, xs);
      forall i | 0 <= i < |xs| ensures v.Swapped().Swapped().xs[i] == xs[i] {
        ReverseTwice(xs[i]);
      }
      assert v.Swapped().Swapped().xs == xs;
    case Text(_) =>
  }

  /** w is v with a word's bytes reversed, or those of each vector element. */
  ghost predicate Mirrored(v: Value, w: Value) {
    match v
    case Text(_) => w == v
    case Scalar(bytes) =>
      w.Scalar? && |w.mem| == |bytes| && forall i :: 0 <= i < |bytes| ==> w.mem[i] == bytes[|bytes| - 1 - i]
    case Vector(size, xs) =>
      && w.Vector? && w.w == size && |w.xs| == |xs| && (forall k :: 0 <= k < |xs| ==> |w.xs[k]| == |xs[k]|)
      && forall k, i :: 0 <= k < |xs| && 0 <= i < |xs[k]| ==> w.xs[k][i] == xs[k][|xs[k]| - 1 - i]
  }

  /** Byte by byte: strings stay as they are, a word's bytes are reversed, and so are those of each vector element. */
  lemma SwappedByIndex(v: Value)
    ensures Mirrored(v, v.Swapped())
    ensures v.Text? ==> v.Swapped() == v
    ensures v.Scalar? ==> forall i :: 0 <= i < |v.mem| ==> v.Swapped().mem[i] == v.mem[|v.mem| - 1 - i]
  {
  }

  // ----- Create: the two passes as folds over the caller's memory -----
  // `mem` is the memory of the caller's lvalues and `args` the lvalue named by each
  // argument, so that two arguments may name the same lvalue.

  ghost predicate Args(mem: seq<Value>, args: seq<nat>) {
    && (forall i :: 0 <= i < |args| ==> args[i] < |mem|)
    && (forall a :: 0 <= a < |mem| ==> mem[a].Ok())
  }

  function ValuesOf(mem: seq<Value>, args: seq<nat>): (vs: seq<Value>)
    requires forall i :: 0 <= i < |args| ==> args[i] < |mem|
    ensures |vs| == |args|
  {
    seq(|args|, i requires 0 <= i < |args| => mem[args[i]])
  }

  function Sizes(vs: seq<Value>): (ns: seq<nat>)
    ensures |ns| == |vs|
  {
    seq(|vs|, i requires 0 <= i < |vs| => vs[i].Size())
  }

  function Sum(ns: seq<nat>): nat {
    if ns == [] then 0 else ns[0] + Sum(ns[1..])
  }

  function TotalSize(vs: seq<Value>): nat {
    Sum(Sizes(vs))
  }

  function EncodeAll(vs: seq<Value>): seq<byte> {
    if vs == [] then [] else vs[0].Encode() + EncodeAll(vs[1..])
  }

  /** The first pass: header.size is a 32-bit sum of the argument sizes. */
  function HeaderSize(ns: seq<nat>, size: nat): nat {
    if ns == [] then size else HeaderSize(ns[1..], Wrap32(size + ns[0]))
  }

  /** The second pass: each insertion swaps its lvalue and appends its bytes. */
  function InsertAll(mem: seq<Value>, args: seq<nat>): (r: (seq<byte>, seq<Value>))
    requires forall i :: 0 <= i < |args| ==> args[i] < |mem|
    ensures |r.1| == |mem|
    decreases |args|
  {
    if args == [] then ([], mem) else
      var a := args[0];
      var rest := InsertAll(mem[a := mem[a].Swapped()], args[1..]);
      (mem[a].Encode() + rest.0, rest.1)
  }

  /** All memcpy targets lie inside a body of `size` bytes, the 32-bit offset starting at `offset`. */
  predicate InBounds(ns: seq<nat>, offset: nat, size: nat) {
    ns == [] || (offset + ns[0] <= size && InBounds(ns[1..], Wrap32(offset + ns[0]), size))
  }

  lemma {:induction false} HeaderSizeIsTotal(ns: seq<nat>, size: nat)
    requires size < U32
    ensures HeaderSize(ns, size) == Wrap32(size + Sum(ns))
  {
    if ns != [] {
      HeaderSizeIsTotal(ns[1..], Wrap32(size + ns[0]));
      Wrap32Add(size + ns[0], Sum(ns[1..]));
    }
  }

  lemma {:induction false} InBoundsMeansRoom(ns: seq<nat>, offset: nat, size: nat)
    requires size < U32 && offset <= size
    ensures InBounds(ns, offset, size) <==> offset + Sum(ns) <= size
  {
    if ns != [] && offset + ns[0] <= size {
      InBoundsMeansRoom(ns[1..], offset + ns[0], size);
    }
  }

  lemma WrapShrinks(n: nat)
    ensures n >= U32 ==> Wrap32(n) < n
  {
  }

  lemma PassesOverSizes(ns: seq<nat>)
    ensures InBounds(ns, 0, HeaderSize(ns, 0)) <==> Sum(ns) < U32
    ensures Sum(ns) < U32 ==> HeaderSize(ns, 0) == Sum(ns)
  {
    HeaderSizeIsTotal(ns, 0);
    WrapShrinks(Sum(ns));
    InBoundsMeansRoom(ns, 0, HeaderSize(ns, 0));
  }

  lemma {:induction false} EncodeAllSize(vs: seq<Value>)
    requires forall i :: 0 <= i < |vs| ==> vs[i].Ok()
    ensures |EncodeAll(vs)| == TotalSize(vs)
  {
    if vs != [] {
      assert Sizes(vs)[1..] == Sizes(vs[1..]);
      EncodeAllSize(vs[1..]);
      SwappedFacts(vs[0]);
    }
  }

  /** The two passes agree, and every copy stays inside the body, exactly below 4 GiB. */
  lemma TwoPassesAgree(vs: seq<Value>)
    requires forall i :: 0 <= i < |vs| ==> vs[i].Ok()
    ensures InBounds(Sizes(vs), 0, HeaderSize(Sizes(vs), 0)) <==> TotalSize(vs) < U32
    ensures TotalSize(vs) < U32 ==> HeaderSize(Sizes(vs), 0) == |EncodeAll(vs)|
  {
    EncodeAllSize(vs);
    PassesOverSizes(Sizes(vs));
  }

  /** Swapping a lvalue keeps memory well formed and every argument's size. */
  lemma SwapKeepsSizes(mem: seq<Value>, a: nat, args: seq<nat>)
    requires Args(mem, args) && a < |mem|
    ensures Args(mem[a := mem[a].Swapped()], args)
    ensures TotalSize(ValuesOf(mem[a := mem[a].Swapped()], args)) == TotalSize(ValuesOf(mem, args))
  {
    SwappedFacts(mem[a]);
    assert Sizes(ValuesOf(mem[a := mem[a].Swapped()], args)) == Sizes(ValuesOf(mem, args));
  }

  /** One step of the second pass. */
  lemma OneInsertion(mem: seq<Value>, args: seq<nat>)
    requires Args(mem, args) && args != []
    ensures var a, rest := args[0], args[1..];
      var mem' := mem[a := mem[a].Swapped()];
      && Args(mem', rest) && |mem[a].Encode()| == mem[a].Size()
      && TotalSize(ValuesOf(mem, args)) == mem[a].Size() + TotalSize(ValuesOf(mem', rest))
      && InsertAll(mem, args) == (mem[a].Encode() + InsertAll(mem', rest).0, InsertAll(mem', rest).1)
  {
    assert Sizes(ValuesOf(mem, args))[1..] == Sizes(ValuesOf(mem, args[1..]));
    SwapKeepsSizes(mem, args[0], args[1..]);
    SwappedFacts(mem[args[0]]);
  }

  // ----- What Create leaves in the lvalues, and when its bytes are the promised ones -----

  /** args names lvalue a an odd number of times. */
  predicate NamedOddly(a: nat, args: seq<nat>) {
    args != [] && ((args[0] == a) != NamedOddly(a, args[1..]))
  }

  /** An lvalue named an odd number of times is left byte-reversed; an even number restores it. */
  lemma {:induction false} LvaluesAfterCreate(mem: seq<Value>, args: seq<nat>, a: nat)
    requires Args(mem, args) && a < |mem|
    ensures InsertAll(mem, args).1[a] == if NamedOddly(a, args) then mem[a].Swapped() else mem[a]
    decreases |args|
  {
    if args != [] {
      var b, rest := args[0], args[1..];
      var mem' := mem[b := mem[b].Swapped()];
      SwapKeepsSizes(mem, b, rest);
      LvaluesAfterCreate(mem', rest, a);
      assert InsertAll(mem, args).1 == InsertAll(mem', rest).1;
      if a == b {
        SwappedFacts(mem[a]);
        assert mem'[a].Swapped() == mem[a];
      }
    }
  }

  lemma {:induction false} NamedOddlyCounts(a: nat, args: seq<nat>)
    ensures NamedOddly(a, args) <==> multiset(args)[a] % 2 == 1
  {
    if args != [] {
      NamedOddlyCounts(a, args[1..]);
      assert args == [args[0]] + args[1..];
    }
  }

  /**
   * What Create leaves: a string, or an lvalue named an even number of times, is as it was; any other is its mirror
   * image.
   */
  lemma LvaluesByIndex(mem: seq<Value>, args: seq<nat>)
    requires Args(mem, args)
    ensures var mem' := InsertAll(mem, args).1;
      && (forall a :: 0 <= a < |mem| && (mem[a].Text? || multiset(args)[a] % 2 == 0) ==> mem'[a] == mem[a])
      && (forall a :: 0 <= a < |mem| && multiset(args)[a] % 2 == 1 ==> Mirrored(mem[a], mem'[a]))
  {
    var mem' := InsertAll(mem, args).1;
    forall a | 0 <= a < |mem|
      ensures if multiset(args)[a] % 2 == 0 then mem'[a] == mem[a] else Mirrored(mem[a], mem'[a])
    {
      LvaluesAfterCreate(mem, args, a);
      NamedOddlyCounts(a, args);
      SwappedByIndex(mem[a]);
    }
  }

  /** A second Create over the same lvalues restores them all. */
  lemma CreateTwiceRestores(mem: seq<Value>, args: seq<nat>)
    requires Args(mem, args)
    ensures InsertAll(InsertAll(mem, args).1, args).1 == mem
  {
    var mid := InsertAll(mem, args).1;
    forall a | 0 <= a < |mem| ensures mid[a].Ok() && InsertAll(mem, args).1[a] == mid[a] {
      LvaluesAfterCreate(mem, args, a);
      SwappedFacts(mem[a]);
    }
    forall a | 0 <= a < |mem| ensures InsertAll(mid, args).1[a] == mem[a] {
      LvaluesAfterCreate(mem, args, a);
      LvaluesAfterCreate(mid, args, a);
      SwappedFacts(mem[a]);
    }
  }

  /** Some argument names an lvalue that earlier arguments have left reversed. */
  ghost predicate Disturbed(mem: seq<Value>, args: seq<nat>, j: nat)
    requires Args(mem, args) && j < |args|
  {
    NamedOddly(args[j], args[..j]) && mem[args[j]].Swapped() != mem[args[j]]
  }

  lemma {:induction false} WordsInjective(w: nat, xs: seq<word>, ys: seq<word>)
    requires |xs| == |ys| && BEWords(xs) == BEWords(ys)
    requires forall i :: 0 <= i < |xs| ==> |xs[i]| == |ys[i]| == w
    ensures xs == ys
  {
    if xs != [] {
      assert BEWords(xs)[..w] == Reverse(xs[0]) && BEWords(xs)[w..] == BEWords(xs[1..]);
      assert BEWords(ys)[..w] == Reverse(ys[0]) && BEWords(ys)[w..] == BEWords(ys[1..]);
      ReverseTwice(xs[0]);
      ReverseTwice(ys[0]);
      WordsInjective(w, xs[1..], ys[1..]);
    }
  }

  lemma EncodeInjective(v: Value, w: Value)
    requires v.Ok() && w.Ok() && v == w.Swapped() && v.Encode() == w.Encode()
    ensures v == w
  {
    match w
    case Scalar(mem) =>
      ReverseTwice(mem);
      ReverseTwice(v.mem);
    case Vector(k, xs) =>
      assert v.Encode()[4..] == BEWords(v.xs) && w.Encode()[4..] == BEWords(xs);
      WordsInjective(k, v.xs, xs);
    case Text(_) =>
  }

  /** The value each argument has when it is inserted. */
  function InsertedAt(mem: seq<Value>, args: seq<nat>, j: nat): Value
    requires (forall i :: 0 <= i < |args| ==> args[i] < |mem|) && j < |args|
  {
    InsertAll(mem, args[..j]).1[args[j]]
  }

  /** Every argument is inserted with the value orig gives it. */
  ghost predicate InsertedAs(mem: seq<Value>, args: seq<nat>, orig: seq<Value>)
    requires Args(mem, args) && |orig| == |args|
  {
    forall j :: 0 <= j < |args| ==> InsertedAt(mem, args, j) == orig[j]
  }

  /** Later arguments see the memory the first insertion left. */
  lemma InsertedTail(mem: seq<Value>, args: seq<nat>)
    requires Args(mem, args) && args != []
    ensures InsertedAt(mem, args, 0) == mem[args[0]]
    ensures forall j :: 0 < j < |args| ==>
      InsertedAt(mem, args, j) == InsertedAt(mem[args[0] := mem[args[0]].Swapped()], args[1..], j - 1)
  {
    forall j | 0 < j < |args|
      ensures InsertedAt(mem, args, j) == InsertedAt(mem[args[0] := mem[args[0]].Swapped()], args[1..], j - 1)
    {
      assert args[..j][1..] == args[1..][..j - 1];
    }
  }

  lemma InsertedSplit(mem: seq<Value>, args: seq<nat>, orig: seq<Value>)
    requires Args(mem, args) && args != [] && |orig| == |args|
    requires Args(mem[args[0] := mem[args[0]].Swapped()], args[1..])
    ensures InsertedAs(mem, args, orig) <==>
      mem[args[0]] == orig[0] && InsertedAs(mem[args[0] := mem[args[0]].Swapped()], args[1..], orig[1..])
  {
    var mem' := mem[args[0] := mem[args[0]].Swapped()];
    InsertedTail(mem, args);
    if InsertedAs(mem, args, orig) {
      forall j | 0 <= j < |args[1..]| ensures InsertedAt(mem', args[1..], j) == orig[1..][j] {
        assert InsertedAt(mem, args, j + 1) == orig[j + 1];
      }
    }
  }

  /** Equal bytes split into an equal first argument and equal remaining bytes. */
  lemma InsertedHead(mem: seq<Value>, args: seq<nat>, orig: seq<Value>)
    requires Args(mem, args) && args != [] && |orig| == |args| && orig[0].Ok()
    requires orig[0] == mem[args[0]] || orig[0] == mem[args[0]].Swapped()
    ensures InsertAll(mem, args).0 == EncodeAll(orig) <==>
      mem[args[0]] == orig[0] && InsertAll(mem[args[0] := mem[args[0]].Swapped()], args[1..]).0 == EncodeAll(orig[1..])
  {
    var v, w := mem[args[0]], orig[0];
    var s, t := InsertAll(mem[args[0] := v.Swapped()], args[1..]).0, EncodeAll(orig[1..]);
    SwappedFacts(v);
    SwappedFacts(w);
    assert (v.Encode() + s)[..v.Size()] == v.Encode() && (v.Encode() + s)[v.Size()..] == s;
    assert (w.Encode() + t)[..w.Size()] == w.Encode() && (w.Encode() + t)[w.Size()..] == t;
    if v.Encode() + s == w.Encode() + t && w != v {
      EncodeInjective(w, v);
    }
  }

  lemma {:induction false} InsertedBytes(mem: seq<Value>, args: seq<nat>, orig: seq<Value>)
    requires Args(mem, args) && |orig| == |args|
    requires forall j :: 0 <= j < |args| ==>
      orig[j].Ok() && (orig[j] == mem[args[j]] || orig[j] == mem[args[j]].Swapped())
    ensures InsertAll(mem, args).0 == EncodeAll(orig) <==> InsertedAs(mem, args, orig)
    decreases |args|
  {
    if args != [] {
      SwappedFacts(mem[args[0]]);
      SwapKeepsSizes(mem, args[0], args[1..]);
      InsertedBytes(mem[args[0] := mem[args[0]].Swapped()], args[1..], orig[1..]);
      InsertedSplit(mem, args, orig);
      InsertedHead(mem, args, orig);
    }
  }

  /** Create writes the promised bytes exactly when no argument finds its lvalue disturbed. */
  lemma CreateFaithful(mem: seq<Value>, args: seq<nat>)
    requires Args(mem, args)
    ensures InsertAll(mem, args).0 == EncodeAll(ValuesOf(mem, args))
      <==> forall j :: 0 <= j < |args| ==> !Disturbed(mem, args, j)
  {
    InsertedBytes(mem, args, ValuesOf(mem, args));
    forall j | 0 <= j < |args|
      ensures InsertedAt(mem, args, j) == ValuesOf(mem, args)[j] <==> !Disturbed(mem, args, j)
    {
      LvaluesAfterCreate(mem, args[..j], args[j]);
    }
  }

  lemma {:induction false} AbsentMeansNone(a: nat, args: seq<nat>)
    requires forall i :: 0 <= i < |args| ==> args[i] != a
    ensures !NamedOddly(a, args)
  {
    if args != [] {
      AbsentMeansNone(a, args[1..]);
    }
  }

  /** In particular Create is faithful for distinct lvalues. */
  lemma DistinctLvaluesFaithful(mem: seq<Value>, args: seq<nat>)
    requires Args(mem, args) && forall i, j :: 0 <= i < j < |args| ==> args[i] != args[j]
    ensures InsertAll(mem, args).0 == EncodeAll(ValuesOf(mem, args))
  {
    forall j | 0 <= j < |args| ensures !Disturbed(mem, args, j) {
      AbsentMeansNone(args[j], args[..j]);
    }
    CreateFaithful(mem, args);
  }

  /** Strings may be passed any number of times: Create leaves them alone and always encodes them as they are. */
  lemma StringsStay(mem: seq<Value>, args: seq<nat>)
    requires Args(mem, args) && forall j :: 0 <= j < |args| ==> mem[args[j]].Text?
    ensures InsertAll(mem, args) == (EncodeAll(ValuesOf(mem, args)), mem)
    ensures InsertAll(InsertAll(mem, args).1, args).0 == InsertAll(mem, args).0
  {
    CreateFaithful(mem, args);
    forall a | 0 <= a < |mem| ensures InsertAll(mem, args).1[a] == mem[a] {
      LvaluesAfterCreate(mem, args, a);
      if !mem[a].Text? {
        AbsentMeansNone(a, args);
      }
    }
    assert InsertAll(mem, args).1 == mem;
  }

  /** Passing one 16-bit lvalue holding 1 twice sends its second copy byte-reversed. */
  lemma SameLvalueTwice()
    ensures InsertAll([Scalar([1, 0])], [0, 0]).0 == [0, 1, 1, 0]
    ensures EncodeAll(ValuesOf([Scalar([1, 0])], [0, 0])) == [0, 1, 0, 1]
  {
    var one, swapped := Scalar([1, 0]), Scalar([0, 1]);
    assert one.Swapped() == swapped && swapped.Encode() == [1, 0];
    assert InsertAll([swapped], [0]).0 == [1, 0] by { assert [0][1..] == []; }
    assert [one][0 := swapped] == [swapped] && [0, 0][1..] == [0];
    assert InsertAll([one], [0, 0]).0 == [0, 1] + [1, 0];
    assert ValuesOf([one], [0, 0]) == [one, one] && [one, one][1..] == [one] && [one][1..] == [];
    assert EncodeAll([one]) == [0, 1];
    assert EncodeAll([one, one]) == [0, 1] + [0, 1];
  }

  // ----- Reading -----

  datatype Kind = KScalar(w: nat) | KVector(w: nat) | KText

  function KindOf(v: Value): Kind {
    match v
    case Scalar(mem) => KScalar(|mem|)
    case Vector(w, _) => KVector(w)
    case Text(_) => KText
  }

  /** The words of memory as the host sees them. */
  function NativeValues(w: nat, count: nat, s: seq<byte>): (xs: seq<word>)
    requires |s| >= Span(count, w)
    ensures |xs| == count
    decreases count
  {
    if count == 0 then [] else [s[..w]] + NativeValues(w, count - 1, s[w..])
  }

  /** The words of memory read most significant byte first. */
  function ReadWords(w: nat, count: nat, s: seq<byte>): (xs: seq<word>)
    requires |s| >= Span(count, w)
    ensures |xs| == count
    decreases count
  {
    if count == 0 then [] else [Reverse(s[..w])] + ReadWords(w, count - 1, s[w..])
  }

  lemma {:induction false} SwappedValues(w: nat, count: nat, s: seq<byte>, ys: seq<word>)
    requires |s| >= Span(count, w) && |ys| == count
    requires forall i :: 0 <= i < count ==> ys[i] == Reverse(NativeValues(w, count, s)[i])
    ensures ys == ReadWords(w, count, s)
    decreases count
  {
    if count != 0 {
      forall i | 0 <= i < count - 1 ensures ys[1..][i] == Reverse(NativeValues(w, count - 1, s[w..])[i]) {
        assert ys[i + 1] == Reverse(NativeValues(w, count, s)[i + 1]);
      }
      SwappedValues(w, count - 1, s[w..], ys[1..]);
    }
  }

  /** Reads one value off the front of the unread bytes; None where GetValue would leave the body. */
  function Decode(k: Kind, s: seq<byte>): Option<(Value, seq<byte>)> {
    match k
    case KScalar(w) => if |s| < w then None else Some((Scalar(Reverse(s[..w])), s[w..]))
    case KVector(w) =>
      if |s| < 4 then None else
        var count := FromBE(s[..4]);
        if |s| - 4 < Span(count, w) then None
        else Some((Vector(w, ReadWords(w, count, s[4..])), s[4 + Span(count, w)..]))
    case KText =>
      if |s| < 4 then None else
        var count := FromBE(s[..4]);
        if |s| - 4 < count then None else Some((Text(s[4..4 + count]), s[4 + count..]))
  }

  function DecodeAll(ks: seq<Kind>, s: seq<byte>): Option<(seq<Value>, seq<byte>)> {
    if ks == [] then Some(([], s)) else
      match Decode(ks[0], s)
      case None => None
      case Some((v, rest)) =>
        match DecodeAll(ks[1..], rest)
        case None => None
        case Some((vs, end)) => Some(([v] + vs, end))
  }

  function Kinds(vs: seq<Value>): seq<Kind> {
    if vs == [] then [] else [KindOf(vs[0])] + Kinds(vs[1..])
  }

  lemma {:induction false} ReadWordsBack(w: nat, xs: seq<word>, rest: seq<byte>)
    requires forall i :: 0 <= i < |xs| ==> |xs[i]| == w
    requires |BEWords(xs)| == Span(|xs|, w)
    ensures ReadWords(w, |xs|, BEWords(xs) + rest) == xs
  {
    if xs != [] {
      var s, tail := BEWords(xs) + rest, BEWords(xs[1..]) + rest;
      assert s[..w] == Reverse(xs[0]) && s[w..] == tail;
      ReverseTwice(xs[0]);
      ReadWordsBack(w, xs[1..], rest);
    }
  }

  lemma CountBack(n: nat)
    requires n < U32
    ensures FromBE(ToBE(4, n)) == n
  {
    Pow256Values();
    ReadBE(4, n);
  }

  lemma {:induction false} WordAt(w: nat, xs: seq<word>, k: nat, i: nat)
    requires (forall j :: 0 <= j < |xs| ==> |xs[j]| == w) && k < |xs| && i < w
    ensures Span(k, w) + i < |BEWords(xs)| && BEWords(xs)[Span(k, w) + i] == xs[k][w - 1 - i]
  {
    BEWordsSize(w, xs);
    if k > 0 {
      WordAt(w, xs[1..], k - 1, i);
    }
  }

  /** Element k of an encoded vector stands at 4 + k * w, its most significant byte first. */
  lemma VectorLayout(w: nat, xs: seq<word>, k: nat, i: nat)
    requires (forall j :: 0 <= j < |xs| ==> |xs[j]| == w) && k < |xs| && i < w
    ensures var e := Vector(w, xs).Encode();
      |e| == 4 + |xs| * w && 4 + k * w + i < |e| && e[4 + k * w + i] == xs[k][w - 1 - i]
  {
    BEWordsSize(w, xs);
    SpanIsProduct(|xs|, w);
    SpanIsProduct(k, w);
    WordAt(w, xs, k, i);
  }

  /** A word's bytes, most significant byte first; a string or a vector after its count in four bytes. */
  lemma EncodingLayout(v: Value)
    requires v.Ok() && v.CountFits()
    ensures var e := v.Encode();
      match v
      case Scalar(mem) => |e| == |mem| && forall i :: 0 <= i < |mem| ==> e[i] == mem[|mem| - 1 - i]
      case Vector(_, xs) => |e| >= 4 && ((e[0] as int * 256 + e[1]) * 256 + e[2]) * 256 + e[3] == |xs|
      case Text(s) => |e| >= 4 && ((e[0] as int * 256 + e[1]) * 256 + e[2]) * 256 + e[3] == |s| && e[4..] == s
  {
    if !v.Scalar? {
      CountBack(if v.Text? then |v.s| else |v.xs|);
      WordOrder(v.Encode()[..4]);
    }
  }

  lemma DecodeVector(w: nat, xs: seq<word>, rest: seq<byte>)
    requires |xs| < U32 && forall i :: 0 <= i < |xs| ==> |xs[i]| == w
    ensures Decode(KVector(w), ToBE(4, |xs|) + BEWords(xs) + rest) == Some((Vector(w, xs), rest))
  {
    var s, data := ToBE(4, |xs|) + BEWords(xs) + rest, BEWords(xs) + rest;
    assert s[..4] == ToBE(4, |xs|) && s[4..] == data;
    CountBack(|xs|);
    BEWordsSize(w, xs);
    assert s[4 + Span(|xs|, w)..] == rest;
    ReadWordsBack(w, xs, rest);
  }

  lemma DecodeText(t: seq<byte>, rest: seq<byte>)
    requires |t| < U32
    ensures Decode(KText, ToBE(4, |t|) + t + rest) == Some((Text(t), rest))
  {
    var s := ToBE(4, |t|) + t + rest;
    CountBack(|t|);
    assert s[..4] == ToBE(4, |t|) && s[4..4 + |t|] == t && s[4 + |t|..] == rest;
  }

  lemma DecodeEncode(v: Value, rest: seq<byte>)
    requires v.Ok() && v.CountFits()
    ensures Decode(KindOf(v), v.Encode() + rest) == Some((v, rest))
  {
    match v
    case Scalar(mem) =>
      ReverseTwice(mem);
      assert (v.Encode() + rest)[..|mem|] == Reverse(mem) && (v.Encode() + rest)[|mem|..] == rest;
    case Vector(w, xs) => DecodeVector(w, xs, rest);
    case Text(t) => DecodeText(t, rest);
  }

  lemma DecodeAllStep(ks: seq<Kind>, s: seq<byte>, v: Value, mid: seq<byte>, vs: seq<Value>, end: seq<byte>)
    requires ks != [] && Decode(ks[0], s) == Some((v, mid)) && DecodeAll(ks[1..], mid) == Some((vs, end))
    ensures DecodeAll(ks, s) == Some(([v] + vs, end))
  {
  }

  lemma KindsOfCons(v: Value, vs: seq<Value>)
    ensures Kinds([v] + vs) == [KindOf(v)] + Kinds(vs)
  {
    assert ([v] + vs)[1..] == vs;
  }

  lemma EncodeCons(v: Value, vs: seq<Value>, rest: seq<byte>)
    ensures EncodeAll([v] + vs) + rest == v.Encode() + (EncodeAll(vs) + rest)
  {
    assert ([v] + vs)[1..] == vs;
    Grouped(v.Encode(), EncodeAll(vs), rest);
  }

  /** Reading the same types in the same order gives the arguments back and ends at the end of the body. */
  lemma {:induction false} RoundTrip(vs: seq<Value>, rest: seq<byte>)
    requires forall v :: v in vs ==> v.Ok() && v.CountFits()
    ensures DecodeAll(Kinds(vs), EncodeAll(vs) + rest) == Some((vs, rest))
  {
    if vs == [] {
      assert EncodeAll(vs) + rest == rest;
    } else {
      var v, tail := vs[0], vs[1..];
      assert vs == [v] + tail;
      var mid := EncodeAll(tail) + rest;
      RoundTrip(tail, rest);
      DecodeEncode(v, mid);
      KindsOfCons(v, tail);
      EncodeCons(v, tail, rest);
      DecodeAllStep([KindOf(v)] + Kinds(tail), v.Encode() + mid, v, mid, tail, rest);
    }
  }

  // ----- The class -----

  method Memcpy(dst: array<byte>, at: nat, src: seq<byte>)
    requires at + |src| <= dst.Length
    modifies dst
    ensures dst[at..at + |src|] == src
    ensures dst[..at] == old(dst[..at]) && dst[at + |src|..] == old(dst[at + |src|..])
  {
    for i := 0 to |src|
      invariant forall k :: 0 <= k < dst.Length ==> dst[k] == if at <= k < at + i then src[k - at] else old(dst[k])
    {
      dst[at + i] := src[i];
    }
  }

  /** Later insertions leave the bytes before `next` alone. */
  lemma Splice(before: seq<byte>, after: seq<byte>, offset: nat, next: nat)
    requires offset <= next <= |before| == |after| && after[..next] == before[..next]
    ensures after[..offset] == before[..offset] && after[offset..] == before[offset..next] + after[next..]
  {
    assert forall i :: 0 <= i < next ==> after[i] == after[..next][i] == before[..next][i] == before[i];
  }

  /** A count followed by the data it counts. */
  method MemcpyCounted(dst: array<byte>, at: nat, count: seq<byte>, data: seq<byte>)
    requires at + |count| + |data| <= dst.Length
    modifies dst
    ensures dst[at..at + |count| + |data|] == count + data
    ensures dst[..at] == old(dst[..at]) && dst[at + |count| + |data|..] == old(dst[at + |count| + |data|..])
  {
    var mid, end := at + |count|, at + |count| + |data|;
    Memcpy(dst, at, count);
    ghost var s := dst[..];
    assert s[at..mid] == count && s[..at] == old(dst[..at]) && s[end..] == old(dst[end..]);
    Memcpy(dst, mid, data);
    assert dst[..mid] == s[..mid];
    assert dst[at..mid] == s[..mid][at..] && dst[..at] == s[..mid][..at];
    assert dst[at..end] == dst[at..mid] + dst[mid..end];
  }

  /** The loop that reverses the bytes of each vector element. */
  method SwapElements(xs: seq<word>) returns (ys: seq<word>)
    ensures |ys| == |xs| && forall i :: 0 <= i < |xs| ==> ys[i] == Reverse(xs[i])
  {
    ys := xs;
    for i := 0 to |xs|
      invariant |ys| == |xs|
      invariant forall k :: 0 <= k < |xs| ==> ys[k] == if k < i then Reverse(xs[k]) else xs[k]
    {
      ys := ys[i := Reverse(ys[i])];
    }
  }

  class Package {
    var typ: nat
    var size: nat
    var flags: nat
    const rawBody: array<byte>
    var readOffset: nat

    ghost predicate Valid()
      reads this
    {
      size == rawBody.Length < U32 && readOffset <= size
    }

    /** The bytes GetValue has not consumed. */
    ghost function Unread(): seq<byte>
      requires Valid()
      reads this, rawBody
    {
      rawBody[readOffset..]
    }

    constructor (typ: nat, size: nat, flags: nat)
      requires size < U32
      ensures Valid() && fresh(rawBody) && this.typ == typ && this.size == size && this.flags == flags
        && readOffset == 0
    {
      this.typ, this.size, this.flags := typ, size, flags;
      rawBody := new byte[size];
      readOffset := 0;
    }

    static method CalculateElementSize(memory: array<Value>, a: nat, headerSize: nat) returns (r: nat)
      requires a < memory.Length
      ensures r == Wrap32(headerSize + memory[a].Size())
    {
      match memory[a] {
        case Text(s) => r := Wrap32(headerSize + (|s| + 4));
        case Vector(w, xs) => SpanIsProduct(|xs|, w); r := Wrap32(headerSize + (|xs| * w + 4));
        case Scalar(mem) => r := Wrap32(headerSize + |mem|);
      }
    }

    static method InsertString(memory: array<Value>, a: nat, package: Package, offset: nat) returns (next: nat)
      requires a < memory.Length && package.Valid() && memory[a].Ok() && memory[a].Text?
      requires offset + memory[a].Size() <= package.size
      modifies memory, package.rawBody
      ensures next == offset + old(memory[a].Size())
      ensures memory[..] == old(memory[..])[a := old(memory[a]).Swapped()]
      ensures package.rawBody[offset..next] == old(memory[a]).Encode()
      ensures package.rawBody[..offset] == old(package.rawBody[..offset])
      ensures package.rawBody[next..] == old(package.rawBody[next..])
    {
      var s := memory[a].s;
      NativeToBig(4, |s|);
      MemcpyCounted(package.rawBody, offset, Reverse(ToLE(4, |s|)), s);
      next := Wrap32(offset + 4 + |s|);
    }

    static method InsertVector(memory: array<Value>, a: nat, package: Package, offset: nat) returns (next: nat)
      requires a < memory.Length && package.Valid() && memory[a].Ok() && memory[a].Vector?
      requires offset + memory[a].Size() <= package.size
      modifies memory, package.rawBody
      ensures next == offset + old(memory[a].Size())
      ensures memory[..] == old(memory[..])[a := old(memory[a]).Swapped()]
      ensures package.rawBody[offset..next] == old(memory[a]).Encode()
      ensures package.rawBody[..offset] == old(package.rawBody[..offset])
      ensures package.rawBody[next..] == old(package.rawBody[next..])
    {
      var w, xs := memory[a].w, memory[a].xs;
      BEWordsSize(w, xs);
      NativeToBig(4, |xs|);
      var ys := SwapElements(xs);
      SwappedWords(xs, ys);
      assert ys == memory[a].Swapped().xs;
      memory[a] := Vector(w, ys);
      MemcpyCounted(package.rawBody, offset, Reverse(ToLE(4, |xs|)), NativeWords(ys));
      SpanIsProduct(|xs|, w);
      next := Wrap32(offset + 4 + |xs| * w);
    }

    static method InsertScalar(memory: array<Value>, a: nat, package: Package, offset: nat) returns (next: nat)
      requires a < memory.Length && package.Valid() && memory[a].Ok() && memory[a].Scalar?
      requires offset + memory[a].Size() <= package.size
      modifies memory, package.rawBody
      ensures next == offset + old(memory[a].Size())
      ensures memory[..] == old(memory[..])[a := old(memory[a]).Swapped()]
      ensures package.rawBody[offset..next] == old(memory[a]).Encode()
      ensures package.rawBody[..offset] == old(package.rawBody[..offset])
      ensures package.rawBody[next..] == old(package.rawBody[next..])
    {
      memory[a] := Scalar(Reverse(memory[a].mem));
      Memcpy(package.rawBody, offset, memory[a].mem);
      next := Wrap32(offset + |memory[a].mem|);
    }

    /** Swaps the lvalue in place and copies its memory into the body. */
    static method InsertElementToBody(memory: array<Value>, a: nat, package: Package, offset: nat) returns (next: nat)
      requires a < memory.Length && package.Valid() && memory[a].Ok()
      requires offset + memory[a].Size() <= package.size
      modifies memory, package.rawBody
      ensures next == offset + old(memory[a].Size())
      ensures memory[..] == old(memory[..])[a := old(memory[a]).Swapped()]
      ensures package.rawBody[offset..next] == old(memory[a]).Encode()
      ensures package.rawBody[..offset] == old(package.rawBody[..offset])
      ensures package.rawBody[next..] == old(package.rawBody[next..])
      ensures old(memory[a]).Text? ==> memory[a] == old(memory[a])
      ensures old(memory[a]).Scalar? ==>
        && memory[a].Scalar? && |memory[a].mem| == |old(memory[a]).mem|
        && forall i :: 0 <= i < |memory[a].mem| ==> memory[a].mem[i] == old(memory[a]).mem[|memory[a].mem| - 1 - i]
      ensures old(memory[a]).Vector? ==>
        var xs := old(memory[a]).xs;
        && memory[a].Vector? && memory[a].w == old(memory[a]).w && |memory[a].xs| == |xs|
        && (forall k :: 0 <= k < |xs| ==> |memory[a].xs[k]| == |xs[k]|)
        && forall k, i :: 0 <= k < |xs| && 0 <= i < |xs[k]| ==> memory[a].xs[k][i] == xs[k][|xs[k]| - 1 - i]
    {
      SwappedByIndex(memory[a]);
      match memory[a] {
        case Text(_) => next := InsertString(memory, a, package, offset);
        case Vector(_, _) => next := InsertVector(memory, a, package, offset);
        case Scalar(_) => next := InsertScalar(memory, a, package, offset);
      }
    }

    /** The first fold of Create. */
    static method CalculateSize(memory: array<Value>, args: seq<nat>) returns (size: nat)
      requires Args(memory[..], args)
      ensures size == HeaderSize(Sizes(ValuesOf(memory[..], args)), 0)
    {
      ghost var ns := Sizes(ValuesOf(memory[..], args));
      size := 0;
      for k := 0 to |args|
        invariant HeaderSize(ns, 0) == HeaderSize(ns[k..], size)
      {
        assert ns[k..][1..] == ns[k + 1..] && ns[k] == memory[args[k]].Size();
        size := CalculateElementSize(memory, args[k], size);
      }
    }

    /** The second fold of Create, from the current offset on. */
    static method InsertElements(memory: array<Value>, args: seq<nat>, package: Package, offset: nat)
      requires package.Valid() && Args(memory[..], args)
      requires offset + TotalSize(ValuesOf(memory[..], args)) == package.size
      modifies memory, package.rawBody
      ensures package.rawBody[..offset] == old(package.rawBody[..offset])
      ensures package.rawBody[offset..] == InsertAll(old(memory[..]), args).0
      ensures memory[..] == InsertAll(old(memory[..]), args).1
      ensures forall a :: 0 <= a < memory.Length && old(memory[a]).Text? ==> memory[a] == old(memory[a])
      decreases |args|
    {
      LvaluesByIndex(memory[..], args);
      if args != [] {
        ghost var mem, a := memory[..], args[0];
        OneInsertion(mem, args);
        var next := InsertElementToBody(memory, args[0], package, offset);
        ghost var inserted := package.rawBody[..];
        assert inserted[offset..next] == mem[a].Encode();
        InsertElements(memory, args[1..], package, next);
        Splice(inserted, package.rawBody[..], offset, next);
      }
    }

    /** The two folds of Create. */
    static method Assemble(typ: nat, memory: array<Value>, args: seq<nat>) returns (package: Package)
      requires Args(memory[..], args) && TotalSize(ValuesOf(memory[..], args)) < U32
      modifies memory
      ensures fresh(package) && fresh(package.rawBody) && package.Valid()
      ensures package.typ == typ && package.flags == 0 && package.readOffset == 0
      ensures (package.rawBody[..], memory[..]) == InsertAll(old(memory[..]), args)
    {
      HeaderSizeIsTotal(Sizes(ValuesOf(memory[..], args)), 0);
      var size := CalculateSize(memory, args);
      package := new Package(typ, size, 0);
      InsertElements(memory, args, package, 0);
      assert package.rawBody[0..] == package.rawBody[..];
    }

    static method Create(typ: nat, memory: array<Value>, args: seq<nat>) returns (package: Package)
      requires Args(memory[..], args) && TotalSize(ValuesOf(memory[..], args)) < U32
      modifies memory
      ensures fresh(package) && fresh(package.rawBody) && package.Valid()
      ensures package.typ == typ && package.flags == 0 && package.readOffset == 0
      ensures (package.rawBody[..], memory[..]) == InsertAll(old(memory[..]), args)
      ensures forall a :: 0 <= a < memory.Length && (old(memory[a]).Text? || multiset(args)[a] % 2 == 0) ==>
        memory[a] == old(memory[a])
      ensures forall a :: 0 <= a < memory.Length && multiset(args)[a] % 2 == 1 ==> Mirrored(old(memory[a]), memory[a])
    {
      ghost var mem := memory[..];
      package := Assemble(typ, memory, args);
      LvaluesByIndex(mem, args);
    }

    /** Copies a 32-bit count and undoes its byte order. */
    method GetCount() returns (count: nat)
      requires Valid() && |Unread()| >= 4
      modifies this`readOffset
      ensures Valid() && count == FromBE(old(Unread())[..4]) && Unread() == old(Unread())[4..]
    {
      var raw := rawBody[readOffset..readOffset + 4];
      assert raw == Unread()[..4];
      BigToNative(raw);
      count := FromLE(Reverse(raw));
      readOffset := readOffset + 4;
    }

    method GetString() returns (v: Value)
      requires Valid() && Decode(KText, Unread()).Some?
      modifies this`readOffset
      ensures Valid() && Some((v, Unread())) == Decode(KText, old(Unread()))
    {
      ghost var unread := Unread();
      var count := GetCount();
      ghost var data := Unread();
      v := Text(rawBody[readOffset..readOffset + count]);
      readOffset := readOffset + count;
      assert v.s == data[..count] && Unread() == data[count..];
      assert v.s == unread[4..4 + count] && Unread() == unread[4 + count..];
    }

    method GetVector(w: nat) returns (v: Value)
      requires Valid() && Decode(KVector(w), Unread()).Some?
      modifies this`readOffset
      ensures Valid() && Some((v, Unread())) == Decode(KVector(w), old(Unread()))
    {
      ghost var unread := Unread();
      var count := GetCount();
      ghost var data := Unread();
      var raw := NativeValues(w, count, rawBody[readOffset..]);
      var xs := SwapElements(raw);
      SwappedValues(w, count, data, xs);
      v := Vector(w, xs);
      SpanIsProduct(count, w);
      ghost var start := readOffset;
      readOffset := readOffset + count * w;
      assert Unread() == data[readOffset - start..];
      assert data == unread[4..];
    }

    method GetScalar(w: nat) returns (v: Value)
      requires Valid() && Decode(KScalar(w), Unread()).Some?
      modifies this`readOffset
      ensures Valid() && Some((v, Unread())) == Decode(KScalar(w), old(Unread()))
    {
      ghost var unread := Unread();
      var raw := rawBody[readOffset..readOffset + w];
      assert raw == unread[..w];
      v := Scalar(Reverse(raw));
      readOffset := readOffset + w;
      assert Unread() == unread[w..];
    }

    /** GetValue(T0&), the form that undoes the endian conversion. */
    method GetValue(k: Kind) returns (v: Value)
      requires Valid() && Decode(k, Unread()).Some?
      modifies this`readOffset
      ensures Valid() && Some((v, Unread())) == Decode(k, old(Unread()))
    {
      match k {
        case KText => v := GetString();
        case KVector(w) => v := GetVector(w);
        case KScalar(w) => v := GetScalar(w);
      }
    }
  }

  /** Reading one value per kind, in order. */
  method ReadAll(package: Package, ks: seq<Kind>) returns (vs: seq<Value>)
    requires package.Valid() && DecodeAll(ks, package.Unread()).Some?
    modifies package`readOffset
    ensures package.Valid() && Some((vs, package.Unread())) == DecodeAll(ks, old(package.Unread()))
    decreases |ks|
  {
    vs := [];
    if ks != [] {
      var v := package.GetValue(ks[0]);
      vs := ReadAll(package, ks[1..]);
      vs := [v] + vs;
    }
  }

  lemma ReadBack(vs: seq<Value>, body: seq<byte>)
    requires body == EncodeAll(vs) && forall v :: v in vs ==> v.Ok() && v.CountFits()
    ensures DecodeAll(Kinds(vs), body) == Some((vs, []))
  {
    RoundTrip(vs, []);
    assert body == EncodeAll(vs) + [];
  }

  /** Creating a package from distinct lvalues and reading the same types back gives their original values. */
  method CreateAndRead(typ: nat, memory: array<Value>, args: seq<nat>) returns (package: Package, vs: seq<Value>)
    requires Args(memory[..], args) && TotalSize(ValuesOf(memory[..], args)) < U32
    requires forall i, j :: 0 <= i < j < |args| ==> args[i] != args[j]
    requires forall i :: 0 <= i < |args| ==> memory[args[i]].CountFits()
    modifies memory
    ensures package.Valid() && package.readOffset == package.size
    ensures vs == ValuesOf(old(memory[..]), args)
  {
    ghost var sent := ValuesOf(memory[..], args);
    var kinds := Kinds(ValuesOf(memory[..], args));
    DistinctLvaluesFaithful(memory[..], args);
    package := Package.Create(typ, memory, args);
    ReadBack(sent, package.Unread());
    vs := ReadAll(package, kinds);
    assert |package.Unread()| == 0;
  }
}
