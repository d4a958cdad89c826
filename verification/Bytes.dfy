/** Bytes in memory and on the wire: little-endian words of the host, big-endian words of the protocol. */
module Bytes {

  type byte = n: int | 0 <= n < 256

  const U32: int := 0x1_0000_0000

  lemma Grouped<T>(a: seq<T>, b: seq<T>, c: seq<T>)
    ensures (a + b) + c == a + (b + c)
  {
  }

  /** 32-bit wrap-around. */
  function Wrap32(n: nat): (r: nat)
    ensures r < U32
  {
    if n < U32 then n else Wrap32(n - U32)
  }

  lemma {:induction false} Wrap32IsMod(n: nat)
    ensures Wrap32(n) == n % U32
  {
    if n >= U32 {
      Wrap32IsMod(n - U32);
    }
  }

  lemma {:induction false} Wrap32AtMost(n: nat)
    ensures Wrap32(n) <= n
  {
    if n >= U32 {
      Wrap32AtMost(n - U32);
    }
  }

  lemma {:induction false} Wrap32Add(a: nat, b: nat)
    ensures Wrap32(Wrap32(a) + b) == Wrap32(a + b)
  {
    if a >= U32 {
      Wrap32Add(a - U32, b);
    }
  }

  function Pow256(w: nat): (p: int)
    ensures p >= 1
  {
    if w == 0 then 1 else 256 * Pow256(w - 1)
  }

  /** n % 256 and n / 256, by repeated subtraction so that proofs meet no division. */
  function Low(n: nat): byte {
    if n < 256 then n else Low(n - 256)
  }

  function High(n: nat): (h: nat)
    ensures h <= n
  {
    if n < 256 then 0 else 1 + High(n - 256)
  }

  lemma {:induction false} LowHigh(n: nat)
    ensures n == Low(n) + 256 * High(n)
    ensures Low(n) == n % 256 && High(n) == n / 256
  {
    if n >= 256 {
      LowHigh(n - 256);
    }
  }

  /** The memory of a w-byte unsigned word on a little-endian host. */
  function ToLE(w: nat, n: nat): (s: seq<byte>)
    ensures |s| == w
  {
    if w == 0 then [] else [Low(n)] + ToLE(w - 1, High(n))
  }

  function FromLE(s: seq<byte>): nat {
    if s == [] then 0 else s[0] + 256 * FromLE(s[1..])
  }

  function Reverse(s: seq<byte>): (r: seq<byte>)
    ensures |r| == |s|
    ensures forall i :: 0 <= i < |s| ==> r[i] == s[|s| - 1 - i]
  {
    seq(|s|, i requires 0 <= i < |s| => s[|s| - 1 - i])
  }

  /** The same word in network order. */
  function ToBE(w: nat, n: nat): (s: seq<byte>)
    ensures |s| == w
  {
    if w == 0 then [] else ToBE(w - 1, High(n)) + [Low(n)]
  }

  function FromBE(s: seq<byte>): nat {
    if s == [] then 0 else 256 * FromBE(s[..|s| - 1]) + s[|s| - 1]
  }

  lemma {:induction false} ReadLE(w: nat, n: nat)
    requires n < Pow256(w)
    ensures FromLE(ToLE(w, n)) == n
  {
    if w != 0 {
      LowHigh(n);
      ReadLE(w - 1, High(n));
      assert ToLE(w, n)[1..] == ToLE(w - 1, High(n));
    }
  }

  /** native_to_big_inplace reverses the word's memory. */
  lemma {:induction false} NativeToBig(w: nat, n: nat)
    ensures Reverse(ToLE(w, n)) == ToBE(w, n)
  {
    if w != 0 {
      NativeToBig(w - 1, High(n));
    }
  }

  /** big_to_native_inplace reverses it back. */
  lemma {:induction false} BigToNative(s: seq<byte>)
    ensures FromLE(Reverse(s)) == FromBE(s)
  {
    if s != [] {
      BigToNative(s[..|s| - 1]);
      assert Reverse(s)[1..] == Reverse(s[..|s| - 1]);
    }
  }

  lemma {:induction false} ReadBE(w: nat, n: nat)
    requires n < Pow256(w)
    ensures FromBE(ToBE(w, n)) == n
  {
    if w != 0 {
      LowHigh(n);
      ReadBE(w - 1, High(n));
      assert ToBE(w, n)[..w - 1] == ToBE(w - 1, High(n));
    }
  }

  lemma ReverseTwice(s: seq<byte>)
    ensures Reverse(Reverse(s)) == s
  {
    assert forall i :: 0 <= i < |s| ==> Reverse(Reverse(s))[i] == s[i];
  }

  lemma Pow256Values()
    ensures Pow256(1) == 0x100 && Pow256(2) == 0x1_0000 && Pow256(4) == U32
    ensures Pow256(8) == 0x1_0000_0000_0000_0000
  {
    assert Pow256(3) == 256 * Pow256(2);
    assert Pow256(4) == 256 * Pow256(3);
    assert Pow256(5) == 256 * Pow256(4);
    assert Pow256(6) == 256 * Pow256(5);
    assert Pow256(7) == 256 * Pow256(6);
    assert Pow256(8) == 256 * Pow256(7);
  }

  /** The bytes that come first are the most significant ones. */
  lemma {:induction false} HighBytesFirst(a: seq<byte>, b: seq<byte>)
    ensures FromBE(a + b) == FromBE(a) * Pow256(|b|) + FromBE(b)
  {
    if b == [] {
      assert a + b == a;
    } else {
      var init := b[..|b| - 1];
      HighBytesFirst(a, init);
      assert (a + b)[..|a + b| - 1] == a + init;
      assert 256 * (FromBE(a) * Pow256(|init|)) == FromBE(a) * (256 * Pow256(|init|));
    }
  }

  /** Words in network order; BigToNative says that the host reads them backwards. */
  lemma WordOrder(s: seq<byte>)
    ensures |s| == 2 ==> FromBE(s) == s[0] as int * 256 + s[1]
    ensures |s| == 4 ==> FromBE(s) == ((s[0] as int * 256 + s[1]) * 256 + s[2]) * 256 + s[3]
    ensures |s| == 8 ==> FromBE(s) == FromBE(s[..4]) * 0x1_0000_0000 + FromBE(s[4..])
  {
    Pow256Values();
    if |s| == 4 {
      assert FromBE(s[..3]) == FromBE(s[..3][..2]) * 256 + s[2];
    } else if |s| == 8 {
      HighBytesFirst(s[..4], s[4..]);
      assert s == s[..4] + s[4..];
    }
  }

  /** The size of `count` words of w bytes. */
  function Span(count: nat, w: nat): nat {
    if count == 0 then 0 else w + Span(count - 1, w)
  }

  lemma {:induction false} SpanIsProduct(count: nat, w: nat)
    ensures Span(count, w) == count * w
  {
    if count != 0 {
      SpanIsProduct(count - 1, w);
    }
  }
}
