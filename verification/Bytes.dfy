/** Fixed-width integers in byte buffers, in either byte order, and writes into a buffer in place. */
module Bytes {

  type byte = x: int | 0 <= x < 256
  type u16 = x: int | 0 <= x < 0x1_0000
  type u32 = x: int | 0 <= x < 0x1_0000_0000

  /** The host's byte order; network order is `Big`. */
  datatype Order = Little | Big

  function Pow256(k: nat): (p: nat)
    ensures p > 0
  {
    if k == 0 then 1 else 256 * Pow256(k - 1)
  }

  /** The k low bytes of v. */
  function Put(order: Order, v: nat, k: nat): (bs: seq<byte>)
    ensures |bs| == k
    decreases k
  {
    if k == 0 then []
    else match order
         case Little => [v % 256] + Put(order, v / 256, k - 1)
         case Big => Put(order, v / 256, k - 1) + [v % 256]
  }

  function Get(order: Order, bs: seq<byte>): (v: nat)
    decreases |bs|
  {
    if bs == [] then 0
    else match order
         case Little => bs[0] + 256 * Get(order, bs[1..])
         case Big => Get(order, bs[..|bs| - 1]) * 256 + bs[|bs| - 1]
  }

  lemma {:induction false} PutGet(order: Order, v: nat, k: nat)
    requires v < Pow256(k)
    ensures Get(order, Put(order, v, k)) == v
    decreases k
  {
    if k > 0 {
      PutGet(order, v / 256, k - 1);
      var bs := Put(order, v, k);
      match order
      case Little => assert bs[1..] == Put(order, v / 256, k - 1);
      case Big => assert bs[..k - 1] == Put(order, v / 256, k - 1);
    }
  }

  lemma DivMod256(b: byte, v: nat)
    ensures (b + 256 * v) % 256 == b && (b + 256 * v) / 256 == v
  {
  }

  lemma {:induction false} GetPut(order: Order, bs: seq<byte>)
    ensures Put(order, Get(order, bs), |bs|) == bs
    decreases |bs|
  {
    if bs != [] {
      var last := match order case Little => bs[0] case Big => bs[|bs| - 1];
      var rest := match order case Little => bs[1..] case Big => bs[..|bs| - 1];
      GetPut(order, rest);
      DivMod256(last, Get(order, rest));
      assert Get(order, bs) == last + 256 * Get(order, rest);
    }
  }

  function Put16(order: Order, v: u16): seq<byte> {
    Put(order, v, 2)
  }

  function Put32(order: Order, v: u32): seq<byte> {
    Put(order, v, 4)
  }

  lemma Get16(order: Order, v: u16)
    ensures Get(order, Put16(order, v)) == v
  {
    assert Pow256(1) == 256 && Pow256(2) == 0x1_0000;
    PutGet(order, v, 2);
  }

  lemma Get32(order: Order, v: u32)
    ensures Get(order, Put32(order, v)) == v
  {
    assert Pow256(1) == 256 && Pow256(2) == 0x1_0000 && Pow256(3) == 0x100_0000 && Pow256(4) == 0x1_0000_0000;
    PutGet(order, v, 4);
  }

  lemma {:induction false} GetBound(order: Order, bs: seq<byte>)
    ensures Get(order, bs) < Pow256(|bs|)
    decreases |bs|
  {
    if bs != [] {
      match order
      case Little => GetBound(order, bs[1..]);
      case Big => GetBound(order, bs[..|bs| - 1]);
    }
  }

  /** The u16 at `off`, read whole. */
  function At16(order: Order, bs: seq<byte>, off: nat): (v: u16)
    requires off + 2 <= |bs|
  {
    GetBound(order, bs[off..off + 2]);
    assert Pow256(1) == 256 && Pow256(2) == 0x1_0000;
    Get(order, bs[off..off + 2])
  }

  function At32(order: Order, bs: seq<byte>, off: nat): (v: u32)
    requires off + 4 <= |bs|
  {
    GetBound(order, bs[off..off + 4]);
    assert Pow256(1) == 256 && Pow256(2) == 0x1_0000 && Pow256(3) == 0x100_0000 && Pow256(4) == 0x1_0000_0000;
    Get(order, bs[off..off + 4])
  }

  /** Reading a field written between other bytes gives it back. */
  lemma At16Of(order: Order, before: seq<byte>, v: u16, after: seq<byte>)
    ensures At16(order, before + Put16(order, v) + after, |before|) == v
  {
    var s := before + Put16(order, v) + after;
    assert s[|before|..|before| + 2] == Put16(order, v);
    Get16(order, v);
  }

  lemma At32Of(order: Order, before: seq<byte>, v: u32, after: seq<byte>)
    ensures At32(order, before + Put32(order, v) + after, |before|) == v
  {
    var s := before + Put32(order, v) + after;
    assert s[|before|..|before| + 4] == Put32(order, v);
    Get32(order, v);
  }

  function Zeros(k: nat): (bs: seq<byte>)
    ensures |bs| == k
    ensures forall i :: 0 <= i < k ==> bs[i] == 0
  {
    seq(k, _ => 0)
  }

  /** A slice of a prefix is a slice of the whole. */
  lemma SameSlice(h: seq<byte>, s: seq<byte>, a: nat, b: nat)
    requires |h| <= |s| && s[..|h|] == h && a <= b <= |h|
    ensures s[a..b] == h[a..b]
  {
    forall i | 0 <= i < b - a ensures s[a..b][i] == h[a..b][i] {
      assert s[a + i] == s[..|h|][a + i];
    }
  }

  lemma Parts(a: seq<byte>, b: seq<byte>, c: seq<byte>, d: seq<byte>)
    ensures (a + b + c + d)[..|a|] == a && (a + b + c + d)[|a|..|a| + |b|] == b
    ensures (a + b + c + d)[|a| + |b|..|a| + |b| + |c|] == c
    ensures a + b + c + [] == a + b + c
  {
  }

  /** s with bs written over it at off. */
  function Splice(s: seq<byte>, off: nat, bs: seq<byte>): (r: seq<byte>)
    requires off + |bs| <= |s|
    ensures |r| == |s|
  {
    s[..off] + bs + s[off + |bs|..]
  }

  lemma SpliceTwice(s: seq<byte>, off: nat, a: seq<byte>, b: seq<byte>)
    requires off + |a| + |b| <= |s|
    ensures Splice(Splice(s, off, a), off + |a|, b) == Splice(s, off, a + b)
  {
  }

  /** Bytes that already are what a write would make them need no write. */
  lemma SpliceOver(s: seq<byte>, off: nat, a: seq<byte>, b: seq<byte>)
    requires off + |a| + |b| <= |s| && s[off + |a|..off + |a| + |b|] == b
    ensures Splice(s, off, a) == Splice(s, off, a + b)
  {
    assert s[off + |a|..] == s[off + |a|..off + |a| + |b|] + s[off + |a| + |b|..];
  }

  method Write(a: array<byte>, off: nat, bs: seq<byte>)
    requires off + |bs| <= a.Length
    modifies a
    ensures a[..] == Splice(old(a[..]), off, bs)
  {
    var i := 0;
    while i < |bs|
      invariant 0 <= i <= |bs|
      invariant a[..off] == old(a[..off])
      invariant a[off..off + i] == bs[..i]
      invariant a[off + i..] == old(a[off + i..])
    {
      a[off + i] := bs[i];
      assert a[off..off + i + 1] == bs[..i] + [bs[i]];
      i := i + 1;
    }
    assert a[..] == a[..off] + a[off..off + |bs|] + a[off + |bs|..];
  }
}
