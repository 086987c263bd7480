/**
  The assembly buffers ReadMsg shares across connections (recv_linux.go): four size classes, with
  at most four idle buffers each. `borrowed` records, for the statements, which buffers of each
  class some read holds.
*/
module BufferPool {
  import opened Bytes

  const CLASSES := 4
  const SLOTS := 4

  function ClassSize(k: nat): nat
    requires k < CLASSES
  {
    if k == 0 then 2048 else if k == 1 then 8192 else if k == 2 then 32768 else 65536
  }

  /** The smallest class that holds `size` bytes, or -1. */
  function ClassOf(size: nat): (k: int)
    ensures -1 <= k < CLASSES
    ensures k >= 0 ==> size <= ClassSize(k) && (k > 0 ==> size > ClassSize(k - 1))
    ensures k < 0 ==> size > ClassSize(3)
  {
    if size <= 2048 then 0 else if size <= 8192 then 1 else if size <= 32768 then 2 else if size <= 65536 then 3 else -1
  }

  /** The four classes. */
  lemma ClassesExact(size: nat)
    ensures ClassOf(size) == if size <= 2048 then 0 else if size <= 8192 then 1 else if size <= 32768 then 2 else if size <= 65536 then 3 else -1
    ensures ClassSize(0) == 2048 && ClassSize(1) == 8192 && ClassSize(2) == 32768 && ClassSize(3) == 65536
  {
  }

  function TotalLength(buffers: seq<array<byte>>): nat {
    if buffers == [] then 0 else buffers[0].Length + TotalLength(buffers[1..])
  }

  lemma {:induction false} TotalOf(buffers: seq<array<byte>>, size: nat, slots: nat)
    requires |buffers| <= slots && forall i :: 0 <= i < |buffers| ==> buffers[i].Length == size
    ensures TotalLength(buffers) <= slots * size
    decreases |buffers|
  {
    if buffers == [] {
      assert 0 <= slots * size;
    } else {
      TotalOf(buffers[1..], size, slots - 1);
      assert (slots - 1) * size + size == slots * size;
    }
  }

  /** What the classes have lent, without the buffer b of class k (-1: b is of no class). */
  ghost function Without(lent: seq<set<array<byte>>>, k: int, b: array<byte>): seq<set<array<byte>>>
    requires -1 <= k < |lent|
  {
    if k < 0 then lent else lent[k := lent[k] - {b}]
  }

  lemma WithoutBoth(lent: seq<set<array<byte>>>, k: int, b: array<byte>, k': int, b': array<byte>)
    requires -1 <= k < |lent| && -1 <= k' < |lent|
    ensures Without(Without(lent, k, b), k', b') == Without(Without(lent, k', b'), k, b)
  {
    if k == k' && k >= 0 {
      assert lent[k] - {b} - {b'} == lent[k] - {b'} - {b};
    }
  }

  /** readMsgBuffers. Each method touches one class, under that class's mutex. */
  class Pool {
    var idle: seq<seq<array<byte>>>           // buffers[:count] of each class
    ghost var stock: set<array<byte>>         // the idle buffers of all classes
    ghost var borrowed: seq<set<array<byte>>> // what reads hold of each class

    /** Idle buffers are whole, distinct, and held by no read. */
    ghost predicate Valid()
      reads this
    {
      && |idle| == |borrowed| == CLASSES
      && (forall k :: 0 <= k < CLASSES ==> ClassOk(ClassSize(k), idle[k], borrowed[k], stock))
    }

    ghost predicate ClassOk(size: nat, free: seq<array<byte>>, lent: set<array<byte>>, stock: set<array<byte>>) {
      && |free| <= SLOTS
      && (forall i :: 0 <= i < |free| ==> free[i].Length == size && free[i] in stock)
      && (forall i, j :: 0 <= i < j < |free| ==> free[i] != free[j])
      && (forall b :: b in lent ==> b.Length == size && b !in stock)
    }

    /** The idle storage is at most 424 KiB. */
    lemma IdleBound()
      requires Valid()
      ensures TotalLength(idle[0]) + TotalLength(idle[1]) + TotalLength(idle[2]) + TotalLength(idle[3]) <= 424 * 1024
    {
      assert forall k :: 0 <= k < CLASSES ==> ClassOk(ClassSize(k), idle[k], borrowed[k], stock);
      TotalOf(idle[0], ClassSize(0), SLOTS);
      TotalOf(idle[1], ClassSize(1), SLOTS);
      TotalOf(idle[2], ClassSize(2), SLOTS);
      TotalOf(idle[3], ClassSize(3), SLOTS);
    }

    constructor ()
      ensures Valid() && stock == {} && borrowed == [{}, {}, {}, {}]
    {
      idle, stock, borrowed := [[], [], [], []], {}, [{}, {}, {}, {}];
    }

    /** Borrows a buffer of class k: an idle one, which is idle no longer, or a new one. */
    method Get(k: nat) returns (b: array<byte>)
      requires Valid() && k < CLASSES
      modifies this
      ensures Valid() && b.Length == ClassSize(k) && b !in stock
      ensures b !in old(borrowed[k]) && borrowed == old(borrowed)[k := old(borrowed[k]) + {b}]
      ensures fresh(b) || b in old(stock)
      ensures stock == old(stock) - {b}
    {
      var n := |idle[k]|;
      if n > 0 {
        b := idle[k][n - 1];
        idle := idle[k := idle[k][..n - 1]];
      } else {
        b := new byte[ClassSize(k)];
      }
      stock := stock - {b};
      borrowed := borrowed[k := borrowed[k] + {b}];
    }

    /** Returns a borrowed buffer to its own class, at its full length, or drops it when the class is full. */
    method Put(k: nat, b: array<byte>)
      requires Valid() && k < CLASSES && b in borrowed[k]
      modifies this
      ensures Valid() && borrowed == Without(old(borrowed), k, b)
      ensures var room := |old(idle)[k]| < SLOTS;
        && idle == (if room then old(idle)[k := old(idle)[k] + [b]] else old(idle))
        && stock == (if room then old(stock) + {b} else old(stock))
    {
      if |idle[k]| < SLOTS {
        idle := idle[k := idle[k] + [b]];
        stock := stock + {b};
      }
      borrowed := borrowed[k := borrowed[k] - {b}];
    }

    /** getReadMsgBuffer: a buffer of at least `size` bytes from the smallest class that holds it, or one of its own. */
    method Borrow(size: nat) returns (b: array<byte>, cls: int)
      requires Valid()
      modifies this
      ensures Valid() && cls == ClassOf(size) && b !in stock
      ensures b.Length == if cls >= 0 then ClassSize(cls) else size
      ensures Without(borrowed, cls, b) == old(borrowed) && (cls >= 0 ==> b in borrowed[cls])
      ensures fresh(b) || (cls >= 0 && b in old(stock))
      ensures stock <= old(stock)
    {
      var i := 0;
      while i < CLASSES && size > ClassSize(i)
        invariant 0 <= i <= CLASSES
        invariant forall k :: 0 <= k < i ==> size > ClassSize(k)
      {
        i := i + 1;
      }
      if i < CLASSES {
        b := Get(i);
        assert old(borrowed[i]) + {b} - {b} == old(borrowed[i]);
        return b, i;
      }
      b := new byte[size];
      cls := -1;
    }
  }
}
