/**
  The exclusion of PeelOff from the middle of a notification record (endpoint_linux.go): a receive
  callback holds recordMu from its first recvmsg to its last, and PeelOff takes the same mutex.

  The callback is driven by what each recvmsg returned, as recvState.attempt is (recv_linux.go):
  it goes on after EINTR and after a piece that is not a record's last, and leaves otherwise, also
  when something else stands where a record's next piece belonged. That last exit, the cut, is what
  the exclusion is for: the theorem is that no interleaving takes it.
*/
module PeelOffExclusion {
  import opened Bytes
  import opened Receive

  datatype RawItem = Item(assoc: nat, chunk: Chunk, taken: nat) {
    /** What the kernel has put back at the head of the queue. */
    function Left(): Chunk
      requires taken <= |chunk.bytes|
    {
      chunk.(bytes := chunk.bytes[taken..])
    }

    predicate HalfRead() {
      chunk.Note? && taken > 0
    }
  }

  /** A queued item of one association of an Endpoint, with how much of it was handed over: never all. */
  type Item = i: RawItem | i.taken < |i.chunk.bytes| witness Item(0, Note([0]), 0)

  /** Which item it is, whatever was read of it. */
  datatype Name = Name(assoc: nat, chunk: Chunk)

  function NameOf(i: Item): Name {
    Name(i.assoc, i.chunk)
  }

  /** Outside the callback, with recordMu free, or in it, with a record in progress or not. */
  datatype Callback = Out | In(noting: bool)

  datatype State = State(
    queue: seq<Item>,
    cb: Callback,
    unread: bool,         // the callback, if any, has had nothing from recvmsg yet
    moved: seq<Item>,     // what PeelOff moved to other sockets
    peeled: set<nat>,     // the associations it moved
    arrived: seq<Name>,   // every item that was ever queued here
    consumed: seq<Name>,  // every item that was read to its end, in order
    cuts: nat)            // how often a callback found a record cut short

  datatype Step =
    | Arrive(item: Item)
    | Enter                // recvAttempt locks recordMu
    | Interrupted          // recvmsg returned EINTR
    | Recvmsg(size: nat)   // recvmsg into a buffer of this size
    | PeelOff(assoc: nat)  // moves everything queued for the association to its own socket

  predicate Init(s: State) {
    s == State([], Out, false, [], {}, [], [], 0)
  }

  predicate Enabled(s: State, e: Step) {
    match e
    case Arrive(item) => item.taken == 0 && item.assoc !in s.peeled
    case Enter => s.cb == Out
    case Interrupted => s.cb.In?
    case Recvmsg(size) => s.cb.In? && size >= 1
    case PeelOff(assoc) => s.cb == Out && assoc !in s.peeled
  }

  function Of(q: seq<Item>, assoc: nat, mine: bool): seq<Item> {
    if q == [] then []
    else (if (q[0].assoc == assoc) == mine then [q[0]] else []) + Of(q[1..], assoc, mine)
  }

  /** The names of an association's items, in order. */
  function Names(q: seq<Item>, assoc: nat): seq<Name> {
    if q == [] then [] else Pick(NameOf(q[0]), assoc) + Names(q[1..], assoc)
  }

  function Only(ns: seq<Name>, assoc: nat): seq<Name> {
    if ns == [] then [] else Pick(ns[0], assoc) + Only(ns[1..], assoc)
  }

  function Pick(n: Name, assoc: nat): seq<Name> {
    if n.assoc == assoc then [n] else []
  }

  lemma Assoc<T>(a: seq<T>, b: seq<T>, c: seq<T>)
    ensures a + (b + c) == a + b + c && [] + a == a && a + [] == a
  {
  }

  /** The queue after a recvmsg: an item read whole is gone, the rest of another stays at the head. */
  function Rest(q: seq<Item>, size: nat): seq<Item>
    requires q != []
  {
    if |q[0].Left().bytes| <= size then q[1..] else [q[0].(taken := q[0].taken + size)] + q[1..]
  }

  /** What a callback does with what recvmsg returned: nothing queued, message bytes, or a record's piece. */
  function Received(s: State, size: nat): State
    requires s.cb.In? && size >= 1
  {
    if s.queue == [] then s.(cb := Out, unread := false, cuts := s.cuts + if s.cb.noting then 1 else 0)
    else
      var head := s.queue[0];
      var read := if |head.Left().bytes| <= size then [NameOf(head)] else [];
      var s1 := s.(queue := Rest(s.queue, size), unread := false, consumed := s.consumed + read);
      if head.chunk.Data? then s1.(cb := Out, cuts := s.cuts + if s.cb.noting then 1 else 0)
      else s1.(cb := if Ends(head.Left(), size) then Out else In(true))
  }

  function Next(s: State, e: Step): State
    requires Enabled(s, e)
  {
    match e
    case Arrive(item) => s.(queue := s.queue + [item], arrived := s.arrived + [NameOf(item)])
    case Enter => s.(cb := In(false), unread := true)
    case Interrupted => s
    case Recvmsg(size) => Received(s, size)
    case PeelOff(assoc) =>
      s.(queue := Of(s.queue, assoc, false), moved := s.moved + Of(s.queue, assoc, true), peeled := s.peeled + {assoc})
  }

  predicate Runs(s: State, run: seq<Step>)
    decreases |run|
  {
    run == [] || (Enabled(s, run[0]) && Runs(Next(s, run[0]), run[1..]))
  }

  function After(s: State, run: seq<Step>): State
    requires Runs(s, run)
    decreases |run|
  {
    if run == [] then s else After(Next(s, run[0]), run[1..])
  }

  ghost predicate Reachable(s: State) {
    exists s0: State, run: seq<Step> :: Init(s0) && Runs(s0, run) && After(s0, run) == s
  }

  /** Only the record a callback is reading is partly handed over, and it is at the head of the queue. */
  predicate Inv(s: State) {
    && (forall i :: 1 <= i < |s.queue| ==> !s.queue[i].HalfRead())
    && (s.cb == In(true) <==> s.queue != [] && s.queue[0].HalfRead())
    && (forall i :: 0 <= i < |s.moved| ==> !s.moved[i].HalfRead())
    && (s.cb == In(false) ==> s.unread)
    && s.cuts == 0
  }

  /** Nothing is lost, doubled or reordered: an association's items were read, and then wait here, or were moved. */
  ghost predicate Kept(s: State) {
    forall a :: Accounted(s, a)
  }

  predicate Accounted(s: State, a: nat) {
    && Only(s.arrived, a) == Only(s.consumed, a) + Names(if a in s.peeled then s.moved else s.queue, a)
    && Names(if a in s.peeled then s.queue else s.moved, a) == []
  }

  lemma {:induction false} NamesOfBoth(q: seq<Item>, r: seq<Item>, a: nat)
    ensures Names(q + r, a) == Names(q, a) + Names(r, a)
    decreases |q|
  {
    if q == [] {
      assert q + r == r;
      Assoc(Names(r, a), [], []);
    } else {
      assert (q + r)[1..] == q[1..] + r && (q + r)[0] == q[0];
      NamesOfBoth(q[1..], r, a);
      Assoc(Pick(NameOf(q[0]), a), Names(q[1..], a), Names(r, a));
    }
  }

  lemma {:induction false} OnlyOfBoth(q: seq<Name>, r: seq<Name>, a: nat)
    ensures Only(q + r, a) == Only(q, a) + Only(r, a)
    decreases |q|
  {
    if q == [] {
      assert q + r == r;
      Assoc(Only(r, a), [], []);
    } else {
      assert (q + r)[1..] == q[1..] + r && (q + r)[0] == q[0];
      OnlyOfBoth(q[1..], r, a);
      Assoc(Pick(q[0], a), Only(q[1..], a), Only(r, a));
    }
  }

  lemma {:induction false} NamesOfOf(q: seq<Item>, assoc: nat, mine: bool, a: nat)
    ensures Names(Of(q, assoc, mine), a) == if (a == assoc) == mine then Names(q, a) else []
    decreases |q|
  {
    if q != [] {
      NamesOfOf(q[1..], assoc, mine, a);
      var rest := Of(q[1..], assoc, mine);
      if (q[0].assoc == assoc) == mine {
        assert ([q[0]] + rest)[1..] == rest;
      } else {
        assert [] + rest == rest;
      }
    }
  }

  lemma RestNames(q: seq<Item>, size: nat, a: nat)
    requires q != [] && size >= 1
    ensures var read := if |q[0].Left().bytes| <= size then [NameOf(q[0])] else [];
      Only(read, a) + Names(Rest(q, size), a) == Names(q, a)
  {
    if |q[0].Left().bytes| <= size {
      OneName(NameOf(q[0]), q[0], a);
    } else {
      assert Rest(q, size)[1..] == q[1..];
      Assoc(Names(Rest(q, size), a), [], []);
    }
  }

  lemma OneName(n: Name, i: Item, a: nat)
    ensures Only([n], a) == Pick(n, a) && Names([i], a) == Pick(NameOf(i), a)
  {
    assert [n][1..] == [] && [i][1..] == [];
    Assoc(Pick(n, a), [], []);
    Assoc(Pick(NameOf(i), a), [], []);
  }

  lemma StepKeepsAccount(s: State, e: Step, a: nat)
    requires Inv(s) && Enabled(s, e) && Accounted(s, a)
    ensures Accounted(Next(s, e), a)
  {
    match e
    case Arrive(item) => ArriveKeepsAccount(s, item, a);
    case Enter =>
    case Interrupted =>
    case Recvmsg(size) => if s.queue != [] { ReadKeepsAccount(s, size, a); }
    case PeelOff(assoc) => PeelKeepsAccount(s, assoc, a);
  }

  lemma ArriveKeepsAccount(s: State, item: Item, a: nat)
    requires Accounted(s, a) && item.assoc !in s.peeled
    ensures Accounted(s.(queue := s.queue + [item], arrived := s.arrived + [NameOf(item)]), a)
  {
    NamesOfBoth(s.queue, [item], a);
    OnlyOfBoth(s.arrived, [NameOf(item)], a);
    OneName(NameOf(item), item, a);
    Assoc(Only(s.consumed, a), Names(s.queue, a), Pick(NameOf(item), a));
    Assoc(Only(s.arrived, a), [], []);
    Assoc(Names(s.queue, a), [], []);
  }

  lemma PeelKeepsAccount(s: State, assoc: nat, a: nat)
    requires Accounted(s, a) && assoc !in s.peeled && Enabled(s, PeelOff(assoc))
    ensures Accounted(Next(s, PeelOff(assoc)), a)
  {
    NamesOfOf(s.queue, assoc, true, a);
    NamesOfOf(s.queue, assoc, false, a);
    NamesOfBoth(s.moved, Of(s.queue, assoc, true), a);
    Assoc(Names(s.moved, a), [], []);
    Assoc(Names(s.queue, a), [], []);
  }

  /** Reading does not change whose items are whose. */
  lemma ReadKeepsAccount(s: State, size: nat, a: nat)
    requires s.cb.In? && size >= 1 && s.queue != [] && Accounted(s, a)
    ensures Accounted(Received(s, size), a)
  {
    var read := if |s.queue[0].Left().bytes| <= size then [NameOf(s.queue[0])] else [];
    var q, consumed := Rest(s.queue, size), s.consumed + read;
    assert Received(s, size).queue == q && Received(s, size).consumed == consumed;
    RestNames(s.queue, size, a);
    OnlyOfBoth(s.consumed, read, a);
    Assoc(Only(s.consumed, a), Only(read, a), Names(q, a));
    if a in s.peeled {
      assert |Only(read, a)| + |Names(q, a)| == 0;
      Assoc(Only(s.consumed, a), [], []);
    }
  }

  lemma {:induction false} OfKeeps(q: seq<Item>, assoc: nat, mine: bool)
    requires forall i :: 0 <= i < |q| ==> !q[i].HalfRead()
    ensures forall i :: 0 <= i < |Of(q, assoc, mine)| ==> !Of(q, assoc, mine)[i].HalfRead()
    decreases |q|
  {
    if q != [] {
      OfKeeps(q[1..], assoc, mine);
    }
  }

  lemma StepKeepsInv(s: State, e: Step)
    requires Inv(s) && Enabled(s, e)
    ensures Inv(Next(s, e))
  {
    if e.PeelOff? {
      OfKeeps(s.queue, e.assoc, true);
      OfKeeps(s.queue, e.assoc, false);
    }
  }

  lemma {:induction false} RunKeepsInv(s: State, run: seq<Step>)
    requires Inv(s) && Kept(s) && Runs(s, run)
    ensures Inv(After(s, run)) && Kept(After(s, run))
    decreases |run|
  {
    if run != [] {
      StepKeepsInv(s, run[0]);
      forall a ensures Accounted(Next(s, run[0]), a) {
        StepKeepsAccount(s, run[0], a);
      }
      RunKeepsInv(Next(s, run[0]), run[1..]);
    }
  }

  lemma ReachableInv(s: State)
    requires Reachable(s)
    ensures Inv(s) && Kept(s)
  {
    var s0: State, run: seq<Step> :| Init(s0) && Runs(s0, run) && After(s0, run) == s;
    RunKeepsInv(s0, run);
  }

  /**
    Whatever the interleaving: a callback with a record in progress finds that record's rest at the
    head of the queue, so no record was ever cut short; every half-read record is in a callback, so
    one that has returned has left none behind; and PeelOff has only ever moved whole records.
  */
  lemma PeeledRecordsWhole(s: State)
    requires Reachable(s)
    ensures s.cb == In(true) ==>
      s.queue != [] && s.queue[0].chunk.Note? && 0 < s.queue[0].taken < |s.queue[0].chunk.bytes|
    ensures s.cuts == 0
    ensures s.cb == Out ==> forall i :: 0 <= i < |s.queue| ==> !s.queue[i].HalfRead()
    ensures forall i :: 0 <= i < |s.moved| ==> !s.moved[i].HalfRead()
    ensures s.cb == In(false) ==> s.unread
  {
    ReachableInv(s);
  }

  /**
    PeelOff takes an association's items with it, all and in order: whatever arrived here for an
    association was read here, and the rest still waits here, or, once it was peeled off, went with it.
  */
  lemma NothingLeftBehind(s: State, a: nat)
    requires Reachable(s)
    ensures Only(s.arrived, a) == Only(s.consumed, a) + Names(if a in s.peeled then s.moved else s.queue, a)
    ensures Names(if a in s.peeled then s.queue else s.moved, a) == []
  {
    ReachableInv(s);
    assert Accounted(s, a);
  }

  /** Without the exclusion it would not hold: moved in the middle of its record, an association cuts the callback short. */
  lemma ExclusionNeeded(s: State, size: nat)
    requires Reachable(s) && s.cb == In(true) && s.queue != [] && size >= 1
    requires forall i :: 1 <= i < |s.queue| ==> s.queue[i].chunk.Data?
    ensures var peeled := s.(queue := Of(s.queue, s.queue[0].assoc, false));
      Received(peeled, size).cuts == 1
  {
    ReachableInv(s);
    var head := s.queue[0].assoc;
    assert Of(s.queue, head, false) == Of(s.queue[1..], head, false);
    OfData(s.queue[1..], head);
  }

  lemma {:induction false} OfData(q: seq<Item>, assoc: nat)
    requires forall i :: 0 <= i < |q| ==> q[i].chunk.Data?
    ensures forall i :: 0 <= i < |Of(q, assoc, false)| ==> Of(q, assoc, false)[i].chunk.Data?
    decreases |q|
  {
    if q != [] {
      OfData(q[1..], assoc);
    }
  }
}
