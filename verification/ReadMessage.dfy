/**
  ReadMsg (recv_linux.go): one whole message, reassembled over any pieces the kernel delivers it
  in, with the notification records between them consumed on the way, at most `max` bytes kept,
  through buffers borrowed from the shared pool.

  `TakeMessage` says, on the stream of queued items alone, what the next message is.
*/
module ReadMessage {
  import opened Wrappers
  import opened Bytes
  import opened Accumulator
  import opened Receive
  import opened BufferPool
  import opened Latch

  // ----- Records -----

  const COMM_LOST: u16 := 1
  const RESTART: u16 := 2
  const SHUTDOWN_COMPLETE: u16 := 3

  predicate AssocState(order: Order, rec: seq<byte>, state: u16) {
    |rec| >= PREFIX && TypeOf(order, rec) == ASSOC_CHANGE && At16(order, rec, 8) == state
  }

  predicate IsPartialDelivery(order: Order, rec: seq<byte>) {
    |rec| >= HEADER && TypeOf(order, rec) == PARTIAL_DELIVERY
  }

  /** messageCut: the record says that a message in progress will never be completed. */
  predicate Cuts(order: Order, rec: seq<byte>) {
    IsPartialDelivery(order, rec) || AssocState(order, rec, RESTART)
  }

  function KindOf(order: Order, rec: seq<byte>): NoteKind {
    if AssocState(order, rec, COMM_LOST) then CommLost
    else if AssocState(order, rec, SHUTDOWN_COMPLETE) then ShutdownComplete
    else OtherNote
  }

  /** An association's end is said by an SCTP_ASSOC_CHANGE of at least 20 bytes, with state 1 or 3. */
  lemma KindsExact(order: Order, rec: seq<byte>)
    ensures KindOf(order, rec) == CommLost <==> |rec| >= 20 && At16(order, rec, 0) == 0x8001 && At16(order, rec, 8) == 1
    ensures KindOf(order, rec) == ShutdownComplete <==> |rec| >= 20 && At16(order, rec, 0) == 0x8001 && At16(order, rec, 8) == 3
    ensures Cuts(order, rec) <==>
      || (|rec| >= 8 && At16(order, rec, 0) == 0x8006)
      || (|rec| >= 20 && At16(order, rec, 0) == 0x8001 && At16(order, rec, 8) == 2)
  {
  }

  predicate Keeps(order: Order, rec: seq<byte>, policy: Policy) {
    |rec| >= HEADER && policy.Keeps(TypeOf(order, rec))
  }

  // ----- The stream, and the next message in it -----

  function Flatten(batches: seq<Batch>): seq<Chunk> {
    if batches == [] then [] else batches[0].items + Flatten(batches[1..])
  }

  /** What recvmsg returns once everything has arrived and been read. */
  function LastAnswer(sockErr: Option<Error>, rcvShut: bool, batches: seq<Batch>): Error
    decreases |batches|
  {
    if batches == [] then NothingQueued(sockErr, rcvShut)
    else LastAnswer(batches[0].err, batches[0].shut, batches[1..])
  }

  predicate HasEnd(order: Order, q: seq<Chunk>) {
    q != [] && ((q[0].Note? && KindOf(order, q[0].bytes) != OtherNote) || HasEnd(order, q[1..]))
  }

  /** Nothing arrives after an association's end: its record and its errno come together, and last. */
  predicate Quiet(order: Order, q: seq<Chunk>, sockErr: Option<Error>, rcvShut: bool, batches: seq<Batch>)
    decreases |batches|
  {
    && (sockErr.Some? ==> IsAssocFailure(sockErr.value))
    && (batches != [] ==>
         && sockErr == None && !rcvShut && !HasEnd(order, q)
         && Quiet(order, batches[0].items, batches[0].err, batches[0].shut, batches[1..]))
  }

  /** A graceful end leaves no errno behind. */
  predicate Graceful(last: Error) {
    last == EAGAIN || last == EOF
  }

  /**
    What the kernel queues, as the latch has seen it, and what it answers at the end: no empty item,
    well-formed records, nothing after an association's end, and no failure of one that ended
    gracefully.
  */
  predicate Stream(order: Order, q: seq<Chunk>, t: Term, last: Error)
    decreases |q|
  {
    && (Graceful(last) || IsAssocFailure(last))
    && (t.drained ==> t.err.Some?)
    && (t.ended ==> t.err == None && !t.failed && Graceful(last))
    && t.err != Some(EAGAIN)
    && (q != [] ==>
         && !t.failed && !t.ended && !t.drained
         && q[0].bytes != []
         && (q[0].Note? ==> Framing(order, q[0].bytes) == None)
         && (q[0].Note? && KindOf(order, q[0].bytes) == ShutdownComplete ==> t.err == None && Graceful(last))
         && Stream(order, q[1..], Seen(order, t, q[0]), last))
  }

  /** What the latch knows once an item was consumed. */
  function Seen(order: Order, t: Term, c: Chunk): Term {
    if c.Note? then AfterRecord(t, KindOf(order, c.bytes)) else t
  }

  datatype Ending =
    | Complete
    | CutShort(partialDelivery: bool)  // a record ended the message in progress: an abandoned delivery, or a restart
    | AssocOver(e: Error)              // the association ended first
    | Starved                          // nothing more arrives: the wait ends by deadline or close

  /** The bytes of a message, how it ended, what follows it, and what the latch then holds. */
  datatype Next = Next(bytes: seq<byte>, how: Ending, rest: seq<Chunk>, t: Term)

  function CutBy(order: Order, rec: seq<byte>): Ending {
    CutShort(IsPartialDelivery(order, rec))
  }

  /** What a read of a drained queue finds, given what the kernel answers. */
  function AtEnd(t: Term, last: Error): Ending {
    var e := AfterRead(t, last).1;
    if e == EAGAIN then Starved else AssocOver(e)
  }

  /** The next message of the stream, and what follows it; `started` once a piece of it was read. */
  function TakeMessage(order: Order, q: seq<Chunk>, t: Term, last: Error, started: bool): Next
    decreases |q|
  {
    if q == [] then Next([], AtEnd(t, last), [], AfterRead(t, last).0)
    else if q[0].Note? then
      if started && Cuts(order, q[0].bytes) then Next([], CutBy(order, q[0].bytes), q[1..], Seen(order, t, q[0]))
      else TakeMessage(order, q[1..], Seen(order, t, q[0]), last, started)
    else if q[0].eor then Next(q[0].bytes, Complete, q[1..], t)
    else Prepend(q[0].bytes, TakeMessage(order, q[1..], t, last, true))
  }

  function Prepend(bytes: seq<byte>, n: Next): Next {
    n.(bytes := bytes + n.bytes)
  }

  lemma PrependTwice(a: seq<byte>, b: seq<byte>, n: Next)
    ensures Prepend(a, Prepend(b, n)) == Prepend(a + b, n)
    ensures Prepend([], n) == n
  {
    assert a + (b + n.bytes) == a + b + n.bytes;
    assert [] + n.bytes == n.bytes;
  }

  /**
    The records that cut a message short: after its first piece, an abandoned partial delivery, or
    an association change that says the association restarted; before it, neither.
  */
  lemma RecordCuts(order: Order, first: seq<byte>, rec: seq<byte>, rest: seq<Chunk>, t: Term, last: Error)
    requires |rec| >= 20
    ensures var q := [Chunk.Data(first, false), Chunk.Note(rec)] + rest;
      var m := TakeMessage(order, q, t, last, false);
      && (At16(order, rec, 0) == 0x8006 ==> m == Next(first, CutShort(true), rest, t))
      && (At16(order, rec, 0) == 0x8001 && At16(order, rec, 8) == 2 ==> m == Next(first, CutShort(false), rest, t))
      && (At16(order, rec, 0) != 0x8006 && At16(order, rec, 0) != 0x8001 ==>
            m == Prepend(first, TakeMessage(order, rest, t, last, true)))
      && (At16(order, rec, 0) == 0x8001 && At16(order, rec, 8) != 1 && At16(order, rec, 8) != 2 && At16(order, rec, 8) != 3 ==>
            m == Prepend(first, TakeMessage(order, rest, t, last, true)))
    ensures At16(order, rec, 0) == 0x8006 ==>
      TakeMessage(order, [Chunk.Note(rec)] + rest, t, last, false) == TakeMessage(order, rest, t, last, false)
  {
    var q := [Chunk.Data(first, false), Chunk.Note(rec)] + rest;
    assert q[1..] == [Chunk.Note(rec)] + rest && ([Chunk.Note(rec)] + rest)[1..] == rest;
    assert first + [] == first;
    assert t == AfterRecord(t, OtherNote);
  }

  /** Reading `size` bytes of a message's item splits it without changing what the message is. */
  lemma SplitData(order: Order, q: seq<Chunk>, t: Term, last: Error, size: nat, started: bool)
    requires q != [] && q[0].Data? && size >= 1 && q[0].bytes != []
    ensures TakeMessage(order, q, t, last, started)
         == if Ends(q[0], size) then Next(FirstPart(q[0], size), Complete, RestOf(q, size), t)
            else Prepend(FirstPart(q[0], size), TakeMessage(order, RestOf(q, size), t, last, true))
  {
    var b := q[0].bytes;
    if |b| <= size {
      assert FirstPart(q[0], size) == b;
    } else {
      var rest := RestOf(q, size);
      assert rest[1..] == q[1..];
      assert b == b[..size] + b[size..];
      PrependTwice(b[..size], b[size..], TakeMessage(order, q[1..], t, last, true));
    }
  }

  /** One message, cut anywhere, with records that do not end it before and between its pieces. */
  predicate OneMessage(order: Order, q: seq<Chunk>) {
    && q != [] && q[|q| - 1].Data? && q[|q| - 1].eor
    && (forall i :: 0 <= i < |q| - 1 && q[i].Data? ==> !q[i].eor)
    && (forall i :: 0 <= i < |q| && q[i].Note? ==> !Cuts(order, q[i].bytes) && KindOf(order, q[i].bytes) == OtherNote)
  }

  function DataOf(q: seq<Chunk>): seq<byte> {
    if q == [] then [] else (if q[0].Data? then q[0].bytes else []) + DataOf(q[1..])
  }

  /** Such a message is what is taken: all of its bytes, and no other, with what follows it left. */
  lemma {:induction false} MessageTaken(order: Order, q: seq<Chunk>, rest: seq<Chunk>, t: Term, last: Error, started: bool)
    requires OneMessage(order, q)
    ensures TakeMessage(order, q + rest, t, last, started) == Next(DataOf(q), Complete, rest, t)
    decreases |q|
  {
    assert (q + rest)[0] == q[0] && (q + rest)[1..] == q[1..] + rest;
    if |q| == 1 {
      assert q[1..] == [] && q[0].bytes + [] == q[0].bytes && [] + rest == rest;
    } else {
      RestOfMessage(order, q, t);
      MessageTaken(order, q[1..], rest, t, last, if q[0].Data? then true else started);
    }
  }

  lemma RestOfMessage(order: Order, q: seq<Chunk>, t: Term)
    requires OneMessage(order, q) && |q| > 1
    ensures OneMessage(order, q[1..]) && Seen(order, t, q[0]) == t
    ensures q[0].Note? ==> DataOf(q) == DataOf(q[1..])
  {
    var r := q[1..];
    assert forall i :: 0 <= i < |r| ==> r[i] == q[i + 1];
    assert [] + DataOf(r) == DataOf(r);
  }

  function Sizes(q: seq<Chunk>): nat {
    if q == [] then 0 else |q[0].bytes| + 1 + Sizes(q[1..])
  }

  /** Every read makes the stream smaller, and leaves it a stream. */
  lemma RestStream(order: Order, q: seq<Chunk>, t: Term, last: Error, size: nat)
    requires q != [] && size >= 1 && Stream(order, q, t, last) && q[0].Data?
    ensures Stream(order, RestOf(q, size), t, last) && Sizes(RestOf(q, size)) < Sizes(q)
  {
    if |q[0].bytes| > size {
      assert RestOf(q, size)[1..] == q[1..];
    }
  }

  // ----- The records handed over -----

  /** The records the handler receives, and whether one was dropped for want of room. */
  datatype Handover = Handover(records: seq<seq<byte>>, dropped: bool)

  function Before(h: seq<seq<byte>>, rest: Handover): Handover {
    rest.(records := h + rest.records)
  }

  /**
    What the handler receives while the next message is taken. Records that come between the
    message's pieces wait in a queue of `room` bytes; once one does not fit, no more are kept
    (`room` is then -1). A record that cuts the message short is not counted.
  */
  function HandOver(order: Order, q: seq<Chunk>, started: bool, policy: Policy, room: int): Handover
    decreases |q|
  {
    if q == [] then Handover([], false)
    else if q[0].Data? then
      if q[0].eor then Handover([], false) else HandOver(order, q[1..], true, policy, room)
    else
      var rec := q[0].bytes;
      var kept := Keeps(order, rec, policy) && !(started && room < 0);
      if started && Cuts(order, rec) then Handover(if kept then [rec] else [], false)
      else if !kept then HandOver(order, q[1..], started, policy, room)
      else if !started then Before([rec], HandOver(order, q[1..], false, policy, room))
      else if |rec| <= room then Before([rec], HandOver(order, q[1..], true, policy, room - |rec|))
      else HandOver(order, q[1..], true, policy, -1).(dropped := true)
  }

  /** The records of the policy up to the end of the next message. */
  function Wished(order: Order, q: seq<Chunk>, started: bool, policy: Policy): seq<seq<byte>>
    decreases |q|
  {
    if q == [] then []
    else if q[0].Data? then
      if q[0].eor then [] else Wished(order, q[1..], true, policy)
    else
      var mine := if Keeps(order, q[0].bytes, policy) then [q[0].bytes] else [];
      if started && Cuts(order, q[0].bytes) then mine else mine + Wished(order, q[1..], started, policy)
  }

  function Bulk(records: seq<seq<byte>>): nat {
    if records == [] then 0 else |records[0]| + Bulk(records[1..])
  }

  /** While there is room for all of them, the handler receives every record it wishes for, in order. */
  lemma {:induction false} AllHandedOver(order: Order, q: seq<Chunk>, started: bool, policy: Policy, room: nat)
    requires Bulk(Wished(order, q, started, policy)) <= room
    ensures HandOver(order, q, started, policy, room) == Handover(Wished(order, q, started, policy), false)
    decreases |q|
  {
    if q == [] {
    } else if q[0].Data? {
      if !q[0].eor { AllHandedOver(order, q[1..], true, policy, room); }
    } else if !(started && Cuts(order, q[0].bytes)) {
      var rest := Wished(order, q[1..], started, policy);
      if Keeps(order, q[0].bytes, policy) {
        assert ([q[0].bytes] + rest)[1..] == rest;
        AllHandedOver(order, q[1..], started, policy, if started then room - |q[0].bytes| else room);
      } else {
        assert [] + rest == rest;
        AllHandedOver(order, q[1..], started, policy, room);
      }
    }
  }

  /**
    In any case the handler receives them in order up to some point, all of them if and only if
    none was dropped; and nothing more once the queue is full.
  */
  lemma {:induction false} HandedPrefix(order: Order, q: seq<Chunk>, started: bool, policy: Policy, room: int)
    requires room >= 0 || started
    ensures var h, w := HandOver(order, q, started, policy, room), Wished(order, q, started, policy);
      if room < 0 then h == Handover([], false)
      else h.records <= w && (h.dropped <==> h.records != w)
    decreases |q|
  {
    if q == [] {
    } else if q[0].Data? {
      if !q[0].eor { HandedPrefix(order, q[1..], true, policy, room); }
    } else if !(started && Cuts(order, q[0].bytes)) {
      var rec, rest := q[0].bytes, Wished(order, q[1..], started, policy);
      assert [] + rest == rest;
      if Keeps(order, rec, policy) && room >= 0 {
        assert ([rec] + rest)[0] == rec && ([rec] + rest)[1..] == rest;
        HandedPrefix(order, q[1..], started, policy, if !started then room else if |rec| <= room then room - |rec| else -1);
      } else {
        HandedPrefix(order, q[1..], started, policy, room);
      }
    }
  }

  /** Reading `size` bytes of a message's item does not change which records are handed over. */
  lemma SplitHandOver(order: Order, q: seq<Chunk>, size: nat, started: bool, policy: Policy, room: int)
    requires q != [] && q[0].Data? && size >= 1
    ensures HandOver(order, q, started, policy, room)
         == if Ends(q[0], size) then Handover([], false) else HandOver(order, RestOf(q, size), true, policy, room)
  {
    if |q[0].bytes| > size {
      assert RestOf(q, size)[1..] == q[1..];
    }
  }

  /** The head of what is queued is the head of the whole stream. */
  lemma QueueFirst(q: seq<Chunk>, later: seq<Chunk>, size: nat)
    ensures q != [] ==> (q + later)[0] == q[0] && q[1..] + later == (q + later)[1..]
    ensures q != [] ==> RestOf(q, size) + later == RestOf(q + later, size)
  {
  }

  lemma {:induction false} StreamItems(order: Order, q: seq<Chunk>, later: seq<Chunk>, t: Term, last: Error)
    requires Stream(order, q + later, t, last)
    ensures NonEmpty(q) && (q != [] && q[0].Note? ==> |q[0].bytes| <= LIMIT)
    decreases |q|
  {
    if q != [] {
      assert (q + later)[1..] == q[1..] + later;
      StreamItems(order, q[1..], later, Seen(order, t, q[0]), last);
    }
  }

  // ----- A read under way -----

  /** The records of a read: those the handler has, and those that wait until the message has been read. */
  datatype Notes = Notes(
    handled: seq<seq<byte>>,
    queued: seq<seq<byte>>,
    room: int,               // what the queue still holds, or -1 once a record did not fit
    dropped: bool)

  /** What becomes of a record: it cuts the message short, goes at once to the handler, waits, or is dropped. */
  datatype Fate = CutsMessage(partialDelivery: bool) | Now | Waits | NoRoom | Dropped

  function FateOf(order: Order, rec: seq<byte>, started: bool, room: int, policy: Policy): Fate {
    if started && Cuts(order, rec) then CutsMessage(IsPartialDelivery(order, rec))
    else if !Keeps(order, rec, policy) || (started && room < 0) then Dropped
    else if !started then Now
    else if |rec| <= room then Waits
    else NoRoom
  }

  /** The record itself, when it was retained. */
  function Retained(order: Order, rec: seq<byte>, started: bool, room: int, policy: Policy): Option<seq<byte>> {
    if Keeps(order, rec, policy) && (!started || room >= 0) then Some(rec) else None
  }

  function Filed(n: Notes, fate: Fate, record: Option<seq<byte>>): Notes {
    if record.None? then n
    else
      match fate
      case CutsMessage(_) => n.(queued := n.queued + [record.value])
      case Now => n.(handled := n.handled + [record.value])
      case Waits => n.(queued := n.queued + [record.value], room := n.room - |record.value|)
      case NoRoom => n.(room := -1, dropped := true)
      case Dropped => n
  }

  /** What the handler will have received in the end. */
  function Final(order: Order, q: seq<Chunk>, started: bool, policy: Policy, n: Notes): Handover {
    var h := HandOver(order, q, started, policy, n.room);
    Handover(n.handled + n.queued + h.records, n.dropped || h.dropped)
  }

  /** A record is handed over in its turn, or not at all, as its fate says. */
  lemma RecordKeepsNotes(order: Order, q: seq<Chunk>, started: bool, policy: Policy, n: Notes)
    requires q != [] && q[0].Note? && (!started ==> n.queued == [])
    ensures var rec := q[0].bytes;
      var fate := FateOf(order, rec, started, n.room, policy);
      var n' := Filed(n, fate, Retained(order, rec, started, n.room, policy));
      Final(order, q, started, policy, n)
      == if fate.CutsMessage? then Handover(n'.handled + n'.queued, n'.dropped) else Final(order, q[1..], started, policy, n')
  {
    var rec := q[0].bytes;
    var fate := FateOf(order, rec, started, n.room, policy);
    var rest := HandOver(order, q[1..], started, policy, if fate == Waits then n.room - |rec| else n.room).records;
    if fate == Waits {
      assert n.handled + n.queued + ([rec] + rest) == n.handled + (n.queued + [rec]) + rest;
    } else if fate == Now {
      assert n.handled + [] + ([rec] + rest) == n.handled + [rec] + [] + rest;
    } else if fate.CutsMessage? {
      assert n.handled + n.queued + [rec] == n.handled + (n.queued + [rec]);
      assert n.handled + n.queued + [] == n.handled + n.queued;
    }
  }

  /** What a read in progress still has before it, and what it has so far. */
  datatype Progress = Progress(pending: seq<Chunk>, t: Term, last: Error, got: seq<byte>, notes: Notes)

  /** The read is going to have taken this message, and handed over these records. */
  predicate Toward(order: Order, policy: Policy, p: Progress, goal: Next, notes: Handover) {
    && Stream(order, p.pending, p.t, p.last)
    && (p.got == [] ==> p.notes.queued == [] && p.notes.room >= 0)
    && goal == Prepend(p.got, TakeMessage(order, p.pending, p.t, p.last, p.got != []))
    && notes == Final(order, p.pending, p.got != [], policy, p.notes)
  }

  lemma StartsToward(order: Order, policy: Policy, p: Progress)
    requires Stream(order, p.pending, p.t, p.last) && p.got == [] && p.notes.queued == [] && !p.notes.dropped && p.notes.room >= 0
    ensures Toward(order, policy, p, TakeMessage(order, p.pending, p.t, p.last, false),
                   Before(p.notes.handled, HandOver(order, p.pending, false, policy, p.notes.room)))
  {
    PrependTwice([], [], TakeMessage(order, p.pending, p.t, p.last, false));
    assert p.notes.handled + [] == p.notes.handled;
  }

  predicate Reached(p: Progress, how: Ending, goal: Next, notes: Handover) {
    && goal == Next(p.got, how, p.pending, p.t)
    && notes == Handover(p.notes.handled + p.notes.queued, p.notes.dropped)
  }

  /** What one turn of the read does. */
  datatype Move = Wait | Conclude | TakePiece(size: nat) | TakeRecord

  predicate Legal(order: Order, p: Progress, m: Move) {
    match m
    case Wait => true
    case Conclude => p.pending == []
    case TakePiece(size) => p.pending != [] && p.pending[0].Data? && size >= 1
    case TakeRecord => p.pending != [] && p.pending[0].Note?
  }

  function Moved(order: Order, policy: Policy, p: Progress, m: Move): Progress
    requires Legal(order, p, m)
  {
    match m
    case Wait => p
    case Conclude => p.(t := AfterRead(p.t, p.last).0)
    case TakePiece(size) => p.(pending := RestOf(p.pending, size), got := p.got + FirstPart(p.pending[0], size))
    case TakeRecord =>
      var rec, started, room := p.pending[0].bytes, p.got != [], p.notes.room;
      Progress(p.pending[1..], AfterRecord(p.t, KindOf(order, rec)), p.last, p.got,
               Filed(p.notes, FateOf(order, rec, started, room, policy), Retained(order, rec, started, room, policy)))
  }

  function Ended(order: Order, p: Progress, m: Move): Option<Ending>
    requires Legal(order, p, m)
  {
    match m
    case Wait => None
    case Conclude => Some(AtEnd(p.t, p.last))
    case TakePiece(size) => if Ends(p.pending[0], size) then Some(Complete) else None
    case TakeRecord =>
      var rec := p.pending[0].bytes;
      if p.got != [] && Cuts(order, rec) then Some(CutShort(IsPartialDelivery(order, rec))) else None
  }

  /** Whatever a turn does, the read goes on toward the same message and records, or has reached them. */
  lemma MoveKeepsGoal(order: Order, policy: Policy, p: Progress, m: Move, goal: Next, notes: Handover)
    requires Toward(order, policy, p, goal, notes) && Legal(order, p, m)
    ensures var p' := Moved(order, policy, p, m);
      match Ended(order, p, m)
      case None => Toward(order, policy, p', goal, notes)
      case Some(how) => Reached(p', how, goal, notes)
    ensures m.TakePiece? || m.TakeRecord? ==> Sizes(Moved(order, policy, p, m).pending) < Sizes(p.pending)
  {
    match m
    case Wait =>
    case Conclude =>
      assert p.got + [] == p.got && p.notes.handled + p.notes.queued + [] == p.notes.handled + p.notes.queued;
    case TakePiece(size) => PieceKeepsGoal(order, policy, p, size, goal, notes);
    case TakeRecord =>
      RecordKeepsNotes(order, p.pending, p.got != [], policy, p.notes);
      assert p.got + [] == p.got;
  }

  lemma PieceKeepsGoal(order: Order, policy: Policy, p: Progress, size: nat, goal: Next, notes: Handover)
    requires Toward(order, policy, p, goal, notes) && Legal(order, p, TakePiece(size))
    ensures var p' := Moved(order, policy, p, TakePiece(size));
      && Sizes(p'.pending) < Sizes(p.pending)
      && if Ends(p.pending[0], size) then Reached(p', Complete, goal, notes) else Toward(order, policy, p', goal, notes)
  {
    RestStream(order, p.pending, p.t, p.last, size);
    SplitData(order, p.pending, p.t, p.last, size, p.got != []);
    SplitHandOver(order, p.pending, size, p.got != [], policy, p.notes.room);
    PrependTwice(p.got, FirstPart(p.pending[0], size), TakeMessage(order, RestOf(p.pending, size), p.t, p.last, true));
    assert p.notes.handled + p.notes.queued + [] == p.notes.handled + p.notes.queued;
  }

  /** What a read of a drained stream learns: nothing, or its end, which every later read then reports. */
  lemma DrainedRead(order: Order, t: Term, last: Error)
    requires Stream(order, [], t, last)
    ensures var (t', e) := AfterRead(t, last);
      && AtEnd(t, last) == (if e == EAGAIN then Starved else AssocOver(e))
      && (e == EAGAIN ==> t' == t)
      && (forall later :: Graceful(later) ==> Stream(order, [], t', later))
      && (e != EAGAIN && e != EOF ==> ReadEnd(t') == Some(e))
  {
  }

  /** An end that the latch reports without a system call is the one a read would find. */
  lemma KnownEnd(order: Order, q: seq<Chunk>, t: Term, last: Error)
    requires Stream(order, q, t, last) && ReadEnd(t).Some?
    ensures q == [] && AtEnd(t, last) == AssocOver(ReadEnd(t).value) && AfterRead(t, last).0 == t
  {
  }

  /**
    How a failed association ends a read: with the errno that the kernel set for it, or ENOTCONN when
    something else took that errno, and with the same answer for every later read.
  */
  lemma FailureEnds(order: Order, rec: seq<byte>, t: Term, last: Error, started: bool)
    requires KindOf(order, rec) == CommLost && Stream(order, [Chunk.Note(rec)], t, last) && t.err == None
    ensures var m := TakeMessage(order, [Chunk.Note(rec)], t, last, started);
      var e := if IsAssocFailure(last) then last else ENOTCONN;
      m.how == AssocOver(e) && m.rest == [] && m.t.err == Some(e) && ReadEnd(m.t) == Some(e)
  {
    assert [Chunk.Note(rec)][1..] == [];
    assert !Cuts(order, rec);
  }

  /** Reading a queue, or a message's first bytes from it, leaves it as quiet as it was. */
  lemma QuietRest(order: Order, q: seq<Chunk>, size: nat)
    requires q != []
    ensures !HasEnd(order, q) ==> !HasEnd(order, q[1..])
    ensures q[0].Data? && !HasEnd(order, q) ==> !HasEnd(order, RestOf(q, size))
    ensures q[0].Note? && KindOf(order, q[0].bytes) != OtherNote ==> HasEnd(order, q)
  {
    if q[0].Data? && |q[0].bytes| > size {
      assert RestOf(q, size)[1..] == q[1..];
    }
  }

  // ----- The assembly buffer -----

  const CHUNK := 2048

  function Max(a: nat, b: nat): nat {
    if a < b then b else a
  }

  /** How much a full buffer of `len` bytes asks for next. */
  function Wanted(len: nat, max: nat): nat
    requires len < max
  {
    len + Min(if len < CHUNK then CHUNK - len else len, max - len)
  }

  /** From 256 bytes to 2048, then doubling, and never past max. */
  lemma GrowthExact(len: nat, max: nat)
    requires len < max
    ensures Wanted(len, max) == if len < 2048 then Min(2048, max) else Min(2 * len, max)
  {
  }

  /** The buffer that answers stays within eight times what was received. */
  lemma GrowthBounded(len: nat, max: nat)
    requires 256 <= len < max
    ensures var want := Wanted(len, max);
      var cls := ClassOf(want);
      len < want <= max && (if cls >= 0 then ClassSize(cls) else want) <= 8 * len
  {
  }

  /** Bytes written behind those a buffer holds, or not written at all. */
  lemma Appended(buf: seq<byte>, got: seq<byte>, total: nat, bytes: seq<byte>)
    requires total <= |buf| && total <= |got| && buf[..total] == got[..total]
    ensures buf[..total] == (got + bytes)[..total]
    ensures total == |got| && total + |bytes| <= |buf| ==>
      Splice(buf, total, bytes)[..total + |bytes|] == (got + bytes)[..total + |bytes|]
  {
  }

  /** The bytes of the message in progress: at most `max` of them, in a buffer that follows their number. */
  class Assembly {
    const pool: Pool
    const max: nat
    ghost const lent: seq<set<array<byte>>>  // what the pool had lent when the call began
    ghost const shelf: set<array<byte>>      // and what it had idle
    var buf: array<byte>
    var len: nat         // the part of buf in use: buf[..len]
    var cls: int         // the class buf is borrowed from, or -1 for a buffer of the call's own
    var total: nat
    var tooLong: bool
    ghost var got: seq<byte>  // every byte of the message received so far
    ghost var footprint: set<array<byte>>  // every buffer the call may have written

    /** The pool lends this call its buffer, and nothing else changed hands. */
    ghost predicate Holds()
      reads this, pool
    {
      && pool.Valid() && -1 <= cls < CLASSES && buf !in pool.stock
      && (cls >= 0 ==> buf in pool.borrowed[cls])
      && Without(pool.borrowed, cls, buf) == lent
      && buf in footprint && pool.stock <= footprint && (cls < 0 ==> buf !in shelf)
    }

    ghost predicate Core()
      reads this, buf, pool
    {
      && Holds() && max > 0
      && total <= len <= buf.Length && len <= max
      && len <= Max(256, 8 * |got|) && (len < 256 ==> len == max)
      && total == Min(|got|, max) && buf[..total] == got[..total]
    }

    /** A message not yet complete has overrun max as soon as it reached it. */
    ghost predicate Valid()
      reads this, buf, pool
    {
      Core() && tooLong == (|got| >= max)
    }

    constructor (pool: Pool, max: nat)
      requires pool.Valid() && max > 0
      ensures Valid() && this.pool == pool && this.max == max && got == []
      ensures lent == pool.borrowed && shelf == pool.stock && fresh(footprint - shelf)
    {
      this.pool, this.max, lent, shelf := pool, max, pool.borrowed, pool.stock;
      len, cls, total, tooLong, got := Min(256, max), -1, 0, false, [];
      var first := new byte[Min(256, max)];
      buf := first;
      footprint := pool.stock + {first};
    }

    /** Makes room for the next piece, unless the message has overrun max. */
    method MakeRoom()
      requires Valid()
      modifies this, pool, footprint
      ensures Valid() && got == old(got) && (tooLong || total < len)
      ensures fresh(footprint - old(footprint))
    {
      if tooLong || total < len { return; }
      GrowthBounded(len, max);
      var grown, c := pool.Borrow(Wanted(len, max));
      Copy(grown, buf, total);
      Replace(grown, c);
    }

    /** Goes over to a borrowed buffer that holds the bytes already, and returns the old one. */
    method Replace(grown: array<byte>, c: int)
      requires pool.Valid() && -1 <= cls < CLASSES && -1 <= c < CLASSES && grown != buf && grown !in pool.stock
      requires (cls >= 0 ==> buf in pool.borrowed[cls]) && (c >= 0 ==> grown in pool.borrowed[c])
      requires Without(Without(pool.borrowed, c, grown), cls, buf) == lent
      requires buf in footprint && pool.stock <= footprint && (c < 0 ==> grown !in shelf)
      modifies this`buf, this`len, this`cls, this`footprint, pool
      ensures Holds() && buf == grown && cls == c && len == Min(grown.Length, max)
      ensures footprint == old(footprint) + {grown}
    {
      WithoutBoth(pool.borrowed, c, grown, cls, buf);
      if cls >= 0 {
        pool.Put(cls, buf);
      }
      buf, len, cls := grown, Min(grown.Length, max), c;
      footprint := footprint + {grown};
    }

    /** Adds a piece of the message: what fits below max is kept, the rest only counted. */
    method Absorb(bytes: seq<byte>, eor: bool)
      requires Valid() && bytes != [] && (!tooLong ==> |bytes| <= len - total)
      modifies this`total, this`tooLong, this`got, buf
      ensures Core() && got == old(got) + bytes
      ensures tooLong == if eor then |got| > max else |got| >= max
    {
      ghost var before := buf[..];
      Appended(before, got, total, bytes);
      if !tooLong {
        Write(buf, total, bytes);
        total := total + |bytes|;
        if total == max && !eor {
          tooLong := true;
        }
      }
      got := got + bytes;
    }

    /** The caller's bytes: never the pool's, which gets its buffer back. */
    method Finish() returns (out: array<byte>, n: nat)
      requires Core()
      modifies pool
      ensures n == Min(|got|, max) && n <= out.Length && out[..n] == got[..n]
      ensures pool.Valid() && pool.borrowed == lent && out !in pool.stock
      ensures fresh(out) || (out in footprint && out !in shelf)
    {
      if cls < 0 { return buf, total; }
      out, n := new byte[total], total;
      Copy(out, buf, total);
      pool.Put(cls, buf);
    }

    method Copy(dst: array<byte>, src: array<byte>, n: nat)
      requires dst != src && n <= dst.Length && n <= src.Length
      modifies dst
      ensures dst[..n] == src[..n]
    {
      var i := 0;
      while i < n
        invariant 0 <= i <= n && dst[..i] == src[..i]
      {
        dst[i] := src[i];
        i := i + 1;
      }
    }
  }

  // ----- ReadMsg -----

  datatype Status =
    | Whole
    | MessageTooLong
    | MessageInterrupted(how: Ending)
    | NoMessage(how: Ending)
    | InvalidMax
    | Closed
    | NotSupported

  /** What a read reports for the message it took. */
  function Report(m: Next, max: nat): Status {
    if m.how == Complete then if |m.bytes| > max then MessageTooLong else Whole
    else if m.bytes != [] then MessageInterrupted(m.how)
    else NoMessage(m.how)
  }

  /** An interrupted read aborts the connection, unless a partial delivery's abort marks the boundary. */
  predicate MustAbort(status: Status) {
    status.MessageInterrupted? && status.how != CutShort(true)
  }

  datatype Event =
    | Idle(how: Option<Ending>)                         // waited, or found the end
    | Piece(bytes: seq<byte>, eor: bool)
    | Consumed(fate: Fate, record: Option<seq<byte>>)   // a whole record, retained or not

  /** Outside the callback, about to ask the latch; in it, before the message starts; or in the message. */
  datatype Phase = Outside | Inside | Started

  class Conn {
    const recv: RecvState
    const term: TermState
    const pool: Pool
    const policy: Policy      // keepNotes: there is a handler
    const interleaved: bool
    var aborted: bool
    var handled: seq<seq<byte>>  // every record the handler received

    constructor (recv: RecvState, term: TermState, pool: Pool, policy: Policy, interleaved: bool)
      ensures this.recv == recv && this.term == term && this.pool == pool
      ensures this.policy == policy && this.interleaved == interleaved && !aborted && handled == []
    {
      this.recv, this.term, this.pool, this.policy, this.interleaved := recv, term, pool, policy, interleaved;
      aborted, handled := false, [];
    }

    function Ord(): Order {
      recv.notes.order
    }

    /** Everything queued, and everything still to come. */
    function Pending(): seq<Chunk>
      reads recv.kernel
    {
      recv.kernel.queue + Flatten(recv.kernel.arrivals)
    }

    /** What the kernel answers after that. */
    function Last(): Error
      reads recv.kernel
    {
      LastAnswer(recv.kernel.sockErr, recv.kernel.rcvShut, recv.kernel.arrivals)
    }

    /** More arrives only while nothing has said that the association is over. */
    ghost predicate Calm()
      reads recv.kernel, term
    {
      var k := recv.kernel;
      && Quiet(Ord(), k.queue, k.sockErr, k.rcvShut, k.arrivals)
      && (k.arrivals != [] ==> term.err == None && !term.failed && !term.ended)
    }

    ghost predicate Valid()
      reads recv`noting, recv.kernel, term, pool
    {
      pool.Valid() && Streaming()
    }

    /** Between two turns: no record in progress, and a stream ahead. */
    ghost predicate Streaming()
      reads recv`noting, recv.kernel, term
    {
      !recv.noting && Calm() && Stream(Ord(), Pending(), term.View(), Last())
    }

    /** What the callback is asked to keep: records for the handler, while the queue has room. */
    function Asked(started: bool, room: int): Policy {
      policy.(keepNotes := policy.keepNotes && (!started || room >= 0))
    }

    /** The consumed record, with its effect on the latch applied. */
    method EndRecord(started: bool, room: int, ghost rec: seq<byte>) returns (fate: Fate, record: Option<seq<byte>>)
      requires Framing(Ord(), rec) == None
      requires Taking(Ord(), recv.View().(noting := true), rec, rec, Asked(started, room))
      modifies recv.notes, term`failed, term`ended
      ensures term.View() == AfterRecord(old(term.View()), KindOf(Ord(), rec))
      ensures fate == FateOf(Ord(), rec, started, room, policy)
      ensures record == Retained(Ord(), rec, started, room, policy)
    {
      Taken(Ord(), recv.View().(noting := true), rec, Asked(started, room));
      PrefixOf(Ord(), rec);
      var head := recv.notes.prefix;
      var kept := recv.kept;
      term.EndRecordLocked(KindOf(Ord(), head));
      var data, _ := recv.notes.FinishRecord();
      record := if kept then Some(data) else None;
      if started && Cuts(Ord(), head) { fate := CutsMessage(IsPartialDelivery(Ord(), head)); }
      else if !kept { fate := Dropped; }
      else if !started { fate := Now; }
      else if |data| <= room { fate := Waits; }
      else { fate := NoRoom; }
      recv.notes.Reset();
    }

    /** The objects, at a point of a read: what is before it, and what it has. */
    ghost predicate At(asm: Assembly, n: Notes, p: Progress)
      reads this`handled, recv`noting, recv.kernel, term, pool, asm, asm.buf
    {
      && Valid() && asm.pool == pool && asm.Core()
      && p == Progress(Pending(), term.View(), p.last, asm.got, n) && n.handled == handled
    }

    /** The queue was found empty, and the kernel answered `e`: the latch has the end to report, or the poller waits. */
    method Park(e: Error, ghost last: Error) returns (how: Option<Ending>)
      requires !recv.noting && pool.Valid() && Calm() && Stream(Ord(), Pending(), term.View(), last)
      requires recv.kernel.queue == [] && recv.kernel.sockErr == None
      requires if recv.kernel.arrivals == [] then e == last else e == EAGAIN && last == Last()
      requires e == EAGAIN ==> last == Last()
      modifies recv.kernel, term
      ensures Valid() && Pending() == old(Pending())
      ensures how.None? ==> term.View() == old(term.View()) && Last() == last
      ensures how.None? ==> |recv.kernel.arrivals| < |old(recv.kernel.arrivals)|
      ensures how.Some? ==> Pending() == [] && how.value == AtEnd(old(term.View()), last)
      ensures how.Some? ==> term.View() == AfterRead(old(term.View()), last).0 && (how.value == Starved ==> Last() == last)
    {
      assert Pending() == Flatten(recv.kernel.arrivals);
      if recv.kernel.arrivals == [] { DrainedRead(Ord(), term.View(), last); }
      var reported := term.ReadErrorLocked(e);
      if reported != EAGAIN {
        return Some(AssocOver(reported));
      }
      var ready := recv.kernel.Wait();
      return if ready then None else Some(Starved);
    }

    /** An event is what p has next, and the stream and the latch are then past it. */
    ghost predicate Shows(e: Event, size: nat, p: Progress)
      reads recv.kernel, term
    {
      var q, t, started := p.pending, term.View(), p.got != [];
      match e
      case Idle(None) => Pending() == q && t == p.t && Last() == p.last
      case Idle(Some(how)) =>
        && Pending() == q == [] && how == AtEnd(p.t, p.last) && t == AfterRead(p.t, p.last).0
        && (how == Starved ==> Last() == p.last)
      case Piece(bytes, eor) =>
        && size >= 1 && q != [] && q[0].Data? && (bytes, eor) == (FirstPart(q[0], size), Ends(q[0], size))
        && bytes != [] && Pending() == RestOf(q, size) && t == p.t && Last() == p.last
      case Consumed(fate, record) =>
        && q != [] && q[0].Note? && Pending() == q[1..] && t == AfterRecord(p.t, KindOf(Ord(), q[0].bytes)) && Last() == p.last
        && fate == FateOf(Ord(), q[0].bytes, started, p.notes.room, policy)
        && record == Retained(Ord(), q[0].bytes, started, p.notes.room, policy)
    }

    /** The callback, on the whole stream: its queue is empty, or its head was read or consumed. */
    method Callback(size: nat, asked: Policy) returns (f: Found)
      requires Valid() && size >= 1
      modifies recv, recv.notes, recv.kernel
      ensures !recv.noting && recv.kernel.arrivals == old(recv.kernel.arrivals)
      ensures Calm()
      ensures f.Nothing? ==>
        && Pending() == old(Pending()) && recv.kernel.queue == [] && recv.kernel.sockErr == None
        && (if recv.kernel.arrivals == [] then f.e == old(Last()) else f.e == EAGAIN && Last() == old(Last()))
        && (f.e == EAGAIN ==> Last() == old(Last()))
      ensures !f.Nothing? ==> old(Pending()) != [] && Last() == old(Last())
      ensures f.Message? ==>
        var c := old(Pending())[0];
        c.Data? && Pending() == RestOf(old(Pending()), size) && f == Message(FirstPart(c, size), Ends(c, size))
      ensures f.Record? ==>
        var c := old(Pending())[0];
        && c.Note? && Pending() == old(Pending())[1..]
        && Taking(Ord(), recv.View().(noting := true), c.bytes, c.bytes, asked)
        && (KindOf(Ord(), c.bytes) != OtherNote ==> recv.kernel.arrivals == [])
    {
      ghost var q, later := recv.kernel.queue, Flatten(recv.kernel.arrivals);
      QueueFirst(q, later, size);
      StreamItems(Ord(), q, later, term.View(), Last());
      if q != [] { QuietRest(Ord(), q, size); }
      f := recv.Attempt(size, asked);
    }

    /** One callback's worth of the stream: its end or a wait, a piece of a message, or a whole record. */
    method Advance(size: nat, started: bool, room: int, ghost p: Progress) returns (e: Event)
      requires Valid() && size >= 1
      requires p.pending == Pending() && p.t == term.View() && p.last == Last()
      requires p.notes.room == room && started == (p.got != [])
      modifies recv, recv.notes, recv.kernel, term
      ensures Valid() && Shows(e, size, p)
      ensures e == Idle(None) ==> |recv.kernel.arrivals| < |old(recv.kernel.arrivals)|
    {
      var f := Callback(size, Asked(started, room));
      match f
      case Nothing(err) => e := OnNothing(err, p);
      case Message(bytes, eor) => e := OnMessage(bytes, eor, size, p);
      case Record => e := OnRecord(started, room, p);
    }

    /** The callback found the queue empty. */
    method OnNothing(err: Error, ghost p: Progress) returns (e: Event)
      requires !recv.noting && pool.Valid() && Calm() && Stream(Ord(), p.pending, p.t, p.last)
      requires p.pending == Pending() && p.t == term.View() && recv.kernel.queue == [] && recv.kernel.sockErr == None
      requires if recv.kernel.arrivals == [] then err == p.last else err == EAGAIN && p.last == Last()
      requires err == EAGAIN ==> p.last == Last()
      modifies recv.kernel, term
      ensures Valid() && e.Idle? && Shows(e, 0, p)
      ensures e == Idle(None) ==> |recv.kernel.arrivals| < |old(recv.kernel.arrivals)|
    {
      var how := Park(err, p.last);
      return Idle(how);
    }

    /** The callback read the first bytes of the message that p has next. */
    method OnMessage(bytes: seq<byte>, eor: bool, size: nat, ghost p: Progress) returns (e: Event)
      requires p.pending != [] && p.pending[0].Data? && Stream(Ord(), p.pending, p.t, p.last) && !recv.noting && pool.Valid()
      requires p.t == term.View() && p.last == Last() && size >= 1 && Pending() == RestOf(p.pending, size) && Calm()
      requires bytes == FirstPart(p.pending[0], size) && eor == Ends(p.pending[0], size)
      ensures Valid() && e.Piece? && Shows(e, size, p)
    {
      RestStream(Ord(), p.pending, p.t, p.last, size);
      return Piece(bytes, eor);
    }

    /** The callback consumed the record that p has next. */
    method OnRecord(started: bool, room: int, ghost p: Progress) returns (e: Event)
      requires p.pending != [] && p.pending[0].Note? && Stream(Ord(), p.pending, p.t, p.last) && !recv.noting && pool.Valid()
      requires p.t == term.View() && p.last == Last() && p.notes.room == room && started == (p.got != [])
      requires Pending() == p.pending[1..] && Calm()
      requires KindOf(Ord(), p.pending[0].bytes) != OtherNote ==> recv.kernel.arrivals == []
      requires Taking(Ord(), recv.View().(noting := true), p.pending[0].bytes, p.pending[0].bytes, Asked(started, room))
      modifies recv.notes, term`failed, term`ended
      ensures Valid() && e.Consumed? && Shows(e, 0, p)
    {
      var fate, record := EndRecord(started, room, p.pending[0].bytes);
      return Consumed(fate, record);
    }

    /** Files a whole record: at once to the handler, or to the queue, or nowhere. */
    method File(n: Notes, fate: Fate, record: Option<seq<byte>>) returns (n': Notes)
      requires n.handled == handled
      modifies this`handled
      ensures n' == Filed(n, fate, record) && n'.handled == handled
    {
      n' := n;
      if record.None? { return; }
      match fate
      case CutsMessage(_) => n' := n.(queued := n.queued + [record.value]);
      case Now =>
        handled := handled + [record.value];
        n' := n.(handled := handled);
      case Waits => n' := n.(queued := n.queued + [record.value], room := n.room - |record.value|);
      case NoRoom => n' := n.(room := -1, dropped := true);
      case Dropped =>
    }

    /** Takes in what the callback found. */
    method Handle(asm: Assembly, n: Notes, phase: Phase, e: Event, size: nat, ghost p: Progress)
      returns (n': Notes, phase': Phase, how: Option<Ending>, ghost m: Move)
      requires Valid() && asm.pool == pool && asm.Valid() && asm.got == p.got && n == p.notes && n.handled == handled
      requires Shows(e, size, p) && (phase == Started <==> asm.got != [])
      requires e.Piece? && !asm.tooLong ==> size == asm.len - asm.total
      modifies this`handled, asm`total, asm`tooLong, asm`got, asm.buf
      ensures Legal(Ord(), p, m) && how == Ended(Ord(), p, m)
      ensures At(asm, n', Moved(Ord(), policy, p, m)) && (phase' == Started <==> asm.got != [])
      ensures how.None? ==> asm.Valid()
      ensures how == None || !how.value.AssocOver? ==> Last() == p.last
      ensures how == Some(Complete) ==> asm.tooLong == (|asm.got| > asm.max)
      ensures m.Wait? <==> e == Idle(None)
    {
      n', phase' := n, if phase == Outside then Inside else phase;
      match e
      case Idle(end) =>
        how := end;
        m := if end.Some? then Conclude else Wait;
      case Piece(bytes, eor) =>
        m := TakePiece(size);
        asm.Absorb(bytes, eor);
        phase' := Started;
        how := if eor then Some(Complete) else None;
      case Consumed(fate, record) =>
        m := TakeRecord;
        n' := File(n, fate, record);
        if fate == Now { phase' := Outside; }
        how := if fate.CutsMessage? then Some(CutShort(fate.partialDelivery)) else None;
    }

    /** What a read does before it waits in the poller: it drops a record being served, and asks the latch. */
    method Begin() returns (how: Option<Ending>)
      requires Valid()
      modifies recv`serving, recv`served, recv.notes
      ensures how.Some? ==> Pending() == [] && how.value == AtEnd(term.View(), Last())
      ensures how.Some? ==> AfterRead(term.View(), Last()).0 == term.View()
    {
      if recv.serving { recv.StopServing(); }
      var end := term.ReadEndLocked();
      if end.Some? { KnownEnd(Ord(), Pending(), term.View(), Last()); }
      how := if end.Some? then Some(AssocOver(end.value)) else None;
    }

    /** What the read finds next, entering the callback first when it is outside. */
    method Look(size: nat, phase: Phase, room: int, ghost p: Progress) returns (e: Event)
      requires Valid() && size >= 1
      requires p.pending == Pending() && p.t == term.View() && p.last == Last()
      requires p.notes.room == room && (phase == Started <==> p.got != [])
      modifies recv, recv.notes, recv.kernel, term
      ensures Valid() && Shows(e, size, p)
      ensures e == Idle(None) ==> |recv.kernel.arrivals| < |old(recv.kernel.arrivals)|
    {
      if phase == Outside {
        var end := Begin();
        if end.Some? { return Idle(end); }
      }
      e := Advance(size, phase == Started, room, p);
    }

    /** One turn of the read's loops. */
    method Turn(asm: Assembly, n: Notes, phase: Phase, ghost p: Progress)
      returns (n': Notes, phase': Phase, how: Option<Ending>, ghost m: Move)
      requires At(asm, n, p) && asm.Valid() && (phase == Started <==> asm.got != []) && p.last == Last()
      modifies this`handled, recv, recv.notes, recv.kernel, term, pool, asm, asm.footprint
      ensures Legal(Ord(), p, m) && how == Ended(Ord(), p, m)
      ensures At(asm, n', Moved(Ord(), policy, p, m)) && (phase' == Started <==> asm.got != [])
      ensures how.None? ==> asm.Valid()
      ensures how == None || !how.value.AssocOver? ==> Last() == p.last
      ensures how == Some(Complete) ==> asm.tooLong == (|asm.got| > asm.max)
      ensures m.Wait? ==> |recv.kernel.arrivals| < |old(recv.kernel.arrivals)|
      ensures fresh(asm.footprint - old(asm.footprint))
    {
      asm.MakeRoom();
      var size := if asm.tooLong then SCRATCH else asm.len - asm.total;
      var e := Look(size, phase, n.room, p);
      n', phase', how, m := Handle(asm, n, phase, e, size, p);
    }

    /** A read under way: it goes toward the goal, or `end` says how it has reached it. */
    ghost predicate Going(asm: Assembly, n: Notes, phase: Phase, end: Option<Ending>, p: Progress, goal: Next, final: Handover)
      reads this`handled, recv`noting, recv.kernel, term, pool, asm, asm.buf
    {
      && At(asm, n, p) && (phase == Started <==> asm.got != [])
      && (end.None? ==> asm.Valid() && Toward(Ord(), policy, p, goal, final))
      && (end.None? || !end.value.AssocOver? ==> Last() == p.last)
      && (end.Some? ==> Reached(p, end.value, goal, final))
      && (end == Some(Complete) ==> asm.tooLong == (|asm.got| > asm.max))
    }

    /** A turn keeps the goal, and comes nearer to it. */
    method Proceed(asm: Assembly, n: Notes, phase: Phase, ghost p: Progress, ghost goal: Next, ghost final: Handover)
      returns (n': Notes, phase': Phase, end: Option<Ending>, ghost p': Progress)
      requires Going(asm, n, phase, None, p, goal, final)
      modifies this`handled, recv, recv.notes, recv.kernel, term, pool, asm, asm.footprint
      ensures Going(asm, n', phase', end, p', goal, final)
      ensures end.None? ==>
        || Sizes(p'.pending) < Sizes(p.pending)
        || (p'.pending == p.pending && |recv.kernel.arrivals| < |old(recv.kernel.arrivals)|)
      ensures fresh(asm.footprint - old(asm.footprint)) && p'.last == p.last
    {
      ghost var m;
      n', phase', end, m := Turn(asm, n, phase, p);
      MoveKeepsGoal(Ord(), policy, p, m, goal, final);
      p' := Moved(Ord(), policy, p, m);
    }

    /** Reads to the end of the next message, or as far as it goes. */
    method Assemble(asm: Assembly) returns (n: Notes, started: bool, how: Ending)
      requires Valid() && asm.pool == pool && asm.Valid() && asm.got == []
      modifies this`handled, recv, recv.notes, recv.kernel, term, pool, asm, asm.footprint
      ensures Valid() && asm.Core()
      ensures TakeMessage(Ord(), old(Pending()), old(term.View()), old(Last()), false) == Next(asm.got, how, Pending(), term.View())
      ensures !how.AssocOver? ==> Last() == old(Last())
      ensures Before(old(handled), HandOver(Ord(), old(Pending()), false, policy, LIMIT)) == Handover(handled + n.queued, n.dropped)
      ensures started == (asm.got != [])
      ensures how == Complete ==> asm.tooLong == (|asm.got| > asm.max)
      ensures fresh(asm.footprint - old(asm.footprint))
    {
      ghost var goal := TakeMessage(Ord(), Pending(), term.View(), Last(), false);
      ghost var final := Before(handled, HandOver(Ord(), Pending(), false, policy, LIMIT));
      n := Notes(handled, [], LIMIT, false);
      var phase, end := Outside, None;
      ghost var p := Progress(Pending(), term.View(), Last(), [], n);
      StartsToward(Ord(), policy, p);
      while end.None?
        invariant Going(asm, n, phase, end, p, goal, final)
        invariant fresh(asm.footprint - old(asm.footprint)) && p.last == old(Last())
        decreases end.None?, Sizes(p.pending), |recv.kernel.arrivals|
      {
        n, phase, end, p := Proceed(asm, n, phase, p, goal, final);
      }
      started, how := phase == Started, end.value;
    }

    /** readMsg: the reassembly itself, through a buffer that goes back to the pool. */
    method ReadOne(max: nat) returns (out: array<byte>, len: nat, status: Status, dropped: bool)
      requires Valid() && max > 0
      modifies this`aborted, this`handled, recv, recv.notes, recv.kernel, term, pool, pool.stock
      ensures Valid() && pool.borrowed == old(pool.borrowed)
      ensures len <= out.Length && fresh(out) && out !in pool.stock
      ensures var m := TakeMessage(Ord(), old(Pending()), old(term.View()), old(Last()), false);
        && len == Min(|m.bytes|, max) && out[..len] == m.bytes[..len]
        && status == Report(m, max) && Pending() == m.rest && term.View() == m.t
        && (!m.how.AssocOver? ==> Last() == old(Last()))
      ensures var h := HandOver(Ord(), old(Pending()), false, policy, LIMIT);
        handled == old(handled) + h.records && dropped == h.dropped
      ensures aborted == (old(aborted) || MustAbort(status))
    {
      var asm := new Assembly(pool, max);
      out, len, status, dropped := ReadWith(asm);
    }

    /** Reads a message through an assembly that has nothing yet. */
    method ReadWith(asm: Assembly) returns (out: array<byte>, len: nat, status: Status, dropped: bool)
      requires Valid() && asm.pool == pool && asm.Valid() && asm.got == []
      modifies this`aborted, this`handled, recv, recv.notes, recv.kernel, term, pool, asm, asm.footprint
      ensures Valid() && pool.borrowed == asm.lent && len <= out.Length && out !in pool.stock
      ensures fresh(out) || (out in asm.footprint && out !in asm.shelf)
      ensures fresh(asm.footprint - old(asm.footprint))
      ensures var m := TakeMessage(Ord(), old(Pending()), old(term.View()), old(Last()), false);
        && len == Min(|m.bytes|, asm.max) && out[..len] == m.bytes[..len]
        && status == Report(m, asm.max) && Pending() == m.rest && term.View() == m.t
        && (!m.how.AssocOver? ==> Last() == old(Last()))
      ensures var h := HandOver(Ord(), old(Pending()), false, policy, LIMIT);
        handled == old(handled) + h.records && dropped == h.dropped
      ensures aborted == (old(aborted) || MustAbort(status))
    {
      var n, started, how := Assemble(asm);
      out, len, status, dropped := Deliver(asm, n, started, how);
    }

    /** What a read that is over leaves to the caller, the handler and the pool. */
    method Deliver(asm: Assembly, n: Notes, started: bool, how: Ending)
      returns (out: array<byte>, len: nat, status: Status, dropped: bool)
      requires asm.pool == pool && asm.Core()
      requires started == (asm.got != []) && (how == Complete ==> asm.tooLong == (|asm.got| > asm.max))
      modifies this`aborted, this`handled, pool
      ensures pool.Valid() && pool.borrowed == asm.lent
      ensures len == Min(|asm.got|, asm.max) <= out.Length && out[..len] == asm.got[..len] && out !in pool.stock
      ensures fresh(out) || (out in asm.footprint && out !in asm.shelf)
      ensures status == Report(Next(asm.got, how, Pending(), term.View()), asm.max)
      ensures handled == old(handled) + n.queued && dropped == n.dropped
      ensures aborted == (old(aborted) || MustAbort(status))
    {
      status := Judge(asm, started, how);
      out, len := asm.Finish();
      dropped := n.dropped;
      handled := handled + n.queued;
      aborted := aborted || MustAbort(status);
    }

    method Judge(asm: Assembly, started: bool, how: Ending) returns (status: Status)
      requires started == (asm.got != []) && (how == Complete ==> asm.tooLong == (|asm.got| > asm.max))
      ensures status == Report(Next(asm.got, how, Pending(), term.View()), asm.max)
    {
      if how == Complete { return if asm.tooLong then MessageTooLong else Whole; }
      return if started then MessageInterrupted(how) else NoMessage(how);
    }

    /**
      Reads one message. Whatever the sizes of its pieces and the records between them, the result
      is the first `max` bytes of the next message of the stream, its verdict is that message's, the
      stream is left at what follows it, the handler has received the records before that, and the
      pool has its buffers back.
    */
    method ReadMsg(max: int) returns (out: array<byte>, len: nat, status: Status, dropped: bool)
      requires Valid()
      modifies this`aborted, this`handled, recv, recv.notes, recv.kernel, term, pool, pool.stock
      ensures Valid() && pool.borrowed == old(pool.borrowed)
      ensures len <= out.Length && fresh(out) && out !in pool.stock
      ensures max <= 0 ==> status == InvalidMax
      ensures max > 0 && old(aborted) ==> status == Closed
      ensures max > 0 && !old(aborted) && interleaved ==> status == NotSupported
      ensures max <= 0 || old(aborted) || interleaved ==>
        len == 0 && !dropped && Pending() == old(Pending()) && handled == old(handled) && aborted == old(aborted)
      ensures max > 0 && !old(aborted) && !interleaved ==>
        var m := TakeMessage(Ord(), old(Pending()), old(term.View()), old(Last()), false);
        var h := HandOver(Ord(), old(Pending()), false, policy, LIMIT);
        && len == Min(|m.bytes|, max) && out[..len] == m.bytes[..len]
        && (status == Whole <==> m.how == Complete && |m.bytes| <= max)
        && (status == MessageTooLong <==> m.how == Complete && |m.bytes| > max)
        && (status.MessageInterrupted? <==> m.how != Complete && m.bytes != [])
        && (status.NoMessage? <==> m.how != Complete && m.bytes == [])
        && (m.how != Complete ==> status.how == m.how)
        && aborted == (m.how != Complete && m.bytes != [] && m.how != CutShort(true))
        && Pending() == m.rest && term.View() == m.t && (!m.how.AssocOver? ==> Last() == old(Last()))
        && handled == old(handled) + h.records && dropped == h.dropped
    {
      if max <= 0 || aborted || interleaved {
        out, len, dropped := new byte[0], 0, false;
        status := if max <= 0 then InvalidMax else if aborted then Closed else NotSupported;
        return;
      }
      out, len, status, dropped := ReadOne(max);
    }
  }

  /** The first bytes of a record say all that the receive path asks of it. */
  lemma PrefixOf(order: Order, rec: seq<byte>)
    requires |rec| >= HEADER
    ensures var head := rec[..Min(PREFIX, |rec|)];
      && KindOf(order, head) == KindOf(order, rec) && Cuts(order, head) == Cuts(order, rec)
      && IsPartialDelivery(order, head) == IsPartialDelivery(order, rec)
  {
    var head := rec[..Min(PREFIX, |rec|)];
    SameField(order, head, rec, 0);
    if |rec| >= PREFIX {
      SameField(order, head, rec, 8);
    }
  }

  lemma SameField(order: Order, head: seq<byte>, rec: seq<byte>, off: nat)
    requires head <= rec && off + 2 <= |head|
    ensures At16(order, head, off) == At16(order, rec, off)
  {
    assert head[off..off + 2] == rec[off..off + 2];
  }
}
