/**
  The receive callback (recv_linux.go, endpoint_linux.go): one thing per call, data, a whole
  notification record, or nothing; and the pieces in which a raw record is handed on.
*/
module Receive {
  import opened Wrappers
  import opened Bytes
  import opened Accumulator
  import Latch

  const SCRATCH := 1024  // NotificationMaxSize

  /** One queued item: message bytes, the last of their message or not, or a notification record. */
  datatype Chunk = Data(bytes: seq<byte>, eor: bool) | Note(bytes: seq<byte>)

  predicate NonEmpty(q: seq<Chunk>) {
    forall i :: 0 <= i < |q| ==> q[i].bytes != []
  }

  /** The queue after a recvmsg of `size` bytes: what did not fit goes back to its head. */
  function RestOf(q: seq<Chunk>, size: nat): seq<Chunk>
    requires q != []
  {
    if |q[0].bytes| <= size then q[1..] else [q[0].(bytes := q[0].bytes[size..])] + q[1..]
  }

  function FirstPart(c: Chunk, size: nat): seq<byte> {
    c.bytes[..Min(size, |c.bytes|)]
  }

  predicate Ends(c: Chunk, size: nat) {
    |c.bytes| <= size && (c.Note? || c.eor)
  }

  /** One recvmsg on a record of which `seen` was already read: its next piece, then the record's rest or its end. */
  lemma HeadPiece(q: seq<Chunk>, rec: seq<byte>, seen: seq<byte>, tail: seq<Chunk>, size: nat)
    requires seen < rec && q == [Note(rec[|seen|..])] + tail && size >= 1
    ensures var p := FirstPart(q[0], size);
      && p != [] && seen + p <= rec
      && (Ends(q[0], size) <==> seen + p == rec)
      && RestOf(q, size) == if Ends(q[0], size) then tail else [Note(rec[|seen + p|..])] + tail
  {
    assert q[1..] == tail;
  }

  datatype Recv = Interrupted | Empty(e: Latch.Error) | Got(bytes: seq<byte>, notification: bool, eor: bool)

  /** What arrives while a reader waits: items, the errno of a failed association, the shutdown for reading. */
  datatype Batch = Batch(items: seq<Chunk>, err: Option<Latch.Error>, shut: bool)

  /** The socket's receive side, with the batches that are still to arrive. */
  class RecvQueue {
    var queue: seq<Chunk>
    var sockErr: Option<Latch.Error>  // handed out once
    var rcvShut: bool
    var arrivals: seq<Batch>
    var interrupts: nat               // how often EINTR may still come

    method Recvmsg(size: nat) returns (r: Recv)
      requires size >= 1
      modifies this`queue, this`sockErr, this`interrupts
      ensures r.Interrupted? ==> queue == old(queue) && interrupts < old(interrupts)
      ensures !r.Interrupted? ==> interrupts == old(interrupts)
      ensures r.Empty? ==>
        queue == old(queue) == [] && sockErr == None && r.e == Latch.NothingQueued(old(sockErr), rcvShut)
      ensures !r.Empty? ==> sockErr == old(sockErr)
      ensures r.Got? ==>
        && old(queue) != [] && queue == RestOf(old(queue), size)
        && r == Got(FirstPart(old(queue)[0], size), old(queue)[0].Note?, Ends(old(queue)[0], size))
    {
      var signal: bool := *;
      if signal && interrupts > 0 {
        interrupts := interrupts - 1;
        return Interrupted;
      }
      if queue == [] {
        r := Empty(Latch.NothingQueued(sockErr, rcvShut));
        sockErr := None;
        return;
      }
      var head := queue[0];
      r := Got(FirstPart(head, size), head.Note?, Ends(head, size));
      queue := RestOf(queue, size);
    }

    /** The poller's wait: the next batch arrives, or nothing ever does. */
    method Wait() returns (ready: bool)
      requires queue == []
      modifies this`queue, this`sockErr, this`rcvShut, this`arrivals
      ensures ready == (old(arrivals) != [])
      ensures ready ==>
        (queue, sockErr, rcvShut) == (old(arrivals)[0].items, old(arrivals)[0].err, old(arrivals)[0].shut)
      ensures ready ==> arrivals == old(arrivals)[1..]
      ensures !ready ==> queue == old(queue) && sockErr == old(sockErr) && rcvShut == old(rcvShut) && arrivals == old(arrivals)
    {
      ready := arrivals != [];
      if ready {
        var b := arrivals[0];
        queue, sockErr, rcvShut, arrivals := b.items, b.err, b.shut, arrivals[1..];
      }
    }
  }

  /** What one callback found. */
  datatype Found = Nothing(e: Latch.Error) | Message(bytes: seq<byte>, eor: bool) | Record

  class RecvState {
    const kernel: RecvQueue
    const notes: NotificationAccumulator
    var noting: bool
    var typed: bool
    var typ: u16
    var kept: bool
    var serving: bool
    var served: nat

    constructor (kernel: RecvQueue, order: Order)
      ensures this.kernel == kernel && fresh(notes) && notes.order == order && !noting && !serving
    {
      this.kernel := kernel;
      notes := new NotificationAccumulator(order);
      noting, typed, typ, kept, serving, served := false, false, 0, false, false, 0;
    }

    function View(): Intake
      reads this, notes
    {
      Intake(notes.View(), noting, typed, typ, kept)
    }

    method AddPiece(piece: seq<byte>, policy: Policy)
      modifies this`noting, this`typed, this`typ, this`kept, notes
      ensures View() == Take(notes.order, old(View()), piece, policy)
    {
      if !noting {
        notes.Reset();
        noting, typed, kept := true, false, false;
      }
      if !typed {
        var t := PeekType(notes.order, notes.View(), piece);
        if t.Some? {
          typed, typ := true, t.value;
          if policy.Keeps(typ) {
            kept := notes.KeepRecord();
          }
        }
      }
      notes.AddPiece(piece);
    }

    /**
      The callback. It returns with no record in progress, whatever the sizes of the pieces: it
      found the queue empty and took what the kernel had to say, hands on the first bytes of a
      message, or has consumed the record at the head of the queue, whole.
    */
    method Attempt(size: nat, policy: Policy) returns (r: Found)
      requires size >= 1 && !noting && NonEmpty(kernel.queue)
      modifies this`noting, this`typed, this`typ, this`kept, notes, kernel`queue, kernel`sockErr, kernel`interrupts
      ensures !noting
      ensures r.Nothing? <==> old(kernel.queue) == []
      ensures r.Nothing? ==>
        kernel.queue == [] && kernel.sockErr == None && r.e == Latch.NothingQueued(old(kernel.sockErr), kernel.rcvShut)
      ensures !r.Nothing? ==> kernel.sockErr == old(kernel.sockErr)
      ensures r.Message? ==>
        && old(kernel.queue)[0].Data? && kernel.queue == RestOf(old(kernel.queue), size)
        && r == Message(FirstPart(old(kernel.queue)[0], size), Ends(old(kernel.queue)[0], size))
      ensures r == Record ==> old(kernel.queue)[0].Note? && kernel.queue == old(kernel.queue)[1..]
      ensures r == Record && |old(kernel.queue)[0].bytes| <= LIMIT ==>
        Taking(notes.order, View().(noting := true), old(kernel.queue)[0].bytes, old(kernel.queue)[0].bytes, policy)
    {
      ghost var q := kernel.queue;
      ghost var rec, tail, seen := if q == [] then [] else q[0].bytes, if q == [] then [] else q[1..], [];
      while true
        invariant q == [] || q[0].Data? ==> !noting && kernel.queue == q && seen == []
        invariant q != [] && q[0].Note? ==>
          seen < rec && noting == (seen != []) && kernel.queue == [Note(rec[|seen|..])] + tail
        invariant kernel.sockErr == old(kernel.sockErr)
        invariant noting && |rec| <= LIMIT ==> Taking(notes.order, View(), seen, rec, policy)
        decreases |rec| - |seen|, kernel.interrupts
      {
        var dst := if noting then SCRATCH else size;
        ghost var before := kernel.queue;
        var g := kernel.Recvmsg(dst);
        if g.Interrupted? { continue; }
        if g.Got? && g.notification {
          HeadPiece(before, rec, seen, tail, dst);
          TakePiece(g.bytes, policy, seen, rec);
          seen := seen + g.bytes;
          if g.eor {
            noting := false;
            return Record;
          }
          continue;
        }
        if noting { assert false; }
        if g.Empty? { return Nothing(g.e); }
        return Message(g.bytes, g.eor);
      }
    }

    /** A piece of a record within the limit, whether or not it is the first. */
    method TakePiece(piece: seq<byte>, policy: Policy, ghost seen: seq<byte>, ghost rec: seq<byte>)
      requires seen + piece <= rec && noting == (seen != [])
      requires noting && |rec| <= LIMIT ==> Taking(notes.order, View(), seen, rec, policy)
      modifies this`noting, this`typed, this`typ, this`kept, notes
      ensures noting
      ensures |rec| <= LIMIT ==> Taking(notes.order, View(), seen + piece, rec, policy)
    {
      ghost var was := View();
      AddPiece(piece, policy);
      if |rec| <= LIMIT {
        if was.noting {
          NextPiece(notes.order, was, seen, piece, rec, policy);
        } else {
          assert seen + piece == piece;
          FirstPiece(notes.order, was, piece, rec, policy);
        }
      }
    }

    /** Starts handing a retained record to RecvMsg in pieces. */
    method StartServing()
      modifies this`serving, this`served
      ensures serving && served == 0
    {
      serving, served := true, 0;
    }

    /** One RecvMsg into a buffer of `size` bytes: the next piece, with EOR exactly on the last. */
    method ServePiece(size: nat) returns (piece: seq<byte>, eor: bool)
      requires serving && served <= |notes.data|
      modifies this`serving, this`served, notes
      ensures (piece, eor) == (old(notes.data)[old(served)..ServedTo(|old(notes.data)|, old(served), size)],
                               ServedTo(|old(notes.data)|, old(served), size) == |old(notes.data)|)
      ensures eor ==> !serving && served == 0 && notes.View() == EMPTY
      ensures !eor ==> notes.data == old(notes.data) && serving && served == ServedTo(|notes.data|, old(served), size)
    {
      var data := notes.data;
      var n := Min(size, |data| - served);
      piece := data[served..served + n];
      served := served + n;
      eor := served == |data|;
      if eor {
        StopServing();
      }
    }

    /** Drops what is left of the record being served. */
    method StopServing()
      modifies this`serving, this`served, notes
      ensures !serving && served == 0 && notes.View() == EMPTY
    {
      serving, served := false, 0;
      notes.Reset();
    }
  }

  // ----- A raw record in pieces -----

  function ServedTo(length: nat, served: nat, size: nat): nat
    requires served <= length
  {
    served + Min(size, length - served)
  }

  /** What successive RecvMsg calls with these buffer sizes return, until the record has ended. */
  function Served(data: seq<byte>, served: nat, sizes: seq<nat>): seq<(seq<byte>, bool)>
    requires served <= |data|
    decreases |sizes|
  {
    if sizes == [] then []
    else
      var to := ServedTo(|data|, served, sizes[0]);
      [(data[served..to], to == |data|)] + if to == |data| then [] else Served(data, to, sizes[1..])
  }

  function Joined(pieces: seq<(seq<byte>, bool)>): seq<byte> {
    if pieces == [] then [] else pieces[0].0 + Joined(pieces[1..])
  }

  /** The pieces join to a prefix of the record; only the last can carry EOR, and it does iff that is all of it. */
  lemma {:induction false} ServedWhole(data: seq<byte>, served: nat, sizes: seq<nat>)
    requires served < |data|
    ensures var ps := Served(data, served, sizes);
      && served + |Joined(ps)| <= |data|
      && Joined(ps) == data[served..served + |Joined(ps)|]
      && (forall i :: 0 <= i < |ps| - 1 ==> !ps[i].1)
      && (ps != [] ==> (ps[|ps| - 1].1 <==> served + |Joined(ps)| == |data|))
    decreases |sizes|
  {
    if sizes != [] {
      var to := ServedTo(|data|, served, sizes[0]);
      if to < |data| {
        ServedWhole(data, to, sizes[1..]);
        PieceBefore(data, served, to, Served(data, to, sizes[1..]));
      } else {
        LastPiece(data[served..]);
      }
    }
  }

  lemma PieceBefore(data: seq<byte>, served: nat, to: nat, rest: seq<(seq<byte>, bool)>)
    requires served <= to && to + |Joined(rest)| <= |data| && Joined(rest) == data[to..to + |Joined(rest)|]
    ensures var ps := [(data[served..to], false)] + rest;
      ps[1..] == rest && Joined(ps) == data[served..to + |Joined(rest)|]
  {
    var ps := [(data[served..to], false)] + rest;
    assert ps[1..] == rest;
    assert data[served..to] + data[to..to + |Joined(rest)|] == data[served..to + |Joined(rest)|];
  }

  lemma LastPiece(bytes: seq<byte>)
    ensures Joined([(bytes, true)]) == bytes
  {
    assert [(bytes, true)][1..] == [];
  }
}
