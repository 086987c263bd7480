/**
  The association-end latch (term_linux.go, conn.go) under every interleaving of reads, sends and
  SCTP_EOF sends.

  Linux hands the errno of a failed association to one call only, reads dequeue before they look
  at it, and sends do not look at the queue. `TermState` is the latch as the package keeps it; each
  of its locked sections is a function on `Term`; and `Next` runs those sections against a kernel
  that behaves as stated, one step per hold of the latch mutex.
*/
module Latch {
  import opened Wrappers

  /** What a system call, or the package, reports. `EOF` is io.EOF. */
  datatype Error =
    | ECONNRESET | ETIMEDOUT | ECONNABORTED | ENOTCONN
    | EPIPE | EAGAIN | EINTR | EOF | Errno(code: nat)

  predicate IsAssocFailure(e: Error) {
    e == ECONNRESET || e == ETIMEDOUT || e == ECONNABORTED
  }

  /** The errors that say that the association failed. */
  predicate ReportsFailure(e: Error) {
    IsAssocFailure(e) || e == ENOTCONN
  }

  // ----- The latch and its locked sections -----

  datatype Term = Term(err: Option<Error>, failed: bool, ended: bool, drained: bool)

  function Store(t: Term, e: Error): Term {
    if IsAssocFailure(e) && t.err == None then t.(err := Some(e)) else t
  }

  /** The latch, and what the send reports, after one sendmsg that returned `e`. */
  function AfterSend(t: Term, e: Error): (Term, Error) {
    if IsAssocFailure(e) then (Store(t, e), e)
    else if e != EPIPE then (t, e)
    else if t.err.Some? then (t, t.err.value)
    else if t.failed then (t.(err := Some(ENOTCONN)), ENOTCONN)
    else (t, e)
  }

  function Observe(t: Term, e: Error): (Term, Error) {
    var t1 := Store(t, e);
    (t1, if t1.err.Some? then t1.err.value else e)
  }

  /** The latch, and what the read reports, after one recvmsg that found nothing and returned `e`. */
  function AfterRead(t: Term, e: Error): (Term, Error) {
    var (t1, e1) := Observe(t, e);
    if t1.err == None && t1.failed && (e1 == EAGAIN || e1 == EOF)
    then (t1.(err := Some(ENOTCONN), drained := true), ENOTCONN)
    else if t1.err == None && t1.ended && e1 == EAGAIN then (t1, EOF)
    else (t1.(drained := t1.drained || t1.err.Some?), e1)
  }

  /**
    The rules of a read that found nothing: a filled latch is what it reports, and stays filled
    with the same error; and it waits only while no end of the association was seen at all.
  */
  lemma ReadRules(t: Term, e: Error)
    ensures var (t', r) := AfterRead(t, e);
      && t' == Term(t'.err, t.failed, t.ended, t.drained || t'.err.Some?)
      && (t.err.Some? ==> t'.err == t.err)
      && (t'.err.Some? ==> r == t'.err.value)
      && (t'.err == None ==> !ReportsFailure(r) || r == e == ENOTCONN)
      && (t'.err != t.err ==> (t'.err == Some(e) && IsAssocFailure(e)) || (t'.err == Some(ENOTCONN) && t.failed))
      && (r == EAGAIN && t.err != Some(EAGAIN) ==> e == EAGAIN && t'.err == None && !t.failed && !t.ended)
      && (t.err == None && !IsAssocFailure(e) && e != EAGAIN && e != EOF ==> r == e && t' == t)
      && (t.err == None && t.failed && (e == EAGAIN || e == EOF) ==> r == ENOTCONN && t'.err == Some(ENOTCONN))
      && (t.err == None && !t.failed && (e == EOF || (e == EAGAIN && t.ended)) ==> r == EOF && t' == t)
  {
  }

  /**
    The rules of a send that was refused. An errno that is neither an association failure nor EPIPE
    is reported as it is, and leaves the latch alone; a failure is latched unless one is; and EPIPE
    stands exactly when the latch is empty and no failure was seen.
  */
  lemma SendRules(t: Term, e: Error)
    ensures var (t', r) := AfterSend(t, e);
      && (t'.failed, t'.ended, t'.drained) == (t.failed, t.ended, t.drained)
      && (t.err.Some? ==> t'.err == t.err)
      && (!IsAssocFailure(e) && e != EPIPE ==> r == e && t' == t)
      && (IsAssocFailure(e) ==> r == e && (t.err == None ==> t'.err == Some(e)))
      && (e == EPIPE ==> ((r == EPIPE && t' == t) <==> (if t.err.Some? then t.err.value == EPIPE else !t.failed)))
      && (e == EPIPE && t.err.Some? ==> r == t.err.value)
      && (e == EPIPE && t.err == None && t.failed ==> r == ENOTCONN && t'.err == Some(ENOTCONN))
  {
  }

  /** What a read reports without a system call. */
  function ReadEnd(t: Term): Option<Error> {
    if t.drained then t.err else if t.ended then Some(EOF) else None
  }

  class TermState {
    var err: Option<Error>
    var failed: bool
    var ended: bool
    var drained: bool

    constructor ()
      ensures View() == Term(None, false, false, false)
    {
      err, failed, ended, drained := None, false, false, false;
    }

    function View(): Term
      reads this
    {
      Term(err, failed, ended, drained)
    }

    method StoreLocked(e: Error) returns (isFailure: bool)
      modifies this`err
      ensures View() == Store(old(View()), e)
      ensures isFailure == IsAssocFailure(e)
    {
      if !IsAssocFailure(e) { return false; }
      if err == None { err := Some(e); }
      return true;
    }

    method SendErrorLocked(e: Error) returns (reported: Error)
      modifies this`err
      ensures (View(), reported) == AfterSend(old(View()), e)
    {
      var stored := StoreLocked(e);
      if stored { return e; }
      if e != EPIPE { return e; }
      if err.Some? { return err.value; }
      if failed {
        err := Some(ENOTCONN);
        return ENOTCONN;
      }
      return e;
    }

    method ObserveLocked(e: Error) returns (reported: Error)
      modifies this`err
      ensures (View(), reported) == Observe(old(View()), e)
    {
      var stored := StoreLocked(e);
      if stored || err != None { return err.value; }
      return e;
    }

    method ReadErrorLocked(e: Error) returns (reported: Error)
      modifies this`err, this`drained
      ensures (View(), reported) == AfterRead(old(View()), e)
    {
      reported := ObserveLocked(e);
      if err == None && failed && (reported == EAGAIN || reported == EOF) {
        err := Some(ENOTCONN);
        reported := ENOTCONN;
      } else if err == None && ended && reported == EAGAIN {
        reported := EOF;
      }
      if err != None { drained := true; }
    }

    method ReadEndLocked() returns (end: Option<Error>)
      ensures end == ReadEnd(View())
    {
      if drained { return err; }
      if ended { return Some(EOF); }
      return None;
    }

    /** The end of a notification record, with the latch mutex held. */
    method EndRecordLocked(kind: NoteKind)
      modifies this`failed, this`ended
      ensures View() == AfterRecord(old(View()), kind)
    {
      match kind
      case CommLost => failed := true;
      case ShutdownComplete => ended := true;
      case OtherNote =>
    }
  }

  datatype NoteKind = CommLost | ShutdownComplete | OtherNote

  function AfterRecord(t: Term, kind: NoteKind): Term {
    t.(failed := t.failed || kind == CommLost, ended := t.ended || kind == ShutdownComplete)
  }

  // ----- The kernel and the callers -----

  /** A queued item: message bytes, or a notification record of `size` bytes. */
  datatype Item = Data(id: nat) | Note(kind: NoteKind, size: nat)

  predicate IsEnd(i: Item) {
    i.Note? && (i.kind == CommLost || i.kind == ShutdownComplete)
  }

  datatype Kernel = Kernel(
    queue: seq<Item>,
    taken: nat,             // bytes of the record at the head that were already handed over
    sockErr: Option<Error>, // set once when the association fails, handed out once
    gone: bool,
    rcvShut: bool)          // shut for reading: an empty queue reads as the end of the stream

  datatype Reader =
    | Off                   // the receive lock is free
    | Looking               // about to ask readEnd
    | Reading(noting: bool) // in the callback, about to make a recvmsg
    | Parked                // waiting in the poller

  /** What happened, for the statements below. */
  datatype Log = Log(
    arrived: seq<Item>,        // every item the kernel ever queued
    delivered: seq<Item>,      // every item reads consumed whole, in order
    reports: seq<Error>,       // every error a read or a send reported
    latchWrites: nat,
    failure: Option<Error>,    // the errno the kernel set for the failed association
    stolen: bool)              // that errno went to something outside the package

  datatype State = State(k: Kernel, t: Term, reader: Reader, log: Log)

  datatype KernelStep =
    | Arrive(item: Item)
    | Fail(e: Error)
    | End
    | ShutForReading
    | Steal            // SO_ERROR, or the peek of ReceiveNxtInfo, takes the pending errno

  datatype ReadStep =
    | BeginRead
    | AskEnd
    | RecvInterrupted
    | RecvData
    | RecvPiece(n: nat, again: bool) // `again`: a record the caller does not receive
    | RecvNothing
    | Ready
    | GiveUp           // a deadline or a close ends the wait

  datatype SendStep =
    | SendLatched      // the latch answers without a system call
    | SendCall(accepted: bool, refusal: Error)

  datatype Step = OfKernel(ks: KernelStep) | OfReader(rs: ReadStep) | OfSender(ss: SendStep)

  /** A live association, or one that ended before Accept, whose errno stayed on the listener. */
  predicate Init(s: State) {
    && s.t == Term(None, false, false, false) && s.reader == Off
    && s.k.taken == 0 && s.k.sockErr == None
    && (forall i :: 0 <= i < |s.k.queue| ==> ItemOk(s.k.queue[i]))
    && (forall i :: 0 <= i < |s.k.queue| && IsEnd(s.k.queue[i]) ==> s.k.gone && i == |s.k.queue| - 1)
    && (s.k.gone ==> s.k.queue != [] && IsEnd(Last(s.k.queue)))
    && s.log == Log(s.k.queue, [], [], 0, None, s.k.gone)
  }

  predicate ItemOk(i: Item) {
    i.Note? ==> i.size >= 8
  }

  function Last(q: seq<Item>): Item
    requires q != []
  {
    q[|q| - 1]
  }

  predicate Enabled(s: State, e: Step) {
    match e
    case OfKernel(Arrive(item)) => !s.k.gone && !IsEnd(item) && ItemOk(item)
    case OfKernel(Fail(e)) => !s.k.gone && IsAssocFailure(e)
    case OfKernel(End) => !s.k.gone
    case OfKernel(_) => true
    case OfReader(BeginRead) => s.reader == Off
    case OfReader(AskEnd) => s.reader == Looking
    case OfReader(RecvInterrupted) => s.reader.Reading?
    case OfReader(RecvData) => s.reader.Reading? && s.k.queue != [] && s.k.queue[0].Data?
    case OfReader(RecvPiece(n, _)) =>
      s.reader.Reading? && s.k.queue != [] && s.k.queue[0].Note? && 1 <= n <= s.k.queue[0].size - s.k.taken
    case OfReader(RecvNothing) => s.reader.Reading? && s.k.queue == []
    case OfReader(Ready) => s.reader == Parked && Readable(s.k)
    case OfReader(GiveUp) => s.reader == Parked
    case OfSender(SendLatched) => s.t.err.Some?
    case OfSender(SendCall(_, refusal)) => s.t.err == None && !ReportsFailure(refusal)
  }

  predicate Readable(k: Kernel) {
    k.queue != [] || k.sockErr.Some? || k.rcvShut
  }

  function Queued(s: State, item: Item): State {
    s.(k := s.k.(queue := s.k.queue + [item]), log := s.log.(arrived := s.log.arrived + [item]))
  }

  function KernelNext(s: State, ks: KernelStep): State {
    match ks
    case Arrive(item) => Queued(s, item)
    case Fail(e) =>
      var s1 := Queued(s, Note(CommLost, 20));
      s1.(k := s1.k.(sockErr := Some(e), gone := true), log := s1.log.(failure := Some(e)))
    case End =>
      var s1 := Queued(s, Note(ShutdownComplete, 20));
      s1.(k := s1.k.(gone := true))
    case ShutForReading => s.(k := s.k.(rcvShut := true))
    case Steal => s.(k := s.k.(sockErr := None), log := s.log.(stolen := s.log.stolen || s.k.sockErr.Some?))
  }

  /** A locked section left the latch at `t` and reported `e`. */
  function Reported(s: State, t: Term, e: Error): State {
    s.(t := t, log := s.log.(reports := s.log.reports + [e],
                             latchWrites := s.log.latchWrites + if t.err != s.t.err then 1 else 0))
  }

  function Consumed(s: State): State
    requires s.k.queue != []
  {
    s.(k := s.k.(queue := s.k.queue[1..], taken := 0), log := s.log.(delivered := s.log.delivered + [s.k.queue[0]]))
  }

  /** What recvmsg returns on an empty queue: the pending errno first. */
  function NothingQueued(sockErr: Option<Error>, rcvShut: bool): Error {
    if sockErr.Some? then sockErr.value else if rcvShut then EOF else EAGAIN
  }

  function Nothing(k: Kernel): Error {
    NothingQueued(k.sockErr, k.rcvShut)
  }

  function ReadNext(s: State, rs: ReadStep): State
    requires Enabled(s, OfReader(rs))
  {
    match rs
    case BeginRead => s.(reader := Looking)
    case AskEnd =>
      var end := ReadEnd(s.t);
      if end.Some? then Reported(s, s.t, end.value).(reader := Off) else s.(reader := Reading(false))
    case RecvInterrupted => s
    case RecvData => Consumed(s).(reader := Off)
    case RecvPiece(n, again) =>
      var item := s.k.queue[0];
      if s.k.taken + n == item.size
      then Consumed(s).(t := AfterRecord(s.t, item.kind), reader := if again then Looking else Off)
      else s.(k := s.k.(taken := s.k.taken + n), reader := Reading(true))
    case RecvNothing =>
      var (t, e) := AfterRead(s.t, Nothing(s.k));
      var s1 := s.(k := s.k.(sockErr := None));
      if e == EAGAIN then s1.(t := t, reader := Parked) else Reported(s1, t, e).(reader := Off)
    case Ready => s.(reader := Reading(false))
    case GiveUp => s.(reader := Off)
  }

  /** What sendmsg returns once the association is gone: the pending errno, or EPIPE. */
  function SendGone(k: Kernel): Error {
    if k.sockErr.Some? then k.sockErr.value else EPIPE
  }

  function SendNext(s: State, ss: SendStep): State
    requires Enabled(s, OfSender(ss))
  {
    match ss
    case SendLatched => Reported(s, s.t, s.t.err.value)
    case SendCall(accepted, refusal) =>
      if s.k.gone then
        var (t, e) := AfterSend(s.t, SendGone(s.k));
        Reported(s.(k := s.k.(sockErr := None)), t, e)
      else if accepted then s
      else
        var (t, e) := AfterSend(s.t, refusal);
        Reported(s, t, e)
  }

  function Next(s: State, e: Step): State
    requires Enabled(s, e)
  {
    match e
    case OfKernel(ks) => KernelNext(s, ks)
    case OfReader(rs) => ReadNext(s, rs)
    case OfSender(ss) => SendNext(s, ss)
  }

  predicate Runs(s: State, run: seq<Step>)
    decreases |run|
  {
    run == [] || (Enabled(s, run[0]) && Runs(Next(s, run[0]), run[1..]))
  }

  function After(s: State, run: seq<Step>): State
    requires Runs(s, run)
    decreases |run|
  {
    if run == [] then s else After(Next(s, run[0]), run[1..])
  }

  ghost predicate Reachable(s: State) {
    exists s0: State, run: seq<Step> :: Init(s0) && Runs(s0, run) && After(s0, run) == s
  }

  // ----- The invariant -----

  /** Reads consume the queue in order, and only the last item ever queued ends the association. */
  predicate QueueInv(s: State) {
    && s.log.arrived == s.log.delivered + s.k.queue
    && (forall i :: 0 <= i < |s.log.arrived| ==> ItemOk(s.log.arrived[i]))
    && (forall i :: 0 <= i < |s.log.arrived| && IsEnd(s.log.arrived[i]) ==> s.k.gone && i == |s.log.arrived| - 1)
    && (s.k.gone ==> s.log.arrived != [] && IsEnd(Last(s.log.arrived)))
    && (s.k.taken > 0 ==> s.reader == Reading(true))
    && (s.reader == Reading(true) ==> s.k.queue != [] && s.k.queue[0].Note? && 0 < s.k.taken < s.k.queue[0].size)
  }

  predicate EndsWith(q: seq<Item>, kind: NoteKind) {
    q != [] && Last(q).Note? && Last(q).kind == kind
  }

  predicate EndInv(s: State) {
    && (s.t.failed ==> s.k.gone && s.k.queue == [] && EndsWith(s.log.arrived, CommLost))
    && (s.t.ended ==> s.k.gone && s.k.queue == [] && EndsWith(s.log.arrived, ShutdownComplete))
    && (s.k.gone && s.k.queue == [] ==> s.t.failed || s.t.ended)
    && (s.t.drained ==> s.t.err.Some? && s.k.queue == [])
    && (s.reader == Parked && s.k.gone ==> s.k.queue != [])
  }

  predicate LatchInv(s: State) {
    && s.log.latchWrites == (if s.t.err.Some? then 1 else 0)
    && (s.k.sockErr.Some? ==> s.k.gone && s.t.err == None && s.k.sockErr == s.log.failure)
    && (s.log.failure.Some? ==> s.k.gone && IsAssocFailure(s.log.failure.value))
    && (EndsWith(s.log.arrived, CommLost) ==> s.log.failure.Some? || s.log.stolen)
    && (s.t.err.Some? ==> s.k.gone && (s.t.err == s.log.failure || (s.t.err == Some(ENOTCONN) && s.log.stolen)))
    && (s.k.gone && s.k.sockErr == None && s.t.err == None && !s.log.stolen ==> s.log.failure == None)
    && (forall i :: 0 <= i < |s.log.reports| && ReportsFailure(s.log.reports[i]) ==> s.t.err == Some(s.log.reports[i]))
  }

  predicate Inv(s: State) {
    QueueInv(s) && EndInv(s) && LatchInv(s)
  }

  lemma KernelKeepsInv(s: State, ks: KernelStep)
    requires Inv(s) && Enabled(s, OfKernel(ks))
    ensures Inv(KernelNext(s, ks))
  {
  }

  /** Consuming the head moves it from the queue to the delivered items; an end is the last of them. */
  lemma ConsumedKeepsQueue(s: State)
    requires QueueInv(s) && s.k.queue != []
    ensures var s' := Consumed(s).(reader := Off); QueueInv(s')
    ensures IsEnd(s.k.queue[0]) <==> s.k.gone && s.k.queue[1..] == []
    ensures IsEnd(s.k.queue[0]) ==> Last(s.log.arrived) == s.k.queue[0]
  {
    var head := s.k.queue[0];
    assert s.log.arrived[|s.log.delivered|] == head;
    assert s.k.queue == [head] + s.k.queue[1..];
    assert s.log.arrived == s.log.delivered + [head] + s.k.queue[1..];
  }

  lemma PieceKeepsInv(s: State, n: nat, again: bool)
    requires Inv(s) && Enabled(s, OfReader(RecvPiece(n, again)))
    ensures Inv(ReadNext(s, RecvPiece(n, again)))
  {
    ConsumedKeepsQueue(s);
  }

  lemma NothingKeepsInv(s: State)
    requires Inv(s) && Enabled(s, OfReader(RecvNothing))
    ensures Inv(ReadNext(s, RecvNothing))
  {
    ReadRules(s.t, Nothing(s.k));
  }

  lemma ReadKeepsInv(s: State, rs: ReadStep)
    requires Inv(s) && Enabled(s, OfReader(rs))
    ensures Inv(ReadNext(s, rs))
  {
    match rs
    case RecvPiece(n, again) => PieceKeepsInv(s, n, again);
    case RecvData => ConsumedKeepsQueue(s);
    case RecvNothing => NothingKeepsInv(s);
    case _ =>
  }

  lemma SendKeepsInv(s: State, ss: SendStep)
    requires Inv(s) && Enabled(s, OfSender(ss))
    ensures Inv(SendNext(s, ss))
  {
  }

  lemma StepKeepsInv(s: State, e: Step)
    requires Inv(s) && Enabled(s, e)
    ensures Inv(Next(s, e))
  {
    match e
    case OfKernel(ks) => KernelKeepsInv(s, ks);
    case OfReader(rs) => ReadKeepsInv(s, rs);
    case OfSender(ss) => SendKeepsInv(s, ss);
  }

  lemma {:induction false} RunKeepsInv(s: State, run: seq<Step>)
    requires Inv(s) && Runs(s, run)
    ensures Inv(After(s, run))
    decreases |run|
  {
    if run != [] {
      StepKeepsInv(s, run[0]);
      RunKeepsInv(Next(s, run[0]), run[1..]);
    }
  }

  lemma ReachableInv(s: State)
    requires Reachable(s)
    ensures Inv(s)
  {
    var s0: State, run: seq<Step> :| Init(s0) && Runs(s0, run) && After(s0, run) == s;
    assert s0.log.arrived == [] + s0.k.queue;
    RunKeepsInv(s0, run);
  }

  // ----- The theorems -----

  /**
    One failure, one answer. The latch is written at most once; every association failure any
    read or send ever reported is its value; and that value is the errno Linux set, or ENOTCONN
    when that errno was taken outside the package.
  */
  lemma LatchedOnce(s: State)
    requires Reachable(s)
    ensures s.log.latchWrites <= 1
    ensures forall i :: 0 <= i < |s.log.reports| && ReportsFailure(s.log.reports[i]) ==> s.t.err == Some(s.log.reports[i])
    ensures s.t.err.Some? ==> s.t.err == s.log.failure || (s.t.err == Some(ENOTCONN) && s.log.stolen)
    ensures s.t.err.Some? && !s.log.stolen ==> s.t.err == s.log.failure
  {
    ReachableInv(s);
  }

  /** A filled latch never changes, and a read that reported it makes it the answer of every later read. */
  lemma LatchSticks(s: State, e: Step)
    requires Reachable(s) && Enabled(s, e)
    ensures s.t.err.Some? ==> Next(s, e).t.err == s.t.err
    ensures s.t.drained ==> Next(s, e).t.drained && ReadEnd(Next(s, e).t) == s.t.err
    ensures s.t.ended ==> ReadEnd(Next(s, e).t).Some?
  {
    ReachableInv(s);
    match e
    case OfKernel(_) =>
    case OfReader(rs) => ReadRules(s.t, Nothing(s.k));
    case OfSender(_) =>
  }

  /**
    What a send reports, in every run. While the association lives, nothing when it was accepted and
    its own refusal otherwise, with the latch untouched. Once it is gone, the errno Linux set if it
    is still pending; else ENOTCONN when the failure was seen; else EPIPE.
  */
  lemma SendReports(s: State, accepted: bool, refusal: Error)
    requires Reachable(s) && Enabled(s, OfSender(SendCall(accepted, refusal)))
    ensures var s' := SendNext(s, SendCall(accepted, refusal));
      if s.k.gone then
        var e := if s.k.sockErr.Some? then s.k.sockErr.value else if s.t.failed then ENOTCONN else EPIPE;
        s'.log.reports == s.log.reports + [e] && s'.t.err == if e == EPIPE then None else Some(e)
      else s'.t == s.t && s'.log.reports == if accepted then s.log.reports else s.log.reports + [refusal]
  {
    ReachableInv(s);
  }

  /** What a read of an empty queue reports, in every run: the latch, the pending errno, ENOTCONN, or the end. */
  lemma ReadReports(s: State)
    requires Reachable(s) && Enabled(s, OfReader(RecvNothing))
    ensures var s' := ReadNext(s, RecvNothing);
      var over := s.t.err.Some? || s.k.sockErr.Some? || s.t.failed || s.t.ended || s.k.rcvShut;
      && (s'.reader == Parked <==> !over)
      && s'.log.reports == if over then s.log.reports + [
           if s.t.err.Some? then s.t.err.value
           else if s.k.sockErr.Some? then s.k.sockErr.value
           else if s.t.failed then ENOTCONN else EOF] else s.log.reports
  {
    ReachableInv(s);
  }

  /** Reads lose nothing: what they consumed, followed by the queue, is everything that ever arrived. */
  lemma NothingLost(s: State)
    requires Reachable(s)
    ensures s.log.arrived == s.log.delivered + s.k.queue
  {
    ReachableInv(s);
  }

  /** A read that reports an error, the latch or the end of the stream, has delivered everything first. */
  lemma DeliveredFirst(s: State, rs: ReadStep)
    requires Reachable(s) && Enabled(s, OfReader(rs))
    requires |ReadNext(s, rs).log.reports| > |s.log.reports|
    ensures s.log.delivered == s.log.arrived
  {
    ReachableInv(s);
    assert rs == AskEnd || rs == RecvNothing;
    assert s.log.delivered + [] == s.log.delivered;
  }

  /** Once an end was seen, by any read or send, no read parks any more. */
  lemma NoParkAfterEnd(s: State, rs: ReadStep)
    requires Reachable(s) && Enabled(s, OfReader(rs)) && s.reader != Parked
    requires s.t.failed || s.t.ended || s.t.err.Some?
    ensures ReadNext(s, rs).reader != Parked
  {
    ReachableInv(s);
    ReadRules(s.t, Nothing(s.k));
  }

  /** A parked read whose association has ended, even if a send took the errno, is woken by the queue. */
  lemma ParkedReadWakes(s: State)
    requires Reachable(s) && s.reader == Parked && (s.k.gone || s.t.err.Some?)
    ensures Enabled(s, OfReader(Ready))
    ensures !s.t.failed && !s.t.ended
  {
    ReachableInv(s);
  }

  /**
    Records are consumed whole. While a record is in progress its next piece is at the head of the
    queue, whatever sends and arrivals came between, so that the callback never finds anything
    else in its place and never returns in the middle of one.
  */
  lemma RecordNotCut(s: State)
    requires Reachable(s)
    ensures s.reader == Reading(true) <==> s.k.taken > 0
    ensures s.reader == Reading(true) ==> !Enabled(s, OfReader(RecvData)) && !Enabled(s, OfReader(RecvNothing))
    ensures s.reader == Reading(true) ==> Enabled(s, OfReader(RecvPiece(1, false)))
  {
    ReachableInv(s);
  }
}
