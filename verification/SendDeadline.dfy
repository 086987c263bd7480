/**
  The interruption of a send that waits for buffer space (send_linux.go, close_linux.go).

  One sender, the callback of its context, local shutdowns and any number of deadline setters
  share the write deadline of one descriptor. Every critical section of `deadlineMu` is a function
  on `Book`, the fields that mutex guards; `SendState` is the object whose methods run those
  sections; and `Next` interleaves them with the sender's own program, with the runtime poller,
  with the clock and with the kernel's view of the association.
*/
module SendDeadline {
  import opened Wrappers

  // ----- The fields under deadlineMu, and its critical sections -----

  /** A deadline as callers give it; `Never` is the zero time. */
  datatype Deadline = Never | At(t: int)

  /** A time before every reading of the clock: what an interrupt writes to the descriptor. */
  const LONG_AGO: int := 0

  predicate Passed(d: Deadline, now: int) {
    d.At? && d.t <= now
  }

  datatype Book = Book(
    callerDeadline: Deadline,
    callerCrossed: bool,
    callerFirst: bool,
    parked: bool,
    shutdownWake: bool,
    slow: bool,
    interrupted: bool,
    fdWrite: Deadline,  // the descriptor's write deadline
    fdRead: Deadline,   // the descriptor's read deadline
    fdClosed: bool)     // a released descriptor keeps no deadline
  {
    predicate Owned() {
      interrupted || shutdownWake
    }

    function WriteFd(d: Deadline): Book {
      if fdClosed then this else this.(fdWrite := d)
    }

    function ReadFd(d: Deadline): Book {
      if fdClosed then this else this.(fdRead := d)
    }
  }

  datatype Mode = ReadOnly | WriteOnly | Both

  /** What `callerFirst` is computed from. */
  predicate CrossedSoFar(b: Book, now: int) {
    b.callerCrossed || Passed(b.callerDeadline, now)
  }

  function InterruptSection(b: Book, now: int): Book {
    if b.shutdownWake then b
    else b.(callerFirst := CrossedSoFar(b, now), interrupted := true).WriteFd(At(LONG_AGO))
  }

  function WakeSection(b: Book, now: int): Book {
    if b.parked && !b.interrupted && !b.shutdownWake
    then b.(callerFirst := CrossedSoFar(b, now), shutdownWake := true).WriteFd(At(LONG_AGO))
    else b
  }

  function SetSection(b: Book, d: Deadline, mode: Mode, now: int): Book {
    if mode == ReadOnly then b.ReadFd(d)
    else b.(callerCrossed := CrossedSoFar(b, now),
            callerDeadline := d,
            fdRead := if mode == Both && !b.fdClosed then d else b.fdRead,
            fdWrite := if b.Owned() || b.fdClosed then b.fdWrite else d)
  }

  function MarkSection(b: Book, hasCtx: bool): Book {
    b.(callerCrossed := b.callerCrossed && (b.slow || hasCtx), slow := true, parked := true)
  }

  function RestoreSection(b: Book): Book {
    if b.Owned()
    then b.WriteFd(b.callerDeadline).(interrupted := false, shutdownWake := false, parked := false)
    else b.(parked := false)
  }

  datatype Err = DeadlineExceeded | CtxErr | ESHUTDOWN | EAGAIN | FileClosed | Errno(code: nat)

  /** What the restore section reports for the error of the raw write. */
  function Attribute(b: Book, err: Option<Err>): Option<Err> {
    if b.Owned() && err == Some(DeadlineExceeded) && !b.callerFirst
    then Some(if b.shutdownWake then ESHUTDOWN else CtxErr)
    else err
  }

  /** `sendState`: the methods that run the critical sections, each on the fields themselves. */
  class SendState {
    var callerDeadline: Deadline
    var callerCrossed: bool
    var callerFirst: bool
    var parked: bool
    var shutdownWake: bool
    var slow: bool
    var interrupted: bool
    var fdWrite: Deadline
    var fdRead: Deadline
    var fdClosed: bool

    constructor ()
      ensures View() == Book(Never, false, false, false, false, false, false, Never, Never, false)
    {
      callerDeadline, fdWrite, fdRead := Never, Never, Never;
      callerCrossed, callerFirst, parked, shutdownWake := false, false, false, false;
      slow, interrupted, fdClosed := false, false, false;
    }

    function View(): Book
      reads this
    {
      Book(callerDeadline, callerCrossed, callerFirst, parked, shutdownWake, slow, interrupted,
           fdWrite, fdRead, fdClosed)
    }

    method WriteDeadline(d: Deadline)
      modifies this`fdWrite
      ensures View() == old(View()).WriteFd(d)
    {
      if !fdClosed { fdWrite := d; }
    }

    method ReadDeadline(d: Deadline)
      modifies this`fdRead
      ensures View() == old(View()).ReadFd(d)
    {
      if !fdClosed { fdRead := d; }
    }

    method Interrupt(now: int)
      modifies this
      ensures View() == InterruptSection(old(View()), now)
    {
      if !shutdownWake {
        callerFirst := callerCrossed || (callerDeadline.At? && callerDeadline.t <= now);
        interrupted := true;
        WriteDeadline(At(LONG_AGO));
      }
    }

    method WakeShutdown(now: int)
      modifies this
      ensures View() == WakeSection(old(View()), now)
    {
      if parked && !interrupted && !shutdownWake {
        callerFirst := callerCrossed || (callerDeadline.At? && callerDeadline.t <= now);
        shutdownWake := true;
        WriteDeadline(At(LONG_AGO));
      }
    }

    /** The caller's value, and whether the one it replaces had crossed. */
    method Record(d: Deadline, now: int)
      modifies this`callerCrossed, this`callerDeadline
      ensures View() == old(View()).(callerCrossed := CrossedSoFar(old(View()), now), callerDeadline := d)
    {
      if callerDeadline.At? && callerDeadline.t <= now {
        callerCrossed := true;
      }
      callerDeadline := d;
    }

    method SetDeadline(d: Deadline, mode: Mode, now: int)
      modifies this
      ensures View() == SetSection(old(View()), d, mode, now)
    {
      if mode == ReadOnly {
        ReadDeadline(d);
        return;
      }
      Record(d, now);
      if interrupted || shutdownWake {
        if mode == Both { ReadDeadline(d); }
        return;
      }
      if mode == Both { ReadDeadline(d); }
      WriteDeadline(d);
    }

    method MarkParked(hasCtx: bool)
      modifies this
      ensures View() == MarkSection(old(View()), hasCtx)
    {
      if !slow {
        if !hasCtx { callerCrossed := false; }
        slow := true;
      }
      parked := true;
    }

    method Restore(err: Option<Err>) returns (reported: Option<Err>)
      modifies this
      ensures View() == RestoreSection(old(View()))
      ensures reported == Attribute(old(View()), err)
    {
      reported := err;
      if interrupted || shutdownWake {
        if err == Some(DeadlineExceeded) && !callerFirst {
          reported := if shutdownWake then Some(ESHUTDOWN) else Some(CtxErr);
        }
        WriteDeadline(callerDeadline);
        interrupted, shutdownWake := false, false;
      }
      parked := false;
    }
  }

  // ----- The interleaved system -----

  /** Where the sender is; `deadlineMu` is held between steps only at `Marked`. */
  datatype Pc =
    | Idle           // the send lock is free
    | Locked         // lock taken, context not yet checked again
    | Writing        // about to enter the raw write
    | Attempting     // in the callback, about to make a sendmsg
    | Marked         // EAGAIN: parked is set, the status query comes next, deadlineMu held
    | Registering    // the query found nothing: about to register the context callback
    | Waiting        // in the poller
    | Returned       // the raw write has returned
    | AwaitingToken  // the callback had started: waiting for its completion
    | Restoring      // about to restore the deadline
    | Unlocking      // about to release the send lock

  /** The context callback: registered, started, past its critical section, done, or never to run. */
  datatype Hook = NoHook | Armed | Running | Moved | Finished | Stopped | Joined

  datatype Assoc = Established | ShuttingDown | Gone

  datatype Call = Call(hasCtx: bool, cancellable: bool, wait: bool, len: nat)

  datatype Outcome = Sent(n: nat) | ShortWrite(n: nat) | Failed(err: Err)

  /** One send's own storage: the message, what the raw write returned, and the attempt's result. */
  datatype Send = Send(call: Call, named: bool, writeErr: Option<Err>, n: nat, serr: Option<Err>)

  /** The send's context: done or not, its callback, and the completions in `interruptDone`. */
  datatype Ctx = Ctx(done: bool, hook: Hook, tokens: nat)

  /** What the kernel answered last: a sendmsg, or the full buffer and then the association's state. */
  datatype Answer = NoAnswer | Accepted(n: nat) | Refused(code: nat) | Full(assoc: Assoc)

  /** What happened, for the statements below. */
  datatype Log = Log(
    callerRead: Deadline,     // the latest read deadline a caller set
    woken: bool,              // some local shutdown has finished its wake
    queryFailed: bool,        // the status query of this wait failed: the association was freed
    taken: bool,              // a wake saw the parked mark of this send, or its context callback ran
    crossed: bool,            // a caller deadline passed while in force, since the bookkeeping reset
    crossedAtOwnership: bool, // what `crossed` was when the deadline was taken over
    endedPast: bool,          // the caller's deadline had passed when the poller reported a timeout
    converted: bool,          // the reported error replaced the poller's timeout
    accepted: nat,            // sendmsg calls of this send that the kernel accepted
    answer: Answer,
    doneFirst: bool,          // the context was done when the send had the lock
    retries: nat,             // attempts repeated without the destination
    outcome: Option<Outcome>) // the last finished send

  datatype State = State(
    conn: bool,   // a Conn (with a latch), or an Endpoint
    now: int,
    b: Book,
    pc: Pc,
    send: Send,
    ctx: Ctx,
    assoc: Assoc,
    wakers: nat,  // local shutdowns past the primitive and before their wake
    log: Log)

  datatype WorldStep =
    | Tick(dt: nat)
    | SetDeadline(d: Deadline, mode: Mode)
    | CloseFd
    | CancelCtx
    | PeerShutdown
    | AssocFreed

  datatype WakeStep =
    | LocalShutdown   // the SHUTDOWN primitive succeeded; its wake is outstanding
    | Wake
    | HookStart
    | HookMove
    | HookSignal

  datatype EntryStep = Acquire(call: Call, named: bool) | CheckCtx | EnterWrite

  datatype KernelStep =
    | SendOk(n: nat)
    | SendErr(code: nat)
    | SendInterrupted // EINTR
    | SendPathGone    // EADDRNOTAVAIL for a destination, with the association ended
    | SendFull        // EAGAIN
    | Query           // SCTP_STATUS

  datatype PollStep = Register | WaitReady | WaitTimeout | WaitClosed

  datatype ExitStep = AfterWrite | TakeToken | Restore | Unlock

  datatype Step =
    | World(w: WorldStep)
    | Waker(k: WakeStep)
    | Entry(i: EntryStep)
    | Kernel(m: KernelStep)
    | Poll(p: PollStep)
    | Exit(x: ExitStep)

  predicate Init(s: State) {
    && s.b == Book(Never, false, false, false, false, false, false, Never, Never, false)
    && s.now > LONG_AGO
    && s.pc == Idle && s.ctx == Ctx(false, NoHook, 0) && s.wakers == 0
    && s.send.serr == None
    && s.log == Log(Never, false, false, false, false, false, false, false, 0, NoAnswer, false, 0, None)
  }

  predicate Enabled(s: State, e: Step) {
    match e
    case World(w) => w.SetDeadline? ==> s.pc != Marked
    case Waker(LocalShutdown) => true
    case Waker(Wake) => s.wakers > 0 && s.pc != Marked
    case Waker(HookStart) => s.ctx.hook == Armed && s.ctx.done
    case Waker(HookMove) => s.ctx.hook == Running && s.pc != Marked
    case Waker(HookSignal) => s.ctx.hook == Moved && s.ctx.tokens < 1
    case Entry(i) => s.pc == (match i case Acquire(_, _) => Idle case CheckCtx => Locked case EnterWrite => Writing)
    case Kernel(SendOk(_)) => s.pc == Attempting && s.assoc == Established
    case Kernel(SendErr(_)) => s.pc == Attempting
    case Kernel(SendInterrupted) => s.pc == Attempting
    case Kernel(SendPathGone) => s.pc == Attempting && s.send.named && s.conn && s.assoc == Gone
    case Kernel(SendFull) => s.pc == Attempting && s.assoc != Gone
    case Kernel(Query) => s.pc == Marked
    case Poll(Register) => s.pc == Registering
    case Poll(WaitReady) => s.pc == Waiting
    case Poll(WaitTimeout) => s.pc == Waiting && !s.b.fdClosed && Passed(s.b.fdWrite, s.now)
    case Poll(WaitClosed) => s.pc == Waiting && s.b.fdClosed
    case Exit(AfterWrite) => s.pc == Returned
    case Exit(TakeToken) => s.pc == AwaitingToken && s.ctx.tokens > 0
    case Exit(Restore) => s.pc == Restoring
    case Exit(Unlock) => s.pc == Unlocking
  }

  function WorldNext(s: State, w: WorldStep): State {
    match w
    case Tick(dt) =>
      s.(now := s.now + dt, log := s.log.(crossed := s.log.crossed || Passed(s.b.callerDeadline, s.now + dt)))
    case SetDeadline(d, mode) =>
      var b := SetSection(s.b, d, mode, s.now);
      s.(b := b,
         log := s.log.(callerRead := if mode == WriteOnly then s.log.callerRead else d,
                       crossed := s.log.crossed || Passed(b.callerDeadline, s.now)))
    case CloseFd => s.(b := s.b.(fdClosed := true))
    case CancelCtx => s.(ctx := s.ctx.(done := s.ctx.done || (s.send.call.hasCtx && s.send.call.cancellable)))
    case PeerShutdown => s.(assoc := if s.assoc == Gone then Gone else ShuttingDown)
    case AssocFreed => s.(assoc := Gone)
  }

  function WakeNext(s: State, k: WakeStep): State
    requires Enabled(s, Waker(k))
  {
    match k
    case LocalShutdown => s.(assoc := if s.assoc == Gone then Gone else ShuttingDown, wakers := s.wakers + 1)
    case Wake =>
      var takes := s.b.parked && !s.b.Owned();
      s.(wakers := s.wakers - 1, b := WakeSection(s.b, s.now),
         log := s.log.(woken := true, taken := s.log.taken || s.b.parked,
                       crossedAtOwnership := if takes then s.log.crossed else s.log.crossedAtOwnership))
    case HookStart => s.(ctx := s.ctx.(hook := Running))
    case HookMove =>
      s.(ctx := s.ctx.(hook := Moved), b := InterruptSection(s.b, s.now),
         log := s.log.(taken := true,
                       crossedAtOwnership := if s.b.shutdownWake then s.log.crossedAtOwnership else s.log.crossed))
    case HookSignal => s.(ctx := s.ctx.(hook := Finished, tokens := s.ctx.tokens + 1))
  }

  /** The poller reported a timeout to the raw write. */
  function TimedOut(s: State): State {
    s.(pc := Returned, send := s.send.(writeErr := Some(DeadlineExceeded)),
       log := s.log.(endedPast := Passed(s.b.callerDeadline, s.now)))
  }

  function EntryNext(s: State, i: EntryStep): State {
    match i
    case Acquire(call, named) =>
      s.(pc := Locked, send := Send(call, named, None, 0, None), ctx := s.ctx.(done := false),
         log := s.log.(crossedAtOwnership := false, endedPast := false, converted := false,
                       accepted := 0, answer := NoAnswer, doneFirst := false, retries := 0, outcome := None))
    case CheckCtx => Checked(s.(log := s.log.(doneFirst := s.ctx.done)))
    case EnterWrite =>
      if s.b.fdClosed then s.(pc := Returned, send := s.send.(writeErr := Some(FileClosed)))
      else if Passed(s.b.fdWrite, s.now) then TimedOut(s)
      else s.(pc := Attempting)
  }

  /** The context's check under the lock, and the reset of the crossing bookkeeping. */
  function Checked(s: State): State {
    if s.send.call.hasCtx && s.ctx.done then s.(pc := Idle, log := s.log.(outcome := Some(Failed(CtxErr))))
    else if s.send.call.hasCtx then
      s.(pc := Writing, b := s.b.(callerCrossed := false),
         log := s.log.(crossed := Passed(s.b.callerDeadline, s.now)))
    else s.(pc := Writing)
  }

  /** The attempt ends the raw write with its own result. */
  function Attempted(s: State, n: nat, serr: Option<Err>): State {
    s.(pc := Returned, send := s.send.(n := n, serr := serr),
       log := s.log.(accepted := s.log.accepted + if serr == None then 1 else 0))
  }

  function KernelNext(s: State, m: KernelStep): State {
    match m
    case SendOk(n) => Attempted(Answered(s, Accepted(n)), n, None)
    case SendErr(code) => Attempted(Answered(s, Refused(code)), 0, Some(Errno(code)))
    case SendInterrupted => s
    case SendPathGone => s.(send := s.send.(named := false), log := s.log.(retries := s.log.retries + 1))
    case SendFull => BufferFull(Answered(s, Full(s.assoc)))
    case Query =>
      // The query of a freed association fails, and a failed query answers no.
      var s1 := Answered(s, Full(s.assoc));
      if s.assoc == ShuttingDown then Attempted(s1, 0, Some(ESHUTDOWN))
      else s1.(pc := Registering, log := s1.log.(queryFailed := s.assoc == Gone))
  }

  function Answered(s: State, a: Answer): State {
    s.(log := s.log.(answer := a))
  }

  /** EAGAIN: a Conn's send that waits marks itself parked, and one that does not looks at the association. */
  function BufferFull(s: State): State {
    if s.conn && s.send.call.wait then
      s.(pc := Marked, b := MarkSection(s.b, s.send.call.hasCtx),
         log := s.log.(crossed := if s.b.slow || s.send.call.hasCtx then s.log.crossed
                                  else Passed(s.b.callerDeadline, s.now)))
    else if s.conn && s.assoc == ShuttingDown then Attempted(s, 0, Some(ESHUTDOWN))
    else if !s.send.call.wait then Attempted(s, 0, Some(EAGAIN))
    else s.(pc := Registering)
  }

  function PollNext(s: State, p: PollStep): State {
    match p
    case Register =>
      if s.ctx.hook == NoHook && s.send.call.hasCtx && s.send.call.cancellable
      then s.(pc := Waiting, ctx := s.ctx.(hook := Armed))
      else s.(pc := Waiting)
    case WaitReady => s.(pc := Attempting)
    case WaitTimeout => TimedOut(s)
    case WaitClosed => s.(pc := Returned, send := s.send.(writeErr := Some(FileClosed)))
  }

  /** The outcome the send returns once it has released the lock. */
  function Report(m: Send): Outcome {
    if m.writeErr.Some? then Failed(m.writeErr.value)
    else if m.serr.Some? then Failed(m.serr.value)
    else if m.n != m.call.len then ShortWrite(m.n)
    else Sent(m.n)
  }

  function ExitNext(s: State, x: ExitStep): State
    requires Enabled(s, Exit(x))
  {
    match x
    case AfterWrite =>
      if s.ctx.hook == NoHook then s.(pc := if s.b.slow then Restoring else Unlocking)
      else if s.ctx.hook == Armed then s.(pc := Restoring, ctx := s.ctx.(hook := Stopped))
      else s.(pc := AwaitingToken)
    case TakeToken => s.(pc := Restoring, ctx := s.ctx.(hook := Joined, tokens := s.ctx.tokens - 1))
    case Restore =>
      var reported := Attribute(s.b, s.send.writeErr);
      s.(pc := Unlocking, b := RestoreSection(s.b), send := s.send.(writeErr := reported),
         log := s.log.(converted := reported != s.send.writeErr, taken := false))
    case Unlock =>
      s.(pc := Idle, b := s.b.(slow := false), ctx := s.ctx.(hook := NoHook),
         log := s.log.(outcome := Some(Report(s.send))))
  }

  function Next(s: State, e: Step): State
    requires Enabled(s, e)
  {
    match e
    case World(w) => WorldNext(s, w)
    case Waker(k) => WakeNext(s, k)
    case Entry(i) => EntryNext(s, i)
    case Kernel(m) => KernelNext(s, m)
    case Poll(p) => PollNext(s, p)
    case Exit(x) => ExitNext(s, x)
  }

  predicate Runs(s: State, run: seq<Step>)
    decreases |run|
  {
    run == [] || (Enabled(s, run[0]) && Runs(Next(s, run[0]), run[1..]))
  }

  function After(s: State, run: seq<Step>): State
    requires Runs(s, run)
    decreases |run|
  {
    if run == [] then s else After(Next(s, run[0]), run[1..])
  }

  /** Reached by some interleaving, of any length, from a fresh connection. */
  ghost predicate Reachable(s: State) {
    exists s0: State, run: seq<Step> :: Init(s0) && Runs(s0, run) && After(s0, run) == s
  }

  // ----- The invariant -----

  predicate InWrite(pc: Pc) {
    pc == Attempting || pc == Marked || pc == Registering || pc == Waiting
  }

  predicate PastWrite(pc: Pc) {
    pc == Returned || pc == AwaitingToken || pc == Restoring || pc == Unlocking
  }

  predicate OnTheWay(pc: Pc) {
    pc == Registering || pc == Waiting
  }

  predicate DeadlineInv(s: State) {
    && s.now > LONG_AGO
    && !(s.b.interrupted && s.b.shutdownWake)
    && (!s.b.fdClosed ==> s.b.fdWrite == if s.b.Owned() then At(LONG_AGO) else s.b.callerDeadline)
    && (!s.b.fdClosed ==> s.b.fdRead == s.log.callerRead)
    && (s.b.shutdownWake ==> s.b.parked)
    && (s.b.parked ==> s.b.slow && s.conn && s.pc != Unlocking)
    && (s.b.slow ==> s.b.parked || s.pc == Unlocking)
    && (s.b.slow || s.ctx.hook != NoHook ==> InWrite(s.pc) || PastWrite(s.pc))
    && (s.pc == Marked ==> s.b.parked)
    && (OnTheWay(s.pc) && s.conn ==> s.b.parked)
  }

  predicate HookInv(s: State) {
    var h := s.ctx.hook;
    && s.ctx.tokens == (if h == Finished then 1 else 0)
    && (s.b.interrupted ==> (h == Moved || h == Finished || h == Joined) && s.pc != Unlocking)
    && (h == Running || h == Moved || h == Finished || h == Joined ==> s.ctx.done)
    && (h == Stopped || h == Joined ==> s.pc == Restoring || s.pc == Unlocking)
    && (s.pc == Restoring || s.pc == Unlocking ==> h == NoHook || h == Stopped || h == Joined)
    && (s.pc == AwaitingToken ==> h == Running || h == Moved || h == Finished)
    && (s.ctx.done ==> s.send.call.hasCtx)
    && (s.pc == Waiting && s.send.call.hasCtx && s.send.call.cancellable ==> h != NoHook)
    && ((h == Moved || h == Finished) || (h == Joined && s.pc == Restoring) ==> s.b.Owned())
  }

  predicate WakeInv(s: State) {
    && (s.log.woken || s.wakers > 0 ==> s.assoc != Established)
    && (s.b.shutdownWake ==> s.log.woken)
    && (s.b.Owned() <==> s.log.taken)
    && (s.log.queryFailed ==> s.assoc == Gone)
    && (s.log.woken && s.conn && OnTheWay(s.pc) ==> s.log.taken || s.log.queryFailed)
  }

  predicate ConversionJustified(s: State, reported: Err) {
    || (reported == CtxErr && s.ctx.done)
    || (reported == ESHUTDOWN && s.log.woken)
  }

  predicate CauseInv(s: State) {
    var err := s.send.writeErr;
    && (s.log.crossed <==> CrossedSoFar(s.b, s.now))
    && (s.b.Owned() ==> s.b.callerFirst == s.log.crossedAtOwnership)
    && (s.pc != Idle && !PastWrite(s.pc) ==> err == None)
    && (s.pc != Idle && s.pc != Unlocking ==>
          !s.log.converted && (err == None || err == Some(DeadlineExceeded) || err == Some(FileClosed)))
    && (PastWrite(s.pc) && s.pc != Unlocking && err == Some(DeadlineExceeded) ==> s.b.Owned() || s.log.endedPast)
    && (s.pc == Unlocking && err == Some(DeadlineExceeded) ==> s.log.endedPast || s.log.crossedAtOwnership)
    && (s.pc == Unlocking && err == Some(CtxErr) ==> s.log.converted)
    && (s.pc == Unlocking && s.log.converted ==>
          !s.log.crossedAtOwnership && err.Some? && ConversionJustified(s, err.value))
  }

  predicate AtomicInv(s: State) {
    && (s.pc != Idle && !PastWrite(s.pc) ==> s.log.accepted == 0 && s.send.serr == None)
    && (s.send.serr.Some? ==> s.send.serr.value != DeadlineExceeded && s.send.serr.value != CtxErr)
    && (PastWrite(s.pc) ==> s.log.accepted == if s.send.writeErr == None && s.send.serr == None then 1 else 0)
  }

  /** What a finished send's outcome says about its history. */
  predicate OutcomeInv(s: State) {
    && (s.pc != Idle ==> s.log.outcome == None)
    && (s.log.outcome.Some? ==> OutcomeExplained(s, s.log.outcome.value))
  }

  predicate OutcomeExplained(s: State, o: Outcome) {
    && s.log.accepted == (if o.Failed? then 0 else 1)
    && (o == Failed(DeadlineExceeded) ==> s.log.endedPast || s.log.crossedAtOwnership)
    && (o == Failed(CtxErr) ==> s.ctx.done)
    && (s.log.converted ==> !s.log.crossedAtOwnership && o.Failed? && ConversionJustified(s, o.err))
  }

  predicate Inv(s: State) {
    DeadlineInv(s) && HookInv(s) && WakeInv(s) && CauseInv(s) && AtomicInv(s) && OutcomeInv(s)
  }

  lemma SetterKeepsInv(s: State, d: Deadline, mode: Mode)
    requires Inv(s) && s.pc != Marked
    ensures Inv(WorldNext(s, SetDeadline(d, mode)))
  {
  }

  lemma TickKeepsInv(s: State, dt: nat)
    requires Inv(s)
    ensures Inv(WorldNext(s, Tick(dt)))
  {
  }

  lemma AssocKeepsInv(s: State, w: WorldStep)
    requires Inv(s) && (w == PeerShutdown || w == AssocFreed)
    ensures Inv(WorldNext(s, w))
  {
  }

  lemma CloseKeepsInv(s: State)
    requires Inv(s)
    ensures Inv(WorldNext(s, CloseFd))
  {
  }

  lemma CancelKeepsInv(s: State)
    requires Inv(s)
    ensures Inv(WorldNext(s, CancelCtx))
  {
  }

  lemma WorldKeepsInv(s: State, w: WorldStep)
    requires Inv(s) && Enabled(s, World(w))
    ensures Inv(WorldNext(s, w))
  {
    match w
    case SetDeadline(d, mode) => SetterKeepsInv(s, d, mode);
    case Tick(dt) => TickKeepsInv(s, dt);
    case CloseFd => CloseKeepsInv(s);
    case CancelCtx => CancelKeepsInv(s);
    case _ => AssocKeepsInv(s, w);
  }

  lemma ShutdownKeepsInv(s: State, k: WakeStep)
    requires Inv(s) && Enabled(s, Waker(k)) && (k == LocalShutdown || k == Wake)
    ensures Inv(WakeNext(s, k))
  {
  }

  lemma HookKeepsInv(s: State, k: WakeStep)
    requires Inv(s) && Enabled(s, Waker(k)) && k != LocalShutdown && k != Wake
    ensures Inv(WakeNext(s, k))
  {
  }

  lemma WakeKeepsInv(s: State, k: WakeStep)
    requires Inv(s) && Enabled(s, Waker(k))
    ensures Inv(WakeNext(s, k))
  {
    if k == LocalShutdown || k == Wake {
      ShutdownKeepsInv(s, k);
    } else {
      HookKeepsInv(s, k);
    }
  }

  lemma AcquireKeepsInv(s: State, call: Call, named: bool)
    requires Inv(s) && s.pc == Idle
    ensures Inv(EntryNext(s, Acquire(call, named)))
  {
  }

  lemma CheckCtxKeepsInv(s: State)
    requires Inv(s) && s.pc == Locked
    ensures Inv(EntryNext(s, CheckCtx))
  {
  }

  lemma EnterKeepsInv(s: State)
    requires Inv(s) && s.pc == Writing
    ensures Inv(EntryNext(s, EnterWrite))
  {
  }

  lemma EntryKeepsInv(s: State, i: EntryStep)
    requires Inv(s) && Enabled(s, Entry(i))
    ensures Inv(EntryNext(s, i))
  {
    match i
    case Acquire(call, named) => AcquireKeepsInv(s, call, named);
    case CheckCtx => CheckCtxKeepsInv(s);
    case EnterWrite => EnterKeepsInv(s);
  }

  lemma AttemptedKeepsInv(s: State, a: Answer, n: nat, serr: Option<Err>)
    requires Inv(s) && (s.pc == Attempting || s.pc == Marked)
    requires serr.Some? ==> serr.value != DeadlineExceeded && serr.value != CtxErr
    ensures Inv(Attempted(Answered(s, a), n, serr))
  {
  }

  lemma MarkKeepsInv(s: State)
    requires Inv(s) && Enabled(s, Kernel(SendFull)) && s.conn && s.send.call.wait
    ensures Inv(KernelNext(s, SendFull))
  {
  }

  lemma FullKeepsInv(s: State)
    requires Inv(s) && Enabled(s, Kernel(SendFull))
    ensures Inv(KernelNext(s, SendFull))
  {
    if s.conn && s.send.call.wait {
      MarkKeepsInv(s);
    } else if s.conn && s.assoc == ShuttingDown {
      AttemptedKeepsInv(s, Full(s.assoc), 0, Some(ESHUTDOWN));
    } else if !s.send.call.wait {
      AttemptedKeepsInv(s, Full(s.assoc), 0, Some(EAGAIN));
    }
  }

  lemma QueryKeepsInv(s: State)
    requires Inv(s) && s.pc == Marked
    ensures Inv(KernelNext(s, Query))
  {
    if s.assoc == ShuttingDown {
      AttemptedKeepsInv(s, Full(s.assoc), 0, Some(ESHUTDOWN));
    }
  }

  lemma KernelKeepsInv(s: State, m: KernelStep)
    requires Inv(s) && Enabled(s, Kernel(m))
    ensures Inv(KernelNext(s, m))
  {
    match m
    case SendOk(n) => AttemptedKeepsInv(s, Accepted(n), n, None);
    case SendErr(code) => AttemptedKeepsInv(s, Refused(code), 0, Some(Errno(code)));
    case SendInterrupted =>
    case SendPathGone =>
    case SendFull => FullKeepsInv(s);
    case Query => QueryKeepsInv(s);
  }

  lemma PollKeepsInv(s: State, p: PollStep)
    requires Inv(s) && Enabled(s, Poll(p))
    ensures Inv(PollNext(s, p))
  {
  }

  lemma RestoreKeepsInv(s: State)
    requires Inv(s) && s.pc == Restoring
    ensures Inv(ExitNext(s, Restore))
  {
  }

  lemma UnlockKeepsInv(s: State)
    requires Inv(s) && s.pc == Unlocking
    ensures Inv(ExitNext(s, Unlock))
  {
  }

  lemma AfterWriteKeepsInv(s: State)
    requires Inv(s) && s.pc == Returned
    ensures Inv(ExitNext(s, AfterWrite))
  {
  }

  lemma ExitKeepsInv(s: State, x: ExitStep)
    requires Inv(s) && Enabled(s, Exit(x))
    ensures Inv(ExitNext(s, x))
  {
    match x
    case AfterWrite => AfterWriteKeepsInv(s);
    case TakeToken =>
    case Restore => RestoreKeepsInv(s);
    case Unlock => UnlockKeepsInv(s);
  }

  // ----- A second invariant: the outcome, in terms of the kernel's answers -----

  /** What the attempt's own result, in the send's storage, says about the kernel's answer. */
  predicate Explained(s: State, n: nat, serr: Option<Err>) {
    match s.log.answer
    case NoAnswer => false
    case Accepted(k) => serr == None && n == k
    case Refused(code) => serr == Some(Errno(code))
    case Full(a) =>
      if s.conn && a == ShuttingDown then serr == Some(ESHUTDOWN) else serr == Some(EAGAIN) && !s.send.call.wait
  }

  /** An error of the raw write itself is a timeout, its conversion, or a closed descriptor. */
  predicate WriteErrOk(s: State, err: Err) {
    || err == DeadlineExceeded
    || (err == FileClosed && s.b.fdClosed)
    || ((err == CtxErr || err == ESHUTDOWN) && s.pc == Unlocking && s.log.converted)
  }

  predicate AnswerInv(s: State) {
    && (s.pc != Idle && !PastWrite(s.pc) ==> s.log.answer == NoAnswer || s.log.answer.Full?)
    && (s.pc == Marked || OnTheWay(s.pc) ==> s.send.call.wait && s.log.answer.Full?)
    && (s.pc == Locked || s.pc == Writing ==> s.log.answer == NoAnswer)
    && (PastWrite(s.pc) && s.send.writeErr == None ==> Explained(s, s.send.n, s.send.serr))
    && (PastWrite(s.pc) && s.send.writeErr.Some? ==> s.log.answer == NoAnswer || s.log.answer.Full?)
    && (PastWrite(s.pc) && s.send.writeErr.Some? ==> WriteErrOk(s, s.send.writeErr.value))
    && (s.send.named ==> s.log.retries == 0) && s.log.retries <= 1
    && (s.log.doneFirst ==> s.pc == Idle && s.log.outcome == Some(Failed(CtxErr)) && s.log.answer == NoAnswer)
  }

  /** A finished send's outcome, in terms of what the kernel answered. */
  predicate ReportInv(s: State) {
    s.pc == Idle && s.log.outcome.Some? ==> ReportExplained(s, s.log.outcome.value)
  }

  predicate ReportExplained(s: State, o: Outcome) {
    match s.log.answer
    case Accepted(n) => o == (if n == s.send.call.len then Sent(n) else ShortWrite(n))
    case Refused(code) => o == Failed(Errno(code))
    case _ =>
      && o.Failed? && !o.err.Errno?
      && (o.err == EAGAIN ==> !s.send.call.wait)
      && (o.err == EAGAIN ==> s.log.answer.Full? && !(s.conn && s.log.answer.assoc == ShuttingDown))
      && (o.err == ESHUTDOWN && !s.log.converted ==> s.conn && s.log.answer == Full(ShuttingDown))
      && (o.err == FileClosed ==> s.b.fdClosed)
  }

  /** Steps outside the send leave it where it is. */
  predicate SameSend(s: State, s': State) {
    && s'.conn == s.conn && s'.pc == s.pc && s'.send == s.send && (s.b.fdClosed ==> s'.b.fdClosed)
    && (s'.log.answer, s'.log.retries, s'.log.converted) == (s.log.answer, s.log.retries, s.log.converted)
    && s'.log.outcome == s.log.outcome && s'.log.doneFirst == s.log.doneFirst
  }

  lemma SameSendKeepsAnswers(s: State, s': State)
    requires AnswerInv(s) && ReportInv(s) && SameSend(s, s')
    ensures AnswerInv(s') && ReportInv(s')
  {
  }

  lemma WorldLeavesSend(s: State, w: WorldStep)
    ensures SameSend(s, WorldNext(s, w))
  {
  }

  lemma WakerLeavesSend(s: State, k: WakeStep)
    requires Enabled(s, Waker(k))
    ensures SameSend(s, WakeNext(s, k))
  {
  }

  lemma AcquireKeepsAnswers(s: State, call: Call, named: bool)
    requires AnswerInv(s) && s.pc == Idle
    ensures AnswerInv(EntryNext(s, Acquire(call, named))) && ReportInv(EntryNext(s, Acquire(call, named)))
  {
  }

  lemma CheckKeepsAnswers(s: State)
    requires Inv(s) && AnswerInv(s) && s.pc == Locked
    ensures AnswerInv(EntryNext(s, CheckCtx)) && ReportInv(EntryNext(s, CheckCtx))
  {
  }

  lemma EnterKeepsAnswers(s: State)
    requires Inv(s) && AnswerInv(s) && s.pc == Writing
    ensures AnswerInv(EntryNext(s, EnterWrite)) && ReportInv(EntryNext(s, EnterWrite))
  {
  }

  lemma EntryKeepsAnswers(s: State, i: EntryStep)
    requires Inv(s) && AnswerInv(s) && Enabled(s, Entry(i))
    ensures AnswerInv(EntryNext(s, i)) && ReportInv(EntryNext(s, i))
  {
    match i
    case Acquire(call, named) => AcquireKeepsAnswers(s, call, named);
    case CheckCtx => CheckKeepsAnswers(s);
    case EnterWrite => EnterKeepsAnswers(s);
  }

  lemma KernelKeepsAnswers(s: State, m: KernelStep)
    requires Inv(s) && AnswerInv(s) && Enabled(s, Kernel(m))
    ensures AnswerInv(KernelNext(s, m)) && KernelNext(s, m).pc != Idle
  {
  }

  lemma PollKeepsAnswers(s: State, p: PollStep)
    requires Inv(s) && AnswerInv(s) && Enabled(s, Poll(p))
    ensures AnswerInv(PollNext(s, p)) && PollNext(s, p).pc != Idle
  {
  }

  lemma ExitKeepsAnswers(s: State, x: ExitStep)
    requires Inv(s) && AnswerInv(s) && Enabled(s, Exit(x)) && x != Unlock
    ensures AnswerInv(ExitNext(s, x)) && ExitNext(s, x).pc != Idle
  {
  }

  lemma UnlockReports(s: State)
    requires Inv(s) && AnswerInv(s) && s.pc == Unlocking
    ensures AnswerInv(ExitNext(s, Unlock)) && ReportInv(ExitNext(s, Unlock))
  {
  }

  lemma StepKeepsAnswers(s: State, e: Step)
    requires Inv(s) && AnswerInv(s) && ReportInv(s) && Enabled(s, e)
    ensures AnswerInv(Next(s, e)) && ReportInv(Next(s, e))
  {
    match e
    case World(w) =>
      WorldLeavesSend(s, w);
      SameSendKeepsAnswers(s, WorldNext(s, w));
    case Waker(k) =>
      WakerLeavesSend(s, k);
      SameSendKeepsAnswers(s, WakeNext(s, k));
    case Entry(i) => EntryKeepsAnswers(s, i);
    case Kernel(m) => KernelKeepsAnswers(s, m);
    case Poll(p) => PollKeepsAnswers(s, p);
    case Exit(x) => if x == Unlock { UnlockReports(s); } else { ExitKeepsAnswers(s, x); }
  }

  lemma StepKeepsInv(s: State, e: Step)
    requires Inv(s) && Enabled(s, e)
    ensures Inv(Next(s, e))
  {
    match e
    case World(w) => WorldKeepsInv(s, w);
    case Waker(k) => WakeKeepsInv(s, k);
    case Entry(i) => EntryKeepsInv(s, i);
    case Kernel(m) => KernelKeepsInv(s, m);
    case Poll(p) => PollKeepsInv(s, p);
    case Exit(x) => ExitKeepsInv(s, x);
  }

  lemma {:induction false} RunKeepsInv(s: State, run: seq<Step>)
    requires Inv(s) && AnswerInv(s) && ReportInv(s) && Runs(s, run)
    ensures Inv(After(s, run)) && AnswerInv(After(s, run)) && ReportInv(After(s, run))
    decreases |run|
  {
    if run != [] {
      StepKeepsInv(s, run[0]);
      StepKeepsAnswers(s, run[0]);
      RunKeepsInv(Next(s, run[0]), run[1..]);
    }
  }

  lemma ReachableInv(s: State)
    requires Reachable(s)
    ensures Inv(s) && AnswerInv(s) && ReportInv(s)
  {
    var s0: State, run: seq<Step> :| Init(s0) && Runs(s0, run) && After(s0, run) == s;
    RunKeepsInv(s0, run);
  }

  lemma {:induction false} RunExtends(s: State, run: seq<Step>, e: Step)
    requires Runs(s, run) && Enabled(After(s, run), e)
    ensures Runs(s, run + [e]) && After(s, run + [e]) == Next(After(s, run), e)
    decreases |run|
  {
    var longer := run + [e];
    if run == [] {
      assert longer[1..] == [];
    } else {
      assert longer[1..] == run[1..] + [e];
      RunExtends(Next(s, run[0]), run[1..], e);
    }
  }

  lemma ReachableNext(s: State, e: Step)
    requires Reachable(s) && Enabled(s, e)
    ensures Reachable(Next(s, e))
  {
    var s0: State, run: seq<Step> :| Init(s0) && Runs(s0, run) && After(s0, run) == s;
    RunExtends(s0, run, e);
  }

  // ----- The theorems -----

  /**
    Ownership of the write deadline. At most one of the context and a shutdown owns it; while one
    does, the descriptor's value has passed, whatever the setters did; otherwise it is the caller's
    latest. The read deadline is always the caller's. A free send lock leaves nothing behind.
  */
  lemma DeadlineOwnership(s: State)
    requires Reachable(s)
    ensures !(s.b.interrupted && s.b.shutdownWake)
    ensures s.b.Owned() && !s.b.fdClosed ==> Passed(s.b.fdWrite, s.now)
    ensures !s.b.Owned() && !s.b.fdClosed ==> s.b.fdWrite == s.b.callerDeadline
    ensures !s.b.fdClosed ==> s.b.fdRead == s.log.callerRead
    ensures s.pc == Idle ==> !s.b.Owned() && !s.b.parked && !s.b.slow && s.ctx.hook == NoHook && s.ctx.tokens == 0
  {
    ReachableInv(s);
  }

  /** Only the sender's own restore ends an ownership: no setter, clock or second waker does. */
  lemma OwnershipLasts(s: State, e: Step)
    requires Reachable(s) && Enabled(s, e) && s.b.Owned() && e != Exit(Restore)
    ensures Next(s, e).b.interrupted == s.b.interrupted && Next(s, e).b.shutdownWake == s.b.shutdownWake
    ensures Next(s, e).b.callerFirst == s.b.callerFirst
  {
    ReachableInv(s);
    OwnedStep(s, e);
  }

  lemma OwnedStep(s: State, e: Step)
    requires Inv(s) && Enabled(s, e) && s.b.Owned() && e != Exit(Restore)
    ensures SameCause(s.b, Next(s, e).b)
  {
    match e
    case World(w) => OwnedWorld(s, w);
    case Waker(k) => OwnedWaker(s, k);
    case Entry(_) => assert false; // no send is owned before its write
    case Kernel(m) =>
    case Poll(p) =>
    case Exit(x) =>
  }

  predicate SameCause(b: Book, b': Book) {
    b'.interrupted == b.interrupted && b'.shutdownWake == b.shutdownWake && b'.callerFirst == b.callerFirst
  }

  lemma OwnedWorld(s: State, w: WorldStep)
    requires Inv(s) && Enabled(s, World(w)) && s.b.Owned()
    ensures SameCause(s.b, WorldNext(s, w).b)
  {
  }

  lemma OwnedWaker(s: State, k: WakeStep)
    requires Inv(s) && Enabled(s, Waker(k)) && s.b.Owned()
    ensures SameCause(s.b, WakeNext(s, k).b)
  {
  }

  /**
    No lost shutdown wake. Once a local shutdown has run its wake, a Conn send still in the poller
    was seen parked by a wake, or its status query failed because the association had been freed,
    which answers "not shutting down". It is left without a passed deadline exactly in the second
    case: when that query failed, nothing took the deadline over, and the caller's has not passed.
  */
  lemma NoLostWake(s: State)
    requires Reachable(s)
    requires s.conn && s.pc == Waiting && s.log.woken && !s.b.fdClosed
    ensures !Passed(s.b.fdWrite, s.now) <==> s.log.queryFailed && !s.log.taken && !Passed(s.b.callerDeadline, s.now)
    ensures s.assoc != Gone ==> Passed(s.b.fdWrite, s.now)
    ensures Enabled(s, Poll(WaitTimeout)) <==> Passed(s.b.fdWrite, s.now)
  {
    ReachableInv(s);
  }

  /** A plain Conn send on a fresh connection reaches its first attempt. */
  lemma FirstAttempt(s0: State) returns (s: State)
    requires Init(s0) && s0.conn
    ensures Reachable(s) && s.pc == Attempting && s.send.call == Call(false, false, true, 1)
    ensures s.conn && s.b == s0.b && s.assoc == s0.assoc && s.wakers == 0 && !s.log.taken
  {
    assert Runs(s0, []) && After(s0, []) == s0;
    var acquire := Entry(Acquire(Call(false, false, true, 1), false));
    ReachableNext(s0, acquire);
    var s1 := Next(s0, acquire);
    ReachableNext(s1, Entry(CheckCtx));
    var s2 := Next(s1, Entry(CheckCtx));
    ReachableNext(s2, Entry(EnterWrite));
    s := Next(s2, Entry(EnterWrite));
  }

  /** The exception happens: the association goes between EAGAIN and the status query. */
  lemma WakeMissedWhenAssocFreed(s0: State) returns (s: State)
    requires Init(s0) && s0.conn && s0.assoc == Established
    ensures Reachable(s) && s.conn && s.pc == Waiting && s.log.woken && !s.b.fdClosed
    ensures !Passed(s.b.fdWrite, s.now)
  {
    var s3 := FirstAttempt(s0);
    ReachableNext(s3, Waker(LocalShutdown));
    var s4 := Next(s3, Waker(LocalShutdown));
    ReachableNext(s4, Waker(Wake));
    var s5 := Next(s4, Waker(Wake));
    ReachableNext(s5, Kernel(SendFull));
    var s6 := Next(s5, Kernel(SendFull));
    ReachableNext(s6, World(AssocFreed));
    var s7 := Next(s6, World(AssocFreed));
    ReachableNext(s7, Kernel(Query));
    var s8 := Next(s7, Kernel(Query));
    ReachableNext(s8, Poll(Register));
    s := Next(s8, Poll(Register));
  }

  /**
    The error names the cause that came first. A timeout turned into the context's error or
    ESHUTDOWN had seen no caller deadline pass when the deadline was taken over, and its cause is
    real; a reported deadline error always stands for a caller deadline that did pass, in force
    either when the poller reported it or earlier, before the take-over, even if replaced since.
  */
  lemma FirstCause(s: State)
    requires Reachable(s) && s.log.outcome.Some?
    ensures s.log.converted ==> !s.log.crossedAtOwnership
    ensures s.log.converted ==>
      || (s.log.outcome == Some(Failed(CtxErr)) && s.ctx.done)
      || (s.log.outcome == Some(Failed(ESHUTDOWN)) && s.log.woken)
    ensures s.log.outcome == Some(Failed(CtxErr)) ==> s.ctx.done
    ensures s.log.outcome == Some(Failed(DeadlineExceeded)) ==> s.log.endedPast || s.log.crossedAtOwnership
  {
    ReachableInv(s);
  }

  /** The bookkeeping is exact: what an interrupt would compute is whether a caller deadline crossed. */
  lemma CrossingExact(s: State)
    requires Reachable(s)
    ensures CrossedSoFar(s.b, s.now) <==> s.log.crossed
    ensures s.b.Owned() ==> (s.b.callerFirst <==> s.log.crossedAtOwnership)
  {
    ReachableInv(s);
  }

  /**
    Atomicity: a send has at most one accepted sendmsg, reports success or a short write exactly
    when it had one, and never hides it behind a deadline, a cancellation or a shutdown.
  */
  lemma SendAtomic(s: State)
    requires Reachable(s)
    ensures s.pc != Idle ==> s.log.accepted <= 1
    ensures s.log.outcome.Some? ==> s.log.accepted == if s.log.outcome.value.Failed? then 0 else 1
  {
    ReachableInv(s);
  }

  /**
    No lost cancellation. A send that waits with a cancellable context has its callback registered.
    Once the context is done, the callback can start, or can move the deadline, or has moved it, and
    then the poller's timeout is enabled as long as the descriptor is open.
  */
  lemma NoLostCancellation(s: State)
    requires Reachable(s) && s.pc == Waiting && s.send.call.hasCtx && s.send.call.cancellable
    ensures s.ctx.hook == Armed || s.ctx.hook == Running || s.ctx.hook == Moved || s.ctx.hook == Finished
    ensures s.ctx.hook == Armed && s.ctx.done ==> Enabled(s, Waker(HookStart))
    ensures s.ctx.hook == Running ==> Enabled(s, Waker(HookMove))
    ensures (s.ctx.hook == Moved || s.ctx.hook == Finished) && !s.b.fdClosed ==>
      Passed(s.b.fdWrite, s.now) && Enabled(s, Poll(WaitTimeout))
  {
    ReachableInv(s);
  }

  function CallbackStepsLeft(s: State): nat {
    if s.ctx.hook == Armed then 3 else if s.ctx.hook == Running then 2 else 1
  }

  predicate CancelledWait(s: State) {
    s.pc == Waiting && s.send.call.hasCtx && s.send.call.cancellable && s.ctx.done && !s.b.fdClosed
  }

  lemma CancelStep(s: State) returns (e: Step)
    requires Reachable(s) && CancelledWait(s)
    ensures Enabled(s, e) && (e == Waker(HookStart) || e == Waker(HookMove) || e == Poll(WaitTimeout))
    ensures if e == Poll(WaitTimeout) then Next(s, e).pc == Returned && Next(s, e).send.writeErr == Some(DeadlineExceeded)
            else CancelledWait(Next(s, e)) && CallbackStepsLeft(Next(s, e)) < CallbackStepsLeft(s)
  {
    NoLostCancellation(s);
    e := if s.ctx.hook == Armed then Waker(HookStart)
         else if s.ctx.hook == Running then Waker(HookMove) else Poll(WaitTimeout);
  }

  /** So a cancelled send leaves the poller within three steps of its callback and the poller. */
  lemma {:induction false} CancelledSendLeaves(s: State) returns (run: seq<Step>)
    requires Reachable(s) && CancelledWait(s)
    ensures Runs(s, run) && 1 <= |run| <= CallbackStepsLeft(s) <= 3
    ensures forall i :: 0 <= i < |run| ==> run[i] == Waker(HookStart) || run[i] == Waker(HookMove) || run[i] == Poll(WaitTimeout)
    ensures After(s, run).pc == Returned && After(s, run).send.writeErr == Some(DeadlineExceeded)
    decreases CallbackStepsLeft(s)
  {
    var e := CancelStep(s);
    var rest := [];
    if e != Poll(WaitTimeout) {
      ReachableNext(s, e);
      rest := CancelledSendLeaves(Next(s, e));
    }
    run := [e] + rest;
    assert run[1..] == rest;
  }

  /**
    The outcome is the kernel's last answer: success exactly when it accepted the whole message, a
    short write exactly when it accepted another length, its errno when it refused. A full buffer
    is reported only by a send that does not wait, as EAGAIN, or ESHUTDOWN when the association is
    shutting down; and only one attempt is ever repeated without its destination.
  */
  lemma OutcomeExact(s: State)
    requires Reachable(s) && s.pc == Idle && s.log.outcome.Some?
    ensures forall n :: s.log.outcome == Some(Sent(n)) <==> s.log.answer == Accepted(n) && n == s.send.call.len
    ensures forall n :: s.log.outcome == Some(ShortWrite(n)) <==> s.log.answer == Accepted(n) && n != s.send.call.len
    ensures forall c :: s.log.outcome == Some(Failed(Errno(c))) <==> s.log.answer == Refused(c)
    ensures s.log.outcome == Some(Failed(EAGAIN)) ==>
      !s.send.call.wait && s.log.answer.Full? && !(s.conn && s.log.answer.assoc == ShuttingDown)
    ensures s.log.outcome == Some(Failed(ESHUTDOWN)) && !s.log.converted ==> s.conn && s.log.answer == Full(ShuttingDown)
    ensures s.log.outcome == Some(Failed(FileClosed)) ==> s.b.fdClosed
    ensures s.log.doneFirst ==> s.log.outcome == Some(Failed(CtxErr)) && s.log.answer == NoAnswer
    ensures s.log.retries <= 1
  {
    ReachableInv(s);
  }

  /** The steps of the send itself: the sender's own, and those its context callback owes it. */
  predicate OfSend(e: Step) {
    e.Entry? || e.Kernel? || e.Poll? || e.Exit? || e == Waker(HookMove) || e == Waker(HookSignal)
  }

  /** How many of its own steps a send is at most away from the poller or from having released the lock. */
  function StepsLeft(s: State): nat {
    match s.pc
    case Idle => 0
    case Waiting => 0
    case Registering => 1
    case Unlocking => 1
    case Restoring => 2
    case AwaitingToken => 3 + (if s.ctx.hook == Running then 2 else if s.ctx.hook == Moved then 1 else 0)
    case Returned => 6
    case Marked => 7
    case Attempting => 7
    case Writing => 8
    case Locked => 9
  }

  /** Outside the poller a send always has a step of its own, and one that brings it nearer. */
  lemma SenderProgress(s: State) returns (e: Step)
    requires Reachable(s) && s.pc != Idle && s.pc != Waiting
    ensures Enabled(s, e) && OfSend(e) && StepsLeft(Next(s, e)) < StepsLeft(s)
  {
    ReachableInv(s);
    e := NearerStep(s);
  }

  lemma NearerStep(s: State) returns (e: Step)
    requires HookInv(s) && s.pc != Idle && s.pc != Waiting
    ensures Enabled(s, e) && OfSend(e) && StepsLeft(Next(s, e)) < StepsLeft(s)
  {
    e := match s.pc
      case Locked => Entry(CheckCtx)
      case Writing => Entry(EnterWrite)
      case Attempting => Kernel(SendErr(0))
      case Marked => Kernel(Query)
      case Registering => Poll(Register)
      case Returned => Exit(AfterWrite)
      case AwaitingToken =>
        if s.ctx.hook == Running then Waker(HookMove)
        else if s.ctx.hook == Moved then Waker(HookSignal) else Exit(TakeToken)
      case Restoring => Exit(Restore)
      case _ => Exit(Unlock);
  }

  /** So, whatever else stands still, a send reaches the poller or releases the lock within nine steps of its own. */
  lemma {:induction false} SendReturns(s: State) returns (run: seq<Step>)
    requires Reachable(s)
    ensures Runs(s, run) && |run| <= StepsLeft(s) <= 9
    ensures forall i :: 0 <= i < |run| ==> OfSend(run[i])
    ensures After(s, run).pc == Idle || After(s, run).pc == Waiting
    decreases StepsLeft(s)
  {
    if s.pc == Idle || s.pc == Waiting {
      run := [];
    } else {
      var e := SenderProgress(s);
      ReachableNext(s, e);
      var rest := SendReturns(Next(s, e));
      run := [e] + rest;
      assert run[1..] == rest;
    }
  }
}
