/**
  The close state machine (close.go), run by any number of threads.

  `Next` is one atomic step of one thread: a load, a compare-and-swap, a channel operation or one
  of the injected system-level steps. `GracefulWait` is the polling loop of a graceful close, with
  its doubling backoff, against a clock that advances at least as asked.
*/
module Lifecycle {
  import opened Wrappers

  datatype Life = Open | Closing | Aborting | Closed

  function Rank(l: Life): nat {
    match l
    case Open => 0
    case Closing => 1
    case Aborting => 2
    case Closed => 3
  }

  datatype Call = CloseCall | AbortCall | ShutdownCall

  datatype Result = Nil | ErrClosed | OpError

  /** Where a thread is in close, abortNow (also a close with no grace) or shutdown. */
  datatype Pc =
    | CloseClaim             // compare-and-swap open to closing
    | CloseMark              // shut.Store(true)
    | CloseStart             // startShutdown
    | ClosePoll              // assocGone
    | CloseClock             // the remaining grace
    | CloseSelect            // abort, or the timer
    | CloseAbortive(failed: bool)  // after a status query that failed, or not
    | CloseRelease
    | CloseStore(r: Result)  // state.Store(closed)
    | CloseDone(r: Result)   // close(done)
    | AbortLoad
    | AbortClaimOpen         // compare-and-swap open to closed
    | AbortClaimClosing      // compare-and-swap closing to aborting
    | AbortSignal            // close(abort)
    | AbortWait              // <-done
    | AbortAbortive
    | AbortDone(r: Result)   // close(done)
    | ShutLoad
    | ShutClaim              // compare-and-swap on shut
    | ShutStart              // startShutdown
    | Returned(r: Result)    // from close or abortNow
    | ShutReturned(r: Result)

  /** The call that owns the release of the descriptor. */
  predicate Owns(pc: Pc) {
    match pc
    case CloseMark | CloseStart | ClosePoll | CloseClock | CloseSelect | CloseAbortive(_) | CloseRelease => true
    case CloseStore(_) | CloseDone(_) | AbortAbortive | AbortDone(_) => true
    case _ => false
  }

  /** An owner whose abortive or release step is still to come. */
  predicate BeforeRelease(pc: Pc) {
    Owns(pc) && !pc.CloseStore? && !pc.CloseDone? && !pc.AbortDone?
  }

  predicate Waits(pc: Pc) {
    match pc
    case CloseMark | CloseStart | ClosePoll | CloseClock | CloseSelect | CloseAbortive(_) | CloseRelease => true
    case CloseStore(_) => true
    case _ => false
  }

  datatype Log = Log(
    owner: Option<nat>,      // the thread that owns the release
    signaller: Option<nat>,  // the abort that is about to close the abort channel
    starter: Option<nat>,    // the shutdown that is about to start the graceful shutdown
    releases: nat,           // calls of release and abortive
    startsByClose: nat,
    startsByShutdown: nat,
    panicked: bool,          // a channel was closed twice
    why: Why)

  /** What the calls did and found, for the statements on their results. */
  datatype Why = Why(
    claimed: Option<nat>,    // the thread that ever owned the release
    waited: set<nat>,        // the aborts that waited for done
    shutBy: Option<nat>,     // the shutdown that claimed the graceful shutdown
    graceful: bool,          // the one call was release, not abortive
    gone: bool,              // a poll said that the association has ended
    expired: bool,           // the grace ran out
    pollFailed: bool,
    opFailed: bool,          // release or abortive failed
    startFailed: bool)       // the shutdown's startShutdown failed

  const NOTHING := Why(None, {}, None, false, false, false, false, false, false)

  /** What the threads share: the lifecycle's fields, and the log. */
  datatype Shared = Shared(life: Life, abortClosed: bool, doneClosed: bool, shut: bool, log: Log)

  datatype State = State(g: Shared, threads: map<nat, Pc>)

  /** What the environment decides in a step: the answer of a query or the outcome of an operation. */
  datatype Choice = Yes | No | Broken

  datatype Step = Spawn(tid: nat, call: Call) | Run(tid: nat, c: Choice)

  const FRESH := Shared(Open, false, false, false, Log(None, None, None, 0, 0, 0, false, NOTHING))

  predicate Init(s: State) {
    s == State(FRESH, map[])
  }

  predicate CanStep(g: Shared, pc: Pc, c: Choice) {
    && !pc.Returned? && !pc.ShutReturned?
    && (pc == AbortWait ==> g.doneClosed)
    && (pc == CloseSelect && c == Yes ==> g.abortClosed)
  }

  predicate Enabled(s: State, e: Step) {
    match e
    case Spawn(tid, _) => tid !in s.threads
    case Run(tid, c) => tid in s.threads && CanStep(s.g, s.threads[tid], c)
  }

  function Entry(call: Call): Pc {
    match call
    case CloseCall => CloseClaim
    case AbortCall => AbortLoad
    case ShutdownCall => ShutLoad
  }

  function OpResult(c: Choice): Result {
    if c == Broken then OpError else Nil
  }

  /** The call of release or abortive, which fails when c is Broken. */
  function Released(g: Shared, graceful: bool, c: Choice): Shared {
    g.(log := g.log.(releases := g.log.releases + 1,
                     why := g.log.why.(graceful := graceful, opFailed := c == Broken)))
  }

  function Claimed(g: Shared, life: Life, tid: nat): Shared {
    g.(life := life, log := g.log.(owner := Some(tid), why := g.log.why.(claimed := Some(tid))))
  }

  function Noted(g: Shared, why: Why): Shared {
    g.(log := g.log.(why := why))
  }

  function DoneClosed(g: Shared): Shared {
    g.(doneClosed := true, log := g.log.(owner := None, panicked := g.log.panicked || g.doneClosed))
  }

  /** close: the graceful path. */
  function CloseNext(g: Shared, tid: nat, pc: Pc, c: Choice): (Shared, Pc) {
    match pc
    case CloseClaim =>
      if g.life == Open then (Claimed(g, Closing, tid), CloseMark)
      else (g, Returned(ErrClosed))
    case CloseMark => (g.(shut := true), CloseStart)
    case CloseStart => (g.(log := g.log.(startsByClose := g.log.startsByClose + 1)), ClosePoll)
    case ClosePoll =>
      (Noted(g, g.log.why.(gone := c == Yes, pollFailed := c == Broken)),
       if c == Broken then CloseAbortive(true) else if c == Yes then CloseRelease else CloseClock)
    case CloseClock =>
      (Noted(g, g.log.why.(expired := c == Yes)), if c == Yes then CloseAbortive(false) else CloseSelect)
    case CloseSelect => (g, if c == Yes then CloseAbortive(false) else ClosePoll)
    case CloseAbortive(failed) => (Released(g, false, c), CloseStore(if failed then OpError else OpResult(c)))
    case CloseRelease => (Released(g, true, c), CloseStore(OpResult(c)))
    case CloseStore(r) => (g.(life := Closed), CloseDone(r))
    case CloseDone(r) => (DoneClosed(g), Returned(r))
    case _ => (g, pc)
  }

  /** abortNow, also for a close without grace. */
  function AbortNext(g: Shared, tid: nat, pc: Pc, c: Choice): (Shared, Pc) {
    match pc
    case AbortLoad =>
      (g, match g.life
          case Open => AbortClaimOpen
          case Closing => AbortClaimClosing
          case Aborting => AbortWait
          case Closed => Returned(ErrClosed))
    case AbortClaimOpen =>
      if g.life == Open then (Claimed(g, Closed, tid), AbortAbortive)
      else (g, AbortLoad)
    case AbortClaimClosing =>
      if g.life == Closing then (g.(life := Aborting, log := g.log.(signaller := Some(tid))), AbortSignal)
      else (g, AbortLoad)
    case AbortSignal =>
      (g.(abortClosed := true, log := g.log.(signaller := None, panicked := g.log.panicked || g.abortClosed)),
       AbortWait)
    case AbortWait => (Noted(g, g.log.why.(waited := g.log.why.waited + {tid})), Returned(Nil))
    case AbortAbortive => (Released(g, false, c), AbortDone(OpResult(c)))
    case AbortDone(r) => (DoneClosed(g), Returned(r))
    case _ => (g, pc)
  }

  function ShutNext(g: Shared, tid: nat, pc: Pc, c: Choice): (Shared, Pc) {
    match pc
    case ShutLoad => (g, if g.life == Open then ShutClaim else ShutReturned(ErrClosed))
    case ShutClaim =>
      if g.shut then (g, ShutReturned(Nil))
      else (g.(shut := true, log := g.log.(starter := Some(tid), why := g.log.why.(shutBy := Some(tid)))), ShutStart)
    case ShutStart =>
      (g.(log := g.log.(starter := None, startsByShutdown := g.log.startsByShutdown + 1,
                        why := g.log.why.(startFailed := c == Broken))), ShutReturned(OpResult(c)))
    case _ => (g, pc)
  }

  predicate InClose(pc: Pc) {
    pc == CloseClaim || Waits(pc) || pc.CloseDone?
  }

  predicate InShutdown(pc: Pc) {
    pc == ShutLoad || pc == ShutClaim || pc == ShutStart
  }

  function ThreadNext(g: Shared, tid: nat, pc: Pc, c: Choice): (Shared, Pc) {
    if InClose(pc) then CloseNext(g, tid, pc, c)
    else if InShutdown(pc) then ShutNext(g, tid, pc, c)
    else AbortNext(g, tid, pc, c)
  }

  function Next(s: State, e: Step): State
    requires Enabled(s, e)
  {
    match e
    case Spawn(tid, call) => s.(threads := s.threads[tid := Entry(call)])
    case Run(tid, c) =>
      var (g, pc) := ThreadNext(s.g, tid, s.threads[tid], c);
      State(g, s.threads[tid := pc])
  }

  predicate Runs(s: State, run: seq<Step>)
    decreases |run|
  {
    run == [] || (Enabled(s, run[0]) && Runs(Next(s, run[0]), run[1..]))
  }

  function After(s: State, run: seq<Step>): State
    requires Runs(s, run)
    decreases |run|
  {
    if run == [] then s else After(Next(s, run[0]), run[1..])
  }

  /** Reached by some schedule of any number of calls. */
  ghost predicate Reachable(s: State) {
    exists s0: State, run: seq<Step> :: Init(s0) && Runs(s0, run) && After(s0, run) == s
  }

  // ----- The invariant -----

  predicate SharedOk(g: Shared) {
    && !g.log.panicked
    && (g.life == Open ==> g.log.owner == None && g.log.releases == 0 && g.log.startsByClose == 0)
    && (g.life == Open || g.life == Closing ==> g.log.signaller == None && !g.abortClosed)
    && (g.life == Closing || g.life == Aborting ==> g.log.owner.Some?)
    && (g.life == Closed && g.log.owner == None ==> g.doneClosed)
    && (g.doneClosed ==> g.life == Closed && g.log.owner == None && g.log.releases == 1)
    && (g.log.signaller.Some? ==> !g.abortClosed)
    && (g.log.starter.Some? ==> g.shut && g.log.startsByShutdown == 0)
    && (g.log.startsByShutdown > 0 ==> g.shut)
    && g.log.startsByShutdown <= 1 && g.log.startsByClose <= 1 && g.log.releases <= 1
  }

  /** What a thread's place says about what is shared. */
  predicate ThreadOk(g: Shared, tid: nat, pc: Pc) {
    && (Owns(pc) <==> g.log.owner == Some(tid))
    && (pc == AbortSignal <==> g.log.signaller == Some(tid))
    && (pc == ShutStart <==> g.log.starter == Some(tid))
    && (Waits(pc) ==> g.life == Closing || g.life == Aborting)
    && (Owns(pc) && !Waits(pc) ==> g.life == Closed)
    && (Owns(pc) ==> g.log.releases == if BeforeRelease(pc) then 0 else 1)
    && (pc == CloseMark || pc == CloseStart ==> g.log.startsByClose == 0)
    && (pc == AbortWait || pc == AbortSignal ==> g.life == Aborting || g.life == Closed)
    && (pc == Returned(Nil) ==> g.log.releases == 1)
  }

  predicate Present(o: Option<nat>, s: State) {
    o.Some? ==> o.value in s.threads
  }

  ghost predicate Inv(s: State) {
    && SharedOk(s.g)
    && Present(s.g.log.owner, s) && Present(s.g.log.signaller, s) && Present(s.g.log.starter, s)
    && (forall tid :: tid in s.threads ==> ThreadOk(s.g, tid, s.threads[tid]))
  }

  /** A step keeps what is shared, and its own thread's place, in order. */
  lemma CloseOwnPart(g: Shared, tid: nat, pc: Pc, c: Choice)
    requires SharedOk(g) && ThreadOk(g, tid, pc) && CanStep(g, pc, c) && InClose(pc)
    ensures var (g', pc') := CloseNext(g, tid, pc, c); SharedOk(g') && ThreadOk(g', tid, pc')
  {
    if Starting(pc) { StartingPart(g, tid, pc, c); } else { WaitingPart(g, tid, pc, c); }
  }

  lemma StartingPart(g: Shared, tid: nat, pc: Pc, c: Choice)
    requires SharedOk(g) && ThreadOk(g, tid, pc) && CanStep(g, pc, c) && Starting(pc)
    ensures var (g', pc') := CloseNext(g, tid, pc, c); SharedOk(g') && ThreadOk(g', tid, pc')
  {
  }

  lemma WaitingPart(g: Shared, tid: nat, pc: Pc, c: Choice)
    requires SharedOk(g) && ThreadOk(g, tid, pc) && CanStep(g, pc, c) && InClose(pc) && !Starting(pc)
    ensures var (g', pc') := CloseNext(g, tid, pc, c); SharedOk(g') && ThreadOk(g', tid, pc')
  {
  }

  lemma AbortOwnPart(g: Shared, tid: nat, pc: Pc, c: Choice)
    requires SharedOk(g) && ThreadOk(g, tid, pc) && CanStep(g, pc, c) && !InClose(pc) && !InShutdown(pc)
    ensures var (g', pc') := AbortNext(g, tid, pc, c); SharedOk(g') && ThreadOk(g', tid, pc')
  {
  }

  lemma ShutOwnPart(g: Shared, tid: nat, pc: Pc, c: Choice)
    requires SharedOk(g) && ThreadOk(g, tid, pc) && CanStep(g, pc, c) && InShutdown(pc)
    ensures var (g', pc') := ShutNext(g, tid, pc, c); SharedOk(g') && ThreadOk(g', tid, pc')
  {
  }

  /** A step leaves every other thread's place in order. */
  lemma CloseOtherPart(g: Shared, tid: nat, pc: Pc, c: Choice, other: nat, opc: Pc)
    requires SharedOk(g) && ThreadOk(g, tid, pc) && CanStep(g, pc, c) && InClose(pc)
    requires other != tid && ThreadOk(g, other, opc)
    ensures ThreadOk(CloseNext(g, tid, pc, c).0, other, opc)
  {
  }

  lemma AbortOtherPart(g: Shared, tid: nat, pc: Pc, c: Choice, other: nat, opc: Pc)
    requires SharedOk(g) && ThreadOk(g, tid, pc) && CanStep(g, pc, c) && !InClose(pc) && !InShutdown(pc)
    requires other != tid && ThreadOk(g, other, opc)
    ensures ThreadOk(AbortNext(g, tid, pc, c).0, other, opc)
  {
  }

  lemma ShutOtherPart(g: Shared, tid: nat, pc: Pc, c: Choice, other: nat, opc: Pc)
    requires SharedOk(g) && ThreadOk(g, tid, pc) && CanStep(g, pc, c) && InShutdown(pc)
    requires other != tid && ThreadOk(g, other, opc)
    ensures ThreadOk(ShutNext(g, tid, pc, c).0, other, opc)
  {
  }

  predicate SameOrTaken(o: Option<nat>, o': Option<nat>, tid: nat) {
    o' == o || o' == Some(tid) || o' == None
  }

  lemma OwnPart(g: Shared, tid: nat, pc: Pc, c: Choice)
    requires SharedOk(g) && ThreadOk(g, tid, pc) && CanStep(g, pc, c)
    ensures var (g', pc') := ThreadNext(g, tid, pc, c);
      && SharedOk(g') && ThreadOk(g', tid, pc')
      && SameOrTaken(g.log.owner, g'.log.owner, tid)
      && SameOrTaken(g.log.signaller, g'.log.signaller, tid)
      && SameOrTaken(g.log.starter, g'.log.starter, tid)
  {
    if InClose(pc) { CloseOwnPart(g, tid, pc, c); }
    else if InShutdown(pc) { ShutOwnPart(g, tid, pc, c); }
    else { AbortOwnPart(g, tid, pc, c); }
  }

  lemma StepKeepsInv(s: State, e: Step)
    requires Inv(s) && Enabled(s, e)
    ensures Inv(Next(s, e))
  {
    match e
    case Spawn(tid, call) =>
      assert ThreadOk(s.g, tid, Entry(call));
    case Run(tid, c) =>
      OwnPart(s.g, tid, s.threads[tid], c);
      forall other | other in s.threads && other != tid
        ensures ThreadOk(Next(s, e).g, other, s.threads[other])
      {
        OtherPart(s.g, tid, s.threads[tid], c, other, s.threads[other]);
      }
  }

  lemma OtherPart(g: Shared, tid: nat, pc: Pc, c: Choice, other: nat, opc: Pc)
    requires SharedOk(g) && ThreadOk(g, tid, pc) && CanStep(g, pc, c)
    requires other != tid && ThreadOk(g, other, opc)
    ensures ThreadOk(ThreadNext(g, tid, pc, c).0, other, opc)
  {
    if InClose(pc) { CloseOtherPart(g, tid, pc, c, other, opc); }
    else if InShutdown(pc) { ShutOtherPart(g, tid, pc, c, other, opc); }
    else { AbortOtherPart(g, tid, pc, c, other, opc); }
  }

  // ----- A second invariant: what the calls did, and what their results say -----

  /** A close that is past its start, up to its end. */
  predicate Polls(pc: Pc) {
    match pc
    case ClosePoll | CloseClock | CloseSelect | CloseAbortive(_) | CloseRelease | CloseStore(_) | CloseDone(_) => true
    case _ => false
  }

  predicate WentWrong(w: Why) {
    w.pollFailed || w.opFailed
  }

  predicate SharedMeans(g: Shared) {
    var w := g.log.why;
    && (g.log.owner.Some? ==> w.claimed == g.log.owner) && (g.life == Open ==> w == NOTHING.(shutBy := w.shutBy, startFailed := w.startFailed))
    && (g.log.starter.Some? ==> w.shutBy == g.log.starter)
    && (g.log.startsByShutdown > 0 ==> w.shutBy.Some?) && (w.shutBy.Some? ==> g.shut)
    && (w.shutBy.Some? && g.log.starter == None ==> g.log.startsByShutdown == 1)
    && (g.life == Open && g.shut ==> w.shutBy.Some?)
    && (g.log.releases == 0 ==> !w.opFailed && !w.graceful)
    && (g.life == Aborting ==> g.log.signaller.Some? || g.abortClosed)
    && (g.log.releases > 0 ==> w.graceful == w.gone)
    && (w.gone || w.pollFailed || w.expired ==> g.log.startsByClose == 1)
    && (g.log.releases > 0 && g.log.startsByClose == 1 && !w.graceful ==> w.pollFailed || w.expired || g.abortClosed)
  }

  predicate ThreadMeans(g: Shared, tid: nat, pc: Pc) {
    var w := g.log.why;
    && (Polls(pc) ==> g.log.startsByClose == 1 && g.shut) && (pc == CloseStart ==> g.shut)
    && (Owns(pc) && BeforeRelease(pc) ==> w.gone == pc.CloseRelease? && w.pollFailed == (pc == CloseAbortive(true)))
    && (pc.CloseAbortive? ==> pc.failed || w.expired || g.abortClosed)
    && (pc == ClosePoll || pc == CloseClock || pc == CloseSelect ==> !w.expired)
    && (pc == AbortAbortive || pc.AbortDone? ==> !w.pollFailed && g.log.startsByClose == 0)
    && (pc.CloseStore? || pc.CloseDone? || pc.AbortDone? ==> pc.r == if WentWrong(w) then OpError else Nil)
    && (pc.Returned? ==> pc.r == if w.claimed == Some(tid) then (if WentWrong(w) then OpError else Nil)
                                 else if tid in w.waited then Nil else ErrClosed)
    && (pc.Returned? ==> g.life != Open)
    && (w.claimed == Some(tid) ==> Owns(pc) || pc.Returned?)
    && (tid in w.waited ==> pc.Returned?)
    && (w.shutBy == Some(tid) ==> pc == ShutStart || pc == ShutReturned(if w.startFailed then OpError else Nil))
    && (pc.ShutReturned? && w.shutBy != Some(tid) ==> (pc.r == Nil && g.shut) || (pc.r == ErrClosed && g.life != Open))
  }

  ghost predicate Meaning(s: State) {
    && SharedMeans(s.g)
    && (forall tid :: tid in s.threads ==> ThreadMeans(s.g, tid, s.threads[tid]))
    && (forall tid :: tid in s.g.log.why.waited ==> tid in s.threads)
    && Present(s.g.log.why.claimed, s) && Present(s.g.log.why.shutBy, s)
  }

  /** Up to the first poll, in the wait, and after it. */
  predicate Starting(pc: Pc) {
    pc == CloseClaim || pc == CloseMark || pc == CloseStart
  }

  predicate InWait(pc: Pc) {
    pc == ClosePoll || pc == CloseClock || pc == CloseSelect
  }

  lemma StartingShared(g: Shared, tid: nat, pc: Pc, c: Choice)
    requires SharedOk(g) && ThreadOk(g, tid, pc) && CanStep(g, pc, c) && Starting(pc)
    requires SharedMeans(g) && ThreadMeans(g, tid, pc)
    ensures SharedMeans(CloseNext(g, tid, pc, c).0)
  {
  }

  lemma StartingOwn(g: Shared, tid: nat, pc: Pc, c: Choice)
    requires SharedOk(g) && ThreadOk(g, tid, pc) && CanStep(g, pc, c) && Starting(pc)
    requires SharedMeans(g) && ThreadMeans(g, tid, pc)
    ensures var (g', pc') := CloseNext(g, tid, pc, c); ThreadMeans(g', tid, pc')
  {
  }

  lemma InWaitShared(g: Shared, tid: nat, pc: Pc, c: Choice)
    requires SharedOk(g) && ThreadOk(g, tid, pc) && CanStep(g, pc, c) && InWait(pc)
    requires SharedMeans(g) && ThreadMeans(g, tid, pc)
    ensures SharedMeans(CloseNext(g, tid, pc, c).0)
  {
  }

  lemma InWaitOwn(g: Shared, tid: nat, pc: Pc, c: Choice)
    requires SharedOk(g) && ThreadOk(g, tid, pc) && CanStep(g, pc, c) && InWait(pc)
    requires SharedMeans(g) && ThreadMeans(g, tid, pc)
    ensures var (g', pc') := CloseNext(g, tid, pc, c); ThreadMeans(g', tid, pc')
  {
  }

  lemma EndingShared(g: Shared, tid: nat, pc: Pc, c: Choice)
    requires SharedOk(g) && ThreadOk(g, tid, pc) && CanStep(g, pc, c) && InClose(pc) && !Starting(pc) && !InWait(pc)
    requires SharedMeans(g) && ThreadMeans(g, tid, pc)
    ensures SharedMeans(CloseNext(g, tid, pc, c).0)
  {
  }

  lemma EndingOwn(g: Shared, tid: nat, pc: Pc, c: Choice)
    requires SharedOk(g) && ThreadOk(g, tid, pc) && CanStep(g, pc, c) && InClose(pc) && !Starting(pc) && !InWait(pc)
    requires SharedMeans(g) && ThreadMeans(g, tid, pc)
    ensures var (g', pc') := CloseNext(g, tid, pc, c); ThreadMeans(g', tid, pc')
  {
  }

  lemma CloseMeans(g: Shared, tid: nat, pc: Pc, c: Choice)
    requires SharedOk(g) && ThreadOk(g, tid, pc) && CanStep(g, pc, c) && InClose(pc)
    requires SharedMeans(g) && ThreadMeans(g, tid, pc)
    ensures var (g', pc') := CloseNext(g, tid, pc, c); SharedMeans(g') && ThreadMeans(g', tid, pc')
  {
    if Starting(pc) {
      StartingShared(g, tid, pc, c);
      StartingOwn(g, tid, pc, c);
    } else if InWait(pc) {
      InWaitShared(g, tid, pc, c);
      InWaitOwn(g, tid, pc, c);
    } else {
      EndingShared(g, tid, pc, c);
      EndingOwn(g, tid, pc, c);
    }
  }

  lemma AbortMeansShared(g: Shared, tid: nat, pc: Pc, c: Choice)
    requires SharedOk(g) && ThreadOk(g, tid, pc) && CanStep(g, pc, c) && !InClose(pc) && !InShutdown(pc)
    requires SharedMeans(g) && ThreadMeans(g, tid, pc)
    ensures SharedMeans(AbortNext(g, tid, pc, c).0)
  {
  }

  lemma AbortMeansLooking(g: Shared, tid: nat, pc: Pc, c: Choice)
    requires SharedOk(g) && ThreadOk(g, tid, pc) && CanStep(g, pc, c) && (pc == AbortLoad || pc == AbortClaimOpen || pc == AbortClaimClosing)
    requires SharedMeans(g) && ThreadMeans(g, tid, pc)
    ensures var (g', pc') := AbortNext(g, tid, pc, c); ThreadMeans(g', tid, pc')
  {
  }

  lemma AbortMeansOwn(g: Shared, tid: nat, pc: Pc, c: Choice)
    requires SharedOk(g) && ThreadOk(g, tid, pc) && CanStep(g, pc, c) && !InClose(pc) && !InShutdown(pc) && pc != AbortLoad && pc != AbortClaimOpen && pc != AbortClaimClosing
    requires SharedMeans(g) && ThreadMeans(g, tid, pc)
    ensures var (g', pc') := AbortNext(g, tid, pc, c); ThreadMeans(g', tid, pc')
  {
  }

  lemma ShutMeansShared(g: Shared, tid: nat, pc: Pc, c: Choice)
    requires SharedOk(g) && ThreadOk(g, tid, pc) && CanStep(g, pc, c) && InShutdown(pc)
    requires SharedMeans(g) && ThreadMeans(g, tid, pc)
    ensures SharedMeans(ShutNext(g, tid, pc, c).0)
  {
  }

  lemma ShutMeansOwn(g: Shared, tid: nat, pc: Pc, c: Choice)
    requires SharedOk(g) && ThreadOk(g, tid, pc) && CanStep(g, pc, c) && InShutdown(pc)
    requires SharedMeans(g) && ThreadMeans(g, tid, pc)
    ensures var (g', pc') := ShutNext(g, tid, pc, c); ThreadMeans(g', tid, pc')
  {
  }

  lemma StartLeavesMeaning(g: Shared, tid: nat, pc: Pc, c: Choice, other: nat, opc: Pc)
    requires SharedOk(g) && ThreadOk(g, tid, pc) && CanStep(g, pc, c) && Starting(pc) && SharedMeans(g) && ThreadMeans(g, tid, pc)
    requires other != tid && ThreadOk(g, other, opc) && ThreadMeans(g, other, opc)
    ensures ThreadMeans(CloseNext(g, tid, pc, c).0, other, opc)
  {
  }

  /** A step that says nothing about a thread that is not the owner. */
  predicate Unmoved(g: Shared, g': Shared, other: nat) {
    var w, w' := g.log.why, g'.log.why;
    && w.claimed != Some(other) && w'.claimed == w.claimed && w'.waited == w.waited && w'.shutBy == w.shutBy
    && w'.startFailed == w.startFailed && (g.life != Open ==> g'.life != Open) && (g.shut ==> g'.shut)
  }

  lemma UnmovedMeans(g: Shared, g': Shared, other: nat, opc: Pc)
    requires ThreadMeans(g, other, opc) && Unmoved(g, g', other) && !Owns(opc)
    ensures ThreadMeans(g', other, opc)
  {
  }

  lemma CloseUnmoved(g: Shared, tid: nat, pc: Pc, c: Choice, other: nat)
    requires g.log.why.claimed == Some(tid) && other != tid && InClose(pc) && !Starting(pc)
    ensures Unmoved(g, CloseNext(g, tid, pc, c).0, other)
  {
  }

  lemma CloseLeavesMeaning(g: Shared, tid: nat, pc: Pc, c: Choice, other: nat, opc: Pc)
    requires SharedOk(g) && ThreadOk(g, tid, pc) && InClose(pc) && !Starting(pc) && SharedMeans(g)
    requires other != tid && ThreadOk(g, other, opc) && ThreadMeans(g, other, opc)
    ensures ThreadMeans(CloseNext(g, tid, pc, c).0, other, opc)
  {
    CloseUnmoved(g, tid, pc, c, other);
    UnmovedMeans(g, CloseNext(g, tid, pc, c).0, other, opc);
  }

  lemma AbortLeavesMeaning(g: Shared, tid: nat, pc: Pc, c: Choice, other: nat, opc: Pc)
    requires SharedOk(g) && ThreadOk(g, tid, pc) && CanStep(g, pc, c) && !InClose(pc) && !InShutdown(pc)
    requires SharedMeans(g) && ThreadMeans(g, tid, pc)
    requires other != tid && ThreadOk(g, other, opc) && ThreadMeans(g, other, opc)
    ensures ThreadMeans(AbortNext(g, tid, pc, c).0, other, opc)
  {
  }

  lemma ShutLeavesMeaning(g: Shared, tid: nat, pc: Pc, c: Choice, other: nat, opc: Pc)
    requires SharedOk(g) && ThreadOk(g, tid, pc) && CanStep(g, pc, c) && InShutdown(pc) && SharedMeans(g) && ThreadMeans(g, tid, pc)
    requires other != tid && ThreadOk(g, other, opc) && ThreadMeans(g, other, opc)
    ensures ThreadMeans(ShutNext(g, tid, pc, c).0, other, opc)
  {
  }

  /** Who claimed, waited or started is the stepping thread, or was noted before. */
  predicate NotedBy(w: Why, w': Why, tid: nat) {
    w'.waited <= w.waited + {tid} && SameOrTaken(w.claimed, w'.claimed, tid) && SameOrTaken(w.shutBy, w'.shutBy, tid)
  }

  lemma CloseNoted(g: Shared, tid: nat, pc: Pc, c: Choice)
    ensures NotedBy(g.log.why, CloseNext(g, tid, pc, c).0.log.why, tid)
  {
  }

  lemma AbortNoted(g: Shared, tid: nat, pc: Pc, c: Choice)
    ensures NotedBy(g.log.why, AbortNext(g, tid, pc, c).0.log.why, tid)
  {
  }

  lemma ShutNoted(g: Shared, tid: nat, pc: Pc, c: Choice)
    ensures NotedBy(g.log.why, ShutNext(g, tid, pc, c).0.log.why, tid)
  {
  }

  lemma OwnMeaning(g: Shared, tid: nat, pc: Pc, c: Choice)
    requires SharedOk(g) && ThreadOk(g, tid, pc) && CanStep(g, pc, c) && SharedMeans(g) && ThreadMeans(g, tid, pc)
    ensures var (g', pc') := ThreadNext(g, tid, pc, c);
      SharedMeans(g') && ThreadMeans(g', tid, pc') && NotedBy(g.log.why, g'.log.why, tid)
  {
    if InClose(pc) {
      CloseMeans(g, tid, pc, c);
      CloseNoted(g, tid, pc, c);
    } else if InShutdown(pc) {
      ShutMeansShared(g, tid, pc, c);
      ShutMeansOwn(g, tid, pc, c);
      ShutNoted(g, tid, pc, c);
    } else {
      AbortMeansShared(g, tid, pc, c);
      if pc == AbortLoad || pc == AbortClaimOpen || pc == AbortClaimClosing { AbortMeansLooking(g, tid, pc, c); }
      else { AbortMeansOwn(g, tid, pc, c); }
      AbortNoted(g, tid, pc, c);
    }
  }

  lemma StepKeepsMeaning(s: State, e: Step)
    requires Inv(s) && Meaning(s) && Enabled(s, e)
    ensures Meaning(Next(s, e))
  {
    match e
    case Spawn(tid, call) => SpawnMeans(s.g, tid, call, s);
    case Run(tid, c) => RunMeans(s, tid, c);
  }

  lemma RunMeans(s: State, tid: nat, c: Choice)
    requires Inv(s) && Meaning(s) && Enabled(s, Run(tid, c))
    ensures Meaning(Next(s, Run(tid, c)))
  {
    var g, pc := s.g, s.threads[tid];
    OwnMeaning(g, tid, pc, c);
    forall other | other in s.threads && other != tid
      ensures ThreadMeans(ThreadNext(g, tid, pc, c).0, other, s.threads[other])
    {
      OtherMeaning(g, tid, pc, c, other, s.threads[other]);
    }
    AllMean(s, tid, ThreadNext(g, tid, pc, c).0, ThreadNext(g, tid, pc, c).1);
  }

  lemma AllMean(s: State, tid: nat, g: Shared, pc: Pc)
    requires Meaning(s) && tid in s.threads && SharedMeans(g) && ThreadMeans(g, tid, pc)
    requires NotedBy(s.g.log.why, g.log.why, tid)
    requires forall other :: other in s.threads && other != tid ==> ThreadMeans(g, other, s.threads[other])
    ensures Meaning(State(g, s.threads[tid := pc]))
  {
  }

  lemma SpawnMeans(g: Shared, tid: nat, call: Call, s: State)
    requires Meaning(s) && s.g == g && tid !in s.threads
    ensures ThreadMeans(g, tid, Entry(call))
  {
  }

  lemma OtherMeaning(g: Shared, tid: nat, pc: Pc, c: Choice, other: nat, opc: Pc)
    requires SharedOk(g) && ThreadOk(g, tid, pc) && CanStep(g, pc, c) && SharedMeans(g) && ThreadMeans(g, tid, pc)
    requires other != tid && ThreadOk(g, other, opc) && ThreadMeans(g, other, opc)
    ensures ThreadMeans(ThreadNext(g, tid, pc, c).0, other, opc)
  {
    if Starting(pc) { StartLeavesMeaning(g, tid, pc, c, other, opc); }
    else if InClose(pc) { CloseLeavesMeaning(g, tid, pc, c, other, opc); }
    else if InShutdown(pc) { ShutLeavesMeaning(g, tid, pc, c, other, opc); }
    else { AbortLeavesMeaning(g, tid, pc, c, other, opc); }
  }

  lemma {:induction false} RunKeepsInv(s: State, run: seq<Step>)
    requires Inv(s) && Meaning(s) && Runs(s, run)
    ensures Inv(After(s, run)) && Meaning(After(s, run))
    decreases |run|
  {
    if run != [] {
      StepKeepsInv(s, run[0]);
      StepKeepsMeaning(s, run[0]);
      RunKeepsInv(Next(s, run[0]), run[1..]);
    }
  }

  lemma ReachableInv(s: State)
    requires Reachable(s)
    ensures Inv(s) && Meaning(s)
  {
    var s0: State, run: seq<Step> :| Init(s0) && Runs(s0, run) && After(s0, run) == s;
    RunKeepsInv(s0, run);
  }

  // ----- Safety -----

  /** The lifecycle, its channels and the shutdown claim only move forward. */
  lemma ForwardOnly(s: State, e: Step)
    requires Reachable(s) && Enabled(s, e)
    ensures Rank(Next(s, e).g.life) >= Rank(s.g.life)
    ensures s.g.doneClosed ==> Next(s, e).g.doneClosed
    ensures s.g.abortClosed ==> Next(s, e).g.abortClosed
    ensures s.g.shut ==> Next(s, e).g.shut
  {
    if e.Run? {
      var pc := s.threads[e.tid];
      if InClose(pc) {
        CloseForward(s.g, e.tid, pc, e.c);
      } else if InShutdown(pc) {
        ShutForward(s.g, e.tid, pc, e.c);
      } else {
        AbortForward(s.g, e.tid, pc, e.c);
      }
    }
  }

  predicate Forward(g: Shared, g': Shared) {
    && Rank(g'.life) >= Rank(g.life)
    && (g.doneClosed ==> g'.doneClosed) && (g.abortClosed ==> g'.abortClosed) && (g.shut ==> g'.shut)
  }

  lemma CloseForward(g: Shared, tid: nat, pc: Pc, c: Choice)
    ensures Forward(g, CloseNext(g, tid, pc, c).0)
  {
  }

  lemma AbortForward(g: Shared, tid: nat, pc: Pc, c: Choice)
    ensures Forward(g, AbortNext(g, tid, pc, c).0)
  {
  }

  lemma ShutForward(g: Shared, tid: nat, pc: Pc, c: Choice)
    ensures Forward(g, ShutNext(g, tid, pc, c).0)
  {
  }

  /**
    Of release and abortive, one call is made, never two; each channel is closed at most once; done
    is closed only after that call and after the lifecycle became closed; and the graceful shutdown
    is started at most twice, once by a shutdown and once by a close.
  */
  lemma ReleasedOnce(s: State)
    requires Reachable(s)
    ensures s.g.log.releases <= 1
    ensures !s.g.log.panicked
    ensures s.g.doneClosed ==> s.g.life == Closed && s.g.log.releases == 1
    ensures s.g.log.startsByShutdown <= 1 && s.g.log.startsByClose <= 1
  {
    ReachableInv(s);
  }

  /** A nil from close or abortNow follows the release. */
  lemma NilMeansReleased(s: State, tid: nat)
    requires Reachable(s) && tid in s.threads && s.threads[tid] == Returned(Nil)
    ensures s.g.log.releases == 1
  {
    ReachableInv(s);
  }

  /**
    A close that polls, or has gone further, has started the graceful shutdown, once. The descriptor
    is then given up with release exactly when a poll said that the association has ended, and with
    abortive only after a failed poll, the end of the grace or an abort. A claimed shutdown that is
    no longer about to be started was started.
  */
  lemma GracefulFirst(s: State)
    requires Reachable(s)
    ensures forall tid :: tid in s.threads && Polls(s.threads[tid]) ==> s.g.log.startsByClose == 1 && s.g.shut
    ensures s.g.log.releases == 1 ==> (s.g.log.why.graceful <==> s.g.log.why.gone)
    ensures s.g.log.why.graceful ==> s.g.log.startsByClose == 1
    ensures s.g.log.releases == 1 && s.g.log.startsByClose == 1 && !s.g.log.why.graceful ==>
      s.g.log.why.pollFailed || s.g.log.why.expired || s.g.abortClosed
    ensures s.g.life == Open && s.g.shut && s.g.log.starter == None ==> s.g.log.startsByShutdown == 1
  {
    ReachableInv(s);
  }

  /**
    What every call returns. The one that owned the release returns an error exactly when a poll,
    release or abortive failed, and nil otherwise; an abort that waited for it returns nil; every
    other close and abort returns ErrClosed, on a lifecycle that is no longer open.
  */
  lemma ResultsMean(s: State, tid: nat)
    requires Reachable(s) && tid in s.threads
    ensures s.threads[tid].Returned? ==>
      && s.g.life != Open
      && s.threads[tid].r == if s.g.log.why.claimed == Some(tid) then (if WentWrong(s.g.log.why) then OpError else Nil)
                             else if tid in s.g.log.why.waited then Nil else ErrClosed
    ensures s.threads[tid].ShutReturned? ==>
      if s.g.log.why.shutBy == Some(tid) then s.threads[tid].r == if s.g.log.why.startFailed then OpError else Nil
      else (s.threads[tid].r == Nil && s.g.shut) || (s.threads[tid].r == ErrClosed && s.g.life != Open)
  {
    ReachableInv(s);
  }

  // ----- Progress -----

  /**
    A thread that waits for done waits for a live owner, and that owner can always take a step. Once
    no abort is about to signal it, an owner in its wait has been told: the select's abort is ready.
  */
  lemma WaiterHasOwner(s: State, tid: nat)
    requires Reachable(s) && tid in s.threads && s.threads[tid] == AbortWait && !s.g.doneClosed
    ensures s.g.log.owner.Some? && s.g.log.owner.value in s.threads
    ensures Owns(s.threads[s.g.log.owner.value])
    ensures Enabled(s, Run(s.g.log.owner.value, No))
    ensures s.g.log.signaller == None && s.threads[s.g.log.owner.value] == CloseSelect ==> Enabled(s, Run(s.g.log.owner.value, Yes))
  {
    ReachableInv(s);
  }

  /** No deadlock: while any call is unfinished, some call can take a step. */
  lemma NoDeadlock(s: State, tid: nat)
    requires Reachable(s) && tid in s.threads
    requires !s.threads[tid].Returned? && !s.threads[tid].ShutReturned?
    ensures exists other, c :: Enabled(s, Run(other, c))
  {
    if s.threads[tid] == AbortWait && !s.g.doneClosed {
      WaiterHasOwner(s, tid);
    } else {
      assert Enabled(s, Run(tid, No));
    }
  }

  /** When every call has returned and one of them closed or aborted, the descriptor was released, once. */
  lemma AllReturned(s: State)
    requires Reachable(s) && s.g.life != Open
    requires forall tid :: tid in s.threads ==> s.threads[tid].Returned? || s.threads[tid].ShutReturned?
    ensures s.g.life == Closed && s.g.doneClosed && s.g.log.releases == 1
  {
    ReachableInv(s);
    assert s.g.log.owner == None;
  }

  // ----- The graceful wait -----

  const POLL_MIN: nat := 200_000    // nanoseconds
  const POLL_MAX: nat := 20_000_000

  function Min(a: int, b: int): int {
    if a < b then a else b
  }

  /** The backoff after poll i. */
  function Backoff(i: nat): (d: nat)
    ensures POLL_MIN <= d <= POLL_MAX
  {
    if i == 0 then POLL_MIN else Min(2 * Backoff(i - 1), POLL_MAX)
  }

  /** What the first n backoffs add up to. */
  function Waited(n: nat): nat {
    if n == 0 then 0 else Waited(n - 1) + Backoff(n - 1)
  }

  lemma {:induction false} WaitedAtLeast(n: nat)
    ensures n >= 7 ==> Backoff(n) == POLL_MAX
    ensures n >= 7 ==> Waited(n) == 25_400_000 + 20_000_000 * (n - 7)
  {
    if n == 7 {
      assert Backoff(1) == 400_000 && Waited(1) == 200_000;
      assert Backoff(2) == 800_000 && Waited(2) == 600_000;
      assert Backoff(3) == 1_600_000 && Waited(3) == 1_400_000;
      assert Backoff(4) == 3_200_000 && Waited(4) == 3_000_000;
      assert Backoff(5) == 6_400_000 && Waited(5) == 6_200_000;
      assert Backoff(6) == 12_800_000 && Waited(6) == 12_600_000;
    } else if n > 7 {
      WaitedAtLeast(n - 1);
    }
  }

  /** A grace longer than the first n backoffs buys n polls and two more, which is few. */
  lemma FewPolls(n: nat, grace: nat)
    requires Waited(n) < grace
    ensures n + 2 <= 8 + grace / POLL_MAX
  {
    WaitedAtLeast(n);
  }

  datatype Poll = Gone | Alive | Failed

  datatype How = Release | AbortFailed | AbortExpired | AbortAsked

  /** The wait asked for after poll i, when the clock read `reading(i)`. */
  function Asked(i: nat, start: int, grace: nat, reading: nat -> int): int {
    Min(Backoff(i), start + grace - reading(i))
  }

  /**
    The loop of a graceful close. `answer(i)`, `reading(i)` and `asked(i)` are the i-th poll, the
    clock after it, and whether an abort ends the wait after it. Every earlier poll found the
    association alive and the grace unspent, and the whole wait takes few polls.
  */
  method GracefulWait(start: int, grace: nat, answer: nat -> Poll, reading: nat -> int, asked: nat -> bool)
    returns (how: How, polls: nat)
    requires grace > 0 && reading(0) >= start
    requires forall i: nat :: reading(i) < start + grace ==> reading(i + 1) >= reading(i) + Asked(i, start, grace, reading)
    ensures 1 <= polls <= 8 + grace / 20_000_000
    ensures forall i :: 0 <= i < polls - 1 ==> answer(i) == Alive && reading(i) < start + grace && !asked(i)
    ensures how == match answer(polls - 1)
                   case Failed => AbortFailed
                   case Gone => Release
                   case Alive => if reading(polls - 1) >= start + grace then AbortExpired else AbortAsked
    ensures how == AbortAsked ==> asked(polls - 1)
  {
    var step := POLL_MIN;
    var i := 0;
    while true
      invariant step == Backoff(i)
      invariant reading(i) >= start + grace || reading(i) >= start + Waited(i)
      invariant i > 0 ==> Waited(i - 1) < grace
      invariant forall k :: 0 <= k < i ==> answer(k) == Alive && reading(k) < start + grace && !asked(k)
      decreases start + grace - reading(i)
    {
      if i > 0 { FewPolls(i - 1, grace); }
      if answer(i) == Failed { return AbortFailed, i + 1; }
      if answer(i) == Gone { return Release, i + 1; }
      var remaining := start + grace - reading(i);
      if remaining <= 0 { return AbortExpired, i + 1; }
      if asked(i) { return AbortAsked, i + 1; }
      assert Min(step, remaining) == Asked(i, start, grace, reading); // what the timer is asked for
      step := Min(2 * step, POLL_MAX);
      i := i + 1;
    }
  }
}
