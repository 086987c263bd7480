# go-sctp in Dafny

This project models the parts of go-sctp that the package itself owns: the concurrent state
machines around one SCTP socket, the loops that reassemble what the kernel delivers in pieces, and
the codecs between Go values and kernel memory. The kernel, the runtime poller and the clock are
small nondeterministic environments with the rules the package's own comments state: a FIFO
receive queue, an association error handed out once, a wait that ends on readiness or on a passed
deadline, and a clock that advances at least as asked.

`dafny verify dfyconfig.toml` checks everything. One module per file:

| file | what it models |
|---|---|
| `SendDeadline.dfy` | a waiting send, its context, local shutdowns and deadline setters on one write deadline |
| `Latch.dfy` | the association-end latch under every interleaving of reads, sends and EOF sends |
| `Lifecycle.dfy` | close, abort and shutdown by any number of threads, and the backed-off graceful wait |
| `SendDefaults.dfy` | the default send parameters: the cache, the kernel's one word, and what a send means |
| `SendPath.dfy` | the default parameters and the control buffer together: a send from its options to what Linux uses |
| `Accumulator.dfy` | reassembly of notification records |
| `Receive.dfy` | the receive callback, and records served in pieces |
| `PeelOff.dfy` | the exclusion between receive callbacks and PeelOff |
| `BufferPool.dfy`, `ReadMessage.dfy` | ReadMsg, its assembly buffer and the shared buffers |
| `ControlMessages.dfy` | ancillary data: encoding a send's, walking a receive's, routing an Endpoint's |
| `Sockaddr.dfy` | packed socket addresses |
| `Config.dfy` | validation of a Config and its plan of operations |
| `Bytes.dfy`, `Wrappers.dfy` | byte orders, writes in place, Option |

Code that changes fields or buffers is a class or a method proved against a function on values
(`SendState` against the sections on `Book`, `TermState` against the functions on `Term`,
`NotificationAccumulator` against the functions on `Acc`, and so on); the state machines step by
those same functions, so the theorems about every reachable state are about what the methods do.

How to read the main results:

- Concurrency: a `State` is everything the threads share and where each is; `Enabled` and `Next`
  are one atomic step; `Reachable(s)` is any run of any length. Each theorem follows from an
  invariant that every step keeps.
- `ReadMsg`: `TakeMessage` says on the stream of queued items alone what the next message is;
  `MessageTaken` ties it to the pieces of one message, and the method is proved to do exactly that.
- `Config`: `AtFault` and `Wanted` say field by field what is refused and what is asked for, in no
  order; `Prepare` and `PlanRight` show that the one ordered list has exactly that.

Three places where the code does less than one might expect, each stated exactly:

- A shutdown's wake can be lost. When the association is freed between EAGAIN and the SCTP_STATUS
  query, the failed query counts as "not shutting down" (send_linux.go:656-664), so a send whose mark
  the wake did not see parks without a passed deadline. `NoLostWake` gives the exact condition, and
  shows that it needs a freed association; `WakeMissedWhenAssocFreed` gives the run.
- SetDefaultSndInfo that fails when it restores the PR policy leaves the cache and the kernel apart
  (send_linux.go:864-882). `AgreementKept` states on the call's inputs that this case, and no other,
  does; `RestorePartsThem` gives one.
- The kind of the error for a refused notification record can depend on where the record was cut,
  though never whether it is refused. It does not depend on it if and only if the record is within
  the reassembly limit or declares at least that limit (`CutIndependent`); every other record has two
  cuts with different kinds (`KindDependsPastLimit`).

## Model

| member | source | states |
|---|---|---|
| SendDeadline.SendState.Interrupt | send_linux.go:546-560 | the context's callback takes the write deadline over unless a shutdown has, and notes whether a caller's deadline crossed first |
| SendDeadline.SendState.WakeShutdown | send_linux.go:569-577 | a shutdown's wake takes the deadline over only from a parked send that nothing owns |
| SendDeadline.SendState.SetDeadline | send_linux.go:582-604 | a setter records the caller's deadline and whether the replaced one had crossed, and moves the descriptor's write deadline only while nothing owns it |
| SendDeadline.SendState.MarkParked | send_linux.go:497-541 | the parked mark starts the crossing bookkeeping afresh once per send without a context |
| SendDeadline.SendState.Restore | send_linux.go:422-452 | the send's exit gives the caller's deadline back and turns the poller's timeout into the owner's error exactly when no caller deadline came first |
| SendDeadline.RunKeepsInv | send_linux.go:366-459 | the invariant holds after every run of sender, context, wakers, setters, clock and kernel |
| SendDeadline.DeadlineOwnership | send_linux.go:366-459 | never two owners; an owned write deadline is past whatever setters did, an unowned one is the caller's latest; a free send lock leaves no flag, callback or token behind |
| SendDeadline.OwnershipLasts | send_linux.go:546-604 | only the sender's own restore ends an ownership or changes what it recorded |
| SendDeadline.NoLostWake | send_linux.go:497-541 | after a shutdown's wake, a send in the poller has a passed deadline while the association is not gone; it lacks one exactly when its status query failed, no wake or callback took the deadline over and the caller's has not passed |
| SendDeadline.WakeMissedWhenAssocFreed | send_linux.go:656-664 | a run in which that happens |
| SendDeadline.NoLostCancellation | send_linux.go:531-536 | a send that waits with a cancellable context has its callback registered; once the context is done the callback can start, or can move the deadline, or has moved it and the poller's timeout is enabled |
| SendDeadline.CancelledSendLeaves | send_linux.go:546-560 | so from every reachable such wait at most three steps of the callback and the poller end it |
| SendDeadline.FirstCause | send_linux.go:422-441 | a context error or ESHUTDOWN made from a timeout means its cause is real and no caller deadline had crossed at the take-over; a deadline error means a caller deadline did pass |
| SendDeadline.CrossingExact | send_linux.go:546-604 | what an interrupt would compute equals whether a caller deadline crossed since the reset, even one replaced since |
| SendDeadline.SendAtomic | send_linux.go:414-458 | at most one sendmsg accepted per send, success or a short write reported exactly when there was one |
| SendDeadline.OutcomeExact | send_linux.go:414-458 | success exactly when the kernel accepted the whole message, a short write exactly when it accepted another length, its errno exactly when it refused; a full buffer is reported only without waiting, as EAGAIN or, on an association that is shutting down, ESHUTDOWN; at most one retry without the destination |
| SendDeadline.SenderProgress | send_linux.go:366-459 | outside the poller a send always has a step of its own, or of the callback it waits for, that brings it strictly nearer to the poller or to releasing the lock |
| SendDeadline.SendReturns | send_linux.go:366-459 | so from every reachable state at most nine such steps lead there |
| Latch.TermState.StoreLocked | term_linux.go:43-51 | the first association failure fills the latch, later ones do not change it |
| Latch.TermState.SendErrorLocked | term_linux.go:75-89 | what a failed sendmsg reports, and EPIPE after a failure becoming the latched error |
| Latch.TermState.ReadErrorLocked | term_linux.go:125-138 | what a recvmsg that found nothing reports, and the latch after it |
| Latch.TermState.ReadEndLocked | term_linux.go:154-164 | what a read reports without a system call |
| Latch.TermState.EndRecordLocked | recv_linux.go:558-573 | AssocCommLost marks failed and AssocShutdownComplete marks ended |
| Latch.ReadRules | term_linux.go:125-138 | a filled latch is what a read reports and keeps its value; a read waits only while no end was seen |
| Latch.SendRules | term_linux.go:75-89 | an errno that is neither an association failure nor EPIPE is reported as it is and leaves the latch alone; EPIPE stands exactly when the latch is empty and no failure was seen, else it is the latch's error, or ENOTCONN, which is latched |
| Latch.RunKeepsInv | recv_linux.go:437-501 | the invariant holds after every run of the kernel, reads, sends and EOF sends |
| Latch.LatchedOnce | term_linux.go:43-100 | the latch is written at most once, every association failure ever reported is its value, and that is the kernel's errno, or ENOTCONN when something outside took it |
| Latch.LatchSticks | term_linux.go:154-164 | a filled latch never changes, and once a read reported it or the end, every later read does |
| Latch.SendReports | send_linux.go:623-642 | in every run a send on a live association reports its own refusal, and on one that is gone the pending errno, else ENOTCONN after a failure that was seen, else EPIPE |
| Latch.ReadReports | recv_linux.go:437-501 | in every run a read of an empty queue waits exactly when nothing said that the association is over, and otherwise reports the latch, the pending errno, ENOTCONN or the end, in that order |
| Latch.NothingLost | recv_linux.go:437-501 | what reads consumed, followed by the queue, is everything that ever arrived |
| Latch.DeliveredFirst | term_linux.go:125-164 | a read that reports an error or the end has delivered everything that arrived |
| Latch.NoParkAfterEnd | term_linux.go:125-138 | once any call has seen the end, no read parks |
| Latch.ParkedReadWakes | term_linux.go:125-138 | a parked read of an ended association, even if a send took the errno, has a queued record to wake it |
| Latch.RecordNotCut | recv_linux.go:437-501 | while a record is in progress its next piece is at the head of the queue, so no callback ends inside one |
| Lifecycle.RunKeepsInv | close.go:151-270 | the invariant holds after every run of any number of threads |
| Lifecycle.ForwardOnly | close.go:151-270 | the state, both channels and the shutdown claim only move forward |
| Lifecycle.ReleasedOnce | close.go:257-270 | one of release and abortive is called, never two; no channel is closed twice; done closed implies state closed and released; startShutdown runs at most twice |
| Lifecycle.GracefulFirst | close.go:151-206 | a close that polls or has gone further has started the graceful shutdown, once; it releases exactly when a poll said the association has ended, and aborts only after a failed poll, the end of the grace or an abort; a claimed shutdown is started |
| Lifecycle.ResultsMean | close.go:151-270 | the owner of the release returns an error exactly when a poll, release or abortive failed, an abort that waited returns nil, every other close or abort ErrClosed; and likewise for shutdown |
| Lifecycle.NilMeansReleased | close.go:151-239 | a nil from close or abortNow follows the release |
| Lifecycle.WaiterHasOwner | close.go:214-239 | a thread waiting for done has a live owner that can step, and one in its wait has been told to abort |
| Lifecycle.NoDeadlock | close.go:151-239 | while a call is unfinished some call can step |
| Lifecycle.AllReturned | close.go:257-270 | once all calls have returned after a close or abort, the descriptor was released, once |
| Lifecycle.FewPolls | close.go:58-67 | the sleeps of n polls of the doubling backoff add up to so much that the polls within a grace are few |
| Lifecycle.GracefulWait | close.go:181-205 | the graceful wait ends within 8 + grace/20ms polls, by what its last poll, the clock or an abort said |
| SendDefaults.Socket.SetDefaultSndInfo | send_linux.go:714-738 | the new cache and kernel words for every way the calls can end |
| SendDefaults.Socket.SetDefaultPrInfo | send_linux.go:766-788 | the same for the PR default |
| SendDefaults.Socket.Encode | send_linux.go:461-492 | which records a send carries, from its options and the cache |
| SendDefaults.PrRoundTrip | options.go:263-272 | a validated PrInfo comes back from the kernel's form unchanged |
| SendDefaults.NetworkOrder | config.go:358-362 | the pre-swapped PPID written in host order is the PPID in network order |
| SendDefaults.ReadBack | send_linux.go:814-853 | a default read back resolves to what the kernel holds |
| SendDefaults.SetSndIndependent | send_linux.go:864-883 | setting the SndInfo default sets it and leaves the PR default alone, though both share a word |
| SendDefaults.SetPrIndependent | send_linux.go:766-788 | setting the PR default leaves the SndInfo default alone |
| SendDefaults.AgreementKept | send_linux.go:714-788 | a setting keeps cache and kernel in agreement if and only if it is not a valid SndInfo whose restore of a policy other than none failed, and otherwise each default is what the call set or what it was |
| SendDefaults.RestorePartsThem | send_linux.go:864-883 | an agreeing pair and a call that parts it |
| SendDefaults.CacheAgrees | send_linux.go:714-788 | after any history of refused, failed and accepted settings in which no restore fails, the cache equals the kernel's defaults and both are the latest values set |
| SendDefaults.SendsAsMeant | send_linux.go:461-492 | for every Info, PR and AuthKey, what Linux ends up using is Info-or-default with PR-or-default |
| SendDefaults.EffectiveValues | options.go:263-272 | the values themselves: a lifetime, the caller's or the default's, reaches Linux in milliseconds, the other policies' value as it is, and stream, flags, PPID and context are the caller's or the default's |
| SendDefaults.ValidPolicies | options.go:210-246 | a PrInfo is accepted if and only if it is no policy with neither field, a lifetime of whole milliseconds from one up that fits 32 bits, or a value without a lifetime |
| SendDefaults.HistoryThenSend | send_linux.go:461-492 | the two together: after any such history, Linux uses Info and PR, or the latest default that was set for each that is nil |
| SendPath.ParsedBack | msginfo.go:307-372 | the kernel takes from the encoded control buffer exactly the records a send was to carry |
| SendPath.BytesMeanTheLatest | send_linux.go:461-492 | the same through the bytes: what Linux reads from the control buffer makes it send with Info and PR or the latest defaults, for both word sizes and byte orders |
| Accumulator.NotificationAccumulator.AddPiece | notification.go:662-695 | one fragment's effect on the record in progress |
| Accumulator.NotificationAccumulator.KeepRecord | notification.go:717-727 | retention, with the bytes already seen |
| Accumulator.NotificationAccumulator.FinishRecord | notification.go:743-751 | the verdict on the record |
| Accumulator.NotificationAccumulator.Interrupted | notification.go:760-769 | a cut record is always reported short, with a more specific fault when there is one |
| Accumulator.AcceptedIff | notification.go:662-751 | however it is cut, a record is accepted if and only if 8 <= length = declared length <= the limit |
| Accumulator.WithinLimit | notification.go:662-751 | within the limit the verdict and its kind are the record's own, whatever the cuts |
| Accumulator.AlwaysTooLong | notification.go:662-695 | past it, a record that declares the limit or more is too long however it is cut |
| Accumulator.CutIndependent | notification.go:662-751 | the kind of a record's verdict is the same for all of its cuts if and only if it is within the limit or declares at least the limit |
| Accumulator.KindDependsPastLimit | notification.go:662-695 | every other record is too long in one piece and short once its first piece shows that it declares less |
| Accumulator.DependentRecord | notification.go:662-695 | such a record |
| Accumulator.Taken | recv_linux.go:517-532 | a whole record has its own type and verdict; it is kept when the reader keeps notes, an association change or a partial delivery only when subscribed to; and a kept one comes back byte for byte |
| Receive.RecvState.AddPiece | recv_linux.go:517-532 | one piece of a record, with the type decided once the header is complete |
| Receive.RecvState.Attempt | recv_linux.go:437-501 | the callback returns with no record in progress: it found nothing and took the kernel's answer, read the first bytes of a message, or consumed the record at the head whole |
| Receive.RecvState.ServePiece | recv_linux.go:402-413 | one piece of a raw record |
| Receive.ServedWhole | recv_linux.go:402-413 | the pieces join to a prefix of the record, with EOR only on the last and exactly when that is all of it |
| PeelOffExclusion.PeeledRecordsWhole | endpoint_linux.go:960-987 | in every interleaving a callback with a record in progress finds that record's rest at the head of the queue, so its cut exit is never taken; no callback leaves a record half-read, and PeelOff moves only whole ones |
| PeelOffExclusion.ExclusionNeeded | recv_linux.go:466-490 | moving the association in the middle of its record would make the next recvmsg take the cut exit |
| PeelOffExclusion.NothingLeftBehind | endpoint_linux.go:960-987 | for every association, what arrived was read here in order, and the rest still waits here or, once it was peeled off, went with it: nothing lost, doubled or reordered |
| BufferPool.Pool.Get | recv_linux.go:1006-1017 | a borrowed buffer is whole, idle no longer, and held by no other read |
| BufferPool.Pool.Put | recv_linux.go:1020-1027 | a returned buffer goes to its own class at full length, or is dropped when that is full |
| BufferPool.Pool.Borrow | recv_linux.go:1032-1039 | the smallest class that holds the size, or a buffer of the call's own |
| BufferPool.Pool.IdleBound | recv_linux.go:984-995 | the idle buffers hold at most 424 KiB |
| ReadMessage.Assembly.MakeRoom | recv_linux.go:739-757 | growth keeps the bytes, returns the old buffer once, and stays within max and within the larger of 256 and eight times the bytes received |
| ReadMessage.Assembly.Absorb | recv_linux.go:789-800 | a piece is kept below max, and the message has overrun it exactly when more than max bytes came |
| ReadMessage.Assembly.Finish | recv_linux.go:711-720 | the result is never a pool buffer, and the pool gets its buffer back |
| ReadMessage.GrowthBounded | recv_linux.go:739-757 | the buffer that answers a growth is at most eight times what it replaces |
| ReadMessage.GrowthExact | recv_linux.go:739-757 | a full buffer asks for 2048 bytes, then for twice its length, and never for more than max |
| ReadMessage.MessageTaken | recv_linux.go:705-864 | a message cut anywhere, with records that do not end it in between, is taken as the concatenation of its pieces, leaving what follows |
| ReadMessage.RecordCuts | recv_linux.go:969-982 | after a first piece a partial-delivery record, or an association change that says restart, ends the message there; other records do not |
| ReadMessage.KindsExact | recv_linux.go:558-573 | an association's end is said by an SCTP_ASSOC_CHANGE of at least 20 bytes with state 1 or 3, and by nothing else; likewise what cuts a message |
| ReadMessage.SplitData | recv_linux.go:705-864 | reading part of a queued item does not change which message is next |
| ReadMessage.AllHandedOver | recv_linux.go:874-952 | while they fit the queue, the handler receives every record of its subscriptions, in order |
| ReadMessage.HandedPrefix | recv_linux.go:874-952 | in any case it receives them in order up to some point, all of them if and only if none was reported dropped, and nothing more once the queue is full |
| ReadMessage.RecordKeepsNotes | recv_linux.go:874-952 | each record goes to the handler in its turn, waits, or is dropped, as it is filed |
| ReadMessage.MoveKeepsGoal | recv_linux.go:705-864 | every piece, record, wait and end leads to the same message and the same records |
| ReadMessage.Conn.EndRecord | recv_linux.go:874-952 | a consumed record's effect on the latch, and what becomes of it |
| ReadMessage.FailureEnds | recv_linux.go:705-864 | a failed association ends a read with the errno the kernel set for it, or ENOTCONN when something else took that, and every later read reports the same |
| ReadMessage.KnownEnd | term_linux.go:154-164 | an end the latch reports without a system call is the one a read would find |
| ReadMessage.Conn.ReadMsg | recv_linux.go:641-864 | exactly the first min(length, max) bytes of the next message; too long if and only if length exceeds max; interrupted if and only if it started and did not complete; the stream and the latch left as that message leaves them; the connection aborted exactly when no abort record marks the boundary; every pool buffer returned |
| ControlMessages.AppendSendCmsgs | msginfo.go:307-372 | the buffer then holds the encoding, every gap byte zero whatever it held before, and nothing else changed |
| ControlMessages.EncodingLength | msginfo.go:504-523 | the encoding's length is the sum of its records' spaces, at most sndCmsgSpace |
| ControlMessages.EncodeThenWalk | msginfo.go:407-447 | walking the encoding yields exactly its records in order with exact payloads, for both word sizes and every subset |
| ControlMessages.WalkRules | msginfo.go:407-447 | a walk ends short of a header, is malformed at a header whose length does not fit, and otherwise takes the record with that length and goes on after its alignment |
| ControlMessages.SndSurvives | msginfo.go:307-372 | the SNDINFO fields read back |
| ControlMessages.PrSurvives | msginfo.go:307-372 | the PRINFO fields read back |
| ControlMessages.AuthSurvives | msginfo.go:307-372 | the AUTHINFO key reads back |
| ControlMessages.RcvDecoded | msginfo.go:449-460 | every SCTP_RCVINFO field is decoded from its own place in the kernel's structure, for every value |
| ControlMessages.NxtDecoded | msginfo.go:462-472 | the same for SCTP_NXTINFO |
| ControlMessages.ParseRecvCmsgs | msginfo.go:407-447 | the loop computes the fold over the walked records, and ends on every buffer |
| ControlMessages.ParseExact | msginfo.go:407-447 | a parse returns the message's flags, the decoding of the last whole RCVINFO of a data message and none of a notification, and that of the last whole NXTINFO |
| ControlMessages.CheckRcvInfoRecord | endpoint.go:211-241 | the separate walk gives the verdict on the same records |
| ControlMessages.ParseEndpointRecvCmsgs | endpoint.go:191-203 | the metadata of an Endpoint read, cleared whenever that verdict is bad |
| ControlMessages.RoutedByOneRecord | endpoint.go:191-241 | a non-zero Rcv means exactly one whole RCVINFO record, of which it is the decoding, with an id above 2 |
| Sockaddr.EncodeAddr | sockaddr.go:95-164 | the entry is written in place, or nothing is; each refusal |
| Sockaddr.EncodeAddrs | sockaddr.go:170-185 | the entries back to back, or the first address that has none and why |
| Sockaddr.EntryExists | sockaddr.go:95-164 | which addresses have an entry on which family, as an if and only if |
| Sockaddr.SizesExact | sockaddr.go:325-347 | 16 bytes for family 2, 28 for family 10, and each error |
| Sockaddr.EntryRoundTrip | sockaddr.go:384-407 | an entry has its family's size and reads back as the normal form of its address, with the port |
| Sockaddr.ZoneKept | sockaddr.go:202-220 | a zone survives when the host's tables name it both ways, or when it is an index that names nothing |
| Sockaddr.ZoneRules | sockaddr.go:202-220 | which zones resolve, and to what |
| Sockaddr.CheckEntries | sockaddr.go:455-462 | the first walk finds every entry whole, or the first that is missing |
| Sockaddr.ReadEntries | sockaddr.go:464-477 | the second walk never fails after it, and reads entry i at the sum of the earlier sizes |
| Sockaddr.DecodeAddrs | sockaddr.go:441-477 | all n addresses of an arbitrary mixed-family buffer with the first port, or each error |
| Sockaddr.SlotFound | sockaddr.go:441-477 | entries of any families packed back to back are found again, each at the sum of the earlier sizes |
| Sockaddr.PackedRoundTrip | sockaddr.go:170-185 | for every list, what is packed reads back in normal form (mapped IPv4 plain, the IPv4 wildcard on AF_INET6 as ::) with the port, whatever follows |
| Config.CheckHmacs | config.go:538-565 | HMAC identifiers are accepted exactly when known, distinct and with SHA-1 |
| Config.CheckChunks | config.go:567-638 | chunks are accepted exactly when none is forbidden, they are distinct, and with ASCONF and ASCONF-ACK at most 16 |
| Config.HmacsExact | config.go:538-565 | so the accepted lists are [1], [1, 3] and [3, 1] |
| Config.BasicLimits | config.go:488-531 | buffers from 1 to 2147483647, an INIT timeout of whole milliseconds up to 65535, no interleave level above 1 |
| Config.TimerLimits | config.go:685-724 | RTO values of whole milliseconds that fit 32 bits with min at most max when both are set, a SACK delay of at most 500 ms |
| Config.BuildSubscriptions | config.go:831-844 | one operation for each distinct known type in order of first occurrence, and a bit set of exactly those types |
| Config.Prepare | config.go:457-788 | accepted if and only if no field is at fault, a refusal names one that is; an accepted Config gets the whole plan, the resolved timeout, level and subscriptions |
| Config.PrepareFile | config.go:850-896 | an adopted descriptor accepts no set field and gets the two internal operations |
| Config.FileExact | config.go:850-896 | so it accepts a Config if and only if nothing but the handler and the close timeout is set |
| Config.StyleNeeds | config.go:811-829 | I-DATA needs a level of 1, which unset only an Endpoint has; ReusePort is refused on an Endpoint |
| Config.AuthNeeds | config.go:533-648 | the AUTH lists, and ASCONF switched on, need Authentication=true |
| Config.PlanRight | config.go:246-292 | the plan starts with the two internal operations, is sorted by kind, repeats only AUTH chunks and notifications and those distinct, and has exactly the operations asked for |
| Config.NeedsComeFirst | config.go:533-673 | Authentication=true precedes every operation that needs it, StreamReconfiguration=true a non-zero mask, and the interleave level I-DATA |
| Config.ChunkListFits | config.go:582-639 | the planned chunks with the two Linux adds fit the sixteen of an association |

## Left out

- Raw system calls, the socketcall path, os.File, the runtime poller and context.AfterFunc themselves: each is one assumed step of an environment.
- ReadMessage.Conn.ReadMsg: handler errors, a handler that reads from the same connection, and other readers between two calls are not modelled; neither are records that fail to parse although their framing is right, the RcvInfo and the truncation error returned beside the bytes, nor items that arrive after the socket was shut for reading or after an association's errno (the latch module has those orders). Records are well formed, as the kernel queues them; Accumulator has the malformed ones.
- Receive.RecvState.Attempt: the queue is the kernel's, so the defensive branch for a record that is not followed by its own rest is not reached; Latch.RecordNotCut shows that no interleaving reaches it.
- A malformed partial-delivery record in recvNext with a handler, and recvNext's own loop around the callback.
- BufferPool.Pool.Put: a slice is identified with its array, so growing back to capacity is the array's own length.
- Sockaddr.ZoneKept: the host's interface table is a parameter; the cache of it and its refresh are not modelled.
- Config.Prepare: error texts, and the layout each operation has in the kernel's memory (config_linux.go).
- SendDeadline.NoLostWake: an Endpoint's send is not woken by a shutdown, so the statement is about a Conn.
- The decoders of single notification types, endpointCloseOps, decodeAssocIDs, linkLocalPathScope and the typed option getters and setters: one call each, or easy members.
- Dial, listeners, descriptor adoption, address lookup, error wrapping and String methods.
