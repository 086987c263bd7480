/**
  Preparation of a Config (config.go): its validation, and the ordered list of operations that a
  constructor applies to a new socket.

  `AtFault` says which fields of a Config are refused and `Wanted` which operations it asks for,
  each on its own and in no order; `Prepare` refuses exactly the first, and plans exactly the
  second, in the one order Linux takes them.
*/
module Config {
  import opened Wrappers
  import opened Bytes
  import SendDefaults

  datatype Style = Dial | Listen | ListenEndpoint | OpenEndpoint | File {
    predicate IsEndpoint() {
      ListenEndpoint? || OpenEndpoint?
    }
  }

  /** Durations are in nanoseconds. */
  datatype InitMsg = InitMsg(outStreams: u16, maxInStreams: u16, maxAttempts: u16, maxInitTimeout: int)
  datatype RTOInfo = RTOInfo(initial: int, max: int, min: int)
  datatype DelayedSACK = DelayedSACK(delay: int, frequency: u32)

  const NO_INIT := InitMsg(0, 0, 0, 0)

  datatype Config = Config(
    control: bool,            // a Control callback is set
    closeTimeout: int,
    abandonPolicy: nat,
    setupRTOInitial: int,
    initMsg: InitMsg,
    adaptationLayer: Option<u32>,
    hmacIdentifiers: Option<seq<u16>>,
    authChunks: Option<seq<byte>>,
    partialReliability: Option<bool>,
    streamReconfiguration: Option<bool>,
    dynamicAddress: Option<bool>,
    authentication: Option<bool>,
    experimentalECN: Option<bool>,
    messageInterleaving: bool,
    readBuffer: Option<int>,
    writeBuffer: Option<int>,
    noDelay: Option<bool>,
    defaultSndInfo: Option<SendDefaults.SndInfo>,
    defaultPrInfo: Option<SendDefaults.PrInfo>,
    reusePort: Option<bool>,
    fragmentsDisabled: Option<bool>,
    fragmentInterleave: Option<nat>,
    receiveNxtInfo: Option<bool>,
    streamResetMask: Option<bv32>,
    rtoInfo: Option<RTOInfo>,
    delayedSACK: Option<DelayedSACK>,
    notifications: Option<seq<u16>>)

  datatype Field =
    | CloseTimeout | Control | AbandonPolicy | SetupRTOInitial | InitMessage | AdaptationLayer | HMACIdentifiers
    | AuthChunks | PartialReliability | StreamReconfiguration | DynamicAddress | Authentication | ExperimentalECN
    | MessageInterleaving | ReadBuffer | WriteBuffer | NoDelay | DefaultSndInfo | DefaultPrInfo | ReusePort
    | FragmentsDisabled | FragmentInterleave | ReceiveNxtInfo | StreamResetMask | RTO | SACK | Notifications

  /** One operation, with its payload in the kernel's own unit. */
  datatype Op =
    | OpRecvRcvInfo
    | OpAssocChange
    | OpReadBuffer(bytes: int)
    | OpWriteBuffer(bytes: int)
    | OpInitMsg(outStreams: u16, maxInStreams: u16, maxAttempts: u16, maxInitTimeoutMS: int)
    | OpFragmentInterleave(level: nat)
    | OpAuthentication(on: bool)
    | OpHMACIdentifiers(ids: seq<u16>)
    | OpAuthChunk(chunk: byte)
    | OpDynamicAddress(on: bool)
    | OpPartialReliability(on: bool)
    | OpStreamReconfiguration(on: bool)
    | OpStreamResetMask(mask: bv32)
    | OpMessageInterleaving
    | OpExperimentalECN(on: bool)
    | OpAdaptationLayer(value: u32)
    | OpRTOInfo(initialMS: int, maxMS: int, minMS: int)
    | OpDelayedSACK(delayMS: int, frequency: u32)
    | OpFragmentsDisabled(on: bool)
    | OpReusePort(on: bool)
    | OpReceiveNxtInfo(on: bool)
    | OpNoDelay(on: bool)
    | OpDefaultSndInfo(info: SendDefaults.SndInfo)
    | OpDefaultPrInfo(policy: bv16, prValue: u32)
    | OpNotification(event: u16)

  /** configOpKind. */
  function Kind(op: Op): nat {
    match op
    case OpRecvRcvInfo => 0
    case OpAssocChange => 1
    case OpReadBuffer(_) => 2
    case OpWriteBuffer(_) => 3
    case OpInitMsg(_, _, _, _) => 4
    case OpFragmentInterleave(_) => 5
    case OpAuthentication(_) => 6
    case OpHMACIdentifiers(_) => 7
    case OpAuthChunk(_) => 8
    case OpDynamicAddress(_) => 9
    case OpPartialReliability(_) => 10
    case OpStreamReconfiguration(_) => 11
    case OpStreamResetMask(_) => 12
    case OpMessageInterleaving => 13
    case OpExperimentalECN(_) => 14
    case OpAdaptationLayer(_) => 15
    case OpRTOInfo(_, _, _) => 16
    case OpDelayedSACK(_, _) => 17
    case OpFragmentsDisabled(_) => 18
    case OpReusePort(_) => 19
    case OpReceiveNxtInfo(_) => 20
    case OpNoDelay(_) => 21
    case OpDefaultSndInfo(_) => 22
    case OpDefaultPrInfo(_, _) => 23
    case OpNotification(_) => 24
  }

  /** Where the groups of kinds begin, and where they end. */
  const BASICS: nat := 2
  const AUTH: nat := 6
  const EXTENSIONS: nat := 10
  const TIMERS: nat := 16
  const DEFAULTS: nat := 22
  const KINDS: nat := 25

  // ----- What is refused -----

  const MAX_INT32 := 0x7FFF_FFFF
  const MAX_U16 := 0xFFFF
  const MAX_U32 := 0xFFFF_FFFF

  /** durationToMillis: a whole number of milliseconds that fits the kernel's field, or none. */
  function Millis(d: int, limit: int): (ms: Option<int>)
    ensures ms.Some? ==> 0 <= ms.value <= limit && ms.value * 1_000_000 == d
  {
    if d < 0 || d % 1_000_000 != 0 || d / 1_000_000 > limit then None else Some(d / 1_000_000)
  }

  predicate Distinct<T(==)>(s: seq<T>) {
    forall i, j :: 0 <= i < j < |s| ==> s[i] != s[j]
  }

  const SHA1: u16 := 1
  const SHA256: u16 := 3

  predicate GoodHmacs(ids: seq<u16>) {
    (forall id :: id in ids ==> id == SHA1 || id == SHA256) && Distinct(ids) && SHA1 in ids
  }

  const ASCONF: byte := 0xC1
  const ASCONF_ACK: byte := 0x80
  const MAX_CHUNKS := 16

  /** INIT, INIT ACK, SHUTDOWN COMPLETE and AUTH. */
  predicate Forbidden(chunk: byte) {
    chunk == 1 || chunk == 2 || chunk == 14 || chunk == 15
  }

  function Elements<T>(s: seq<T>): set<T> {
    set x | x in s
  }

  /** The list that an association copies holds the caller's chunks and the two that Linux adds itself. */
  predicate GoodChunks(chunks: seq<byte>) {
    && (forall c :: c in chunks ==> !Forbidden(c)) && Distinct(chunks)
    && |Elements(chunks) + {ASCONF, ASCONF_ACK}| <= MAX_CHUNKS
  }

  predicate Known(event: u16) {
    0x8001 <= event <= 0x800d && event != 0x8003
  }

  predicate AuthOn(c: Config) {
    c.authentication == Some(true)
  }

  /** The effective fragment interleave level. */
  function Level(c: Config, style: Style): nat {
    if c.fragmentInterleave.Some? then c.fragmentInterleave.value else if style.IsEndpoint() then 1 else 0
  }

  predicate IsSet(c: Config, f: Field) {
    match f
    case CloseTimeout => false
    case Control => c.control
    case AbandonPolicy => c.abandonPolicy != 0
    case SetupRTOInitial => c.setupRTOInitial != 0
    case InitMessage => c.initMsg != NO_INIT
    case AdaptationLayer => c.adaptationLayer.Some?
    case HMACIdentifiers => c.hmacIdentifiers.Some?
    case AuthChunks => c.authChunks.Some?
    case PartialReliability => c.partialReliability.Some?
    case StreamReconfiguration => c.streamReconfiguration.Some?
    case DynamicAddress => c.dynamicAddress.Some?
    case Authentication => c.authentication.Some?
    case ExperimentalECN => c.experimentalECN.Some?
    case MessageInterleaving => c.messageInterleaving
    case ReadBuffer => c.readBuffer.Some?
    case WriteBuffer => c.writeBuffer.Some?
    case NoDelay => c.noDelay.Some?
    case DefaultSndInfo => c.defaultSndInfo.Some?
    case DefaultPrInfo => c.defaultPrInfo.Some?
    case ReusePort => c.reusePort.Some?
    case FragmentsDisabled => c.fragmentsDisabled.Some?
    case FragmentInterleave => c.fragmentInterleave.Some?
    case ReceiveNxtInfo => c.receiveNxtInfo.Some?
    case StreamResetMask => c.streamResetMask.Some?
    case RTO => c.rtoInfo.Some?
    case SACK => c.delayedSACK.Some?
    case Notifications => c.notifications.Some?
  }

  // A field that is refused on a socket the package creates, by group.

  predicate BasicsFault(c: Config, f: Field) {
    || (f == ReadBuffer && c.readBuffer.Some? && !(0 < c.readBuffer.value <= MAX_INT32))
    || (f == WriteBuffer && c.writeBuffer.Some? && !(0 < c.writeBuffer.value <= MAX_INT32))
    || (f == InitMessage && c.initMsg != NO_INIT && Millis(c.initMsg.maxInitTimeout, MAX_U16).None?)
    || (f == FragmentInterleave && c.fragmentInterleave.Some? && c.fragmentInterleave.value > 1)
  }

  predicate AuthFault(c: Config, f: Field) {
    || (f == HMACIdentifiers && c.hmacIdentifiers.Some? && (!AuthOn(c) || !GoodHmacs(c.hmacIdentifiers.value)))
    || (f == AuthChunks && c.authChunks.Some? && (!AuthOn(c) || !GoodChunks(c.authChunks.value)))
    || (f == DynamicAddress && c.dynamicAddress == Some(true) && !AuthOn(c))
  }

  /** streamResetKnownBits. */
  predicate GoodMask(mask: bv32) {
    mask & !7 == 0
  }

  predicate ExtensionsFault(c: Config, style: Style, f: Field) {
    || (f == StreamResetMask && c.streamResetMask.Some?
        && (!GoodMask(c.streamResetMask.value) || (c.streamResetMask.value != 0 && c.streamReconfiguration != Some(true))))
    || (f == MessageInterleaving && c.messageInterleaving && Level(c, style) < 1)
  }

  predicate TimersFault(c: Config, style: Style, f: Field) {
    || (f == RTO && c.rtoInfo.Some? && !GoodRTO(c.rtoInfo.value))
    || (f == SACK && c.delayedSACK.Some? && !GoodSACK(c.delayedSACK.value))
    || (f == ReusePort && c.reusePort.Some? && style.IsEndpoint())
  }

  predicate DefaultsFault(c: Config, f: Field) {
    || (f == DefaultSndInfo && c.defaultSndInfo.Some? && !SendDefaults.ValidDefaultFlags(c.defaultSndInfo.value.flags))
    || (f == DefaultPrInfo && c.defaultPrInfo.Some? && !SendDefaults.ValidPr(c.defaultPrInfo.value))
    || (f == Notifications && exists t :: t in Listed(c) && !Known(t))
  }

  /** The fields that never reach the plan. */
  predicate CallFault(c: Config, style: Style, f: Field) {
    || (f == AbandonPolicy && c.abandonPolicy != 0 && (c.abandonPolicy > 1 || style != Dial))
    || (f == SetupRTOInitial && c.setupRTOInitial != 0 && (style != Dial || Millis(c.setupRTOInitial, MAX_U32).None?))
  }

  predicate PlanFault(c: Config, style: Style, f: Field) {
    BasicsFault(c, f) || AuthFault(c, f) || ExtensionsFault(c, style, f) || TimersFault(c, style, f) || DefaultsFault(c, f)
  }

  predicate GoodSACK(s: DelayedSACK) {
    var ms := Millis(s.delay, MAX_U32);
    ms.Some? && ms.value <= 500
  }

  function Listed(c: Config): seq<u16> {
    if c.notifications.Some? then c.notifications.value else []
  }

  predicate GoodRTO(r: RTOInfo) {
    && Millis(r.initial, MAX_U32).Some? && Millis(r.max, MAX_U32).Some? && Millis(r.min, MAX_U32).Some?
    && (r.min != 0 && r.max != 0 ==> r.min <= r.max)
  }

  /** A field that is refused: on an adopted descriptor, any that is set besides the handler and the timeout. */
  predicate AtFault(c: Config, style: Style, f: Field) {
    || (f == CloseTimeout && c.closeTimeout < 0)
    || if style == File then IsSet(c, f) else CallFault(c, style, f) || PlanFault(c, style, f)
  }

  predicate WholeMillis(d: int, limit: int) {
    0 <= d <= limit * 1_000_000 && d % 1_000_000 == 0
  }

  lemma MillisExact(d: int, limit: nat)
    ensures Millis(d, limit).Some? <==> WholeMillis(d, limit)
  {
  }

  /** The limits of buffers, INIT parameters and levels. */
  lemma BasicLimits(c: Config)
    ensures BasicsFault(c, ReadBuffer) <==> c.readBuffer.Some? && !(1 <= c.readBuffer.value <= 2147483647)
    ensures BasicsFault(c, WriteBuffer) <==> c.writeBuffer.Some? && !(1 <= c.writeBuffer.value <= 2147483647)
    ensures BasicsFault(c, InitMessage) <==> c.initMsg != NO_INIT && !WholeMillis(c.initMsg.maxInitTimeout, 65535)
    ensures BasicsFault(c, FragmentInterleave) <==> c.fragmentInterleave.Some? && c.fragmentInterleave.value >= 2
  {
    MillisExact(c.initMsg.maxInitTimeout, 65535);
  }

  predicate FitsRTO(r: RTOInfo) {
    && WholeMillis(r.initial, 4294967295) && WholeMillis(r.max, 4294967295) && WholeMillis(r.min, 4294967295)
    && (r.min == 0 || r.max == 0 || r.min <= r.max)
  }

  /** The limits of timers. */
  lemma TimerLimits(c: Config, style: Style)
    ensures c.rtoInfo.Some? ==> (TimersFault(c, style, RTO) <==> !FitsRTO(c.rtoInfo.value))
    ensures c.delayedSACK.Some? ==> (TimersFault(c, style, SACK) <==> !WholeMillis(c.delayedSACK.value.delay, 500))
  {
    if c.rtoInfo.Some? {
      MillisExact(c.rtoInfo.value.initial, 4294967295);
      MillisExact(c.rtoInfo.value.max, 4294967295);
      MillisExact(c.rtoInfo.value.min, 4294967295);
    }
    if c.delayedSACK.Some? {
      MillisExact(c.delayedSACK.value.delay, 4294967295);
    }
  }

  /** What needs Authentication=true: the two lists, and ASCONF when it is switched on. */
  lemma AuthNeeds(c: Config)
    ensures AuthFault(c, DynamicAddress) <==> c.dynamicAddress == Some(true) && c.authentication != Some(true)
    ensures c.hmacIdentifiers.Some? ==>
      (AuthFault(c, HMACIdentifiers) <==> c.authentication != Some(true) || !GoodHmacs(c.hmacIdentifiers.value))
    ensures c.authChunks.Some? ==>
      (AuthFault(c, AuthChunks) <==> c.authentication != Some(true) || !GoodChunks(c.authChunks.value))
  {
  }

  /** What depends on the style: I-DATA needs a level of 1, which only an Endpoint has unset; ReusePort is not for one. */
  lemma StyleNeeds(c: Config, style: Style)
    ensures ExtensionsFault(c, style, MessageInterleaving) <==>
      c.messageInterleaving && (c.fragmentInterleave == Some(0) || (c.fragmentInterleave == None && style != ListenEndpoint && style != OpenEndpoint))
    ensures TimersFault(c, style, ReusePort) <==> c.reusePort.Some? && (style == ListenEndpoint || style == OpenEndpoint)
  {
  }

  /** The default parameters and the notifications that are accepted. */
  lemma DefaultNeeds(c: Config)
    ensures DefaultsFault(c, DefaultSndInfo) <==> c.defaultSndInfo.Some? && !SendDefaults.ValidDefaultFlags(c.defaultSndInfo.value.flags)
    ensures DefaultsFault(c, DefaultPrInfo) <==> c.defaultPrInfo.Some? && !SendDefaults.ValidPr(c.defaultPrInfo.value)
    ensures !DefaultsFault(c, Notifications) <==> forall t :: t in Listed(c) ==> Known(t)
  {
  }

  /** The limits of what only Dial takes. */
  lemma OtherLimits(c: Config, style: Style)
    ensures CallFault(c, style, SetupRTOInitial) <==> c.setupRTOInitial != 0 && !(style == Dial && WholeMillis(c.setupRTOInitial, 4294967295))
    ensures CallFault(c, style, AbandonPolicy) <==> c.abandonPolicy >= 2 || (c.abandonPolicy == 1 && style != Dial)
  {
    MillisExact(c.setupRTOInitial, 4294967295);
  }

  /** A reset mask is one of eight. */
  lemma MaskBits(mask: bv32)
    ensures GoodMask(mask) <==>
      mask == 0 || mask == 1 || mask == 2 || mask == 3 || mask == 4 || mask == 5 || mask == 6 || mask == 7
  {
  }

  lemma {:induction false} DistinctCount(ids: seq<u16>)
    requires Distinct(ids)
    ensures |Elements(ids)| == |ids|
  {
    if ids != [] {
      var n := |ids| - 1;
      DistinctCount(ids[..n]);
      assert ids == ids[..n] + [ids[n]];
      assert Elements(ids) == Elements(ids[..n]) + {ids[n]};
    }
  }

  /** The HMAC lists that are accepted. */
  lemma HmacsExact(ids: seq<u16>)
    ensures GoodHmacs(ids) <==> ids == [1] || ids == [1, 3] || ids == [3, 1]
  {
    if GoodHmacs(ids) {
      DistinctCount(ids);
      SubsetCount(Elements(ids), {1, 3});
      assert ids[0] in ids && (|ids| == 2 ==> ids[1] in ids && ids[0] != ids[1]);
      assert ids == if |ids| == 1 then [ids[0]] else [ids[0], ids[1]];
    }
  }

  lemma {:induction false} SubsetCount<T>(a: set<T>, b: set<T>)
    requires a <= b
    ensures |a| <= |b|
    decreases |a|
  {
    if a != {} {
      var x :| x in a;
      SubsetCount(a - {x}, b - {x});
    }
  }

  /** The chunks that are refused, the two that Linux adds, and the events that are known. */
  lemma ListsExact(chunk: byte, event: u16)
    ensures Forbidden(chunk) <==> chunk == 1 || chunk == 2 || chunk == 14 || chunk == 15
    ensures Known(event) <==> event == 0x8001 || event == 0x8002 || 0x8004 <= event <= 0x800d
    ensures ASCONF == 193 && ASCONF_ACK == 128 && MAX_CHUNKS == 16
  {
  }

  // ----- What is planned -----

  /** An operation that the Config asks for. */
  predicate Wanted(c: Config, style: Style, op: Op) {
    match op
    case OpRecvRcvInfo => true
    case OpAssocChange => true
    case OpReadBuffer(n) => c.readBuffer == Some(n)
    case OpWriteBuffer(n) => c.writeBuffer == Some(n)
    case OpInitMsg(o, i, a, ms) => c.initMsg != NO_INIT && c.initMsg == InitMsg(o, i, a, ms * 1_000_000)
    case OpFragmentInterleave(level) =>
      (c.fragmentInterleave.Some? || style.IsEndpoint()) && level == Level(c, style)
    case OpAuthentication(on) => c.authentication == Some(on)
    case OpHMACIdentifiers(ids) => c.hmacIdentifiers == Some(ids)
    case OpAuthChunk(chunk) => c.authChunks.Some? && chunk in c.authChunks.value
    case OpDynamicAddress(on) => c.dynamicAddress == Some(on)
    case OpPartialReliability(on) => c.partialReliability == Some(on)
    case OpStreamReconfiguration(on) => c.streamReconfiguration == Some(on)
    case OpStreamResetMask(mask) => c.streamResetMask == Some(mask)
    case OpMessageInterleaving => c.messageInterleaving
    case OpExperimentalECN(on) => c.experimentalECN == Some(on)
    case OpAdaptationLayer(v) => c.adaptationLayer == Some(v)
    case OpRTOInfo(i, x, n) => c.rtoInfo == Some(RTOInfo(i * 1_000_000, x * 1_000_000, n * 1_000_000))
    case OpDelayedSACK(d, f) => c.delayedSACK == Some(DelayedSACK(d * 1_000_000, f))
    case OpFragmentsDisabled(on) => c.fragmentsDisabled == Some(on)
    case OpReusePort(on) => c.reusePort == Some(on)
    case OpReceiveNxtInfo(on) => c.receiveNxtInfo == Some(on)
    case OpNoDelay(on) => c.noDelay == Some(on)
    case OpDefaultSndInfo(info) => c.defaultSndInfo == Some(info)
    case OpDefaultPrInfo(policy, value) =>
      && c.defaultPrInfo.Some? && SendDefaults.ValidPr(c.defaultPrInfo.value)
      && (policy, value) == SendDefaults.Resolve(c.defaultPrInfo.value)
    case OpNotification(t) => c.notifications.Some? && t in c.notifications.value
  }

  function WantedBy(c: Config, style: Style): Op -> bool {
    op => Wanted(c, style, op)
  }

  /** The two kinds of which a plan may have several. */
  predicate Repeats(k: nat) {
    k == 8 || k == 24
  }

  /** A list sorted by kind, with no element twice, and no kind twice that does not repeat. */
  predicate Ordered<T(==)>(kind: T -> nat, ops: seq<T>) {
    forall i, j :: 0 <= i < j < |ops| ==>
      && kind(ops[i]) <= kind(ops[j]) && ops[i] != ops[j]
      && (kind(ops[i]) == kind(ops[j]) ==> Repeats(kind(ops[i])))
  }

  /** Ordered, and of the kinds below k exactly what is wanted. */
  ghost predicate OrderedTo<T(!new)>(kind: T -> nat, want: T -> bool, ops: seq<T>, k: nat) {
    Ordered(kind, ops) && forall op :: op in ops <==> want(op) && kind(op) < k
  }

  /** All that is wanted of kind k, once. */
  ghost predicate AllOfKind<T(!new)>(kind: T -> nat, want: T -> bool, k: nat, more: seq<T>) {
    (forall op :: op in more <==> want(op) && kind(op) == k) && Distinct(more) && (Repeats(k) || |more| <= 1)
  }

  /** Appending all that is wanted of the next kind. */
  lemma AppendKind<T(!new)>(kind: T -> nat, want: T -> bool, ops: seq<T>, k: nat, more: seq<T>)
    requires OrderedTo(kind, want, ops, k) && AllOfKind(kind, want, k, more)
    ensures OrderedTo(kind, want, ops + more, k + 1)
  {
    var all := ops + more;
    forall i, j | 0 <= i < j < |all|
      ensures kind(all[i]) <= kind(all[j]) && all[i] != all[j]
      ensures kind(all[i]) == kind(all[j]) ==> Repeats(kind(all[i]))
    {
      assert j < |ops| || all[j] == more[j - |ops|];
      assert i < |ops| ==> all[i] in ops;
      assert i >= |ops| ==> all[i] == more[i - |ops|];
    }
    forall op ensures op in all <==> want(op) && kind(op) < k + 1 {
      assert op in all <==> op in ops || op in more;
    }
  }

  /** The distinct values of a list, where each occurs first. */
  function Firsts(ts: seq<u16>): (r: seq<u16>)
    ensures Distinct(r) && forall t :: t in r <==> t in ts
  {
    if ts == [] then []
    else
      var n, r := |ts| - 1, Firsts(ts[..|ts| - 1]);
      assert ts == ts[..n] + [ts[n]];
      if ts[n] in r then r else r + [ts[n]]
  }

  /** The operations of one kind. */
  function OfKind(c: Config, style: Style, k: nat): seq<Op> {
    match k
    case 0 => [OpRecvRcvInfo]
    case 1 => [OpAssocChange]
    case 2 => if c.readBuffer.Some? then [OpReadBuffer(c.readBuffer.value)] else []
    case 3 => if c.writeBuffer.Some? then [OpWriteBuffer(c.writeBuffer.value)] else []
    case 4 => InitOps(c.initMsg)
    case 5 => FragmentOps(c, style)
    case 6 => if c.authentication.Some? then [OpAuthentication(c.authentication.value)] else []
    case 7 => if c.hmacIdentifiers.Some? then [OpHMACIdentifiers(c.hmacIdentifiers.value)] else []
    case 8 => if c.authChunks.Some? then ChunkOps(c.authChunks.value) else []
    case 9 => if c.dynamicAddress.Some? then [OpDynamicAddress(c.dynamicAddress.value)] else []
    case 10 => if c.partialReliability.Some? then [OpPartialReliability(c.partialReliability.value)] else []
    case 11 => if c.streamReconfiguration.Some? then [OpStreamReconfiguration(c.streamReconfiguration.value)] else []
    case 12 => if c.streamResetMask.Some? then [OpStreamResetMask(c.streamResetMask.value)] else []
    case 13 => if c.messageInterleaving then [OpMessageInterleaving] else []
    case 14 => if c.experimentalECN.Some? then [OpExperimentalECN(c.experimentalECN.value)] else []
    case 15 => if c.adaptationLayer.Some? then [OpAdaptationLayer(c.adaptationLayer.value)] else []
    case 16 => RTOOps(c.rtoInfo)
    case 17 => SACKOps(c.delayedSACK)
    case 18 => if c.fragmentsDisabled.Some? then [OpFragmentsDisabled(c.fragmentsDisabled.value)] else []
    case 19 => if c.reusePort.Some? then [OpReusePort(c.reusePort.value)] else []
    case 20 => if c.receiveNxtInfo.Some? then [OpReceiveNxtInfo(c.receiveNxtInfo.value)] else []
    case 21 => if c.noDelay.Some? then [OpNoDelay(c.noDelay.value)] else []
    case 22 => if c.defaultSndInfo.Some? then [OpDefaultSndInfo(c.defaultSndInfo.value)] else []
    case 23 => PrOps(c.defaultPrInfo)
    case 24 => if c.notifications.Some? then EventOps(Firsts(c.notifications.value)) else []
    case _ => []
  }

  function InitOps(m: InitMsg): seq<Op> {
    var ms := Millis(m.maxInitTimeout, MAX_U16);
    if m == NO_INIT || ms.None? then [] else [OpInitMsg(m.outStreams, m.maxInStreams, m.maxAttempts, ms.value)]
  }

  function FragmentOps(c: Config, style: Style): seq<Op> {
    if c.fragmentInterleave.Some? || style.IsEndpoint() then [OpFragmentInterleave(Level(c, style))] else []
  }

  function RTOOps(r: Option<RTOInfo>): seq<Op> {
    if r.None? || !GoodRTO(r.value) then []
    else [OpRTOInfo(Millis(r.value.initial, MAX_U32).value, Millis(r.value.max, MAX_U32).value, Millis(r.value.min, MAX_U32).value)]
  }

  function SACKOps(s: Option<DelayedSACK>): seq<Op> {
    if s.None? || Millis(s.value.delay, MAX_U32).None? then []
    else [OpDelayedSACK(Millis(s.value.delay, MAX_U32).value, s.value.frequency)]
  }

  function PrOps(pr: Option<SendDefaults.PrInfo>): seq<Op> {
    if pr.None? || !SendDefaults.ValidPr(pr.value) then []
    else
      var (policy, value) := SendDefaults.Resolve(pr.value);
      [OpDefaultPrInfo(policy, value)]
  }

  function ChunkOps(chunks: seq<byte>): (ops: seq<Op>)
    ensures |ops| == |chunks|
  {
    seq(|chunks|, i requires 0 <= i < |chunks| => OpAuthChunk(chunks[i]))
  }

  function EventOps(events: seq<u16>): (ops: seq<Op>)
    ensures |ops| == |events|
  {
    seq(|events|, i requires 0 <= i < |events| => OpNotification(events[i]))
  }

  /** The operations of all kinds below k. */
  function PlanTo(c: Config, style: Style, k: nat): seq<Op> {
    if k == 0 then [] else PlanTo(c, style, k - 1) + OfKind(c, style, k - 1)
  }

  // ----- The plan is what is wanted -----

  predicate Accepted(c: Config, style: Style) {
    forall f {:trigger AtFault(c, style, f)} :: !AtFault(c, style, f)
  }

  lemma UnsetIsFine(c: Config, style: Style, f: Field)
    requires !IsSet(c, f)
    ensures !BasicsFault(c, f) && !AuthFault(c, f) && !DefaultsFault(c, f)
  {
  }

  lemma UnsetIsFineToo(c: Config, style: Style, f: Field)
    requires !IsSet(c, f)
    ensures !ExtensionsFault(c, style, f) && !TimersFault(c, style, f)
  {
  }

  /** On an adopted descriptor nothing is set, so nothing can be wrong. */
  lemma NoPlanFault(c: Config, style: Style, f: Field)
    requires Accepted(c, style)
    ensures !PlanFault(c, style, f)
  {
    assert !AtFault(c, style, f);
    if style == File {
      UnsetIsFine(c, style, f);
      UnsetIsFineToo(c, style, f);
    }
  }

  lemma ChunkOpsRight(chunks: seq<byte>)
    ensures forall op :: op in ChunkOps(chunks) <==> op.OpAuthChunk? && op.chunk in chunks
    ensures Distinct(chunks) ==> Distinct(ChunkOps(chunks))
  {
    var ops := ChunkOps(chunks);
    forall op: Op | op.OpAuthChunk? && op.chunk in chunks ensures op in ops {
      var i :| 0 <= i < |chunks| && chunks[i] == op.chunk;
      assert ops[i] == op;
    }
  }

  lemma EventOpsRight(events: seq<u16>)
    ensures forall op :: op in EventOps(events) <==> op.OpNotification? && op.event in events
    ensures Distinct(events) ==> Distinct(EventOps(events))
  {
    var ops := EventOps(events);
    forall op: Op | op.OpNotification? && op.event in events ensures op in ops {
      var i :| 0 <= i < |events| && events[i] == op.event;
      assert ops[i] == op;
    }
  }

  ghost predicate KindIsRight(c: Config, style: Style, k: nat) {
    AllOfKind(Kind, WantedBy(c, style), k, OfKind(c, style, k))
  }

  lemma LowestKinds(c: Config, style: Style, k: nat)
    requires k < 4
    ensures KindIsRight(c, style, k)
  {
  }

  lemma LowKinds(c: Config, style: Style, k: nat)
    requires !BasicsFault(c, InitMessage) && 4 <= k < 8
    ensures KindIsRight(c, style, k)
  {
  }

  lemma MiddleKinds(c: Config, style: Style, k: nat)
    requires 9 <= k < 14
    ensures KindIsRight(c, style, k)
  {
  }

  lemma RTOKind(c: Config, style: Style)
    requires !TimersFault(c, style, RTO)
    ensures KindIsRight(c, style, 16)
  {
    assert OfKind(c, style, 16) == RTOOps(c.rtoInfo);
    forall op ensures op in RTOOps(c.rtoInfo) <==> WantedBy(c, style)(op) && Kind(op) == 16 {
      assert Kind(op) == 16 <==> op.OpRTOInfo?;
    }
  }

  lemma SACKKind(c: Config, style: Style)
    requires !TimersFault(c, style, SACK)
    ensures KindIsRight(c, style, 17)
  {
    assert OfKind(c, style, 17) == SACKOps(c.delayedSACK);
    forall op ensures op in SACKOps(c.delayedSACK) <==> WantedBy(c, style)(op) && Kind(op) == 17 {
      assert Kind(op) == 17 <==> op.OpDelayedSACK?;
    }
  }

  lemma UpperKinds(c: Config, style: Style, k: nat)
    requires 14 <= k < 20 && k != 16 && k != 17
    ensures KindIsRight(c, style, k)
  {
  }

  lemma HighKinds(c: Config, style: Style, k: nat)
    requires !DefaultsFault(c, DefaultPrInfo) && 20 <= k && k != 24
    ensures KindIsRight(c, style, k)
  {
  }

  lemma ChunkKind(c: Config, style: Style)
    requires !AuthFault(c, AuthChunks)
    ensures KindIsRight(c, style, 8)
  {
    var chunks := if c.authChunks.Some? then c.authChunks.value else [];
    ChunkOpsRight(chunks);
    assert OfKind(c, style, 8) == ChunkOps(chunks);
    forall op ensures op in ChunkOps(chunks) <==> WantedBy(c, style)(op) && Kind(op) == 8 {
      assert Kind(op) == 8 <==> op.OpAuthChunk?;
    }
  }

  lemma EventKind(c: Config, style: Style)
    ensures KindIsRight(c, style, 24)
  {
    var events := if c.notifications.Some? then Firsts(c.notifications.value) else [];
    EventOpsRight(events);
    assert OfKind(c, style, 24) == EventOps(events);
    forall op ensures op in EventOps(events) <==> WantedBy(c, style)(op) && Kind(op) == 24 {
      assert Kind(op) == 24 <==> op.OpNotification?;
    }
  }

  /** Of each kind, the plan has exactly what an accepted Config asks for, once. */
  lemma KindRight(c: Config, style: Style, k: nat)
    requires Accepted(c, style)
    ensures KindIsRight(c, style, k)
  {
    NoPlanFault(c, style, InitMessage);
    NoPlanFault(c, style, AuthChunks);
    NoPlanFault(c, style, RTO);
    NoPlanFault(c, style, SACK);
    NoPlanFault(c, style, DefaultPrInfo);
    if k < 4 { LowestKinds(c, style, k); }
    else if k < 8 { LowKinds(c, style, k); }
    else if k == 8 { ChunkKind(c, style); }
    else if k == 24 { EventKind(c, style); }
    else if k == 16 { RTOKind(c, style); }
    else if k == 17 { SACKKind(c, style); }
    else if k < 14 { MiddleKinds(c, style, k); }
    else if k < 20 { UpperKinds(c, style, k); }
    else { HighKinds(c, style, k); }
  }

  /** Lists that each add all of the next kind. */
  lemma {:induction false} GrowsRight<T(!new)>(kind: T -> nat, want: T -> bool, plan: nat -> seq<T>, part: nat -> seq<T>, k: nat)
    requires plan(0) == [] && forall j: nat :: plan(j + 1) == plan(j) + part(j)
    requires forall j: nat :: AllOfKind(kind, want, j, part(j))
    ensures OrderedTo(kind, want, plan(k), k)
  {
    if k > 0 {
      GrowsRight(kind, want, plan, part, k - 1);
      AppendKind(kind, want, plan(k - 1), k - 1, part(k - 1));
      assert plan(k - 1 + 1) == plan(k);
    }
  }

  lemma PlanToRight(c: Config, style: Style, k: nat)
    requires Accepted(c, style)
    ensures OrderedTo(Kind, WantedBy(c, style), PlanTo(c, style, k), k)
  {
    var part := (j: nat) => OfKind(c, style, j);
    forall j: nat ensures AllOfKind(Kind, WantedBy(c, style), j, part(j)) {
      KindRight(c, style, j);
    }
    GrowsRight(Kind, WantedBy(c, style), (j: nat) => PlanTo(c, style, j), part, k);
  }

  /** The plan of an accepted Config: sorted by kind, each kind at most once but two, and exactly what is wanted. */
  lemma PlanRight(c: Config, style: Style)
    requires Accepted(c, style)
    ensures var ops := PlanTo(c, style, KINDS);
      && Ordered(Kind, ops)
      && (forall op :: op in ops <==> Wanted(c, style, op))
      && |ops| >= 2 && ops[0] == OpRecvRcvInfo && ops[1] == OpAssocChange
  {
    PlanToRight(c, style, KINDS);
    AllOfThem(Kind, WantedBy(c, style), PlanTo(c, style, KINDS));
    FirstTwo(c, style, KINDS);
  }

  lemma AllOfThem(kind: Op -> nat, want: Op -> bool, ops: seq<Op>)
    requires OrderedTo(kind, want, ops, KINDS) && forall op :: kind(op) < KINDS
    ensures forall op :: op in ops <==> want(op)
  {
  }

  lemma {:induction false} FirstTwo(c: Config, style: Style, k: nat)
    requires k >= 2
    ensures [OpRecvRcvInfo, OpAssocChange] <= PlanTo(c, style, k)
  {
    if k == 2 {
      assert PlanTo(c, style, 1) == [OpRecvRcvInfo];
    } else {
      FirstTwo(c, style, k - 1);
    }
  }

  /** The operation that another needs to have been applied before it, if any. */
  function Needs(op: Op): Option<Op> {
    if op.OpHMACIdentifiers? || op.OpAuthChunk? || op == OpDynamicAddress(true) then Some(OpAuthentication(true))
    else if op.OpStreamResetMask? && op.mask != 0 then Some(OpStreamReconfiguration(true))
    else if op.OpMessageInterleaving? then Some(OpFragmentInterleave(1))
    else None
  }

  lemma NeedsWanted(c: Config, style: Style, op: Op)
    requires Accepted(c, style) && Wanted(c, style, op) && Needs(op).Some?
    ensures Wanted(c, style, Needs(op).value) && Kind(Needs(op).value) < Kind(op)
  {
    NoPlanFault(c, style, HMACIdentifiers);
    NoPlanFault(c, style, AuthChunks);
    NoPlanFault(c, style, DynamicAddress);
    NoPlanFault(c, style, StreamResetMask);
    NoPlanFault(c, style, MessageInterleaving);
    NoPlanFault(c, style, FragmentInterleave);
  }

  /** AUTH before all that depends on it, and likewise for the other needs: what an operation needs precedes it. */
  lemma NeedsComeFirst(c: Config, style: Style, ops: seq<Op>, j: nat)
    requires Accepted(c, style) && ops == PlanTo(c, style, KINDS) && j < |ops| && Needs(ops[j]).Some?
    ensures exists i :: 0 <= i < j && ops[i] == Needs(ops[j]).value
  {
    PlanRight(c, style);
    NeedsWanted(c, style, ops[j]);
    Earlier(ops, j, Needs(ops[j]).value);
  }

  /** The order of the kinds is the documented one. */
  lemma DocumentedOrder()
    ensures Kind(OpRecvRcvInfo) < Kind(OpAssocChange) < Kind(OpReadBuffer(0)) < Kind(OpWriteBuffer(0)) < Kind(OpInitMsg(0, 0, 0, 0))
    ensures Kind(OpInitMsg(0, 0, 0, 0)) < Kind(OpFragmentInterleave(0)) < Kind(OpAuthentication(true)) < Kind(OpHMACIdentifiers([]))
    ensures Kind(OpHMACIdentifiers([])) < Kind(OpAuthChunk(0)) < Kind(OpDynamicAddress(true)) < Kind(OpPartialReliability(true))
    ensures Kind(OpPartialReliability(true)) < Kind(OpStreamReconfiguration(true)) < Kind(OpStreamResetMask(0))
  {
  }

  lemma DocumentedOrderToo()
    ensures Kind(OpStreamResetMask(0)) < Kind(OpMessageInterleaving) < Kind(OpExperimentalECN(true)) < Kind(OpAdaptationLayer(0))
    ensures Kind(OpAdaptationLayer(0)) < Kind(OpRTOInfo(0, 0, 0)) < Kind(OpDelayedSACK(0, 0)) < Kind(OpFragmentsDisabled(true))
    ensures Kind(OpFragmentsDisabled(true)) < Kind(OpReusePort(true)) < Kind(OpReceiveNxtInfo(true)) < Kind(OpNoDelay(true))
    ensures Kind(OpNoDelay(true)) < Kind(OpDefaultSndInfo(SendDefaults.SndInfo(0, 0, 0, 0))) < Kind(OpDefaultPrInfo(0, 0))
    ensures Kind(OpDefaultPrInfo(0, 0)) < Kind(OpNotification(0))
  {
  }

  /** The chunks planned, with the two that Linux adds, fit the list of an association, and none is one RFC 4895 forbids. */
  lemma ChunkListFits(c: Config, style: Style)
    requires Accepted(c, style)
    ensures var chunks := set op | op in PlanTo(c, style, KINDS) && op.OpAuthChunk? :: op.chunk;
      |chunks + {ASCONF, ASCONF_ACK}| <= MAX_CHUNKS && forall chunk :: chunk in chunks ==> !Forbidden(chunk)
  {
    NoPlanFault(c, style, AuthChunks);
    var chunks := set op | op in PlanTo(c, style, KINDS) && op.OpAuthChunk? :: op.chunk;
    var asked := if c.authChunks.Some? then Elements(c.authChunks.value) else {};
    forall chunk ensures chunk in chunks <==> chunk in asked {
      ChunkPlanned(c, style, chunk);
    }
    assert chunks == asked;
  }

  lemma ChunkPlanned(c: Config, style: Style, chunk: byte)
    requires Accepted(c, style)
    ensures OpAuthChunk(chunk) in PlanTo(c, style, KINDS) <==> c.authChunks.Some? && chunk in c.authChunks.value
  {
    PlanRight(c, style);
    assert Wanted(c, style, OpAuthChunk(chunk)) <==> c.authChunks.Some? && chunk in c.authChunks.value;
  }

  lemma Earlier(ops: seq<Op>, j: nat, op: Op)
    requires Ordered(Kind, ops) && j < |ops| && op in ops && Kind(op) < Kind(ops[j])
    ensures exists i :: 0 <= i < j && ops[i] == op
  {
    var i :| 0 <= i < |ops| && ops[i] == op;
    assert i <= j;
  }

  // ----- The checks with loops -----

  method CheckHmacs(ids: seq<u16>) returns (ok: bool)
    ensures ok == GoodHmacs(ids)
  {
    var hasSHA1, seen := false, {};
    for i := 0 to |ids|
      invariant hasSHA1 == (SHA1 in ids[..i]) && seen == Elements(ids[..i])
      invariant Distinct(ids[..i]) && forall id :: id in ids[..i] ==> id == SHA1 || id == SHA256
    {
      var id := ids[i];
      assert ids[..i + 1] == ids[..i] + [id] && id in ids;
      if id != SHA1 && id != SHA256 { return false; }
      if id in seen { return false; }
      seen := seen + {id};
      if id == SHA1 { hasSHA1 := true; }
    }
    assert ids[..|ids|] == ids;
    return hasSHA1;
  }

  /** The list Linux ends up with, counted as prepare counts it. */
  lemma EffectiveCount(seen: set<byte>)
    ensures |seen + {ASCONF, ASCONF_ACK}|
         == |seen| + (if ASCONF in seen then 0 else 1) + (if ASCONF_ACK in seen then 0 else 1)
  {
    var one := if ASCONF in seen then seen else seen + {ASCONF};
    assert seen + {ASCONF, ASCONF_ACK} == if ASCONF_ACK in one then one else one + {ASCONF_ACK};
  }

  method CheckChunks(chunks: seq<byte>) returns (ok: bool)
    ensures ok == GoodChunks(chunks)
  {
    var seen := {};
    for i := 0 to |chunks|
      invariant seen == Elements(chunks[..i]) && |seen| == i
      invariant Distinct(chunks[..i]) && forall c :: c in chunks[..i] ==> !Forbidden(c)
    {
      var c := chunks[i];
      assert chunks[..i + 1] == chunks[..i] + [c] && c in chunks;
      if Forbidden(c) { return false; }
      if c in seen { return false; }
      seen := seen + {c};
    }
    assert chunks[..|chunks|] == chunks;
    ok := CountFits(chunks, seen);
  }

  method CountFits(chunks: seq<byte>, seen: set<byte>) returns (ok: bool)
    requires |seen| == |chunks|
    ensures ok == (|seen + {ASCONF, ASCONF_ACK}| <= MAX_CHUNKS)
  {
    EffectiveCount(seen);
    var effective := |chunks|;
    if ASCONF !in seen { effective := effective + 1; }
    if ASCONF_ACK !in seen { effective := effective + 1; }
    return effective <= MAX_CHUNKS;
  }

  /** eventSet: its sixteen bits, from the lowest; bit i is for the type 0x8001 + i. */
  type EventSet = s: seq<bool> | |s| == 16 witness NONE

  const NONE: seq<bool> := [false, false, false, false, false, false, false, false,
                            false, false, false, false, false, false, false, false]

  predicate Has(subscribed: EventSet, t: u16) {
    Known(t) && subscribed[t - 0x8001]
  }

  function With(subscribed: EventSet, t: u16): EventSet
    requires Known(t)
  {
    subscribed[t - 0x8001 := true]
  }

  /** One operation for each distinct type, where it occurs first, and the set of their bits. */
  method BuildSubscriptions(notifications: seq<u16>, ops: seq<Op>) returns (ok: bool, subscribed: EventSet, ops': seq<Op>)
    ensures ok <==> forall t :: t in notifications ==> Known(t)
    ensures ok ==> ops' == ops + EventOps(Firsts(notifications))
    ensures ok ==> forall t :: Has(subscribed, t) <==> t in notifications
  {
    ops', subscribed := ops, NONE;
    assert EventOps(Firsts([])) == [];
    for i := 0 to |notifications|
      invariant Built(notifications[..i], subscribed, ops, ops')
    {
      var t := notifications[i];
      assert notifications[..i + 1] == notifications[..i] + [t] && t in notifications;
      if !Known(t) { return false, subscribed, ops'; }
      subscribed, ops' := AddEvent(notifications[..i], t, subscribed, ops, ops');
    }
    assert notifications[..|notifications|] == notifications;
    ListedBits(subscribed, notifications);
    ok := true;
  }

  /** The subscriptions and the operations after some of the list. */
  ghost predicate Built(done: seq<u16>, subscribed: EventSet, ops: seq<Op>, ops': seq<Op>) {
    Bits(subscribed, Elements(done)) && ops' == ops + EventOps(Firsts(done))
  }

  method AddEvent(ghost done: seq<u16>, t: u16, subscribed: EventSet, ghost ops: seq<Op>, sofar: seq<Op>)
    returns (subscribed': EventSet, ops': seq<Op>)
    requires Known(t) && Built(done, subscribed, ops, sofar)
    ensures Built(done + [t], subscribed', ops, ops')
  {
    OneMoreEvent(done, t);
    SetBit(subscribed, Elements(done), t);
    assert Elements(done + [t]) == Elements(done) + {t};
    if Has(subscribed, t) { return subscribed, sofar; }
    return With(subscribed, t), sofar + [OpNotification(t)];
  }

  lemma ListedBits(subscribed: EventSet, notifications: seq<u16>)
    requires Bits(subscribed, Elements(notifications))
    ensures forall t :: Has(subscribed, t) <==> t in notifications
    ensures forall t :: t in notifications ==> Known(t)
  {
    assert forall t :: t in notifications ==> t in Elements(notifications) && Has(subscribed, t);
  }

  /** The bits that are set are those of these types. */
  ghost predicate Bits(subscribed: EventSet, types: set<u16>) {
    forall t :: Has(subscribed, t) <==> t in types
  }

  lemma SetBit(subscribed: EventSet, types: set<u16>, t: u16)
    requires Bits(subscribed, types) && Known(t)
    ensures Bits(With(subscribed, t), types + {t})
    ensures Has(subscribed, t) ==> types + {t} == types
  {
  }

  lemma OneMoreEvent(before: seq<u16>, t: u16)
    ensures EventOps(Firsts(before + [t]))
         == EventOps(Firsts(before)) + (if t in before then [] else [OpNotification(t)])
  {
    var after := before + [t];
    assert after[..|before|] == before;
    assert Firsts(after) == Firsts(before) + if t in before then [] else [t];
  }

  method AppendChunks(chunks: seq<byte>, ops: seq<Op>) returns (ops': seq<Op>)
    ensures ops' == ops + ChunkOps(chunks)
  {
    ops' := ops;
    for i := 0 to |chunks|
      invariant ops' == ops + ChunkOps(chunks)[..i]
    {
      ops' := ops' + [OpAuthChunk(chunks[i])];
    }
  }

  /** Compares the millisecond counts, which for whole milliseconds is to compare the durations. */
  method CheckRTO(r: RTOInfo) returns (ok: bool)
    ensures ok == GoodRTO(r)
  {
    var i, x, n := Millis(r.initial, MAX_U32), Millis(r.max, MAX_U32), Millis(r.min, MAX_U32);
    if i.None? || x.None? || n.None? { return false; }
    return !(r.min != 0 && r.max != 0 && n.value > x.value);
  }

  // ----- prepare -----

  /** Buffers, INIT parameters and the interleave level. */
  method PlanBasics(c: Config, style: Style, ops: seq<Op>) returns (fault: Option<Field>, ops': seq<Op>)
    requires ops == PlanTo(c, style, BASICS)
    ensures fault.Some? ==> BasicsFault(c, fault.value)
    ensures fault.None? ==> forall f :: !BasicsFault(c, f)
    ensures fault.None? ==> ops' == PlanTo(c, style, AUTH)
  {
    ops' := ops;
    if c.readBuffer.Some? && !(0 < c.readBuffer.value <= MAX_INT32) { return Some(ReadBuffer), ops'; }
    ops' := ops' + OfKind(c, style, 2);
    if c.writeBuffer.Some? && !(0 < c.writeBuffer.value <= MAX_INT32) { return Some(WriteBuffer), ops'; }
    ops' := ops' + OfKind(c, style, 3);
    if c.initMsg != NO_INIT && Millis(c.initMsg.maxInitTimeout, MAX_U16).None? { return Some(InitMessage), ops'; }
    ops' := ops' + OfKind(c, style, 4);
    if c.fragmentInterleave.Some? && c.fragmentInterleave.value > 1 { return Some(FragmentInterleave), ops'; }
    ops' := ops' + OfKind(c, style, 5);
    FourKinds(c, style, BASICS);
    return None, ops';
  }

  /** AUTH, its two lists, and ASCONF. */
  method PlanAuth(c: Config, style: Style, ops: seq<Op>) returns (fault: Option<Field>, ops': seq<Op>)
    requires ops == PlanTo(c, style, AUTH)
    ensures fault.Some? ==> AuthFault(c, fault.value)
    ensures fault.None? ==> forall f :: !AuthFault(c, f)
    ensures fault.None? ==> ops' == PlanTo(c, style, EXTENSIONS)
  {
    ops' := ops + OfKind(c, style, 6);
    var authOn := c.authentication == Some(true);
    if c.hmacIdentifiers.Some? {
      if !authOn { return Some(HMACIdentifiers), ops'; }
      var good := CheckHmacs(c.hmacIdentifiers.value);
      if !good { return Some(HMACIdentifiers), ops'; }
    }
    ops' := ops' + OfKind(c, style, 7);
    ghost var before := ops';
    if c.authChunks.Some? {
      if !authOn { return Some(AuthChunks), ops'; }
      var good := CheckChunks(c.authChunks.value);
      if !good { return Some(AuthChunks), ops'; }
      ops' := AppendChunks(c.authChunks.value, ops');
    }
    assert ops' == before + OfKind(c, style, 8);
    if c.dynamicAddress == Some(true) && !authOn { return Some(DynamicAddress), ops'; }
    ops' := ops' + OfKind(c, style, 9);
    FourKinds(c, style, AUTH);
    return None, ops';
  }

  /** PR-SCTP, stream reconfiguration and its mask, I-DATA, ECN and the adaptation layer. */
  method PlanExtensions(c: Config, style: Style, ops: seq<Op>) returns (fault: Option<Field>, ops': seq<Op>)
    requires ops == PlanTo(c, style, EXTENSIONS)
    ensures fault.Some? ==> ExtensionsFault(c, style, fault.value)
    ensures fault.None? ==> forall f :: !ExtensionsFault(c, style, f)
    ensures fault.None? ==> ops' == PlanTo(c, style, TIMERS)
  {
    ops' := ops + OfKind(c, style, 10) + OfKind(c, style, 11);
    var reconfigOn := c.streamReconfiguration == Some(true);
    if c.streamResetMask.Some? {
      if !GoodMask(c.streamResetMask.value) { return Some(StreamResetMask), ops'; }
      if c.streamResetMask.value != 0 && !reconfigOn { return Some(StreamResetMask), ops'; }
    }
    ops' := ops' + OfKind(c, style, 12);
    if c.messageInterleaving && Level(c, style) < 1 { return Some(MessageInterleaving), ops'; }
    ops' := ops' + OfKind(c, style, 13) + OfKind(c, style, 14) + OfKind(c, style, 15);
    ThreeKinds(c, style, EXTENSIONS);
    ThreeKinds(c, style, EXTENSIONS + 3);
    return None, ops';
  }

  /** Timers, and the socket's own behaviour. */
  method PlanTimers(c: Config, style: Style, ops: seq<Op>) returns (fault: Option<Field>, ops': seq<Op>)
    requires ops == PlanTo(c, style, TIMERS)
    ensures fault.Some? ==> TimersFault(c, style, fault.value)
    ensures fault.None? ==> forall f :: !TimersFault(c, style, f)
    ensures fault.None? ==> ops' == PlanTo(c, style, DEFAULTS)
  {
    ops' := ops;
    if c.rtoInfo.Some? {
      var good := CheckRTO(c.rtoInfo.value);
      if !good { return Some(RTO), ops'; }
    }
    ops' := ops' + OfKind(c, style, 16);
    if c.delayedSACK.Some? {
      var ms := Millis(c.delayedSACK.value.delay, MAX_U32);
      if ms.None? || ms.value > 500 { return Some(SACK), ops'; }
    }
    ops' := ops' + OfKind(c, style, 17) + OfKind(c, style, 18);
    if c.reusePort.Some? && style.IsEndpoint() { return Some(ReusePort), ops'; }
    ops' := ops' + OfKind(c, style, 19) + OfKind(c, style, 20) + OfKind(c, style, 21);
    ThreeKinds(c, style, TIMERS);
    ThreeKinds(c, style, TIMERS + 3);
    return None, ops';
  }

  /** The default send parameters, and the notifications. */
  method PlanDefaults(c: Config, style: Style, ops: seq<Op>)
    returns (fault: Option<Field>, subscribed: EventSet, ops': seq<Op>)
    requires ops == PlanTo(c, style, DEFAULTS)
    ensures fault.Some? ==> DefaultsFault(c, fault.value)
    ensures fault.None? ==> forall f :: !DefaultsFault(c, f)
    ensures fault.None? ==> ops' == PlanTo(c, style, KINDS)
    ensures fault.None? ==> forall t :: Has(subscribed, t) <==> t in Listed(c)
  {
    ops', subscribed := ops, NONE;
    if c.defaultSndInfo.Some? && !SendDefaults.ValidDefaultFlags(c.defaultSndInfo.value.flags) {
      return Some(DefaultSndInfo), NONE, ops';
    }
    ops' := ops' + OfKind(c, style, 22);
    if c.defaultPrInfo.Some? && !SendDefaults.ValidPr(c.defaultPrInfo.value) { return Some(DefaultPrInfo), NONE, ops'; }
    ops' := ops' + OfKind(c, style, 23);
    var good;
    good, subscribed, ops' := BuildSubscriptions(Listed(c), ops');
    if !good { return Some(Notifications), NONE, ops'; }
    assert OfKind(c, style, 24) == EventOps(Firsts(Listed(c)));
    ThreeKinds(c, style, DEFAULTS);
    return None, subscribed, ops';
  }

  datatype Outcome =
    | Refused(field: Field, unsupported: bool)
    | Prepared(
        ops: seq<Op>, closeTimeout: int, abandonPolicy: nat, setupRTOInitialMS: int,
        subscribed: EventSet, level: nat, adopted: bool)

  const CLOSE_TIMEOUT := 3_000_000_000

  lemma FourKinds(c: Config, style: Style, k: nat)
    ensures PlanTo(c, style, k + 4)
         == PlanTo(c, style, k) + OfKind(c, style, k) + OfKind(c, style, k + 1) + OfKind(c, style, k + 2) + OfKind(c, style, k + 3)
  {
    ThreeKinds(c, style, k);
  }

  lemma ThreeKinds(c: Config, style: Style, k: nat)
    ensures PlanTo(c, style, k + 3) == PlanTo(c, style, k) + OfKind(c, style, k) + OfKind(c, style, k + 1) + OfKind(c, style, k + 2)
  {
    assert PlanTo(c, style, k + 1) == PlanTo(c, style, k) + OfKind(c, style, k);
    assert PlanTo(c, style, k + 2) == PlanTo(c, style, k + 1) + OfKind(c, style, k + 1);
  }

  lemma StartOf(c: Config, style: Style)
    ensures PlanTo(c, style, BASICS) == [OpRecvRcvInfo, OpAssocChange]
  {
    assert PlanTo(c, style, 1) == [] + OfKind(c, style, 0);
  }

  /** The plan of a socket the package creates, all kinds in order. */
  method PlanAll(c: Config, style: Style) returns (fault: Option<Field>, subscribed: EventSet, ops: seq<Op>)
    ensures fault.Some? ==> PlanFault(c, style, fault.value)
    ensures fault.None? ==> forall f :: !PlanFault(c, style, f)
    ensures fault.None? ==> ops == PlanTo(c, style, KINDS)
    ensures fault.None? ==> forall t :: Has(subscribed, t) <==> t in Listed(c)
  {
    ops, subscribed := [OpRecvRcvInfo, OpAssocChange], NONE;
    StartOf(c, style);
    fault, ops := PlanBasics(c, style, ops);
    if fault.Some? { return fault, NONE, ops; }
    fault, ops := PlanAuth(c, style, ops);
    if fault.Some? { return fault, NONE, ops; }
    fault, ops := PlanExtensions(c, style, ops);
    if fault.Some? { return fault, NONE, ops; }
    fault, ops := PlanTimers(c, style, ops);
    if fault.Some? { return fault, NONE, ops; }
    fault, subscribed, ops := PlanDefaults(c, style, ops);
  }

  method CheckFile(c: Config) returns (fault: Option<Field>)
    ensures fault.Some? ==> IsSet(c, fault.value)
    ensures fault.None? ==> forall f :: !IsSet(c, f)
  {
    var fields := [Control, AbandonPolicy, SetupRTOInitial, InitMessage, AdaptationLayer, HMACIdentifiers, AuthChunks,
      PartialReliability, StreamReconfiguration, DynamicAddress, Authentication, ExperimentalECN, MessageInterleaving,
      ReadBuffer, WriteBuffer, NoDelay, DefaultSndInfo, DefaultPrInfo, ReusePort, FragmentsDisabled, FragmentInterleave,
      ReceiveNxtInfo, StreamResetMask, RTO, SACK, Notifications];
    for i := 0 to |fields|
      invariant forall k :: 0 <= k < i ==> !IsSet(c, fields[k])
    {
      if IsSet(c, fields[i]) { return Some(fields[i]); }
    }
    forall f ensures !IsSet(c, f) {
      if f != CloseTimeout { assert f in fields; }
    }
    return None;
  }

  /**
    prepare. A Config is accepted exactly when no field of it is at fault, and a refusal names one
    that is; what is accepted is planned in full, with the caller's subscriptions as a set of bits.
  */
  method Prepare(c: Config, style: Style) returns (r: Outcome)
    ensures r.Prepared? <==> Accepted(c, style)
    ensures r.Refused? ==> AtFault(c, style, r.field)
    ensures r.Refused? ==> (r.unsupported <==> r.field == FragmentInterleave && style != File && c.fragmentInterleave == Some(2))
    ensures r.Prepared? ==> r.ops == PlanTo(c, style, KINDS)
    ensures r.Prepared? ==> forall t :: Has(r.subscribed, t) <==> t in Listed(c) || (style.IsEndpoint() && t == 0x8001)
    ensures r.Prepared? ==> r.closeTimeout == (if c.closeTimeout == 0 then 3_000_000_000 else c.closeTimeout) > 0
    ensures r.Prepared? ==> r.setupRTOInitialMS * 1_000_000 == c.setupRTOInitial && r.abandonPolicy == c.abandonPolicy <= 1
    ensures r.Prepared? ==> r.level <= 1 && r.adopted == (style == File)
    ensures r.Prepared? && c.fragmentInterleave.Some? ==> r.level == c.fragmentInterleave.value
    ensures r.Prepared? && c.fragmentInterleave.None? ==> r.level == if style == ListenEndpoint || style == OpenEndpoint then 1 else 0
  {
    if c.closeTimeout < 0 {
      assert AtFault(c, style, CloseTimeout);
      return Refused(CloseTimeout, false);
    }
    var closeTimeout := if c.closeTimeout == 0 then CLOSE_TIMEOUT else c.closeTimeout;
    if style == File {
      r := PrepareFile(c, closeTimeout);
      if r.Prepared? { NothingSet(c); }
    } else {
      r := PrepareNew(c, style, closeTimeout);
    }
  }

  lemma {:induction false} FilePlanTo(c: Config, k: nat)
    requires (forall f :: !IsSet(c, f)) && BASICS <= k <= KINDS
    ensures PlanTo(c, File, k) == [OpRecvRcvInfo, OpAssocChange]
  {
    if k == 2 {
      assert PlanTo(c, File, 1) == [] + OfKind(c, File, 0);
    } else {
      FilePlanTo(c, k - 1);
      NothingOfKind(c, k - 1);
    }
  }

  /** The field that asks for the operations of a kind. */
  function FieldOf(k: nat): Field
    requires BASICS <= k < KINDS
  {
    [ReadBuffer, WriteBuffer, InitMessage, FragmentInterleave, Authentication, HMACIdentifiers, AuthChunks, DynamicAddress,
     PartialReliability, StreamReconfiguration, StreamResetMask, MessageInterleaving, ExperimentalECN, AdaptationLayer,
     RTO, SACK, FragmentsDisabled, ReusePort, ReceiveNxtInfo, NoDelay, DefaultSndInfo, DefaultPrInfo, Notifications][k - 2]
  }

  lemma NothingOfKind(c: Config, k: nat)
    requires BASICS <= k < KINDS && !IsSet(c, FieldOf(k))
    ensures OfKind(c, File, k) == []
  {
  }

  /** Nothing set, and this close timeout. */
  function Blank(closeTimeout: int): Config {
    Config(false, closeTimeout, 0, 0, InitMsg(0, 0, 0, 0), None, None, None, None, None, None, None, None, false,
           None, None, None, None, None, None, None, None, None, None, None, None, None)
  }

  lemma BlankSetsNothing(closeTimeout: int, f: Field)
    ensures !IsSet(Blank(closeTimeout), f)
  {
  }

  lemma NoneFirst(c: Config)
    requires forall f :: !IsSet(c, f)
    ensures !c.control && c.abandonPolicy == 0 && c.setupRTOInitial == 0 && c.initMsg == NO_INIT
    ensures c.adaptationLayer == None && c.hmacIdentifiers == None && c.authChunks == None
  {
    assert !IsSet(c, Control) && !IsSet(c, AbandonPolicy) && !IsSet(c, SetupRTOInitial) && !IsSet(c, InitMessage);
    assert !IsSet(c, AdaptationLayer) && !IsSet(c, HMACIdentifiers) && !IsSet(c, AuthChunks);
  }

  lemma NoneSecond(c: Config)
    requires forall f :: !IsSet(c, f)
    ensures c.partialReliability == None && c.streamReconfiguration == None && c.dynamicAddress == None && c.authentication == None
    ensures c.experimentalECN == None && !c.messageInterleaving && c.readBuffer == None
  {
    assert !IsSet(c, PartialReliability) && !IsSet(c, StreamReconfiguration) && !IsSet(c, DynamicAddress) && !IsSet(c, Authentication);
    assert !IsSet(c, ExperimentalECN) && !IsSet(c, MessageInterleaving) && !IsSet(c, ReadBuffer);
  }

  lemma NoneThird(c: Config)
    requires forall f :: !IsSet(c, f)
    ensures c.writeBuffer == None && c.noDelay == None && c.defaultSndInfo == None && c.defaultPrInfo == None
    ensures c.reusePort == None && c.fragmentsDisabled == None
  {
    assert !IsSet(c, WriteBuffer) && !IsSet(c, NoDelay) && !IsSet(c, DefaultSndInfo) && !IsSet(c, DefaultPrInfo);
    assert !IsSet(c, ReusePort) && !IsSet(c, FragmentsDisabled);
  }

  lemma NoneLast(c: Config)
    requires forall f :: !IsSet(c, f)
    ensures c.fragmentInterleave == None && c.receiveNxtInfo == None && c.streamResetMask == None && c.rtoInfo == None
    ensures c.delayedSACK == None && c.notifications == None
  {
    assert !IsSet(c, FragmentInterleave) && !IsSet(c, ReceiveNxtInfo) && !IsSet(c, StreamResetMask) && !IsSet(c, RTO);
    assert !IsSet(c, SACK) && !IsSet(c, Notifications);
  }

  lemma OnlyBlank(c: Config)
    requires forall f :: !IsSet(c, f)
    ensures c == Blank(c.closeTimeout)
  {
    NoneFirst(c);
    NoneSecond(c);
    NoneThird(c);
    NoneLast(c);
  }

  /** On an adopted descriptor, to be at fault is to be set, or a negative timeout. */
  lemma FileFault(c: Config, f: Field)
    ensures AtFault(c, File, f) <==> IsSet(c, f) || (f == CloseTimeout && c.closeTimeout < 0)
  {
  }

  /** So an adopted descriptor accepts a Config if and only if nothing but the handler and the timeout is set. */
  lemma FileExact(c: Config)
    ensures Accepted(c, File) <==> c == Blank(c.closeTimeout) && c.closeTimeout >= 0
  {
    forall f ensures AtFault(c, File, f) <==> IsSet(c, f) || (f == CloseTimeout && c.closeTimeout < 0) {
      FileFault(c, f);
    }
    if Accepted(c, File) {
      FileFault(c, CloseTimeout);
      forall f ensures !IsSet(c, f) {
        FileFault(c, f);
      }
      OnlyBlank(c);
    } else if c == Blank(c.closeTimeout) {
      forall f ensures !IsSet(c, f) {
        BlankSetsNothing(c.closeTimeout, f);
      }
    }
  }

  lemma NothingSet(c: Config)
    requires forall f :: !IsSet(c, f)
    ensures c.abandonPolicy == 0 && c.setupRTOInitial == 0 && Level(c, File) == 0 && Listed(c) == []
  {
    assert !IsSet(c, AbandonPolicy) && !IsSet(c, SetupRTOInitial) && !IsSet(c, FragmentInterleave) && !IsSet(c, Notifications);
  }

  /** prepareFileStyle: an adopted descriptor takes the two internal operations and nothing else. */
  method PrepareFile(c: Config, closeTimeout: int) returns (r: Outcome)
    requires c.closeTimeout >= 0
    ensures r.Prepared? <==> Accepted(c, File)
    ensures r.Refused? ==> AtFault(c, File, r.field) && !r.unsupported
    ensures r.Prepared? ==> (forall f :: !IsSet(c, f)) && PlanTo(c, File, KINDS) == [OpRecvRcvInfo, OpAssocChange]
    ensures r.Prepared? ==> r == Prepared([OpRecvRcvInfo, OpAssocChange], closeTimeout, 0, 0, NONE, 0, true)
  {
    var fault := CheckFile(c);
    if fault.Some? {
      assert AtFault(c, File, fault.value);
      return Refused(fault.value, false);
    }
    FilePlanTo(c, KINDS);
    return Prepared([OpRecvRcvInfo, OpAssocChange], closeTimeout, 0, 0, NONE, 0, true);
  }

  /** A socket that the package creates. */
  method PrepareNew(c: Config, style: Style, closeTimeout: int) returns (r: Outcome)
    requires style != File && c.closeTimeout >= 0
    ensures r.Prepared? <==> Accepted(c, style)
    ensures r.Refused? ==> AtFault(c, style, r.field)
    ensures r.Refused? ==> (r.unsupported <==> r.field == FragmentInterleave && c.fragmentInterleave == Some(2))
    ensures r.Prepared? ==> r.ops == PlanTo(c, style, KINDS)
    ensures r.Prepared? ==> forall t :: Has(r.subscribed, t) <==> t in Listed(c) || (style.IsEndpoint() && t == 0x8001)
    ensures r.Prepared? ==> r.closeTimeout == closeTimeout && r.abandonPolicy == c.abandonPolicy <= 1
    ensures r.Prepared? ==> r.setupRTOInitialMS * 1_000_000 == c.setupRTOInitial
    ensures r.Prepared? ==> r.level == Level(c, style) <= 1 && !r.adopted
  {
    var call, setup := CheckCall(c, style);
    if call.Some? {
      assert AtFault(c, style, call.value);
      return Refused(call.value, false);
    }
    var fault, subscribed, ops := PlanAll(c, style);
    if fault.Some? {
      assert AtFault(c, style, fault.value);
      return Refused(fault.value, fault.value == FragmentInterleave && c.fragmentInterleave == Some(2));
    }
    assert !BasicsFault(c, FragmentInterleave) by { assert !PlanFault(c, style, FragmentInterleave); }
    if style.IsEndpoint() { subscribed := With(subscribed, 0x8001); }
    return Prepared(ops, closeTimeout, c.abandonPolicy, setup, subscribed, Level(c, style), false);
  }

  method CheckCall(c: Config, style: Style) returns (fault: Option<Field>, setupMS: int)
    ensures fault.Some? ==> CallFault(c, style, fault.value)
    ensures fault.None? ==> forall f :: !CallFault(c, style, f)
    ensures fault.None? ==> setupMS * 1_000_000 == c.setupRTOInitial && c.abandonPolicy <= 1
  {
    if c.abandonPolicy > 1 { return Some(AbandonPolicy), 0; }
    if c.abandonPolicy != 0 && style != Dial { return Some(AbandonPolicy), 0; }
    if c.setupRTOInitial != 0 && style != Dial { return Some(SetupRTOInitial), 0; }
    var ms := Millis(c.setupRTOInitial, MAX_U32);
    if ms.None? { return Some(SetupRTOInitial), 0; }
    return None, ms.value;
  }
}
