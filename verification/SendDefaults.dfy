/**
  The default send parameters (send_linux.go, msginfo.go, options.go).

  Linux keeps the default flags and the default PR-SCTP policy in one word, overwrites the whole
  word when the default SndInfo is set, and applies defaults only to a message without SNDINFO,
  and the word only to one without PRINFO either. The package reads the defaults into a cache,
  restores the policy, and sends explicitly what Linux would not apply, so that a nil Info or PR
  always means the default.
*/
module SendDefaults {
  import opened Wrappers
  import opened Bytes

  const UNORDERED: bv16 := 0x0001
  const SACK_IMMEDIATELY: bv16 := 0x0008
  const PR_MASK: bv16 := 0x0030
  const PR_NONE: bv16 := 0x0000
  const PR_TTL: bv16 := 0x0010

  const MILLISECOND: int := 1_000_000
  const MAX_U32: int := 0xFFFF_FFFF

  datatype SndInfo = SndInfo(stream: u16, flags: bv16, ppid: u32, context: u32)

  /** `ttl` is a duration in nanoseconds. */
  datatype PrInfo = PrInfo(policy: bv16, ttl: int, value: u32)

  const NO_PR := PrInfo(PR_NONE, 0, 0)

  // ----- Validation and the kernel's form of a policy -----

  predicate ValidSendFlags(flags: bv16) {
    flags & !(UNORDERED | SACK_IMMEDIATELY) == 0
  }

  predicate ValidDefaultFlags(flags: bv16) {
    flags & !UNORDERED == 0
  }

  predicate ValidPr(pr: PrInfo) {
    && pr.policy & !PR_MASK == 0
    && (pr.policy == PR_TTL ==>
          pr.value == 0 && pr.ttl > 0 && pr.ttl % MILLISECOND == 0 && pr.ttl / MILLISECOND <= MAX_U32)
    && (pr.policy != PR_TTL ==> pr.ttl == 0)
    && (pr.policy == PR_NONE ==> pr.value == 0)
  }

  /** The flags a message may carry: unordered, and an immediate SACK; a default only the first. */
  lemma FlagsExact(flags: bv16)
    ensures ValidDefaultFlags(flags) <==> flags == 0 || flags == 1
    ensures ValidSendFlags(flags) <==> flags == 0 || flags == 1 || flags == 8 || flags == 9
  {
  }

  /** A lifetime that fits the kernel's millisecond count: all a validated or a read-back PrInfo has. */
  predicate Fits(pr: PrInfo) {
    pr.policy == PR_TTL ==> 0 <= pr.ttl && pr.ttl / MILLISECOND <= MAX_U32
  }

  /** resolvePrInfo. */
  function Resolve(pr: PrInfo): (bv16, u32)
    requires Fits(pr)
  {
    if pr.policy == PR_NONE then (pr.policy, 0)
    else if pr.policy == PR_TTL then (pr.policy, pr.ttl / MILLISECOND)
    else (pr.policy, pr.value)
  }

  /** prInfoFromKernel. */
  function FromKernel(policy: bv16, value: u32): PrInfo {
    var p := policy & PR_MASK;
    if p == PR_NONE then NO_PR
    else if p == PR_TTL then PrInfo(p, value * MILLISECOND, 0)
    else PrInfo(p, 0, value)
  }

  /** The two are inverse: no validated PrInfo changes on its way through the kernel. */
  lemma PrRoundTrip(pr: PrInfo)
    requires ValidPr(pr)
    ensures FromKernel(Resolve(pr).0, Resolve(pr).1) == pr
  {
    assert pr.policy & PR_MASK == pr.policy;
  }

  // ----- The kernel's side -----

  /** The defaults of an association: `word` holds flags and policy, `ppid` is in wire order. */
  datatype Kernel = Kernel(stream: u16, word: bv16, ppid: seq<byte>, context: u32, ttl: u32)

  function SetSndOpt(k: Kernel, stream: u16, flags: bv16, ppid: seq<byte>, context: u32): Kernel {
    k.(stream := stream, word := flags, ppid := ppid, context := context)
  }

  function SetPrOpt(k: Kernel, policy: bv16, value: u32): Kernel {
    k.(word := (k.word & !PR_MASK) | policy, ttl := if policy == PR_NONE then 0 else value)
  }

  function GetPrOpt(k: Kernel): (bv16, u32) {
    (k.word & PR_MASK, k.ttl)
  }

  /** What getDefaultSndInfo and getDefaultPrInfo read. */
  function DefaultSnd(k: Kernel): SndInfo
    requires |k.ppid| == 4
  {
    SndInfo(k.stream, k.word & UNORDERED, At32(Big, k.ppid, 0), k.context)
  }

  function DefaultPr(k: Kernel): PrInfo {
    FromKernel(GetPrOpt(k).0, GetPrOpt(k).1)
  }

  /** The word holds only the unordered flag and a policy, and no policy has no lifetime. */
  predicate Clean(k: Kernel) {
    && |k.ppid| == 4
    && k.word & !(UNORDERED | PR_MASK) == 0
    && (k.word & PR_MASK == PR_NONE ==> k.ttl == 0)
  }

  /** The control records of a send: SNDINFO, PRINFO in the kernel's form, and an AUTH key. */
  datatype Cmsgs = Cmsgs(snd: Option<SndInfo>, pr: Option<(bv16, u32)>, key: Option<u16>)

  /** What Linux ends up sending with. */
  datatype Effective = Effective(
    stream: u16, flags: bv16, ppid: seq<byte>, context: u32, policy: bv16, ttl: u32, key: Option<u16>)

  /** sctp_sendmsg_parse and sctp_sendmsg_update_sinfo. */
  function KernelSend(k: Kernel, c: Cmsgs): Effective {
    var sinfoFlags: bv16 := if c.snd.Some? then c.snd.value.flags else 0;
    var parsed: bv16 := if c.pr.Some? then (sinfoFlags & !PR_MASK) | c.pr.value.0 else sinfoFlags;
    var word: bv16 := if c.snd.None? && c.pr.None? then k.word else parsed;
    var ttl := if c.pr.None? then k.ttl else if c.pr.value.0 == PR_NONE then 0 else c.pr.value.1;
    Effective(
      if c.snd.Some? then c.snd.value.stream else k.stream,
      word & !PR_MASK,
      if c.snd.Some? then Put32(Big, c.snd.value.ppid) else k.ppid,
      if c.snd.Some? then c.snd.value.context else k.context,
      word & PR_MASK, ttl, c.key)
  }

  // ----- The package's side -----

  datatype Options = Options(info: Option<SndInfo>, pr: Option<PrInfo>, key: Option<u16>)

  predicate ValidOptions(o: Options) {
    (o.info.Some? ==> ValidSendFlags(o.info.value.flags)) && (o.pr.Some? ==> ValidPr(o.pr.value))
  }

  /** Which system call of a setter fails, if any. */
  datatype Fate = Succeeds | FailsFirst | FailsSecond | FailsRestore

  datatype Status = Ok | Refused | Failed

  /** setDefaultSndInfo: read the policy, set the SndInfo, set the policy again unless it is none. */
  function SetSndSequence(k: Kernel, info: SndInfo, fate: Fate): (Kernel, Status) {
    var (policy, value) := GetPrOpt(k);
    if fate == FailsFirst || fate == FailsSecond then (k, Failed)
    else
      var k1 := SetSndOpt(k, info.stream, info.flags, Put32(Big, info.ppid), info.context);
      if policy == PR_NONE then (k1, Ok)
      else if fate == FailsRestore then (k1, Failed)
      else (SetPrOpt(k1, policy, value), Ok)
  }

  datatype Pair = Pair(k: Kernel, defSnd: SndInfo, defPR: PrInfo)

  datatype Setting = SetSnd(info: Option<SndInfo>, fate: Fate) | SetPr(pr: Option<PrInfo>, fate: Fate)

  /** One call of SetDefaultSndInfo or SetDefaultPrInfo, refused, failed or not. */
  function Apply(p: Pair, op: Setting): (Pair, Status) {
    match op
    case SetSnd(info, fate) =>
      if info.None? || !ValidDefaultFlags(info.value.flags) then (p, Refused)
      else
        var (k, status) := SetSndSequence(p.k, info.value, fate);
        (if status == Ok then Pair(k, info.value, p.defPR) else p.(k := k), status)
    case SetPr(pr, fate) =>
      if pr.None? || !ValidPr(pr.value) then (p, Refused)
      else if fate != Succeeds then (p, Failed)
      else
        var (policy, value) := Resolve(pr.value);
        (Pair(SetPrOpt(p.k, policy, value), p.defSnd, FromKernel(policy, value)), Ok)
  }

  /** The send path's cache, beside the socket whose defaults it mirrors. */
  class Socket {
    var k: Kernel
    var defSnd: SndInfo
    var defPR: PrInfo

    /** Binding a connection reads the defaults into the cache. */
    constructor (k: Kernel)
      requires Clean(k)
      ensures View() == Pair(k, DefaultSnd(k), DefaultPr(k))
    {
      this.k, defSnd, defPR := k, DefaultSnd(k), DefaultPr(k);
    }

    function View(): Pair
      reads this
    {
      Pair(k, defSnd, defPR)
    }

    method SetDefaultSndInfo(info: Option<SndInfo>, order: Order, fate: Fate) returns (status: Status)
      modifies this
      ensures (View(), status) == Apply(old(View()), SetSnd(info, fate))
    {
      if info.None? { return Refused; }
      if info.value.flags & !UNORDERED != 0 { return Refused; }
      if fate == FailsFirst { return Failed; }
      var (policy, value) := GetPrOpt(k);
      if fate == FailsSecond { return Failed; }
      var v := info.value;
      NetworkOrder(order, v.ppid);
      k := SetSndOpt(k, v.stream, v.flags, Put(order, NetworkOrderUint32(order, v.ppid), 4), v.context);
      if policy != PR_NONE {
        if fate == FailsRestore { return Failed; }
        k := SetPrOpt(k, policy, value);
      }
      defSnd := v;
      return Ok;
    }

    method SetDefaultPrInfo(pr: Option<PrInfo>, fate: Fate) returns (status: Status)
      modifies this
      ensures (View(), status) == Apply(old(View()), SetPr(pr, fate))
    {
      if pr.None? || !ValidPr(pr.value) { return Refused; }
      var (policy, value) := Resolve(pr.value);
      if fate != Succeeds { return Failed; }
      k := SetPrOpt(k, policy, value);
      defPR := FromKernel(policy, value);
      return Ok;
    }

    /** encode: the records one send carries. `explicit` is set for an Endpoint. */
    method Encode(explicit: bool, o: Options) returns (c: Cmsgs)
      requires ValidOptions(o) && Fits(defPR)
      ensures c == Encoded(defSnd, defPR, explicit, o)
    {
      var snd: Option<SndInfo>, pr: Option<PrInfo> := None, None;
      if explicit || o.info.Some? || o.pr.Some? {
        snd := if o.info.Some? then o.info else Some(defSnd);
        pr := o.pr;
        if pr.None? && defPR.policy != PR_NONE {
          pr := Some(defPR);
        }
      }
      return Cmsgs(snd, if pr.Some? then Some(Resolve(pr.value)) else None, o.key);
    }
  }

  function NetworkOrderUint32(order: Order, v: u32): nat {
    Get(order, Put32(Big, v))
  }

  /** Writing the pre-swapped PPID in host order puts the PPID's network-order bytes in memory. */
  lemma NetworkOrder(order: Order, v: u32)
    ensures Put(order, NetworkOrderUint32(order, v), 4) == Put32(Big, v)
  {
    GetPut(order, Put32(Big, v));
  }

  function Encoded(defSnd: SndInfo, defPR: PrInfo, explicit: bool, o: Options): Cmsgs
    requires ValidOptions(o) && Fits(defPR)
  {
    if !explicit && o.info.None? && o.pr.None? then Cmsgs(None, None, o.key)
    else
      var pr := if o.pr.Some? then o.pr else if defPR.policy != PR_NONE then Some(defPR) else None;
      Cmsgs(Some(if o.info.Some? then o.info.value else defSnd),
            if pr.Some? then Some(Resolve(pr.value)) else None, o.key)
  }

  // ----- The theorems -----

  /** The cache says what the kernel's defaults are. */
  predicate Agree(p: Pair) {
    Clean(p.k) && p.defSnd == DefaultSnd(p.k) && p.defPR == DefaultPr(p.k)
  }

  /** What a default read back resolves to is what the kernel holds. */
  lemma ReadBack(k: Kernel)
    requires Clean(k)
    ensures Fits(DefaultPr(k)) && Resolve(DefaultPr(k)) == GetPrOpt(k)
    ensures DefaultPr(k).policy == k.word & PR_MASK
    ensures k.ppid == Put32(Big, DefaultSnd(k).ppid)
  {
    assert (k.word & PR_MASK) & PR_MASK == k.word & PR_MASK;
    assert k.ppid[0..4] == k.ppid;
    GetPut(Big, k.ppid);
  }

  /**
    A successful SetDefaultSndInfo makes the default SndInfo the caller's and leaves the default
    PrInfo alone, although Linux clears the policy on the way.
  */
  lemma SetSndIndependent(p: Pair, info: SndInfo)
    requires Agree(p) && ValidDefaultFlags(info.flags)
    ensures var (p', status) := Apply(p, SetSnd(Some(info), Succeeds));
      status == Ok && Clean(p'.k) && DefaultSnd(p'.k) == info && DefaultPr(p'.k) == DefaultPr(p.k)
  {
    var (policy, value) := GetPrOpt(p.k);
    WordOfFlags(info.flags, policy);
    var bytes := Put32(Big, info.ppid);
    assert bytes[0..4] == bytes;
    Get32(Big, info.ppid);
  }

  /** Valid default flags and a policy share the word without touching each other. */
  lemma WordOfFlags(flags: bv16, policy: bv16)
    requires ValidDefaultFlags(flags) && policy & !PR_MASK == 0
    ensures var word := (flags & !PR_MASK) | policy;
      word & UNORDERED == flags && word & PR_MASK == policy && word & !(UNORDERED | PR_MASK) == 0
    ensures flags & UNORDERED == flags && flags & PR_MASK == PR_NONE && flags & !(UNORDERED | PR_MASK) == 0
  {
  }

  /** A successful SetDefaultPrInfo makes the default PrInfo the caller's and leaves the SndInfo alone. */
  lemma SetPrIndependent(p: Pair, pr: PrInfo)
    requires Agree(p) && ValidPr(pr)
    ensures var (p', status) := Apply(p, SetPr(Some(pr), Succeeds));
      status == Ok && Clean(p'.k) && DefaultPr(p'.k) == pr && DefaultSnd(p'.k) == DefaultSnd(p.k)
  {
    PrRoundTrip(pr);
    WordOfPolicy(p.k.word, pr.policy);
  }

  lemma WordOfPolicy(word: bv16, policy: bv16)
    requires word & !(UNORDERED | PR_MASK) == 0 && policy & !PR_MASK == 0
    ensures var word' := (word & !PR_MASK) | policy;
      word' & UNORDERED == word & UNORDERED && word' & PR_MASK == policy && word' & !(UNORDERED | PR_MASK) == 0
    ensures policy & PR_MASK == policy
  {
  }

  // ----- Histories of settings -----

  /** The two defaults, as callers know them. */
  datatype Defaults = Defaults(snd: SndInfo, pr: PrInfo)

  function Cached(p: Pair): Defaults {
    Defaults(p.defSnd, p.defPR)
  }

  /** A valid default SndInfo was set, and the policy that Linux cleared with it could not be set again. */
  predicate RestoreFails(d: Defaults, op: Setting) {
    && op.SetSnd? && op.fate == FailsRestore
    && op.info.Some? && ValidDefaultFlags(op.info.value.flags)
    && d.pr.policy != PR_NONE
  }

  /** The defaults after one call: the caller's value when it is valid and no system call failed. */
  function Set(d: Defaults, op: Setting): Defaults {
    match op
    case SetSnd(info, fate) =>
      if info.Some? && ValidDefaultFlags(info.value.flags) && fate != FailsFirst && fate != FailsSecond
      then d.(snd := info.value) else d
    case SetPr(pr, fate) =>
      if pr.Some? && ValidPr(pr.value) && fate == Succeeds then d.(pr := pr.value) else d
  }

  /**
    A setting keeps cache and kernel in agreement if and only if it is not a restore that failed,
    and then both defaults are what the call set and what it did not.
  */
  lemma AgreementKept(p: Pair, op: Setting)
    requires Agree(p)
    ensures Agree(Apply(p, op).0) <==> !RestoreFails(Cached(p), op)
    ensures !RestoreFails(Cached(p), op) ==> Cached(Apply(p, op).0) == Set(Cached(p), op)
  {
    ReadBack(p.k);
    match op
    case SetSnd(info, fate) =>
      if info.Some? && ValidDefaultFlags(info.value.flags) {
        SetSndIndependent(p, info.value);
        WordOfFlags(info.value.flags, PR_NONE);
      }
    case SetPr(pr, fate) =>
      if pr.Some? && ValidPr(pr.value) {
        SetPrIndependent(p, pr.value);
        PrRoundTrip(pr.value);
      }
  }

  /** A call that parts them: a lifetime of one second was the default, and its restore fails. */
  lemma RestorePartsThem(info: SndInfo) returns (p: Pair)
    requires ValidDefaultFlags(info.flags)
    ensures Agree(p) && !Agree(Apply(p, SetSnd(Some(info), FailsRestore)).0)
  {
    var k := Kernel(0, PR_TTL, Put32(Big, 0), 0, 1000);
    p := Pair(k, DefaultSnd(k), DefaultPr(k));
    AgreementKept(p, SetSnd(Some(info), FailsRestore));
  }

  function ApplyAll(p: Pair, ops: seq<Setting>): Pair
    decreases |ops|
  {
    if ops == [] then p else ApplyAll(Apply(p, ops[0]).0, ops[1..])
  }

  /** The latest values set, by the calls alone. */
  function Latest(d: Defaults, ops: seq<Setting>): Defaults
    decreases |ops|
  {
    if ops == [] then d else Latest(Set(d, ops[0]), ops[1..])
  }

  predicate NoRestoreFails(d: Defaults, ops: seq<Setting>)
    decreases |ops|
  {
    ops == [] || (!RestoreFails(d, ops[0]) && NoRestoreFails(Set(d, ops[0]), ops[1..]))
  }

  /** After any history of settings, refused, failed or accepted, in which no restore fails, cache and kernel hold the latest values. */
  lemma {:induction false} CacheAgrees(p: Pair, ops: seq<Setting>)
    requires Agree(p) && NoRestoreFails(Cached(p), ops)
    ensures Agree(ApplyAll(p, ops)) && Cached(ApplyAll(p, ops)) == Latest(Cached(p), ops)
    decreases |ops|
  {
    if ops != [] {
      AgreementKept(p, ops[0]);
      CacheAgrees(Apply(p, ops[0]).0, ops[1..]);
    }
  }

  /** What a send means: the caller's Info or the default, with the caller's PR or the default. */
  function Meant(defSnd: SndInfo, defPR: PrInfo, o: Options): Effective
    requires ValidOptions(o) && Fits(defPR)
  {
    var snd := if o.info.Some? then o.info.value else defSnd;
    var (policy, value) := Resolve(if o.pr.Some? then o.pr.value else defPR);
    Effective(snd.stream, snd.flags, Put32(Big, snd.ppid), snd.context, policy, value, o.key)
  }

  /** Nothing set: Linux applies its own defaults, which are the cached ones. */
  lemma PlainSend(p: Pair, key: Option<u16>)
    requires Agree(p)
    ensures Fits(p.defPR)
    ensures KernelSend(p.k, Cmsgs(None, None, key)) == Meant(p.defSnd, p.defPR, Options(None, None, key))
  {
    ReadBack(p.k);
    WordOfPolicy(p.k.word, PR_NONE);
    CleanFlags(p.k.word);
  }

  lemma CleanFlags(word: bv16)
    requires word & !(UNORDERED | PR_MASK) == 0
    ensures word & !PR_MASK == word & UNORDERED && ValidSendFlags(word & UNORDERED)
    ensures (word & PR_MASK) & !PR_MASK == 0
  {
  }

  /** An explicit SNDINFO: the policy travels in its own record, or there is none and no lifetime. */
  lemma ExplicitSend(p: Pair, snd: SndInfo, pr: PrInfo, sent: Option<(bv16, u32)>, key: Option<u16>)
    requires Agree(p) && ValidSendFlags(snd.flags) && Fits(pr) && pr.policy & !PR_MASK == 0
    requires sent == Some(Resolve(pr)) || (sent == None && pr == p.defPR && pr.policy == PR_NONE)
    ensures KernelSend(p.k, Cmsgs(Some(snd), sent, key))
         == Effective(snd.stream, snd.flags, Put32(Big, snd.ppid), snd.context, Resolve(pr).0, Resolve(pr).1, key)
  {
    ReadBack(p.k);
    SendWord(snd.flags, pr.policy);
  }

  /** For every combination of Info, PR and AuthKey, Linux sends with exactly what the caller meant. */
  lemma SendsAsMeant(p: Pair, explicit: bool, o: Options)
    requires Agree(p) && ValidOptions(o)
    ensures Fits(p.defPR)
    ensures KernelSend(p.k, Encoded(p.defSnd, p.defPR, explicit, o)) == Meant(p.defSnd, p.defPR, o)
  {
    ReadBack(p.k);
    if !explicit && o.info.None? && o.pr.None? {
      PlainSend(p, o.key);
    } else {
      CleanFlags(p.k.word);
      var snd := if o.info.Some? then o.info.value else p.defSnd;
      var pr := if o.pr.Some? then o.pr.value else p.defPR;
      ExplicitSend(p, snd, pr, Encoded(p.defSnd, p.defPR, explicit, o).pr, o.key);
    }
  }

  /**
    The values themselves, for every send. A lifetime reaches Linux in milliseconds, the caller's
    or the default's; a limit of retransmissions or a priority reaches it as it is; and without a
    policy there is none of either. Stream, PPID and context are the caller's or the default's, and
    flags and policy do not touch each other.
  */
  lemma EffectiveValues(p: Pair, explicit: bool, o: Options)
    requires Agree(p) && ValidOptions(o)
    ensures Fits(p.defPR)
    ensures var e := KernelSend(p.k, Encoded(p.defSnd, p.defPR, explicit, o));
      var pr := if o.pr.Some? then o.pr.value else p.defPR;
      var snd := if o.info.Some? then o.info.value else p.defSnd;
      && e.policy == pr.policy
      && (pr.policy == 0x0010 ==> e.ttl * 1_000_000 == pr.ttl)
      && (pr.policy == 0x0020 || pr.policy == 0x0030 ==> e.ttl == pr.value)
      && (pr.policy == 0 ==> e.ttl == 0)
      && (e.stream, e.flags, e.context, e.key) == (snd.stream, snd.flags, snd.context, o.key)
      && At32(Big, e.ppid, 0) == snd.ppid
  {
    SendsAsMeant(p, explicit, o);
    ReadBack(p.k);
    var snd := if o.info.Some? then o.info.value else p.defSnd;
    assert Put32(Big, snd.ppid)[0..4] == Put32(Big, snd.ppid);
    Get32(Big, snd.ppid);
    WholeLifetime(p.k);
  }

  /** A default lifetime read back is a whole number of milliseconds. */
  lemma WholeLifetime(k: Kernel)
    requires Clean(k)
    ensures DefaultPr(k).policy == 0x0010 ==> Resolve(DefaultPr(k)).1 * 1_000_000 == DefaultPr(k).ttl
    ensures DefaultPr(k).policy == 0 || DefaultPr(k).policy == 0x0010 || DefaultPr(k).policy == 0x0020 || DefaultPr(k).policy == 0x0030
  {
    ReadBack(k);
    PolicyValues(k.word & PR_MASK);
  }

  lemma PolicyValues(policy: bv16)
    requires policy & !PR_MASK == 0
    ensures policy == 0 || policy == 0x0010 || policy == 0x0020 || policy == 0x0030
  {
  }

  predicate WholeMillis(ttl: int) {
    1_000_000 <= ttl <= 0xFFFF_FFFF * 1_000_000 && ttl % 1_000_000 == 0
  }

  /** What a default or a message may ask for: a lifetime of whole milliseconds from one up, a value, or nothing. */
  lemma ValidPolicies(pr: PrInfo)
    ensures ValidPr(pr) <==>
      || (pr.policy == 0 && pr.ttl == 0 && pr.value == 0)
      || (pr.policy == 0x0010 && WholeMillis(pr.ttl) && pr.value == 0)
      || ((pr.policy == 0x0020 || pr.policy == 0x0030) && pr.ttl == 0)
  {
    if pr.policy & !PR_MASK == 0 { PolicyValues(pr.policy); }
  }

  lemma SendWord(flags: bv16, policy: bv16)
    requires ValidSendFlags(flags) && policy & !PR_MASK == 0
    ensures var word := (flags & !PR_MASK) | policy; word & !PR_MASK == flags && word & PR_MASK == policy
    ensures flags & !PR_MASK == flags && flags & PR_MASK == PR_NONE
  {
  }

  /** The whole history, then the send: nil means the latest default that was set, in the kernel too. */
  lemma HistoryThenSend(k: Kernel, ops: seq<Setting>, explicit: bool, o: Options)
    requires Clean(k) && ValidOptions(o) && NoRestoreFails(Defaults(DefaultSnd(k), DefaultPr(k)), ops)
    ensures var p := ApplyAll(Pair(k, DefaultSnd(k), DefaultPr(k)), ops);
      var latest := Latest(Defaults(DefaultSnd(k), DefaultPr(k)), ops);
      && |p.k.ppid| == 4 && latest == Defaults(DefaultSnd(p.k), DefaultPr(p.k)) && Fits(latest.pr) && Fits(p.defPR)
      && KernelSend(p.k, Encoded(p.defSnd, p.defPR, explicit, o)) == Meant(latest.snd, latest.pr, o)
  {
    var p0 := Pair(k, DefaultSnd(k), DefaultPr(k));
    CacheAgrees(p0, ops);
    SendsAsMeant(ApplyAll(p0, ops), explicit, o);
  }
}
