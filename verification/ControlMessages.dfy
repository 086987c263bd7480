/**
  Control messages (msginfo.go, endpoint.go): the records a send carries, written into a reused
  buffer, and the walk over the records a receive returned, with the routing checks of an Endpoint.

  Everything is stated for both word sizes and both byte orders (`Abi`).
*/
module ControlMessages {
  import opened Wrappers
  import opened Bytes

  const IPPROTO_SCTP: u32 := 132
  const CMSG_SNDINFO: u32 := 2
  const CMSG_RCVINFO: u32 := 3
  const CMSG_NXTINFO: u32 := 4
  const CMSG_PRINFO: u32 := 5
  const CMSG_AUTHINFO: u32 := 6

  const SIZE_SNDINFO := 16
  const SIZE_PRINFO := 8
  const SIZE_AUTHINFO := 2
  const SIZE_RCVINFO := 28
  const SIZE_NXTINFO := 16

  /** The machine's word size, in bytes, and byte order. */
  datatype Abi = Abi(word: nat, order: Order) {
    predicate Valid() {
      word == 4 || word == 8
    }

    /** sizeof(struct cmsghdr). */
    function Header(): nat {
      word + 8
    }

    /** CMSG_ALIGN. */
    function Align(n: nat): (a: nat)
      requires Valid()
      ensures n <= a < n + word
    {
      if word == 4 then n + 3 - (n + 3) % 4 else n + 7 - (n + 7) % 8
    }

    /** CMSG_SPACE and CMSG_LEN. */
    function Space(n: nat): nat
      requires Valid()
    {
      Header() + Align(n)
    }

    function Len(n: nat): nat {
      Header() + n
    }

    function SndCmsgSpace(): nat
      requires Valid()
    {
      Space(SIZE_SNDINFO) + Space(SIZE_PRINFO) + Space(SIZE_AUTHINFO)
    }
  }

  datatype SndInfo = SndInfo(stream: u16, flags: u16, ppid: u32, context: u32)

  /** A policy and its value in the kernel's form. */
  datatype PrWire = PrWire(policy: u16, value: u32)

  // ----- What a send encodes -----

  function SndPayload(abi: Abi, snd: SndInfo, assoc: u32): (p: seq<byte>)
    ensures |p| == SIZE_SNDINFO
  {
    Put16(abi.order, snd.stream) + Put16(abi.order, snd.flags) + Put32(Big, snd.ppid)
    + Put32(abi.order, snd.context) + Put32(abi.order, assoc)
  }

  function PrPayload(abi: Abi, pr: PrWire): (p: seq<byte>)
    ensures |p| == SIZE_PRINFO
  {
    Put16(abi.order, pr.policy) + Zeros(2) + Put32(abi.order, pr.value)
  }

  function AuthPayload(abi: Abi, key: u16): (p: seq<byte>)
    ensures |p| == SIZE_AUTHINFO
  {
    Put16(abi.order, key)
  }

  function HeaderBytes(abi: Abi, typ: u32, n: nat): (h: seq<byte>)
    ensures |h| == abi.Header()
  {
    Put(abi.order, abi.Len(n), abi.word) + Put32(abi.order, IPPROTO_SCTP) + Put32(abi.order, typ)
  }

  /** One whole record: header, payload, and zeros up to the next word. */
  function RecordBytes(abi: Abi, typ: u32, payload: seq<byte>): (r: seq<byte>)
    requires abi.Valid()
    ensures |r| == abi.Space(|payload|)
  {
    HeaderBytes(abi, typ, |payload|) + payload + Zeros(abi.Align(|payload|) - |payload|)
  }

  function OptRecord(abi: Abi, typ: u32, payload: Option<seq<byte>>): (r: seq<byte>)
    requires abi.Valid()
  {
    if payload.Some? then RecordBytes(abi, typ, payload.value) else []
  }

  function SndOpt(abi: Abi, snd: Option<SndInfo>, assoc: u32): Option<seq<byte>> {
    if snd.Some? then Some(SndPayload(abi, snd.value, assoc)) else None
  }

  function PrOpt(abi: Abi, pr: Option<PrWire>): Option<seq<byte>> {
    if pr.Some? then Some(PrPayload(abi, pr.value)) else None
  }

  function AuthOpt(abi: Abi, key: Option<u16>): Option<seq<byte>> {
    if key.Some? then Some(AuthPayload(abi, key.value)) else None
  }

  /** What the control buffer of a send holds: SNDINFO, PRINFO and AUTHINFO, those that are set. */
  function Encoding(abi: Abi, snd: Option<SndInfo>, assoc: u32, pr: Option<PrWire>, key: Option<u16>): seq<byte>
    requires abi.Valid()
  {
    OptRecord(abi, CMSG_SNDINFO, SndOpt(abi, snd, assoc))
    + OptRecord(abi, CMSG_PRINFO, PrOpt(abi, pr))
    + OptRecord(abi, CMSG_AUTHINFO, AuthOpt(abi, key))
  }

  /** The encoding takes the sum of its records' spaces, at most what the send buffer reserves. */
  lemma EncodingLength(abi: Abi, snd: Option<SndInfo>, assoc: u32, pr: Option<PrWire>, key: Option<u16>)
    requires abi.Valid()
    ensures |Encoding(abi, snd, assoc, pr, key)|
         == (if snd.Some? then abi.Space(SIZE_SNDINFO) else 0)
          + (if pr.Some? then abi.Space(SIZE_PRINFO) else 0)
          + (if key.Some? then abi.Space(SIZE_AUTHINFO) else 0)
         <= abi.SndCmsgSpace()
    ensures abi.Space(SIZE_SNDINFO) == (if abi.word == 8 then 32 else 28)
    ensures abi.Space(SIZE_PRINFO) == (if abi.word == 8 then 24 else 20)
    ensures abi.Space(SIZE_AUTHINFO) == (if abi.word == 8 then 24 else 16)
  {
  }

  method PutHeader(abi: Abi, dst: array<byte>, off: nat, n: nat, typ: u32)
    requires off + abi.Header() <= dst.Length
    modifies dst
    ensures dst[..] == Splice(old(dst[..]), off, HeaderBytes(abi, typ, n))
  {
    ghost var s := dst[..];
    var len, level, kind := Put(abi.order, abi.Len(n), abi.word), Put32(abi.order, IPPROTO_SCTP), Put32(abi.order, typ);
    Write(dst, off, len);
    Write(dst, off + abi.word, level);
    SpliceTwice(s, off, len, level);
    Write(dst, off + abi.word + 4, kind);
    SpliceTwice(s, off, len + level, kind);
  }

  /** The cleared range of a buffer, at off, can take a record of n payload bytes. */
  predicate Cleared(abi: Abi, s: seq<byte>, off: nat, n: nat)
    requires abi.Valid()
  {
    off + abi.Space(n) <= |s| && s[off..off + abi.Space(n)] == Zeros(abi.Space(n))
  }

  /** After header and payload, the rest of a cleared record is the padding it needs. */
  lemma RecordWritten(abi: Abi, s: seq<byte>, off: nat, typ: u32, payload: seq<byte>)
    requires abi.Valid() && Cleared(abi, s, off, |payload|)
    ensures Splice(Splice(s, off, HeaderBytes(abi, typ, |payload|)), off + abi.Header(), payload)
         == Splice(s, off, RecordBytes(abi, typ, payload))
  {
    var h := HeaderBytes(abi, typ, |payload|);
    var pad := Zeros(abi.Align(|payload|) - |payload|);
    SpliceTwice(s, off, h, payload);
    var lo := off + |h + payload|;
    assert s[lo..lo + |pad|] == s[off..off + abi.Space(|payload|)][|h + payload|..];
    assert s[lo..lo + |pad|] == pad;
    SpliceOver(s, off, h + payload, pad);
  }

  method PutSnd(abi: Abi, dst: array<byte>, off: nat, snd: SndInfo, assoc: u32)
    requires abi.Valid() && Cleared(abi, dst[..], off, SIZE_SNDINFO)
    modifies dst
    ensures dst[..] == Splice(old(dst[..]), off, RecordBytes(abi, CMSG_SNDINFO, SndPayload(abi, snd, assoc)))
  {
    ghost var s := dst[..];
    PutHeader(abi, dst, off, SIZE_SNDINFO, CMSG_SNDINFO);
    var p := off + abi.Header();
    ghost var s1 := dst[..];
    var a, b, c := Put16(abi.order, snd.stream), Put16(abi.order, snd.flags), Put32(Big, snd.ppid);
    var d, e := Put32(abi.order, snd.context), Put32(abi.order, assoc);
    Write(dst, p, a);
    Write(dst, p + 2, b);
    SpliceTwice(s1, p, a, b);
    Write(dst, p + 4, c);
    SpliceTwice(s1, p, a + b, c);
    Write(dst, p + 8, d);
    SpliceTwice(s1, p, a + b + c, d);
    Write(dst, p + 12, e);
    SpliceTwice(s1, p, a + b + c + d, e);
    RecordWritten(abi, s, off, CMSG_SNDINFO, SndPayload(abi, snd, assoc));
  }

  /** The gap inside struct sctp_prinfo, which no field write touches, is still clear after the header. */
  lemma GapClear(abi: Abi, s: seq<byte>, off: nat)
    requires abi.Valid() && Cleared(abi, s, off, SIZE_PRINFO)
    ensures var p := off + abi.Header();
      Splice(s, off, HeaderBytes(abi, CMSG_PRINFO, SIZE_PRINFO))[p + 2..p + 4] == Zeros(2)
  {
    var p := off + abi.Header();
    var s1 := Splice(s, off, HeaderBytes(abi, CMSG_PRINFO, SIZE_PRINFO));
    var clear := s[off..off + abi.Space(SIZE_PRINFO)];
    forall i | p + 2 <= i < p + 4 ensures s1[i] == 0 {
      assert s1[i] == s[i] == clear[i - off];
    }
  }

  method PutPr(abi: Abi, dst: array<byte>, off: nat, pr: PrWire)
    requires abi.Valid() && Cleared(abi, dst[..], off, SIZE_PRINFO)
    modifies dst
    ensures dst[..] == Splice(old(dst[..]), off, RecordBytes(abi, CMSG_PRINFO, PrPayload(abi, pr)))
  {
    ghost var s := dst[..];
    PutHeader(abi, dst, off, SIZE_PRINFO, CMSG_PRINFO);
    var p := off + abi.Header();
    ghost var s1 := dst[..];
    var a, b := Put16(abi.order, pr.policy), Put32(abi.order, pr.value);
    Write(dst, p, a);
    GapClear(abi, s, off);
    SpliceOver(s1, p, a, Zeros(2));
    Write(dst, p + 4, b);
    SpliceTwice(s1, p, a + Zeros(2), b);
    RecordWritten(abi, s, off, CMSG_PRINFO, PrPayload(abi, pr));
  }

  method PutAuth(abi: Abi, dst: array<byte>, off: nat, key: u16)
    requires abi.Valid() && Cleared(abi, dst[..], off, SIZE_AUTHINFO)
    modifies dst
    ensures dst[..] == Splice(old(dst[..]), off, RecordBytes(abi, CMSG_AUTHINFO, AuthPayload(abi, key)))
  {
    ghost var s := dst[..];
    PutHeader(abi, dst, off, SIZE_AUTHINFO, CMSG_AUTHINFO);
    Write(dst, off + abi.Header(), Put16(abi.order, key));
    RecordWritten(abi, s, off, CMSG_AUTHINFO, AuthPayload(abi, key));
  }

  /** A buffer that held s, with `done` written and the rest of the first `total` bytes cleared. */
  predicate Stage(buf: seq<byte>, s: seq<byte>, done: seq<byte>, total: nat) {
    |done| <= total <= |s| && buf == Splice(s, 0, done + Zeros(total - |done|))
  }

  lemma NextStage(abi: Abi, buf: seq<byte>, s: seq<byte>, done: seq<byte>, total: nat, typ: u32, payload: seq<byte>)
    requires abi.Valid() && Stage(buf, s, done, total) && |done| + abi.Space(|payload|) <= total
    ensures Cleared(abi, buf, |done|, |payload|)
    ensures Stage(Splice(buf, |done|, RecordBytes(abi, typ, payload)), s, done + RecordBytes(abi, typ, payload), total)
  {
    StageWrite(buf, s, done, total, RecordBytes(abi, typ, payload));
  }

  lemma StageWrite(buf: seq<byte>, s: seq<byte>, done: seq<byte>, total: nat, r: seq<byte>)
    requires Stage(buf, s, done, total) && |done| + |r| <= total
    ensures buf[|done|..|done| + |r|] == Zeros(|r|)
    ensures Stage(Splice(buf, |done|, r), s, done + r, total)
  {
    var k := total - |done|;
    assert Zeros(k) == Zeros(|r|) + Zeros(k - |r|);
  }

  method AddSnd(abi: Abi, dst: array<byte>, ghost s: seq<byte>, ghost done: seq<byte>, ghost total: nat,
                n: nat, snd: Option<SndInfo>, assoc: u32) returns (m: nat)
    requires abi.Valid() && Stage(dst[..], s, done, total) && n == |done|
    requires n + Room(abi, snd.Some?, SIZE_SNDINFO) <= total
    modifies dst
    ensures Stage(dst[..], s, done + OptRecord(abi, CMSG_SNDINFO, SndOpt(abi, snd, assoc)), total)
    ensures m == n + Room(abi, snd.Some?, SIZE_SNDINFO)
  {
    if snd.None? {
      assert done + [] == done;
      return n;
    }
    NextStage(abi, dst[..], s, done, total, CMSG_SNDINFO, SndPayload(abi, snd.value, assoc));
    PutSnd(abi, dst, n, snd.value, assoc);
    return n + abi.Space(SIZE_SNDINFO);
  }

  method AddPr(abi: Abi, dst: array<byte>, ghost s: seq<byte>, ghost done: seq<byte>, ghost total: nat,
               n: nat, pr: Option<PrWire>) returns (m: nat)
    requires abi.Valid() && Stage(dst[..], s, done, total) && n == |done|
    requires n + Room(abi, pr.Some?, SIZE_PRINFO) <= total
    modifies dst
    ensures Stage(dst[..], s, done + OptRecord(abi, CMSG_PRINFO, PrOpt(abi, pr)), total)
    ensures m == n + Room(abi, pr.Some?, SIZE_PRINFO)
  {
    if pr.None? {
      assert done + [] == done;
      return n;
    }
    NextStage(abi, dst[..], s, done, total, CMSG_PRINFO, PrPayload(abi, pr.value));
    PutPr(abi, dst, n, pr.value);
    return n + abi.Space(SIZE_PRINFO);
  }

  method AddAuth(abi: Abi, dst: array<byte>, ghost s: seq<byte>, ghost done: seq<byte>, ghost total: nat,
                 n: nat, key: Option<u16>) returns (m: nat)
    requires abi.Valid() && Stage(dst[..], s, done, total) && n == |done|
    requires n + Room(abi, key.Some?, SIZE_AUTHINFO) <= total
    modifies dst
    ensures Stage(dst[..], s, done + OptRecord(abi, CMSG_AUTHINFO, AuthOpt(abi, key)), total)
    ensures m == n + Room(abi, key.Some?, SIZE_AUTHINFO)
  {
    if key.None? {
      assert done + [] == done;
      return n;
    }
    NextStage(abi, dst[..], s, done, total, CMSG_AUTHINFO, AuthPayload(abi, key.value));
    PutAuth(abi, dst, n, key.value);
    return n + abi.Space(SIZE_AUTHINFO);
  }

  /**
    Writes the records into the reused buffer: exactly the encoding, with every gap zero whatever
    the buffer held, and not one byte after it.
  */
  method AppendSendCmsgs(abi: Abi, dst: array<byte>, snd: Option<SndInfo>, assoc: u32, pr: Option<PrWire>, key: Option<u16>)
    returns (n: nat)
    requires abi.Valid() && dst.Length >= abi.SndCmsgSpace()
    modifies dst
    ensures n == |Encoding(abi, snd, assoc, pr, key)| <= abi.SndCmsgSpace()
    ensures dst[..] == Splice(old(dst[..]), 0, Encoding(abi, snd, assoc, pr, key))
  {
    ghost var s := dst[..];
    var total := TotalSpace(abi, snd.Some?, pr.Some?, key.Some?);
    Write(dst, 0, Zeros(total));

    ghost var a, b, c := OptRecord(abi, CMSG_SNDINFO, SndOpt(abi, snd, assoc)),
                         OptRecord(abi, CMSG_PRINFO, PrOpt(abi, pr)), OptRecord(abi, CMSG_AUTHINFO, AuthOpt(abi, key));
    StageStart(s, total);
    n := AddSnd(abi, dst, s, [], total, 0, snd, assoc);
    n := AddPr(abi, dst, s, [] + a, total, n, pr);
    n := AddAuth(abi, dst, s, [] + a + b, total, n, key);
    StageDone(dst[..], s, [] + a + b + c, total);
    assert [] + a == a;
  }

  function Room(abi: Abi, present: bool, n: nat): nat
    requires abi.Valid()
  {
    if present then abi.Space(n) else 0
  }

  method TotalSpace(abi: Abi, snd: bool, pr: bool, key: bool) returns (total: nat)
    requires abi.Valid()
    ensures total == Room(abi, snd, SIZE_SNDINFO) + Room(abi, pr, SIZE_PRINFO) + Room(abi, key, SIZE_AUTHINFO)
    ensures total <= abi.SndCmsgSpace()
  {
    total := 0;
    if snd { total := total + abi.Space(SIZE_SNDINFO); }
    if pr { total := total + abi.Space(SIZE_PRINFO); }
    if key { total := total + abi.Space(SIZE_AUTHINFO); }
  }

  lemma StageStart(s: seq<byte>, total: nat)
    requires total <= |s|
    ensures Stage(Splice(s, 0, Zeros(total)), s, [], total)
  {
    assert [] + Zeros(total) == Zeros(total);
  }

  lemma StageDone(buf: seq<byte>, s: seq<byte>, done: seq<byte>, total: nat)
    requires Stage(buf, s, done, total) && |done| == total
    ensures buf == Splice(s, 0, done)
  {
    assert done + Zeros(0) == done;
  }

  // ----- The walk over received records -----

  datatype Record = Record(level: u32, typ: u32, payload: seq<byte>)

  /** The records a walk visits, and whether it stopped at a header that does not fit. */
  datatype Walked = Walked(records: seq<Record>, malformed: bool)

  function WordAt(abi: Abi, oob: seq<byte>): nat
    requires |oob| >= abi.word
  {
    Get(abi.order, oob[..abi.word])
  }

  /** The declared length of the first header fits what remains. */
  predicate HeadFits(abi: Abi, oob: seq<byte>)
    requires |oob| >= abi.Header()
  {
    abi.Header() <= WordAt(abi, oob) <= |oob|
  }

  function Head(abi: Abi, oob: seq<byte>): Record
    requires |oob| >= abi.Header() && HeadFits(abi, oob)
  {
    Record(At32(abi.order, oob, abi.word), At32(abi.order, oob, abi.word + 4), oob[abi.Header()..WordAt(abi, oob)])
  }

  function Walk(abi: Abi, oob: seq<byte>): Walked
    requires abi.Valid()
    decreases |oob|
  {
    if |oob| < abi.Header() then Walked([], false)
    else if !HeadFits(abi, oob) then Walked([], true)
    else
      var adv := abi.Align(WordAt(abi, oob));
      if adv > |oob| then Walked([Head(abi, oob)], false)
      else
        var rest := Walk(abi, oob[adv..]);
        Walked([Head(abi, oob)] + rest.records, rest.malformed)
  }

  lemma WordRoundTrip(abi: Abi, n: nat)
    requires abi.Valid() && n < 0x1_0000_0000
    ensures Get(abi.order, Put(abi.order, n, abi.word)) == n
  {
    assert Pow256(1) == 256 && Pow256(2) == 0x1_0000 && Pow256(3) == 0x100_0000 && Pow256(4) == 0x1_0000_0000;
    assert Pow256(5) == 256 * Pow256(4) && Pow256(6) == 256 * Pow256(5) && Pow256(7) == 256 * Pow256(6);
    assert Pow256(8) == 256 * Pow256(7);
    PutGet(abi.order, n, abi.word);
  }

  lemma HeaderFields(abi: Abi, typ: u32, n: nat)
    requires abi.Valid() && n < 0x1_0000
    ensures var h := HeaderBytes(abi, typ, n);
      WordAt(abi, h) == abi.Len(n) && At32(abi.order, h, abi.word) == IPPROTO_SCTP && At32(abi.order, h, abi.word + 4) == typ
  {
    Parts(Put(abi.order, abi.Len(n), abi.word), Put32(abi.order, IPPROTO_SCTP), Put32(abi.order, typ), []);
    WordRoundTrip(abi, abi.Len(n));
    Get32(abi.order, IPPROTO_SCTP);
    Get32(abi.order, typ);
  }

  /** A walk reads its header from the header's bytes alone. */
  lemma HeadFromPrefix(abi: Abi, h: seq<byte>, oob: seq<byte>)
    requires |h| == abi.Header() <= |oob| && oob[..abi.Header()] == h
    ensures WordAt(abi, oob) == WordAt(abi, h)
    ensures At32(abi.order, oob, abi.word) == At32(abi.order, h, abi.word)
    ensures At32(abi.order, oob, abi.word + 4) == At32(abi.order, h, abi.word + 4)
  {
    SameSlice(h, oob, 0, abi.word);
    SameSlice(h, oob, abi.word, abi.word + 4);
    SameSlice(h, oob, abi.word + 4, abi.word + 8);
    assert oob[..abi.word] == oob[0..abi.word] && h[..abi.word] == h[0..abi.word];
  }

  /** The header of an encoded record says what it was built from. */
  lemma HeadOfRecord(abi: Abi, typ: u32, payload: seq<byte>, rest: seq<byte>)
    requires abi.Valid() && |payload| < 0x1_0000
    ensures var oob := RecordBytes(abi, typ, payload) + rest;
      && WordAt(abi, oob) == abi.Len(|payload|)
      && HeadFits(abi, oob)
      && Head(abi, oob) == Record(IPPROTO_SCTP, typ, payload)
  {
    var h := HeaderBytes(abi, typ, |payload|);
    var oob := RecordBytes(abi, typ, payload) + rest;
    Parts(h, payload, Zeros(abi.Align(|payload|) - |payload|), rest);
    HeaderFields(abi, typ, |payload|);
    HeadFromPrefix(abi, h, oob);
  }

  lemma WalkRecord(abi: Abi, typ: u32, payload: seq<byte>, rest: seq<byte>)
    requires abi.Valid() && |payload| < 0x1_0000
    ensures Walk(abi, RecordBytes(abi, typ, payload) + rest)
         == Walked([Record(IPPROTO_SCTP, typ, payload)] + Walk(abi, rest).records, Walk(abi, rest).malformed)
  {
    HeadOfRecord(abi, typ, payload, rest);
    AlignLen(abi, |payload|);
    WalkStep(abi, RecordBytes(abi, typ, payload), rest);
  }

  /** An aligned length is a whole number of words. */
  lemma AlignedToWord(abi: Abi, n: nat) returns (words: nat)
    requires abi.Valid()
    ensures abi.Align(n) == words * abi.word
  {
    words := if abi.word == 4 then (n + 3) / 4 else (n + 7) / 8;
  }

  lemma AlignLen(abi: Abi, n: nat)
    requires abi.Valid()
    ensures abi.Align(abi.Len(n)) == abi.Space(n)
  {
    if abi.word == 4 {
      assert (n + 15) % 4 == (n + 3) % 4;
    } else {
      assert (n + 23) % 8 == (n + 7) % 8;
    }
  }

  /** The walk goes on after the first record's aligned length. */
  lemma WalkStep(abi: Abi, r: seq<byte>, rest: seq<byte>)
    requires abi.Valid() && |r| >= abi.Header() && HeadFits(abi, r + rest)
    requires abi.Align(WordAt(abi, r + rest)) == |r|
    ensures Walk(abi, r + rest)
         == Walked([Head(abi, r + rest)] + Walk(abi, rest).records, Walk(abi, rest).malformed)
  {
    assert (r + rest)[|r|..] == rest;
  }

  function OptList(typ: u32, payload: Option<seq<byte>>): seq<Record> {
    if payload.Some? then [Record(IPPROTO_SCTP, typ, payload.value)] else []
  }

  lemma WalkOpt(abi: Abi, typ: u32, payload: Option<seq<byte>>, rest: seq<byte>)
    requires abi.Valid() && (payload.Some? ==> |payload.value| < 0x1_0000)
    ensures Walk(abi, OptRecord(abi, typ, payload) + rest)
         == Walked(OptList(typ, payload) + Walk(abi, rest).records, Walk(abi, rest).malformed)
  {
    if payload.Some? {
      WalkRecord(abi, typ, payload.value, rest);
    } else {
      assert [] + rest == rest && [] + Walk(abi, rest).records == Walk(abi, rest).records;
    }
  }

  lemma WalkThree(abi: Abi, a: Option<seq<byte>>, b: Option<seq<byte>>, c: Option<seq<byte>>)
    requires abi.Valid()
    requires (a.Some? ==> |a.value| < 0x1_0000) && (b.Some? ==> |b.value| < 0x1_0000) && (c.Some? ==> |c.value| < 0x1_0000)
    ensures Walk(abi, OptRecord(abi, CMSG_SNDINFO, a) + OptRecord(abi, CMSG_PRINFO, b) + OptRecord(abi, CMSG_AUTHINFO, c))
         == Walked(OptList(CMSG_SNDINFO, a) + OptList(CMSG_PRINFO, b) + OptList(CMSG_AUTHINFO, c), false)
  {
    var x, y, z := OptRecord(abi, CMSG_SNDINFO, a), OptRecord(abi, CMSG_PRINFO, b), OptRecord(abi, CMSG_AUTHINFO, c);
    Concats(x, y, z);
    WalkOpt(abi, CMSG_SNDINFO, a, y + z);
    WalkOpt(abi, CMSG_PRINFO, b, z);
    WalkOpt(abi, CMSG_AUTHINFO, c, []);
    Concats(OptList(CMSG_SNDINFO, a), OptList(CMSG_PRINFO, b), OptList(CMSG_AUTHINFO, c));
  }

  lemma Concats<T>(x: seq<T>, y: seq<T>, z: seq<T>)
    ensures x + y + z == x + (y + z) && z + [] == z
  {
  }

  /** Encode, then walk: exactly the records that were set, in order, each with its exact length. */
  lemma EncodeThenWalk(abi: Abi, snd: Option<SndInfo>, assoc: u32, pr: Option<PrWire>, key: Option<u16>)
    requires abi.Valid()
    ensures Walk(abi, Encoding(abi, snd, assoc, pr, key))
         == Walked(OptList(CMSG_SNDINFO, SndOpt(abi, snd, assoc)) + OptList(CMSG_PRINFO, PrOpt(abi, pr))
                   + OptList(CMSG_AUTHINFO, AuthOpt(abi, key)), false)
    ensures OptList(CMSG_SNDINFO, SndOpt(abi, snd, assoc)) == if snd.None? then [] else [Record(132, 2, SndPayload(abi, snd.value, assoc))]
    ensures OptList(CMSG_PRINFO, PrOpt(abi, pr)) == if pr.None? then [] else [Record(132, 5, PrPayload(abi, pr.value))]
    ensures OptList(CMSG_AUTHINFO, AuthOpt(abi, key)) == if key.None? then [] else [Record(132, 6, AuthPayload(abi, key.value))]
  {
    WalkThree(abi, SndOpt(abi, snd, assoc), PrOpt(abi, pr), AuthOpt(abi, key));
  }

  // How the kernel reads the three payloads.

  function ReadSnd(abi: Abi, p: seq<byte>): (SndInfo, u32)
    requires |p| == SIZE_SNDINFO
  {
    (SndInfo(At16(abi.order, p, 0), At16(abi.order, p, 2), At32(Big, p, 4), At32(abi.order, p, 8)), At32(abi.order, p, 12))
  }

  function ReadPr(abi: Abi, p: seq<byte>): PrWire
    requires |p| == SIZE_PRINFO
  {
    PrWire(At16(abi.order, p, 0), At32(abi.order, p, 4))
  }

  function ReadAuth(abi: Abi, p: seq<byte>): u16
    requires |p| == SIZE_AUTHINFO
  {
    At16(abi.order, p, 0)
  }

  /** The fields survive: the kernel reads from each payload what the caller set. */
  lemma SndSurvives(abi: Abi, snd: SndInfo, assoc: u32)
    ensures ReadSnd(abi, SndPayload(abi, snd, assoc)) == (snd, assoc)
  {
    FiveParts(Put16(abi.order, snd.stream), Put16(abi.order, snd.flags), Put32(Big, snd.ppid),
              Put32(abi.order, snd.context), Put32(abi.order, assoc));
    Get16(abi.order, snd.stream);
    Get16(abi.order, snd.flags);
    Get32(Big, snd.ppid);
    Get32(abi.order, snd.context);
    Get32(abi.order, assoc);
  }

  lemma FiveParts(a: seq<byte>, b: seq<byte>, c: seq<byte>, d: seq<byte>, e: seq<byte>)
    requires |a| == |b| == 2 && |c| == |d| == |e| == 4
    ensures var s := a + b + c + d + e;
      s[0..2] == a && s[2..4] == b && s[4..8] == c && s[8..12] == d && s[12..16] == e
  {
  }

  lemma PrSurvives(abi: Abi, pr: PrWire)
    ensures ReadPr(abi, PrPayload(abi, pr)) == pr
  {
    var a, b := Put16(abi.order, pr.policy), Put32(abi.order, pr.value);
    At16Of(abi.order, [], pr.policy, Zeros(2) + b);
    At32Of(abi.order, a + Zeros(2), pr.value, []);
    assert PrPayload(abi, pr) == [] + a + (Zeros(2) + b) == a + Zeros(2) + b + [];
  }

  lemma AuthSurvives(abi: Abi, key: u16)
    ensures ReadAuth(abi, AuthPayload(abi, key)) == key
  {
    assert AuthPayload(abi, key)[0..2] == Put16(abi.order, key);
    Get16(abi.order, key);
  }

  /** How a walk goes on: it stops short of a header, is malformed at one whose length does not fit, and else takes a record. */
  lemma WalkRules(abi: Abi, oob: seq<byte>)
    requires abi.Valid()
    ensures |oob| < abi.word + 8 ==> Walk(abi, oob) == Walked([], false)
    ensures |oob| >= abi.word + 8 && !(abi.word + 8 <= WordAt(abi, oob) <= |oob|) ==> Walk(abi, oob) == Walked([], true)
    ensures |oob| >= abi.word + 8 && abi.word + 8 <= WordAt(abi, oob) <= |oob| ==>
      var r := Record(At32(abi.order, oob, abi.word), At32(abi.order, oob, abi.word + 4), oob[abi.word + 8..WordAt(abi, oob)]);
      var adv := abi.Align(WordAt(abi, oob));
      var more := Walk(abi, if adv > |oob| then [] else oob[adv..]);
      Walk(abi, oob) == Walked([r] + more.records, more.malformed)
  {
  }

  // ----- What a receive parses -----

  datatype RcvInfo = RcvInfo(stream: u16, ssn: u16, unordered: bool, ppid: u32, tsn: u32, cumTsn: u32, context: u32, assoc: int)

  const NO_RCV := RcvInfo(0, 0, false, 0, 0, 0, 0, 0)

  datatype NxtInfo = NxtInfo(stream: u16, unordered: bool, notification: bool, ppid: u32, length: u32, assoc: int)

  const NO_NXT := NxtInfo(0, false, false, 0, 0, 0)

  /** recvmsg's msg_flags, as far as they are read. */
  datatype Flags = Flags(eor: bool, notification: bool, ctrunc: bool)

  datatype MsgInfo = MsgInfo(eor: bool, notification: bool, rcv: RcvInfo, nxt: NxtInfo, hasNxt: bool)

  /** A u32 read as the int32 it is. */
  function Signed(v: u32): int {
    if v < 0x8000_0000 then v else v - 0x1_0000_0000
  }

  /** Association ids are above the three scope selectors. */
  predicate RealAssocID(id: int) {
    id > 2
  }

  function DecodeRcvInfo(abi: Abi, b: seq<byte>): RcvInfo
    requires |b| >= SIZE_RCVINFO
  {
    var o := abi.order;
    RcvInfo(At16(o, b, 0), At16(o, b, 2), At16(o, b, 4) % 2 == 1, At32(Big, b, 8), At32(o, b, 12), At32(o, b, 16),
            At32(o, b, 20), Signed(At32(o, b, 24)))
  }

  function DecodeNxtInfo(abi: Abi, b: seq<byte>): NxtInfo
    requires |b| >= SIZE_NXTINFO
  {
    var o := abi.order;
    NxtInfo(At16(o, b, 0), At16(o, b, 2) % 2 == 1, At16(o, b, 2) >= 0x8000, At32(Big, b, 4), At32(o, b, 8),
            Signed(At32(o, b, 12)))
  }

  /** The RCVINFO and NXTINFO records are those of level 132 with types 3 and 4. */
  lemma RecvTypes(r: Record)
    ensures IsRcv(r) <==> r.level == 132 && r.typ == 3
    ensures IsNxt(r) <==> r.level == 132 && r.typ == 4
  {
  }

  lemma SignedExact(v: u32)
    ensures -0x8000_0000 <= Signed(v) < 0x8000_0000 && (Signed(v) == v || Signed(v) == v - 0x1_0000_0000)
  {
  }

  /** struct sctp_rcvinfo, as the kernel lays it out. */
  function RcvPayload(abi: Abi, i: RcvInfo, flags: u16, assoc: u32): (p: seq<byte>)
    ensures |p| == SIZE_RCVINFO
  {
    Put16(abi.order, i.stream) + Put16(abi.order, i.ssn) + Put16(abi.order, flags) + Zeros(2) + Put32(Big, i.ppid)
    + Put32(abi.order, i.tsn) + Put32(abi.order, i.cumTsn) + Put32(abi.order, i.context) + Put32(abi.order, assoc)
  }

  /** Every field is decoded from its own place: the id is not the context, the PPID is in network order. */
  lemma RcvDecoded(abi: Abi, i: RcvInfo, flags: u16, assoc: u32)
    requires i.unordered == (flags % 2 == 1) && i.assoc == Signed(assoc)
    ensures DecodeRcvInfo(abi, RcvPayload(abi, i, flags, assoc)) == i
  {
    NineParts(Put16(abi.order, i.stream), Put16(abi.order, i.ssn), Put16(abi.order, flags), Zeros(2),
              Put32(Big, i.ppid), Put32(abi.order, i.tsn), Put32(abi.order, i.cumTsn), Put32(abi.order, i.context), Put32(abi.order, assoc));
    Get16(abi.order, i.stream);
    Get16(abi.order, i.ssn);
    Get16(abi.order, flags);
    Get32(Big, i.ppid);
    Get32(abi.order, i.tsn);
    Get32(abi.order, i.cumTsn);
    Get32(abi.order, i.context);
    Get32(abi.order, assoc);
  }

  lemma NineParts(a: seq<byte>, b: seq<byte>, c: seq<byte>, z: seq<byte>,
                  d: seq<byte>, e: seq<byte>, f: seq<byte>, g: seq<byte>, h: seq<byte>)
    requires |a| == |b| == |c| == |z| == 2 && |d| == |e| == |f| == |g| == |h| == 4
    ensures var s := a + b + c + z + d + e + f + g + h;
      && s[0..2] == a && s[2..4] == b && s[4..6] == c
      && s[8..12] == d && s[12..16] == e && s[16..20] == f && s[20..24] == g && s[24..28] == h
  {
  }

  /** struct sctp_nxtinfo. */
  function NxtPayload(abi: Abi, i: NxtInfo, flags: u16, assoc: u32): (p: seq<byte>)
    ensures |p| == SIZE_NXTINFO
  {
    Put16(abi.order, i.stream) + Put16(abi.order, flags) + Put32(Big, i.ppid) + Put32(abi.order, i.length) + Put32(abi.order, assoc)
  }

  lemma NxtDecoded(abi: Abi, i: NxtInfo, flags: u16, assoc: u32)
    requires i.unordered == (flags % 2 == 1) && i.notification == (flags >= 0x8000) && i.assoc == Signed(assoc)
    ensures DecodeNxtInfo(abi, NxtPayload(abi, i, flags, assoc)) == i
  {
    FiveParts(Put16(abi.order, i.stream), Put16(abi.order, flags), Put32(Big, i.ppid),
              Put32(abi.order, i.length), Put32(abi.order, assoc));
    Get16(abi.order, i.stream);
    Get16(abi.order, flags);
    Get32(Big, i.ppid);
    Get32(abi.order, i.length);
    Get32(abi.order, assoc);
  }

  predicate IsRcv(r: Record) {
    r.level == IPPROTO_SCTP && r.typ == CMSG_RCVINFO
  }

  predicate IsNxt(r: Record) {
    r.level == IPPROTO_SCTP && r.typ == CMSG_NXTINFO
  }

  /** What one record adds to the parse. */
  function Absorb(abi: Abi, info: MsgInfo, r: Record): MsgInfo {
    if IsRcv(r) && !info.notification && |r.payload| >= SIZE_RCVINFO then info.(rcv := DecodeRcvInfo(abi, r.payload))
    else if IsNxt(r) && |r.payload| >= SIZE_NXTINFO then info.(nxt := DecodeNxtInfo(abi, r.payload), hasNxt := true)
    else info
  }

  function AbsorbAll(abi: Abi, info: MsgInfo, rs: seq<Record>): MsgInfo
    decreases |rs|
  {
    if rs == [] then info else AbsorbAll(abi, Absorb(abi, info, rs[0]), rs[1..])
  }

  function Fresh(flags: Flags): MsgInfo {
    MsgInfo(flags.eor, flags.notification, NO_RCV, NO_NXT, false)
  }

  /** parseRecvCmsgs: the walk, record by record; it reports only that the buffer was too small. */
  method ParseRecvCmsgs(abi: Abi, oob: seq<byte>, flags: Flags) returns (info: MsgInfo, truncated: bool)
    requires abi.Valid()
    ensures info == AbsorbAll(abi, Fresh(flags), Walk(abi, oob).records)
    ensures truncated == flags.ctrunc
  {
    info := Fresh(flags);
    var rest := oob;
    while |rest| >= abi.Header()
      invariant AbsorbAll(abi, info, Walk(abi, rest).records) == AbsorbAll(abi, Fresh(flags), Walk(abi, oob).records)
      decreases |rest|
    {
      if !HeadFits(abi, rest) { break; }
      var r := Head(abi, rest);
      ghost var records := Walk(abi, rest).records;
      info := Absorb(abi, info, r);
      var adv := abi.Align(WordAt(abi, rest));
      if adv > |rest| {
        rest := [];
        assert records == [r] && records[1..] == [];
        break;
      }
      assert records[1..] == Walk(abi, rest[adv..]).records;
      rest := rest[adv..];
    }
    return info, flags.ctrunc;
  }

  /** The last record that is a whole SCTP_NXTINFO, or SCTP_RCVINFO. */
  function LastOf(rs: seq<Record>, typ: u32, size: nat): Option<Record> {
    if rs == [] then None
    else
      var later := LastOf(rs[1..], typ, size);
      if later.Some? then later
      else if rs[0].level == 132 && rs[0].typ == typ && |rs[0].payload| >= size then Some(rs[0]) else None
  }

  /**
    What a parse returns: the flags of the message; the decoding of the last whole SCTP_RCVINFO of
    a data message, none of a notification; and that of the last whole SCTP_NXTINFO, marked as there.
  */
  lemma {:induction false} ParseExact(abi: Abi, info: MsgInfo, rs: seq<Record>)
    ensures var out := AbsorbAll(abi, info, rs);
      var rcv, nxt := LastOf(rs, 3, 28), LastOf(rs, 4, 16);
      && (rcv.Some? ==> |rcv.value.payload| >= 28) && (nxt.Some? ==> |nxt.value.payload| >= 16)
      && out.eor == info.eor && out.notification == info.notification
      && out.rcv == (if info.notification || rcv.None? then info.rcv else DecodeRcvInfo(abi, rcv.value.payload))
      && out.nxt == (if nxt.None? then info.nxt else DecodeNxtInfo(abi, nxt.value.payload))
      && out.hasNxt == (info.hasNxt || nxt.Some?)
    decreases |rs|
  {
    if rs != [] {
      ParseExact(abi, Absorb(abi, info, rs[0]), rs[1..]);
    }
  }

  lemma FreshExact(flags: Flags)
    ensures Fresh(flags) == MsgInfo(flags.eor, flags.notification, RcvInfo(0, 0, false, 0, 0, 0, 0, 0), NxtInfo(0, false, false, 0, 0, 0), false)
  {
  }

  datatype Check = Fine | Missing | Invalid

  function RcvRecords(rs: seq<Record>): seq<Record> {
    if rs == [] then [] else (if IsRcv(rs[0]) then [rs[0]] else []) + RcvRecords(rs[1..])
  }

  predicate Whole(rs: seq<Record>) {
    forall i :: 0 <= i < |rs| ==> |rs[i].payload| >= SIZE_RCVINFO
  }

  /** What the check walk decides, in terms of the records alone, when k SCTP_RCVINFO records came before. */
  function VerdictFrom(k: nat, w: Walked, id: int): Check {
    var rcvs := RcvRecords(w.records);
    if w.malformed || !Whole(rcvs) || k + |rcvs| > 1 then Invalid
    else if k + |rcvs| == 0 then Missing
    else if !RealAssocID(id) then Invalid
    else Fine
  }

  function Verdict(w: Walked, id: int): Check {
    VerdictFrom(0, w, id)
  }

  lemma VerdictStep(abi: Abi, k: nat, rest: seq<byte>, more: seq<byte>, id: int)
    requires abi.Valid() && |rest| >= abi.Header() && HeadFits(abi, rest)
    requires var adv := abi.Align(WordAt(abi, rest)); more == if adv > |rest| then [] else rest[adv..]
    ensures var r := Head(abi, rest);
      VerdictFrom(k, Walk(abi, rest), id)
      == if IsRcv(r) && |r.payload| < SIZE_RCVINFO then Invalid
         else VerdictFrom(if IsRcv(r) then k + 1 else k, Walk(abi, more), id)
  {
    assert Walk(abi, rest).records == [Head(abi, rest)] + Walk(abi, more).records;
    RcvCons(Head(abi, rest), Walk(abi, more).records);
  }

  lemma RcvCons(r: Record, rs: seq<Record>)
    ensures var tail := RcvRecords(rs);
      && RcvRecords([r] + rs) == (if IsRcv(r) then [r] + tail else tail)
      && (Whole([r] + tail) <==> |r.payload| >= SIZE_RCVINFO && Whole(tail))
  {
    assert ([r] + rs)[1..] == rs;
    assert [] + RcvRecords(rs) == RcvRecords(rs);
    WholeCons(r, RcvRecords(rs));
  }

  lemma WholeCons(r: Record, tail: seq<Record>)
    ensures Whole([r] + tail) <==> |r.payload| >= SIZE_RCVINFO && Whole(tail)
  {
    var rs := [r] + tail;
    assert rs[0] == r && forall i :: 0 <= i < |tail| ==> rs[i + 1] == tail[i];
  }

  method CheckRcvInfoRecord(abi: Abi, oob: seq<byte>, id: int) returns (c: Check)
    requires abi.Valid()
    ensures c == Verdict(Walk(abi, oob), id)
  {
    var records := 0;
    var rest := oob;
    while |rest| >= abi.Header()
      invariant Verdict(Walk(abi, oob), id) == VerdictFrom(records, Walk(abi, rest), id)
      decreases |rest|
    {
      if !HeadFits(abi, rest) { return Invalid; }
      var r := Head(abi, rest);
      var adv := abi.Align(WordAt(abi, rest));
      VerdictStep(abi, records, rest, if adv > |rest| then [] else rest[adv..], id);
      if IsRcv(r) {
        records := records + 1;
        if |r.payload| < SIZE_RCVINFO { return Invalid; }
      }
      if adv > |rest| {
        rest := [];
        break;
      }
      rest := rest[adv..];
    }
    if records == 0 { return Missing; }
    if records > 1 { return Invalid; }
    if !RealAssocID(id) { return Invalid; }
    return Fine;
  }

  datatype Error = NoError | ControlTruncated | MissingRcvInfo | InvalidRcvInfo

  /** parseEndpointRecvCmsgs. */
  method ParseEndpointRecvCmsgs(abi: Abi, oob: seq<byte>, flags: Flags) returns (info: MsgInfo, err: Error)
    requires abi.Valid()
    ensures (info, err) == Routed(abi, oob, flags)
  {
    var truncated;
    info, truncated := ParseRecvCmsgs(abi, oob, flags);
    err := if truncated then ControlTruncated else NoError;
    if info.notification { return; }
    var c := CheckRcvInfoRecord(abi, oob, info.rcv.assoc);
    if c != Fine {
      info := info.(rcv := NO_RCV);
      if err == NoError {
        err := if c == Missing then MissingRcvInfo else InvalidRcvInfo;
      }
    }
  }

  function Routed(abi: Abi, oob: seq<byte>, flags: Flags): (MsgInfo, Error)
    requires abi.Valid()
  {
    var info := AbsorbAll(abi, Fresh(flags), Walk(abi, oob).records);
    var err := if flags.ctrunc then ControlTruncated else NoError;
    var c := Verdict(Walk(abi, oob), info.rcv.assoc);
    if info.notification || c == Fine then (info, err)
    else (info.(rcv := NO_RCV),
          if err != NoError then err else if c == Missing then MissingRcvInfo else InvalidRcvInfo)
  }

  /** The parse takes Rcv from the last whole SCTP_RCVINFO record, and from nothing else. */
  lemma {:induction false} ParseOfOne(abi: Abi, info: MsgInfo, rs: seq<Record>)
    requires !info.notification
    ensures AbsorbAll(abi, info, rs).notification == info.notification && AbsorbAll(abi, info, rs).eor == info.eor
    ensures RcvRecords(rs) == [] ==> AbsorbAll(abi, info, rs).rcv == info.rcv
    ensures |RcvRecords(rs)| == 1 && |RcvRecords(rs)[0].payload| >= SIZE_RCVINFO
      ==> AbsorbAll(abi, info, rs).rcv == DecodeRcvInfo(abi, RcvRecords(rs)[0].payload)
    decreases |rs|
  {
    if rs != [] {
      ParseOfOne(abi, Absorb(abi, info, rs[0]), rs[1..]);
    }
  }

  /**
    Routing by association. For every ancillary buffer of a data read, the message names an
    association exactly when the buffer walks cleanly to one SCTP_RCVINFO record, whole, with a
    real id; Rcv is then that record, decoded; and otherwise Rcv is zero and the error says so.
  */
  lemma RoutedByOneRecord(abi: Abi, oob: seq<byte>, flags: Flags)
    requires abi.Valid() && !flags.notification
    ensures var w := Walk(abi, oob);
      var rcvs := RcvRecords(w.records);
      var (info, err) := Routed(abi, oob, flags);
      var named := !w.malformed && |rcvs| == 1 && |rcvs[0].payload| >= 28 && DecodeRcvInfo(abi, rcvs[0].payload).assoc > 2;
      && (info.rcv != NO_RCV <==> named)
      && (named ==> info.rcv == DecodeRcvInfo(abi, rcvs[0].payload) && info.rcv.assoc > 2)
      && (err == NoError <==> named && !flags.ctrunc)
      && (err == ControlTruncated <==> flags.ctrunc)
      && (err == MissingRcvInfo <==> !flags.ctrunc && !w.malformed && |rcvs| == 0)
      && (err == InvalidRcvInfo <==> !flags.ctrunc && !named && (w.malformed || |rcvs| > 0))
  {
    var w := Walk(abi, oob);
    ParseOfOne(abi, Fresh(flags), w.records);
    VerdictFine(w, AbsorbAll(abi, Fresh(flags), w.records).rcv.assoc);
  }

  lemma VerdictFine(w: Walked, id: int)
    ensures var rcvs := RcvRecords(w.records);
      Verdict(w, id) == Fine <==>
        !w.malformed && |rcvs| == 1 && |rcvs[0].payload| >= SIZE_RCVINFO && RealAssocID(id)
  {
  }
}
