/**
  A send from its options to the kernel (send_linux.go, msginfo.go): the records that the default
  parameters call for, encoded into the control buffer, walked by the kernel, and applied. The
  theorem joins the two halves: what Linux sends with is what the caller meant, through the bytes.
*/
module SendPath {
  import opened Wrappers
  import opened Bytes
  import opened SendDefaults
  import Control = ControlMessages

  function WireSnd(s: Option<SndInfo>): Option<Control.SndInfo> {
    if s.None? then None
    else Some(Control.SndInfo(s.value.stream, s.value.flags as int, s.value.ppid, s.value.context))
  }

  function WirePr(pr: Option<(bv16, u32)>): Option<Control.PrWire> {
    if pr.None? then None else Some(Control.PrWire(pr.value.0 as int, pr.value.1))
  }

  /** The control buffer of a send. */
  function Buffer(abi: Control.Abi, c: Cmsgs, assoc: u32): seq<byte>
    requires abi.Valid()
  {
    Control.Encoding(abi, WireSnd(c.snd), assoc, WirePr(c.pr), c.key)
  }

  /** One walked record, as the kernel takes it: by its type, when it has that type's size. */
  function Take(abi: Control.Abi, c: Cmsgs, r: Control.Record): Cmsgs {
    if r.level != Control.IPPROTO_SCTP then c
    else if r.typ == Control.CMSG_SNDINFO && |r.payload| == Control.SIZE_SNDINFO then
      var (s, _) := Control.ReadSnd(abi, r.payload);
      c.(snd := Some(SndInfo(s.stream, s.flags as bv16, s.ppid, s.context)))
    else if r.typ == Control.CMSG_PRINFO && |r.payload| == Control.SIZE_PRINFO then
      var p := Control.ReadPr(abi, r.payload);
      c.(pr := Some((p.policy as bv16, p.value)))
    else if r.typ == Control.CMSG_AUTHINFO && |r.payload| == Control.SIZE_AUTHINFO then
      c.(key := Some(Control.ReadAuth(abi, r.payload)))
    else c
  }

  function TakeAll(abi: Control.Abi, c: Cmsgs, rs: seq<Control.Record>): Cmsgs
    decreases |rs|
  {
    if rs == [] then c else TakeAll(abi, Take(abi, c, rs[0]), rs[1..])
  }

  /** What the kernel takes from a control buffer. */
  function Parsed(abi: Control.Abi, bytes: seq<byte>): Cmsgs
    requires abi.Valid()
  {
    TakeAll(abi, Cmsgs(None, None, None), Control.Walk(abi, bytes).records)
  }

  lemma {:induction false} TakeAllOf(abi: Control.Abi, c: Cmsgs, a: seq<Control.Record>, b: seq<Control.Record>)
    ensures TakeAll(abi, c, a + b) == TakeAll(abi, TakeAll(abi, c, a), b)
    decreases |a|
  {
    if a == [] {
      assert a + b == b;
    } else {
      assert (a + b)[1..] == a[1..] + b;
      TakeAllOf(abi, Take(abi, c, a[0]), a[1..], b);
    }
  }

  lemma TakeSnd(abi: Control.Abi, c: Cmsgs, snd: Option<SndInfo>, assoc: u32)
    requires c.snd == None
    ensures TakeAll(abi, c, Control.OptList(Control.CMSG_SNDINFO, Control.SndOpt(abi, WireSnd(snd), assoc))) == c.(snd := snd)
  {
    if snd.Some? {
      Control.SndSurvives(abi, WireSnd(snd).value, assoc);
    }
  }

  lemma TakePr(abi: Control.Abi, c: Cmsgs, pr: Option<(bv16, u32)>)
    requires c.pr == None
    ensures TakeAll(abi, c, Control.OptList(Control.CMSG_PRINFO, Control.PrOpt(abi, WirePr(pr)))) == c.(pr := pr)
  {
    if pr.Some? {
      Control.PrSurvives(abi, WirePr(pr).value);
    }
  }

  lemma TakeKey(abi: Control.Abi, c: Cmsgs, key: Option<u16>)
    requires c.key == None
    ensures TakeAll(abi, c, Control.OptList(Control.CMSG_AUTHINFO, Control.AuthOpt(abi, key))) == c.(key := key)
  {
    if key.Some? {
      Control.AuthSurvives(abi, key.value);
    }
  }

  /** The kernel takes from the control buffer exactly the records that were put into it. */
  lemma ParsedBack(abi: Control.Abi, c: Cmsgs, assoc: u32)
    requires abi.Valid()
    ensures Parsed(abi, Buffer(abi, c, assoc)) == c
  {
    Control.EncodeThenWalk(abi, WireSnd(c.snd), assoc, WirePr(c.pr), c.key);
    var a := Control.OptList(Control.CMSG_SNDINFO, Control.SndOpt(abi, WireSnd(c.snd), assoc));
    var b := Control.OptList(Control.CMSG_PRINFO, Control.PrOpt(abi, WirePr(c.pr)));
    var d := Control.OptList(Control.CMSG_AUTHINFO, Control.AuthOpt(abi, c.key));
    var none := Cmsgs(None, None, None);
    TakeAllOf(abi, none, a + b, d);
    TakeAllOf(abi, none, a, b);
    TakeSnd(abi, none, c.snd, assoc);
    TakePr(abi, none.(snd := c.snd), c.pr);
    TakeKey(abi, none.(snd := c.snd, pr := c.pr), c.key);
  }

  /**
    After any history of settings in which no restore fails, and for every combination of Info, PR
    and AuthKey, Linux sends with the caller's Info and PR or the latest defaults, as it reads them
    from the control buffer the package wrote.
  */
  lemma BytesMeanTheLatest(k: Kernel, ops: seq<Setting>, explicit: bool, o: Options, abi: Control.Abi, assoc: u32)
    requires Clean(k) && ValidOptions(o) && abi.Valid()
    requires NoRestoreFails(Defaults(DefaultSnd(k), DefaultPr(k)), ops)
    ensures var p := ApplyAll(Pair(k, DefaultSnd(k), DefaultPr(k)), ops);
      var latest := Latest(Defaults(DefaultSnd(k), DefaultPr(k)), ops);
      && Fits(p.defPR) && Fits(latest.pr)
      && KernelSend(p.k, Parsed(abi, Buffer(abi, Encoded(p.defSnd, p.defPR, explicit, o), assoc)))
         == Meant(latest.snd, latest.pr, o)
  {
    HistoryThenSend(k, ops, explicit, o);
    var p := ApplyAll(Pair(k, DefaultSnd(k), DefaultPr(k)), ops);
    ParsedBack(abi, Encoded(p.defSnd, p.defPR, explicit, o), assoc);
  }
}
