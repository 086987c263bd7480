/**
  Packed socket addresses (sockaddr.go): one sockaddr_in or sockaddr_in6 per address, written in
  place and read back by walking entries of either size.
*/
module Sockaddr {
  import opened Wrappers
  import opened Bytes

  type Bytes4 = s: seq<byte> | |s| == 4 witness Zeros(4)
  type Bytes16 = s: seq<byte> | |s| == 16 witness Zeros(16)

  /** netip.Addr. */
  datatype Addr = NoAddr | V4(a4: Bytes4) | V6(a16: Bytes16, zone: string)

  const MAPPED: seq<byte> := Zeros(10) + [255, 255]

  predicate IsMapped(b: Bytes16) {
    b[..12] == MAPPED
  }

  function Unmap(ip: Addr): Addr {
    if ip.V6? && IsMapped(ip.a16) then V4(ip.a16[12..]) else ip
  }

  predicate IsLinkLocal(b: Bytes16) {
    b[0] == 0xfe && 0x80 <= b[1] < 0xc0
  }

  datatype Fault =
    | ZeroAddr | ZoneOnInet | NotIPv4 | BufferTooSmall | ZoneOnIPv4 | ZoneNotLinkLocal | BadZone
    | UnknownFamily | ShortEntry | TooMany | NegativeCount

  datatype Result<T> = Ok(value: T) | Err(fault: Fault)

  // ----- Zones -----

  function Decimal(n: nat): string {
    (if n < 10 then [] else Decimal(n / 10)) + [Digit(n % 10)]
  }

  function Digit(d: nat): char
    requires d < 10
  {
    ('0' as int + d) as char
  }

  /** strconv.ParseUint without its bound. */
  function ParseDecimal(s: string): Option<nat> {
    if s == [] then None
    else
      var d, c := |s| - 1, s[|s| - 1];
      if !('0' <= c <= '9') then None
      else if d == 0 then Some(c as int - '0' as int)
      else
        var rest := ParseDecimal(s[..d]);
        if rest.None? then None else Some(10 * rest.value + (c as int - '0' as int))
  }

  lemma {:induction false} DecimalParses(n: nat)
    ensures ParseDecimal(Decimal(n)) == Some(n)
  {
    var s := Decimal(n);
    if n >= 10 {
      DecimalParses(n / 10);
      assert s[..|s| - 1] == Decimal(n / 10);
    }
  }

  /** The host's interfaces. */
  datatype Zones = Zones(byName: map<string, int>, byIndex: map<u32, string>)

  function EncodeZone(zones: Zones, zone: string): Result<u32> {
    if zone == "" then Ok(0)
    else if zone in zones.byName then
      var index := zones.byName[zone];
      if index < 0 then Err(BadZone) else Ok(index % 0x1_0000_0000)
    else
      var n := ParseDecimal(zone);
      if n.None? || n.value >= 0x1_0000_0000 || n.value == 0 then Err(BadZone) else Ok(n.value)
  }

  function ZoneName(zones: Zones, index: u32): string {
    if index == 0 then "" else if index in zones.byIndex then zones.byIndex[index] else Decimal(index)
  }

  /** Which zones resolve: none at all, an interface's name, and otherwise a decimal index that is not zero. */
  lemma ZoneRules(zones: Zones, zone: string)
    ensures EncodeZone(zones, "") == Ok(0)
    ensures zone != "" && zone in zones.byName && zones.byName[zone] < 0 ==> EncodeZone(zones, zone).Err?
    ensures zone != "" && zone in zones.byName && 0 <= zones.byName[zone] < 4294967296 ==> EncodeZone(zones, zone) == Ok(zones.byName[zone])
    ensures zone != "" && zone !in zones.byName ==>
      match ParseDecimal(zone)
      case None => EncodeZone(zones, zone).Err?
      case Some(n) => EncodeZone(zones, zone) == if 1 <= n <= 4294967295 then Ok(n) else Err(BadZone)
  {
  }

  /** A zone survives when the tables name it both ways, or when it is a plain index that names nothing. */
  lemma ZoneKept(zones: Zones, zone: string, n: u32)
    requires n > 0 && zone != ""
    requires if zone in zones.byName then zones.byName[zone] == n && n in zones.byIndex && zones.byIndex[n] == zone
             else zone == Decimal(n) && n !in zones.byIndex
    ensures EncodeZone(zones, zone) == Ok(n) && ZoneName(zones, n) == zone
  {
    DecimalParses(n);
  }

  // ----- One entry -----

  const AF_INET := 2
  const AF_INET6 := 10
  const SIZE_IN := 16
  const SIZE_IN6 := 28

  function SizeOf(family: int): Result<nat> {
    if family == AF_INET then Ok(SIZE_IN) else if family == AF_INET6 then Ok(SIZE_IN6) else Err(UnknownFamily)
  }

  function EntryIn(order: Order, a: Bytes4, port: u16): (e: seq<byte>)
    ensures |e| == SIZE_IN
  {
    Put16(order, AF_INET) + Put16(Big, port) + a + Zeros(8)
  }

  function EntryIn6(order: Order, a: Bytes16, scope: u32, port: u16): (e: seq<byte>)
    ensures |e| == SIZE_IN6
  {
    Put16(order, AF_INET6) + Put16(Big, port) + Zeros(4) + a + Put32(order, scope)
  }

  /** The address an AF_INET6 entry carries: IPv4 mapped, and its wildcard as the IPv6 one. */
  function Wire(ip: Addr): Bytes16
    requires !ip.NoAddr?
  {
    match Unmap(ip)
    case V4(a) => if a == Zeros(4) then Zeros(16) else MAPPED + a
    case V6(a, _) => a
  }

  /** The entry of an address, or why it has none. */
  function Entry(order: Order, zones: Zones, family: int, ip: Addr, port: u16): (r: Result<seq<byte>>)
    ensures r.Ok? ==> SizeOf(family) == Ok(|r.value|)
  {
    if ip.NoAddr? then Err(ZeroAddr)
    else if family == AF_INET then
      if ip.V6? && ip.zone != "" then Err(ZoneOnInet)
      else if !Unmap(ip).V4? then Err(NotIPv4)
      else Ok(EntryIn(order, Unmap(ip).a4, port))
    else if family == AF_INET6 then
      if ip.V6? && ip.zone != "" && Unmap(ip).V4? then Err(ZoneOnIPv4)
      else if ip.V6? && ip.zone != "" && !IsLinkLocal(ip.a16) then Err(ZoneNotLinkLocal)
      else
        var scope := EncodeZone(zones, if ip.V6? then ip.zone else "");
        if scope.Err? then Err(scope.fault) else Ok(EntryIn6(order, Wire(ip), scope.value, port))
    else Err(UnknownFamily)
  }

  /** What an address reads back as. */
  function Normal(zones: Zones, family: int, ip: Addr): Addr {
    match Unmap(ip)
    case NoAddr => NoAddr
    case V4(a) => if family == AF_INET6 && a == Zeros(4) then V6(Zeros(16), "") else V4(a)
    case V6(a, zone) =>
      var scope := EncodeZone(zones, zone);
      if scope.Ok? then V6(a, ZoneName(zones, scope.value)) else V6(a, zone)
  }

  function EntrySize(order: Order, b: seq<byte>, at: int): (r: Result<nat>)
    ensures r.Ok? ==> 0 <= at && at + r.value <= |b| && r.value >= SIZE_IN
  {
    if at < 0 || at + 2 > |b| then Err(ShortEntry)
    else
      var size := SizeOf(At16(order, b, at));
      if size.Err? then size
      else if at + size.value > |b| then Err(ShortEntry)
      else size
  }

  /** The address of a whole entry. */
  function AddrOf(order: Order, zones: Zones, e: seq<byte>): Addr
    requires EntrySize(order, e, 0).Ok?
  {
    if At16(order, e, 0) == AF_INET then V4(e[4..8])
    else
      var a := e[8..24];
      if IsMapped(a) then V4(a[12..])
      else V6(a, if IsLinkLocal(a) then ZoneName(zones, At32(order, e, 24)) else "")
  }

  /** The port of an entry: at the same place in both families. */
  function PortOf(e: seq<byte>): u16
    requires |e| >= 4
  {
    At16(Big, e, 2)
  }

  lemma EntryInFields(order: Order, a: Bytes4, port: u16)
    ensures var e := EntryIn(order, a, port);
      |e| == 16 && At16(order, e, 0) == 2 && At16(Big, e, 2) == port && e[4..8] == a && e[8..] == Zeros(8)
  {
    var e := EntryIn(order, a, port);
    assert e[0..2] == Put16(order, AF_INET);
    assert e[2..4] == Put16(Big, port);
    assert e[8..] == Zeros(8);
    Get16(order, AF_INET);
    Get16(Big, port);
  }

  lemma EntryIn6Fields(order: Order, a: Bytes16, scope: u32, port: u16)
    ensures var e := EntryIn6(order, a, scope, port);
      && |e| == 28 && At16(order, e, 0) == 10 && At16(Big, e, 2) == port && e[4..8] == Zeros(4)
      && e[8..24] == a && At32(order, e, 24) == scope
  {
    var e := EntryIn6(order, a, scope, port);
    assert e[0..2] == Put16(order, AF_INET6);
    assert e[2..4] == Put16(Big, port);
    assert e[24..28] == Put32(order, scope);
    Get16(order, AF_INET6);
    Get16(Big, port);
    Get32(order, scope);
  }

  /** What a family's number says of the size of an entry, and when there is none. */
  lemma SizesExact(order: Order, b: seq<byte>, at: nat)
    ensures at + 2 > |b| ==> EntrySize(order, b, at) == Err(ShortEntry)
    ensures at + 2 <= |b| && At16(order, b, at) == 2 ==>
      EntrySize(order, b, at) == if at + 16 <= |b| then Ok(16) else Err(ShortEntry)
    ensures at + 2 <= |b| && At16(order, b, at) == 10 ==>
      EntrySize(order, b, at) == if at + 28 <= |b| then Ok(28) else Err(ShortEntry)
    ensures at + 2 <= |b| && At16(order, b, at) != 2 && At16(order, b, at) != 10 ==> EntrySize(order, b, at) == Err(UnknownFamily)
  {
  }

  /** The prefixes ::ffff:0:0/96 and fe80::/10. */
  lemma PrefixesExact(b: Bytes16)
    ensures IsMapped(b) <==> (forall i :: 0 <= i < 10 ==> b[i] == 0) && b[10] == 255 && b[11] == 255
    ensures IsLinkLocal(b) <==> b[0] == 254 && b[1] / 64 == 2
  {
    assert IsMapped(b) ==> forall i :: 0 <= i < 12 ==> b[i] == b[..12][i] == MAPPED[i];
  }

  /** Which addresses have an entry: on AF_INET the IPv4 ones without a zone; on AF_INET6 all but a zone that does not belong or resolve. */
  lemma EntryExists(order: Order, zones: Zones, family: int, ip: Addr, port: u16)
    ensures Entry(order, zones, family, ip, port).Ok? <==>
      && !ip.NoAddr?
      && (family == 2 || family == 10)
      && (family == 2 ==> (ip.V4? || IsMapped(ip.a16)) && (ip.V6? ==> ip.zone == ""))
      && (family == 10 && ip.V6? && ip.zone != "" ==>
            !IsMapped(ip.a16) && IsLinkLocal(ip.a16) && EncodeZone(zones, ip.zone).Ok?)
  {
  }

  /** An entry has the size of its family, and reads back as the normal form of its address. */
  lemma EntryRoundTrip(order: Order, zones: Zones, family: int, ip: Addr, port: u16)
    requires Entry(order, zones, family, ip, port).Ok?
    ensures var e := Entry(order, zones, family, ip, port).value;
      EntrySize(order, e, 0) == Ok(|e|) && AddrOf(order, zones, e) == Normal(zones, family, ip) && PortOf(e) == port
  {
    if family == AF_INET {
      EntryInFields(order, Unmap(ip).a4, port);
    } else {
      EntryIn6Fields(order, Wire(ip), EncodeZone(zones, if ip.V6? then ip.zone else "").value, port);
      WireIsMapped(ip);
    }
  }

  /** The mapped form of an IPv4 address is told apart from every IPv6 address, and from the wildcard. */
  lemma WireIsMapped(ip: Addr)
    requires !ip.NoAddr?
    ensures IsMapped(Wire(ip)) <==> Unmap(ip).V4? && Unmap(ip).a4 != Zeros(4)
    ensures IsMapped(Wire(ip)) ==> Wire(ip)[12..] == Unmap(ip).a4
  {
    assert Zeros(16)[10] == 0 && MAPPED[10] == 255;
    if Unmap(ip).V4? {
      assert (MAPPED + Unmap(ip).a4)[..12] == MAPPED && (MAPPED + Unmap(ip).a4)[12..] == Unmap(ip).a4;
    }
  }

  /** Writes the entry of an address into dst[from..to], and nothing when there is an error. */
  method EncodeAddr(order: Order, zones: Zones, dst: array<byte>, from: nat, to: nat, family: int, ip: Addr, port: u16)
    returns (r: Result<nat>)
    requires from <= to <= dst.Length
    modifies dst
    ensures var e := Entry(order, zones, family, ip, port);
      && (r.Ok? <==> e.Ok? && |e.value| <= to - from)
      && (r.Ok? ==> r.value == |e.value| && dst[..] == Splice(old(dst[..]), from, e.value))
      && (r.Err? ==> dst[..] == old(dst[..]))
      && (r.Err? && e.Err? ==> r == Err(e.fault) || (r == Err(BufferTooSmall) && family == AF_INET6 && to - from < SIZE_IN6))
      && (r.Err? && e.Ok? ==> r == Err(BufferTooSmall))
  {
    if ip.NoAddr? { return Err(ZeroAddr); }
    var zone := if ip.V6? then ip.zone else "";
    var unmapped := Unmap(ip);
    if family == AF_INET {
      if zone != "" { return Err(ZoneOnInet); }
      if !unmapped.V4? { return Err(NotIPv4); }
      if to - from < SIZE_IN { return Err(BufferTooSmall); }
      WriteIn(order, dst, from, unmapped.a4, port);
      return Ok(SIZE_IN);
    }
    if family != AF_INET6 { return Err(UnknownFamily); }
    if to - from < SIZE_IN6 { return Err(BufferTooSmall); }
    var scope := 0;
    if zone != "" {
      if unmapped.V4? { return Err(ZoneOnIPv4); }
      if !IsLinkLocal(unmapped.a16) { return Err(ZoneNotLinkLocal); }
      var s := EncodeZone(zones, zone);
      if s.Err? { return Err(s.fault); }
      scope := s.value;
    }
    WriteIn6(order, dst, from, Wire(ip), scope, port);
    return Ok(SIZE_IN6);
  }

  method WriteIn(order: Order, dst: array<byte>, from: nat, a: Bytes4, port: u16)
    requires from + SIZE_IN <= dst.Length
    modifies dst
    ensures dst[..] == Splice(old(dst[..]), from, EntryIn(order, a, port))
  {
    ghost var was := dst[..];
    var f, p := Put16(order, AF_INET), Put16(Big, port);
    Write(dst, from, f);
    Write(dst, from + 2, p);
    SpliceTwice(was, from, f, p);
    Write(dst, from + 4, a);
    SpliceTwice(was, from, f + p, a);
    Write(dst, from + 8, Zeros(8));
    SpliceTwice(was, from, f + p + a, Zeros(8));
  }

  method WriteIn6(order: Order, dst: array<byte>, from: nat, a: Bytes16, scope: u32, port: u16)
    requires from + SIZE_IN6 <= dst.Length
    modifies dst
    ensures dst[..] == Splice(old(dst[..]), from, EntryIn6(order, a, scope, port))
  {
    ghost var was := dst[..];
    var f, p := Put16(order, AF_INET6), Put16(Big, port);
    Write(dst, from, f);
    Write(dst, from + 2, p);
    SpliceTwice(was, from, f, p);
    Write(dst, from + 4, Zeros(4));
    SpliceTwice(was, from, f + p, Zeros(4));
    Write(dst, from + 8, a);
    SpliceTwice(was, from, f + p + Zeros(4), a);
    Write(dst, from + 24, Put32(order, scope));
    SpliceTwice(was, from, f + p + Zeros(4) + a, Put32(order, scope));
  }

  // ----- Packed arrays -----

  predicate AllOk(order: Order, zones: Zones, family: int, ips: seq<Addr>, port: u16) {
    forall i :: 0 <= i < |ips| ==> Entry(order, zones, family, ips[i], port).Ok?
  }

  /** The entries of the addresses, one each. */
  function EntriesOf(order: Order, zones: Zones, family: int, ips: seq<Addr>, port: u16): (es: seq<seq<byte>>)
    requires AllOk(order, zones, family, ips, port)
    ensures |es| == |ips|
  {
    seq(|ips|, i requires 0 <= i < |ips| => Entry(order, zones, family, ips[i], port).value)
  }

  function Join(es: seq<seq<byte>>): seq<byte> {
    if es == [] then [] else es[0] + Join(es[1..])
  }

  lemma {:induction false} JoinSnoc(es: seq<seq<byte>>, e: seq<byte>)
    ensures Join(es + [e]) == Join(es) + e
  {
    var all := es + [e];
    if es == [] {
      assert all[1..] == [];
    } else {
      assert all[1..] == es[1..] + [e];
      JoinSnoc(es[1..], e);
    }
  }

  /** Packs the addresses back to back; on an error, the first address that has no entry says which. */
  method EncodeAddrs(order: Order, zones: Zones, family: int, ips: seq<Addr>, port: u16)
    returns (r: Result<array<byte>>, bad: nat)
    ensures r.Ok? <==> SizeOf(family).Ok? && AllOk(order, zones, family, ips, port)
    ensures r.Ok? ==> fresh(r.value) && r.value[..] == Join(EntriesOf(order, zones, family, ips, port))
    ensures r.Err? && SizeOf(family).Err? ==> r == Err(UnknownFamily)
    ensures r.Err? && SizeOf(family).Ok? ==>
      && bad < |ips| && AllOk(order, zones, family, ips[..bad], port)
      && Entry(order, zones, family, ips[bad], port) == Err(r.fault)
  {
    bad := 0;
    var size := SizeOf(family);
    if size.Err? { return Err(size.fault), 0; }
    var n, z := |ips|, size.value;
    var buf := new byte[n * z];
    var at := 0;
    while bad < n
      invariant 0 <= bad <= n && at == bad * z
      invariant AllOk(order, zones, family, ips[..bad], port)
      invariant at <= buf.Length && buf[..at] == Join(EntriesOf(order, zones, family, ips[..bad], port))
    {
      assert at + z == (bad + 1) * z <= n * z by { Fits(bad + 1, n, z); }
      ghost var was := buf[..];
      var e := EncodeAddr(order, zones, buf, at, at + z, family, ips[bad], port);
      if e.Err? { return Err(e.fault), bad; }
      NextEntry(order, zones, family, ips, bad, port);
      assert buf[..at + z] == was[..at] + Entry(order, zones, family, ips[bad], port).value;
      bad, at := bad + 1, at + z;
    }
    assert ips[..n] == ips;
    return Ok(buf), bad;
  }

  lemma NextEntry(order: Order, zones: Zones, family: int, ips: seq<Addr>, i: nat, port: u16)
    requires i < |ips| && AllOk(order, zones, family, ips[..i], port) && Entry(order, zones, family, ips[i], port).Ok?
    ensures AllOk(order, zones, family, ips[..i + 1], port)
    ensures Join(EntriesOf(order, zones, family, ips[..i + 1], port))
         == Join(EntriesOf(order, zones, family, ips[..i], port)) + Entry(order, zones, family, ips[i], port).value
  {
    OneMore(order, zones, family, ips[..i], ips[i], port);
    assert ips[..i + 1] == ips[..i] + [ips[i]];
  }

  lemma OneMore(order: Order, zones: Zones, family: int, ips: seq<Addr>, ip: Addr, port: u16)
    requires AllOk(order, zones, family, ips, port) && Entry(order, zones, family, ip, port).Ok?
    ensures AllOk(order, zones, family, ips + [ip], port)
    ensures Join(EntriesOf(order, zones, family, ips + [ip], port))
         == Join(EntriesOf(order, zones, family, ips, port)) + Entry(order, zones, family, ip, port).value
  {
    var es, e := EntriesOf(order, zones, family, ips, port), Entry(order, zones, family, ip, port).value;
    assert EntriesOf(order, zones, family, ips + [ip], port) == es + [e];
    JoinSnoc(es, e);
  }

  lemma Fits(i: nat, n: nat, z: nat)
    requires i <= n
    ensures i * z <= n * z
  {
  }

  /** Where entry i starts: after the sizes of the entries before it, each as its own family says; -1 if one is missing. */
  function Offset(order: Order, b: seq<byte>, i: nat): (at: int)
    ensures at >= 0 ==> 16 * i <= at <= |b|
  {
    if i == 0 then 0
    else
      var at := Offset(order, b, i - 1);
      if at < 0 then at
      else
        var size := EntrySize(order, b, at);
        if size.Ok? then at + size.value else -1
  }

  /** An entry that is missing stays missing. */
  lemma {:induction false} MissingStays(order: Order, b: seq<byte>, i: nat, n: nat)
    requires i <= n && Offset(order, b, i) < 0
    ensures Offset(order, b, n) < 0
    decreases n
  {
    if i < n { MissingStays(order, b, i, n - 1); }
  }

  /** The bytes of entry i. */
  function Slot(order: Order, b: seq<byte>, i: nat): (e: seq<byte>)
    requires Offset(order, b, i + 1) >= 0
    ensures EntrySize(order, e, 0) == Ok(|e|)
  {
    var at := Offset(order, b, i);
    var e := b[at..Offset(order, b, i + 1)];
    SameSize(order, b, at, e);
    e
  }

  lemma SameSize(order: Order, b: seq<byte>, at: nat, e: seq<byte>)
    requires at + |e| <= |b| && |e| >= 2 && e == b[at..at + |e|]
    ensures EntrySize(order, e, 0) == Ok(|e|) <==> EntrySize(order, b, at) == Ok(|e|)
  {
    assert e[0..2] == b[at..at + 2];
  }

  /** The addresses of the first n entries. */
  function AddrsOf(order: Order, zones: Zones, b: seq<byte>, n: nat): (ips: seq<Addr>)
    requires Offset(order, b, n) >= 0
    ensures |ips| == n
  {
    if n == 0 then []
    else AddrsOf(order, zones, b, n - 1) + [AddrOf(order, zones, Slot(order, b, n - 1))]
  }

  /** Entry `bad` is the first that is missing, and this is why. */
  predicate FirstFault(order: Order, b: seq<byte>, bad: nat, fault: Fault) {
    Offset(order, b, bad) >= 0 && EntrySize(order, b, Offset(order, b, bad)) == Err(fault)
  }

  /** The first walk: checks every entry before anything is sized by their number. */
  method CheckEntries(order: Order, b: seq<byte>, n: nat) returns (bad: nat, fault: Option<Fault>)
    ensures fault.None? <==> Offset(order, b, n) >= 0
    ensures fault.Some? ==> bad < n && FirstFault(order, b, bad, fault.value)
  {
    bad := 0;
    var at := 0;
    while bad < n
      invariant 0 <= bad <= n && Offset(order, b, bad) == at >= 0
    {
      var size := EntrySize(order, b, at);
      if size.Err? {
        MissingStays(order, b, bad + 1, n);
        return bad, Some(size.fault);
      }
      at, bad := at + size.value, bad + 1;
    }
    return bad, None;
  }

  lemma NextSlot(order: Order, b: seq<byte>, i: nat, n: nat)
    requires i < n && Offset(order, b, n) >= 0 && Offset(order, b, i) >= 0
    ensures var at := Offset(order, b, i);
      var size := EntrySize(order, b, at);
      && size.Ok? && Offset(order, b, i + 1) == at + size.value
      && Slot(order, b, i) == b[at..at + size.value]
  {
    if Offset(order, b, i + 1) < 0 { MissingStays(order, b, i + 1, n); }
  }

  lemma FirstPort(b: seq<byte>, entry: seq<byte>)
    requires |entry| >= 4 && entry <= b
    ensures PortOf(entry) == PortOf(b)
  {
    assert entry[2..4] == b[2..4];
  }

  /** The second walk after i entries: where it is, and what it has. */
  predicate Read(order: Order, zones: Zones, b: seq<byte>, i: nat, at: nat, ips: seq<Addr>) {
    Offset(order, b, i) == at && ips == AddrsOf(order, zones, b, i)
  }

  method ReadEntry(order: Order, zones: Zones, b: seq<byte>, i: nat, at: nat, ips: seq<Addr>, ghost n: nat)
    returns (at': nat, ips': seq<Addr>, port: u16)
    requires i < n && Offset(order, b, n) >= 0 && Read(order, zones, b, i, at, ips)
    ensures Read(order, zones, b, i + 1, at', ips') && (i == 0 ==> port == PortOf(b))
  {
    NextSlot(order, b, i, n);
    var size := EntrySize(order, b, at).value;
    var entry := b[at..at + size];
    OneMoreAddr(order, zones, b, i, entry);
    if i == 0 { FirstPort(b, entry); }
    return at + size, ips + [AddrOf(order, zones, entry)], PortOf(entry);
  }

  lemma OneMoreAddr(order: Order, zones: Zones, b: seq<byte>, i: nat, entry: seq<byte>)
    requires Offset(order, b, i + 1) >= 0 && entry == Slot(order, b, i)
    ensures AddrsOf(order, zones, b, i + 1) == AddrsOf(order, zones, b, i) + [AddrOf(order, zones, entry)]
  {
  }

  /** The second walk, which never fails: every entry was found whole. */
  method ReadEntries(order: Order, zones: Zones, b: seq<byte>, n: nat) returns (ips: seq<Addr>, port: u16)
    requires n > 0 && Offset(order, b, n) >= 0
    ensures ips == AddrsOf(order, zones, b, n)
    ensures port == PortOf(b)
  {
    ips, port := [], 0;
    var at: nat, i: nat := 0, 0;
    while i < n
      invariant i <= n && Read(order, zones, b, i, at, ips)
      invariant i > 0 ==> port == PortOf(b)
    {
      var p;
      at, ips, p := ReadEntry(order, zones, b, i, at, ips, n);
      if i == 0 { port := p; }
      i := i + 1;
    }
  }

  datatype Addrs = Addrs(ips: seq<Addr>, port: u16)

  /** Decodes n packed entries: all of them, or the fault of the first that is missing. */
  method DecodeAddrs(order: Order, zones: Zones, b: seq<byte>, n: int) returns (r: Result<Addrs>, bad: nat)
    ensures n < 0 ==> r == Err(NegativeCount)
    ensures n == 0 ==> r == Ok(Addrs([], 0))
    ensures n > 0 && 16 * n > |b| ==> r == Err(TooMany)
    ensures n > 0 && 16 * n <= |b| ==>
      if Offset(order, b, n) >= 0 then r == Ok(Addrs(AddrsOf(order, zones, b, n), PortOf(b)))
      else r.Err? && bad < n && FirstFault(order, b, bad, r.fault)
  {
    bad := 0;
    if n < 0 { return Err(NegativeCount), 0; }
    if n == 0 { return Ok(Addrs([], 0)), 0; }
    if n > |b| / 16 { return Err(TooMany), 0; }
    var fault;
    bad, fault := CheckEntries(order, b, n);
    if fault.Some? { return Err(fault.value), bad; }
    var ips, port := ReadEntries(order, zones, b, n);
    return Ok(Addrs(ips, port)), bad;
  }

  // ----- The round trip -----

  predicate Whole(order: Order, es: seq<seq<byte>>) {
    forall i :: 0 <= i < |es| ==> EntrySize(order, es[i], 0) == Ok(|es[i]|)
  }

  /** Joined entries of any families, whatever follows them, are found again one by one. */
  lemma {:induction false} EntriesFound(order: Order, es: seq<seq<byte>>, b: seq<byte>, n: nat)
    requires Whole(order, es) && Join(es) <= b && n <= |es|
    ensures Offset(order, b, n) == |Join(es[..n])|
  {
    if n > 0 {
      EntriesFound(order, es, b, n - 1);
      SizeFound(order, es, b, n - 1);
      NextOffset(order, b, n, |Join(es[..n - 1])|, |es[n - 1]|);
    }
  }

  lemma SizeFound(order: Order, es: seq<seq<byte>>, b: seq<byte>, i: nat)
    requires Whole(order, es) && Join(es) <= b && i < |es|
    ensures EntrySize(order, b, |Join(es[..i])|) == Ok(|es[i]|) && |Join(es[..i + 1])| == |Join(es[..i])| + |es[i]|
  {
    JoinedAt(es, b, i);
    SameSize(order, b, |Join(es[..i])|, es[i]);
  }

  lemma NextOffset(order: Order, b: seq<byte>, n: nat, at: nat, size: nat)
    requires n > 0 && Offset(order, b, n - 1) == at && EntrySize(order, b, at) == Ok(size)
    ensures Offset(order, b, n) == at + size
  {
  }

  lemma SlotAt(order: Order, b: seq<byte>, k: nat, at: nat, e: seq<byte>)
    requires Offset(order, b, k) == at && Offset(order, b, k + 1) == at + |e| <= |b| && b[at..at + |e|] == e
    ensures Slot(order, b, k) == e
  {
  }

  lemma JoinedAt(es: seq<seq<byte>>, b: seq<byte>, i: nat)
    requires Join(es) <= b && i < |es|
    ensures var at := |Join(es[..i])|;
      && at + |es[i]| == |Join(es[..i + 1])| <= |b| && b[at..at + |es[i]|] == es[i]
  {
    var at, e := |Join(es[..i])|, es[i];
    JoinSplit(es, i + 1);
    assert es[..i + 1] == es[..i] + [e];
    JoinSnoc(es[..i], e);
    assert b[at..at + |e|] == Join(es[..i + 1])[at..];
  }

  lemma {:induction false} JoinSplit(es: seq<seq<byte>>, i: nat)
    requires i <= |es|
    ensures Join(es[..i]) <= Join(es)
  {
    if i > 0 {
      JoinSplit(es[1..], i - 1);
      assert es[..i][1..] == es[1..][..i - 1];
    }
  }

  function Normals(zones: Zones, family: int, ips: seq<Addr>): (r: seq<Addr>)
    ensures |r| == |ips|
  {
    seq(|ips|, i requires 0 <= i < |ips| => Normal(zones, family, ips[i]))
  }

  lemma {:induction false} AddrsAt(order: Order, zones: Zones, b: seq<byte>, n: nat, k: nat)
    requires Offset(order, b, n) >= 0 && k < n
    ensures Offset(order, b, k + 1) >= 0 && AddrsOf(order, zones, b, n)[k] == AddrOf(order, zones, Slot(order, b, k))
    decreases n
  {
    if k < n - 1 { AddrsAt(order, zones, b, n - 1, k); }
  }

  /** What EncodeAddrs packs, whatever follows it, DecodeAddrs reads back in normal form, with the port. */
  lemma PackedRoundTrip(order: Order, zones: Zones, family: int, ips: seq<Addr>, port: u16, tail: seq<byte>)
    requires AllOk(order, zones, family, ips, port)
    ensures var b := Join(EntriesOf(order, zones, family, ips, port)) + tail;
      && Offset(order, b, |ips|) >= 0
      && AddrsOf(order, zones, b, |ips|) == Normals(zones, family, ips)
      && (ips != [] ==> PortOf(b) == port)
  {
    var es := EntriesOf(order, zones, family, ips, port);
    var b := Join(es) + tail;
    EntriesWhole(order, zones, family, ips, port);
    EntriesFound(order, es, b, |ips|);
    forall k | 0 <= k < |ips|
      ensures AddrsOf(order, zones, b, |ips|)[k] == Normals(zones, family, ips)[k]
    {
      AddrFound(order, zones, es, b, k);
      EntryRoundTrip(order, zones, family, ips[k], port);
    }
    if ips != [] { PortReadsBack(order, zones, family, ips, port, tail); }
  }

  lemma AddrFound(order: Order, zones: Zones, es: seq<seq<byte>>, b: seq<byte>, k: nat)
    requires Whole(order, es) && Join(es) <= b && k < |es| && Offset(order, b, |es|) >= 0
    ensures AddrsOf(order, zones, b, |es|)[k] == AddrOf(order, zones, es[k])
  {
    SlotFound(order, es, b, k);
    AddrsAt(order, zones, b, |es|, k);
  }

  lemma SlotFound(order: Order, es: seq<seq<byte>>, b: seq<byte>, k: nat)
    requires Whole(order, es) && Join(es) <= b && k < |es|
    ensures Offset(order, b, k + 1) >= 0 && Slot(order, b, k) == es[k]
  {
    EntriesFound(order, es, b, k);
    EntriesFound(order, es, b, k + 1);
    JoinedAt(es, b, k);
    SlotAt(order, b, k, |Join(es[..k])|, es[k]);
  }

  lemma PortReadsBack(order: Order, zones: Zones, family: int, ips: seq<Addr>, port: u16, tail: seq<byte>)
    requires AllOk(order, zones, family, ips, port) && ips != []
    ensures var b := Join(EntriesOf(order, zones, family, ips, port)) + tail;
      |b| >= 4 && PortOf(b) == port
  {
    var es := EntriesOf(order, zones, family, ips, port);
    EntryRoundTrip(order, zones, family, ips[0], port);
    assert (Join(es) + tail)[2..4] == es[0][2..4];
  }

  lemma EntriesWhole(order: Order, zones: Zones, family: int, ips: seq<Addr>, port: u16)
    requires AllOk(order, zones, family, ips, port)
    ensures Whole(order, EntriesOf(order, zones, family, ips, port))
  {
    var es := EntriesOf(order, zones, family, ips, port);
    forall i | 0 <= i < |es| ensures EntrySize(order, es[i], 0) == Ok(|es[i]|) {
      EntryRoundTrip(order, zones, family, ips[i], port);
    }
  }
}
