/**
  Reassembly of notification records (notification.go, recv_linux.go).

  A record arrives cut at arbitrary places. `NotificationAccumulator` takes the pieces one by one;
  its methods are functions on `Acc`; and the theorems say that, for a record within the limit, the
  verdict, its kind and the bytes kept depend on the record alone and not on the cuts.
*/
module Accumulator {
  import opened Wrappers
  import opened Bytes

  const HEADER := 8
  const PREFIX := 20             // sizeAssocChange
  const LIMIT: nat := 0x10_0000  // NotificationReassemblyLimit

  datatype Fault = Short | TooLong

  datatype Acc = Acc(
    data: seq<byte>,
    prefix: seq<byte>,   // the first bytes of the record, at most PREFIX of them
    total: nat,
    declared: nat,
    haveDeclared: bool,
    retain: bool,
    err: Option<Fault>)

  const EMPTY := Acc([], [], 0, 0, false, false, None)

  function Min(a: nat, b: nat): nat {
    if a < b then a else b
  }

  function Fail(a: Acc, f: Fault): Acc {
    a.(err := Some(f), data := [])
  }

  function Add(order: Order, a: Acc, piece: seq<byte>): Acc {
    if a.err.Some? || piece == [] then a
    else if |piece| > LIMIT - a.total then Fail(a, TooLong)
    else
      var a1 := a.(prefix := if |a.prefix| < PREFIX then a.prefix + piece[..Min(PREFIX - |a.prefix|, |piece|)] else a.prefix,
                   total := a.total + |piece|);
      var a2 := if |a1.prefix| >= HEADER && !a1.haveDeclared
                then a1.(declared := At32(order, a1.prefix, 4), haveDeclared := true) else a1;
      if a2.haveDeclared && !a1.haveDeclared && a2.declared < HEADER then Fail(a2, Short)
      else if a2.haveDeclared && !a1.haveDeclared && a2.declared > LIMIT then Fail(a2, TooLong)
      else if a2.haveDeclared && a2.total > a2.declared then Fail(a2, Short)
      else if a2.retain then a2.(data := a2.data + piece)
      else a2
  }

  /** The type of the record in progress, counting the piece that comes next. */
  function PeekType(order: Order, a: Acc, next: seq<byte>): Option<u16> {
    if a.total + |next| < HEADER then None
    else
      var hdr := a.prefix + next;
      if |hdr| < 2 then None else Some(At16(order, hdr, 0))
  }

  function Keep(a: Acc): (Acc, bool) {
    if a.retain then (a, true)
    else if a.err.Some? || a.total > |a.prefix| then (a, false)
    else (a.(retain := true, data := a.data + a.prefix), true)
  }

  function Finish(a: Acc): (seq<byte>, Option<Fault>) {
    if a.err.Some? then ([], a.err)
    else if !a.haveDeclared || a.total != a.declared then ([], Some(Short))
    else (a.data, None)
  }

  class NotificationAccumulator {
    const order: Order
    var data: seq<byte>
    var prefix: seq<byte>
    var total: nat
    var declared: nat
    var haveDeclared: bool
    var retain: bool
    var err: Option<Fault>

    constructor (order: Order)
      ensures View() == EMPTY && this.order == order
    {
      this.order := order;
      data, prefix, total, declared, haveDeclared, retain, err := [], [], 0, 0, false, false, None;
    }

    function View(): Acc
      reads this
    {
      Acc(data, prefix, total, declared, haveDeclared, retain, err)
    }

    method FailWith(f: Fault)
      modifies this`err, this`data
      ensures View() == Fail(old(View()), f)
    {
      err := Some(f);
      data := [];
    }

    method AddPiece(piece: seq<byte>)
      modifies this
      ensures View() == Add(order, old(View()), piece)
    {
      if err.Some? || |piece| == 0 { return; }
      if |piece| > LIMIT - total {
        FailWith(TooLong);
        return;
      }
      if |prefix| < PREFIX {
        prefix := prefix + piece[..Min(PREFIX - |prefix|, |piece|)];
      }
      total := total + |piece|;
      if |prefix| >= HEADER && !haveDeclared {
        declared := At32(order, prefix, 4);
        haveDeclared := true;
        if declared < HEADER {
          FailWith(Short);
          return;
        }
        if declared > LIMIT {
          FailWith(TooLong);
          return;
        }
      }
      if haveDeclared && total > declared {
        FailWith(Short);
        return;
      }
      if retain { data := data + piece; }
    }

    method KeepRecord() returns (kept: bool)
      modifies this
      ensures (View(), kept) == Keep(old(View()))
    {
      if retain { return true; }
      if err.Some? || total > |prefix| { return false; }
      retain := true;
      data := data + prefix;
      return true;
    }

    method FinishRecord() returns (record: seq<byte>, fault: Option<Fault>)
      ensures (record, fault) == Finish(View())
    {
      if err.Some? { return [], err; }
      if !haveDeclared || total != declared { return [], Some(Short); }
      return data, None;
    }

    /** The faults reported for a record without its delimiter: Short always, and a more specific one. */
    method Interrupted() returns (faults: set<Fault>)
      ensures Short in faults
      ensures faults == {Short} + (if Finish(View()).1.Some? then {Finish(View()).1.value} else {})
    {
      var _, fault := FinishRecord();
      if fault.None? { return {Short}; }
      if fault.value == Short { return {Short}; }
      return {fault.value, Short};
    }

    method Reset()
      modifies this
      ensures View() == EMPTY
    {
      data, prefix, total, declared, haveDeclared, retain, err := [], [], 0, 0, false, false, None;
    }
  }

  // ----- What a record is worth, in itself -----

  function Declared(order: Order, rec: seq<byte>): nat
    requires |rec| >= HEADER
  {
    At32(order, rec, 4)
  }

  /** The fault of a whole record, or none. */
  function Framing(order: Order, rec: seq<byte>): Option<Fault> {
    if |rec| < HEADER then Some(Short)
    else
      var d := Declared(order, rec);
      if d < HEADER then Some(Short)
      else if d > LIMIT then Some(TooLong)
      else if |rec| != d then Some(Short)
      else None
  }

  function Concat(pieces: seq<seq<byte>>): seq<byte> {
    if pieces == [] then [] else pieces[0] + Concat(pieces[1..])
  }

  function AddAll(order: Order, a: Acc, pieces: seq<seq<byte>>): Acc
    decreases |pieces|
  {
    if pieces == [] then a else AddAll(order, Add(order, a, pieces[0]), pieces[1..])
  }

  // ----- The invariant: an accumulator that has seen the first bytes of a record -----

  predicate Sound(order: Order, a: Acc, seen: seq<byte>) {
    && a.err == None
    && a.total == |seen| <= LIMIT
    && a.prefix == seen[..Min(PREFIX, |seen|)]
    && (a.haveDeclared <==> |seen| >= HEADER)
    && (a.haveDeclared ==> a.declared == Declared(order, seen) && HEADER <= a.declared <= LIMIT && |seen| <= a.declared)
    && a.data == (if a.retain then seen else [])
  }

  predicate AccInv(order: Order, a: Acc, seen: seq<byte>, rec: seq<byte>) {
    && seen <= rec
    && if a.err.None? then Sound(order, a, seen)
       else |rec| <= LIMIT ==> Framing(order, rec) == a.err
  }

  lemma PrefixDeclared(order: Order, seen: seq<byte>, rec: seq<byte>)
    requires seen <= rec && |seen| >= HEADER
    ensures Declared(order, seen) == Declared(order, rec)
  {
    assert seen[4..8] == rec[4..8];
  }

  lemma PrefixGrows(seen: seq<byte>, piece: seq<byte>)
    ensures var prefix, seen' := seen[..Min(PREFIX, |seen|)], seen + piece;
      seen'[..Min(PREFIX, |seen'|)]
      == if |prefix| < PREFIX then prefix + piece[..Min(PREFIX - |prefix|, |piece|)] else prefix
  {
  }

  lemma AddKeepsInv(order: Order, a: Acc, seen: seq<byte>, piece: seq<byte>, rec: seq<byte>)
    requires AccInv(order, a, seen, rec) && seen + piece <= rec
    ensures AccInv(order, Add(order, a, piece), seen + piece, rec)
    ensures Add(order, a, piece).retain == a.retain
    ensures a.err.None? && Add(order, a, piece).err.Some? ==> |seen + piece| >= HEADER || |rec| > LIMIT
  {
    if piece == [] {
      assert seen + piece == seen;
    } else if a.err.None? && |piece| <= LIMIT - a.total {
      AddFits(order, a, seen, piece, rec);
    }
  }

  lemma AddFits(order: Order, a: Acc, seen: seq<byte>, piece: seq<byte>, rec: seq<byte>)
    requires Sound(order, a, seen) && seen + piece <= rec && piece != [] && |piece| <= LIMIT - a.total
    ensures AccInv(order, Add(order, a, piece), seen + piece, rec)
    ensures Add(order, a, piece).retain == a.retain
    ensures a.err.None? && Add(order, a, piece).err.Some? ==> |seen + piece| >= HEADER || |rec| > LIMIT
  {
    var seen' := seen + piece;
    PrefixGrows(seen, piece);
    if |seen'| >= HEADER {
      PrefixDeclared(order, seen'[..Min(PREFIX, |seen'|)], seen');
      PrefixDeclared(order, seen', rec);
    }
    if |seen| >= HEADER {
      PrefixDeclared(order, seen, seen');
    }
  }

  lemma {:induction false} AddAllKeepsInv(order: Order, a: Acc, seen: seq<byte>, pieces: seq<seq<byte>>, rec: seq<byte>)
    requires AccInv(order, a, seen, rec) && seen + Concat(pieces) == rec
    ensures AccInv(order, AddAll(order, a, pieces), rec, rec)
    ensures AddAll(order, a, pieces).retain == a.retain
    decreases |pieces|
  {
    if pieces == [] {
      assert seen + [] == seen;
    } else {
      assert seen + pieces[0] + Concat(pieces[1..]) == rec;
      AddKeepsInv(order, a, seen, pieces[0], rec);
      AddAllKeepsInv(order, Add(order, a, pieces[0]), seen + pieces[0], pieces[1..], rec);
    }
  }

  // ----- The theorems -----

  /** However a record is cut, it is accepted exactly when 8 <= length == declared length <= limit. */
  lemma AcceptedIff(order: Order, pieces: seq<seq<byte>>)
    ensures var rec := Concat(pieces);
      Finish(AddAll(order, EMPTY, pieces)).1 == None
      <==> 8 <= |rec| <= 1024 * 1024 && |rec| == At32(order, rec, 4)
  {
    var rec := Concat(pieces);
    assert [] + rec == rec;
    AddAllKeepsInv(order, EMPTY, [], pieces, rec);
  }

  /** The fault of a record, for one of its cuts. */
  function Verdict(order: Order, pieces: seq<seq<byte>>): Option<Fault> {
    Finish(AddAll(order, EMPTY, pieces)).1
  }

  /** Within the limit, the verdict and its kind are the record's own: no cut changes them. */
  lemma WithinLimit(order: Order, pieces: seq<seq<byte>>)
    requires |Concat(pieces)| <= LIMIT
    ensures Verdict(order, pieces) == Framing(order, Concat(pieces))
  {
    var rec := Concat(pieces);
    assert [] + rec == rec;
    AddAllKeepsInv(order, EMPTY, [], pieces, rec);
  }

  // ----- Past the limit -----

  /** Nothing seen yet contradicts a record that declares the limit or more; or it was found too long. */
  predicate Overlong(order: Order, a: Acc, seen: seq<byte>) {
    (a.err == None && Sound(order, a, seen)) || a.err == Some(TooLong)
  }

  lemma AddKeepsOverlong(order: Order, a: Acc, seen: seq<byte>, piece: seq<byte>, rec: seq<byte>)
    requires |rec| >= HEADER && Declared(order, rec) >= LIMIT
    requires Overlong(order, a, seen) && seen + piece <= rec
    ensures Overlong(order, Add(order, a, piece), seen + piece)
  {
    if piece == [] {
      assert seen + piece == seen;
    } else if a.err == None && |piece| <= LIMIT - a.total {
      AddFits(order, a, seen, piece, rec);
      if |seen| >= HEADER { PrefixDeclared(order, seen, rec); }
      if |seen + piece| >= HEADER {
        PrefixDeclared(order, seen + piece, rec);
        PrefixDeclared(order, (seen + piece)[..Min(PREFIX, |seen + piece|)], seen + piece);
        PrefixGrows(seen, piece);
      }
    }
  }

  lemma {:induction false} AddAllKeepsOverlong(order: Order, a: Acc, seen: seq<byte>, pieces: seq<seq<byte>>, rec: seq<byte>)
    requires |rec| >= HEADER && Declared(order, rec) >= LIMIT
    requires Overlong(order, a, seen) && seen + Concat(pieces) == rec
    ensures Overlong(order, AddAll(order, a, pieces), rec)
    decreases |pieces|
  {
    if pieces == [] {
      assert seen + [] == seen;
    } else {
      assert seen + pieces[0] + Concat(pieces[1..]) == rec;
      AddKeepsOverlong(order, a, seen, pieces[0], rec);
      AddAllKeepsOverlong(order, Add(order, a, pieces[0]), seen + pieces[0], pieces[1..], rec);
    }
  }

  /** Past the limit, a record that declares the limit or more is too long however it is cut. */
  lemma AlwaysTooLong(order: Order, pieces: seq<seq<byte>>)
    requires |Concat(pieces)| > LIMIT && Declared(order, Concat(pieces)) >= LIMIT
    ensures Verdict(order, pieces) == Some(TooLong)
  {
    var rec := Concat(pieces);
    assert [] + rec == rec;
    AddAllKeepsOverlong(order, EMPTY, [], pieces, rec);
  }

  /** Where a record that declares less is cut so that its first piece shows it short. */
  function EarlyCut(order: Order, rec: seq<byte>): (k: nat)
    requires |rec| > LIMIT && Declared(order, rec) < LIMIT
    ensures HEADER <= k <= LIMIT
  {
    if Declared(order, rec) < HEADER then HEADER else Declared(order, rec) + 1
  }

  lemma ShortAtOnce(order: Order, first: seq<byte>, rest: seq<byte>)
    requires HEADER <= |first| <= LIMIT
    requires Declared(order, first) < HEADER || Declared(order, first) < |first|
    requires Declared(order, first) <= LIMIT
    ensures Verdict(order, [first, rest]) == Some(Short)
  {
    PrefixGrows([], first);
    assert [] + first == first;
    PrefixDeclared(order, first[..Min(PREFIX, |first|)], first);
    var a := Add(order, EMPTY, first);
    assert a.err == Some(Short);
    assert [first, rest][1..] == [rest];
    assert AddAll(order, a, [rest]) == Add(order, a, rest) == a;
  }

  /** One that declares less is always too long in one piece, and short once its first piece shows it. */
  lemma KindDependsPastLimit(order: Order, rec: seq<byte>)
    requires |rec| > LIMIT && Declared(order, rec) < LIMIT
    ensures var k := EarlyCut(order, rec);
      && Concat([rec]) == rec && Concat([rec[..k], rec[k..]]) == rec
      && Verdict(order, [rec]) == Some(TooLong)
      && Verdict(order, [rec[..k], rec[k..]]) == Some(Short)
  {
    var k := EarlyCut(order, rec);
    ConcatOfTwo(rec, []);
    ConcatOfTwo(rec[..k], rec[k..]);
    assert rec[..k] + rec[k..] == rec;
    TooLongInOne(order, rec);
    PrefixDeclared(order, rec[..k], rec);
    ShortAtOnce(order, rec[..k], rec[k..]);
  }

  lemma TooLongInOne(order: Order, rec: seq<byte>)
    requires |rec| > LIMIT
    ensures Verdict(order, [rec]) == Some(TooLong)
  {
    assert [rec][1..] == [];
    assert AddAll(order, EMPTY, [rec]) == Add(order, EMPTY, rec);
  }

  lemma ConcatOfTwo(a: seq<byte>, b: seq<byte>)
    ensures Concat([a, b]) == a + b && Concat([a]) == a
  {
    assert [a, b][1..] == [b] && [b][1..] == [] && [a][1..] == [];
    assert Concat([b]) == b + [] == b && Concat([a]) == a + [] == a;
  }

  /** The kind of a record's verdict is the same for all of its cuts. */
  ghost predicate KindFixed(order: Order, rec: seq<byte>) {
    forall pieces, pieces' :: Concat(pieces) == rec && Concat(pieces') == rec ==> Verdict(order, pieces) == Verdict(order, pieces')
  }

  /** That is so if and only if the record is within the limit, or declares at least the limit. */
  lemma CutIndependent(order: Order, rec: seq<byte>)
    ensures KindFixed(order, rec) <==> |rec| <= LIMIT || Declared(order, rec) >= LIMIT
  {
    if |rec| <= LIMIT || Declared(order, rec) >= LIMIT {
      forall pieces, pieces' | Concat(pieces) == rec && Concat(pieces') == rec
        ensures Verdict(order, pieces) == Verdict(order, pieces')
      {
        SameKind(order, pieces, rec);
        SameKind(order, pieces', rec);
      }
    } else {
      KindDependsPastLimit(order, rec);
      var k := EarlyCut(order, rec);
      assert Verdict(order, [rec]) != Verdict(order, [rec[..k], rec[k..]]);
    }
  }

  lemma SameKind(order: Order, pieces: seq<seq<byte>>, rec: seq<byte>)
    requires Concat(pieces) == rec && (|rec| <= LIMIT || Declared(order, rec) >= LIMIT)
    ensures Verdict(order, pieces) == if |rec| <= LIMIT then Framing(order, rec) else Some(TooLong)
  {
    if |rec| <= LIMIT {
      WithinLimit(order, pieces);
    } else {
      AlwaysTooLong(order, pieces);
    }
  }

  /** A header of the given type that declares `length`. */
  function HeaderOf(order: Order, typ: u16, length: u32): (h: seq<byte>)
    ensures |h| == HEADER
  {
    Put16(order, typ) + Put16(order, 0) + Put32(order, length)
  }

  /** A record whose kind depends on its cuts: longer than the limit, and declaring only its header. */
  lemma DependentRecord(order: Order, typ: u16)
    ensures !KindFixed(order, HeaderOf(order, typ, HEADER) + Zeros(LIMIT))
  {
    var rec := HeaderOf(order, typ, HEADER) + Zeros(LIMIT);
    assert rec[4..8] == Put32(order, HEADER);
    Get32(order, HEADER);
    CutIndependent(order, rec);
  }

  // ----- The record in progress, as the receive path keeps it -----

  const ASSOC_CHANGE: u16 := 0x8001
  const PARTIAL_DELIVERY: u16 := 0x8006

  /** Whether a record of a type is retained: the reader keeps notes, and the caller receives it. */
  datatype Policy = Policy(keepNotes: bool, subs: set<u16>) {
    predicate Keeps(typ: u16) {
      keepNotes && ((typ != ASSOC_CHANGE && typ != PARTIAL_DELIVERY) || typ in subs)
    }
  }

  datatype Intake = Intake(acc: Acc, noting: bool, typed: bool, typ: u16, kept: bool)

  /** recvState.addPiece. */
  function Take(order: Order, n: Intake, piece: seq<byte>, policy: Policy): Intake {
    var n1 := if n.noting then n else Intake(EMPTY, true, false, n.typ, false);
    var typ := PeekType(order, n1.acc, piece);
    var n2 := if n1.typed || typ.None? then n1
              else if policy.Keeps(typ.value) then
                var (acc, kept) := Keep(n1.acc);
                n1.(typed := true, typ := typ.value, acc := acc, kept := kept)
              else n1.(typed := true, typ := typ.value);
    n2.(acc := Add(order, n2.acc, piece))
  }

  function TypeOf(order: Order, rec: seq<byte>): u16
    requires |rec| >= HEADER
  {
    At16(order, rec, 0)
  }

  /** What is known after the first `seen` bytes of a record within the limit. */
  predicate Taking(order: Order, n: Intake, seen: seq<byte>, rec: seq<byte>, policy: Policy) {
    && |rec| <= LIMIT && n.noting
    && AccInv(order, n.acc, seen, rec)
    && (n.acc.err.Some? ==> |seen| >= HEADER)
    && (n.typed <==> |seen| >= HEADER)
    && (n.typed ==> n.typ == TypeOf(order, rec) && n.kept == policy.Keeps(n.typ))
    && (!n.typed ==> !n.kept)
    && n.acc.retain == n.kept
  }

  lemma PeekTypeOf(order: Order, a: Acc, seen: seq<byte>, piece: seq<byte>, rec: seq<byte>)
    requires Sound(order, a, seen) && |seen| < HEADER && seen + piece <= rec
    ensures PeekType(order, a, piece).Some? <==> |seen + piece| >= HEADER
    ensures |seen + piece| >= HEADER ==> PeekType(order, a, piece) == Some(TypeOf(order, rec))
  {
    assert a.prefix == seen;
    if |seen + piece| >= HEADER {
      assert (seen + piece)[0..2] == rec[0..2];
    }
  }

  /** The first piece of a record starts it afresh, whatever the last one left behind. */
  lemma FirstPiece(order: Order, n: Intake, piece: seq<byte>, rec: seq<byte>, policy: Policy)
    requires !n.noting && piece <= rec && |rec| <= LIMIT
    ensures Taking(order, Take(order, n, piece, policy), piece, rec, policy)
  {
    var n1 := Intake(EMPTY, true, false, n.typ, false);
    assert [] + piece == piece;
    NextPiece(order, n1, [], piece, rec, policy);
  }

  /** Retention switched on before the header completes keeps every byte seen so far. */
  lemma KeepSound(order: Order, a: Acc, seen: seq<byte>)
    requires Sound(order, a, seen) && |seen| <= PREFIX
    ensures Keep(a).1 && Keep(a).0.retain && Sound(order, Keep(a).0, seen)
  {
    assert [] + seen == seen == seen[..|seen|];
  }

  /** Retention is refused once the record has a fault or has outgrown what is remembered of it. */
  lemma KeepTooLate(a: Acc)
    requires !a.retain
    ensures Keep(a).1 <==> a.err == None && a.total <= |a.prefix|
    ensures !Keep(a).1 ==> Keep(a).0 == a
  {
  }

  lemma NextPiece(order: Order, n: Intake, seen: seq<byte>, piece: seq<byte>, rec: seq<byte>, policy: Policy)
    requires Taking(order, n, seen, rec, policy) && seen + piece <= rec
    ensures Taking(order, Take(order, n, piece, policy), seen + piece, rec, policy)
  {
    if n.typed {
      AddKeepsInv(order, n.acc, seen, piece, rec);
    } else {
      PeekTypeOf(order, n.acc, seen, piece, rec);
      KeepSound(order, n.acc, seen);
      AddKeepsInv(order, n.acc, seen, piece, rec);
      AddKeepsInv(order, Keep(n.acc).0, seen, piece, rec);
    }
  }

  /**
    A whole record, however it was cut: its fault is its own framing's; it is kept exactly when the
    policy keeps its type; and a kept record without a fault is returned byte for byte.
  */
  lemma Taken(order: Order, n: Intake, rec: seq<byte>, policy: Policy)
    requires Taking(order, n, rec, rec, policy)
    ensures Finish(n.acc).1 == Framing(order, rec)
    ensures |rec| >= HEADER ==> n.typed && n.typ == TypeOf(order, rec)
    ensures |rec| >= HEADER && n.typ != 0x8001 && n.typ != 0x8006 ==> n.kept == policy.keepNotes
    ensures |rec| >= HEADER && (n.typ == 0x8001 || n.typ == 0x8006) ==> n.kept == (policy.keepNotes && n.typ in policy.subs)
    ensures Framing(order, rec) == None ==> n.acc.prefix == rec[..if |rec| < 20 then |rec| else 20]
    ensures Framing(order, rec) == None && n.kept ==> Finish(n.acc).0 == rec
  {
  }
}
