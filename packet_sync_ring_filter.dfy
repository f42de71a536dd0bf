/**
 * com.rsring.network.PacketSyncRingFilter: the client sends the ring's
 * whitelist flag and its nine filter slots; the server writes them into the
 * ring it finds on the player, unless the configuration locks the filters.
 */
module PacketSyncRingFilter {
  import opened Wrappers
  import opened JavaInt
  import opened ByteBuf
  import opened RsRingCapability

  const SlotCount: int := 9

  /** The slots the constructor keeps: the first nine given (or fewer), the rest null. */
  function CopiedSlots(given: Option<seq<Option<string>>>): (r: seq<Option<string>>)
    ensures |r| == SlotCount
    ensures forall i :: 0 <= i < SlotCount && given.Some? && i < |given.value| ==> r[i] == given.value[i]
    ensures forall i :: 0 <= i < SlotCount && (given.None? || i >= |given.value|) ==> r[i] == None
  {
    seq(SlotCount, i requires 0 <= i < SlotCount =>
      if given.Some? && i < |given.value| then given.value[i] else None)
  }

  /** What the receiver gets for each of the first k slots: "" for null or "", the string otherwise. */
  function ReceivedPrefix(slots: seq<Option<string>>, k: nat): (r: seq<string>)
    requires k <= |slots|
    ensures |r| == k
    ensures forall i :: 0 <= i < k ==> r[i] == SlotValue(slots[i])
  {
    if k == 0 then [] else ReceivedPrefix(slots, k - 1) + [SlotValue(slots[k - 1])]
  }

  /** What the receiver gets for every slot. */
  function Received(slots: seq<Option<string>>): (r: seq<string>)
    ensures |r| == |slots|
    ensures forall i :: 0 <= i < |slots| ==> r[i] == SlotValue(slots[i])
  {
    ReceivedPrefix(slots, |slots|)
  }

  // ---- wire format ----

  /** One slot: a presence flag, then the string only when it is non-null and non-empty. */
  function SlotBytes(slot: Option<string>): (r: Option<seq<Byte>>)
    ensures slot.None? || slot.value == "" ==> r == Some([BooleanByte(false)])
    ensures slot.Some? && slot.value != "" ==>
      (r.Some? <==> Utf8StringBytes(slot.value).Some?) &&
      (r.Some? ==> r.value == [BooleanByte(true)] + Utf8StringBytes(slot.value).value)
  {
    if slot.Some? && slot.value != "" then
      match Utf8StringBytes(slot.value)
      case None => None
      case Some(b) => Some([BooleanByte(true)] + b)
    else Some([BooleanByte(false)])
  }

  /** The first k slots in order; `None` when writeUTF8String rejects one of them. */
  function SlotsBytes(slots: seq<Option<string>>, k: nat): (r: Option<seq<Byte>>)
    requires k <= |slots|
  {
    if k == 0 then Some([])
    else
      match SlotsBytes(slots, k - 1)
      case None => None
      case Some(front) =>
        match SlotBytes(slots[k - 1])
        case None => None
        case Some(last) => Some(front + last)
  }

  /** toBytes: the mode, then the nine slots. */
  function Encode(whitelistMode: bool, slots: seq<Option<string>>): Option<seq<Byte>>
  {
    match SlotsBytes(slots, |slots|)
    case None => None
    case Some(b) => Some([BooleanByte(whitelistMode)] + b)
  }

  /** One slot as fromBytes reads it: the flag, then a string when it is set, "" when it is not. */
  function ReadSlotFrom(d: seq<Byte>): (r: Option<Read<string>>)
  {
    match ReadBooleanFrom(d)
    case None => None
    case Some(has) =>
      if has.value then ReadUtf8StringFrom(has.rest) else Some(Read("", has.rest))
  }

  /** The first n slots, read in order. */
  function ReadSlotsFrom(d: seq<Byte>, n: nat): (r: Option<Read<seq<string>>>)
    ensures r.Some? ==> |r.value.value| == n
  {
    if n == 0 then Some(Read([], d))
    else
      match ReadSlotsFrom(d, n - 1)
      case None => None
      case Some(front) =>
        match ReadSlotFrom(front.rest)
        case None => None
        case Some(last) => Some(Read(front.value + [last.value], last.rest))
  }

  /** fromBytes: the mode, then nine slots. */
  function Decode(d: seq<Byte>): (r: Option<Read<(bool, seq<string>)>>)
    ensures r.Some? ==> |r.value.value.1| == SlotCount
  {
    match ReadBooleanFrom(d)
    case None => None
    case Some(mode) =>
      match ReadSlotsFrom(mode.rest, SlotCount)
      case None => None
      case Some(slots) => Some(Read((mode.value, slots.value), slots.rest))
  }

  lemma ReadSlotOf(slot: Option<string>, rest: seq<Byte>)
    requires SlotBytes(slot).Some?
    ensures ReadSlotFrom(SlotBytes(slot).value + rest) == Some(Read(SlotValue(slot), rest))
  {
    if slot.Some? && slot.value != "" {
      var b := Utf8StringBytes(slot.value).value;
      assert SlotBytes(slot).value + rest == [BooleanByte(true)] + (b + rest);
      ReadBooleanOf(true, b + rest);
      ReadUtf8StringOf(slot.value, rest);
    } else {
      ReadBooleanOf(false, rest);
    }
  }

  /** Reading back what the first k slots were written as gives what the receiver should get for them. */
  lemma {:induction false} ReadSlotsOf(slots: seq<Option<string>>, k: nat, rest: seq<Byte>)
    requires k <= |slots| && SlotsBytes(slots, k).Some?
    ensures ReadSlotsFrom(SlotsBytes(slots, k).value + rest, k) == Some(Read(ReceivedPrefix(slots, k), rest))
  {
    if k > 0 {
      ReadSlotsOf(slots, k - 1, SlotBytes(slots[k - 1]).value + rest);
      ReadSlotsOfStep(slots, k, rest);
    } else {
      assert SlotsBytes(slots, k).value + rest == rest;
    }
  }

  /** The inductive step of ReadSlotsOf: reading one more slot after the first k - 1. */
  lemma ReadSlotsOfStep(slots: seq<Option<string>>, k: nat, rest: seq<Byte>)
    requires 0 < k <= |slots| && SlotsBytes(slots, k).Some?
    requires ReadSlotsFrom(SlotsBytes(slots, k - 1).value + (SlotBytes(slots[k - 1]).value + rest), k - 1)
      == Some(Read(ReceivedPrefix(slots, k - 1), SlotBytes(slots[k - 1]).value + rest))
    ensures ReadSlotsFrom(SlotsBytes(slots, k).value + rest, k) == Some(Read(ReceivedPrefix(slots, k), rest))
  {
    var front := SlotsBytes(slots, k - 1).value;
    var last := SlotBytes(slots[k - 1]).value;
    assert SlotsBytes(slots, k).value == front + last;
    ReadSlotOf(slots[k - 1], rest);
    ReadFrontThenLast(front, last, rest, k - 1, ReceivedPrefix(slots, k - 1), SlotValue(slots[k - 1]));
  }

  /** The first n slots' bytes, then one more slot's: reading n + 1 slots takes both. */
  lemma ReadFrontThenLast(front: seq<Byte>, last: seq<Byte>, rest: seq<Byte>, n: nat, got: seq<string>, v: string)
    requires ReadSlotsFrom(front + (last + rest), n) == Some(Read(got, last + rest))
    requires ReadSlotFrom(last + rest) == Some(Read(v, rest))
    ensures ReadSlotsFrom(front + last + rest, n + 1) == Some(Read(got + [v], rest))
  {
    AppendAssoc(front, last, rest);
    ReadSlotsExtend(front + last + rest, n, got, last + rest, v, rest);
  }

  /** Reading one more slot after the first n. */
  lemma ReadSlotsExtend(d: seq<Byte>, n: nat, got: seq<string>, mid: seq<Byte>, v: string, rest: seq<Byte>)
    requires ReadSlotsFrom(d, n) == Some(Read(got, mid)) && ReadSlotFrom(mid) == Some(Read(v, rest))
    ensures ReadSlotsFrom(d, n + 1) == Some(Read(got + [v], rest))
  {
  }

  /**
   * The round trip: the receiver gets the sender's mode, "" for every null or
   * empty slot and every other slot unchanged, and the bytes after the packet are left alone.
   */
  lemma DecodeEncode(whitelistMode: bool, slots: seq<Option<string>>, rest: seq<Byte>)
    requires |slots| == SlotCount && Encode(whitelistMode, slots).Some?
    ensures Decode(Encode(whitelistMode, slots).value + rest) == Some(Read((whitelistMode, Received(slots)), rest))
  {
    var body := SlotsBytes(slots, |slots|).value;
    assert Encode(whitelistMode, slots).value + rest == [BooleanByte(whitelistMode)] + (body + rest);
    ReadBooleanOf(whitelistMode, body + rest);
    ReadSlotsOf(slots, |slots|, rest);
  }

  /** Every slot that is null, empty or short enough can be sent. */
  lemma {:induction false} SlotsBytesDefined(slots: seq<Option<string>>, k: nat)
    requires k <= |slots|
    requires forall i :: 0 <= i < |slots| && slots[i].Some? ==> |Utf8(slots[i].value)| < VarIntLimit
    ensures SlotsBytes(slots, k).Some?
  {
    if k > 0 {
      SlotsBytesDefined(slots, k - 1);
    }
  }

  /** The message object: the mode flag and the nine-entry slot array (null entries are `None`). */
  class Message {
    var whitelistMode: bool
    const slots: array<Option<string>>

    ghost predicate Valid()
      reads this
    {
      slots.Length == SlotCount
    }

    /** The no-argument constructor Forge uses before fromBytes: nine null slots. */
    constructor Empty()
      ensures Valid() && fresh(slots)
      ensures !whitelistMode && slots[..] == CopiedSlots(None)
    {
      whitelistMode := false;
      slots := new Option<string>[SlotCount](_ => None);
    }

    /** The constructor: copies the first min(9, length) given slots; a null array copies none. */
    constructor (mode: bool, given: Option<seq<Option<string>>>)
      ensures Valid() && fresh(slots)
      ensures whitelistMode == mode && slots[..] == CopiedSlots(given)
    {
      whitelistMode := mode;
      slots := new Option<string>[SlotCount](_ => None);
      new;
      if given.Some? {
        var n := Min(SlotCount, |given.value|);
        for i := 0 to n
          invariant whitelistMode == mode
          invariant forall j :: 0 <= j < i ==> slots[j] == given.value[j]
          invariant forall j :: i <= j < SlotCount ==> slots[j] == None
        {
          slots[i] := given.value[i];
        }
      }
      assert forall j :: 0 <= j < SlotCount ==> slots[j] == CopiedSlots(given)[j];
    }

    /** toBytes; `ok` is false when a slot is too long for writeUTF8String, which then throws. */
    method ToBytes(buf: Buffer) returns (ok: bool)
      requires Valid() && buf.Valid()
      modifies buf
      ensures buf.Valid() && buf.readerIndex == old(buf.readerIndex)
      ensures ok <==> Encode(whitelistMode, slots[..]).Some?
      ensures ok ==> buf.data == old(buf.data) + Encode(whitelistMode, slots[..]).value
    {
      ghost var start := buf.data;
      buf.WriteBoolean(whitelistMode);
      ok := WriteSlots(buf, slots[..]);
      if ok {
        AppendAssoc(start, [BooleanByte(whitelistMode)], SlotsBytes(slots[..], slots.Length).value);
      }
    }

    /** fromBytes; `ok` is false when the bytes run out or a string is malformed. */
    method FromBytes(buf: Buffer) returns (ok: bool)
      requires Valid() && buf.Valid()
      modifies this, slots, buf
      ensures Valid() && buf.Valid() && buf.data == old(buf.data)
      ensures ok <==> Decode(old(buf.Readable())).Some?
      ensures ok ==> whitelistMode == Decode(old(buf.Readable())).value.value.0
      ensures ok ==> forall i :: 0 <= i < SlotCount ==> slots[i] == Some(Decode(old(buf.Readable())).value.value.1[i])
      ensures ok ==> buf.Readable() == Decode(old(buf.Readable())).value.rest
    {
      var mode := buf.ReadBoolean();
      if mode.None? {
        return false;
      }
      whitelistMode := mode.value;
      ok := ReadSlots(buf, slots);
    }
  }

  /** fromBytes' loop: reads one slot per array entry, in order, and stops at the first that fails. */
  method ReadSlots(buf: Buffer, a: array<Option<string>>) returns (ok: bool)
    requires buf.Valid()
    modifies buf, a
    ensures buf.Valid() && buf.data == old(buf.data)
    ensures ok <==> ReadSlotsFrom(old(buf.Readable()), a.Length).Some?
    ensures ok ==> forall i :: 0 <= i < a.Length ==> a[i] == Some(ReadSlotsFrom(old(buf.Readable()), a.Length).value.value[i])
    ensures ok ==> buf.Readable() == ReadSlotsFrom(old(buf.Readable()), a.Length).value.rest
  {
    ghost var start := buf.Readable();
    ghost var got: seq<string> := [];
    ghost var rests: seq<seq<Byte>> := [start];
    var i := 0;
    while i < a.Length
      invariant 0 <= i <= a.Length && |got| == i
      invariant buf.Valid() && buf.data == old(buf.data)
      invariant Chain(start, got, rests) && buf.Readable() == rests[i]
      invariant forall j :: 0 <= j < i ==> a[j] == Some(got[j])
    {
      var value := ReadSlot(buf);
      if value.None? {
        ChainBreaks(start, got, rests, a.Length);
        return false;
      }
      a[i] := value;
      got := got + [value.value];
      rests := rests + [buf.Readable()];
      i := i + 1;
    }
    ChainReads(start, got, rests);
    ok := true;
  }

  /** `rests` are what is left before each slot and after the last; each slot read takes one to the next. */
  ghost predicate Chain(start: seq<Byte>, got: seq<string>, rests: seq<seq<Byte>>)
  {
    && |rests| == |got| + 1 && rests[0] == start
    && forall j :: 0 <= j < |got| ==> ReadSlotFrom(rests[j]) == Some(Read(got[j], rests[j + 1]))
  }

  /** A chain of single slot reads is what reading that many slots gives. */
  lemma {:induction false} ChainReads(start: seq<Byte>, got: seq<string>, rests: seq<seq<Byte>>)
    requires Chain(start, got, rests)
    ensures ReadSlotsFrom(start, |got|) == Some(Read(got, rests[|got|]))
  {
    if got != [] {
      var n := |got| - 1;
      assert Chain(start, got[..n], rests[..n + 1]);
      ChainReads(start, got[..n], rests[..n + 1]);
      ReadSlotsExtend(start, n, got[..n], rests[n], got[n], rests[n + 1]);
      assert got == got[..n] + [got[n]];
    }
  }

  /** A chain that stops at a slot that cannot be read: reading any more slots than it covers fails. */
  lemma ChainBreaks(start: seq<Byte>, got: seq<string>, rests: seq<seq<Byte>>, n: nat)
    requires Chain(start, got, rests) && |got| < n && ReadSlotFrom(rests[|got|]).None?
    ensures ReadSlotsFrom(start, n).None?
  {
    ChainReads(start, got, rests);
    SlotsUndefined(start, |got| + 1, n);
  }

  /** One pass of fromBytes' loop: the presence flag, then the string when the flag is set. */
  method ReadSlot(buf: Buffer) returns (r: Option<string>)
    requires buf.Valid()
    modifies buf
    ensures buf.Valid() && buf.data == old(buf.data)
    ensures ReadSlotFrom(old(buf.Readable())).None? ==> r.None?
    ensures ReadSlotFrom(old(buf.Readable())).Some? ==>
      r == Some(ReadSlotFrom(old(buf.Readable())).value.value) && buf.Readable() == ReadSlotFrom(old(buf.Readable())).value.rest
  {
    var has := buf.ReadBoolean();
    if has.None? {
      return None;
    }
    if !has.value {
      return Some("");
    }
    r := buf.ReadUtf8String();
  }

  /** toBytes' loop over the slots: stops at the first slot writeUTF8String rejects. */
  method WriteSlots(buf: Buffer, slots: seq<Option<string>>) returns (ok: bool)
    requires buf.Valid()
    modifies buf
    ensures buf.Valid() && buf.readerIndex == old(buf.readerIndex)
    ensures ok <==> SlotsBytes(slots, |slots|).Some?
    ensures ok ==> buf.data == old(buf.data) + SlotsBytes(slots, |slots|).value
  {
    var i := 0;
    ok := true;
    ghost var written: seq<Byte> := [];
    while i < |slots| && ok
      invariant 0 <= i <= |slots|
      invariant buf.Valid() && buf.readerIndex == old(buf.readerIndex)
      invariant ok <==> SlotsBytes(slots, i).Some?
      invariant ok ==> SlotsBytes(slots, i).value == written && buf.data == old(buf.data) + written
    {
      ok := WriteSlot(buf, slots[i]);
      if ok {
        ghost var part := SlotBytes(slots[i]).value;
        AppendAssoc(old(buf.data), written, part);
        written := written + part;
      }
      i := i + 1;
    }
    if !ok {
      PrefixUndefined(slots, i, |slots|);
    }
  }

  /** One pass of toBytes' loop: the presence flag, then the string when there is one. */
  method WriteSlot(buf: Buffer, s: Option<string>) returns (ok: bool)
    requires buf.Valid()
    modifies buf
    ensures buf.Valid() && buf.readerIndex == old(buf.readerIndex)
    ensures ok <==> SlotBytes(s).Some?
    ensures ok ==> buf.data == old(buf.data) + SlotBytes(s).value
  {
    if s.Some? && s.value != "" {
      buf.WriteBoolean(true);
      ok := buf.WriteUtf8String(s.value);
    } else {
      buf.WriteBoolean(false);
      ok := true;
    }
  }

  /** A slot that cannot be written makes every longer prefix unwritable. */
  lemma {:induction false} PrefixUndefined(slots: seq<Option<string>>, k: nat, n: nat)
    requires 0 < k <= n <= |slots| && SlotsBytes(slots, k).None?
    ensures SlotsBytes(slots, n).None?
    decreases n - k
  {
    if k < n {
      PrefixUndefined(slots, k + 1, n);
    }
  }

  /** A slot that cannot be read makes every later count unreadable. */
  lemma {:induction false} SlotsUndefined(d: seq<Byte>, k: nat, n: nat)
    requires k <= n && ReadSlotsFrom(d, k).None?
    ensures ReadSlotsFrom(d, n).None?
    decreases n - k
  {
    if k < n {
      SlotsUndefined(d, k + 1, n);
    }
  }

  // ---- the handler ----

  /** A stack the handler looks at: empty or not, an absorb ring or not, and its capability (null when absent). */
  datatype HeldStack = HeldStack(isEmpty: bool, isAbsorbRing: bool, cap: Capability?)

  /**
   * The ring the handler updates: the one RingDetectionService.findRing
   * found, else the main hand's, else whatever the off hand holds; `None`
   * when that last stack is empty or not an absorb ring.
   */
  function SelectRing(found: Option<HeldStack>, mainHand: HeldStack, offHand: HeldStack): (r: Option<HeldStack>)
    ensures r.Some? ==> !r.value.isEmpty && r.value.isAbsorbRing
    ensures found.Some? && !found.value.isEmpty && found.value.isAbsorbRing ==> r == found
    ensures (found.None? || found.value.isEmpty) && !mainHand.isEmpty && mainHand.isAbsorbRing ==> r == Some(mainHand)
    ensures (found.None? || found.value.isEmpty) && (mainHand.isEmpty || !mainHand.isAbsorbRing) ==>
      (r.Some? <==> !offHand.isEmpty && offHand.isAbsorbRing) && (r.Some? ==> r.value == offHand)
  {
    var stack := if found.Some? && !found.value.isEmpty then found.value
      else if !mainHand.isEmpty && mainHand.isAbsorbRing then mainHand
      else offHand;
    if stack.isEmpty || !stack.isAbsorbRing then None else Some(stack)
  }

  /** The capability the handler may change. */
  function TargetOf(ring: Option<HeldStack>): set<Capability>
  {
    if ring.Some? && ring.value.cap != null then {ring.value.cap} else {}
  }

  /** setFilterSlot(i, slots[i] or "") for the first k slots, in order. */
  function AppliedSlots(cfg: RingConfig, s: RingState, slots: seq<Option<string>>, k: nat): (r: RingState)
    requires k <= |slots|
    ensures r == s.(blacklistItems := r.blacklistItems)
  {
    if k == 0 then s
    else
      var slot := slots[k - 1];
      WithFilterSlot(cfg, AppliedSlots(cfg, s, slots, k - 1), k - 1, Some(if slot.None? then "" else slot.value))
  }

  lemma AppliedSlotsNext(cfg: RingConfig, s: RingState, slots: seq<Option<string>>, k: nat)
    requires k < |slots|
    ensures AppliedSlots(cfg, s, slots, k + 1)
      == WithFilterSlot(cfg, AppliedSlots(cfg, s, slots, k), k, Some(if slots[k].None? then "" else slots[k].value))
  {
  }

  /** After the first k slots are applied with filters unlocked, each of them reads back the value sent. */
  lemma {:induction false} AppliedSlotsRead(cfg: RingConfig, s: RingState, slots: seq<Option<string>>, k: nat, i: int)
    requires cfg.allowCustomFilters && k <= |slots| && k <= FilterSlots && 0 <= i < k
    ensures FilterSlotOf(cfg, AppliedSlots(cfg, s, slots, k), i) == SlotValue(slots[i])
  {
    var slot := slots[k - 1];
    var name := Some(if slot.None? then "" else slot.value);
    var prev := AppliedSlots(cfg, s, slots, k - 1);
    FilterSlotAfterSet(cfg, prev, k - 1, name, if i == k - 1 then k else i);
    if i < k - 1 {
      AppliedSlotsRead(cfg, s, slots, k - 1, i);
    }
  }

  /** With filters unlocked, all nine applied slots read back what was sent, and the mode is kept. */
  lemma AppliedSlotsReadAll(cfg: RingConfig, s: RingState, slots: seq<Option<string>>)
    requires cfg.allowCustomFilters && |slots| == SlotCount
    ensures var r := AppliedSlots(cfg, s, slots, SlotCount);
      && WhitelistModeOf(cfg, r) == s.whitelistMode
      && forall i :: 0 <= i < SlotCount ==> FilterSlotOf(cfg, r, i) == SlotValue(slots[i])
  {
    forall i | 0 <= i < SlotCount
      ensures FilterSlotOf(cfg, AppliedSlots(cfg, s, slots, SlotCount), i) == SlotValue(slots[i])
    {
      AppliedSlotsRead(cfg, s, slots, SlotCount, i);
    }
  }

  /**
   * The handler: nothing changes when no ring is found, the ring has no
   * capability, or custom filters are disallowed; otherwise the ring takes
   * the sent mode and all nine sent slots.
   */
  method Handle(msg: Message, found: Option<HeldStack>, mainHand: HeldStack, offHand: HeldStack)
    requires msg.Valid()
    modifies TargetOf(SelectRing(found, mainHand, offHand))
    ensures var ring := SelectRing(found, mainHand, offHand);
      ring.Some? && ring.value.cap != null ==>
        var cap := ring.value.cap;
        (!cap.config.allowCustomFilters ==> cap.State() == old(cap.State())) &&
        (cap.config.allowCustomFilters ==>
          cap.State() == AppliedSlots(cap.config, old(cap.State()).(whitelistMode := msg.whitelistMode), msg.slots[..], SlotCount) &&
          cap.IsWhitelistMode() == msg.whitelistMode &&
          forall i :: 0 <= i < SlotCount ==> cap.GetFilterSlot(i) == SlotValue(msg.slots[i]))
  {
    var ring := SelectRing(found, mainHand, offHand);
    if ring.None? {
      return;
    }
    var cap := ring.value.cap;
    if cap == null {
      return;
    }
    if !cap.config.allowCustomFilters {
      return;
    }
    cap.SetWhitelistMode(msg.whitelistMode);
    ghost var start := cap.State();
    ghost var slots := msg.slots[..];
    assert start == old(cap.State()).(whitelistMode := msg.whitelistMode);
    for i := 0 to SlotCount
      invariant cap.State() == AppliedSlots(cap.config, start, slots, i)
    {
      var slot := msg.slots[i];
      AppliedSlotsNext(cap.config, start, slots, i);
      cap.SetFilterSlot(i, Some(if slot == None then "" else slot.value));
    }
    AppliedSlotsReadAll(cap.config, start, slots);
    assert msg.slots[..] == slots;
  }
}
