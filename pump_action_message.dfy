/**
 * com.rsring.network.PacketPumpAction as a message: the button the player
 * pressed in the pump controller's screen, the hand holding the controller
 * and an optional level count, and the six bytes it travels as.
 */
module PacketPumpAction {
  import opened Wrappers
  import opened JavaInt
  import opened ByteBuf

  const ActionMode: int := 0
  const ActionRetainUp: int := 1
  const ActionRetainDown: int := 2
  const ActionTakeAll: int := 3
  const ActionTakeOne: int := 4
  const ActionStoreOne: int := 5
  const ActionStoreAll: int := 6
  const ActionMending: int := 7

  datatype Hand = MainHand | OffHand

  /** The ordinal the constructors store: 0 for the main hand, 1 for the other. */
  function HandOrdinal(hand: Hand): (r: int)
    ensures r == 0 <==> hand == MainHand
    ensures HandOf(r) == hand
  {
    if hand == MainHand then 0 else 1
  }

  /** The handler's reading of the ordinal: 0 is the main hand, anything else the off hand. */
  function HandOf(ordinal: int): (r: Hand)
    ensures r == MainHand <==> ordinal == 0
  {
    if ordinal == 0 then MainHand else OffHand
  }

  /** toBytes: the hand and the action as one byte each, then the value as a big-endian int. */
  function Encode(handOrdinal: int, action: int, value: int): (r: seq<Byte>)
    ensures |r| == 6
  {
    [ByteOf(handOrdinal), ByteOf(action)] + IntBytes(value)
  }

  /** The three fields fromBytes reads. */
  datatype Fields = Fields(handOrdinal: int, action: int, value: int)

  /** fromBytes: two signed bytes and an int; `None` when the buffer runs out. */
  function Decode(d: seq<Byte>): (r: Option<Read<Fields>>)
    ensures r.Some? <==> |d| >= 6
    ensures r.Some? ==> r.value.rest == d[6..]
  {
    match ReadByteFrom(d)
    case None => None
    case Some(hand) =>
      match ReadByteFrom(hand.rest)
      case None => None
      case Some(action) =>
        match ReadIntFrom(action.rest)
        case None => None
        case Some(value) => Some(Read(Fields(hand.value, action.value, value.value), value.rest))
  }

  /**
   * The round trip: the receiver gets the hand and the action back as the
   * signed low bytes of what was sent, the value wrapped to 32 bits, and
   * exactly the sent fields when they fit.
   */
  lemma DecodeEncode(handOrdinal: int, action: int, value: int, rest: seq<Byte>)
    ensures Decode(Encode(handOrdinal, action, value) + rest) ==
      Some(Read(Fields(SignedByte(ByteOf(handOrdinal)), SignedByte(ByteOf(action)), Wrap32(value)), rest))
    ensures FitsByte(handOrdinal) && FitsByte(action) && IsInt(value) ==>
      Decode(Encode(handOrdinal, action, value) + rest) == Some(Read(Fields(handOrdinal, action, value), rest))
  {
    var d := Encode(handOrdinal, action, value) + rest;
    assert d[1..] == [ByteOf(action)] + (IntBytes(value) + rest);
    assert d[1..][1..] == IntBytes(value) + rest;
    ReadIntOf(value, rest);
  }

  /** Decode is the two byte reads and the int read one after the other. */
  lemma DecodeChain(d0: seq<Byte>, d1: seq<Byte>, d2: seq<Byte>, d3: seq<Byte>, h: int, a: int, v: int)
    requires ReadByteFrom(d0) == Some(Read(h, d1)) && ReadByteFrom(d1) == Some(Read(a, d2))
    requires ReadIntFrom(d2) == Some(Read(v, d3))
    ensures Decode(d0) == Some(Read(Fields(h, a, v), d3))
  {
  }

  /** The message object; Forge fills a blank one through fromBytes. */
  class Message {
    var handOrdinal: int
    var action: int
    var value: int

    /** The no-argument constructor: all three fields 0. */
    constructor Empty()
      ensures handOrdinal == 0 && action == 0 && value == 0
    {
      handOrdinal := 0;
      action := 0;
      value := 0;
    }

    /** PacketPumpAction(hand, action): the value is 0. */
    constructor WithoutValue(hand: Hand, action: int)
      ensures handOrdinal == HandOrdinal(hand) && this.action == action && value == 0
    {
      handOrdinal := HandOrdinal(hand);
      this.action := action;
      value := 0;
    }

    /** PacketPumpAction(hand, action, value). */
    constructor (hand: Hand, action: int, value: int)
      ensures handOrdinal == HandOrdinal(hand) && this.action == action && this.value == value
    {
      handOrdinal := HandOrdinal(hand);
      this.action := action;
      this.value := value;
    }

    method ToBytes(buf: Buffer)
      requires buf.Valid()
      modifies buf
      ensures buf.Valid() && buf.readerIndex == old(buf.readerIndex)
      ensures buf.data == old(buf.data) + Encode(handOrdinal, action, value)
    {
      buf.WriteByte(handOrdinal);
      buf.WriteByte(action);
      buf.WriteInt(value);
      assert buf.data == old(buf.data) + [ByteOf(handOrdinal)] + [ByteOf(action)] + IntBytes(value);
    }

    /** fromBytes; `ok` is false when fewer than six bytes are readable (Netty throws). */
    method FromBytes(buf: Buffer) returns (ok: bool)
      requires buf.Valid()
      modifies this, buf
      ensures buf.Valid() && buf.data == old(buf.data)
      ensures ok <==> Decode(old(buf.Readable())).Some?
      ensures ok ==> Fields(handOrdinal, action, value) == Decode(old(buf.Readable())).value.value
      ensures ok ==> buf.Readable() == Decode(old(buf.Readable())).value.rest
    {
      ghost var d0 := buf.Readable();
      var h := buf.ReadByte();
      if h.None? {
        return false;
      }
      handOrdinal := h.value;
      ghost var d1 := buf.Readable();
      var a := buf.ReadByte();
      if a.None? {
        return false;
      }
      action := a.value;
      ghost var d2 := buf.Readable();
      var v := buf.ReadInt();
      if v.None? {
        return false;
      }
      value := v.value;
      DecodeChain(d0, d1, d2, buf.Readable(), h.value, a.value, v.value);
      ok := true;
    }
  }
}
