/**
 * The byte layout of the mod's network packets: Netty's ByteBuf primitives
 * (writeByte/readByte, writeBoolean/readBoolean, big-endian writeInt/readInt)
 * and Forge's ByteBufUtils.writeUTF8String/readUTF8String, which put a
 * VarInt length of at most two bytes in front of the string's UTF-8 bytes.
 * Reading past the end (an IndexOutOfBoundsException in Netty) and Forge's
 * argument checks are the `None` results. Malformed UTF-8 is a `None` result
 * too, where Netty would substitute U+FFFD.
 */
module ByteBuf {
  import opened Wrappers
  import opened JavaInt

  type Byte = b: int | 0 <= b < 256

  /** A value read from the front of the readable bytes, and the bytes after it. */
  datatype Read<T> = Read(value: T, rest: seq<Byte>)

  /** The bytes after a read are a suffix of the bytes before it. */
  predicate Consumed<T>(d: seq<Byte>, r: Option<Read<T>>)
  {
    r.Some? ==> |r.value.rest| <= |d| && r.value.rest == d[|d| - |r.value.rest|..]
  }

  predicate FitsByte(v: int) { -128 <= v < 128 }

  /** Regrouping appended writes, stated on plain sequences so callers need not unfold what produced them. */
  lemma AppendAssoc(a: seq<Byte>, b: seq<Byte>, c: seq<Byte>)
    ensures a + b + c == a + (b + c)
  {
  }

  /** readByte: the byte as a signed value. */
  function SignedByte(b: Byte): (v: int)
    ensures FitsByte(v) && (v - b) % 256 == 0
  {
    if b >= 128 then b - 256 else b
  }

  /** writeByte keeps the low eight bits; a value that fits a byte reads back unchanged. */
  function ByteOf(v: int): (b: Byte)
    ensures (v - b) % 256 == 0
    ensures FitsByte(v) ==> SignedByte(b) == v
  {
    v % 256
  }

  function ReadByteFrom(d: seq<Byte>): (r: Option<Read<int>>)
    ensures r.None? <==> d == []
    ensures r.Some? ==> FitsByte(r.value.value) && |r.value.rest| == |d| - 1
    ensures Consumed(d, r)
  {
    if d == [] then None else Some(Read(SignedByte(d[0]), d[1..]))
  }

  /** writeBoolean writes 1 or 0. */
  function BooleanByte(b: bool): Byte
  {
    if b then 1 else 0
  }

  /** readBoolean: any byte but 0 is true. */
  function ReadBooleanFrom(d: seq<Byte>): (r: Option<Read<bool>>)
    ensures r.None? <==> d == []
    ensures r.Some? ==> |r.value.rest| == |d| - 1
    ensures Consumed(d, r)
  {
    if d == [] then None else Some(Read(d[0] != 0, d[1..]))
  }

  lemma ReadBooleanOf(b: bool, rest: seq<Byte>)
    ensures ReadBooleanFrom([BooleanByte(b)] + rest) == Some(Read(b, rest))
  {
    assert ([BooleanByte(b)] + rest)[1..] == rest;
  }

  /** writeInt: the low 32 bits, most significant byte first. */
  function IntBytes(v: int): (r: seq<Byte>)
    ensures |r| == 4
  {
    var u := v % TwoTo32;
    var q1 := u / 256;
    var q2 := q1 / 256;
    [q2 / 256, q2 % 256, q1 % 256, u % 256]
  }

  /** readInt: four bytes, most significant first, as a signed 32-bit value. */
  function IntOfBytes(b0: Byte, b1: Byte, b2: Byte, b3: Byte): (v: int)
    ensures IsInt(v)
  {
    var u := ((b0 * 256 + b1) * 256 + b2) * 256 + b3;
    if u > IntMax then u - TwoTo32 else u
  }

  function ReadIntFrom(d: seq<Byte>): (r: Option<Read<int>>)
    ensures r.None? <==> |d| < 4
    ensures r.Some? ==> IsInt(r.value.value) && |r.value.rest| == |d| - 4
    ensures Consumed(d, r)
  {
    if |d| < 4 then None else Some(Read(IntOfBytes(d[0], d[1], d[2], d[3]), d[4..]))
  }

  /** readInt after writeInt gives back the value, wrapped to 32 bits. */
  lemma ReadIntOf(v: int, rest: seq<Byte>)
    ensures ReadIntFrom(IntBytes(v) + rest) == Some(Read(Wrap32(v), rest))
  {
    var u := v % TwoTo32;
    var q1 := u / 256;
    var q2 := q1 / 256;
    assert u == q1 * 256 + u % 256;
    assert q1 == q2 * 256 + q1 % 256;
    assert q2 == (q2 / 256) * 256 + q2 % 256;
    assert q2 / 256 < 256;
    var b := IntBytes(v);
    assert ((b[0] as int * 256 + b[1]) * 256 + b[2]) * 256 + b[3] == u;
    assert (IntBytes(v) + rest)[4..] == rest;
  }

  /** writeInt after readInt gives back the four bytes read. */
  lemma IntBytesOf(b0: Byte, b1: Byte, b2: Byte, b3: Byte)
    ensures IntBytes(IntOfBytes(b0, b1, b2, b3)) == [b0, b1, b2, b3]
  {
    var u := ((b0 * 256 + b1) * 256 + b2) * 256 + b3;
    var v := IntOfBytes(b0, b1, b2, b3);
    assert v % TwoTo32 == u;
    assert u / 256 == (b0 * 256 + b1) * 256 + b2;
    assert (u / 256) / 256 == b0 * 256 + b1;
  }

  /** The largest string length Forge's two-byte VarInt prefix can hold, plus one. */
  const VarIntLimit: int := 0x4000

  /** writeVarInt(n, 2): seven bits per byte, low group first, the high bit marking a continuation. */
  function VarIntBytes(n: int): (r: seq<Byte>)
    requires 0 <= n < VarIntLimit
    ensures |r| == (if n < 128 then 1 else 2)
  {
    if n < 128 then [n] else [n % 128 + 128, n / 128]
  }

  /** readVarInt(buf, 2): a third byte (a second continuation bit) is an error. */
  function ReadVarIntFrom(d: seq<Byte>): (r: Option<Read<int>>)
    ensures r.Some? ==> 0 <= r.value.value < VarIntLimit
    ensures Consumed(d, r)
  {
    if d == [] then None
    else if d[0] < 128 then Some(Read(d[0], d[1..]))
    else if |d| < 2 || d[1] >= 128 then None
    else Some(Read(d[0] as int - 128 + d[1] as int * 128, d[2..]))
  }

  lemma ReadVarIntOf(n: int, rest: seq<Byte>)
    requires 0 <= n < VarIntLimit
    ensures ReadVarIntFrom(VarIntBytes(n) + rest) == Some(Read(n, rest))
  {
    var d := VarIntBytes(n) + rest;
    if n < 128 {
      assert d[1..] == rest;
    } else {
      assert d[2..] == rest;
    }
  }

  // ---- UTF-8 ----

  predicate IsContinuation(b: Byte) { 0x80 <= b < 0xC0 }

  /** A Unicode scalar value: a code point that is not a surrogate. */
  predicate IsScalar(n: int) { 0 <= n < 0xD800 || 0xE000 <= n < 0x11_0000 }

  /** The UTF-8 bytes of one character: one to four bytes by code point range, six bits per continuation byte. */
  function EncodeChar(c: char): (r: seq<Byte>)
    ensures 1 <= |r| <= 4
    ensures r[0] < 0x80 || 0xC0 <= r[0] < 0xF5
    ensures forall i :: 1 <= i < |r| ==> IsContinuation(r[i])
  {
    var n := c as int;
    var q1 := n / 64;
    var q2 := q1 / 64;
    if n < 0x80 then [n]
    else if n < 0x800 then [0xC0 + q1, 0x80 + n % 64]
    else if n < 0x1_0000 then [0xE0 + q2, 0x80 + q1 % 64, 0x80 + n % 64]
    else [0xF0 + q2 / 64, 0x80 + q2 % 64, 0x80 + q1 % 64, 0x80 + n % 64]
  }

  /** String.getBytes(UTF_8). */
  function Utf8(s: string): (r: seq<Byte>)
    ensures |r| >= |s|
    ensures s == [] <==> r == []
  {
    if s == [] then [] else EncodeChar(s[0]) + Utf8(s[1..])
  }

  /** The code point of a well-formed sequence of 2, 3 or 4 bytes. */
  function Code2(b0: Byte, b1: Byte): int { (b0 - 0xC0) * 64 + (b1 - 0x80) }
  function Code3(b0: Byte, b1: Byte, b2: Byte): int { ((b0 - 0xE0) * 64 + (b1 - 0x80)) * 64 + (b2 - 0x80) }
  function Code4(b0: Byte, b1: Byte, b2: Byte, b3: Byte): int
  {
    (((b0 - 0xF0) * 64 + (b1 - 0x80)) * 64 + (b2 - 0x80)) * 64 + (b3 - 0x80)
  }

  /**
   * One character from the front of well-formed UTF-8: no stray continuation
   * byte, no overlong form, no surrogate and nothing past U+10FFFF.
   */
  function DecodeChar(d: seq<Byte>): (r: Option<Read<char>>)
    ensures r.Some? ==> |r.value.rest| < |d|
    ensures Consumed(d, r)
  {
    if d == [] then None
    else if d[0] < 0x80 then Some(Read(d[0] as char, d[1..]))
    else if 0xC0 <= d[0] < 0xE0 && |d| >= 2 && IsContinuation(d[1]) && Code2(d[0], d[1]) >= 0x80 then
      Some(Read(Code2(d[0], d[1]) as char, d[2..]))
    else if 0xE0 <= d[0] < 0xF0 && |d| >= 3 && IsContinuation(d[1]) && IsContinuation(d[2])
      && Code3(d[0], d[1], d[2]) >= 0x800 && IsScalar(Code3(d[0], d[1], d[2])) then
      Some(Read(Code3(d[0], d[1], d[2]) as char, d[3..]))
    else if 0xF0 <= d[0] < 0xF8 && |d| >= 4 && IsContinuation(d[1]) && IsContinuation(d[2]) && IsContinuation(d[3])
      && 0x1_0000 <= Code4(d[0], d[1], d[2], d[3]) < 0x11_0000 then
      Some(Read(Code4(d[0], d[1], d[2], d[3]) as char, d[4..]))
    else None
  }

  /** Decoding a whole byte sequence as UTF-8; `None` when any part is malformed. */
  function DecodeUtf8(d: seq<Byte>): (r: Option<string>)
    ensures r.Some? ==> |r.value| <= |d|
    decreases |d|
  {
    if d == [] then Some([])
    else
      match DecodeChar(d)
      case None => None
      case Some(rd) =>
        match DecodeUtf8(rd.rest)
        case None => None
        case Some(tail) => Some([rd.value] + tail)
  }

  /** Six more low bits: q * 64 + r splits back into q and r. */
  lemma Split64(q: int, r: int)
    requires 0 <= r < 64
    ensures (q * 64 + r) / 64 == q && (q * 64 + r) % 64 == r
  {
  }

  /** Each character's bytes decode back to it, whatever follows. */
  lemma DecodeCharOf(c: char, rest: seq<Byte>)
    ensures DecodeChar(EncodeChar(c) + rest) == Some(Read(c, rest))
  {
    var n := c as int;
    var e := EncodeChar(c);
    var d := e + rest;
    assert d[|e|..] == rest;
    var q1 := n / 64;
    var q2 := q1 / 64;
    assert n == q1 * 64 + n % 64;
    assert q1 == q2 * 64 + q1 % 64;
    assert q2 == (q2 / 64) * 64 + q2 % 64;
    if 0x80 <= n < 0x800 {
      assert Code2(d[0], d[1]) == n;
    } else if 0x800 <= n < 0x1_0000 {
      assert Code3(d[0], d[1], d[2]) == n;
    } else if n >= 0x1_0000 {
      assert Code4(d[0], d[1], d[2], d[3]) == n;
    }
  }

  lemma EncodeCode2(b0: Byte, b1: Byte)
    requires 0xC0 <= b0 < 0xE0 && IsContinuation(b1) && Code2(b0, b1) >= 0x80
    ensures EncodeChar(Code2(b0, b1) as char) == [b0, b1]
  {
    Split64(b0 - 0xC0, b1 - 0x80);
  }

  lemma EncodeCode3(b0: Byte, b1: Byte, b2: Byte)
    requires 0xE0 <= b0 < 0xF0 && IsContinuation(b1) && IsContinuation(b2)
    requires Code3(b0, b1, b2) >= 0x800 && IsScalar(Code3(b0, b1, b2))
    ensures EncodeChar(Code3(b0, b1, b2) as char) == [b0, b1, b2]
  {
    var q: int := (b0 - 0xE0) * 64 + (b1 - 0x80);
    Split64(q, b2 - 0x80);
    Split64(b0 - 0xE0, b1 - 0x80);
  }

  lemma EncodeCode4(b0: Byte, b1: Byte, b2: Byte, b3: Byte)
    requires 0xF0 <= b0 < 0xF8 && IsContinuation(b1) && IsContinuation(b2) && IsContinuation(b3)
    requires 0x1_0000 <= Code4(b0, b1, b2, b3) < 0x11_0000
    ensures EncodeChar(Code4(b0, b1, b2, b3) as char) == [b0, b1, b2, b3]
  {
    var q2: int := (b0 - 0xF0) * 64 + (b1 - 0x80);
    var q1: int := q2 * 64 + (b2 - 0x80);
    Split64(q1, b3 - 0x80);
    Split64(q2, b2 - 0x80);
    Split64(b0 - 0xF0, b1 - 0x80);
  }

  /** A decoded character re-encodes to exactly the bytes it was read from. */
  lemma EncodeCharOf(d: seq<Byte>)
    requires DecodeChar(d).Some?
    ensures EncodeChar(DecodeChar(d).value.value) + DecodeChar(d).value.rest == d
  {
    if d[0] < 0x80 {
      assert [d[0]] + d[1..] == d;
    } else if d[0] < 0xE0 {
      EncodeCode2(d[0], d[1]);
      assert [d[0], d[1]] + d[2..] == d;
    } else if d[0] < 0xF0 {
      EncodeCode3(d[0], d[1], d[2]);
      assert [d[0], d[1], d[2]] + d[3..] == d;
    } else {
      EncodeCode4(d[0], d[1], d[2], d[3]);
      assert [d[0], d[1], d[2], d[3]] + d[4..] == d;
    }
  }

  /** Decoding the UTF-8 bytes of a string gives the string back. */
  lemma {:induction false} DecodeUtf8Of(s: string)
    ensures DecodeUtf8(Utf8(s)) == Some(s)
  {
    if s != [] {
      DecodeCharOf(s[0], Utf8(s[1..]));
      DecodeUtf8Of(s[1..]);
      assert [s[0]] + s[1..] == s;
    }
  }

  /** Bytes that decode are exactly the UTF-8 bytes of what they decode to. */
  lemma {:induction false} Utf8OfDecode(d: seq<Byte>)
    requires DecodeUtf8(d).Some?
    ensures Utf8(DecodeUtf8(d).value) == d
    decreases |d|
  {
    if d != [] {
      var rd := DecodeChar(d).value;
      EncodeCharOf(d);
      Utf8OfDecode(rd.rest);
      var s := DecodeUtf8(d).value;
      assert s[0] == rd.value && s[1..] == DecodeUtf8(rd.rest).value;
    }
  }

  /**
   * ByteBufUtils.writeUTF8String: the VarInt byte length, then the bytes;
   * `None` (an IllegalArgumentException) when the length needs more than two VarInt bytes.
   */
  function Utf8StringBytes(s: string): (r: Option<seq<Byte>>)
    ensures r.None? <==> |Utf8(s)| >= VarIntLimit
    ensures r.Some? ==> |r.value| > |Utf8(s)|
  {
    var bytes := Utf8(s);
    if |bytes| >= VarIntLimit then None else Some(VarIntBytes(|bytes|) + bytes)
  }

  /** ByteBufUtils.readUTF8String: the VarInt length, then that many bytes decoded as UTF-8. */
  function ReadUtf8StringFrom(d: seq<Byte>): (r: Option<Read<string>>)
  {
    match ReadVarIntFrom(d)
    case None => None
    case Some(len) =>
      if len.value > |len.rest| then None
      else
        match DecodeUtf8(len.rest[..len.value])
        case None => None
        case Some(s) => Some(Read(s, len.rest[len.value..]))
  }

  /** readUTF8String only ever moves forward: what is left is a suffix of what was there. */
  lemma ReadUtf8StringConsumed(d: seq<Byte>)
    ensures Consumed(d, ReadUtf8StringFrom(d))
  {
    var len := ReadVarIntFrom(d);
    if len.Some? && len.value.value <= |len.value.rest| {
      var after := len.value.rest;
      assert after[len.value.value..] == d[|d| - |after[len.value.value..]|..];
    }
  }

  /** readUTF8String after writeUTF8String gives the string back, whatever follows. */
  lemma ReadUtf8StringOf(s: string, rest: seq<Byte>)
    requires Utf8StringBytes(s).Some?
    ensures ReadUtf8StringFrom(Utf8StringBytes(s).value + rest) == Some(Read(s, rest))
  {
    var bytes := Utf8(s);
    var d := VarIntBytes(|bytes|) + (bytes + rest);
    assert Utf8StringBytes(s).value + rest == d;
    ReadVarIntOf(|bytes|, bytes + rest);
    assert (bytes + rest)[..|bytes|] == bytes;
    assert (bytes + rest)[|bytes|..] == rest;
    DecodeUtf8Of(s);
  }

  /** A Netty buffer: the bytes written so far and the index of the next byte to read. */
  class Buffer {
    var data: seq<Byte>
    var readerIndex: nat

    ghost predicate Valid()
      reads this
    {
      readerIndex <= |data|
    }

    /** The bytes not read yet. */
    function Readable(): seq<Byte>
      reads this
      requires Valid()
    {
      data[readerIndex..]
    }

    constructor(initial: seq<Byte>)
      ensures Valid() && data == initial && readerIndex == 0
    {
      data := initial;
      readerIndex := 0;
    }

    method WriteByte(v: int)
      requires Valid()
      modifies this
      ensures Valid() && readerIndex == old(readerIndex)
      ensures data == old(data) + [ByteOf(v)]
    {
      data := data + [ByteOf(v)];
    }

    method WriteBoolean(b: bool)
      requires Valid()
      modifies this
      ensures Valid() && readerIndex == old(readerIndex)
      ensures data == old(data) + [BooleanByte(b)]
    {
      data := data + [BooleanByte(b)];
    }

    method WriteInt(v: int)
      requires Valid()
      modifies this
      ensures Valid() && readerIndex == old(readerIndex)
      ensures data == old(data) + IntBytes(v)
    {
      data := data + IntBytes(v);
    }

    /** ByteBufUtils.writeUTF8String; `ok` is false (the argument check throws) when nothing could be written. */
    method WriteUtf8String(s: string) returns (ok: bool)
      requires Valid()
      modifies this
      ensures Valid() && readerIndex == old(readerIndex)
      ensures ok <==> Utf8StringBytes(s).Some?
      ensures ok ==> data == old(data) + Utf8StringBytes(s).value
      ensures !ok ==> data == old(data)
    {
      var bytes := Utf8StringBytes(s);
      ok := bytes.Some?;
      if ok {
        data := data + bytes.value;
      }
    }

    /** Moves the reader index to the start of `rest`, a suffix of the readable bytes. */
    method Advance(rest: seq<Byte>)
      requires Valid() && |rest| <= |Readable()| && rest == Readable()[|Readable()| - |rest|..]
      modifies this
      ensures Valid() && data == old(data) && Readable() == rest
    {
      var k := |Readable()| - |rest|;
      assert data[readerIndex..][k..] == data[readerIndex + k..];
      readerIndex := readerIndex + k;
    }

    method ReadByte() returns (r: Option<int>)
      requires Valid()
      modifies this
      ensures Valid() && data == old(data)
      ensures ReadByteFrom(old(Readable())).None? ==> r.None?
      ensures ReadByteFrom(old(Readable())).Some? ==>
        r == Some(ReadByteFrom(old(Readable())).value.value) && Readable() == ReadByteFrom(old(Readable())).value.rest
    {
      var rd := ReadByteFrom(Readable());
      if rd.None? {
        return None;
      }
      Advance(rd.value.rest);
      r := Some(rd.value.value);
    }

    method ReadBoolean() returns (r: Option<bool>)
      requires Valid()
      modifies this
      ensures Valid() && data == old(data)
      ensures ReadBooleanFrom(old(Readable())).None? ==> r.None?
      ensures ReadBooleanFrom(old(Readable())).Some? ==>
        r == Some(ReadBooleanFrom(old(Readable())).value.value) && Readable() == ReadBooleanFrom(old(Readable())).value.rest
    {
      var rd := ReadBooleanFrom(Readable());
      if rd.None? {
        return None;
      }
      Advance(rd.value.rest);
      r := Some(rd.value.value);
    }

    method ReadInt() returns (r: Option<int>)
      requires Valid()
      modifies this
      ensures Valid() && data == old(data)
      ensures ReadIntFrom(old(Readable())).None? ==> r.None?
      ensures ReadIntFrom(old(Readable())).Some? ==>
        r == Some(ReadIntFrom(old(Readable())).value.value) && Readable() == ReadIntFrom(old(Readable())).value.rest
    {
      var rd := ReadIntFrom(Readable());
      if rd.None? {
        return None;
      }
      Advance(rd.value.rest);
      r := Some(rd.value.value);
    }

    method ReadUtf8String() returns (r: Option<string>)
      requires Valid()
      modifies this
      ensures Valid() && data == old(data)
      ensures ReadUtf8StringFrom(old(Readable())).None? ==> r.None?
      ensures ReadUtf8StringFrom(old(Readable())).Some? ==>
        r == Some(ReadUtf8StringFrom(old(Readable())).value.value) && Readable() == ReadUtf8StringFrom(old(Readable())).value.rest
    {
      var rd := ReadUtf8StringFrom(Readable());
      ReadUtf8StringConsumed(Readable());
      if rd.None? {
        return None;
      }
      Advance(rd.value.rest);
      r := Some(rd.value.value);
    }
  }
}
