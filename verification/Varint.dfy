/** Base-128 variable-length integers as `encoding/binary` reads and writes them: unsigned
    LEB128 (section 7.6 of DWARF 5) limited to ten bytes, and zigzag for signed values. */
module Varint {
  import opened ByteStrings

  const TWO_TO_63: int := 0x8000_0000_0000_0000
  const TWO_TO_64: nat := 0x1_0000_0000_0000_0000
  const MAX_VARINT_LEN: nat := 10

  type UInt64 = x: int | 0 <= x < TWO_TO_64
  type Int64 = x: int | -TWO_TO_63 <= x < TWO_TO_63

  /** `binary.Uvarint`: a value and its width, the end of the buffer (size 0), or an
      overflow of 64 bits (negative size). */
  datatype Decoded = Got(value: nat, size: nat) | End | Overflow

  /** Decodes the bytes of a varint from its byte number `i` on. */
  function DecodeFrom(buf: seq<Byte>, i: nat): Decoded
    decreases |buf|
  {
    if buf == [] then End
    else if i >= MAX_VARINT_LEN then Overflow
    else if buf[0] < 0x80 then
      if i == MAX_VARINT_LEN - 1 && buf[0] > 1 then Overflow else Got(buf[0], 1)
    else
      match DecodeFrom(buf[1..], i + 1)
      case Got(v, n) => Got(buf[0] - 0x80 + 0x80 * v, n + 1)
      case End => End
      case Overflow => Overflow
  }

  function Uvarint(buf: seq<Byte>): Decoded
  {
    DecodeFrom(buf, 0)
  }

  /** `binary.AppendUvarint` on an empty buffer. */
  function EncodeUvarint(v: nat): seq<Byte>
  {
    if v < 0x80 then [v] else [v % 0x80 + 0x80] + EncodeUvarint(v / 0x80)
  }

  function Zigzag(x: int): nat
  {
    if x >= 0 then 2 * x else -2 * x - 1
  }

  function Unzigzag(u: nat): int
  {
    if u % 2 == 0 then u / 2 else -(u / 2) - 1
  }

  function EncodeVarint(x: int): seq<Byte>
  {
    EncodeUvarint(Zigzag(x))
  }

  /** One more than the largest value that byte `i` and those after it can carry. */
  function Room(i: nat): nat
    decreases MAX_VARINT_LEN - i
  {
    if i >= MAX_VARINT_LEN then 0
    else if i == MAX_VARINT_LEN - 1 then 2
    else 0x80 * Room(i + 1)
  }

  lemma RoomIs64Bits()
    ensures Room(0) == TWO_TO_64
  {
    assert Room(8) == 0x100 && Room(7) == 0x8000;
    assert Room(6) == 0x40_0000 && Room(5) == 0x2000_0000;
    assert Room(4) == 0x10_0000_0000 && Room(3) == 0x800_0000_0000;
    assert Room(2) == 0x4_0000_0000_0000 && Room(1) == 0x200_0000_0000_0000;
  }

  /** Reading back what was written, whatever follows it. */
  lemma {:induction false} DecodeEncoded(v: nat, rest: seq<Byte>, i: nat)
    requires v < Room(i)
    ensures DecodeFrom(EncodeUvarint(v) + rest, i) == Got(v, |EncodeUvarint(v)|)
    decreases v
  {
    var buf := EncodeUvarint(v) + rest;
    if v >= 0x80 {
      DecodeEncoded(v / 0x80, rest, i + 1);
      assert buf[1..] == EncodeUvarint(v / 0x80) + rest;
    }
  }

  /** What a decoder accepts fits in 64 bits, stays inside the buffer, and is never
      shorter than the encoder's own form, so non-minimal input only shrinks. */
  lemma {:induction false} DecodedIsBounded(buf: seq<Byte>, i: nat)
    requires DecodeFrom(buf, i).Got?
    ensures DecodeFrom(buf, i).value < Room(i)
    ensures 1 <= DecodeFrom(buf, i).size <= |buf|
    ensures |EncodeUvarint(DecodeFrom(buf, i).value)| <= DecodeFrom(buf, i).size
    decreases |buf|
  {
    if buf[0] >= 0x80 {
      DecodedIsBounded(buf[1..], i + 1);
      var v := DecodeFrom(buf[1..], i + 1).value;
      assert (buf[0] - 0x80 + 0x80 * v) / 0x80 == v;
    } else if i < MAX_VARINT_LEN - 1 {
      RoomIsWide(i);
    }
  }

  lemma {:induction false} RoomIsWide(i: nat)
    requires i < MAX_VARINT_LEN - 1
    ensures Room(i) >= 0x100
    decreases MAX_VARINT_LEN - i
  {
    if i < MAX_VARINT_LEN - 2 { RoomIsWide(i + 1); }
  }

  lemma {:induction false} EncodedIsShort(v: nat, i: nat)
    requires v < Room(i)
    ensures 1 <= |EncodeUvarint(v)| <= MAX_VARINT_LEN - i
    decreases v
  {
    if v >= 0x80 { EncodedIsShort(v / 0x80, i + 1); }
  }

  lemma UvarintRoundTrip(v: UInt64, rest: seq<Byte>)
    ensures Uvarint(EncodeUvarint(v) + rest) == Got(v, |EncodeUvarint(v)|)
    ensures 1 <= |EncodeUvarint(v)| <= MAX_VARINT_LEN
  {
    RoomIs64Bits();
    EncodedIsShort(v, 0);
    DecodeEncoded(v, rest, 0);
  }

  lemma UvarintAccepted(buf: seq<Byte>)
    requires Uvarint(buf).Got?
    ensures Uvarint(buf).value < TWO_TO_64
    ensures 1 <= Uvarint(buf).size <= |buf|
    ensures |EncodeUvarint(Uvarint(buf).value)| <= Uvarint(buf).size
  {
    RoomIs64Bits();
    DecodedIsBounded(buf, 0);
  }

  /** Zigzag is a bijection between the signed and the unsigned 64-bit integers. */
  lemma ZigzagBijection(x: Int64, u: UInt64)
    ensures Zigzag(x) < TWO_TO_64 && Unzigzag(Zigzag(x)) == x
    ensures -TWO_TO_63 <= Unzigzag(u) < TWO_TO_63 && Zigzag(Unzigzag(u)) == u
  {
  }
}
