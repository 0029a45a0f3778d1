/**
 * Bytes, fixed-width unsigned integers and their in-memory byte images.
 *
 * The wire helpers copy a value's in-memory bytes, so the byte order is the
 * host's; the model fixes it to little-endian. Floats and doubles are never
 * interpreted: they are opaque 4- and 8-byte words whose bit patterns travel
 * unchanged.
 */
module Bytes {

  type Byte = b: int | 0 <= b < 0x100
  type uint16 = x: int | 0 <= x < 0x1_0000
  type uint32 = x: int | 0 <= x < 0x1_0000_0000
  type uint64 = x: int | 0 <= x < 0x1_0000_0000_0000_0000

  const UINT32_MODULUS: int := 0x1_0000_0000
  const UINT64_MODULUS: int := 0x1_0000_0000_0000_0000

  /** The bit pattern of a `float`. */
  type Word32 = s: seq<Byte> | |s| == 4 witness [0, 0, 0, 0]

  /** The bit pattern of a `double`. */
  type Word64 = s: seq<Byte> | |s| == 8 witness [0, 0, 0, 0, 0, 0, 0, 0]

  /** IEEE-754 single-precision bit patterns of the constants the source uses, little-endian. */
  const FLOAT_ZERO: Word32 := [0x00, 0x00, 0x00, 0x00]
  const FLOAT_HALF: Word32 := [0x00, 0x00, 0x00, 0x3F]
  const FLOAT_ONE: Word32 := [0x00, 0x00, 0x80, 0x3F]
  const FLOAT_TWO: Word32 := [0x00, 0x00, 0x00, 0x40]
  const FLOAT_FIVE: Word32 := [0x00, 0x00, 0xA0, 0x40]
  const FLOAT_MINUS_FIVE: Word32 := [0x00, 0x00, 0xA0, 0xC0]

  /** 256 to the power `width`: the number of values `width` bytes can hold. */
  function Pow256(width: nat): (p: nat)
    ensures p >= 1
  {
    if width == 0 then 1 else 0x100 * Pow256(width - 1)
  }

  /** The `width` bytes that hold `v`, least significant first. */
  function EncodeLE(v: nat, width: nat): (r: seq<Byte>)
    requires v < Pow256(width)
    ensures |r| == width
  {
    if width == 0 then [] else [v % 0x100] + EncodeLE(v / 0x100, width - 1)
  }

  /** The number whose little-endian image is `bs`. */
  function DecodeLE(bs: seq<Byte>): (v: nat)
    ensures v < Pow256(|bs|)
  {
    if bs == [] then 0 else bs[0] + 0x100 * DecodeLE(bs[1..])
  }

  /** Reading back what was written gives the value that was written. */
  lemma {:induction false} DecodeEncode(v: nat, width: nat)
    requires v < Pow256(width)
    ensures DecodeLE(EncodeLE(v, width)) == v
  {
    if width > 0 {
      var r := EncodeLE(v, width);
      assert r[1..] == EncodeLE(v / 0x100, width - 1);
      DecodeEncode(v / 0x100, width - 1);
    }
  }

  /** Writing back what was read gives the bytes that were read. */
  lemma {:induction false} EncodeDecode(bs: seq<Byte>)
    ensures EncodeLE(DecodeLE(bs), |bs|) == bs
  {
    if bs != [] {
      var v := DecodeLE(bs);
      assert v % 0x100 == bs[0] && v / 0x100 == DecodeLE(bs[1..]);
      EncodeDecode(bs[1..]);
    }
  }

  /** Names and labels are byte strings; a `string` whose characters are all below 256 is one. */
  predicate IsByteString(s: string)
  {
    forall i | 0 <= i < |s| :: s[i] as int < 0x100
  }

  /** The bytes of a byte string. */
  function StringBytes(s: string): (r: seq<Byte>)
    requires IsByteString(s)
    ensures |r| == |s|
    ensures forall i | 0 <= i < |s| :: r[i] == s[i] as int
  {
    if s == [] then [] else [s[0] as int] + StringBytes(s[1..])
  }

  /** The byte string made of `bs`. */
  function BytesString(bs: seq<Byte>): (s: string)
    ensures |s| == |bs|
  {
    seq(|bs|, i requires 0 <= i < |bs| => bs[i] as char)
  }

  /** Each character of `BytesString(bs)` is the byte at the same place. */
  lemma BytesStringChars(bs: seq<Byte>)
    ensures forall i | 0 <= i < |bs| :: BytesString(bs)[i] as int == bs[i]
    ensures IsByteString(BytesString(bs))
  {
  }

  /** The two conversions are inverse to each other. */
  lemma StringBytesRoundTrip(s: string)
    requires IsByteString(s)
    ensures BytesString(StringBytes(s)) == s
  {
    var r := BytesString(StringBytes(s));
    BytesStringChars(StringBytes(s));
    assert |r| == |s|;
    forall i | 0 <= i < |s| ensures r[i] == s[i] { }
  }
}
