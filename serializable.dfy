/**
 * The fixed-width write and read helpers over a binary string stream
 * (src/network/serializable.cc). A write appends the value's in-memory bytes
 * at the end; a read takes the next bytes at the read position and moves the
 * position past them.
 */
module Serializable {
  import opened Bytes

  /** A binary `std::stringstream`: its bytes and its read position. */
  class ByteStream {
    var bytes: seq<Byte>
    var readPos: nat

    ghost predicate Valid()
      reads this
    {
      readPos <= |bytes|
    }

    /** The bytes not yet read. */
    function Unread(): (r: seq<Byte>)
      reads this
      requires Valid()
      ensures |r| == |bytes| - readPos
    {
      bytes[readPos..]
    }

    /** An empty stream. */
    constructor ()
      ensures Valid() && bytes == [] && readPos == 0
    {
      bytes := [];
      readPos := 0;
    }

    /** A stream holding `data`, read from its start (`stream << data`). */
    constructor From(data: seq<Byte>)
      ensures Valid() && bytes == data && readPos == 0
    {
      bytes := data;
      readPos := 0;
    }
  }

  /** Appends the bytes of `value` (`width` bytes, little-endian). */
  method WriteUint(stream: ByteStream, value: nat, width: nat)
    requires value < Pow256(width)
    modifies stream
    ensures stream.bytes == old(stream.bytes) + EncodeLE(value, width)
    ensures stream.readPos == old(stream.readPos)
  {
    stream.bytes := stream.bytes + EncodeLE(value, width);
  }

  /** Takes the next `width` bytes as an unsigned little-endian number. */
  method ReadUint(stream: ByteStream, width: nat) returns (value: nat)
    requires stream.Valid() && stream.readPos + width <= |stream.bytes|
    modifies stream
    ensures stream.Valid()
    ensures value == DecodeLE(old(stream.bytes)[old(stream.readPos)..old(stream.readPos) + width])
    ensures value < Pow256(width)
    ensures stream.bytes == old(stream.bytes) && stream.readPos == old(stream.readPos) + width
  {
    value := DecodeLE(stream.bytes[stream.readPos..stream.readPos + width]);
    stream.readPos := stream.readPos + width;
  }

  method SerializeUint8(stream: ByteStream, value: Byte)
    modifies stream
    ensures stream.bytes == old(stream.bytes) + [value]
    ensures stream.readPos == old(stream.readPos)
  {
    WriteUint(stream, value, 1);
    assert EncodeLE(value, 1) == [value];
  }

  method SerializeUint16(stream: ByteStream, value: uint16)
    modifies stream
    ensures stream.bytes == old(stream.bytes) + EncodeLE(value, 2)
    ensures |stream.bytes| == |old(stream.bytes)| + 2
    ensures stream.readPos == old(stream.readPos)
  {
    WriteUint(stream, value, 2);
  }

  method SerializeUint32(stream: ByteStream, value: uint32)
    modifies stream
    ensures stream.bytes == old(stream.bytes) + EncodeLE(value, 4)
    ensures |stream.bytes| == |old(stream.bytes)| + 4
    ensures stream.readPos == old(stream.readPos)
  {
    WriteUint(stream, value, 4);
  }

  /** A float is written as its raw bit pattern. */
  method SerializeFloat(stream: ByteStream, value: Word32)
    modifies stream
    ensures stream.bytes == old(stream.bytes) + value
    ensures stream.readPos == old(stream.readPos)
  {
    stream.bytes := stream.bytes + value;
  }

  /** A double is written as its raw bit pattern. */
  method SerializeDouble(stream: ByteStream, value: Word64)
    modifies stream
    ensures stream.bytes == old(stream.bytes) + value
    ensures stream.readPos == old(stream.readPos)
  {
    stream.bytes := stream.bytes + value;
  }

  method UnserializeUint8(stream: ByteStream) returns (value: Byte)
    requires stream.Valid() && stream.readPos + 1 <= |stream.bytes|
    modifies stream
    ensures stream.Valid()
    ensures value == old(stream.bytes)[old(stream.readPos)]
    ensures stream.bytes == old(stream.bytes) && stream.readPos == old(stream.readPos) + 1
  {
    value := stream.bytes[stream.readPos];
    stream.readPos := stream.readPos + 1;
  }

  method UnserializeUint16(stream: ByteStream) returns (value: uint16)
    requires stream.Valid() && stream.readPos + 2 <= |stream.bytes|
    modifies stream
    ensures stream.Valid()
    ensures value == DecodeLE(old(stream.bytes)[old(stream.readPos)..old(stream.readPos) + 2])
    ensures stream.bytes == old(stream.bytes) && stream.readPos == old(stream.readPos) + 2
  {
    var v := ReadUint(stream, 2);
    value := v;
  }

  method UnserializeUint32(stream: ByteStream) returns (value: uint32)
    requires stream.Valid() && stream.readPos + 4 <= |stream.bytes|
    modifies stream
    ensures stream.Valid()
    ensures value == DecodeLE(old(stream.bytes)[old(stream.readPos)..old(stream.readPos) + 4])
    ensures stream.bytes == old(stream.bytes) && stream.readPos == old(stream.readPos) + 4
  {
    var v := ReadUint(stream, 4);
    value := v;
  }

  method UnserializeFloat(stream: ByteStream) returns (value: Word32)
    requires stream.Valid() && stream.readPos + 4 <= |stream.bytes|
    modifies stream
    ensures stream.Valid()
    ensures value == old(stream.bytes)[old(stream.readPos)..old(stream.readPos) + 4]
    ensures stream.bytes == old(stream.bytes) && stream.readPos == old(stream.readPos) + 4
  {
    value := stream.bytes[stream.readPos..stream.readPos + 4];
    stream.readPos := stream.readPos + 4;
  }

  method UnserializeDouble(stream: ByteStream) returns (value: Word64)
    requires stream.Valid() && stream.readPos + 8 <= |stream.bytes|
    modifies stream
    ensures stream.Valid()
    ensures value == old(stream.bytes)[old(stream.readPos)..old(stream.readPos) + 8]
    ensures stream.bytes == old(stream.bytes) && stream.readPos == old(stream.readPos) + 8
  {
    value := stream.bytes[stream.readPos..stream.readPos + 8];
    stream.readPos := stream.readPos + 8;
  }

  /**
   * Round trip through one stream: what SerializeUint32 writes at the end of
   * a stream, UnserializeUint32 reads back once the earlier bytes are consumed.
   * The stream is created here, so nothing outside changes.
   */
  method Uint32RoundTrip(prefix: seq<Byte>, value: uint32) returns (back: uint32)
    ensures back == value
  {
    var s := new ByteStream.From(prefix);
    SerializeUint32(s, value);
    s.readPos := |prefix|;
    back := UnserializeUint32(s);
    assert s.bytes[|prefix|..|prefix| + 4] == EncodeLE(value, 4);
    DecodeEncode(value, 4);
  }

  /** The same round trip for a float's bit pattern, after an unrelated 16-bit value. */
  method FloatAfterUint16RoundTrip(tag: uint16, value: Word32) returns (backTag: uint16, back: Word32)
    ensures backTag == tag && back == value
  {
    var s := new ByteStream();
    SerializeUint16(s, tag);
    SerializeFloat(s, value);
    backTag := UnserializeUint16(s);
    back := UnserializeFloat(s);
    assert s.bytes[0..2] == EncodeLE(tag, 2);
    DecodeEncode(tag, 2);
  }
}
