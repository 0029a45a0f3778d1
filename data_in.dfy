/**
 * Incoming payloads (`HandleDataInEvent` in src/server/serverGameState.cc and
 * src/clientGameState.cc, which are the same code): a payload is one type
 * byte, a two-byte subtype and, for the three object events, their fields.
 * The type and subtype are checked against their counts; only OBJECT_CREATE,
 * OBJECT_DESTROY and OBJECT_UPDATE of OBJECT_EVENT become events.
 *
 * The source reads the fields from a stream without checking that the bytes
 * are there, and copies a body of computed length through a 65535-byte stack
 * buffer. Payloads for which a read would run past the end, or a body would
 * overrun the buffer, are excluded by `Readable`.
 */
module DataIn {
  import opened Bytes
  import opened Wrappers
  import opened Events
  import Serializable

  /** The size of the copy buffer, `USHRT_MAX`. */
  const USHRT_MAX: nat := 0xFFFF

  /** `ObjectCreateEvent`: the object type and the object's serialized data. */
  function CreateEvent(objectType: Byte, data: seq<Byte>): Event
  {
    TypedEvent(OBJECT_EVENT, OBJECT_CREATE).(objectType := objectType, data := data)
  }

  /** `ObjectDestroyEvent`: the id of the object. */
  function DestroyEvent(objectId: uint32): Event
  {
    TypedEvent(OBJECT_EVENT, OBJECT_DESTROY).(objectId := objectId)
  }

  /** `ObjectUpdateEvent`: the id of the object and its serialized fields. */
  function UpdateEvent(objectId: uint32, data: seq<Byte>): Event
  {
    TypedEvent(OBJECT_EVENT, OBJECT_UPDATE).(objectId := objectId, data := data)
  }

  /** The subtype field: bytes 1 and 2, little-endian. */
  function SubTypeOf(p: seq<Byte>): EventSubType
    requires |p| >= 3
  {
    DecodeLE(p[1..3])
  }

  /**
   * The payloads the decoder reads within bounds: the type byte is there;
   * after a valid type, the subtype is there; and an object event with a
   * valid subtype holds its fields, with a body that fits the buffer.
   */
  predicate Readable(p: seq<Byte>)
  {
    |p| >= 1 &&
    (p[0] < EVENT_TYPE_COUNT ==>
      |p| >= 3 &&
      (SubTypeOf(p) < EVENT_SUB_TYPE_COUNT && p[0] == OBJECT_EVENT ==>
        (SubTypeOf(p) == OBJECT_CREATE ==> 4 <= |p| <= 4 + USHRT_MAX) &&
        (SubTypeOf(p) == OBJECT_DESTROY ==> |p| >= 7) &&
        (SubTypeOf(p) == OBJECT_UPDATE ==> 7 <= |p| <= 7 + USHRT_MAX)))
  }

  /** The subtypes that the decoder turns into events. */
  predicate IsObjectSubType(st: EventSubType)
  {
    st == OBJECT_CREATE || st == OBJECT_DESTROY || st == OBJECT_UPDATE
  }

  /**
   * The event a payload yields, if any. An event comes out exactly when the
   * type is valid and is OBJECT_EVENT and the subtype is valid and is one of
   * the three object subtypes; every other payload yields nothing.
   */
  function DecodeDataIn(p: seq<Byte>): (r: Option<Event>)
    requires Readable(p)
    ensures r.Some? <==>
      p[0] < EVENT_TYPE_COUNT && SubTypeOf(p) < EVENT_SUB_TYPE_COUNT
      && p[0] == OBJECT_EVENT && IsObjectSubType(SubTypeOf(p))
    ensures r.Some? ==> r.value.eventType == OBJECT_EVENT && r.value.subType == SubTypeOf(p)
  {
    if p[0] >= EVENT_TYPE_COUNT then None
    else
      var st := SubTypeOf(p);
      if st >= EVENT_SUB_TYPE_COUNT then None
      else if p[0] != OBJECT_EVENT then None
      else if st == OBJECT_CREATE then Some(CreateEvent(p[3], p[4..]))
      else if st == OBJECT_DESTROY then Some(DestroyEvent(DecodeLE(p[3..7])))
      else if st == OBJECT_UPDATE then Some(UpdateEvent(DecodeLE(p[3..7]), p[7..]))
      else None
  }

  /** The events the decoder can produce: one of the three object events, as their constructors build them. */
  predicate IsObjectEvent(e: Event)
  {
    (e.subType == OBJECT_CREATE && e == CreateEvent(e.objectType, e.data))
    || (e.subType == OBJECT_DESTROY && e == DestroyEvent(e.objectId))
    || (e.subType == OBJECT_UPDATE && e == UpdateEvent(e.objectId, e.data))
  }

  /**
   * The payload of an object event, the layout the decoder reads: type byte,
   * subtype, then the object type and body (create), the id (destroy), or
   * the id and body (update).
   */
  function EncodeObjectEvent(e: Event): (p: seq<Byte>)
    requires IsObjectEvent(e)
  {
    var head := [OBJECT_EVENT] + EncodeLE(e.subType, 2);
    if e.subType == OBJECT_CREATE then head + [e.objectType] + e.data
    else if e.subType == OBJECT_DESTROY then head + EncodeLE(e.objectId, 4)
    else head + EncodeLE(e.objectId, 4) + e.data
  }

  /** The subtype field of an encoded event is its subtype. */
  lemma EncodedSubType(e: Event)
    requires IsObjectEvent(e)
    ensures |EncodeObjectEvent(e)| >= 3 && SubTypeOf(EncodeObjectEvent(e)) == e.subType
  {
    var p := EncodeObjectEvent(e);
    assert p[1..3] == EncodeLE(e.subType, 2);
    DecodeEncode(e.subType, 2);
  }

  /**
   * Round trip: when the object type and the subtype are below their
   * counts, the payload of an object event whose body fits the buffer is
   * readable and decodes to that same event.
   */
  lemma DecodeEncodeEvent(e: Event)
    requires IsObjectEvent(e) && |e.data| <= USHRT_MAX
    requires OBJECT_EVENT < EVENT_TYPE_COUNT && e.subType < EVENT_SUB_TYPE_COUNT
    ensures Readable(EncodeObjectEvent(e))
    ensures DecodeDataIn(EncodeObjectEvent(e)) == Some(e)
  {
    var p := EncodeObjectEvent(e);
    var head := [OBJECT_EVENT] + EncodeLE(e.subType, 2);
    var id := EncodeLE(e.objectId, 4);
    EncodedSubType(e);
    if e.subType != OBJECT_CREATE {
      if e.subType == OBJECT_UPDATE {
        PartsOf(head, id, e.data);
      } else {
        PartsOf(head, id, []);
        assert p == head + id + [];
      }
      DecodeEncode(e.objectId, 4);
    } else {
      assert p[4..] == e.data;
    }
  }

  /** The parts of a concatenation of three byte strings, sliced back out. */
  lemma PartsOf(a: seq<Byte>, b: seq<Byte>, c: seq<Byte>)
    ensures (a + b + c)[|a|..|a| + |b|] == b && (a + b + c)[|a| + |b|..] == c
  {
  }

  /**
   * The other direction: an event decoded from a payload is an object event
   * whose payload is the one read, except that a destroy payload may carry
   * bytes after the id, which the decoder ignores.
   */
  lemma EncodeDecodeEvent(p: seq<Byte>)
    requires Readable(p) && DecodeDataIn(p).Some?
    ensures IsObjectEvent(DecodeDataIn(p).value)
    ensures DecodeDataIn(p).value.subType != OBJECT_DESTROY ==> EncodeObjectEvent(DecodeDataIn(p).value) == p
    ensures DecodeDataIn(p).value.subType == OBJECT_DESTROY ==> EncodeObjectEvent(DecodeDataIn(p).value) == p[..7]
  {
    var e := DecodeDataIn(p).value;
    EncodeDecode(p[1..3]);
    assert p == [p[0]] + p[1..3] + p[3..];
    if e.subType != OBJECT_CREATE {
      EncodeDecode(p[3..7]);
      assert p[..7] == [p[0]] + p[1..3] + p[3..7];
      if e.subType == OBJECT_UPDATE {
        assert p == [p[0]] + p[1..3] + p[3..7] + p[7..];
      }
    } else {
      assert p == [p[0]] + p[1..3] + [p[3]] + p[4..];
    }
  }

  /**
   * The decoding steps of `HandleDataInEvent` over a stream of the payload:
   * read the type and check it, read the subtype and check it, then read
   * the fields of the object event. The body is the `length - 4` (create)
   * or `length - 7` (update) bytes that follow.
   */
  method ReadDataIn(payload: seq<Byte>) returns (r: Option<Event>)
    requires Readable(payload)
    ensures r == DecodeDataIn(payload)
  {
    var stream := new Serializable.ByteStream.From(payload);
    var t := Serializable.UnserializeUint8(stream);
    if t >= EVENT_TYPE_COUNT {
      return None;
    }
    var st := Serializable.UnserializeUint16(stream);
    assert st == SubTypeOf(payload);
    if st >= EVENT_SUB_TYPE_COUNT {
      return None;
    }
    r := None;
    if t == OBJECT_EVENT {
      if st == OBJECT_CREATE {
        var objectType := Serializable.UnserializeUint8(stream);
        var dataCount := |stream.bytes| - 4;
        var data := stream.bytes[stream.readPos..stream.readPos + dataCount];
        assert data == payload[4..];
        r := Some(CreateEvent(objectType, data));
      } else if st == OBJECT_DESTROY {
        var objectId := Serializable.UnserializeUint32(stream);
        r := Some(DestroyEvent(objectId));
      } else if st == OBJECT_UPDATE {
        var objectId := Serializable.UnserializeUint32(stream);
        var dataCount := |stream.bytes| - 7;
        var data := stream.bytes[stream.readPos..stream.readPos + dataCount];
        assert data == payload[7..];
        r := Some(UpdateEvent(objectId, data));
      }
    }
  }
}
