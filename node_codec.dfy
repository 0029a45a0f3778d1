/**
 * `WorldNode::Serialize` and `WorldNode::Unserialize` (src/world/worldNode.cc)
 * over the virtual field handlers of the three layers.
 *
 * Serialized form: one count byte (the number of fields written, in an
 * unsigned char), then the blob of every requested name some layer knows,
 * in request order. An empty request means id, position, rotation, scale.
 *
 * Unserialize reads the count, then per field: the length byte L, the name up
 * to ':', and (L - |name| - 1) modulo 256 data bytes, which it hands to the
 * node's field handler. It stops at a missing name, at a field the handler
 * rejects, and (in this model) when the data runs out.
 */
module NodeCodec {
  import opened Bytes
  import opened Wrappers
  import opened WorldNodes
  import opened Entities
  import opened PhysicsObjects
  import Serializable

  // ----- virtual dispatch -----

  /** A field of any layer. */
  datatype Field = BaseF(b: BaseField) | EntityF(e: EntityField) | PhysicsF(p: PhysicsField)

  /** The wire name of a field. */
  function FieldName(f: Field): (name: string)
    ensures IsByteString(name) && ':' !in name
  {
    match f
    case BaseF(b) => BaseFieldName(b)
    case EntityF(e) => EntityFieldName(e)
    case PhysicsF(p) => PhysicsFieldName(p)
  }

  /** The fields a node of `kind` has: its own layer's and those of the layers below. */
  predicate Owns(kind: NodeKind, f: Field)
  {
    match f
    case BaseF(_) => true
    case EntityF(_) => kind != WorldNodeKind
    case PhysicsF(_) => kind == PhysicsKind
  }

  /**
   * The field a node of `kind` takes `name` for: the chain of name
   * comparisons from its own layer down to the base layer.
   */
  function FieldOf(kind: NodeKind, name: string): Option<Field>
  {
    var base := match BaseFieldOf(name) case None => None case Some(b) => Some(BaseF(b));
    var entity := match EntityFieldOf(name) case None => base case Some(e) => Some(EntityF(e));
    match kind
    case WorldNodeKind => base
    case EntityKind => entity
    case PhysicsKind => match PhysicsFieldOf(name) case None => entity case Some(p) => Some(PhysicsF(p))
  }

  /** A recognised name is the name of a field the node owns. */
  lemma FieldOfSound(kind: NodeKind, name: string)
    ensures FieldOf(kind, name).Some? ==> Owns(kind, FieldOf(kind, name).value) && FieldName(FieldOf(kind, name).value) == name
  {
  }

  /** Every field a node owns is recognised by its name. */
  lemma FieldOfName(kind: NodeKind, f: Field)
    requires Owns(kind, f)
    ensures FieldOf(kind, FieldName(f)) == Some(f)
  {
    match f
    case BaseF(b) =>
      BaseFieldOfName(b);
      BaseNamesPassEntity(b);
      LowerNamesPassPhysics(b, MaterialField);
    case EntityF(e) =>
      EntityFieldOfName(e);
      LowerNamesPassPhysics(IdField, e);
    case PhysicsF(p) => PhysicsFieldOfName(p);
  }

  /** The value bytes written for a field. */
  function Value(s: NodeState, f: Field, codec: StringCodec): seq<Byte>
  {
    match f
    case BaseF(b) => BaseValue(s, b)
    case EntityF(e) => EntityValue(s, e, codec)
    case PhysicsF(p) => PhysicsValue(s, p)
  }

  /** A field set from its data, or None when the data is rejected. */
  function Decode(s: NodeState, f: Field, data: seq<Byte>, codec: StringCodec): Option<NodeState>
  {
    match f
    case BaseF(b) => DecodeBase(s, b, data)
    case EntityF(e) => DecodeEntity(s, e, data, codec)
    case PhysicsF(p) => DecodePhysics(s, p, data)
  }

  /** What one field's round trip does to the receiving state. */
  function Copy(dst: NodeState, src: NodeState, f: Field): NodeState
  {
    match f
    case BaseF(b) => CopyBase(dst, src, b)
    case EntityF(e) => CopyEntity(dst, src, e)
    case PhysicsF(p) => CopyPhysics(dst, src, p)
  }

  /**
   * The virtual `SerializeField`: whichever layer recognises the name writes
   * its blob, except that a blob whose length byte would be 0 is dropped; an
   * unknown name writes nothing.
   */
  function SerializeField(kind: NodeKind, s: NodeState, name: string, codec: StringCodec): (r: Option<seq<Byte>>)
    ensures FieldOf(kind, name).None? ==> r.None?
    ensures r.Some? ==>
      Owns(kind, FieldOf(kind, name).value) && IsByteString(name)
      && r.value == BlobOf(name, Value(s, FieldOf(kind, name).value, codec))
  {
    FieldOfSound(kind, name);
    match FieldOf(kind, name)
    case None => None
    case Some(f) =>
      var v := Value(s, f, codec);
      if BlobLength(FieldName(f), v) == 0 then None else Some(BlobOf(FieldName(f), v))
  }

  /** The virtual `UnserializeField` as a function of the old state: the recognised field decoded, None otherwise. */
  function DecodeField(kind: NodeKind, s: NodeState, name: string, data: seq<Byte>, codec: StringCodec): (r: Option<NodeState>)
    ensures FieldOf(kind, name).None? ==> r.None?
    ensures r.Some? ==> Owns(kind, FieldOf(kind, name).value)
  {
    FieldOfSound(kind, name);
    match FieldOf(kind, name)
    case None => None
    case Some(f) => Decode(s, f, data, codec)
  }

  /** The virtual call reaches the node's own layer, which hands unknown names down: the layers' `SerializeField`. */
  lemma SerializeFieldDispatch(kind: NodeKind, s: NodeState, name: string, codec: StringCodec)
    ensures SerializeField(kind, s, name, codec) == match kind
      case WorldNodeKind => SerializeBaseField(s, name)
      case EntityKind => SerializeEntityField(s, name, codec)
      case PhysicsKind => SerializePhysicsField(s, name, codec)
  {
    match kind
    case WorldNodeKind => BaseDispatch(s, name, codec);
    case EntityKind => EntityDispatch(s, name, codec);
    case PhysicsKind => PhysicsDispatch(s, name, codec);
  }

  /** The base layer's answer: a plain node serializes a field as the base field encoder does. */
  lemma BaseDispatch(s: NodeState, name: string, codec: StringCodec)
    ensures SerializeField(WorldNodeKind, s, name, codec) == SerializeBaseField(s, name)
  {
    match BaseFieldOf(name)
    case None =>
    case Some(b) =>
      FieldOfSound(WorldNodeKind, name);
      assert FieldOf(WorldNodeKind, name) == Some(BaseF(b));
  }

  /** The entity layer's answer: its own fields, else the base layer's. */
  lemma EntityDispatch(s: NodeState, name: string, codec: StringCodec)
    ensures SerializeField(EntityKind, s, name, codec) == SerializeEntityField(s, name, codec)
  {
    match EntityFieldOf(name)
    case None =>
      assert FieldOf(EntityKind, name) == FieldOf(WorldNodeKind, name);
      BaseDispatch(s, name, codec);
    case Some(e) =>
      FieldOfSound(EntityKind, name);
      assert FieldOf(EntityKind, name) == Some(EntityF(e));
  }

  /** The physics layer's answer: its own fields, else the entity layer's. */
  lemma PhysicsDispatch(s: NodeState, name: string, codec: StringCodec)
    ensures SerializeField(PhysicsKind, s, name, codec) == SerializePhysicsField(s, name, codec)
  {
    match PhysicsFieldOf(name)
    case None =>
      assert FieldOf(PhysicsKind, name) == FieldOf(EntityKind, name);
      EntityDispatch(s, name, codec);
    case Some(p) =>
      FieldOfSound(PhysicsKind, name);
      assert FieldOf(PhysicsKind, name) == Some(PhysicsF(p));
  }

  /** The same for the layers' `UnserializeField`. */
  lemma DecodeFieldDispatch(kind: NodeKind, s: NodeState, name: string, data: seq<Byte>, codec: StringCodec)
    ensures DecodeField(kind, s, name, data, codec) == match kind
      case WorldNodeKind => DecodeBaseField(s, name, data)
      case EntityKind => DecodeEntityField(s, name, data, codec)
      case PhysicsKind => DecodePhysicsField(s, name, data, codec)
  {
  }

  /** The virtual `GetDefaultFields`. */
  function DefaultFields(kind: NodeKind): (fs: seq<string>)
    ensures |fs| >= 4 && fs[..4] == BASE_FIELDS
    ensures kind == WorldNodeKind ==> fs == BASE_FIELDS
    ensures kind == EntityKind ==> fs == BASE_FIELDS + ENTITY_FIELDS
    ensures kind == PhysicsKind ==> fs == BASE_FIELDS + ENTITY_FIELDS + PHYSICS_FIELDS
  {
    match kind
    case WorldNodeKind => BASE_FIELDS
    case EntityKind => EntityDefaultFields()
    case PhysicsKind => PhysicsDefaultFields()
  }

  /** A string-valued field reads back only if the codec does and the encoding is not empty. */
  predicate StringFits(s: NodeState, f: Field, codec: StringCodec)
  {
    f.EntityF? && f.e != MaterialField ==> RoundTrips(codec, s.texture) && codec.encode(s.texture) != []
  }

  /** Decoding what is written for a field copies that field. */
  lemma FieldRoundTrip(dst: NodeState, src: NodeState, f: Field, codec: StringCodec)
    requires StringFits(src, f, codec)
    ensures Decode(dst, f, Value(src, f, codec), codec) == Some(Copy(dst, src, f))
  {
    match f
    case BaseF(b) => BaseRoundTrip(dst, src, b);
    case EntityF(e) => EntityRoundTrip(dst, src, e, codec);
    case PhysicsF(p) => PhysicsRoundTrip(dst, src, p);
  }

  // ----- Serialize -----

  /** The names an empty request falls back to. */
  function Requested(vars: seq<string>): (fs: seq<string>)
    ensures vars != [] ==> fs == vars
    ensures vars == [] ==> fs == BASE_FIELDS
  {
    if vars == [] then BASE_FIELDS else vars
  }

  /** A field encoder, the virtual `SerializeField` seen from Serialize's loop: a name's blob, or nothing. */
  type Encoder = string -> Option<seq<Byte>>

  /** The field encoder of a node of `kind` in state `s`. */
  function FieldEncoder(kind: NodeKind, s: NodeState, codec: StringCodec): Encoder
  {
    (name: string) => SerializeField(kind, s, name, codec)
  }

  /** The blobs written for `vars`, in order; names that write nothing add nothing. */
  function Blobs(enc: Encoder, vars: seq<string>): seq<Byte>
  {
    if vars == [] then []
    else enc(vars[0]).GetOr([]) + Blobs(enc, vars[1..])
  }

  /** The number of names in `vars` for which a blob is written. */
  function BlobCount(enc: Encoder, vars: seq<string>): (n: nat)
    ensures n <= |vars|
  {
    if vars == [] then 0
    else (if enc(vars[0]).Some? then 1 else 0) + BlobCount(enc, vars[1..])
  }

  /** `Serialize(vars)`: the count byte (modulo 256, an unsigned char), then the blobs. */
  function Serialize(kind: NodeKind, s: NodeState, vars: seq<string>, codec: StringCodec): (r: seq<Byte>)
    ensures |r| >= 1
    ensures r[0] == BlobCount(FieldEncoder(kind, s, codec), Requested(vars)) % 0x100
    ensures r[1..] == Blobs(FieldEncoder(kind, s, codec), Requested(vars))
  {
    var enc := FieldEncoder(kind, s, codec);
    var fs := Requested(vars);
    [BlobCount(enc, fs) % 0x100] + Blobs(enc, fs)
  }

  /** The no-argument `Serialize()`: the node's default fields. */
  function SerializeDefaults(kind: NodeKind, s: NodeState, codec: StringCodec): (r: seq<Byte>)
    ensures |r| >= 1 && r[0] == BlobCount(FieldEncoder(kind, s, codec), DefaultFields(kind)) % 0x100
    ensures r[1..] == Blobs(FieldEncoder(kind, s, codec), DefaultFields(kind))
  {
    Serialize(kind, s, DefaultFields(kind), codec)
  }

  /** Blobs and counts of a concatenated request are those of the parts. */
  lemma {:induction false} BlobsAppend(enc: Encoder, a: seq<string>, b: seq<string>)
    ensures Blobs(enc, a + b) == Blobs(enc, a) + Blobs(enc, b)
    ensures BlobCount(enc, a + b) == BlobCount(enc, a) + BlobCount(enc, b)
  {
    if a == [] {
      assert a + b == b;
    } else {
      assert (a + b)[0] == a[0];
      assert (a + b)[1..] == a[1..] + b;
      BlobsAppend(enc, a[1..], b);
    }
  }

  /** A name no layer of the node knows changes nothing in the output. */
  lemma UnknownNameSkipped(kind: NodeKind, s: NodeState, a: seq<string>, name: string, b: seq<string>, codec: StringCodec)
    requires FieldOf(kind, name).None?
    ensures Blobs(FieldEncoder(kind, s, codec), a + [name] + b) == Blobs(FieldEncoder(kind, s, codec), a + b)
    ensures BlobCount(FieldEncoder(kind, s, codec), a + [name] + b) == BlobCount(FieldEncoder(kind, s, codec), a + b)
  {
    var enc := FieldEncoder(kind, s, codec);
    assert enc(name).None?;
    SkipSilent(enc, a, name, b);
  }

  /** A name that writes nothing is left out of blobs and count alike. */
  lemma SkipSilent(enc: Encoder, a: seq<string>, name: string, b: seq<string>)
    requires enc(name).None?
    ensures Blobs(enc, a + [name] + b) == Blobs(enc, a + b)
    ensures BlobCount(enc, a + [name] + b) == BlobCount(enc, a + b)
  {
    BlobsAppend(enc, a + [name], b);
    BlobsAppend(enc, a, [name]);
    BlobsAppend(enc, a, b);
    assert [name][1..] == [];
  }

  /** The blob of a base field, whose length byte is never 0. */
  lemma BaseBlob(kind: NodeKind, s: NodeState, b: BaseField, codec: StringCodec)
    ensures FieldEncoder(kind, s, codec)(BaseFieldName(b)) == Some(BlobOf(BaseFieldName(b), BaseValue(s, b)))
  {
    FieldOfName(kind, BaseF(b));
  }

  /**
   * The layout of a plain node's full serialization: count 4, then the id,
   * position, rotation and scale blobs.
   */
  lemma SerializeAllLayout(s: NodeState, codec: StringCodec)
    ensures Serialize(WorldNodeKind, s, [], codec) ==
      [4] + BlobOf("id", EncodeLE(s.id, 4)) + BlobOf("position", Vec3Bytes(s.position))
        + BlobOf("rotation", QuatBytes(s.rotation)) + BlobOf("scale", Vec3Bytes(s.scale))
  {
    var enc := FieldEncoder(WorldNodeKind, s, codec);
    BaseBlob(WorldNodeKind, s, IdField, codec);
    BaseBlob(WorldNodeKind, s, PositionField, codec);
    BaseBlob(WorldNodeKind, s, RotationField, codec);
    BaseBlob(WorldNodeKind, s, ScaleField, codec);
    FourBlobs(enc, "id", "position", "rotation", "scale",
      BlobOf("id", EncodeLE(s.id, 4)), BlobOf("position", Vec3Bytes(s.position)),
      BlobOf("rotation", QuatBytes(s.rotation)), BlobOf("scale", Vec3Bytes(s.scale)));
  }

  /** A message of four names that each write a blob. */
  lemma FourBlobs(enc: Encoder, a: string, b: string, c: string, d: string,
      ba: seq<Byte>, bb: seq<Byte>, bc: seq<Byte>, bd: seq<Byte>)
    requires enc(a) == Some(ba) && enc(b) == Some(bb) && enc(c) == Some(bc) && enc(d) == Some(bd)
    ensures [BlobCount(enc, [a, b, c, d]) % 0x100] + Blobs(enc, [a, b, c, d]) == [4] + ba + bb + bc + bd
  {
    var l3 := [d];
    var l2 := [c] + l3;
    var l1 := [b] + l2;
    var l0 := [a] + l1;
    assert l0 == [a, b, c, d];
    assert l3[0] == d && l3[1..] == [];
    assert Blobs(enc, l3) == bd + [] && BlobCount(enc, l3) == 1;
    assert l2[0] == c && l2[1..] == l3;
    assert Blobs(enc, l2) == bc + Blobs(enc, l3) && BlobCount(enc, l2) == 2;
    assert l1[0] == b && l1[1..] == l2;
    assert Blobs(enc, l1) == bb + Blobs(enc, l2) && BlobCount(enc, l1) == 3;
    assert l0[0] == a && l0[1..] == l1;
    assert Blobs(enc, l0) == ba + Blobs(enc, l1) && BlobCount(enc, l0) == 4;
  }

  // ----- Unserialize -----

  /** `getline(stream, name, ':')`: the bytes before the first ':' and those after it. */
  datatype Split = Split(name: seq<Byte>, rest: seq<Byte>)

  /** Splits `bs` at its first ':', or None when it has none. */
  function SplitAtColon(bs: seq<Byte>): (r: Option<Split>)
    ensures r.Some? ==> bs == r.value.name + [COLON] + r.value.rest && COLON !in r.value.name
    ensures r.None? ==> COLON !in bs
  {
    if bs == [] then None
    else if bs[0] == COLON then (assert bs == [] + [COLON] + bs[1..]; Some(Split([], bs[1..])))
    else match SplitAtColon(bs[1..])
      case None => None
      case Some(sp) =>
        assert bs == [bs[0]] + bs[1..];
        Some(Split([bs[0]] + sp.name, sp.rest))
  }

  /** A name without ':' followed by ':' splits right after the name. */
  lemma {:induction false} SplitAfterName(nb: seq<Byte>, tail: seq<Byte>)
    requires COLON !in nb
    ensures SplitAtColon(nb + [COLON] + tail) == Some(Split(nb, tail))
  {
    var bs := nb + [COLON] + tail;
    if nb == [] {
      assert bs[0] == COLON && bs[1..] == tail;
    } else {
      assert bs[0] == nb[0] && nb[0] != COLON;
      assert bs[1..] == nb[1..] + [COLON] + tail;
      SplitAfterName(nb[1..], tail);
      assert [nb[0]] + nb[1..] == nb;
    }
  }

  /** The data length Unserialize computes: `uint8_t(L - |name| - 1)`. */
  function FieldDataLength(fieldLength: Byte, nameLength: nat): (d: Byte)
    ensures nameLength + 1 <= fieldLength ==> d == fieldLength - nameLength - 1
  {
    (fieldLength - nameLength - 1) % 0x100
  }

  /**
   * A field handler, the virtual `UnserializeField` seen from the field
   * loop: the new state for a field name and its data, or None to stop.
   */
  type FieldHandler = (NodeState, string, seq<Byte>) -> Option<NodeState>

  /** The field handler of a node of `kind`. */
  function Handler(kind: NodeKind, codec: StringCodec): FieldHandler
  {
    (s: NodeState, name: string, data: seq<Byte>) => DecodeField(kind, s, name, data, codec)
  }

  /** `h` answers as the field handler of a node of `kind` does. */
  ghost predicate Implements(h: FieldHandler, kind: NodeKind, codec: StringCodec)
  {
    forall s: NodeState, name: string, data: seq<Byte> {:trigger DecodeField(kind, s, name, data, codec)} ::
      h(s, name, data) == DecodeField(kind, s, name, data, codec)
  }

  lemma HandlerImplements(kind: NodeKind, codec: StringCodec)
    ensures Implements(Handler(kind, codec), kind, codec)
  {
  }

  /**
   * The outcome of reading one field: the loop stops with the node as it
   * was; or the field was handled but nothing can be read after it; or the
   * field was handled and reading goes on with `rest`.
   */
  datatype Step = Stop | Last(state: NodeState) | Next(state: NodeState, rest: seq<Byte>)

  /**
   * One pass of Unserialize's field loop over the unread bytes. It stops
   * when the length byte is missing, when a field's data runs past the end
   * and when the handler rejects a field. A name that runs to the end of the
   * data without a ':' still reaches the handler, with no data, if its
   * length byte announces none.
   */
  function FieldStep(h: FieldHandler, s: NodeState, rest: seq<Byte>): Step
  {
    if rest == [] then Stop
    else
      match SplitAtColon(rest[1..])
      case None => NamelessStep(h, s, rest[0], rest[1..])
      case Some(Split(nameBytes, body)) => NamedStep(h, s, rest[0], nameBytes, body)
  }

  /** A pass over a name with no ':' after it: handled with no data when the length byte announces none. */
  function NamelessStep(h: FieldHandler, s: NodeState, fieldLength: Byte, after: seq<Byte>): Step
  {
    if after == [] || FieldDataLength(fieldLength, |after|) != 0 then Stop
    else
      match h(s, BytesString(after), [])
      case None => Stop
      case Some(t) => Last(t)
  }

  /** A pass over a name and the bytes after its ':': the announced data handed to the handler. */
  function NamedStep(h: FieldHandler, s: NodeState, fieldLength: Byte, nameBytes: seq<Byte>, body: seq<Byte>): Step
  {
    var dataLength := FieldDataLength(fieldLength, |nameBytes|);
    if |body| < dataLength then Stop
    else
      match h(s, BytesString(nameBytes), body[..dataLength])
      case None => Stop
      case Some(t) => Next(t, body[dataLength..])
  }

  /** The outcome of Unserialize: the node's new state and whether every announced field was read. */
  datatype Parsed = Parsed(state: NodeState, completed: bool)

  /** One pass of the field loop as a value: what it does with the state and the unread bytes. */
  type StepFn = (NodeState, seq<Byte>) -> Step

  /** The field loop's pass with handler `h`. */
  function StepOf(h: FieldHandler): StepFn
  {
    (s: NodeState, rest: seq<Byte>) => FieldStep(h, s, rest)
  }

  /** `step` does what a pass with handler `h` does. */
  ghost predicate Steps(step: StepFn, h: FieldHandler)
  {
    forall s: NodeState, rest: seq<Byte> {:trigger FieldStep(h, s, rest)} :: step(s, rest) == FieldStep(h, s, rest)
  }

  lemma StepOfSteps(h: FieldHandler)
    ensures Steps(StepOf(h), h)
  {
  }

  /** The field loop of Unserialize with `left` fields still announced. */
  function ApplyFields(step: StepFn, s: NodeState, rest: seq<Byte>, left: nat): (p: Parsed)
    ensures left == 0 ==> p == Parsed(s, true)
    decreases left
  {
    if left == 0 then Parsed(s, true)
    else match step(s, rest)
      case Stop => Parsed(s, false)
      case Last(t) => Parsed(t, left == 1)
      case Next(t, more) => ApplyFields(step, t, more, left - 1)
  }

  /** Unserialize with pass `step`: no bytes change nothing; otherwise the count byte, then the field loop. */
  function UnserializeWith(step: StepFn, s: NodeState, data: seq<Byte>): (p: Parsed)
    ensures data == [] ==> p == Parsed(s, false)
    ensures data != [] && data[0] == 0 ==> p == Parsed(s, true)
  {
    if data == [] then Parsed(s, false) else ApplyFields(step, s, data[1..], data[0])
  }

  /** The outcome of `Unserialize(data)` on a node of `kind` in state `s`. */
  function UnserializeSpec(kind: NodeKind, s: NodeState, data: seq<Byte>, codec: StringCodec): Parsed
  {
    UnserializeWith(StepOf(Handler(kind, codec)), s, data)
  }

  /** What a round trip of `fs` does to `dst`: `cp` applied for each name in turn. */
  function CopyEach(cp: (NodeState, string) -> NodeState, dst: NodeState, fs: seq<string>): NodeState
    decreases |fs|
  {
    if fs == [] then dst else CopyEach(cp, cp(dst, fs[0]), fs[1..])
  }

  /** The effect of one name's round trip from `src`: the recognised field copied, else nothing. */
  function FieldCopier(kind: NodeKind, src: NodeState): (NodeState, string) -> NodeState
  {
    (dst: NodeState, name: string) => match FieldOf(kind, name) case None => dst case Some(f) => Copy(dst, src, f)
  }

  /** What a round trip of `fs` from `src` does to `dst`: each recognised field copied in turn. */
  function CopyAll(kind: NodeKind, dst: NodeState, src: NodeState, fs: seq<string>): NodeState
  {
    CopyEach(FieldCopier(kind, src), dst, fs)
  }

  /** A field of `s` fits its length byte and reads back through the string codec. */
  predicate FieldFits(s: NodeState, f: Field, codec: StringCodec)
  {
    |FieldName(f)| + 1 + |Value(s, f, codec)| < 0x100 && StringFits(s, f, codec)
  }

  /** Every requested field the node recognises fits. */
  predicate Fits(kind: NodeKind, s: NodeState, fs: seq<string>, codec: StringCodec)
  {
    forall name :: name in fs && FieldOf(kind, name).Some? ==> FieldFits(s, FieldOf(kind, name).value, codec)
  }

  /** Reading one blob: the name is found at its ':' and the value is handed to the handler whole. */
  lemma OneBlob(h: FieldHandler, t: NodeState, name: string, v: seq<Byte>, more: seq<Byte>)
    requires IsByteString(name) && ':' !in name && |name| + 1 + |v| < 0x100
    ensures FieldStep(h, t, BlobOf(name, v) + more) == match h(t, name, v)
      case None => Stop
      case Some(u) => Next(u, more)
  {
    var nb := StringBytes(name);
    var rest := BlobOf(name, v) + more;
    assert rest[1..] == nb + [COLON] + (v + more);
    assert COLON !in nb by {
      forall j | 0 <= j < |nb| ensures nb[j] != COLON {
        assert name[j] in name;
      }
    }
    SplitAfterName(nb, v + more);
    StringBytesRoundTrip(name);
    assert FieldDataLength(rest[0], |name|) == |v|;
    assert (v + more)[..|v|] == v && (v + more)[|v|..] == more;
  }

  /** Reading the blob of a field the node owns copies that field. */
  lemma FieldBlob(h: FieldHandler, kind: NodeKind, t: NodeState, src: NodeState, f: Field, more: seq<Byte>, codec: StringCodec)
    requires Implements(h, kind, codec)
    requires Owns(kind, f) && FieldFits(src, f, codec)
    ensures FieldStep(h, t, BlobOf(FieldName(f), Value(src, f, codec)) + more) == Next(Copy(t, src, f), more)
  {
    var name := FieldName(f);
    var v := Value(src, f, codec);
    OneBlob(h, t, name, v, more);
    FieldOfName(kind, f);
    FieldRoundTrip(t, src, f, codec);
    assert h(t, name, v) == DecodeField(kind, t, name, v, codec);
  }

  /** A field that reads as a whole moves the loop on by one field. */
  lemma ApplyNext(step: StepFn, t: NodeState, rest: seq<Byte>, left: nat, u: NodeState, more: seq<Byte>)
    requires left > 0 && step(t, rest) == Next(u, more)
    ensures ApplyFields(step, t, rest, left) == ApplyFields(step, u, more, left - 1)
  {
  }

  /**
   * `name`'s blob under `enc` is read by the field loop with handler `h` as
   * `cp` says: a name with no blob changes nothing, and a blob is read whole
   * into `cp`'s state, whatever follows it.
   */
  ghost predicate ReadsBack(step: StepFn, enc: Encoder, cp: (NodeState, string) -> NodeState, name: string)
  {
    match enc(name)
    case None => forall t: NodeState {:trigger cp(t, name)} :: cp(t, name) == t
    case Some(blob) => forall t: NodeState, more: seq<Byte> {:trigger step(t, blob + more)} ::
      step(t, blob + more) == Next(cp(t, name), more)
  }

  /** A blob that reads back moves the field loop on by one field. */
  lemma BlobStep(step: StepFn, enc: Encoder, cp: (NodeState, string) -> NodeState,
      t: NodeState, name: string, tail: seq<Byte>, n: nat)
    requires ReadsBack(step, enc, cp, name) && enc(name).Some?
    ensures ApplyFields(step, t, enc(name).value + tail, n + 1) == ApplyFields(step, cp(t, name), tail, n)
  {
    ApplyNext(step, t, enc(name).value + tail, n + 1, cp(t, name), tail);
  }

  /** The field loop over the blobs of `fs` applies `cp` for each name, then goes on with what follows. */
  lemma {:induction false} BlobsRoundTrip(step: StepFn, enc: Encoder, cp: (NodeState, string) -> NodeState,
      t: NodeState, fs: seq<string>, more: seq<Byte>, left: nat)
    requires forall name :: name in fs ==> ReadsBack(step, enc, cp, name)
    ensures ApplyFields(step, t, Blobs(enc, fs) + more, BlobCount(enc, fs) + left)
      == ApplyFields(step, CopyEach(cp, t, fs), more, left)
    decreases |fs|
  {
    if fs == [] {
      assert Blobs(enc, fs) + more == more;
    } else {
      assert ReadsBack(step, enc, cp, fs[0]);
      assert forall name :: name in fs[1..] ==> name in fs;
      FirstBlob(step, enc, cp, t, fs, more, left);
      BlobsRoundTrip(step, enc, cp, cp(t, fs[0]), fs[1..], more, left);
    }
  }

  /** The field loop reads the first name's blob, if any, and goes on with the rest. */
  lemma FirstBlob(step: StepFn, enc: Encoder, cp: (NodeState, string) -> NodeState,
      t: NodeState, fs: seq<string>, more: seq<Byte>, left: nat)
    requires fs != [] && ReadsBack(step, enc, cp, fs[0])
    ensures ApplyFields(step, t, Blobs(enc, fs) + more, BlobCount(enc, fs) + left)
      == ApplyFields(step, cp(t, fs[0]), Blobs(enc, fs[1..]) + more, BlobCount(enc, fs[1..]) + left)
    ensures CopyEach(cp, t, fs) == CopyEach(cp, cp(t, fs[0]), fs[1..])
  {
    var tail := Blobs(enc, fs[1..]) + more;
    var n := BlobCount(enc, fs[1..]) + left;
    match enc(fs[0])
    case None =>
      assert cp(t, fs[0]) == t;
      assert Blobs(enc, fs) + more == tail && BlobCount(enc, fs) + left == n;
    case Some(blob) =>
      assert Blobs(enc, fs) + more == blob + tail && BlobCount(enc, fs) + left == n + 1;
      BlobStep(step, enc, cp, t, fs[0], tail, n);
  }

  /** The whole message, count byte first, reads back when every name does and the count fits its byte. */
  lemma RoundTripWith(step: StepFn, enc: Encoder, cp: (NodeState, string) -> NodeState, t: NodeState,
      fs: seq<string>, more: seq<Byte>)
    requires forall name :: name in fs ==> ReadsBack(step, enc, cp, name)
    requires BlobCount(enc, fs) < 0x100
    ensures UnserializeWith(step, t, [BlobCount(enc, fs) % 0x100] + Blobs(enc, fs) + more)
      == Parsed(CopyEach(cp, t, fs), true)
  {
    var data := [BlobCount(enc, fs) % 0x100] + Blobs(enc, fs) + more;
    assert data[1..] == Blobs(enc, fs) + more;
    BlobsRoundTrip(step, enc, cp, t, fs, more, 0);
  }

  /** Every fitting name of a node reads back through its own handler. */
  lemma FieldsReadBack(h: FieldHandler, kind: NodeKind, src: NodeState, fs: seq<string>, codec: StringCodec)
    requires Implements(h, kind, codec) && Fits(kind, src, fs, codec)
    ensures forall name :: name in fs ==> ReadsBack(StepOf(h), FieldEncoder(kind, src, codec), FieldCopier(kind, src), name)
  {
    forall name | name in fs
      ensures ReadsBack(StepOf(h), FieldEncoder(kind, src, codec), FieldCopier(kind, src), name)
    {
      FieldOfSound(kind, name);
      match FieldOf(kind, name)
      case None =>
      case Some(f) =>
        var blob := BlobOf(name, Value(src, f, codec));
        assert FieldEncoder(kind, src, codec)(name) == Some(blob);
        forall t: NodeState, more: seq<Byte>
          ensures StepOf(h)(t, blob + more) == Next(FieldCopier(kind, src)(t, name), more)
        {
          FieldBlob(h, kind, t, src, f, more, codec);
        }
    }
  }

  /**
   * Round trip: unserializing what `Serialize(vars)` wrote for `src` sets
   * exactly the requested fields of the receiving state byte for byte, and
   * reads every announced field; whatever bytes follow the message are not
   * looked at. Needs at most 255 blobs and every blob within its length byte.
   */
  lemma SerializeUnserialize(kind: NodeKind, t: NodeState, src: NodeState, vars: seq<string>,
      more: seq<Byte>, codec: StringCodec)
    requires Fits(kind, src, Requested(vars), codec)
    requires BlobCount(FieldEncoder(kind, src, codec), Requested(vars)) < 0x100
    ensures UnserializeSpec(kind, t, Serialize(kind, src, vars, codec) + more, codec)
      == Parsed(CopyAll(kind, t, src, Requested(vars)), true)
  {
    var fs := Requested(vars);
    var h := Handler(kind, codec);
    HandlerImplements(kind, codec);
    FieldsReadBack(h, kind, src, fs, codec);
    RoundTripWith(StepOf(h), FieldEncoder(kind, src, codec), FieldCopier(kind, src), t, fs, more);
  }

  /** Copying along a four-name request. */
  lemma CopyEach4(cp: (NodeState, string) -> NodeState, t: NodeState, a: string, b: string, c: string, d: string)
    ensures CopyEach(cp, t, [a, b, c, d]) == cp(cp(cp(cp(t, a), b), c), d)
  {
    var l3 := [d];
    var l2 := [c] + l3;
    var l1 := [b] + l2;
    var l0 := [a] + l1;
    assert l0 == [a, b, c, d];
    assert l3[0] == d && l3[1..] == [];
    assert l2[0] == c && l2[1..] == l3;
    assert l1[0] == b && l1[1..] == l2;
    assert l0[0] == a && l0[1..] == l1;
    assert CopyEach(cp, t, l0) == CopyEach(cp, cp(t, a), l1);
    assert CopyEach(cp, cp(t, a), l1) == CopyEach(cp, cp(cp(t, a), b), l2);
    assert CopyEach(cp, cp(cp(t, a), b), l2) == CopyEach(cp, cp(cp(cp(t, a), b), c), l3);
  }

  /** The base fields have fixed sizes, so they always fit. */
  lemma BaseFieldsFit(src: NodeState, codec: StringCodec)
    ensures Fits(WorldNodeKind, src, BASE_FIELDS, codec)
  {
    forall name | name in BASE_FIELDS && FieldOf(WorldNodeKind, name).Some?
      ensures FieldFits(src, FieldOf(WorldNodeKind, name).value, codec)
    {
    }
  }

  /** Fixed-size fields always fit, so a plain node's default serialization always reads back, whatever follows it. */
  lemma PlainNodeRoundTrip(t: NodeState, src: NodeState, more: seq<Byte>, codec: StringCodec)
    ensures UnserializeSpec(WorldNodeKind, t, Serialize(WorldNodeKind, src, [], codec) + more, codec)
      == Parsed(t.(id := src.id, position := src.position, rotation := src.rotation, scale := src.scale), true)
  {
    BaseFieldsFit(src, codec);
    SerializeUnserialize(WorldNodeKind, t, src, [], more, codec);
    CopyBaseFields(t, src);
  }

  /** A round trip of the base fields copies id, position, rotation and scale. */
  lemma CopyBaseFields(t: NodeState, src: NodeState)
    ensures CopyAll(WorldNodeKind, t, src, BASE_FIELDS)
      == t.(id := src.id, position := src.position, rotation := src.rotation, scale := src.scale)
  {
    CopyEach4(FieldCopier(WorldNodeKind, src), t, "id", "position", "rotation", "scale");
    assert BASE_FIELDS == ["id", "position", "rotation", "scale"];
  }

  // ----- the node-level methods -----

  /** The virtual `UnserializeField` on the node. */
  method UnserializeField(n: WorldNode, name: string, data: seq<Byte>, codec: StringCodec) returns (ok: bool)
    modifies n
    ensures ok == DecodeField(n.kind, old(n.State()), name, data, codec).Some?
    ensures n.State() == DecodeField(n.kind, old(n.State()), name, data, codec).GetOr(old(n.State()))
  {
    DecodeFieldDispatch(n.kind, n.State(), name, data, codec);
    match n.kind
    case WorldNodeKind => ok := UnserializeBaseField(n, name, data);
    case EntityKind => ok := UnserializeEntityField(n, name, data, codec);
    case PhysicsKind => ok := UnserializePhysicsField(n, name, data, codec);
  }

  /** What reading one field did. */
  datatype Outcome = Stopped | Ended | Advanced

  /** One pass of the field loop of `WorldNode::Unserialize`, reading from `stream`. */
  method ReadField(n: WorldNode, stream: Serializable.ByteStream, codec: StringCodec, ghost h: FieldHandler, ghost step: StepFn)
      returns (o: Outcome)
    requires stream.Valid() && Implements(h, n.kind, codec) && Steps(step, h)
    modifies n, stream
    ensures stream.Valid() && stream.bytes == old(stream.bytes)
    ensures o == Stopped ==> n.State() == old(n.State())
    ensures step(old(n.State()), old(stream.Unread())) == match o
      case Stopped => Stop
      case Ended => Last(n.State())
      case Advanced => Next(n.State(), stream.Unread())
  {
    ghost var s0 := n.State();
    ghost var rest := stream.Unread();
    assert step(s0, rest) == FieldStep(h, s0, rest);
    if stream.readPos == |stream.bytes| {
      return Stopped;
    }
    var fieldLength := Serializable.UnserializeUint8(stream);
    var after := stream.Unread();
    assert fieldLength == rest[0] && after == rest[1..];
    var split := SplitAtColon(after);
    if split.None? {
      o := ReadNameOnly(n, stream, fieldLength, codec, h);
    } else {
      o := ReadNamedField(n, stream, fieldLength, split.value, codec, h);
    }
  }

  /** The part of ReadField for a name with no ':' after it, which runs to the end of the data. */
  method ReadNameOnly(n: WorldNode, stream: Serializable.ByteStream, fieldLength: Byte, codec: StringCodec, ghost h: FieldHandler)
      returns (o: Outcome)
    requires stream.Valid() && Implements(h, n.kind, codec)
    modifies n, stream
    ensures stream.Valid() && stream.bytes == old(stream.bytes)
    ensures o == Stopped ==> n.State() == old(n.State())
    ensures NamelessStep(h, old(n.State()), fieldLength, old(stream.Unread())) == match o
      case Stopped => Stop
      case Ended => Last(n.State())
      case Advanced => Next(n.State(), stream.Unread())
  {
    var after := stream.Unread();
    if |after| == 0 || FieldDataLength(fieldLength, |after|) != 0 {
      return Stopped;
    }
    ghost var s0 := n.State();
    var ok := UnserializeField(n, BytesString(after), [], codec);
    assert h(s0, BytesString(after), []) == DecodeField(n.kind, s0, BytesString(after), [], codec);
    stream.readPos := |stream.bytes|;
    return if ok then Ended else Stopped;
  }

  /** The part of ReadField for a name followed by ':': the announced data, if it is there, goes to the handler. */
  method ReadNamedField(n: WorldNode, stream: Serializable.ByteStream, fieldLength: Byte, split: Split, codec: StringCodec,
                        ghost h: FieldHandler) returns (o: Outcome)
    requires stream.Valid() && Implements(h, n.kind, codec)
    requires stream.Unread() == split.name + [COLON] + split.rest
    modifies n, stream
    ensures stream.Valid() && stream.bytes == old(stream.bytes)
    ensures o == Stopped ==> n.State() == old(n.State())
    ensures NamedStep(h, old(n.State()), fieldLength, split.name, split.rest) == match o
      case Stopped => Stop
      case Ended => Last(n.State())
      case Advanced => Next(n.State(), stream.Unread())
  {
    ghost var s0 := n.State();
    var name := BytesString(split.name);
    stream.readPos := stream.readPos + |split.name| + 1;
    assert stream.Unread() == split.rest;
    var dataLength := FieldDataLength(fieldLength, |split.name|);
    if |stream.bytes| - stream.readPos < dataLength {
      return Stopped;
    }
    var fieldData := stream.bytes[stream.readPos..stream.readPos + dataLength];
    assert fieldData == split.rest[..dataLength];
    stream.readPos := stream.readPos + dataLength;
    assert stream.Unread() == split.rest[dataLength..];
    var ok := UnserializeField(n, name, fieldData, codec);
    assert h(s0, name, fieldData) == DecodeField(n.kind, s0, name, fieldData, codec);
    return if ok then Advanced else Stopped;
  }

  /**
   * The field loop of `WorldNode::Unserialize` over a stream of `data`,
   * with the node's field handler `h`: the node ends in the state the field
   * loop gives, and `completed` says whether every announced field was read.
   */
  method ReadFields(n: WorldNode, data: seq<Byte>, codec: StringCodec, ghost h: FieldHandler, ghost step: StepFn)
      returns (completed: bool)
    requires Implements(h, n.kind, codec) && Steps(step, h)
    modifies n
    ensures Parsed(n.State(), completed) == UnserializeWith(step, old(n.State()), data)
  {
    if |data| == 0 {
      return false;
    }
    var stream := new Serializable.ByteStream.From(data);
    var fieldCount := Serializable.UnserializeUint8(stream);
    ghost var goal := UnserializeWith(step, old(n.State()), data);
    assert stream.Unread() == data[1..];
    var i := 0;
    while i < fieldCount
      invariant stream.Valid() && stream.bytes == data
      invariant 0 <= i <= fieldCount
      invariant ApplyFields(step, n.State(), stream.Unread(), fieldCount - i) == goal
      decreases fieldCount - i
    {
      var o := ReadField(n, stream, codec, h, step);
      match o
      case Stopped => return false;
      case Ended => return i + 1 == fieldCount;
      case Advanced => i := i + 1;
    }
    return true;
  }

  /**
   * `WorldNode::Unserialize` as written: the fields are read as ReadFields
   * reads them, and the answer is false in every case.
   */
  method Unserialize(n: WorldNode, data: seq<Byte>, codec: StringCodec) returns (ok: bool)
    modifies n
    ensures n.State() == UnserializeSpec(n.kind, old(n.State()), data, codec).state
    ensures !ok
  {
    HandlerImplements(n.kind, codec);
    StepOfSteps(Handler(n.kind, codec));
    var _ := ReadFields(n, data, codec, Handler(n.kind, codec), StepOf(Handler(n.kind, codec)));
    ok := false;
  }

  /** Unserialize as evidently intended: true exactly when every announced field was read. */
  method UnserializeChecked(n: WorldNode, data: seq<Byte>, codec: StringCodec) returns (ok: bool)
    modifies n
    ensures Parsed(n.State(), ok) == UnserializeSpec(n.kind, old(n.State()), data, codec)
  {
    HandlerImplements(n.kind, codec);
    StepOfSteps(Handler(n.kind, codec));
    ok := ReadFields(n, data, codec, Handler(n.kind, codec), StepOf(Handler(n.kind, codec)));
  }

  /**
   * The answer as written is false even for data that decodes completely:
   * a node's own id field, serialized and read back, is read in full, yet
   * Unserialize reports failure.
   */
  lemma UnserializeAnswerIgnoresSuccess(t: NodeState, src: NodeState, codec: StringCodec)
    ensures UnserializeSpec(WorldNodeKind, t, Serialize(WorldNodeKind, src, ["id"], codec), codec)
      == Parsed(t.(id := src.id), true)
  {
    var fs := ["id"];
    FieldOfName(WorldNodeKind, BaseF(IdField));
    assert fs[1..] == [];
    assert Fits(WorldNodeKind, src, fs, codec);
    assert BlobCount(FieldEncoder(WorldNodeKind, src, codec), fs) == 1;
    SerializeUnserialize(WorldNodeKind, t, src, fs, [], codec);
    assert Serialize(WorldNodeKind, src, fs, codec) + [] == Serialize(WorldNodeKind, src, fs, codec);
  }
}
