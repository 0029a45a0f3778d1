/**
 * Scene-graph nodes (src/world/worldNode.cc) and the base layer of the field
 * protocol.
 *
 * The source derives Entity from WorldNode and PhysicsObject from Entity,
 * every layer adding fields and field names. The model keeps one class,
 * `WorldNode`, that holds the fields of all three layers and remembers which
 * constructor built it (`kind`); the field codecs of each layer live in their
 * own module and hand names they do not know to the layer below.
 *
 * A field travels as a blob: a length byte L, the field name, ':' and the
 * value bytes, with L the length of "name:" plus the value, kept in an
 * unsigned char (modulo 256).
 */
module WorldNodes {
  import opened Bytes
  import opened Wrappers
  import Serializable

  /** `glm::vec3` as three float bit patterns. */
  datatype Vec3 = Vec3(x: Word32, y: Word32, z: Word32)

  /** `glm::quat` as four float bit patterns, in member order x, y, z, w. */
  datatype Quat = Quat(x: Word32, y: Word32, z: Word32, w: Word32)

  /** `glm::vec4` colour r, g, b, a. */
  datatype Color = Color(r: Word32, g: Word32, b: Word32, a: Word32)

  /**
   * `CollisionShape`: the shape type byte and the four floats of the union;
   * a sphere's size shares its bytes with `x`.
   */
  datatype CollisionShape = CollisionShape(shapeType: Byte, x: Word32, y: Word32, w: Word32, h: Word32)

  /** Which constructor built a node, and so which layer handles its fields first. */
  datatype NodeKind = WorldNodeKind | EntityKind | PhysicsKind

  /** `WorldObjectType` values (src/world/worldObjectTypes.hh). */
  const UNDEF_OBJECT_TYPE: Byte := 0
  const WORLD_NODE_OBJECT_TYPE: Byte := 1
  const ENTITY_OBJECT_TYPE: Byte := 2
  /** Not among the shown enumerators; its value is not fixed by the model. */
  const PHYSICS_OBJECT_TYPE: Byte

  /** `CollisionShapeType` values. */
  const COLLISION_SHAPE_NONE: Byte := 0
  const COLLISION_SHAPE_SPHERE: Byte := 1
  const COLLISION_SHAPE_AABB: Byte := 2

  /** The byte ':' that ends a field name. */
  const COLON: Byte := 58

  /** Everything a node holds that the protocol can read or write, across all three layers. */
  datatype NodeState = NodeState(
    id: uint32,
    parent: uint32,
    position: Vec3,
    rotation: Quat,
    scale: Vec3,
    children: seq<uint32>,
    objectType: Byte,
    material: Color,
    texture: string,
    mesh: string,
    velocity: Vec3,
    angularVelocity: Quat,
    mass: Word32,
    collisionShape: CollisionShape)

  const ZERO_VEC3 := Vec3(FLOAT_ZERO, FLOAT_ZERO, FLOAT_ZERO)
  const ZERO_QUAT := Quat(FLOAT_ZERO, FLOAT_ZERO, FLOAT_ZERO, FLOAT_ZERO)

  /** Position (0, 5, -5). */
  const DEFAULT_POSITION := Vec3(FLOAT_ZERO, FLOAT_FIVE, FLOAT_MINUS_FIVE)
  /** `glm::quat()`: the identity rotation (0, 0, 0, 1). */
  const IDENTITY_ROTATION := Quat(FLOAT_ZERO, FLOAT_ZERO, FLOAT_ZERO, FLOAT_ONE)
  /** Scale (1, 1, 1). */
  const UNIT_SCALE := Vec3(FLOAT_ONE, FLOAT_ONE, FLOAT_ONE)

  /** The shared id source: `static std::atomic<unsigned int> nodeIdCounter`, zero at start. */
  class IdCounter {
    var value: uint32

    constructor ()
      ensures value == 0
    {
      value := 0;
    }
  }

  /** Unsigned 32-bit `x + 1`. */
  function Inc(x: uint32): (r: uint32)
    ensures x < UINT32_MODULUS - 1 ==> r == x + 1 && x < r
    ensures x == UINT32_MODULUS - 1 ==> r == 0
  {
    (x + 1) % UINT32_MODULUS
  }

  /** The state `WorldNode()` gives a node whose id is `id`. */
  function NewWorldNodeState(id: uint32): NodeState
  {
    NodeState(id, 0, DEFAULT_POSITION, IDENTITY_ROTATION, UNIT_SCALE, [], WORLD_NODE_OBJECT_TYPE,
      Color(FLOAT_ZERO, FLOAT_ZERO, FLOAT_ZERO, FLOAT_ZERO), "", "", ZERO_VEC3, ZERO_QUAT, FLOAT_ZERO,
      CollisionShape(COLLISION_SHAPE_NONE, FLOAT_ZERO, FLOAT_ZERO, FLOAT_ZERO, FLOAT_ZERO))
  }

  class WorldNode {
    const kind: NodeKind
    var id: uint32
    var parent: uint32
    var position: Vec3
    var rotation: Quat
    var scale: Vec3
    var children: seq<uint32>
    var objectType: Byte
    var material: Color
    var texture: string
    var mesh: string
    var velocity: Vec3
    var angularVelocity: Quat
    var mass: Word32
    var collisionShape: CollisionShape

    /** The node's fields as one value. */
    function State(): (s: NodeState)
      reads this
      ensures s.id == id && s.position == position && s.rotation == rotation && s.scale == scale
    {
      NodeState(id, parent, position, rotation, scale, children, objectType,
        material, texture, mesh, velocity, angularVelocity, mass, collisionShape)
    }

    /**
     * `WorldNode()`: the id is the pre-incremented shared counter; parent 0,
     * position (0, 5, -5), identity rotation, unit scale, no children. The
     * source's constructor sets no object type; a plain node is taken to be
     * WORLD_NODE_OBJECT_TYPE.
     */
    constructor (counter: IdCounter)
      modifies counter
      ensures counter.value == Inc(old(counter.value)) && id == counter.value
      ensures kind == WorldNodeKind && objectType == WORLD_NODE_OBJECT_TYPE
      ensures parent == 0 && position == DEFAULT_POSITION && rotation == IDENTITY_ROTATION
      ensures scale == UNIT_SCALE && children == []
      ensures State() == NewWorldNodeState(id)
    {
      counter.value := Inc(counter.value);
      kind := WorldNodeKind;
      id := counter.value;
      parent := 0;
      position := DEFAULT_POSITION;
      rotation := IDENTITY_ROTATION;
      scale := UNIT_SCALE;
      children := [];
      objectType := WORLD_NODE_OBJECT_TYPE;
      material := Color(FLOAT_ZERO, FLOAT_ZERO, FLOAT_ZERO, FLOAT_ZERO);
      texture := "";
      mesh := "";
      velocity := ZERO_VEC3;
      angularVelocity := ZERO_QUAT;
      mass := FLOAT_ZERO;
      collisionShape := CollisionShape(COLLISION_SHAPE_NONE, FLOAT_ZERO, FLOAT_ZERO, FLOAT_ZERO, FLOAT_ZERO);
    }

    /** `Entity()`: a `WorldNode()` whose type is ENTITY_OBJECT_TYPE; texture and mesh are empty strings. */
    constructor Entity(counter: IdCounter)
      modifies counter
      ensures counter.value == Inc(old(counter.value)) && id == counter.value
      ensures kind == EntityKind && objectType == ENTITY_OBJECT_TYPE
      ensures parent == 0 && position == DEFAULT_POSITION && rotation == IDENTITY_ROTATION
      ensures scale == UNIT_SCALE && children == []
      ensures texture == "" && mesh == ""
    {
      counter.value := Inc(counter.value);
      kind := EntityKind;
      id := counter.value;
      parent := 0;
      position := DEFAULT_POSITION;
      rotation := IDENTITY_ROTATION;
      scale := UNIT_SCALE;
      children := [];
      objectType := ENTITY_OBJECT_TYPE;
      material := Color(FLOAT_ZERO, FLOAT_ZERO, FLOAT_ZERO, FLOAT_ZERO);
      texture := "";
      mesh := "";
      velocity := ZERO_VEC3;
      angularVelocity := ZERO_QUAT;
      mass := FLOAT_ZERO;
      collisionShape := CollisionShape(COLLISION_SHAPE_NONE, FLOAT_ZERO, FLOAT_ZERO, FLOAT_ZERO, FLOAT_ZERO);
    }

    /**
     * `PhysicsObject()`: an `Entity()` whose type is PHYSICS_OBJECT_TYPE,
     * mass 1 and a sphere collision shape of size 1.
     */
    constructor PhysicsObject(counter: IdCounter)
      modifies counter
      ensures counter.value == Inc(old(counter.value)) && id == counter.value
      ensures kind == PhysicsKind && objectType == PHYSICS_OBJECT_TYPE
      ensures parent == 0 && position == DEFAULT_POSITION && rotation == IDENTITY_ROTATION
      ensures scale == UNIT_SCALE && children == []
      ensures texture == "" && mesh == ""
      ensures mass == FLOAT_ONE
      ensures collisionShape.shapeType == COLLISION_SHAPE_SPHERE && collisionShape.x == FLOAT_ONE
    {
      counter.value := Inc(counter.value);
      kind := PhysicsKind;
      id := counter.value;
      parent := 0;
      position := DEFAULT_POSITION;
      rotation := IDENTITY_ROTATION;
      scale := UNIT_SCALE;
      children := [];
      objectType := PHYSICS_OBJECT_TYPE;
      material := Color(FLOAT_ZERO, FLOAT_ZERO, FLOAT_ZERO, FLOAT_ZERO);
      texture := "";
      mesh := "";
      velocity := ZERO_VEC3;
      angularVelocity := ZERO_QUAT;
      mass := FLOAT_ONE;
      collisionShape := CollisionShape(COLLISION_SHAPE_SPHERE, FLOAT_ONE, FLOAT_ZERO, FLOAT_ZERO, FLOAT_ZERO);
    }
  }

  /**
   * Ids from one counter are consecutive: a node built after another gets the
   * next id, and a larger one unless the counter wrapped around.
   */
  method ConsecutiveIds(counter: IdCounter) returns (first: WorldNode, second: WorldNode)
    modifies counter
    ensures second.id == Inc(first.id)
    ensures first.id < UINT32_MODULUS - 1 ==> first.id < second.id
    ensures first.id == Inc(old(counter.value)) && counter.value == second.id
  {
    first := new WorldNode(counter);
    second := new WorldNode.Entity(counter);
  }

  // ----- value images -----

  function Vec3Bytes(v: Vec3): (r: seq<Byte>)
    ensures |r| == 12
  {
    v.x + v.y + v.z
  }

  function QuatBytes(q: Quat): (r: seq<Byte>)
    ensures |r| == 16
  {
    q.x + q.y + q.z + q.w
  }

  function Vec3Of(data: seq<Byte>): (v: Vec3)
    requires |data| == 12
    ensures Vec3Bytes(v) == data
  {
    Vec3(data[0..4], data[4..8], data[8..12])
  }

  function QuatOf(data: seq<Byte>): (q: Quat)
    requires |data| == 16
    ensures QuatBytes(q) == data
  {
    Quat(data[0..4], data[4..8], data[8..12], data[12..16])
  }

  lemma Vec3RoundTrip(v: Vec3)
    ensures Vec3Of(Vec3Bytes(v)) == v
  {
    var b := Vec3Bytes(v);
    assert b[0..4] == v.x && b[4..8] == v.y && b[8..12] == v.z;
  }

  lemma QuatRoundTrip(q: Quat)
    ensures QuatOf(QuatBytes(q)) == q
  {
    var b := QuatBytes(q);
    assert b[0..4] == q.x && b[4..8] == q.y && b[8..12] == q.z && b[12..16] == q.w;
  }

  // ----- field blobs -----

  /** The length byte of a blob: "name:" plus the value, in an unsigned char. */
  function BlobLength(name: string, value: seq<Byte>): (l: Byte)
    ensures |name| + 1 + |value| < 0x100 ==> l == |name| + 1 + |value|
  {
    (|name| + 1 + |value|) % 0x100
  }

  /** One field on the wire: length byte, name, ':' and value. */
  function BlobOf(name: string, value: seq<Byte>): (b: seq<Byte>)
    requires IsByteString(name)
    ensures |b| == 2 + |name| + |value|
    ensures b[0] == BlobLength(name, value) && b[1 + |name|] == COLON
    ensures b[1..1 + |name|] == StringBytes(name) && b[2 + |name|..] == value
  {
    [BlobLength(name, value)] + StringBytes(name) + [COLON] + value
  }

  /** The fields the base layer knows. */
  datatype BaseField = IdField | PositionField | RotationField | ScaleField

  /** The wire name of a base field. */
  function BaseFieldName(f: BaseField): (name: string)
    ensures IsByteString(name) && ':' !in name
  {
    match f
    case IdField => "id"
    case PositionField => "position"
    case RotationField => "rotation"
    case ScaleField => "scale"
  }

  /** The name comparisons of the base layer, in the order the source makes them. */
  function BaseFieldOf(name: string): (r: Option<BaseField>)
    ensures r.Some? ==> BaseFieldName(r.value) == name
  {
    if name == "id" then Some(IdField)
    else if name == "position" then Some(PositionField)
    else if name == "rotation" then Some(RotationField)
    else if name == "scale" then Some(ScaleField)
    else None
  }

  /** Every base field is recognised by its own name. */
  lemma BaseFieldOfName(f: BaseField)
    ensures BaseFieldOf(BaseFieldName(f)) == Some(f)
  {
  }

  /** The names an empty request falls back to, and the base default fields. */
  const BASE_FIELDS: seq<string> := ["id", "position", "rotation", "scale"]

  /** The fixed value size of a base field: 4 for id, 12 for position and scale, 16 for rotation. */
  function BaseSize(f: BaseField): (n: nat)
    ensures n == 4 || n == 12 || n == 16
  {
    match f
    case IdField => 4
    case PositionField => 12
    case RotationField => 16
    case ScaleField => 12
  }

  /** The value bytes the base layer writes for a field. */
  function BaseValue(s: NodeState, f: BaseField): (r: seq<Byte>)
    ensures |r| == BaseSize(f)
    ensures f == IdField ==> r == EncodeLE(s.id, 4)
  {
    match f
    case IdField => EncodeLE(s.id, 4)
    case PositionField => Vec3Bytes(s.position)
    case RotationField => QuatBytes(s.rotation)
    case ScaleField => Vec3Bytes(s.scale)
  }

  /**
   * `WorldNode::SerializeField`: the blob of a known base field, None (write
   * nothing) for an unknown name.
   */
  function SerializeBaseField(s: NodeState, name: string): (r: Option<seq<Byte>>)
    ensures r.Some? <==> BaseFieldOf(name).Some?
    ensures r.Some? ==> r.value == BlobOf(name, BaseValue(s, BaseFieldOf(name).value))
    ensures r.Some? ==> r.value[0] == |name| + 1 + BaseSize(BaseFieldOf(name).value)
  {
    match BaseFieldOf(name)
    case None => None
    case Some(f) => Some(BlobOf(name, BaseValue(s, f)))
  }

  /** A base field set from data of exactly its size. */
  function DecodeBase(s: NodeState, f: BaseField, data: seq<Byte>): (r: Option<NodeState>)
    ensures r.Some? <==> |data| == BaseSize(f)
    ensures r.Some? ==> BaseValue(r.value, f) == data
  {
    if |data| != BaseSize(f) then None
    else match f
      case IdField =>
        EncodeDecode(data);
        assert Pow256(4) == UINT32_MODULUS;
        Some(s.(id := DecodeLE(data)))
      case PositionField => Some(s.(position := Vec3Of(data)))
      case RotationField => Some(s.(rotation := QuatOf(data)))
      case ScaleField => Some(s.(scale := Vec3Of(data)))
  }

  /**
   * `WorldNode::UnserializeField` as a function of the old state: the new
   * state for a known base name whose data has exactly the field's size,
   * None (reject, nothing changes) for a wrong size or an unknown name.
   */
  function DecodeBaseField(s: NodeState, name: string, data: seq<Byte>): (r: Option<NodeState>)
    ensures r.Some? <==> BaseFieldOf(name).Some? && |data| == BaseSize(BaseFieldOf(name).value)
    ensures r.Some? ==> BaseValue(r.value, BaseFieldOf(name).value) == data
  {
    match BaseFieldOf(name)
    case None => None
    case Some(f) => DecodeBase(s, f, data)
  }

  /** The effect a round trip of base field `f` of `src` has on `dst`: that one field is copied. */
  function CopyBase(dst: NodeState, src: NodeState, f: BaseField): NodeState
  {
    match f
    case IdField => dst.(id := src.id)
    case PositionField => dst.(position := src.position)
    case RotationField => dst.(rotation := src.rotation)
    case ScaleField => dst.(scale := src.scale)
  }

  /**
   * Decoding what the base layer encodes for a field copies exactly that
   * field, byte for byte, and leaves every other field as it was.
   */
  lemma BaseRoundTrip(dst: NodeState, src: NodeState, f: BaseField)
    ensures DecodeBase(dst, f, BaseValue(src, f)) == Some(CopyBase(dst, src, f))
  {
    match f
    case IdField => DecodeEncode(src.id, 4);
    case PositionField => Vec3RoundTrip(src.position);
    case RotationField => QuatRoundTrip(src.rotation);
    case ScaleField => Vec3RoundTrip(src.scale);
  }

  /** The id field's value read through a stream over its four bytes. */
  method ReadId(data: seq<Byte>) returns (id: uint32)
    requires |data| == 4
    ensures id == DecodeLE(data)
  {
    var stream := new Serializable.ByteStream.From(data);
    id := Serializable.UnserializeUint32(stream);
    assert data[0..4] == data;
  }

  /**
   * `WorldNode::UnserializeField` on the node itself: a known base field
   * with data of exactly its size is assigned and the call answers true;
   * otherwise the node is untouched and the answer is false.
   */
  method UnserializeBaseField(n: WorldNode, name: string, data: seq<Byte>) returns (ok: bool)
    modifies n
    ensures ok == DecodeBaseField(old(n.State()), name, data).Some?
    ensures n.State() == DecodeBaseField(old(n.State()), name, data).GetOr(old(n.State()))
  {
    ghost var s0 := n.State();
    if name == "id" {
      if |data| != 4 {
        return false;
      }
      n.id := ReadId(data);
      assert n.State() == s0.(id := DecodeLE(data));
    } else if name == "position" {
      if |data| != 12 {
        return false;
      }
      n.position := Vec3(data[0..4], data[4..8], data[8..12]);
      assert n.State() == s0.(position := Vec3Of(data));
    } else if name == "rotation" {
      if |data| != 16 {
        return false;
      }
      n.rotation := Quat(data[0..4], data[4..8], data[8..12], data[12..16]);
      assert n.State() == s0.(rotation := QuatOf(data));
    } else if name == "scale" {
      if |data| != 12 {
        return false;
      }
      n.scale := Vec3(data[0..4], data[4..8], data[8..12]);
      assert n.State() == s0.(scale := Vec3Of(data));
    } else {
      return false;
    }
    ok := true;
  }
}
