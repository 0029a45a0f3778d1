/**
 * The PhysicsObject layer of the field protocol
 * (src/physics/physicsObject.cc): velocity, angVelocity, mass and
 * collisionShape, with every other name handed down to the Entity layer.
 */
module PhysicsObjects {
  import opened Bytes
  import opened Wrappers
  import opened WorldNodes
  import opened Entities

  /** The fields this layer knows. */
  datatype PhysicsField = VelocityField | AngVelocityField | MassField | CollisionShapeField

  function PhysicsFieldName(f: PhysicsField): (name: string)
    ensures IsByteString(name) && ':' !in name
  {
    match f
    case VelocityField => "velocity"
    case AngVelocityField => "angVelocity"
    case MassField => "mass"
    case CollisionShapeField => "collisionShape"
  }

  /** The name comparisons of the Physics layer, in source order. */
  function PhysicsFieldOf(name: string): (r: Option<PhysicsField>)
    ensures r.Some? ==> PhysicsFieldName(r.value) == name
  {
    if name == "velocity" then Some(VelocityField)
    else if name == "angVelocity" then Some(AngVelocityField)
    else if name == "mass" then Some(MassField)
    else if name == "collisionShape" then Some(CollisionShapeField)
    else None
  }

  lemma PhysicsFieldOfName(f: PhysicsField)
    ensures PhysicsFieldOf(PhysicsFieldName(f)) == Some(f)
  {
  }

  /** Names of the lower layers are not Physics names, so they are handed down. */
  lemma LowerNamesPassPhysics(b: BaseField, e: EntityField)
    ensures PhysicsFieldOf(BaseFieldName(b)).None?
    ensures PhysicsFieldOf(EntityFieldName(e)).None?
  {
  }

  const PHYSICS_FIELDS: seq<string> := ["velocity", "angVelocity", "mass", "collisionShape"]

  /** `PhysicsObject::GetDefaultFields`: the Entity defaults followed by this layer's four names. */
  function PhysicsDefaultFields(): (fs: seq<string>)
    ensures fs == BASE_FIELDS + ENTITY_FIELDS + PHYSICS_FIELDS
    ensures fs[..|EntityDefaultFields()|] == EntityDefaultFields()
  {
    EntityDefaultFields() + ["velocity", "angVelocity", "mass", "collisionShape"]
  }

  function ShapeBytes(c: CollisionShape): (r: seq<Byte>)
    ensures |r| == 17 && r[0] == c.shapeType
  {
    [c.shapeType] + c.x + c.y + c.w + c.h
  }

  function ShapeOf(data: seq<Byte>): (c: CollisionShape)
    requires |data| == 17
    ensures ShapeBytes(c) == data
  {
    CollisionShape(data[0], data[1..5], data[5..9], data[9..13], data[13..17])
  }

  lemma ShapeRoundTrip(c: CollisionShape)
    ensures ShapeOf(ShapeBytes(c)) == c
  {
    var b := ShapeBytes(c);
    assert b[1..5] == c.x && b[5..9] == c.y && b[9..13] == c.w && b[13..17] == c.h;
  }

  /**
   * The mass read from unchecked data: its first four bytes. Bytes missing
   * from shorter data are taken as zero.
   */
  function MassOf(data: seq<Byte>): (m: Word32)
    ensures |data| >= 4 ==> m == data[..4]
    ensures |data| < 4 ==> m[..|data|] == data
  {
    if |data| >= 4 then data[..4] else data + seq(4 - |data|, _ => 0)
  }

  /** The fixed value size of a Physics field. */
  function PhysicsSize(f: PhysicsField): (n: nat)
    ensures n <= 17
  {
    match f
    case VelocityField => 12
    case AngVelocityField => 16
    case MassField => 4
    case CollisionShapeField => 17
  }

  /** The value bytes this layer writes for one of its fields. */
  function PhysicsValue(s: NodeState, f: PhysicsField): (r: seq<Byte>)
    ensures |r| == PhysicsSize(f)
    ensures f == MassField ==> r == s.mass
  {
    match f
    case VelocityField => Vec3Bytes(s.velocity)
    case AngVelocityField => QuatBytes(s.angularVelocity)
    case MassField => s.mass
    case CollisionShapeField => ShapeBytes(s.collisionShape)
  }

  /**
   * `PhysicsObject::SerializeField`: the blob of one of its fields (its
   * constant sizes never make the length byte 0), or the Entity layer's
   * answer for any other name.
   */
  function SerializePhysicsField(s: NodeState, name: string, codec: StringCodec): (r: Option<seq<Byte>>)
    ensures PhysicsFieldOf(name).None? ==> r == SerializeEntityField(s, name, codec)
    ensures PhysicsFieldOf(name).Some? ==> r == Some(BlobOf(name, PhysicsValue(s, PhysicsFieldOf(name).value)))
  {
    match PhysicsFieldOf(name)
    case None => SerializeEntityField(s, name, codec)
    case Some(f) =>
      var v := PhysicsValue(s, f);
      assert |name| <= 14;
      if BlobLength(name, v) == 0 then None else Some(BlobOf(name, v))
  }

  /**
   * A Physics field set from data: velocity needs exactly 12 bytes,
   * angVelocity 16 and collisionShape 17; mass is read without a length check.
   */
  function DecodePhysics(s: NodeState, f: PhysicsField, data: seq<Byte>): (r: Option<NodeState>)
    ensures f != MassField ==> (r.Some? <==> |data| == PhysicsSize(f))
    ensures f != MassField && r.Some? ==> PhysicsValue(r.value, f) == data
    ensures f == MassField ==> r == Some(s.(mass := MassOf(data)))
  {
    match f
    case VelocityField => if |data| != 12 then None else Some(s.(velocity := Vec3Of(data)))
    case AngVelocityField => if |data| != 16 then None else Some(s.(angularVelocity := QuatOf(data)))
    case MassField => Some(s.(mass := MassOf(data)))
    case CollisionShapeField => if |data| != 17 then None else Some(s.(collisionShape := ShapeOf(data)))
  }

  /**
   * `PhysicsObject::UnserializeField` as a function of the old state: its
   * own fields, or the Entity layer for any other name.
   */
  function DecodePhysicsField(s: NodeState, name: string, data: seq<Byte>, codec: StringCodec): (r: Option<NodeState>)
    ensures PhysicsFieldOf(name).None? ==> r == DecodeEntityField(s, name, data, codec)
    ensures PhysicsFieldOf(name).Some? ==> r == DecodePhysics(s, PhysicsFieldOf(name).value, data)
  {
    match PhysicsFieldOf(name)
    case None => DecodeEntityField(s, name, data, codec)
    case Some(f) => DecodePhysics(s, f, data)
  }

  /** The effect a round trip of Physics field `f` of `src` has on `dst`: that one field is copied. */
  function CopyPhysics(dst: NodeState, src: NodeState, f: PhysicsField): NodeState
  {
    match f
    case VelocityField => dst.(velocity := src.velocity)
    case AngVelocityField => dst.(angularVelocity := src.angularVelocity)
    case MassField => dst.(mass := src.mass)
    case CollisionShapeField => dst.(collisionShape := src.collisionShape)
  }

  /** Decoding what the Physics layer encodes for one of its fields copies that field. */
  lemma PhysicsRoundTrip(dst: NodeState, src: NodeState, f: PhysicsField)
    ensures DecodePhysics(dst, f, PhysicsValue(src, f)) == Some(CopyPhysics(dst, src, f))
  {
    match f
    case VelocityField => Vec3RoundTrip(src.velocity);
    case AngVelocityField => QuatRoundTrip(src.angularVelocity);
    case MassField => assert src.mass[..4] == src.mass;
    case CollisionShapeField => ShapeRoundTrip(src.collisionShape);
  }

  /**
   * Chain of responsibility: a base name on a physics node passes the two
   * upper layers and is encoded and decoded by the base layer.
   */
  lemma BaseNamesReachBase(s: NodeState, f: BaseField, data: seq<Byte>, codec: StringCodec)
    ensures DecodePhysicsField(s, BaseFieldName(f), data, codec) == DecodeBaseField(s, BaseFieldName(f), data)
    ensures SerializePhysicsField(s, BaseFieldName(f), codec) == SerializeBaseField(s, BaseFieldName(f))
  {
    LowerNamesPassPhysics(f, MaterialField);
    BaseNamesPassEntity(f);
  }

  /** `PhysicsObject::UnserializeField` on the node. */
  method UnserializePhysicsField(n: WorldNode, name: string, data: seq<Byte>, codec: StringCodec) returns (ok: bool)
    modifies n
    ensures ok == DecodePhysicsField(old(n.State()), name, data, codec).Some?
    ensures n.State() == DecodePhysicsField(old(n.State()), name, data, codec).GetOr(old(n.State()))
  {
    ghost var s0 := n.State();
    if name == "velocity" {
      if |data| != 12 {
        return false;
      }
      n.velocity := Vec3(data[0..4], data[4..8], data[8..12]);
      assert n.State() == s0.(velocity := Vec3Of(data));
    } else if name == "angVelocity" {
      if |data| != 16 {
        return false;
      }
      n.angularVelocity := Quat(data[0..4], data[4..8], data[8..12], data[12..16]);
      assert n.State() == s0.(angularVelocity := QuatOf(data));
    } else if name == "mass" {
      n.mass := MassOf(data);
      assert n.State() == s0.(mass := MassOf(data));
    } else if name == "collisionShape" {
      if |data| != 17 {
        return false;
      }
      n.collisionShape := CollisionShape(data[0], data[1..5], data[5..9], data[9..13], data[13..17]);
      assert n.State() == s0.(collisionShape := ShapeOf(data));
    } else {
      ok := UnserializeEntityField(n, name, data, codec);
      return;
    }
    ok := true;
  }
}
