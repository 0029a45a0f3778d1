/**
 * The Entity layer of the field protocol (src/world/entity.cc): material,
 * texture and mesh, with every other name handed down to the base layer.
 *
 * Strings go through the repository's SerializeString/UnserializeString,
 * whose definitions are not part of this model; they are a parameter here,
 * a pair of functions about which nothing is assumed.
 */
module Entities {
  import opened Bytes
  import opened Wrappers
  import opened WorldNodes

  /** `SerializeString` / `UnserializeString`. */
  datatype StringCodec = StringCodec(encode: string -> seq<Byte>, decode: seq<Byte> -> string)

  /** The codec reads back what it wrote for `s`. */
  predicate RoundTrips(codec: StringCodec, s: string)
  {
    codec.decode(codec.encode(s)) == s
  }

  /** The fields this layer knows. */
  datatype EntityField = MaterialField | TextureField | MeshField

  function EntityFieldName(f: EntityField): (name: string)
    ensures IsByteString(name) && ':' !in name
  {
    match f
    case MaterialField => "material"
    case TextureField => "texture"
    case MeshField => "mesh"
  }

  /** The name comparisons of the Entity layer, in source order. */
  function EntityFieldOf(name: string): (r: Option<EntityField>)
    ensures r.Some? ==> EntityFieldName(r.value) == name
  {
    if name == "material" then Some(MaterialField)
    else if name == "texture" then Some(TextureField)
    else if name == "mesh" then Some(MeshField)
    else None
  }

  lemma EntityFieldOfName(f: EntityField)
    ensures EntityFieldOf(EntityFieldName(f)) == Some(f)
  {
  }

  /** Base names are not Entity names, so they reach the base layer. */
  lemma BaseNamesPassEntity(f: BaseField)
    ensures EntityFieldOf(BaseFieldName(f)).None?
  {
  }

  const ENTITY_FIELDS: seq<string> := ["material", "texture", "mesh"]

  /** `Entity::GetDefaultFields`: the base defaults followed by material, texture, mesh. */
  function EntityDefaultFields(): (fs: seq<string>)
    ensures fs == BASE_FIELDS + ENTITY_FIELDS
  {
    BASE_FIELDS + ["material", "texture", "mesh"]
  }

  const DEFAULT_TEXTURE: string := "default"

  function ColorBytes(c: Color): (r: seq<Byte>)
    ensures |r| == 16
  {
    c.r + c.g + c.b + c.a
  }

  function ColorOf(data: seq<Byte>): (c: Color)
    requires |data| == 16
    ensures ColorBytes(c) == data
  {
    Color(data[0..4], data[4..8], data[8..12], data[12..16])
  }

  lemma ColorRoundTrip(c: Color)
    ensures ColorOf(ColorBytes(c)) == c
  {
    var b := ColorBytes(c);
    assert b[0..4] == c.r && b[4..8] == c.g && b[8..12] == c.b && b[12..16] == c.a;
  }

  /**
   * The value bytes this layer writes for one of its fields. Note that
   * "mesh" writes the texture string, not the mesh string.
   */
  function EntityValue(s: NodeState, f: EntityField, codec: StringCodec): (r: seq<Byte>)
    ensures f == MaterialField ==> r == ColorBytes(s.material)
    ensures f != MaterialField ==> r == codec.encode(s.texture)
  {
    match f
    case MaterialField => ColorBytes(s.material)
    case TextureField => codec.encode(s.texture)
    case MeshField => codec.encode(s.texture)
  }

  /**
   * `Entity::SerializeField`: for its own names, the blob, or None when the
   * blob's length byte comes out as 0 (modulo 256); other names go to the
   * base layer.
   */
  function SerializeEntityField(s: NodeState, name: string, codec: StringCodec): (r: Option<seq<Byte>>)
    ensures EntityFieldOf(name).None? ==> r == SerializeBaseField(s, name)
    ensures EntityFieldOf(name).Some? ==>
      var v := EntityValue(s, EntityFieldOf(name).value, codec);
      r == if BlobLength(name, v) == 0 then None else Some(BlobOf(name, v))
  {
    match EntityFieldOf(name)
    case None => SerializeBaseField(s, name)
    case Some(f) =>
      var v := EntityValue(s, f, codec);
      if BlobLength(name, v) == 0 then None else Some(BlobOf(name, v))
  }

  /** An Entity field set from data: material needs 16 bytes; empty string data means "default". */
  function DecodeEntity(s: NodeState, f: EntityField, data: seq<Byte>, codec: StringCodec): (r: Option<NodeState>)
    ensures f == MaterialField ==> (r.Some? <==> |data| == 16)
    ensures f == MaterialField && r.Some? ==> ColorBytes(r.value.material) == data
    ensures f == TextureField ==> r == Some(s.(texture := if data == [] then DEFAULT_TEXTURE else codec.decode(data)))
    ensures f == MeshField ==> r == Some(s.(mesh := if data == [] then DEFAULT_TEXTURE else codec.decode(data)))
  {
    match f
    case MaterialField => if |data| != 16 then None else Some(s.(material := ColorOf(data)))
    case TextureField => Some(s.(texture := if |data| > 0 then codec.decode(data) else DEFAULT_TEXTURE))
    case MeshField => Some(s.(mesh := if |data| > 0 then codec.decode(data) else DEFAULT_TEXTURE))
  }

  /**
   * `Entity::UnserializeField` as a function of the old state: its own
   * names, or the base layer for any other name.
   */
  function DecodeEntityField(s: NodeState, name: string, data: seq<Byte>, codec: StringCodec): (r: Option<NodeState>)
    ensures EntityFieldOf(name).None? ==> r == DecodeBaseField(s, name, data)
    ensures EntityFieldOf(name).Some? ==> r == DecodeEntity(s, EntityFieldOf(name).value, data, codec)
  {
    match EntityFieldOf(name)
    case None => DecodeBaseField(s, name, data)
    case Some(f) => DecodeEntity(s, f, data, codec)
  }

  /**
   * The effect a round trip of field `f` of `src` through the Entity layer
   * has on `dst`. "mesh" carries the texture string, so it copies
   * `src.texture` into `dst.mesh`.
   */
  function CopyEntity(dst: NodeState, src: NodeState, f: EntityField): NodeState
  {
    match f
    case MaterialField => dst.(material := src.material)
    case TextureField => dst.(texture := src.texture)
    case MeshField => dst.(mesh := src.texture)
  }

  /**
   * Decoding what the Entity layer encodes copies the field. For texture and
   * mesh this needs the string codec to read back its own output, and the
   * encoded string must not be empty (empty data decodes as "default").
   */
  lemma EntityRoundTrip(dst: NodeState, src: NodeState, f: EntityField, codec: StringCodec)
    requires f != MaterialField ==> RoundTrips(codec, src.texture) && codec.encode(src.texture) != []
    ensures DecodeEntity(dst, f, EntityValue(src, f, codec), codec) == Some(CopyEntity(dst, src, f))
  {
    if f == MaterialField {
      ColorRoundTrip(src.material);
    }
  }

  /**
   * The "mesh" quirk: the mesh blob does not depend on the sender's mesh,
   * and the receiver's decoded mesh is the sender's texture.
   */
  lemma MeshCarriesTexture(dst: NodeState, src: NodeState, otherMesh: string, codec: StringCodec)
    requires RoundTrips(codec, src.texture) && codec.encode(src.texture) != []
    ensures SerializeEntityField(src, "mesh", codec) == SerializeEntityField(src.(mesh := otherMesh), "mesh", codec)
    ensures DecodeEntity(dst, MeshField, EntityValue(src, MeshField, codec), codec).value.mesh == src.texture
  {
  }

  /**
   * `Entity::UnserializeField` on the node: assigns its own fields, or hands
   * the name to the base layer.
   */
  method UnserializeEntityField(n: WorldNode, name: string, data: seq<Byte>, codec: StringCodec) returns (ok: bool)
    modifies n
    ensures ok == DecodeEntityField(old(n.State()), name, data, codec).Some?
    ensures n.State() == DecodeEntityField(old(n.State()), name, data, codec).GetOr(old(n.State()))
  {
    ghost var s0 := n.State();
    if name == "material" {
      if |data| != 16 {
        return false;
      }
      n.material := Color(data[0..4], data[4..8], data[8..12], data[12..16]);
      assert n.State() == s0.(material := ColorOf(data));
    } else if name == "texture" {
      if |data| > 0 {
        n.texture := codec.decode(data);
      } else {
        n.texture := DEFAULT_TEXTURE;
      }
    } else if name == "mesh" {
      if |data| > 0 {
        n.mesh := codec.decode(data);
      } else {
        n.mesh := DEFAULT_TEXTURE;
      }
    } else {
      ok := UnserializeBaseField(n, name, data);
      return;
    }
    ok := true;
  }
}
