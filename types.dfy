/** The data types of the container: entities, enum codes, the index
    sentinel and the two model kinds. */
module Types {
  import opened Wire

  /** The "no reference" value of every index field. */
  const INVALID_INDEX: u32 := 0xFFFF_FFFF

  /** Bit patterns of the floats 0.0f and 1.0f. */
  const FLOAT_ZERO: F32 := 0
  const FLOAT_ONE: F32 := 0x3F80_0000

  type Vec2 = s: seq<F32> | |s| == 2 witness [0, 0]
  type Vec3 = s: seq<F32> | |s| == 3 witness [0, 0, 0]
  type Vec4 = s: seq<F32> | |s| == 4 witness [0, 0, 0, 0]
  type BoneSlots = s: seq<u32> | |s| == 4 witness [0, 0, 0, 0]

  /** A column-major 4x4 matrix of floats. */
  type Mat4x4 = s: seq<F32> | |s| == 16 witness [0, 0, 0, 0, 0, 0, 0, 0, 0, 0, 0, 0, 0, 0, 0, 0]

  /** The value of a default-constructed Mat4x4: the identity. */
  function DefaultMat4x4(): (m: Mat4x4)
    ensures forall k :: 0 <= k < 16 ==> m[k] == if k in {0, 5, 10, 15} then FLOAT_ONE else FLOAT_ZERO
  {
    [FLOAT_ONE, FLOAT_ZERO, FLOAT_ZERO, FLOAT_ZERO,
     FLOAT_ZERO, FLOAT_ONE, FLOAT_ZERO, FLOAT_ZERO,
     FLOAT_ZERO, FLOAT_ZERO, FLOAT_ONE, FLOAT_ZERO,
     FLOAT_ZERO, FLOAT_ZERO, FLOAT_ZERO, FLOAT_ONE]
  }

  datatype BoundingSphere = BoundingSphere(center: Vec3, radius: F32)

  datatype Vertex = Vertex(position: Vec3, normal: Vec3, uv: Vec2, tangent: Vec3)

  datatype WeightedVertex = WeightedVertex(position: Vec3, normal: Vec3, uv: Vec2, tangent: Vec3,
                                           boneID: BoneSlots, weight: Vec4)

  /** Field order as declared (and as the codec writes it). */
  datatype Meshlet = Meshlet(bounds: BoundingSphere, vertexOffset: u32, triangleOffset: u32,
                             vertexCount: u32, triangleCount: u32)

  // ---------------------------------------------------------------- enum codes

  datatype Filter = FilterNearest | FilterLinear {
    function Code(): i8 {
      match this
      case FilterNearest => 0
      case FilterLinear => 1
    }
  }

  datatype MipmapMode = MipmapNone | MipmapNearest | MipmapLinear {
    function Code(): i8 {
      match this
      case MipmapNone => -1
      case MipmapNearest => 0
      case MipmapLinear => 1
    }
  }

  datatype AddressMode = Repeat | MirroredRepeat | ClampToEdge {
    function Code(): i8 {
      match this
      case Repeat => 0
      case MirroredRepeat => 1
      case ClampToEdge => 2
    }
  }

  datatype AlphaMode = Opaque | Mask | Blend {
    function Code(): i8 {
      match this
      case Opaque => 0
      case Mask => 1
      case Blend => 2
    }
  }

  function FilterOf(c: i8): (r: Option<Filter>)
    ensures forall f: Filter :: r == Some(f) <==> f.Code() == c
  {
    if c == 0 then Some(FilterNearest) else if c == 1 then Some(FilterLinear) else None
  }

  function MipmapModeOf(c: i8): (r: Option<MipmapMode>)
    ensures forall m: MipmapMode :: r == Some(m) <==> m.Code() == c
  {
    if c == -1 then Some(MipmapNone)
    else if c == 0 then Some(MipmapNearest)
    else if c == 1 then Some(MipmapLinear)
    else None
  }

  function AddressModeOf(c: i8): (r: Option<AddressMode>)
    ensures forall a: AddressMode :: r == Some(a) <==> a.Code() == c
  {
    if c == 0 then Some(Repeat)
    else if c == 1 then Some(MirroredRepeat)
    else if c == 2 then Some(ClampToEdge)
    else None
  }

  function AlphaModeOf(c: i8): (r: Option<AlphaMode>)
    ensures forall a: AlphaMode :: r == Some(a) <==> a.Code() == c
  {
    if c == 0 then Some(Opaque) else if c == 1 then Some(Mask) else if c == 2 then Some(Blend) else None
  }

  /** The enum fields hold the raw int8 code: an enum class over int8_t can hold any of its values. */
  datatype Sampler = Sampler(name: seq<u8>, magFilter: i8, minFilter: i8, mipmapMode: i8,
                             addressModeU: i8, addressModeV: i8)

  datatype Texture = Texture(path: seq<u8>, samplerIndex: u32) {
    predicate HasPath() { |path| != 0 }
    predicate HasSampler() { samplerIndex != INVALID_INDEX }
  }

  datatype Material = Material(name: seq<u8>, baseColorFactor: Vec4, roughnessFactor: F32,
                               metallicFactor: F32, ambientOcclusionFactor: F32, emissiveFactor: Vec3,
                               textureIndex: u32, alphaMode: i8, alphaCutoff: F32,
                               doubleSided: bool, shadeless: bool) {
    predicate HasTexture() { textureIndex != INVALID_INDEX }
  }

  datatype Mesh = Mesh(name: seq<u8>, bounds: BoundingSphere, vertexOffset: u32, vertexCount: u32,
                       meshletOffset: u32, meshletCount: u32, materialIndex: u32) {
    predicate HasMaterial() { materialIndex != INVALID_INDEX }
  }

  /** A node of the mesh hierarchy in the form the codec stores: one mesh index. */
  datatype MeshHierarchy = MeshHierarchy(name: seq<u8>, localTransform: Mat4x4, meshIndex: u32,
                                         parentIndex: u32) {
    predicate HasParent() { parentIndex != INVALID_INDEX }
  }

  datatype Bone = Bone(name: seq<u8>, inverseBindTransform: Mat4x4, offsetMatrix: Mat4x4,
                       parentIndex: u32) {
    predicate HasParent() { parentIndex != INVALID_INDEX }
  }

  /** Every "has a reference" accessor is the comparison with the sentinel. */
  lemma SentinelAccessors(t: Texture, m: Material, h: Mesh, n: MeshHierarchy, b: Bone)
    ensures t.HasSampler() <==> t.samplerIndex != 0xFFFF_FFFF
    ensures m.HasTexture() <==> m.textureIndex != 0xFFFF_FFFF
    ensures h.HasMaterial() <==> h.materialIndex != 0xFFFF_FFFF
    ensures n.HasParent() <==> n.parentIndex != 0xFFFF_FFFF
    ensures b.HasParent() <==> b.parentIndex != 0xFFFF_FFFF
    ensures t.HasPath() <==> t.path != []
  {
  }

  // ---------------------------------------------------------------- models

  datatype ModelType = STATIC | SKINNED {
    function Code(): u8 {
      match this
      case STATIC => 0
      case SKINNED => 1
    }
  }

  /** static_cast<ModelType>(tag byte), accepted only for the two declared values. */
  function ModelTypeOf(tag: u8): (r: Option<ModelType>)
    ensures forall t: ModelType :: r == Some(t) <==> t.Code() == tag
  {
    if tag == 0 then Some(STATIC) else if tag == 1 then Some(SKINNED) else None
  }

  /** The fields shared by both model kinds. */
  datatype ModelBase = ModelBase(name: seq<u8>, textures: seq<Texture>, samplers: seq<Sampler>,
                                 materials: seq<Material>, meshes: seq<Mesh>,
                                 meshNodes: seq<MeshHierarchy>, meshletVertices: seq<u32>,
                                 meshletTriangles: seq<u8>, meshlets: seq<Meshlet>,
                                 bounds: BoundingSphere, copyright: seq<u8>, generator: seq<u8>,
                                 flags: u32, version: u32)

  datatype StaticModel = StaticModel(base: ModelBase, vertices: seq<Vertex>)

  datatype SkinnedModel = SkinnedModel(base: ModelBase, vertices: seq<WeightedVertex>, bones: seq<Bone>)

  /** A model is one of the two kinds; the kind is fixed when the value is built. */
  datatype Model = Static(s: StaticModel) | Skinned(k: SkinnedModel) {
    function Base(): ModelBase {
      match this
      case Static(s) => s.base
      case Skinned(k) => k.base
    }

    function GetType(): (t: ModelType)
      ensures t == STATIC <==> Static?
      ensures t == SKINNED <==> Skinned?
    {
      if Static? then STATIC else SKINNED
    }

    /** The same model with its header-carried fields replaced. */
    function WithFlagsVersion(flags: u32, version: u32): (m: Model)
      ensures m.GetType() == GetType()
      ensures m.Base() == Base().(flags := flags, version := version)
      ensures Static? ==> m.Static? && m.s.vertices == s.vertices
      ensures Skinned? ==> m.Skinned? && m.k.vertices == k.vertices && m.k.bones == k.bones
    {
      match this
      case Static(s) => Static(s.(base := s.base.(flags := flags, version := version)))
      case Skinned(k) => Skinned(k.(base := k.base.(flags := flags, version := version)))
    }
  }

  /** Model::StaticModelCast: the static view when, and only when, the model is static. */
  function StaticModelCast(m: Model): (r: Option<StaticModel>)
    ensures r.Some? <==> m.GetType() == STATIC
    ensures forall s :: r == Some(s) ==> m == Static(s)
  {
    match m
    case Static(s) => Some(s)
    case Skinned(_) => None
  }

  /** Model::SkinnedModelCast: the skinned view when, and only when, the model is skinned. */
  function SkinnedModelCast(m: Model): (r: Option<SkinnedModel>)
    ensures r.Some? <==> m.GetType() == SKINNED
    ensures forall k :: r == Some(k) ==> m == Skinned(k)
  {
    match m
    case Static(_) => None
    case Skinned(k) => Some(k)
  }
}
