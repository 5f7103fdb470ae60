/** Serialisation of whole models: the generic part shared by both kinds
    (writeGenericModelToStream / readGenericModelFromStream) and the
    StaticModel and SkinnedModel stream operators.

    The generic part is laid out as
      counts   eleven u32 sizes
      tables   name bytes, textures, samplers, materials, meshes, mesh nodes
      pools    meshlet vertex words, meshlet triangle bytes, meshlets
      trailer  bounding sphere, copyright bytes, generator bytes
    and every size is the container's size truncated to 32 bits. */
module ModelCodec {
  import opened Wire
  import opened Types
  import opened EntityCodec

  // ---------------------------------------------------------------- counts

  datatype Counts = Counts(name: u32, textures: u32, samplers: u32, materials: u32, meshes: u32,
                           meshNodes: u32, meshletVertices: u32, meshletTriangles: u32,
                           meshlets: u32, copyright: u32, generator: u32)

  /** The sizes a model announces: each static_cast<uint32_t> of a size(). */
  function CountsOf(b: ModelBase): Counts {
    Counts(Len32(|b.name|), Len32(|b.textures|), Len32(|b.samplers|), Len32(|b.materials|),
           Len32(|b.meshes|), Len32(|b.meshNodes|), Len32(|b.meshletVertices|),
           Len32(|b.meshletTriangles|), Len32(|b.meshlets|), Len32(|b.copyright|),
           Len32(|b.generator|))
  }

  function CountsBytes(c: Counts): seq<u8> {
    TableCountsBytes(c) + PoolCountsBytes(c)
  }

  function TableCountsBytes(c: Counts): seq<u8> {
    LE32(c.name) + LE32(c.textures) + LE32(c.samplers) + LE32(c.materials) + LE32(c.meshes)
    + LE32(c.meshNodes)
  }

  function PoolCountsBytes(c: Counts): seq<u8> {
    LE32(c.meshletVertices) + LE32(c.meshletTriangles) + LE32(c.meshlets) + LE32(c.copyright)
    + LE32(c.generator)
  }

  function ParseCounts(st: Input): (Counts, Input) {
    var (name, s1) := ParseU32(st);
    var (textures, s2) := ParseU32(s1);
    var (samplers, s3) := ParseU32(s2);
    var (materials, s4) := ParseU32(s3);
    var (meshes, s5) := ParseU32(s4);
    var (meshNodes, s6) := ParseU32(s5);
    var (meshletVertices, s7) := ParseU32(s6);
    var (meshletTriangles, s8) := ParseU32(s7);
    var (meshlets, s9) := ParseU32(s8);
    var (copyright, s10) := ParseU32(s9);
    var (generator, s11) := ParseU32(s10);
    (Counts(name, textures, samplers, materials, meshes, meshNodes, meshletVertices,
            meshletTriangles, meshlets, copyright, generator), s11)
  }

  lemma CountsRoundTrip(c: Counts, rest: seq<u8>)
    ensures ParseCounts(Input(CountsBytes(c) + rest, true)) == (c, Input(rest, true))
  {
    var t10 := LE32(c.generator) + rest;
    var t9 := LE32(c.copyright) + t10;
    var t8 := LE32(c.meshlets) + t9;
    var t7 := LE32(c.meshletTriangles) + t8;
    var t6 := LE32(c.meshletVertices) + t7;
    var t5 := LE32(c.meshNodes) + t6;
    var t4 := LE32(c.meshes) + t5;
    var t3 := LE32(c.materials) + t4;
    var t2 := LE32(c.samplers) + t3;
    var t1 := LE32(c.textures) + t2;
    assert PoolCountsBytes(c) + rest == t6;
    assert TableCountsBytes(c) + t6 == LE32(c.name) + t1;
    assert CountsBytes(c) + rest == TableCountsBytes(c) + t6;
    U32RoundTrip(c.name, t1);
    U32RoundTrip(c.textures, t2);
    U32RoundTrip(c.samplers, t3);
    U32RoundTrip(c.materials, t4);
    U32RoundTrip(c.meshes, t5);
    U32RoundTrip(c.meshNodes, t6);
    U32RoundTrip(c.meshletVertices, t7);
    U32RoundTrip(c.meshletTriangles, t8);
    U32RoundTrip(c.meshlets, t9);
    U32RoundTrip(c.copyright, t10);
    U32RoundTrip(c.generator, rest);
  }

  // ---------------------------------------------------------------- byte images

  function TablesBytes(b: ModelBase): seq<u8> {
    b.name[..Len32(|b.name|)]
    + EncodeMany(TextureBytes, b.textures[..Len32(|b.textures|)])
    + EncodeMany(SamplerBytes, b.samplers[..Len32(|b.samplers|)])
    + EncodeMany(MaterialBytes, b.materials[..Len32(|b.materials|)])
    + EncodeMany(MeshBytes, b.meshes[..Len32(|b.meshes|)])
    + EncodeMany(MeshHierarchyBytes, b.meshNodes[..Len32(|b.meshNodes|)])
  }

  function PoolsBytes(b: ModelBase): seq<u8> {
    WordsBytes(b.meshletVertices[..Len32(|b.meshletVertices|)])
    + b.meshletTriangles[..Len32(|b.meshletTriangles|)]
    + EncodeMany(MeshletBytes, b.meshlets[..Len32(|b.meshlets|)])
  }

  function TrailerBytes(b: ModelBase): seq<u8> {
    SphereBytes(b.bounds) + b.copyright[..Len32(|b.copyright|)]
    + b.generator[..Len32(|b.generator|)]
  }

  /** What writeGenericModelToStream writes. Flags and version are not part of it. */
  function BaseBytes(b: ModelBase): seq<u8> {
    CountsBytes(CountsOf(b)) + TablesBytes(b) + PoolsBytes(b) + TrailerBytes(b)
  }

  function StaticBytes(s: StaticModel): seq<u8> {
    BaseBytes(s.base) + LE32(Len32(|s.vertices|))
    + EncodeMany(VertexBytes, s.vertices[..Len32(|s.vertices|)])
  }

  /** What follows the generic part of a skinned model: both counts come
      before both runs. */
  function SkinnedRunsBytes(k: SkinnedModel): seq<u8> {
    LE32(Len32(|k.vertices|)) + LE32(Len32(|k.bones|))
    + EncodeMany(WeightedVertexBytes, k.vertices[..Len32(|k.vertices|)])
    + EncodeMany(BoneBytes, k.bones[..Len32(|k.bones|)])
  }

  function SkinnedBytes(k: SkinnedModel): seq<u8> {
    BaseBytes(k.base) + SkinnedRunsBytes(k)
  }

  /** The serialised content of a model, by its kind. */
  function ModelBytes(m: Model): seq<u8> {
    match m
    case Static(s) => StaticBytes(s)
    case Skinned(k) => SkinnedBytes(k)
  }

  // ---------------------------------------------------------------- parsers

  type Tables = (seq<u8>, seq<Texture>, seq<Sampler>, seq<Material>, seq<Mesh>, seq<MeshHierarchy>)
  type Pools = (seq<u32>, seq<u8>, seq<Meshlet>)
  type Trailer = (BoundingSphere, seq<u8>, seq<u8>)

  function ParseTables(c: Counts, st: Input): (Tables, Input) {
    var (name, s1) := ParseRaw(st, c.name);
    var (textures, s2) := ParseMany(ParseTexture, s1, c.textures);
    var (samplers, s3) := ParseMany(ParseSampler, s2, c.samplers);
    var (materials, s4) := ParseMany(ParseMaterial, s3, c.materials);
    var (meshes, s5) := ParseMany(ParseMesh, s4, c.meshes);
    var (nodes, s6) := ParseMany(ParseMeshHierarchy, s5, c.meshNodes);
    ((name, textures, samplers, materials, meshes, nodes), s6)
  }

  function ParsePools(c: Counts, st: Input): (Pools, Input) {
    var (vertices, s1) := ParseWords(st, c.meshletVertices);
    var (triangles, s2) := ParseRaw(s1, c.meshletTriangles);
    var (meshlets, s3) := ParseMany(ParseMeshlet, s2, c.meshlets);
    ((vertices, triangles, meshlets), s3)
  }

  function ParseTrailer(c: Counts, st: Input): (Trailer, Input) {
    var (bounds, s1) := ParseSphere(st);
    var (copyright, s2) := ParseRaw(s1, c.copyright);
    var (generator, s3) := ParseRaw(s2, c.generator);
    ((bounds, copyright, generator), s3)
  }

  /** What readGenericModelFromStream leaves in a freshly constructed model:
      every field replaced, flags and version still 0. */
  function ParseBase(st: Input): (r: (ModelBase, Input))
    ensures r.0.flags == 0 && r.0.version == 0
    ensures !st.good ==> !r.1.good
  {
    var (c, s1) := ParseCounts(st);
    var (t, s2) := ParseTables(c, s1);
    var (p, s3) := ParsePools(c, s2);
    var (e, s4) := ParseTrailer(c, s3);
    (ModelBase(t.0, t.1, t.2, t.3, t.4, t.5, p.0, p.1, p.2, e.0, e.1, e.2, 0, 0), s4)
  }

  function ParseStatic(st: Input): (r: (StaticModel, Input))
    ensures r.0.base.flags == 0 && r.0.base.version == 0
    ensures !st.good ==> !r.1.good
  {
    var (b, s1) := ParseBase(st);
    var (n, s2) := ParseU32(s1);
    ManyKeepsFailure(ParseVertex, s2, n);
    var (vertices, s3) := ParseMany(ParseVertex, s2, n);
    (StaticModel(b, vertices), s3)
  }

  function ParseSkinnedRuns(st: Input): (r: ((seq<WeightedVertex>, seq<Bone>), Input))
    ensures !st.good ==> !r.1.good
  {
    var (n, s1) := ParseU32(st);
    var (m, s2) := ParseU32(s1);
    ManyKeepsFailure(ParseWeightedVertex, s2, n);
    var (vertices, s3) := ParseMany(ParseWeightedVertex, s2, n);
    ManyKeepsFailure(ParseBone, s3, m);
    var (bones, s4) := ParseMany(ParseBone, s3, m);
    ((vertices, bones), s4)
  }

  function ParseSkinned(st: Input): (r: (SkinnedModel, Input))
    ensures r.0.base.flags == 0 && r.0.base.version == 0
    ensures !st.good ==> !r.1.good
  {
    var (b, s1) := ParseBase(st);
    var (runs, s2) := ParseSkinnedRuns(s1);
    (SkinnedModel(b, runs.0, runs.1), s2)
  }

  /** Reading a model of the given kind from the content. */
  function ParseModel(t: ModelType, st: Input): (r: (Model, Input))
    ensures r.0.GetType() == t
    ensures r.0.Base().flags == 0 && r.0.Base().version == 0
  {
    match t
    case STATIC =>
      var (s, s1) := ParseStatic(st);
      (Static(s), s1)
    case SKINNED =>
      var (k, s1) := ParseSkinned(st);
      (Skinned(k), s1)
  }

  // ---------------------------------------------------------------- round trips

  /** Every size of the generic part fits its u32 count. */
  predicate BaseFits(b: ModelBase) {
    && |b.name| < U32_LIMIT && |b.textures| < U32_LIMIT && |b.samplers| < U32_LIMIT
    && |b.materials| < U32_LIMIT && |b.meshes| < U32_LIMIT && |b.meshNodes| < U32_LIMIT
    && |b.meshletVertices| < U32_LIMIT && |b.meshletTriangles| < U32_LIMIT
    && |b.meshlets| < U32_LIMIT && |b.copyright| < U32_LIMIT && |b.generator| < U32_LIMIT
    && (forall t :: t in b.textures ==> NameFits(t.path))
    && (forall s :: s in b.samplers ==> NameFits(s.name))
    && (forall m :: m in b.materials ==> NameFits(m.name))
    && (forall h :: h in b.meshes ==> NameFits(h.name))
    && (forall n :: n in b.meshNodes ==> NameFits(n.name))
  }

  /** Every size of the model fits its u32 count. */
  predicate ModelFits(m: Model) {
    match m
    case Static(s) => BaseFits(s.base) && |s.vertices| < U32_LIMIT
    case Skinned(k) =>
      && BaseFits(k.base) && |k.vertices| < U32_LIMIT && |k.bones| < U32_LIMIT
      && (forall b :: b in k.bones ==> NameFits(b.name))
  }

  // A run of entities written one after the other reads back element by
  // element and stops right after the run.

  lemma TexturesRoundTrip(xs: seq<Texture>, rest: seq<u8>)
    requires forall x :: x in xs ==> NameFits(x.path)
    ensures ParseMany(ParseTexture, Input(EncodeMany(TextureBytes, xs) + rest, true), |xs|) == (xs, Input(rest, true))
  {
    forall x, r | x in xs
      ensures ParseTexture(Input(TextureBytes(x) + r, true)) == (x, Input(r, true))
    {
      TextureRoundTrip(x, r);
    }
    ManyRoundTrip(ParseTexture, TextureBytes, xs, rest);
  }

  lemma SamplersRoundTrip(xs: seq<Sampler>, rest: seq<u8>)
    requires forall x :: x in xs ==> NameFits(x.name)
    ensures ParseMany(ParseSampler, Input(EncodeMany(SamplerBytes, xs) + rest, true), |xs|) == (xs, Input(rest, true))
  {
    forall x, r | x in xs
      ensures ParseSampler(Input(SamplerBytes(x) + r, true)) == (x, Input(r, true))
    {
      SamplerRoundTrip(x, r);
    }
    ManyRoundTrip(ParseSampler, SamplerBytes, xs, rest);
  }

  lemma MaterialsRoundTrip(xs: seq<Material>, rest: seq<u8>)
    requires forall x :: x in xs ==> NameFits(x.name)
    ensures ParseMany(ParseMaterial, Input(EncodeMany(MaterialBytes, xs) + rest, true), |xs|) == (xs, Input(rest, true))
  {
    forall x, r | x in xs
      ensures ParseMaterial(Input(MaterialBytes(x) + r, true)) == (x, Input(r, true))
    {
      MaterialRoundTrip(x, r);
    }
    ManyRoundTrip(ParseMaterial, MaterialBytes, xs, rest);
  }

  lemma MeshesRoundTrip(xs: seq<Mesh>, rest: seq<u8>)
    requires forall x :: x in xs ==> NameFits(x.name)
    ensures ParseMany(ParseMesh, Input(EncodeMany(MeshBytes, xs) + rest, true), |xs|) == (xs, Input(rest, true))
  {
    forall x, r | x in xs
      ensures ParseMesh(Input(MeshBytes(x) + r, true)) == (x, Input(r, true))
    {
      MeshRoundTrip(x, r);
    }
    ManyRoundTrip(ParseMesh, MeshBytes, xs, rest);
  }

  lemma MeshNodesRoundTrip(xs: seq<MeshHierarchy>, rest: seq<u8>)
    requires forall x :: x in xs ==> NameFits(x.name)
    ensures ParseMany(ParseMeshHierarchy, Input(EncodeMany(MeshHierarchyBytes, xs) + rest, true), |xs|) == (xs, Input(rest, true))
  {
    forall x, r | x in xs
      ensures ParseMeshHierarchy(Input(MeshHierarchyBytes(x) + r, true)) == (x, Input(r, true))
    {
      MeshHierarchyRoundTrip(x, r);
    }
    ManyRoundTrip(ParseMeshHierarchy, MeshHierarchyBytes, xs, rest);
  }

  lemma MeshletsRoundTrip(xs: seq<Meshlet>, rest: seq<u8>)
    ensures ParseMany(ParseMeshlet, Input(EncodeMany(MeshletBytes, xs) + rest, true), |xs|) == (xs, Input(rest, true))
  {
    forall x, r | x in xs
      ensures ParseMeshlet(Input(MeshletBytes(x) + r, true)) == (x, Input(r, true))
    {
      MeshletRoundTrip(x, r);
    }
    ManyRoundTrip(ParseMeshlet, MeshletBytes, xs, rest);
  }

  lemma VerticesRoundTrip(xs: seq<Vertex>, rest: seq<u8>)
    ensures ParseMany(ParseVertex, Input(EncodeMany(VertexBytes, xs) + rest, true), |xs|) == (xs, Input(rest, true))
  {
    forall x, r | x in xs
      ensures ParseVertex(Input(VertexBytes(x) + r, true)) == (x, Input(r, true))
    {
      VertexRoundTrip(x, r);
    }
    ManyRoundTrip(ParseVertex, VertexBytes, xs, rest);
  }

  lemma WeightedVerticesRoundTrip(xs: seq<WeightedVertex>, rest: seq<u8>)
    ensures ParseMany(ParseWeightedVertex, Input(EncodeMany(WeightedVertexBytes, xs) + rest, true), |xs|) == (xs, Input(rest, true))
  {
    forall x, r | x in xs
      ensures ParseWeightedVertex(Input(WeightedVertexBytes(x) + r, true)) == (x, Input(r, true))
    {
      WeightedVertexRoundTrip(x, r);
    }
    ManyRoundTrip(ParseWeightedVertex, WeightedVertexBytes, xs, rest);
  }

  lemma BonesRoundTrip(xs: seq<Bone>, rest: seq<u8>)
    requires forall x :: x in xs ==> NameFits(x.name)
    ensures ParseMany(ParseBone, Input(EncodeMany(BoneBytes, xs) + rest, true), |xs|) == (xs, Input(rest, true))
  {
    forall x, r | x in xs
      ensures ParseBone(Input(BoneBytes(x) + r, true)) == (x, Input(r, true))
    {
      BoneRoundTrip(x, r);
    }
    ManyRoundTrip(ParseBone, BoneBytes, xs, rest);
  }

  /** When every size fits, no truncation happens in the tables. */
  lemma TablesBytesFit(b: ModelBase)
    requires BaseFits(b)
    ensures TablesBytes(b) == b.name + EncodeMany(TextureBytes, b.textures)
      + EncodeMany(SamplerBytes, b.samplers) + EncodeMany(MaterialBytes, b.materials)
      + EncodeMany(MeshBytes, b.meshes) + EncodeMany(MeshHierarchyBytes, b.meshNodes)
  {
    assert b.name[..Len32(|b.name|)] == b.name;
    assert b.textures[..Len32(|b.textures|)] == b.textures;
    assert b.samplers[..Len32(|b.samplers|)] == b.samplers;
    assert b.materials[..Len32(|b.materials|)] == b.materials;
    assert b.meshes[..Len32(|b.meshes|)] == b.meshes;
    assert b.meshNodes[..Len32(|b.meshNodes|)] == b.meshNodes;
  }

  lemma TablesRoundTrip(b: ModelBase, rest: seq<u8>)
    requires BaseFits(b)
    ensures ParseTables(CountsOf(b), Input(TablesBytes(b) + rest, true))
            == ((b.name, b.textures, b.samplers, b.materials, b.meshes, b.meshNodes), Input(rest, true))
  {
    var e1 := EncodeMany(TextureBytes, b.textures);
    var e2 := EncodeMany(SamplerBytes, b.samplers);
    var e3 := EncodeMany(MaterialBytes, b.materials);
    var e4 := EncodeMany(MeshBytes, b.meshes);
    var e5 := EncodeMany(MeshHierarchyBytes, b.meshNodes);
    TablesBytesFit(b);
    var t5 := e5 + rest;
    var t4 := e4 + t5;
    var t3 := e3 + t4;
    var t2 := e2 + t3;
    var t1 := e1 + t2;
    Regroup(b.name + e1 + e2 + e3 + e4, e5, rest);
    Regroup(b.name + e1 + e2 + e3, e4, t5);
    Regroup(b.name + e1 + e2, e3, t4);
    Regroup(b.name + e1, e2, t3);
    Regroup(b.name, e1, t2);
    RawRoundTrip(b.name, t1);
    TexturesRoundTrip(b.textures, t2);
    SamplersRoundTrip(b.samplers, t3);
    MaterialsRoundTrip(b.materials, t4);
    MeshesRoundTrip(b.meshes, t5);
    MeshNodesRoundTrip(b.meshNodes, rest);
  }

  lemma PoolsRoundTrip(b: ModelBase, rest: seq<u8>)
    requires BaseFits(b)
    ensures ParsePools(CountsOf(b), Input(PoolsBytes(b) + rest, true))
            == ((b.meshletVertices, b.meshletTriangles, b.meshlets), Input(rest, true))
  {
    var c := CountsOf(b);
    var t2 := EncodeMany(MeshletBytes, b.meshlets) + rest;
    var t1 := b.meshletTriangles + t2;
    assert b.meshletVertices[..c.meshletVertices] == b.meshletVertices;
    assert b.meshlets[..c.meshlets] == b.meshlets;
    assert PoolsBytes(b) + rest == WordsBytes(b.meshletVertices) + t1;
    WordsParseRoundTrip(b.meshletVertices, t1);
    RawRoundTrip(b.meshletTriangles, t2);
    MeshletsRoundTrip(b.meshlets, rest);
  }

  lemma TrailerRoundTrip(b: ModelBase, rest: seq<u8>)
    requires BaseFits(b)
    ensures ParseTrailer(CountsOf(b), Input(TrailerBytes(b) + rest, true))
            == ((b.bounds, b.copyright, b.generator), Input(rest, true))
  {
    var c := CountsOf(b);
    assert c.copyright == |b.copyright| && c.generator == |b.generator|;
    assert b.copyright[..Len32(|b.copyright|)] == b.copyright;
    assert b.generator[..Len32(|b.generator|)] == b.generator;
    var t2 := b.generator + rest;
    var t1 := b.copyright + t2;
    assert TrailerBytes(b) + rest == SphereBytes(b.bounds) + t1;
    SphereRoundTrip(b.bounds, t1);
    RawRoundTrip(b.copyright, t2);
    RawRoundTrip(b.generator, rest);
    var s1 := Input(t1, true);
    assert ParseSphere(Input(SphereBytes(b.bounds) + t1, true)) == (b.bounds, s1);
  }

  /** Reading the generic part back gives the model back, except flags and
      version, which the stream does not carry. */
  lemma BaseRoundTrip(b: ModelBase, rest: seq<u8>)
    requires BaseFits(b)
    ensures ParseBase(Input(BaseBytes(b) + rest, true)) == (b.(flags := 0, version := 0), Input(rest, true))
  {
    var c, t, p, e := CountsBytes(CountsOf(b)), TablesBytes(b), PoolsBytes(b), TrailerBytes(b);
    Regroup(c + t + p, e, rest);
    Regroup(c + t, p, e + rest);
    Regroup(c, t, p + (e + rest));
    CountsRoundTrip(CountsOf(b), t + (p + (e + rest)));
    TablesRoundTrip(b, p + (e + rest));
    PoolsRoundTrip(b, e + rest);
    TrailerRoundTrip(b, rest);
  }

  lemma StaticRoundTrip(s: StaticModel, rest: seq<u8>)
    requires BaseFits(s.base) && |s.vertices| < U32_LIMIT
    ensures ParseStatic(Input(StaticBytes(s) + rest, true))
            == (s.(base := s.base.(flags := 0, version := 0)), Input(rest, true))
  {
    var b, n, e := BaseBytes(s.base), LE32(|s.vertices|), EncodeMany(VertexBytes, s.vertices);
    assert s.vertices[..Len32(|s.vertices|)] == s.vertices;
    Regroup(b + n, e, rest);
    Regroup(b, n, e + rest);
    BaseRoundTrip(s.base, n + (e + rest));
    U32RoundTrip(|s.vertices|, e + rest);
    VerticesRoundTrip(s.vertices, rest);
  }

  lemma SkinnedRunsRoundTrip(k: SkinnedModel, rest: seq<u8>)
    requires |k.vertices| < U32_LIMIT && |k.bones| < U32_LIMIT
    requires forall b :: b in k.bones ==> NameFits(b.name)
    ensures ParseSkinnedRuns(Input(SkinnedRunsBytes(k) + rest, true)) == ((k.vertices, k.bones), Input(rest, true))
  {
    var n, m := LE32(|k.vertices|), LE32(|k.bones|);
    var ev, eb := EncodeMany(WeightedVertexBytes, k.vertices), EncodeMany(BoneBytes, k.bones);
    assert k.vertices[..Len32(|k.vertices|)] == k.vertices;
    assert k.bones[..Len32(|k.bones|)] == k.bones;
    assert SkinnedRunsBytes(k) + rest == n + (m + (ev + (eb + rest)));
    U32RoundTrip(|k.vertices|, m + (ev + (eb + rest)));
    U32RoundTrip(|k.bones|, ev + (eb + rest));
    WeightedVerticesRoundTrip(k.vertices, eb + rest);
    BonesRoundTrip(k.bones, rest);
  }

  lemma SkinnedRoundTrip(k: SkinnedModel, rest: seq<u8>)
    requires BaseFits(k.base) && |k.vertices| < U32_LIMIT && |k.bones| < U32_LIMIT
    requires forall b :: b in k.bones ==> NameFits(b.name)
    ensures ParseSkinned(Input(SkinnedBytes(k) + rest, true))
            == (k.(base := k.base.(flags := 0, version := 0)), Input(rest, true))
  {
    var b, e := BaseBytes(k.base), SkinnedRunsBytes(k);
    Regroup(b, e, rest);
    BaseRoundTrip(k.base, e + rest);
    SkinnedRunsRoundTrip(k, rest);
  }

  /** Reading a model of its own kind from its own content gives it back with
      flags and version cleared, and stops right after the content. */
  lemma ModelRoundTrip(m: Model, rest: seq<u8>)
    requires ModelFits(m)
    ensures ParseModel(m.GetType(), Input(ModelBytes(m) + rest, true))
            == (m.WithFlagsVersion(0, 0), Input(rest, true))
  {
    match m
    case Static(s) => StaticRoundTrip(s, rest);
    case Skinned(k) => SkinnedRoundTrip(k, rest);
  }

  // ---------------------------------------------------------------- consumed input
  // Whatever the input, a read that leaves the stream good used up exactly
  // as many bytes as the value it returns takes when written back.

  lemma CountsConsumed(st: Input)
    ensures var (c, s) := ParseCounts(st);
      s.good ==> st.good && |st.rest| == |CountsBytes(c)| + |s.rest|
  {
  }

  lemma TablesConsumed(c: Counts, st: Input)
    ensures var (t, s) := ParseTables(c, st);
      s.good ==> (st.good && |st.rest| == |t.0| + |EncodeMany(TextureBytes, t.1)|
                  + |EncodeMany(SamplerBytes, t.2)| + |EncodeMany(MaterialBytes, t.3)|
                  + |EncodeMany(MeshBytes, t.4)| + |EncodeMany(MeshHierarchyBytes, t.5)| + |s.rest|)
  {
    var (name, s1) := ParseRaw(st, c.name);
    ManyConsumed(ParseTexture, TextureBytes, s1, c.textures);
    var (textures, s2) := ParseMany(ParseTexture, s1, c.textures);
    ManyConsumed(ParseSampler, SamplerBytes, s2, c.samplers);
    var (samplers, s3) := ParseMany(ParseSampler, s2, c.samplers);
    ManyConsumed(ParseMaterial, MaterialBytes, s3, c.materials);
    var (materials, s4) := ParseMany(ParseMaterial, s3, c.materials);
    ManyConsumed(ParseMesh, MeshBytes, s4, c.meshes);
    var (meshes, s5) := ParseMany(ParseMesh, s4, c.meshes);
    ManyConsumed(ParseMeshHierarchy, MeshHierarchyBytes, s5, c.meshNodes);
  }

  lemma PoolsConsumed(c: Counts, st: Input)
    ensures var (p, s) := ParsePools(c, st);
      s.good ==> st.good && |st.rest| == |WordsBytes(p.0)| + |p.1| + |EncodeMany(MeshletBytes, p.2)| + |s.rest|
  {
    var (vertices, s1) := ParseWords(st, c.meshletVertices);
    var (triangles, s2) := ParseRaw(s1, c.meshletTriangles);
    ManyConsumed(ParseMeshlet, MeshletBytes, s2, c.meshlets);
  }

  lemma TrailerConsumed(c: Counts, st: Input)
    ensures var (e, s) := ParseTrailer(c, st);
      s.good ==> st.good && |st.rest| == |SphereBytes(e.0)| + |e.1| + |e.2| + |s.rest|
  {
  }

  /** The length of the generic part, for a model whose sizes all fit. */
  lemma BaseBytesLength(b: ModelBase)
    requires |b.name| < U32_LIMIT && |b.textures| < U32_LIMIT && |b.samplers| < U32_LIMIT
    requires |b.materials| < U32_LIMIT && |b.meshes| < U32_LIMIT && |b.meshNodes| < U32_LIMIT
    requires |b.meshletVertices| < U32_LIMIT && |b.meshletTriangles| < U32_LIMIT
    requires |b.meshlets| < U32_LIMIT && |b.copyright| < U32_LIMIT && |b.generator| < U32_LIMIT
    ensures |BaseBytes(b)| == 44 + |b.name| + |EncodeMany(TextureBytes, b.textures)|
      + |EncodeMany(SamplerBytes, b.samplers)| + |EncodeMany(MaterialBytes, b.materials)|
      + |EncodeMany(MeshBytes, b.meshes)| + |EncodeMany(MeshHierarchyBytes, b.meshNodes)|
      + |WordsBytes(b.meshletVertices)| + |b.meshletTriangles| + |EncodeMany(MeshletBytes, b.meshlets)|
      + |SphereBytes(b.bounds)| + |b.copyright| + |b.generator|
  {
    assert |CountsBytes(CountsOf(b))| == 44;
    assert b.textures[..Len32(|b.textures|)] == b.textures;
    assert b.samplers[..Len32(|b.samplers|)] == b.samplers;
    assert b.materials[..Len32(|b.materials|)] == b.materials;
    assert b.meshes[..Len32(|b.meshes|)] == b.meshes;
    assert b.meshNodes[..Len32(|b.meshNodes|)] == b.meshNodes;
    assert b.meshletVertices[..Len32(|b.meshletVertices|)] == b.meshletVertices;
    assert b.meshlets[..Len32(|b.meshlets|)] == b.meshlets;
  }

  lemma BaseConsumed(st: Input)
    ensures var (b, s) := ParseBase(st);
      s.good ==> st.good && |st.rest| == |BaseBytes(b)| + |s.rest|
  {
    var (c, s1) := ParseCounts(st);
    var (t, s2) := ParseTables(c, s1);
    var (p, s3) := ParsePools(c, s2);
    var (e, s4) := ParseTrailer(c, s3);
    var b := ModelBase(t.0, t.1, t.2, t.3, t.4, t.5, p.0, p.1, p.2, e.0, e.1, e.2, 0, 0);
    assert ParseBase(st) == (b, s4);
    if s4.good {
      CountsConsumed(st);
      TablesConsumed(c, s1);
      PoolsConsumed(c, s2);
      TrailerConsumed(c, s3);
      assert |st.rest| == |CountsBytes(c)| + |s1.rest|;
      BaseBytesLength(b);
    }
  }

  lemma StaticBytesLength(x: StaticModel)
    requires |x.vertices| < U32_LIMIT
    ensures |StaticBytes(x)| == |BaseBytes(x.base)| + 4 + |EncodeMany(VertexBytes, x.vertices)|
  {
    assert x.vertices[..Len32(|x.vertices|)] == x.vertices;
  }

  lemma SkinnedBytesLength(x: SkinnedModel)
    requires |x.vertices| < U32_LIMIT && |x.bones| < U32_LIMIT
    ensures |SkinnedBytes(x)| == |BaseBytes(x.base)| + 8 + |EncodeMany(WeightedVertexBytes, x.vertices)|
                                 + |EncodeMany(BoneBytes, x.bones)|
  {
    assert x.vertices[..Len32(|x.vertices|)] == x.vertices;
    assert x.bones[..Len32(|x.bones|)] == x.bones;
  }

  lemma StaticConsumed(st: Input)
    ensures var (x, s) := ParseStatic(st);
      s.good ==> st.good && |st.rest| == |StaticBytes(x)| + |s.rest|
  {
    var (b, s1) := ParseBase(st);
    var (n, s2) := ParseU32(s1);
    var (vertices, s3) := ParseMany(ParseVertex, s2, n);
    assert ParseStatic(st) == (StaticModel(b, vertices), s3);
    if s3.good {
      BaseConsumed(st);
      ManyConsumed(ParseVertex, VertexBytes, s2, n);
      StaticBytesLength(StaticModel(b, vertices));
    }
  }

  lemma SkinnedRunsConsumed(st: Input)
    ensures var (runs, s) := ParseSkinnedRuns(st);
      s.good ==> (st.good && |st.rest| == 8 + |EncodeMany(WeightedVertexBytes, runs.0)|
                                         + |EncodeMany(BoneBytes, runs.1)| + |s.rest|)
  {
    var (n, s1) := ParseU32(st);
    var (k, s2) := ParseU32(s1);
    ManyConsumed(ParseWeightedVertex, WeightedVertexBytes, s2, n);
    var (vertices, s3) := ParseMany(ParseWeightedVertex, s2, n);
    ManyConsumed(ParseBone, BoneBytes, s3, k);
  }

  lemma SkinnedConsumed(st: Input)
    ensures var (x, s) := ParseSkinned(st);
      s.good ==> st.good && |st.rest| == |SkinnedBytes(x)| + |s.rest|
  {
    var (b, s1) := ParseBase(st);
    var (runs, s2) := ParseSkinnedRuns(s1);
    var x := SkinnedModel(b, runs.0, runs.1);
    assert ParseSkinned(st) == (x, s2);
    if s2.good {
      BaseConsumed(st);
      SkinnedRunsConsumed(s1);
      SkinnedBytesLength(x);
    }
  }

  lemma ModelConsumed(t: ModelType, st: Input)
    ensures var (m, s) := ParseModel(t, st);
      s.good ==> st.good && |st.rest| == |ModelBytes(m)| + |s.rest|
  {
    match t
    case STATIC => StaticConsumed(st);
    case SKINNED => SkinnedConsumed(st);
  }

  // ---------------------------------------------------------------- writing loops

  method WriteTextures(w: Writer, xs: seq<Texture>, n: u32)
    requires n <= |xs|
    modifies w
    ensures w.bytes == old(w.bytes) + EncodeMany(TextureBytes, xs[..n])
  {
    for i := 0 to n
      invariant w.bytes == old(w.bytes) + EncodeMany(TextureBytes, xs[..i])
    {
      WriteTexture(w, xs[i]);
      AppendToRun(TextureBytes, old(w.bytes), xs, i);
    }
  }

  method WriteSamplers(w: Writer, xs: seq<Sampler>, n: u32)
    requires n <= |xs|
    modifies w
    ensures w.bytes == old(w.bytes) + EncodeMany(SamplerBytes, xs[..n])
  {
    for i := 0 to n
      invariant w.bytes == old(w.bytes) + EncodeMany(SamplerBytes, xs[..i])
    {
      WriteSampler(w, xs[i]);
      AppendToRun(SamplerBytes, old(w.bytes), xs, i);
    }
  }

  method WriteMaterials(w: Writer, xs: seq<Material>, n: u32)
    requires n <= |xs|
    modifies w
    ensures w.bytes == old(w.bytes) + EncodeMany(MaterialBytes, xs[..n])
  {
    for i := 0 to n
      invariant w.bytes == old(w.bytes) + EncodeMany(MaterialBytes, xs[..i])
    {
      WriteMaterial(w, xs[i]);
      AppendToRun(MaterialBytes, old(w.bytes), xs, i);
    }
  }

  method WriteMeshes(w: Writer, xs: seq<Mesh>, n: u32)
    requires n <= |xs|
    modifies w
    ensures w.bytes == old(w.bytes) + EncodeMany(MeshBytes, xs[..n])
  {
    for i := 0 to n
      invariant w.bytes == old(w.bytes) + EncodeMany(MeshBytes, xs[..i])
    {
      WriteMesh(w, xs[i]);
      AppendToRun(MeshBytes, old(w.bytes), xs, i);
    }
  }

  method WriteMeshNodes(w: Writer, xs: seq<MeshHierarchy>, n: u32)
    requires n <= |xs|
    modifies w
    ensures w.bytes == old(w.bytes) + EncodeMany(MeshHierarchyBytes, xs[..n])
  {
    for i := 0 to n
      invariant w.bytes == old(w.bytes) + EncodeMany(MeshHierarchyBytes, xs[..i])
    {
      WriteMeshHierarchy(w, xs[i]);
      AppendToRun(MeshHierarchyBytes, old(w.bytes), xs, i);
    }
  }

  method WriteMeshlets(w: Writer, xs: seq<Meshlet>, n: u32)
    requires n <= |xs|
    modifies w
    ensures w.bytes == old(w.bytes) + EncodeMany(MeshletBytes, xs[..n])
  {
    for i := 0 to n
      invariant w.bytes == old(w.bytes) + EncodeMany(MeshletBytes, xs[..i])
    {
      WriteMeshlet(w, xs[i]);
      AppendToRun(MeshletBytes, old(w.bytes), xs, i);
    }
  }

  method WriteVertices(w: Writer, xs: seq<Vertex>, n: u32)
    requires n <= |xs|
    modifies w
    ensures w.bytes == old(w.bytes) + EncodeMany(VertexBytes, xs[..n])
  {
    for i := 0 to n
      invariant w.bytes == old(w.bytes) + EncodeMany(VertexBytes, xs[..i])
    {
      WriteVertex(w, xs[i]);
      AppendToRun(VertexBytes, old(w.bytes), xs, i);
    }
  }

  method WriteWeightedVertices(w: Writer, xs: seq<WeightedVertex>, n: u32)
    requires n <= |xs|
    modifies w
    ensures w.bytes == old(w.bytes) + EncodeMany(WeightedVertexBytes, xs[..n])
  {
    for i := 0 to n
      invariant w.bytes == old(w.bytes) + EncodeMany(WeightedVertexBytes, xs[..i])
    {
      WriteWeightedVertex(w, xs[i]);
      AppendToRun(WeightedVertexBytes, old(w.bytes), xs, i);
    }
  }

  method WriteBones(w: Writer, xs: seq<Bone>, n: u32)
    requires n <= |xs|
    modifies w
    ensures w.bytes == old(w.bytes) + EncodeMany(BoneBytes, xs[..n])
  {
    for i := 0 to n
      invariant w.bytes == old(w.bytes) + EncodeMany(BoneBytes, xs[..i])
    {
      WriteBone(w, xs[i]);
      AppendToRun(BoneBytes, old(w.bytes), xs, i);
    }
  }

  // ---------------------------------------------------------------- reading loops

  method ReadTextures(r: Reader, n: u32) returns (xs: seq<Texture>)
    modifies r
    ensures (xs, r.State()) == ParseMany(ParseTexture, old(r.State()), n)
  {
    xs := [];
    for i := 0 to n
      invariant (xs, r.State()) == ParseMany(ParseTexture, old(r.State()), i)
    {
      var x := ReadTexture(r);
      xs := xs + [x];
    }
  }

  method ReadSamplers(r: Reader, n: u32) returns (xs: seq<Sampler>)
    modifies r
    ensures (xs, r.State()) == ParseMany(ParseSampler, old(r.State()), n)
  {
    xs := [];
    for i := 0 to n
      invariant (xs, r.State()) == ParseMany(ParseSampler, old(r.State()), i)
    {
      var x := ReadSampler(r);
      xs := xs + [x];
    }
  }

  method ReadMaterials(r: Reader, n: u32) returns (xs: seq<Material>)
    modifies r
    ensures (xs, r.State()) == ParseMany(ParseMaterial, old(r.State()), n)
  {
    xs := [];
    for i := 0 to n
      invariant (xs, r.State()) == ParseMany(ParseMaterial, old(r.State()), i)
    {
      var x := ReadMaterial(r);
      xs := xs + [x];
    }
  }

  method ReadMeshes(r: Reader, n: u32) returns (xs: seq<Mesh>)
    modifies r
    ensures (xs, r.State()) == ParseMany(ParseMesh, old(r.State()), n)
  {
    xs := [];
    for i := 0 to n
      invariant (xs, r.State()) == ParseMany(ParseMesh, old(r.State()), i)
    {
      var x := ReadMesh(r);
      xs := xs + [x];
    }
  }

  method ReadMeshNodes(r: Reader, n: u32) returns (xs: seq<MeshHierarchy>)
    modifies r
    ensures (xs, r.State()) == ParseMany(ParseMeshHierarchy, old(r.State()), n)
  {
    xs := [];
    for i := 0 to n
      invariant (xs, r.State()) == ParseMany(ParseMeshHierarchy, old(r.State()), i)
    {
      var x := ReadMeshHierarchy(r);
      xs := xs + [x];
    }
  }

  method ReadMeshlets(r: Reader, n: u32) returns (xs: seq<Meshlet>)
    modifies r
    ensures (xs, r.State()) == ParseMany(ParseMeshlet, old(r.State()), n)
  {
    xs := [];
    for i := 0 to n
      invariant (xs, r.State()) == ParseMany(ParseMeshlet, old(r.State()), i)
    {
      var x := ReadMeshlet(r);
      xs := xs + [x];
    }
  }

  method ReadVertices(r: Reader, n: u32) returns (xs: seq<Vertex>)
    modifies r
    ensures (xs, r.State()) == ParseMany(ParseVertex, old(r.State()), n)
  {
    xs := [];
    for i := 0 to n
      invariant (xs, r.State()) == ParseMany(ParseVertex, old(r.State()), i)
    {
      var x := ReadVertex(r);
      xs := xs + [x];
    }
  }

  method ReadWeightedVertices(r: Reader, n: u32) returns (xs: seq<WeightedVertex>)
    modifies r
    ensures (xs, r.State()) == ParseMany(ParseWeightedVertex, old(r.State()), n)
  {
    xs := [];
    for i := 0 to n
      invariant (xs, r.State()) == ParseMany(ParseWeightedVertex, old(r.State()), i)
    {
      var x := ReadWeightedVertex(r);
      xs := xs + [x];
    }
  }

  method ReadBones(r: Reader, n: u32) returns (xs: seq<Bone>)
    modifies r
    ensures (xs, r.State()) == ParseMany(ParseBone, old(r.State()), n)
  {
    xs := [];
    for i := 0 to n
      invariant (xs, r.State()) == ParseMany(ParseBone, old(r.State()), i)
    {
      var x := ReadBone(r);
      xs := xs + [x];
    }
  }

  // ---------------------------------------------------------------- the generic part

  method WriteCounts(w: Writer, c: Counts)
    modifies w
    ensures w.bytes == old(w.bytes) + CountsBytes(c)
  {
    ghost var w0 := w.bytes;
    WriteTableCounts(w, c);
    WritePoolCounts(w, c);
    Regroup(w0, TableCountsBytes(c), PoolCountsBytes(c));
  }

  method WriteTableCounts(w: Writer, c: Counts)
    modifies w
    ensures w.bytes == old(w.bytes) + TableCountsBytes(c)
  {
    w.WriteU32(c.name);
    w.WriteU32(c.textures);
    w.WriteU32(c.samplers);
    w.WriteU32(c.materials);
    w.WriteU32(c.meshes);
    w.WriteU32(c.meshNodes);
  }

  method WritePoolCounts(w: Writer, c: Counts)
    modifies w
    ensures w.bytes == old(w.bytes) + PoolCountsBytes(c)
  {
    w.WriteU32(c.meshletVertices);
    w.WriteU32(c.meshletTriangles);
    w.WriteU32(c.meshlets);
    w.WriteU32(c.copyright);
    w.WriteU32(c.generator);
  }

  method ReadCounts(r: Reader) returns (c: Counts)
    modifies r
    ensures (c, r.State()) == ParseCounts(old(r.State()))
  {
    var name := r.ReadU32();
    var textures := r.ReadU32();
    var samplers := r.ReadU32();
    var materials := r.ReadU32();
    var meshes := r.ReadU32();
    var meshNodes := r.ReadU32();
    var meshletVertices := r.ReadU32();
    var meshletTriangles := r.ReadU32();
    var meshlets := r.ReadU32();
    var copyright := r.ReadU32();
    var generator := r.ReadU32();
    c := Counts(name, textures, samplers, materials, meshes, meshNodes, meshletVertices,
                meshletTriangles, meshlets, copyright, generator);
  }

  method WriteTables(w: Writer, b: ModelBase)
    modifies w
    ensures w.bytes == old(w.bytes) + TablesBytes(b)
  {
    var c := CountsOf(b);
    ghost var w0 := w.bytes;
    var name := b.name[..c.name];
    w.WriteRaw(name);
    WriteTextures(w, b.textures, c.textures);
    ghost var e1 := EncodeMany(TextureBytes, b.textures[..c.textures]);
    Regroup(w0, name, e1);
    WriteSamplers(w, b.samplers, c.samplers);
    ghost var e2 := EncodeMany(SamplerBytes, b.samplers[..c.samplers]);
    Regroup(w0, name + e1, e2);
    WriteMaterials(w, b.materials, c.materials);
    ghost var e3 := EncodeMany(MaterialBytes, b.materials[..c.materials]);
    Regroup(w0, name + e1 + e2, e3);
    WriteMeshes(w, b.meshes, c.meshes);
    ghost var e4 := EncodeMany(MeshBytes, b.meshes[..c.meshes]);
    Regroup(w0, name + e1 + e2 + e3, e4);
    WriteMeshNodes(w, b.meshNodes, c.meshNodes);
    ghost var e5 := EncodeMany(MeshHierarchyBytes, b.meshNodes[..c.meshNodes]);
    Regroup(w0, name + e1 + e2 + e3 + e4, e5);
  }

  method WritePools(w: Writer, b: ModelBase)
    modifies w
    ensures w.bytes == old(w.bytes) + PoolsBytes(b)
  {
    var c := CountsOf(b);
    ghost var w0 := w.bytes;
    ghost var vs, ts := WordsBytes(b.meshletVertices[..c.meshletVertices]), b.meshletTriangles[..c.meshletTriangles];
    w.WriteWords(b.meshletVertices[..c.meshletVertices]);
    w.WriteRaw(b.meshletTriangles[..c.meshletTriangles]);
    Regroup(w0, vs, ts);
    WriteMeshlets(w, b.meshlets, c.meshlets);
    Regroup(w0, vs + ts, EncodeMany(MeshletBytes, b.meshlets[..c.meshlets]));
  }

  method WriteTrailer(w: Writer, b: ModelBase)
    modifies w
    ensures w.bytes == old(w.bytes) + TrailerBytes(b)
  {
    var c := CountsOf(b);
    WriteSphere(w, b.bounds);
    w.WriteRaw(b.copyright[..c.copyright]);
    w.WriteRaw(b.generator[..c.generator]);
  }

  /** writeGenericModelToStream. */
  method WriteGenericModel(w: Writer, b: ModelBase)
    modifies w
    ensures w.bytes == old(w.bytes) + BaseBytes(b)
  {
    ghost var w0 := w.bytes;
    ghost var c, t, p := CountsBytes(CountsOf(b)), TablesBytes(b), PoolsBytes(b);
    WriteCounts(w, CountsOf(b));
    WriteTables(w, b);
    Regroup(w0, c, t);
    WritePools(w, b);
    Regroup(w0, c + t, p);
    WriteTrailer(w, b);
    Regroup(w0, c + t + p, TrailerBytes(b));
  }

  /** readGenericModelFromStream into a freshly constructed model. */
  method ReadGenericModel(r: Reader) returns (b: ModelBase)
    modifies r
    ensures (b, r.State()) == ParseBase(old(r.State()))
  {
    ghost var s0 := r.State();
    var c := ReadCounts(r);
    ghost var s1 := r.State();
    var name := r.ReadRaw(c.name);
    var textures := ReadTextures(r, c.textures);
    var samplers := ReadSamplers(r, c.samplers);
    var materials := ReadMaterials(r, c.materials);
    var meshes := ReadMeshes(r, c.meshes);
    var nodes := ReadMeshNodes(r, c.meshNodes);
    assert ((name, textures, samplers, materials, meshes, nodes), r.State()) == ParseTables(c, s1);
    ghost var s2 := r.State();
    var vertices := r.ReadWords(c.meshletVertices);
    var triangles := r.ReadRaw(c.meshletTriangles);
    var meshlets := ReadMeshlets(r, c.meshlets);
    assert ((vertices, triangles, meshlets), r.State()) == ParsePools(c, s2);
    ghost var s3 := r.State();
    var bounds := ReadSphere(r);
    var copyright := r.ReadRaw(c.copyright);
    var generator := r.ReadRaw(c.generator);
    assert ((bounds, copyright, generator), r.State()) == ParseTrailer(c, s3);
    b := ModelBase(name, textures, samplers, materials, meshes, nodes, vertices, triangles,
                   meshlets, bounds, copyright, generator, 0, 0);
  }

  // ---------------------------------------------------------------- the two kinds

  /** operator<<(ostream, StaticModel). */
  method WriteStaticModel(w: Writer, s: StaticModel)
    modifies w
    ensures w.bytes == old(w.bytes) + StaticBytes(s)
  {
    ghost var w0 := w.bytes;
    WriteGenericModel(w, s.base);
    var vertexCount := Len32(|s.vertices|);
    w.WriteU32(vertexCount);
    Regroup(w0, BaseBytes(s.base), LE32(vertexCount));
    WriteVertices(w, s.vertices, vertexCount);
    Regroup(w0, BaseBytes(s.base) + LE32(vertexCount), EncodeMany(VertexBytes, s.vertices[..vertexCount]));
  }

  /** operator>>(istream, StaticModel). */
  method ReadStaticModel(r: Reader) returns (s: StaticModel)
    modifies r
    ensures (s, r.State()) == ParseStatic(old(r.State()))
  {
    var b := ReadGenericModel(r);
    var vertexCount := r.ReadU32();
    var vertices := ReadVertices(r, vertexCount);
    s := StaticModel(b, vertices);
  }

  method WriteSkinnedRuns(w: Writer, k: SkinnedModel)
    modifies w
    ensures w.bytes == old(w.bytes) + SkinnedRunsBytes(k)
  {
    ghost var w0 := w.bytes;
    var vertexCount := Len32(|k.vertices|);
    var bonesCount := Len32(|k.bones|);
    ghost var n, m := LE32(vertexCount), LE32(bonesCount);
    w.WriteU32(vertexCount);
    w.WriteU32(bonesCount);
    Regroup(w0, n, m);
    WriteWeightedVertices(w, k.vertices, vertexCount);
    ghost var ev := EncodeMany(WeightedVertexBytes, k.vertices[..vertexCount]);
    Regroup(w0, n + m, ev);
    WriteBones(w, k.bones, bonesCount);
    Regroup(w0, n + m + ev, EncodeMany(BoneBytes, k.bones[..bonesCount]));
  }

  /** operator<<(ostream, SkinnedModel): the generic part, both counts, then
      the weighted vertices and the bones. */
  method WriteSkinnedModel(w: Writer, k: SkinnedModel)
    modifies w
    ensures w.bytes == old(w.bytes) + SkinnedBytes(k)
  {
    ghost var w0 := w.bytes;
    WriteGenericModel(w, k.base);
    WriteSkinnedRuns(w, k);
    Regroup(w0, BaseBytes(k.base), SkinnedRunsBytes(k));
  }

  /** operator>>(istream, SkinnedModel). */
  method ReadSkinnedModel(r: Reader) returns (k: SkinnedModel)
    modifies r
    ensures (k, r.State()) == ParseSkinned(old(r.State()))
  {
    var b := ReadGenericModel(r);
    var vertexCount := r.ReadU32();
    var bonesCount := r.ReadU32();
    var vertices := ReadWeightedVertices(r, vertexCount);
    var bones := ReadBones(r, bonesCount);
    k := SkinnedModel(b, vertices, bones);
  }
}
