/** Per-entity serialisation: the operator<< / operator>> pairs. Each entity
    is a fixed-order sequence of raw fields; XBytes is what operator<< writes,
    ParseX what operator>> reads, and the methods are the two operators
    working on the stream objects. */
module EntityCodec {
  import opened Wire
  import opened Types

  // ---------------------------------------------------------------- byte images

  function SphereBytes(b: BoundingSphere): seq<u8> {
    WordsBytes(b.center) + LE32(b.radius)
  }

  function VertexBytes(v: Vertex): seq<u8> {
    WordsBytes(v.position) + WordsBytes(v.normal) + WordsBytes(v.uv) + WordsBytes(v.tangent)
  }

  function WeightedVertexBytes(v: WeightedVertex): seq<u8> {
    WordsBytes(v.position) + WordsBytes(v.normal) + WordsBytes(v.uv) + WordsBytes(v.tangent)
    + WordsBytes(v.boneID) + WordsBytes(v.weight)
  }

  function TextureBytes(t: Texture): seq<u8> {
    StringBytes(t.path) + LE32(t.samplerIndex)
  }

  function SamplerBytes(s: Sampler): seq<u8> {
    StringBytes(s.name) + [I8Byte(s.magFilter)] + [I8Byte(s.minFilter)] + [I8Byte(s.mipmapMode)]
    + [I8Byte(s.addressModeU)] + [I8Byte(s.addressModeV)]
  }

  function MaterialBytes(m: Material): seq<u8> {
    MaterialFactorBytes(m) + MaterialModeBytes(m)
  }

  /** name, base colour, roughness, metallic, ambient occlusion. */
  function MaterialFactorBytes(m: Material): seq<u8> {
    StringBytes(m.name) + WordsBytes(m.baseColorFactor) + LE32(m.roughnessFactor)
    + LE32(m.metallicFactor) + LE32(m.ambientOcclusionFactor)
  }

  /** emissive, texture index, alpha mode and cutoff, the two flags. */
  function MaterialModeBytes(m: Material): seq<u8> {
    WordsBytes(m.emissiveFactor) + LE32(m.textureIndex) + [I8Byte(m.alphaMode)]
    + LE32(m.alphaCutoff) + [BoolByte(m.doubleSided)] + [BoolByte(m.shadeless)]
  }

  /** Offsets before counts: vertexOffset, triangleOffset, vertexCount, triangleCount. */
  function MeshletBytes(m: Meshlet): seq<u8> {
    SphereBytes(m.bounds) + LE32(m.vertexOffset) + LE32(m.triangleOffset)
    + LE32(m.vertexCount) + LE32(m.triangleCount)
  }

  function MeshBytes(m: Mesh): seq<u8> {
    StringBytes(m.name) + SphereBytes(m.bounds) + LE32(m.vertexOffset) + LE32(m.vertexCount)
    + LE32(m.meshletOffset) + LE32(m.meshletCount) + LE32(m.materialIndex)
  }

  function MeshHierarchyBytes(n: MeshHierarchy): seq<u8> {
    StringBytes(n.name) + WordsBytes(n.localTransform) + LE32(n.meshIndex) + LE32(n.parentIndex)
  }

  function BoneBytes(b: Bone): seq<u8> {
    StringBytes(b.name) + WordsBytes(b.inverseBindTransform) + WordsBytes(b.offsetMatrix)
    + LE32(b.parentIndex)
  }

  // ---------------------------------------------------------------- parsers
  // Each parser keeps a failed stream failed, and when the stream is still
  // good afterwards it used up exactly as many bytes as the value it
  // returns takes when written back.

  function ParseSphere(st: Input): (r: (BoundingSphere, Input))
    ensures !st.good ==> !r.1.good
    ensures r.1.good ==> st.good && |st.rest| == |SphereBytes(r.0)| + |r.1.rest|
  {
    var (c, s1) := ParseWords(st, 3);
    var (radius, s2) := ParseU32(s1);
    (BoundingSphere(c, radius), s2)
  }

  function ParseVertex(st: Input): (r: (Vertex, Input))
    ensures !st.good ==> !r.1.good
    ensures r.1.good ==> st.good && |st.rest| == |VertexBytes(r.0)| + |r.1.rest|
  {
    var (p, s1) := ParseWords(st, 3);
    var (n, s2) := ParseWords(s1, 3);
    var (uv, s3) := ParseWords(s2, 2);
    var (t, s4) := ParseWords(s3, 3);
    (Vertex(p, n, uv, t), s4)
  }

  function ParseWeightedVertex(st: Input): (r: (WeightedVertex, Input))
    ensures !st.good ==> !r.1.good
    ensures r.1.good ==> st.good && |st.rest| == |WeightedVertexBytes(r.0)| + |r.1.rest|
  {
    var (p, s1) := ParseWords(st, 3);
    var (n, s2) := ParseWords(s1, 3);
    var (uv, s3) := ParseWords(s2, 2);
    var (t, s4) := ParseWords(s3, 3);
    var (ids, s5) := ParseWords(s4, 4);
    var (w, s6) := ParseWords(s5, 4);
    (WeightedVertex(p, n, uv, t, ids, w), s6)
  }

  function ParseTexture(st: Input): (r: (Texture, Input))
    ensures !st.good ==> !r.1.good
    ensures r.1.good ==> st.good && |st.rest| == |TextureBytes(r.0)| + |r.1.rest|
  {
    var (path, s1) := ParseString(st);
    var (sampler, s2) := ParseU32(s1);
    (Texture(path, sampler), s2)
  }

  function ParseSampler(st: Input): (r: (Sampler, Input))
    ensures !st.good ==> !r.1.good
    ensures r.1.good ==> st.good && |st.rest| == |SamplerBytes(r.0)| + |r.1.rest|
  {
    var (name, s1) := ParseString(st);
    var (mag, s2) := ParseI8(s1);
    var (min, s3) := ParseI8(s2);
    var (mip, s4) := ParseI8(s3);
    var (u, s5) := ParseI8(s4);
    var (v, s6) := ParseI8(s5);
    (Sampler(name, mag, min, mip, u, v), s6)
  }

  function ParseMaterial(st: Input): (r: (Material, Input))
    ensures !st.good ==> !r.1.good
    ensures r.1.good ==> st.good && |st.rest| == |MaterialBytes(r.0)| + |r.1.rest|
  {
    var (name, s1) := ParseString(st);
    var (base, s2) := ParseWords(s1, 4);
    var (rough, s3) := ParseU32(s2);
    var (metal, s4) := ParseU32(s3);
    var (ao, s5) := ParseU32(s4);
    var (emissive, s6) := ParseWords(s5, 3);
    var (tex, s7) := ParseU32(s6);
    var (alpha, s8) := ParseI8(s7);
    var (cutoff, s9) := ParseU32(s8);
    var (doubleSided, s10) := ParseBool(s9);
    var (shadeless, s11) := ParseBool(s10);
    (Material(name, base, rough, metal, ao, emissive, tex, alpha, cutoff, doubleSided, shadeless), s11)
  }

  function ParseMeshlet(st: Input): (r: (Meshlet, Input))
    ensures !st.good ==> !r.1.good
    ensures r.1.good ==> st.good && |st.rest| == |MeshletBytes(r.0)| + |r.1.rest|
  {
    var (bounds, s1) := ParseSphere(st);
    var (vo, s2) := ParseU32(s1);
    var (to, s3) := ParseU32(s2);
    var (vc, s4) := ParseU32(s3);
    var (tc, s5) := ParseU32(s4);
    (Meshlet(bounds, vo, to, vc, tc), s5)
  }

  function ParseMesh(st: Input): (r: (Mesh, Input))
    ensures !st.good ==> !r.1.good
    ensures r.1.good ==> st.good && |st.rest| == |MeshBytes(r.0)| + |r.1.rest|
  {
    var (name, s1) := ParseString(st);
    var (bounds, s2) := ParseSphere(s1);
    var (vo, s3) := ParseU32(s2);
    var (vc, s4) := ParseU32(s3);
    var (mo, s5) := ParseU32(s4);
    var (mc, s6) := ParseU32(s5);
    var (mat, s7) := ParseU32(s6);
    (Mesh(name, bounds, vo, vc, mo, mc, mat), s7)
  }

  function ParseMeshHierarchy(st: Input): (r: (MeshHierarchy, Input))
    ensures !st.good ==> !r.1.good
    ensures r.1.good ==> st.good && |st.rest| == |MeshHierarchyBytes(r.0)| + |r.1.rest|
  {
    var (name, s1) := ParseString(st);
    var (local, s2) := ParseWords(s1, 16);
    var (mesh, s3) := ParseU32(s2);
    var (parent, s4) := ParseU32(s3);
    (MeshHierarchy(name, local, mesh, parent), s4)
  }

  function ParseBone(st: Input): (r: (Bone, Input))
    ensures !st.good ==> !r.1.good
    ensures r.1.good ==> st.good && |st.rest| == |BoneBytes(r.0)| + |r.1.rest|
  {
    var (name, s1) := ParseString(st);
    var (inverseBind, s2) := ParseWords(s1, 16);
    var (offset, s3) := ParseWords(s2, 16);
    var (parent, s4) := ParseU32(s3);
    (Bone(name, inverseBind, offset, parent), s4)
  }

  // ---------------------------------------------------------------- round trips
  // Reading an entity back from its own bytes gives every field back,
  // sentinels included, and stops right after those bytes.

  /** Strings of the entity fit their u32 length prefix. */
  predicate NameFits(s: seq<u8>) { |s| < U32_LIMIT }

  lemma SphereRoundTrip(b: BoundingSphere, rest: seq<u8>)
    ensures ParseSphere(Input(SphereBytes(b) + rest, true)) == (b, Input(rest, true))
  {
    assert SphereBytes(b) + rest == WordsBytes(b.center) + (LE32(b.radius) + rest);
    WordsParseRoundTrip(b.center, LE32(b.radius) + rest);
    U32RoundTrip(b.radius, rest);
  }

  lemma VertexRoundTrip(v: Vertex, rest: seq<u8>)
    ensures ParseVertex(Input(VertexBytes(v) + rest, true)) == (v, Input(rest, true))
  {
    var t3 := WordsBytes(v.tangent) + rest;
    var t2 := WordsBytes(v.uv) + t3;
    var t1 := WordsBytes(v.normal) + t2;
    Regroup(WordsBytes(v.position) + WordsBytes(v.normal) + WordsBytes(v.uv), WordsBytes(v.tangent), rest);
    Regroup(WordsBytes(v.position) + WordsBytes(v.normal), WordsBytes(v.uv), t3);
    Regroup(WordsBytes(v.position), WordsBytes(v.normal), t2);
    WordsParseRoundTrip(v.position, t1);
    WordsParseRoundTrip(v.normal, t2);
    WordsParseRoundTrip(v.uv, t3);
    WordsParseRoundTrip(v.tangent, rest);
  }

  lemma WeightedVertexRoundTrip(v: WeightedVertex, rest: seq<u8>)
    ensures ParseWeightedVertex(Input(WeightedVertexBytes(v) + rest, true)) == (v, Input(rest, true))
  {
    var t5 := WordsBytes(v.weight) + rest;
    var t4 := WordsBytes(v.boneID) + t5;
    var t3 := WordsBytes(v.tangent) + t4;
    var t2 := WordsBytes(v.uv) + t3;
    var t1 := WordsBytes(v.normal) + t2;
    Regroup(WordsBytes(v.position) + WordsBytes(v.normal) + WordsBytes(v.uv) + WordsBytes(v.tangent) + WordsBytes(v.boneID), WordsBytes(v.weight), rest);
    Regroup(WordsBytes(v.position) + WordsBytes(v.normal) + WordsBytes(v.uv) + WordsBytes(v.tangent), WordsBytes(v.boneID), t5);
    Regroup(WordsBytes(v.position) + WordsBytes(v.normal) + WordsBytes(v.uv), WordsBytes(v.tangent), t4);
    Regroup(WordsBytes(v.position) + WordsBytes(v.normal), WordsBytes(v.uv), t3);
    Regroup(WordsBytes(v.position), WordsBytes(v.normal), t2);
    WordsParseRoundTrip(v.position, t1);
    WordsParseRoundTrip(v.normal, t2);
    WordsParseRoundTrip(v.uv, t3);
    WordsParseRoundTrip(v.tangent, t4);
    WordsParseRoundTrip(v.boneID, t5);
    WordsParseRoundTrip(v.weight, rest);
  }

  lemma TextureRoundTrip(t: Texture, rest: seq<u8>)
    requires NameFits(t.path)
    ensures ParseTexture(Input(TextureBytes(t) + rest, true)) == (t, Input(rest, true))
  {
    var t1 := LE32(t.samplerIndex) + rest;
    assert TextureBytes(t) + rest == StringBytes(t.path) + t1;
    StringRoundTrip(t.path, t1);
    U32RoundTrip(t.samplerIndex, rest);
  }

  lemma SamplerRoundTrip(s: Sampler, rest: seq<u8>)
    requires NameFits(s.name)
    ensures ParseSampler(Input(SamplerBytes(s) + rest, true)) == (s, Input(rest, true))
  {
    var t5 := [I8Byte(s.addressModeV)] + rest;
    var t4 := [I8Byte(s.addressModeU)] + t5;
    var t3 := [I8Byte(s.mipmapMode)] + t4;
    var t2 := [I8Byte(s.minFilter)] + t3;
    var t1 := [I8Byte(s.magFilter)] + t2;
    Regroup(StringBytes(s.name) + [I8Byte(s.magFilter)] + [I8Byte(s.minFilter)] + [I8Byte(s.mipmapMode)] + [I8Byte(s.addressModeU)], [I8Byte(s.addressModeV)], rest);
    Regroup(StringBytes(s.name) + [I8Byte(s.magFilter)] + [I8Byte(s.minFilter)] + [I8Byte(s.mipmapMode)], [I8Byte(s.addressModeU)], t5);
    Regroup(StringBytes(s.name) + [I8Byte(s.magFilter)] + [I8Byte(s.minFilter)], [I8Byte(s.mipmapMode)], t4);
    Regroup(StringBytes(s.name) + [I8Byte(s.magFilter)], [I8Byte(s.minFilter)], t3);
    Regroup(StringBytes(s.name), [I8Byte(s.magFilter)], t2);
    StringRoundTrip(s.name, t1);
    I8RoundTrip(s.magFilter, t2);
    I8RoundTrip(s.minFilter, t3);
    I8RoundTrip(s.mipmapMode, t4);
    I8RoundTrip(s.addressModeU, t5);
    I8RoundTrip(s.addressModeV, rest);
  }

  /** The material's bytes, field after field, with what follows them. */
  lemma MaterialBytesFields(m: Material, rest: seq<u8>)
    ensures MaterialBytes(m) + rest
            == StringBytes(m.name) + (WordsBytes(m.baseColorFactor) + (LE32(m.roughnessFactor)
               + (LE32(m.metallicFactor) + (LE32(m.ambientOcclusionFactor) + (WordsBytes(m.emissiveFactor)
               + (LE32(m.textureIndex) + ([I8Byte(m.alphaMode)] + (LE32(m.alphaCutoff)
               + ([BoolByte(m.doubleSided)] + ([BoolByte(m.shadeless)] + rest))))))))))
  {
    var t5 := MaterialModeBytes(m) + rest;
    assert t5 == WordsBytes(m.emissiveFactor) + (LE32(m.textureIndex) + ([I8Byte(m.alphaMode)] + (LE32(m.alphaCutoff)
                 + ([BoolByte(m.doubleSided)] + ([BoolByte(m.shadeless)] + rest)))));
    assert MaterialBytes(m) + rest == MaterialFactorBytes(m) + t5;
  }

  lemma MaterialRoundTrip(m: Material, rest: seq<u8>)
    requires NameFits(m.name)
    ensures ParseMaterial(Input(MaterialBytes(m) + rest, true)) == (m, Input(rest, true))
  {
    var t10 := [BoolByte(m.shadeless)] + rest;
    var t9 := [BoolByte(m.doubleSided)] + t10;
    var t8 := LE32(m.alphaCutoff) + t9;
    var t7 := [I8Byte(m.alphaMode)] + t8;
    var t6 := LE32(m.textureIndex) + t7;
    var t5 := WordsBytes(m.emissiveFactor) + t6;
    var t4 := LE32(m.ambientOcclusionFactor) + t5;
    var t3 := LE32(m.metallicFactor) + t4;
    var t2 := LE32(m.roughnessFactor) + t3;
    var t1 := WordsBytes(m.baseColorFactor) + t2;
    MaterialBytesFields(m, rest);
    StringRoundTrip(m.name, t1);
    WordsParseRoundTrip(m.baseColorFactor, t2);
    U32RoundTrip(m.roughnessFactor, t3);
    U32RoundTrip(m.metallicFactor, t4);
    U32RoundTrip(m.ambientOcclusionFactor, t5);
    WordsParseRoundTrip(m.emissiveFactor, t6);
    U32RoundTrip(m.textureIndex, t7);
    I8RoundTrip(m.alphaMode, t8);
    U32RoundTrip(m.alphaCutoff, t9);
    BoolRoundTrip(m.doubleSided, t10);
    BoolRoundTrip(m.shadeless, rest);
  }

  lemma MeshletRoundTrip(m: Meshlet, rest: seq<u8>)
    ensures ParseMeshlet(Input(MeshletBytes(m) + rest, true)) == (m, Input(rest, true))
  {
    var t4 := LE32(m.triangleCount) + rest;
    var t3 := LE32(m.vertexCount) + t4;
    var t2 := LE32(m.triangleOffset) + t3;
    var t1 := LE32(m.vertexOffset) + t2;
    Regroup(SphereBytes(m.bounds) + LE32(m.vertexOffset) + LE32(m.triangleOffset) + LE32(m.vertexCount), LE32(m.triangleCount), rest);
    Regroup(SphereBytes(m.bounds) + LE32(m.vertexOffset) + LE32(m.triangleOffset), LE32(m.vertexCount), t4);
    Regroup(SphereBytes(m.bounds) + LE32(m.vertexOffset), LE32(m.triangleOffset), t3);
    Regroup(SphereBytes(m.bounds), LE32(m.vertexOffset), t2);
    SphereRoundTrip(m.bounds, t1);
    U32RoundTrip(m.vertexOffset, t2);
    U32RoundTrip(m.triangleOffset, t3);
    U32RoundTrip(m.vertexCount, t4);
    U32RoundTrip(m.triangleCount, rest);
  }

  lemma MeshRoundTrip(m: Mesh, rest: seq<u8>)
    requires NameFits(m.name)
    ensures ParseMesh(Input(MeshBytes(m) + rest, true)) == (m, Input(rest, true))
  {
    var t6 := LE32(m.materialIndex) + rest;
    var t5 := LE32(m.meshletCount) + t6;
    var t4 := LE32(m.meshletOffset) + t5;
    var t3 := LE32(m.vertexCount) + t4;
    var t2 := LE32(m.vertexOffset) + t3;
    var t1 := SphereBytes(m.bounds) + t2;
    Regroup(StringBytes(m.name) + SphereBytes(m.bounds) + LE32(m.vertexOffset) + LE32(m.vertexCount) + LE32(m.meshletOffset) + LE32(m.meshletCount), LE32(m.materialIndex), rest);
    Regroup(StringBytes(m.name) + SphereBytes(m.bounds) + LE32(m.vertexOffset) + LE32(m.vertexCount) + LE32(m.meshletOffset), LE32(m.meshletCount), t6);
    Regroup(StringBytes(m.name) + SphereBytes(m.bounds) + LE32(m.vertexOffset) + LE32(m.vertexCount), LE32(m.meshletOffset), t5);
    Regroup(StringBytes(m.name) + SphereBytes(m.bounds) + LE32(m.vertexOffset), LE32(m.vertexCount), t4);
    Regroup(StringBytes(m.name) + SphereBytes(m.bounds), LE32(m.vertexOffset), t3);
    Regroup(StringBytes(m.name), SphereBytes(m.bounds), t2);
    StringRoundTrip(m.name, t1);
    SphereRoundTrip(m.bounds, t2);
    U32RoundTrip(m.vertexOffset, t3);
    U32RoundTrip(m.vertexCount, t4);
    U32RoundTrip(m.meshletOffset, t5);
    U32RoundTrip(m.meshletCount, t6);
    U32RoundTrip(m.materialIndex, rest);
  }

  lemma MeshHierarchyRoundTrip(n: MeshHierarchy, rest: seq<u8>)
    requires NameFits(n.name)
    ensures ParseMeshHierarchy(Input(MeshHierarchyBytes(n) + rest, true)) == (n, Input(rest, true))
  {
    var t3 := LE32(n.parentIndex) + rest;
    var t2 := LE32(n.meshIndex) + t3;
    var t1 := WordsBytes(n.localTransform) + t2;
    Regroup(StringBytes(n.name) + WordsBytes(n.localTransform) + LE32(n.meshIndex), LE32(n.parentIndex), rest);
    Regroup(StringBytes(n.name) + WordsBytes(n.localTransform), LE32(n.meshIndex), t3);
    Regroup(StringBytes(n.name), WordsBytes(n.localTransform), t2);
    StringRoundTrip(n.name, t1);
    WordsParseRoundTrip(n.localTransform, t2);
    U32RoundTrip(n.meshIndex, t3);
    U32RoundTrip(n.parentIndex, rest);
  }

  lemma BoneRoundTrip(b: Bone, rest: seq<u8>)
    requires NameFits(b.name)
    ensures ParseBone(Input(BoneBytes(b) + rest, true)) == (b, Input(rest, true))
  {
    var t3 := LE32(b.parentIndex) + rest;
    var t2 := WordsBytes(b.offsetMatrix) + t3;
    var t1 := WordsBytes(b.inverseBindTransform) + t2;
    Regroup(StringBytes(b.name) + WordsBytes(b.inverseBindTransform) + WordsBytes(b.offsetMatrix), LE32(b.parentIndex), rest);
    Regroup(StringBytes(b.name) + WordsBytes(b.inverseBindTransform), WordsBytes(b.offsetMatrix), t3);
    Regroup(StringBytes(b.name), WordsBytes(b.inverseBindTransform), t2);
    StringRoundTrip(b.name, t1);
    WordsParseRoundTrip(b.inverseBindTransform, t2);
    WordsParseRoundTrip(b.offsetMatrix, t3);
    U32RoundTrip(b.parentIndex, rest);
  }

  // ---------------------------------------------------------------- operator<<

  method WriteSphere(w: Writer, b: BoundingSphere)
    modifies w
    ensures w.bytes == old(w.bytes) + SphereBytes(b)
  {
    w.WriteWords(b.center);
    w.WriteU32(b.radius);
  }

  method WriteVertex(w: Writer, v: Vertex)
    modifies w
    ensures w.bytes == old(w.bytes) + VertexBytes(v)
  {
    w.WriteWords(v.position);
    w.WriteWords(v.normal);
    w.WriteWords(v.uv);
    w.WriteWords(v.tangent);
  }

  method WriteWeightedVertex(w: Writer, v: WeightedVertex)
    modifies w
    ensures w.bytes == old(w.bytes) + WeightedVertexBytes(v)
  {
    ghost var w0 := w.bytes;
    w.WriteWords(v.position);
    w.WriteWords(v.normal);
    w.WriteWords(v.uv);
    w.WriteWords(v.tangent);
    ghost var head := WordsBytes(v.position) + WordsBytes(v.normal) + WordsBytes(v.uv) + WordsBytes(v.tangent);
    assert w.bytes == w0 + head;
    w.WriteWords(v.boneID);
    w.WriteWords(v.weight);
  }

  method WriteTexture(w: Writer, t: Texture)
    modifies w
    ensures w.bytes == old(w.bytes) + TextureBytes(t)
  {
    ghost var before := w.bytes;
    var pathLen := Len32(|t.path|);
    w.WriteU32(pathLen);
    w.WriteRaw(t.path[..pathLen]);
    assert w.bytes == before + StringBytes(t.path);
    w.WriteU32(t.samplerIndex);
  }

  method WriteSampler(w: Writer, s: Sampler)
    modifies w
    ensures w.bytes == old(w.bytes) + SamplerBytes(s)
  {
    ghost var before := w.bytes;
    var nameLen := Len32(|s.name|);
    w.WriteU32(nameLen);
    w.WriteRaw(s.name[..nameLen]);
    assert w.bytes == before + StringBytes(s.name);
    w.WriteI8(s.magFilter);
    w.WriteI8(s.minFilter);
    w.WriteI8(s.mipmapMode);
    w.WriteI8(s.addressModeU);
    w.WriteI8(s.addressModeV);
  }

  method WriteMaterial(w: Writer, m: Material)
    modifies w
    ensures w.bytes == old(w.bytes) + MaterialBytes(m)
  {
    WriteMaterialFactors(w, m);
    WriteMaterialModes(w, m);
  }

  method WriteMaterialFactors(w: Writer, m: Material)
    modifies w
    ensures w.bytes == old(w.bytes) + MaterialFactorBytes(m)
  {
    ghost var before := w.bytes;
    var nameLen := Len32(|m.name|);
    w.WriteU32(nameLen);
    w.WriteRaw(m.name[..nameLen]);
    assert w.bytes == before + StringBytes(m.name);
    w.WriteWords(m.baseColorFactor);
    w.WriteU32(m.roughnessFactor);
    w.WriteU32(m.metallicFactor);
    w.WriteU32(m.ambientOcclusionFactor);
  }

  method WriteMaterialModes(w: Writer, m: Material)
    modifies w
    ensures w.bytes == old(w.bytes) + MaterialModeBytes(m)
  {
    w.WriteWords(m.emissiveFactor);
    w.WriteU32(m.textureIndex);
    w.WriteI8(m.alphaMode);
    w.WriteU32(m.alphaCutoff);
    w.WriteBool(m.doubleSided);
    w.WriteBool(m.shadeless);
  }

  method WriteMeshlet(w: Writer, m: Meshlet)
    modifies w
    ensures w.bytes == old(w.bytes) + MeshletBytes(m)
  {
    WriteSphere(w, m.bounds);
    w.WriteU32(m.vertexOffset);
    w.WriteU32(m.triangleOffset);
    w.WriteU32(m.vertexCount);
    w.WriteU32(m.triangleCount);
  }

  method WriteMesh(w: Writer, m: Mesh)
    modifies w
    ensures w.bytes == old(w.bytes) + MeshBytes(m)
  {
    ghost var w0 := w.bytes;
    ghost var before := w.bytes;
    var nameLen := Len32(|m.name|);
    w.WriteU32(nameLen);
    w.WriteRaw(m.name[..nameLen]);
    assert w.bytes == before + StringBytes(m.name);
    WriteSphere(w, m.bounds);
    ghost var head := StringBytes(m.name) + SphereBytes(m.bounds);
    assert w.bytes == w0 + head;
    w.WriteU32(m.vertexOffset);
    w.WriteU32(m.vertexCount);
    w.WriteU32(m.meshletOffset);
    w.WriteU32(m.meshletCount);
    w.WriteU32(m.materialIndex);
  }

  method WriteMeshHierarchy(w: Writer, n: MeshHierarchy)
    modifies w
    ensures w.bytes == old(w.bytes) + MeshHierarchyBytes(n)
  {
    ghost var before := w.bytes;
    var nameLen := Len32(|n.name|);
    w.WriteU32(nameLen);
    w.WriteRaw(n.name[..nameLen]);
    assert w.bytes == before + StringBytes(n.name);
    w.WriteWords(n.localTransform);
    w.WriteU32(n.meshIndex);
    w.WriteU32(n.parentIndex);
  }

  method WriteBone(w: Writer, b: Bone)
    modifies w
    ensures w.bytes == old(w.bytes) + BoneBytes(b)
  {
    ghost var before := w.bytes;
    var nameLen := Len32(|b.name|);
    w.WriteU32(nameLen);
    w.WriteRaw(b.name[..nameLen]);
    assert w.bytes == before + StringBytes(b.name);
    w.WriteWords(b.inverseBindTransform);
    w.WriteWords(b.offsetMatrix);
    w.WriteU32(b.parentIndex);
  }

  // ---------------------------------------------------------------- operator>>

  method ReadSphere(r: Reader) returns (b: BoundingSphere)
    modifies r
    ensures (b, r.State()) == ParseSphere(old(r.State()))
  {
    var c := r.ReadWords(3);
    var radius := r.ReadU32();
    b := BoundingSphere(c, radius);
  }

  method ReadVertex(r: Reader) returns (v: Vertex)
    modifies r
    ensures (v, r.State()) == ParseVertex(old(r.State()))
  {
    var p := r.ReadWords(3);
    var n := r.ReadWords(3);
    var uv := r.ReadWords(2);
    var t := r.ReadWords(3);
    v := Vertex(p, n, uv, t);
  }

  method ReadWeightedVertex(r: Reader) returns (v: WeightedVertex)
    modifies r
    ensures (v, r.State()) == ParseWeightedVertex(old(r.State()))
  {
    var p := r.ReadWords(3);
    var n := r.ReadWords(3);
    var uv := r.ReadWords(2);
    var t := r.ReadWords(3);
    var ids := r.ReadWords(4);
    var w := r.ReadWords(4);
    v := WeightedVertex(p, n, uv, t, ids, w);
  }

  method ReadTexture(r: Reader) returns (t: Texture)
    modifies r
    ensures (t, r.State()) == ParseTexture(old(r.State()))
  {
    var pathLen := r.ReadU32();
    var path := r.ReadRaw(pathLen);
    var sampler := r.ReadU32();
    t := Texture(path, sampler);
  }

  method ReadSampler(r: Reader) returns (s: Sampler)
    modifies r
    ensures (s, r.State()) == ParseSampler(old(r.State()))
  {
    var nameLen := r.ReadU32();
    var name := r.ReadRaw(nameLen);
    var mag := r.ReadI8();
    var min := r.ReadI8();
    var mip := r.ReadI8();
    var u := r.ReadI8();
    var v := r.ReadI8();
    s := Sampler(name, mag, min, mip, u, v);
  }

  method ReadMaterial(r: Reader) returns (m: Material)
    modifies r
    ensures (m, r.State()) == ParseMaterial(old(r.State()))
  {
    var nameLen := r.ReadU32();
    var name := r.ReadRaw(nameLen);
    var base := r.ReadWords(4);
    var rough := r.ReadU32();
    var metal := r.ReadU32();
    var ao := r.ReadU32();
    var emissive := r.ReadWords(3);
    var tex := r.ReadU32();
    var alpha := r.ReadI8();
    var cutoff := r.ReadU32();
    var doubleSided := r.ReadBool();
    var shadeless := r.ReadBool();
    m := Material(name, base, rough, metal, ao, emissive, tex, alpha, cutoff, doubleSided, shadeless);
  }

  method ReadMeshlet(r: Reader) returns (m: Meshlet)
    modifies r
    ensures (m, r.State()) == ParseMeshlet(old(r.State()))
  {
    var bounds := ReadSphere(r);
    var vo := r.ReadU32();
    var to := r.ReadU32();
    var vc := r.ReadU32();
    var tc := r.ReadU32();
    m := Meshlet(bounds, vo, to, vc, tc);
  }

  method ReadMesh(r: Reader) returns (m: Mesh)
    modifies r
    ensures (m, r.State()) == ParseMesh(old(r.State()))
  {
    var nameLen := r.ReadU32();
    var name := r.ReadRaw(nameLen);
    var bounds := ReadSphere(r);
    var vo := r.ReadU32();
    var vc := r.ReadU32();
    var mo := r.ReadU32();
    var mc := r.ReadU32();
    var mat := r.ReadU32();
    m := Mesh(name, bounds, vo, vc, mo, mc, mat);
  }

  method ReadMeshHierarchy(r: Reader) returns (n: MeshHierarchy)
    modifies r
    ensures (n, r.State()) == ParseMeshHierarchy(old(r.State()))
  {
    var nameLen := r.ReadU32();
    var name := r.ReadRaw(nameLen);
    var local := r.ReadWords(16);
    var mesh := r.ReadU32();
    var parent := r.ReadU32();
    n := MeshHierarchy(name, local, mesh, parent);
  }

  method ReadBone(r: Reader) returns (b: Bone)
    modifies r
    ensures (b, r.State()) == ParseBone(old(r.State()))
  {
    var nameLen := r.ReadU32();
    var name := r.ReadRaw(nameLen);
    var inverseBind := r.ReadWords(16);
    var offset := r.ReadWords(16);
    var parent := r.ReadU32();
    b := Bone(name, inverseBind, offset, parent);
  }
}
