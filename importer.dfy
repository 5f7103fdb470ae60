/** The index arithmetic of the glTF importer, with Assimp and meshoptimizer
    left outside: the sampler lookup, the bone-slot fill of a mesh's
    vertices, the pooling of per-mesh arrays into model-wide arrays
    (makeCXMFGeneral), aligned_size and the vertex-count limits. */
module Importer {
  import opened Wire
  import opened Types
  import opened Header

  // ---------------------------------------------------------------- aligned_size

  const SIZE_T_LIMIT: nat := 0x1_0000_0000_0000_0000

  /** s & ~(2^k - 1): s with its low k bits cleared, the multiple of 2^k at or just below s. */
  function ClearLowBits(s: nat, k: nat): (r: nat)
    ensures LowBitsClear(r, k)
    ensures r <= s < r + Pow2(k)
  {
    if k == 0 then s else 2 * ClearLowBits(s / 2, k - 1)
  }

  /** aligned_size(size, 2^k) on size_t: the sum wraps at 2^64, then the low k
      bits are cleared. Only power-of-two alignments are meant. Without
      wrap-around the result is the first multiple of 2^k at or above size. */
  function AlignedSize(size: nat, k: nat): (r: nat)
    requires size < SIZE_T_LIMIT && k < 64
    ensures LowBitsClear(r, k) && r < SIZE_T_LIMIT
    ensures size + Pow2(k) - 1 < SIZE_T_LIMIT ==> size <= r < size + Pow2(k)
  {
    ClearLowBits((size + Pow2(k) - 1) % SIZE_T_LIMIT, k)
  }

  /** sizeof(Vertex): eleven floats; sizeof(WeightedVertex): nineteen 4-byte words. */
  const VERTEX_SIZE: nat := 44
  const WEIGHTED_VERTEX_SIZE: nat := 76

  lemma Pow2Of4()
    ensures Pow2(4) == 16
  {
  }

  /** maxVerticesLimit of makeCXMFStatic and makeCXMFSkinned. */
  function VertexLimit(skinned: bool): (r: u32)
    ensures r > 0
  {
    Pow2Of4();
    var stride := AlignedSize(if skinned then WEIGHTED_VERTEX_SIZE else VERTEX_SIZE, 4);
    0xFFFF_FFFF / stride
  }

  /** The limits are 0xFFFFFFFF / 48 and 0xFFFFFFFF / 80, and a vertex count
      below its limit keeps the vertex array's byte size, at the 16-byte
      aligned stride, within 32 bits. */
  lemma VertexLimits(totalVertices: nat)
    ensures VertexLimit(false) == 89478485 && VertexLimit(true) == 53687091
    ensures totalVertices < VertexLimit(false) ==> totalVertices * 48 < U32_LIMIT
    ensures totalVertices < VertexLimit(true) ==> totalVertices * 80 < U32_LIMIT
  {
    Pow2Of4();
    assert ClearLowBits(59, 4) == 16 * ClearLowBits(3, 0) == 48;
    assert ClearLowBits(91, 4) == 16 * ClearLowBits(5, 0) == 80;
  }

  // ---------------------------------------------------------------- sampler lookup

  /** Two samplers sample alike: the five enum fields agree; the name is not compared. */
  predicate SameState(a: Sampler, b: Sampler) {
    && a.magFilter == b.magFilter && a.minFilter == b.minFilter && a.mipmapMode == b.mipmapMode
    && a.addressModeU == b.addressModeU && a.addressModeV == b.addressModeV
  }

  /** ImportContext::getSamplerIndex: the first of the (u32-counted) samplers
      that samples like `s`, or INVALID_INDEX. */
  method GetSamplerIndex(samplers: seq<Sampler>, s: Sampler) returns (r: u32)
    ensures r == INVALID_INDEX <==> forall i :: 0 <= i < Len32(|samplers|) ==> !SameState(samplers[i], s)
    ensures r != INVALID_INDEX ==> r < Len32(|samplers|) && SameState(samplers[r], s)
    ensures forall i :: 0 <= i < r && i < Len32(|samplers|) ==> !SameState(samplers[i], s)
  {
    var size := Len32(|samplers|);
    for i := 0 to size
      invariant forall j :: 0 <= j < i ==> !SameState(samplers[j], s)
    {
      var v := samplers[i];
      if v.magFilter == s.magFilter && v.minFilter == s.minFilter && v.mipmapMode == s.mipmapMode
         && v.addressModeU == s.addressModeU && v.addressModeV == s.addressModeV {
        return i;
      }
    }
    return INVALID_INDEX;
  }

  // ---------------------------------------------------------------- bone slots

  datatype VertexWeight = VertexWeight(vertexId: nat, weight: F32)

  /** One bone of a mesh: its index in the model and the vertices it moves. */
  datatype BoneWeights = BoneWeights(boneIndex: u32, weights: seq<VertexWeight>)

  /** The bone part of an imported vertex. */
  datatype Slots = Slots(boneID: BoneSlots, weight: Vec4)

  /** The (bone, weight) pairs that reach vertex v through these weights, in order. */
  function InfluencesOn(ws: seq<VertexWeight>, bone: u32, v: nat): seq<(u32, F32)> {
    if ws == [] then []
    else
      var last := ws[|ws| - 1];
      InfluencesOn(ws[..|ws| - 1], bone, v) + (if last.vertexId == v then [(bone, last.weight)] else [])
  }

  /** The pairs that reach vertex v from these bones, bone after bone. */
  function AllInfluencesOn(bones: seq<BoneWeights>, v: nat): seq<(u32, F32)> {
    if bones == [] then []
    else
      var last := bones[|bones| - 1];
      AllInfluencesOn(bones[..|bones| - 1], v) + InfluencesOn(last.weights, last.boneIndex, v)
  }

  /** Slots after the influences are offered one by one: the first four fill
      slots 0 to 3 in order, the rest are dropped. */
  function Fill(init: Slots, infl: seq<(u32, F32)>): Slots {
    if infl == [] then init
    else
      var s := Fill(init, infl[..|infl| - 1]);
      var k := |infl| - 1;
      if k < 4 then Slots(s.boneID[k := infl[k].0], s.weight[k := infl[k].1]) else s
  }

  function Min4(n: nat): nat {
    if n < 4 then n else 4
  }

  /** Slot j holds the j-th influence when there is one, and its old value otherwise. */
  lemma {:induction false} FillSlot(init: Slots, infl: seq<(u32, F32)>, j: nat)
    requires j < 4
    ensures Fill(init, infl).boneID[j] == (if j < |infl| then infl[j].0 else init.boneID[j])
    ensures Fill(init, infl).weight[j] == (if j < |infl| then infl[j].1 else init.weight[j])
  {
    if infl != [] {
      var init' := infl[..|infl| - 1];
      FillSlot(init, init', j);
    }
  }

  /** Offering one more influence fills the next slot while there is one. */
  lemma FillStep(init: Slots, infl: seq<(u32, F32)>, x: (u32, F32))
    ensures var s := Fill(init, infl);
      Fill(init, infl + [x]) == if |infl| < 4 then Slots(s.boneID[|infl| := x.0], s.weight[|infl| := x.1]) else s
  {
    assert (infl + [x])[..|infl|] == infl;
  }

  /** The influences on v offered before weight w of bone b. */
  ghost function Offered(bones: seq<BoneWeights>, b: nat, w: nat, v: nat): seq<(u32, F32)>
    requires b < |bones| && w <= |bones[b].weights|
  {
    AllInfluencesOn(bones[..b], v) + InfluencesOn(bones[b].weights[..w], bones[b].boneIndex, v)
  }

  lemma OfferedStep(bones: seq<BoneWeights>, b: nat, w: nat)
    requires b < |bones| && w < |bones[b].weights|
    ensures forall v :: (Offered(bones, b, w + 1, v)
      == Offered(bones, b, w, v) + (if bones[b].weights[w].vertexId == v then [(bones[b].boneIndex, bones[b].weights[w].weight)] else []))
  {
    var ws := bones[b].weights;
    assert ws[..w + 1][..w] == ws[..w];
  }

  lemma OfferedEnds(bones: seq<BoneWeights>, b: nat)
    requires b < |bones|
    ensures forall v :: Offered(bones, b, 0, v) == AllInfluencesOn(bones[..b], v)
    ensures forall v :: Offered(bones, b, |bones[b].weights|, v) == AllInfluencesOn(bones[..b + 1], v)
  {
    assert bones[b].weights[..0] == [];
    assert bones[b].weights[..|bones[b].weights|] == bones[b].weights;
    assert bones[..b + 1][..b] == bones[..b];
  }

  /** The slots and counters after the influences offered so far: slot array
      entry v is its initial value filled with them, and counter v says how
      many slots of v are taken. */
  ghost predicate Assigned(slots: array<Slots>, influence: array<nat>, init: seq<Slots>,
                           offered: seq<seq<(u32, F32)>>)
    reads slots, influence
  {
    && slots.Length == influence.Length == |init| == |offered|
    && forall v :: 0 <= v < slots.Length ==>
         slots[v] == Fill(init[v], offered[v]) && influence[v] == Min4(|offered[v]|)
  }

  /** The influences on each of n vertices offered before weight w of bone b. */
  ghost function OfferedAll(bones: seq<BoneWeights>, b: nat, w: nat, n: nat): (r: seq<seq<(u32, F32)>>)
    requires b < |bones| && w <= |bones[b].weights|
    ensures |r| == n && forall v :: 0 <= v < n ==> r[v] == Offered(bones, b, w, v)
  {
    seq(n, v requires 0 <= v < n => Offered(bones, b, w, v))
  }

  /** The body of the weight loop: weight w of bone b takes the next free slot
      of its vertex, if there is one. */
  method OfferWeight(slots: array<Slots>, influence: array<nat>, ghost init: seq<Slots>,
                     bones: seq<BoneWeights>, b: nat, w: nat)
    requires b < |bones| && w < |bones[b].weights| && bones[b].weights[w].vertexId < slots.Length
    requires Assigned(slots, influence, init, OfferedAll(bones, b, w, slots.Length))
    modifies slots, influence
    ensures Assigned(slots, influence, init, OfferedAll(bones, b, w + 1, slots.Length))
  {
    var bone := bones[b];
    var weight := bone.weights[w];
    var t := weight.vertexId;
    OfferedStep(bones, b, w);
    ghost var seen := Offered(bones, b, w, t);
    FillStep(init[t], seen, (bone.boneIndex, weight.weight));
    assert Offered(bones, b, w + 1, t) == seen + [(bone.boneIndex, weight.weight)];
    var coord := influence[t];
    if coord < 4 {
      slots[t] := Slots(slots[t].boneID[coord := bone.boneIndex], slots[t].weight[coord := weight.weight]);
      influence[t] := coord + 1;
    }
    forall v | 0 <= v < slots.Length
      ensures slots[v] == Fill(init[v], OfferedAll(bones, b, w + 1, slots.Length)[v])
      ensures influence[v] == Min4(|OfferedAll(bones, b, w + 1, slots.Length)[v]|)
    {
      if v != t {
        assert slots[v] == old(slots[v]) && influence[v] == old(influence[v]);
        assert OfferedAll(bones, b, w + 1, slots.Length)[v] == OfferedAll(bones, b, w, slots.Length)[v];
      }
    }
  }

  /** The bone loop of parseAssimpMesh: each weight goes into the next free
      slot of its vertex, and a vertex takes no more than four. */
  method AssignBoneSlots(slots: array<Slots>, bones: seq<BoneWeights>)
    requires forall b, w :: b in bones && w in b.weights ==> w.vertexId < slots.Length
    modifies slots
    ensures forall v :: 0 <= v < slots.Length ==> slots[v] == Fill(old(slots[v]), AllInfluencesOn(bones, v))
  {
    ghost var init := slots[..];
    var influence := new nat[slots.Length](_ => 0);
    for b := 0 to |bones|
      invariant forall v :: 0 <= v < slots.Length ==>
        slots[v] == Fill(init[v], AllInfluencesOn(bones[..b], v))
        && influence[v] == Min4(|AllInfluencesOn(bones[..b], v)|)
    {
      var bone := bones[b];
      OfferedEnds(bones, b);
      for w := 0 to |bone.weights|
        invariant Assigned(slots, influence, init, OfferedAll(bones, b, w, slots.Length))
      {
        assert bone.weights[w] in bone.weights;
        OfferWeight(slots, influence, init, bones, b, w);
      }
    }
    assert bones[..|bones|] == bones;
  }

  // ---------------------------------------------------------------- pooling

  /** An imported mesh after optimisation, with its bounding sphere already computed. */
  datatype IntermediateMesh = IntermediateMesh(name: seq<u8>, bounds: BoundingSphere, materialIndex: u32,
                                               vertexCount: nat, meshletVertices: seq<u32>,
                                               meshletTriangles: seq<u8>, meshlets: seq<Meshlet>)

  /** What the importer gathered for the model. */
  datatype ImportContext = ImportContext(modelName: seq<u8>, modelBounds: BoundingSphere,
                                         copyright: seq<u8>, generator: seq<u8>,
                                         textures: seq<Texture>, samplers: seq<Sampler>,
                                         materials: seq<Material>, nodes: seq<MeshHierarchy>,
                                         meshes: seq<IntermediateMesh>)

  function VertexCountOf(m: IntermediateMesh): nat { m.vertexCount }
  function MeshletCountOf(m: IntermediateMesh): nat { |m.meshlets| }
  function PoolVertexCountOf(m: IntermediateMesh): nat { |m.meshletVertices| }
  function PoolTriangleCountOf(m: IntermediateMesh): nat { |m.meshletTriangles| }

  /** The sum of f over the meshes. */
  function Total(ms: seq<IntermediateMesh>, f: IntermediateMesh -> nat): nat {
    if ms == [] then 0 else Total(ms[..|ms| - 1], f) + f(ms[|ms| - 1])
  }

  lemma TotalStep(ms: seq<IntermediateMesh>, f: IntermediateMesh -> nat, i: nat)
    requires i < |ms|
    ensures Total(ms[..i + 1], f) == Total(ms[..i], f) + f(ms[i])
  {
    assert ms[..i + 1][..i] == ms[..i];
  }

  /** A mesh's share lies inside the total: the earlier meshes' sum plus its own
      is at most the sum over all. */
  lemma {:induction false} TotalPrefix(ms: seq<IntermediateMesh>, f: IntermediateMesh -> nat, i: nat)
    requires i < |ms|
    ensures Total(ms[..i], f) + f(ms[i]) <= Total(ms, f)
  {
    var init := ms[..|ms| - 1];
    if i < |ms| - 1 {
      assert init[..i] == ms[..i] && init[i] == ms[i];
      TotalPrefix(init, f, i);
    } else {
      assert ms[..i] == init;
    }
  }

  /** (a mod 2^32 + b mod 2^32) mod 2^32 == (a + b) mod 2^32. */
  lemma AddMod(a: nat, b: nat)
    ensures (a % U32_LIMIT + b % U32_LIMIT) % U32_LIMIT == (a + b) % U32_LIMIT
  {
    var qa, qb := a / U32_LIMIT, b / U32_LIMIT;
    assert a == qa * U32_LIMIT + a % U32_LIMIT;
    assert b == qb * U32_LIMIT + b % U32_LIMIT;
    assert a + b == (qa + qb) * U32_LIMIT + (a % U32_LIMIT + b % U32_LIMIT);
  }

  /** Adding a wrapped total to a u32 is adding the total, wrapped. */
  lemma AddWrapped(v: u32, total: nat)
    ensures (v + total % U32_LIMIT) % U32_LIMIT == (v + total) % U32_LIMIT
  {
    AddMod(v, total);
  }

  /** The pooled meshlet-vertex indices of one mesh: each shifted by the
      vertices of the meshes before it, in u32 arithmetic. */
  function Shift(vs: seq<u32>, d: u32): (r: seq<u32>)
    ensures |r| == |vs|
  {
    seq(|vs|, j requires 0 <= j < |vs| => (vs[j] + d) % U32_LIMIT)
  }

  /** One meshlet moved into the pools: its offsets shifted by the pool sizes
      of the meshes before it, in u32 arithmetic. */
  function Relocate(mt: Meshlet, vertexBase: nat, triangleBase: nat): Meshlet {
    Meshlet(mt.bounds, (vertexBase + mt.vertexOffset) % U32_LIMIT,
            (triangleBase + mt.triangleOffset) % U32_LIMIT, mt.vertexCount, mt.triangleCount)
  }

  function Relocated(mts: seq<Meshlet>, vertexBase: nat, triangleBase: nat): (r: seq<Meshlet>)
    ensures |r| == |mts|
  {
    seq(|mts|, j requires 0 <= j < |mts| => Relocate(mts[j], vertexBase, triangleBase))
  }

  function PooledVertices(ms: seq<IntermediateMesh>): seq<u32> {
    if ms == [] then []
    else
      var init := ms[..|ms| - 1];
      PooledVertices(init) + Shift(ms[|ms| - 1].meshletVertices, Total(init, VertexCountOf) % U32_LIMIT)
  }

  function PooledTriangles(ms: seq<IntermediateMesh>): seq<u8> {
    if ms == [] then [] else PooledTriangles(ms[..|ms| - 1]) + ms[|ms| - 1].meshletTriangles
  }

  function PooledMeshlets(ms: seq<IntermediateMesh>): seq<Meshlet> {
    if ms == [] then []
    else
      var init := ms[..|ms| - 1];
      PooledMeshlets(init) + Relocated(ms[|ms| - 1].meshlets, Total(init, PoolVertexCountOf) % U32_LIMIT,
                                       Total(init, PoolTriangleCountOf) % U32_LIMIT)
  }

  /** Mesh i as the first loop of makeCXMFGeneral builds it: vertex fields still 0. */
  function MeshStub(ms: seq<IntermediateMesh>, i: nat): Mesh
    requires i < |ms|
  {
    var m := ms[i];
    Mesh(m.name, m.bounds, 0, 0, Len32(Total(ms[..i], MeshletCountOf)), Len32(|m.meshlets|), m.materialIndex)
  }

  /** Mesh i as the second loop leaves it. */
  function MeshEntry(ms: seq<IntermediateMesh>, i: nat): Mesh
    requires i < |ms|
  {
    MeshStub(ms, i).(vertexOffset := Total(ms[..i], VertexCountOf) % U32_LIMIT,
                     vertexCount := Len32(ms[i].vertexCount))
  }

  /** The first loop of makeCXMFGeneral: one mesh per imported mesh, with its
      meshlet range in the pool. */
  method BuildMeshes(ms: seq<IntermediateMesh>) returns (meshes: seq<Mesh>)
    ensures |meshes| == |ms|
    ensures forall k :: 0 <= k < |ms| ==> meshes[k] == MeshStub(ms, k)
  {
    meshes := [];
    var totalMeshlets: nat := 0;
    for i := 0 to |ms|
      invariant |meshes| == i
      invariant forall k :: 0 <= k < i ==> meshes[k] == MeshStub(ms, k)
      invariant totalMeshlets == Total(ms[..i], MeshletCountOf)
    {
      var m := ms[i];
      meshes := meshes + [Mesh(m.name, m.bounds, 0, 0, Len32(totalMeshlets), Len32(|m.meshlets|), m.materialIndex)];
      TotalStep(ms, MeshletCountOf, i);
      totalMeshlets := totalMeshlets + |m.meshlets|;
    }
  }

  /** The copy of a mesh's meshlet-vertex indices, each shifted in place. */
  method ShiftIndices(vs: seq<u32>, d: u32) returns (temp: seq<u32>)
    ensures temp == Shift(vs, d)
  {
    temp := vs;
    for j := 0 to |temp|
      invariant |temp| == |vs|
      invariant forall k :: 0 <= k < j ==> temp[k] == (vs[k] + d) % U32_LIMIT
      invariant forall k :: j <= k < |temp| ==> temp[k] == vs[k]
    {
      temp := temp[j := (temp[j] + d) % U32_LIMIT];
    }
  }

  /** A mesh's meshlets appended to the pool one by one, relocated. */
  method AppendRelocated(pool: seq<Meshlet>, mts: seq<Meshlet>, vertexBase: u32, triangleBase: u32)
    returns (meshlets: seq<Meshlet>)
    ensures meshlets == pool + Relocated(mts, vertexBase, triangleBase)
  {
    meshlets := pool;
    for j := 0 to |mts|
      invariant meshlets == pool + Relocated(mts[..j], vertexBase, triangleBase)
    {
      var mt := mts[j];
      assert Relocated(mts[..j + 1], vertexBase, triangleBase)
             == Relocated(mts[..j], vertexBase, triangleBase) + [Relocate(mt, vertexBase, triangleBase)];
      meshlets := meshlets + [Meshlet(mt.bounds, (vertexBase + mt.vertexOffset) % U32_LIMIT,
                                      (triangleBase + mt.triangleOffset) % U32_LIMIT,
                                      mt.vertexCount, mt.triangleCount)];
    }
    assert mts[..|mts|] == mts;
  }

  /** Pooling one more mesh appends its share to each pool. */
  lemma PoolStep(ms: seq<IntermediateMesh>, i: nat)
    requires i < |ms|
    ensures PooledVertices(ms[..i + 1])
            == PooledVertices(ms[..i]) + Shift(ms[i].meshletVertices, Total(ms[..i], VertexCountOf) % U32_LIMIT)
    ensures PooledTriangles(ms[..i + 1]) == PooledTriangles(ms[..i]) + ms[i].meshletTriangles
    ensures PooledMeshlets(ms[..i + 1])
            == PooledMeshlets(ms[..i]) + Relocated(ms[i].meshlets, Total(ms[..i], PoolVertexCountOf) % U32_LIMIT,
                                                   Total(ms[..i], PoolTriangleCountOf) % U32_LIMIT)
  {
    assert ms[..i + 1][..i] == ms[..i];
  }

  /** A running u32 total after one more mesh. */
  lemma WrappedStep(ms: seq<IntermediateMesh>, f: IntermediateMesh -> nat, i: nat, running: u32)
    requires i < |ms| && running == Total(ms[..i], f) % U32_LIMIT
    ensures (running + Len32(f(ms[i]))) % U32_LIMIT == Total(ms[..i + 1], f) % U32_LIMIT
  {
    TotalStep(ms, f, i);
    AddMod(Total(ms[..i], f), f(ms[i]));
  }

  /** The state of the second loop of makeCXMFGeneral after i meshes. */
  ghost predicate PooledUpTo(ms: seq<IntermediateMesh>, i: nat, meshes: seq<Mesh>,
                             vertices: seq<u32>, triangles: seq<u8>, meshlets: seq<Meshlet>,
                             totalVertices: u32, verticesOffset: u32, trianglesOffset: u32)
    requires i <= |ms|
  {
    && |meshes| == |ms|
    && (forall k :: 0 <= k < i ==> meshes[k] == MeshEntry(ms, k))
    && (forall k :: i <= k < |ms| ==> meshes[k] == MeshStub(ms, k))
    && vertices == PooledVertices(ms[..i])
    && triangles == PooledTriangles(ms[..i])
    && meshlets == PooledMeshlets(ms[..i])
    && totalVertices == Total(ms[..i], VertexCountOf) % U32_LIMIT
    && verticesOffset == Total(ms[..i], PoolVertexCountOf) % U32_LIMIT
    && trianglesOffset == Total(ms[..i], PoolTriangleCountOf) % U32_LIMIT
  }

  /** One turn of the second loop keeps its state in step with the pools. */
  lemma PoolMeshStep(ms: seq<IntermediateMesh>, i: nat, meshes: seq<Mesh>,
                     vertices: seq<u32>, triangles: seq<u8>, meshlets: seq<Meshlet>,
                     totalVertices: u32, verticesOffset: u32, trianglesOffset: u32)
    requires i < |ms|
    requires PooledUpTo(ms, i, meshes, vertices, triangles, meshlets, totalVertices, verticesOffset, trianglesOffset)
    ensures PooledUpTo(ms, i + 1,
                       meshes[i := meshes[i].(vertexOffset := totalVertices, vertexCount := Len32(ms[i].vertexCount))],
                       vertices + Shift(ms[i].meshletVertices, totalVertices),
                       triangles + ms[i].meshletTriangles,
                       meshlets + Relocated(ms[i].meshlets, verticesOffset, trianglesOffset),
                       (totalVertices + Len32(ms[i].vertexCount)) % U32_LIMIT,
                       (verticesOffset + Len32(|ms[i].meshletVertices|)) % U32_LIMIT,
                       (trianglesOffset + Len32(|ms[i].meshletTriangles|)) % U32_LIMIT)
  {
    PoolStep(ms, i);
    WrappedStep(ms, VertexCountOf, i, totalVertices);
    WrappedStep(ms, PoolVertexCountOf, i, verticesOffset);
    WrappedStep(ms, PoolTriangleCountOf, i, trianglesOffset);
  }

  /** The body of the second loop of makeCXMFGeneral: mesh i gets its vertex
      range and its arrays are appended to the pools. */
  method PoolMesh(ms: seq<IntermediateMesh>, i: nat, meshes: seq<Mesh>,
                  vertices: seq<u32>, triangles: seq<u8>, meshlets: seq<Meshlet>,
                  totalVertices: u32, verticesOffset: u32, trianglesOffset: u32)
    returns (meshes': seq<Mesh>, vertices': seq<u32>, triangles': seq<u8>, meshlets': seq<Meshlet>,
             totalVertices': u32, verticesOffset': u32, trianglesOffset': u32)
    requires i < |ms|
    requires PooledUpTo(ms, i, meshes, vertices, triangles, meshlets, totalVertices, verticesOffset, trianglesOffset)
    ensures PooledUpTo(ms, i + 1, meshes', vertices', triangles', meshlets', totalVertices', verticesOffset', trianglesOffset')
  {
    var m := ms[i];
    PoolMeshStep(ms, i, meshes, vertices, triangles, meshlets, totalVertices, verticesOffset, trianglesOffset);
    meshes' := meshes[i := meshes[i].(vertexOffset := totalVertices, vertexCount := Len32(m.vertexCount))];
    var temp := ShiftIndices(m.meshletVertices, totalVertices);
    vertices' := vertices + temp;
    triangles' := triangles + m.meshletTriangles;
    meshlets' := AppendRelocated(meshlets, m.meshlets, verticesOffset, trianglesOffset);
    totalVertices' := (totalVertices + Len32(m.vertexCount)) % U32_LIMIT;
    verticesOffset' := (verticesOffset + Len32(|m.meshletVertices|)) % U32_LIMIT;
    trianglesOffset' := (trianglesOffset + Len32(|m.meshletTriangles|)) % U32_LIMIT;
  }

  /** makeCXMFGeneral: the generic part of the imported model and its total
      vertex count. The second loop counts meshes in a u32, so it covers the
      first Len32(|meshes|) of them. */
  method MakeGeneral(ctx: ImportContext, lib: Library) returns (b: ModelBase, totalVertices: u32)
    ensures var n := Len32(|ctx.meshes|);
      && b.name == ctx.modelName && b.bounds == ctx.modelBounds
      && b.copyright == ctx.copyright && b.generator == ctx.generator
      && b.flags == 0 && b.version == GetVersion(lib)
      && b.textures == ctx.textures && b.samplers == ctx.samplers
      && b.materials == ctx.materials && b.meshNodes == ctx.nodes
      && |b.meshes| == |ctx.meshes|
      && (forall k :: 0 <= k < n ==> b.meshes[k] == MeshEntry(ctx.meshes, k))
      && (forall k :: n <= k < |ctx.meshes| ==> b.meshes[k] == MeshStub(ctx.meshes, k))
      && b.meshletVertices == PooledVertices(ctx.meshes[..n])
      && b.meshletTriangles == PooledTriangles(ctx.meshes[..n])
      && b.meshlets == PooledMeshlets(ctx.meshes[..n])
      && totalVertices == Total(ctx.meshes[..n], VertexCountOf) % U32_LIMIT
  {
    var ms := ctx.meshes;
    var meshes := BuildMeshes(ms);
    var meshletVertices: seq<u32> := [];
    var meshletTriangles: seq<u8> := [];
    var meshlets: seq<Meshlet> := [];
    totalVertices := 0;
    var meshletVerticesOffset: u32 := 0;
    var meshletTrianglesOffset: u32 := 0;
    var meshesCount := Len32(|ms|);
    for i := 0 to meshesCount
      invariant PooledUpTo(ms, i, meshes, meshletVertices, meshletTriangles, meshlets,
                           totalVertices, meshletVerticesOffset, meshletTrianglesOffset)
    {
      meshes, meshletVertices, meshletTriangles, meshlets, totalVertices, meshletVerticesOffset, meshletTrianglesOffset
        := PoolMesh(ms, i, meshes, meshletVertices, meshletTriangles, meshlets,
                    totalVertices, meshletVerticesOffset, meshletTrianglesOffset);
    }
    b := ModelBase(ctx.modelName, ctx.textures, ctx.samplers, ctx.materials, meshes, ctx.nodes,
                   meshletVertices, meshletTriangles, meshlets, ctx.modelBounds, ctx.copyright,
                   ctx.generator, 0, GetVersion(lib));
  }

  // ---------------------------------------------------------------- pooling properties

  lemma {:induction false} PooledLengths(ms: seq<IntermediateMesh>)
    ensures |PooledVertices(ms)| == Total(ms, PoolVertexCountOf)
    ensures |PooledTriangles(ms)| == Total(ms, PoolTriangleCountOf)
    ensures |PooledMeshlets(ms)| == Total(ms, MeshletCountOf)
  {
    if ms != [] {
      PooledLengths(ms[..|ms| - 1]);
    }
  }

  /** Meshlet-vertex index j of mesh i sits after the earlier meshes' indices,
      shifted by the earlier meshes' vertex count. */
  lemma {:induction false} PooledVertexAt(ms: seq<IntermediateMesh>, i: nat, j: nat)
    requires i < |ms| && j < |ms[i].meshletVertices|
    ensures Total(ms[..i], PoolVertexCountOf) + j < |PooledVertices(ms)|
    ensures PooledVertices(ms)[Total(ms[..i], PoolVertexCountOf) + j]
            == (ms[i].meshletVertices[j] + Total(ms[..i], VertexCountOf)) % U32_LIMIT
  {
    if i < |ms| - 1 {
      var init := ms[..|ms| - 1];
      assert init[..i] == ms[..i] && init[i] == ms[i];
      PooledVertexAt(init, i, j);
      var k := Total(ms[..i], PoolVertexCountOf) + j;
      assert PooledVertices(ms) == PooledVertices(init) + Shift(ms[|ms| - 1].meshletVertices, Total(init, VertexCountOf) % U32_LIMIT);
      assert PooledVertices(ms)[k] == PooledVertices(init)[k];
    } else {
      PooledVertexAtLast(ms, j);
    }
  }

  lemma PooledVertexAtLast(ms: seq<IntermediateMesh>, j: nat)
    requires ms != [] && j < |ms[|ms| - 1].meshletVertices|
    ensures var init := ms[..|ms| - 1];
      && Total(init, PoolVertexCountOf) + j < |PooledVertices(ms)|
      && PooledVertices(ms)[Total(init, PoolVertexCountOf) + j]
         == (ms[|ms| - 1].meshletVertices[j] + Total(init, VertexCountOf)) % U32_LIMIT
  {
    var init := ms[..|ms| - 1];
    PooledLengths(init);
    AddWrapped(ms[|ms| - 1].meshletVertices[j], Total(init, VertexCountOf));
  }

  /** Meshlet j of mesh i sits after the earlier meshes' meshlets, relocated by
      the earlier meshes' pool sizes. */
  lemma {:induction false} PooledMeshletAt(ms: seq<IntermediateMesh>, i: nat, j: nat)
    requires i < |ms| && j < |ms[i].meshlets|
    ensures Total(ms[..i], MeshletCountOf) + j < |PooledMeshlets(ms)|
    ensures PooledMeshlets(ms)[Total(ms[..i], MeshletCountOf) + j]
            == Relocate(ms[i].meshlets[j], Total(ms[..i], PoolVertexCountOf) % U32_LIMIT,
                        Total(ms[..i], PoolTriangleCountOf) % U32_LIMIT)
  {
    if i < |ms| - 1 {
      var init := ms[..|ms| - 1];
      assert init[..i] == ms[..i] && init[i] == ms[i];
      PooledMeshletAt(init, i, j);
      assert PooledMeshlets(init) <= PooledMeshlets(ms);
    } else {
      PooledLengths(ms[..i]);
      assert ms[..|ms| - 1] == ms[..i];
    }
  }

  /** When the pools fit in 32 bits, the range a pooled mesh announces,
      [meshletOffset, meshletOffset + meshletCount), holds exactly its own
      meshlets, and their vertex and triangle ranges point into the pools. */
  lemma MeshletRangeOfMesh(ms: seq<IntermediateMesh>, i: nat, j: nat)
    requires i < |ms| && j < |ms[i].meshlets|
    requires Total(ms, MeshletCountOf) < U32_LIMIT
    requires Total(ms, PoolVertexCountOf) < U32_LIMIT && Total(ms, PoolTriangleCountOf) < U32_LIMIT
    ensures MeshEntry(ms, i).meshletCount == |ms[i].meshlets|
    ensures MeshEntry(ms, i).meshletOffset + j < |PooledMeshlets(ms)|
    ensures PooledMeshlets(ms)[MeshEntry(ms, i).meshletOffset + j]
            == Relocate(ms[i].meshlets[j], Total(ms[..i], PoolVertexCountOf), Total(ms[..i], PoolTriangleCountOf))
  {
    MeshEntryRange(ms, i);
    PooledMeshletNoWrap(ms, i, j);
  }

  lemma PooledMeshletNoWrap(ms: seq<IntermediateMesh>, i: nat, j: nat)
    requires i < |ms| && j < |ms[i].meshlets|
    requires Total(ms, PoolVertexCountOf) < U32_LIMIT && Total(ms, PoolTriangleCountOf) < U32_LIMIT
    ensures Total(ms[..i], MeshletCountOf) + j < |PooledMeshlets(ms)|
    ensures PooledMeshlets(ms)[Total(ms[..i], MeshletCountOf) + j]
            == Relocate(ms[i].meshlets[j], Total(ms[..i], PoolVertexCountOf), Total(ms[..i], PoolTriangleCountOf))
  {
    TotalPrefix(ms, PoolVertexCountOf, i);
    TotalPrefix(ms, PoolTriangleCountOf, i);
    var pv := Total(ms[..i], PoolVertexCountOf);
    var pt := Total(ms[..i], PoolTriangleCountOf);
    assert pv % U32_LIMIT == pv && pt % U32_LIMIT == pt;
    PooledMeshletAt(ms, i, j);
  }

  lemma MeshEntryRange(ms: seq<IntermediateMesh>, i: nat)
    requires i < |ms| && Total(ms, MeshletCountOf) < U32_LIMIT
    ensures MeshEntry(ms, i).meshletCount == |ms[i].meshlets|
    ensures MeshEntry(ms, i).meshletOffset == Total(ms[..i], MeshletCountOf)
  {
    TotalPrefix(ms, MeshletCountOf, i);
  }
}
