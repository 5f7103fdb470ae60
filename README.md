# CXMF container codec in Dafny

CXMF is a binary container for 3D models. A file is:
- a 20-byte header: magic `CXMF`, packed version, compressed size, uncompressed ("base") size, flags;
- one kind byte: 0 for a static model, 1 for a skinned one;
- a zlib-compressed payload.

The payload is a byte-exact, sequential serialisation of the model:
- first a block of eleven `u32` counts;
- then the name, textures, samplers, materials, meshes and hierarchy nodes;
- then the two flat pools (meshlet vertex indices and meshlet triangle bytes);
- then meshlets, the bounding sphere, copyright and generator;
- finally the static or skinned trailing records: vertices, or vertices and bones.

This project models that codec and the code around it:
- the entity and model codecs;
- the header and version packing;
- the load pipeline (`LoadFromMemory`, `LoadFromFile`) and the save pipeline (`SaveToStream`, the file-name part of `SaveToFile`);
- the kind-checked casts;
- the offset arithmetic of the importer (`makeCXMFGeneral`, `getSamplerIndex`, the bone-slot fill, `aligned_size`, the vertex limits).

Modules, one per file:
- `Wire` (wire.dfy): fixed-width integers, little-endian words, and the `std::istream` state as `Input(rest, good)`.
  - A short read pads with zeros and clears `good`.
  - Generic runs of records are `ParseMany`/`EncodeMany`.
  - `Writer` and `Reader` are classes standing for the `std::stringstream` the codec writes into and reads from.
- `Types` (types.dfy): the entity records, enum codes, the `INVALID_INDEX` sentinel and its `Has*` accessors, `Model` with its kind, and the casts.
- `EntityCodec` (entity_codec.dfy): each entity's byte image (`XBytes`), its decoder (`ParseX`), the round-trip lemma, and the imperative `WriteX`/`ReadX` methods over `Writer`/`Reader`.
- `ModelCodec` (model_codec.dfy): the base model, static and skinned payloads, their round trips and byte counts, and the loop-based writers and readers.
- `Header` (header.dfy): `MAGIC`, the 20-byte header, `make_version`/`DecodeVersion` as 32-bit arithmetic.
- `Container` (container.dfy): the load chain of checks, the save chunks, the sink that receives them, and the save/load round trip.
- `Files` (files.dfy): path trimming, extension dispatch and the saved file name.
- `Importer` (importer.dfy): the importer's index arithmetic with the scene parser abstracted away.

Byte order is little-endian. Floats are opaque 32-bit words: the codec copies them and never computes with them.

zlib is a parameter `Compressor` holding a `deflate` and an `inflate` function. Where a proof needs inflate to undo deflate, that property `Inverse(c)` is a precondition. The library version (the build-time `CXMF_VERSION_MAJOR/MINOR/PATCH`) is a parameter `Library`.

## Model

| member | source | states |
|---|---|---|
| Wire.Len32 | src/CXMF.cpp:98 | `static_cast<uint32_t>` of a size: the size itself below 2^32, never larger |
| Wire.LE32 | src/CXMF.cpp:43-44 | a `u32` occupies four bytes and `FromLE32` reads it back |
| Wire.LE32OfFromLE32 | src/CXMF.cpp:43-44 | every 4-byte block is the image of exactly one `u32` |
| Wire.WordsRoundTrip | src/CXMF.cpp:52-55 | float words written as raw 4-byte blocks decode to the same words |
| Wire.ParseRaw | src/CXMF.cpp:44 | `stream.read` of n bytes yields n bytes; the stream stays good exactly when n bytes were available, and then exactly those are consumed |
| Wire.ParseWords | src/CXMF.cpp:59-63 | reading k float words always yields k words |
| Wire.U32RoundTrip | src/CXMF.cpp:43-44 | a `u32` written then read comes back, and the rest of the stream is untouched |
| Wire.RawRoundTrip | src/CXMF.cpp:43-44 | raw bytes written then read come back, and the rest is untouched |
| Wire.WordsParseRoundTrip | src/CXMF.cpp:52-63 | a block of float words written then read comes back |
| Wire.I8Byte | src/CXMF.cpp:123-127 | a one-byte enum code decodes to the same `int8` |
| Wire.BoolByte | src/CXMF.cpp:161-162 | a bool written as one byte decodes to the same bool |
| Wire.I8RoundTrip | src/CXMF.cpp:123-140 | an enum byte written then read comes back |
| Wire.BoolRoundTrip | src/CXMF.cpp:161-180 | a bool byte written then read comes back |
| Wire.StringBytes | src/CXMF.cpp:96-101 | a string is written as its length truncated to `u32`, little-endian, then that many of its bytes and no terminator |
| Wire.ParseString | src/CXMF.cpp:104-109 | a string read in full consumed exactly its own image; a failed stream stays failed |
| Wire.StringRoundTrip | src/CXMF.cpp:96-112 | a string written as a `u32` length plus raw bytes, with no terminator, reads back as the same string when shorter than 2^32 |
| Wire.ParseMany | src/CXMF.cpp:324-333 | reading n records always yields n records |
| Wire.ManyRoundTrip | src/CXMF.cpp:324-389 | a run of records written one after the other reads back when each record round-trips |
| Wire.AppendToRun | src/CXMF.cpp:324-333 | writing record i after records 0..i-1 gives the image of records 0..i |
| Wire.ManyKeepsFailure | src/CXMF.cpp:380-389 | once the stream has failed, reading more records leaves it failed |
| Wire.ManyConsumed | src/CXMF.cpp:380-393 | a successful read of a run consumes as many bytes as the image of the records read has |
| Wire.Writer.constructor | src/CXMF.cpp:1854 | a fresh output stream holds no bytes |
| Wire.Writer.WriteRaw | src/CXMF.cpp:43 | appends exactly the given bytes |
| Wire.Writer.WriteU32 | src/CXMF.cpp:43 | appends the little-endian image of the word |
| Wire.Writer.WriteWords | src/CXMF.cpp:52-55 | appends the 4-byte images of the words, in order |
| Wire.Writer.WriteI8 | src/CXMF.cpp:123-127 | appends the enum's one-byte code |
| Wire.Writer.WriteBool | src/CXMF.cpp:161-162 | appends 0 or 1 |
| Wire.Reader.constructor | src/CXMF.cpp:1753-1754 | an input stream over the content starts good at its first byte |
| Wire.Reader.ReadRaw | src/CXMF.cpp:44 | advances the stream as `ParseRaw` does |
| Wire.Reader.ReadU32 | src/CXMF.cpp:44 | advances the stream as `ParseU32` does |
| Wire.Reader.ReadWords | src/CXMF.cpp:59-63 | advances the stream as `ParseWords` does and yields k words |
| Wire.Reader.ReadI8 | src/CXMF.cpp:136-140 | advances the stream as `ParseI8` does |
| Wire.Reader.ReadBool | src/CXMF.cpp:179-180 | advances the stream as `ParseBool` does |
| Types.DefaultMat4x4 | include/CXMF.hpp:24-30 | the default matrix is the column-major identity: entries 0, 5, 10 and 15 are 1.0f, every other entry is 0.0f |
| Types.FilterOf | include/CXMF.hpp:86-90 | Filter codes are NEAREST=0 and LINEAR=1; no other byte names a filter |
| Types.MipmapModeOf | include/CXMF.hpp:92-97 | MipmapMode codes are NONE=-1, NEAREST=0 and LINEAR=1 |
| Types.AddressModeOf | include/CXMF.hpp:99-104 | AddressMode codes are REPEAT=0, MIRRORED_REPEAT=1 and CLAMP_TO_EDGE=2 |
| Types.AlphaModeOf | include/CXMF.hpp:160-165 | AlphaMode codes are OPAQUE=0, MASK=1 and BLEND=2 |
| Types.SentinelAccessors | include/CXMF.hpp:147-230 | `HasSampler`, `HasTexture`, `HasMaterial` and both `HasParent`s hold exactly when the index differs from 0xFFFFFFFF; `HasPath` holds exactly when the path is non-empty |
| Types.ModelTypeOf | include/CXMF.hpp:235-239 | the kind tag is STATIC=0 or SKINNED=1; every other byte names no kind |
| Types.Model.GetType | include/CXMF.hpp:244-283 | the kind is STATIC exactly for a static model and SKINNED exactly for a skinned one |
| Types.Model.WithFlagsVersion | src/CXMF.cpp:1769-1773 | overwriting flags and version keeps the kind, the vertices, the bones and every other base field |
| Types.StaticModelCast | src/CXMF.cpp:1970-1982 | the cast succeeds exactly when the kind is STATIC, and then yields that model |
| Types.SkinnedModelCast | src/CXMF.cpp:1984-1996 | the cast succeeds exactly when the kind is SKINNED, and then yields that model |
| EntityCodec.ParseVertex | src/CXMF.cpp:58-65 | a failed stream stays failed; a good read consumes as many bytes as the vertex's image has |
| EntityCodec.ParseWeightedVertex | src/CXMF.cpp:81-90 | the same, for a weighted vertex |
| EntityCodec.ParseTexture | src/CXMF.cpp:104-112 | the same, for a texture |
| EntityCodec.ParseSampler | src/CXMF.cpp:130-142 | the same, for a sampler |
| EntityCodec.ParseMaterial | src/CXMF.cpp:165-182 | the same, for a material |
| EntityCodec.ParseMeshlet | src/CXMF.cpp:198-207 | the same, for a meshlet |
| EntityCodec.ParseMesh | src/CXMF.cpp:227-241 | the same, for a mesh |
| EntityCodec.ParseMeshHierarchy | src/CXMF.cpp:257-267 | the same, for a hierarchy node |
| EntityCodec.ParseBone | src/CXMF.cpp:283-293 | the same, for a bone |
| EntityCodec.ParseSphere | src/CXMF.cpp:394-395 | the same, for the bounding sphere |
| EntityCodec.SphereRoundTrip | src/CXMF.cpp:338-339 | the bounding sphere (centre and radius) reads back as written |
| EntityCodec.VertexRoundTrip | src/CXMF.cpp:50-65 | position, normal, texture coordinates and tangent read back as written, in that wire order |
| EntityCodec.WeightedVertexRoundTrip | src/CXMF.cpp:71-90 | the vertex fields, then four bone IDs and four weights, read back |
| EntityCodec.TextureRoundTrip | src/CXMF.cpp:96-112 | path and sampler index, including 0xFFFFFFFF, read back |
| EntityCodec.SamplerRoundTrip | src/CXMF.cpp:118-142 | name, the five one-byte enum codes and the index read back |
| EntityCodec.MaterialBytesFields | src/CXMF.cpp:148-163 | the material's image is its fields in declaration order |
| EntityCodec.MaterialRoundTrip | src/CXMF.cpp:148-182 | name, base colour, roughness, metallic and occlusion factors, emissive factor, texture index (including 0xFFFFFFFF), alpha mode, cutoff and the double-sided and shadeless flags read back |
| EntityCodec.MeshletRoundTrip | src/CXMF.cpp:188-207 | bounds, then vertexOffset, triangleOffset, vertexCount and triangleCount, in that wire order, read back |
| EntityCodec.MeshRoundTrip | src/CXMF.cpp:213-241 | name, bounds, vertex offset and count, meshlet offset and count, and material index read back |
| EntityCodec.MeshHierarchyRoundTrip | src/CXMF.cpp:247-267 | name, local transform, the single `u32` mesh index and the parent index read back |
| EntityCodec.BoneRoundTrip | src/CXMF.cpp:273-293 | name, parent index and both matrices read back |
| EntityCodec.WriteSphere | src/CXMF.cpp:338-339 | appends exactly `SphereBytes` |
| EntityCodec.WriteVertex | src/CXMF.cpp:50-56 | appends exactly `VertexBytes` |
| EntityCodec.WriteWeightedVertex | src/CXMF.cpp:71-80 | appends exactly `WeightedVertexBytes` |
| EntityCodec.WriteTexture | src/CXMF.cpp:96-103 | appends exactly `TextureBytes` |
| EntityCodec.WriteSampler | src/CXMF.cpp:118-129 | appends exactly `SamplerBytes` |
| EntityCodec.WriteMaterial | src/CXMF.cpp:148-164 | appends exactly `MaterialBytes` |
| EntityCodec.WriteMaterialFactors | src/CXMF.cpp:150-156 | appends the name, base colour, roughness, metallic and occlusion part of the material image |
| EntityCodec.WriteMaterialModes | src/CXMF.cpp:157-162 | appends the emissive, texture-index, alpha-mode, cutoff and flag part |
| EntityCodec.WriteMeshlet | src/CXMF.cpp:188-197 | appends exactly `MeshletBytes` |
| EntityCodec.WriteMesh | src/CXMF.cpp:213-226 | appends exactly `MeshBytes` |
| EntityCodec.WriteMeshHierarchy | src/CXMF.cpp:247-256 | appends exactly `MeshHierarchyBytes` |
| EntityCodec.WriteBone | src/CXMF.cpp:273-282 | appends exactly `BoneBytes` |
| EntityCodec.ReadSphere | src/CXMF.cpp:394-395 | advances the stream as `ParseSphere` does |
| EntityCodec.ReadVertex | src/CXMF.cpp:58-65 | advances the stream as `ParseVertex` does |
| EntityCodec.ReadWeightedVertex | src/CXMF.cpp:81-90 | advances the stream as `ParseWeightedVertex` does |
| EntityCodec.ReadTexture | src/CXMF.cpp:104-112 | advances the stream as `ParseTexture` does |
| EntityCodec.ReadSampler | src/CXMF.cpp:130-142 | advances the stream as `ParseSampler` does |
| EntityCodec.ReadMaterial | src/CXMF.cpp:165-182 | advances the stream as `ParseMaterial` does |
| EntityCodec.ReadMeshlet | src/CXMF.cpp:198-207 | advances the stream as `ParseMeshlet` does |
| EntityCodec.ReadMesh | src/CXMF.cpp:227-241 | advances the stream as `ParseMesh` does |
| EntityCodec.ReadMeshHierarchy | src/CXMF.cpp:257-267 | advances the stream as `ParseMeshHierarchy` does |
| EntityCodec.ReadBone | src/CXMF.cpp:283-293 | advances the stream as `ParseBone` does |
| ModelCodec.CountsRoundTrip | src/CXMF.cpp:301-367 | the eleven `u32` counts read back in the order written |
| ModelCodec.ParseBase | src/CXMF.cpp:344-398 | a decoded base model has flags and version 0, and a failed stream stays failed |
| ModelCodec.ParseStatic | src/CXMF.cpp:414-424 | a decoded static model has flags and version 0, and a failed stream stays failed |
| ModelCodec.ParseSkinnedRuns | src/CXMF.cpp:448-457 | reading the vertex and bone runs leaves a failed stream failed |
| ModelCodec.ParseSkinned | src/CXMF.cpp:444-459 | a decoded skinned model has flags and version 0, and a failed stream stays failed |
| ModelCodec.ParseModel | src/CXMF.cpp:1756-1767 | the decoded model's kind is the one the tag selected, never one taken from the content; its flags and version are 0 |
| ModelCodec.TexturesRoundTrip | src/CXMF.cpp:324-381 | the texture table reads back |
| ModelCodec.SamplersRoundTrip | src/CXMF.cpp:326-383 | the sampler table reads back |
| ModelCodec.MaterialsRoundTrip | src/CXMF.cpp:328-385 | the material table reads back |
| ModelCodec.MeshesRoundTrip | src/CXMF.cpp:330-387 | the mesh table reads back |
| ModelCodec.MeshNodesRoundTrip | src/CXMF.cpp:332-389 | the hierarchy-node table reads back |
| ModelCodec.MeshletsRoundTrip | src/CXMF.cpp:336-393 | the meshlet table reads back |
| ModelCodec.VerticesRoundTrip | src/CXMF.cpp:410-422 | the static vertex run reads back |
| ModelCodec.WeightedVerticesRoundTrip | src/CXMF.cpp:438-455 | the skinned vertex run reads back |
| ModelCodec.BonesRoundTrip | src/CXMF.cpp:440-457 | the bone run reads back |
| ModelCodec.TablesBytesFit | src/CXMF.cpp:301-333 | each table's image has the length its count announces |
| ModelCodec.TablesRoundTrip | src/CXMF.cpp:323-389 | name and the five tables read back in order |
| ModelCodec.PoolsRoundTrip | src/CXMF.cpp:334-391 | the two raw pools (4 bytes per meshlet vertex, 1 byte per triangle entry) read back |
| ModelCodec.TrailerRoundTrip | src/CXMF.cpp:336-397 | meshlets, bounds, copyright and generator read back |
| ModelCodec.BaseRoundTrip | src/CXMF.cpp:299-398 | `readGenericModelFromStream` undoes `writeGenericModelToStream` for every base model whose collections fit a `u32` count; flags and version are not part of the payload |
| ModelCodec.StaticRoundTrip | src/CXMF.cpp:404-424 | base, vertex count and vertices read back |
| ModelCodec.SkinnedRunsRoundTrip | src/CXMF.cpp:434-457 | both counts come before all vertices, then all bones, and all of it reads back |
| ModelCodec.SkinnedRoundTrip | src/CXMF.cpp:430-459 | base, both counts, vertices and bones read back |
| ModelCodec.ModelRoundTrip | src/CXMF.cpp:404-459 | whichever decoder the kind selects restores the model with flags and version zeroed |
| ModelCodec.CountsConsumed | src/CXMF.cpp:346-367 | a good read of the counts consumes 44 bytes, as many as their image has |
| ModelCodec.TablesConsumed | src/CXMF.cpp:379-389 | a good read of the tables consumes as many bytes as their image has |
| ModelCodec.PoolsConsumed | src/CXMF.cpp:390-391 | a good read of the pools consumes as many bytes as their image has |
| ModelCodec.TrailerConsumed | src/CXMF.cpp:392-397 | a good read of the trailer consumes as many bytes as its image has |
| ModelCodec.BaseBytesLength | src/CXMF.cpp:299-342 | the length of the base image is the sum of its parts' images |
| ModelCodec.BaseConsumed | src/CXMF.cpp:344-398 | a good read of a base model consumes as many bytes as its image has |
| ModelCodec.StaticBytesLength | src/CXMF.cpp:404-412 | the static image is the base, four bytes and the vertex images |
| ModelCodec.SkinnedBytesLength | src/CXMF.cpp:430-442 | the skinned image is the base, eight bytes, the vertex and the bone images |
| ModelCodec.StaticConsumed | src/CXMF.cpp:414-424 | a good read of a static model consumes as many bytes as its image has |
| ModelCodec.SkinnedRunsConsumed | src/CXMF.cpp:448-457 | a good read of the skinned runs consumes as many bytes as their image has |
| ModelCodec.SkinnedConsumed | src/CXMF.cpp:444-459 | a good read of a skinned model consumes as many bytes as its image has |
| ModelCodec.ModelConsumed | src/CXMF.cpp:1756-1767 | a decode that leaves the stream good consumed exactly the image of the model it returns |
| ModelCodec.WriteTextures | src/CXMF.cpp:324-325 | the loop writes the first n textures, in order |
| ModelCodec.WriteSamplers | src/CXMF.cpp:326-327 | the loop writes the first n samplers |
| ModelCodec.WriteMaterials | src/CXMF.cpp:328-329 | the loop writes the first n materials |
| ModelCodec.WriteMeshes | src/CXMF.cpp:330-331 | the loop writes the first n meshes |
| ModelCodec.WriteMeshNodes | src/CXMF.cpp:332-333 | the loop writes the first n hierarchy nodes |
| ModelCodec.WriteMeshlets | src/CXMF.cpp:336-337 | the loop writes the first n meshlets |
| ModelCodec.WriteVertices | src/CXMF.cpp:410-411 | the loop writes the first n static vertices |
| ModelCodec.WriteWeightedVertices | src/CXMF.cpp:438-439 | the loop writes the first n weighted vertices |
| ModelCodec.WriteBones | src/CXMF.cpp:440-441 | the loop writes the first n bones |
| ModelCodec.ReadTextures | src/CXMF.cpp:380-381 | the loop reads n textures, as `ParseMany` does |
| ModelCodec.ReadSamplers | src/CXMF.cpp:382-383 | the loop reads n samplers |
| ModelCodec.ReadMaterials | src/CXMF.cpp:384-385 | the loop reads n materials |
| ModelCodec.ReadMeshes | src/CXMF.cpp:386-387 | the loop reads n meshes |
| ModelCodec.ReadMeshNodes | src/CXMF.cpp:388-389 | the loop reads n hierarchy nodes |
| ModelCodec.ReadMeshlets | src/CXMF.cpp:392-393 | the loop reads n meshlets |
| ModelCodec.ReadVertices | src/CXMF.cpp:421-422 | the loop reads n static vertices |
| ModelCodec.ReadWeightedVertices | src/CXMF.cpp:454-455 | the loop reads n weighted vertices |
| ModelCodec.ReadBones | src/CXMF.cpp:456-457 | the loop reads n bones |
| ModelCodec.WriteCounts | src/CXMF.cpp:301-322 | appends the eleven counts, truncated to `u32`, in wire order |
| ModelCodec.WriteTableCounts | src/CXMF.cpp:301-317 | appends the name length and the five table counts |
| ModelCodec.WritePoolCounts | src/CXMF.cpp:307-322 | appends the pool, meshlet, copyright and generator counts |
| ModelCodec.ReadCounts | src/CXMF.cpp:346-367 | advances the stream as `ParseCounts` does |
| ModelCodec.WriteTables | src/CXMF.cpp:323-333 | appends the name and the five tables |
| ModelCodec.WritePools | src/CXMF.cpp:334-335 | appends the two pools as raw blocks |
| ModelCodec.WriteTrailer | src/CXMF.cpp:336-341 | appends meshlets, bounds, copyright and generator |
| ModelCodec.WriteGenericModel | src/CXMF.cpp:299-342 | appends exactly `BaseBytes` |
| ModelCodec.ReadGenericModel | src/CXMF.cpp:344-398 | advances the stream as `ParseBase` does |
| ModelCodec.WriteStaticModel | src/CXMF.cpp:404-412 | appends exactly `StaticBytes` |
| ModelCodec.ReadStaticModel | src/CXMF.cpp:414-424 | advances the stream as `ParseStatic` does |
| ModelCodec.WriteSkinnedRuns | src/CXMF.cpp:434-441 | appends both counts, then all vertices, then all bones |
| ModelCodec.WriteSkinnedModel | src/CXMF.cpp:430-442 | appends exactly `SkinnedBytes` |
| ModelCodec.ReadSkinnedModel | src/CXMF.cpp:444-459 | advances the stream as `ParseSkinned` does |
| Header.HeaderBytes | src/CXMF.cpp:474-481 | the header is exactly 20 bytes |
| Header.MagicSpellsCXMF | src/CXMF.cpp:469-472 | `MAGIC` 0x464D5843 is stored as the bytes `C X M F` |
| Header.HeaderRoundTrip | src/CXMF.cpp:474-481 | the five header fields read back from the first 20 bytes |
| Header.ParseHeader | src/CXMF.cpp:1683 | the header read in place from a buffer is the one whose image is the buffer's first 20 bytes |
| Header.Bits32 | src/CXMF.cpp:496-501 | the `int32` to `uint32` conversion keeps non-negative values and adds 2^32 to negative ones |
| Header.DecodeVersion | src/CXMF.cpp:508-513 | major and minor are below 256 and patch below 65536 |
| Header.MakeVersion | src/CXMF.cpp:496-501 | for parts that fit their fields, `make_version` is major·2^24 + minor·2^16 + patch: the shifted fields do not overlap |
| Header.DecodeParts | src/CXMF.cpp:508-513 | `DecodeVersion` splits a packed word back into its three parts |
| Header.GetVersion | src/CXMF.cpp:503-506 | the library's own version word decodes to its major, minor and patch whenever they fit their fields |
| Header.VersionRoundTrip | src/CXMF.cpp:496-513 | `DecodeVersion(make_version(M, m, p)) == (M, m, p)` whenever M < 256, m < 256 and p < 65536 |
| Container.InflateInto | src/CXMF.cpp:1724-1751 | inflating into a buffer of the base size succeeds exactly when zlib succeeds and its output fits; the output then fills the front of that buffer and zeros fill the rest |
| Container.ZlibLevel | src/CXMF.cpp:1827-1850 | the level maps to zlib's: NONE is 0, DEFAULT is -1, SPEED is 1 (`Z_BEST_SPEED`) and MIN_SIZE is 9 (`Z_BEST_COMPRESSION`) |
| Container.Unpack | src/CXMF.cpp:1679-1751 | an accepted container is longer than 21 bytes; its magic matches; its version is compatible; its tag names the kind; its compressed size fits the data; its content has exactly the base size; a rejection names one of the five checks or the inflate failure |
| Container.Load | src/CXMF.cpp:1679-1773 | the corrected load fails with the error the checks give, or with TruncatedContent only after every check passed; a model is produced only from an accepted container |
| Container.ReadContent | src/CXMF.cpp:1753-1773 | the model read from the content has the tag's kind and carries the header's flags and version; the only failure is TruncatedContent |
| Container.LoadAsWritten | src/CXMF.cpp:1753-1773 | the source's load produces a model exactly when the checks accept the container, and otherwise fails with the checks' error |
| Container.UnpackAccepts | src/CXMF.cpp:1679-1751 | a buffer that passes every check and inflates is accepted, whatever follows the compressed stream: its content is the inflated slice zero-padded to the base size, its kind the tag's |
| Container.LoadChecksInOrder | src/CXMF.cpp:1679-1722 | with the earlier checks passed, each check gives its own error: no data, magic, sizes, version, model type, then inflation |
| Container.UnpackIgnoresPatch | src/CXMF.cpp:1700-1707 | two containers that differ only in the version's patch number pass or fail the checks alike, with the same content |
| Container.PatchNotCompared | src/CXMF.cpp:1700-1707 | two containers that differ only in the version's patch number load alike; each model carries its own header's version |
| Container.LoadFromMemory | src/CXMF.cpp:1677-1775 | the load, stepping a byte cursor through the checks, yields exactly `Load` (the corrected decoder, see Findings) |
| Container.LoadedImplies | src/CXMF.cpp:1679-1773 | a successful load had more than 21 bytes, the magic, a version whose major and minor match the library, the kind given by the tag byte, and carries the header's flags and version |
| Container.ChunksOf | src/CXMF.cpp:1876-1927 | saving produces chunks exactly when the serialised length is below 0xFFFFFFFF and deflate succeeds. The chunks are the 20-byte header {MAGIC, version, compressed size, base size, flags}, the kind byte and the compressed payload |
| Container.Sink.constructor | include/CXMF.hpp:364-371 | a new sink has received no writes |
| Container.Sink.Write | include/CXMF.hpp:370 | each write is recorded with its outcome; the outcome is the sink's to choose |
| Container.Serialize | src/CXMF.cpp:1852-1874 | the payload written to the string stream is exactly `ModelBytes` |
| Container.WriteContainer | src/CXMF.cpp:1876-1945 | with no chunks: nothing is written and the result is failure. Otherwise: the chunks are written in order, stopping after the first failed write; success means all three succeeded |
| Container.SaveToStream | src/CXMF.cpp:1825-1946 | the same, for the chunks of the serialised model |
| Container.WithFlagsVersionRestores | src/CXMF.cpp:1769-1773 | copying the header's flags and version back restores a model whose payload zeroed them |
| Container.ModelBytesNotEmpty | src/CXMF.cpp:299-322 | every payload holds at least the 44 bytes of the counts block, so a saved base size is never 0 |
| Container.UnpackImage | src/CXMF.cpp:1677-1751 | a container built from a valid header, a kind byte and data that inflates to the content unpacks to that header, kind and content |
| Container.ContainerUnpacks | src/CXMF.cpp:1677-1751 | the chunks written by a save unpack to the saved header, kind and content |
| Container.ContainerLoads | src/CXMF.cpp:1753-1773 | the chunks load back to the model when its content decodes |
| Container.SaveLoadRoundTrip | src/CXMF.cpp:1677-1946 | loading what `SaveToStream` wrote restores the model exactly, flags and version included, when the library accepts the model's version |
| Container.SameLibraryRoundTrip | src/CXMF.cpp:1700-1707 | a model stamped with the library's own `GetVersion` always passes the version gate, so it round-trips |
| Container.LoadAgreesWithSource | src/CXMF.cpp:1753-1767 | the corrected load differs from the load as written only by refusing truncated content |
| Container.ModelBytesIgnoreFlagsVersion | src/CXMF.cpp:299-459 | flags and version are not part of the payload |
| Container.LoadedFitsContent | src/CXMF.cpp:1753-1767 | a model loaded by the corrected decoder has a payload no longer than the header's base size |
| Container.Stored | src/CXMF.cpp:1724-1751 | a store-only compressor satisfies the inverse property |
| Container.ShortContentLoadsAsWritten | src/CXMF.cpp:1753-1767 | for every compressor meeting the inverse property, the load as written accepts a container whose content is the 1 byte `[0]` and returns a model whose own image is longer; the corrected load refuses it with TruncatedContent |
| Files.TrimEnd | src/CXMF.cpp:1647-1651 | the result is a prefix of the path, does not end in whitespace, and only whitespace was removed |
| Files.TrimEndOfPadded | src/CXMF.cpp:1647-1651 | trimming a path that does not end in whitespace, plus trailing whitespace, gives back the path |
| Files.TrimEndIdempotent | src/CXMF.cpp:1647-1651 | trimming twice is trimming once |
| Files.TrimTrailingSpace | src/CXMF.cpp:1647-1651 | the `pop_back` loop computes `TrimEnd` |
| Files.LoadFile | src/CXMF.cpp:1643-1675 | a missing or blank path, and only that, fails with NoPath; a model comes only from a `.cxmf` path or a glTF path with an importer; a non-blank path fails with BadExtension exactly when it is neither `.cxmf` nor an importable glTF path, and with CannotOpen exactly when it is `.cxmf` and the file cannot be opened |
| Files.Dispatch | src/CXMF.cpp:1652-1674 | the choice by extension of a trimmed path: a model only from a `.cxmf` or importable glTF path; BadExtension exactly for any other path; CannotOpen exactly for a `.cxmf` file that cannot be opened; never NoPath |
| Files.LoadFileNative | src/CXMF.cpp:1653-1675 | a trimmed path ending in `.cxmf` loads its file's bytes through `LoadFromMemory` |
| Files.LoadFromFile | src/CXMF.cpp:1643-1675 | the method yields `LoadFile` |
| Files.LoadFileIgnoresTrailingSpace | src/CXMF.cpp:1647-1651 | trailing whitespace in the path does not change the outcome |
| Files.LoadFileRefuses | src/CXMF.cpp:1643-1675 | a null path fails; an all-whitespace path fails; a path not ending in `.cxmf` fails when there is no importer |
| Files.SaveFileName | src/CXMF.cpp:1809-1812 | the file name is `unnamed.cxmf` for an empty model name and `<name>.cxmf` otherwise |
| Files.SaveFileNameLoads | src/CXMF.cpp:1643-1663 | a saved file name is loaded as a native file |
| Files.SaveThenLoadFile | src/CXMF.cpp:1643-1823 | loading the file a save names restores the model |
| Importer.ClearLowBits | src/CXMF.cpp:524-527 | clearing the low k bits gives the largest multiple of 2^k not above the input |
| Importer.AlignedSize | src/CXMF.cpp:524-527 | `aligned_size` is a multiple of 2^k below 2^64; without wrap-around it is the least such multiple not below the size |
| Importer.VertexLimits | src/CXMF.cpp:1583-1612 | the limits are 89478485 (static, 48-byte stride) and 53687091 (skinned, 80-byte stride); below the limit, the vertex buffer's byte size fits in 32 bits |
| Importer.GetSamplerIndex | src/CXMF.cpp:736-752 | returns the first sampler agreeing on the five enum fields (the name is ignored), or `INVALID_INDEX` exactly when none does |
| Importer.FillSlot | src/CXMF.cpp:1280-1291 | slot j holds the j-th influence offered to the vertex, or keeps its old value when fewer than j+1 were offered |
| Importer.FillStep | src/CXMF.cpp:1280-1291 | one more influence fills the next free slot, if any, and changes nothing else |
| Importer.OfferWeight | src/CXMF.cpp:1280-1291 | one weight updates only its own vertex's slots and its influence counter |
| Importer.AssignBoneSlots | src/CXMF.cpp:1272-1291 | after the loops, each vertex's slots hold the first four (bone, weight) influences on it, in bone then weight order; the remaining slots are unchanged |
| Importer.BuildMeshes | src/CXMF.cpp:1485-1501 | mesh i gets its name, bounds, material, meshlet count, and a meshletOffset equal to the `u32` sum of the earlier meshes' meshlet counts; vertexOffset and vertexCount stay 0 until the second loop (`PoolMesh`) sets them |
| Importer.ShiftIndices | src/CXMF.cpp:1517-1521 | the copy adds the running vertex total to every index, modulo 2^32 |
| Importer.AppendRelocated | src/CXMF.cpp:1525-1533 | appends the mesh's meshlets with their vertex and triangle offsets moved by the pool sizes so far |
| Importer.PoolStep | src/CXMF.cpp:1506-1538 | pooling one more mesh appends its shifted indices, its triangles and its relocated meshlets |
| Importer.PoolMesh | src/CXMF.cpp:1506-1538 | one iteration of the pooling loop keeps the pooled arrays and running offsets equal to the pooled images of the meshes so far |
| Importer.MakeGeneral | src/CXMF.cpp:1471-1540 | the base model's meshes, pools and meshlets are the pooled images of the imported meshes; the result is the total vertex count modulo 2^32 |
| Importer.PooledLengths | src/CXMF.cpp:1506-1538 | each pool is as long as the sum of the meshes' contributions |
| Importer.PooledVertexAt | src/CXMF.cpp:1517-1521 | index j of mesh i's pool lands after the earlier meshes' pool entries, shifted by the earlier vertex total |
| Importer.PooledMeshletAt | src/CXMF.cpp:1525-1533 | meshlet j of mesh i lands after the earlier meshes' meshlets, with offsets shifted by the earlier pool sizes |
| Importer.MeshletRangeOfMesh | src/CXMF.cpp:1485-1533 | mesh i's meshletOffset and meshletCount select exactly its relocated meshlets in the pool |
| Importer.MeshEntryRange | src/CXMF.cpp:1485-1501 | without wrap-around, mesh i's meshletOffset is the sum of the earlier meshlet counts |

## Left out

- zlib (`inflateInit`, the `inflate` do-while loop, `deflateInit2`, `deflate`, `compressBound`): a foreign library. It is the `Compressor` parameter, and the property that inflate undoes deflate is the precondition `Inverse(c)`. The stream-end check is folded into `inflate` returning `None`.
- File and stream I/O: `load_file_content`, the directory choice and creation in `SaveToFile`, the `std::ofstream` open failure, and `DefaultOutputStream`. A file system is a function from path to optional bytes (`Files.Environment`). Only the file-name derivation of `SaveToFile` is modelled.
- `Wire.ParseRaw`: a short read copies the bytes that are left, as `istream::read` does. Where the source then leaves the rest of the destination as it was, and leaves every later destination untouched once the stream has failed, the model gives zeros. Most destinations are zero beforehand (`uint32_t n = 0`, value-initialised scalars after `resize`), so they agree. They differ for the `Mat4x4` fields of the nodes and bones that `resize` creates (src/CXMF.cpp:373, src/CXMF.cpp:453): `Mat4x4()` is the identity (include/CXMF.hpp:28-30), so after a failed read the source keeps identity matrices where the model has zeros.
- The Assimp and meshoptimizer front-end is not part of this model: the `parseAssimp*` functions, `optimizeMesh`, the log stream, and the matrix and vector converters. The importer entities are taken as given inputs (`Importer.IntermediateMesh`, `Importer.BoneWeights`).
- Float arithmetic: `BoundingBox::getSphere`, AABB accumulation and the weight normalisation after the bone-slot loop. Floats are opaque 32-bit words.
- `makeCXMFVertices`, `importModel`, and the vertex copying and bone moving in `makeCXMFStatic`/`makeCXMFSkinned`. Only their vertex-limit arithmetic is modelled.
- Importer.MakeGeneral: the first loop's running totals are `size_t` and are not wrapped at 2^64. Only the stored `u32` offsets are truncated.
- Logging (`CXMF_LOG`, `std::format` messages) and the `std::abort` in the importer. `Container.LoadError` names which check failed instead of the message.
- Memory allocation failures (`new`, `malloc`, `std::bad_alloc`) and `reserve`: the model has unbounded memory.
- The "Invalid model type!" branch of `SaveToStream` cannot happen for a `Model` value, which is always static or skinned.
- `Free` and the heap ownership of the returned model.
- Decoded bool bytes other than 0 and 1: the C++ code reads them into a `bool`, which is undefined behaviour. The model reads any non-zero byte as true.
- The header's `MeshHierarchy::worldTransform`, `meshIndices` and `MeshCount` are not serialised: the codec writes one `u32 meshIndex` and no world transform, and the model follows that wire form.
- `src/main.cpp` is not part of this model.

## Findings

| source | as written | input that shows it | evidently intended | confidence | as-written member | corrected member |
|---|---|---|---|---|---|---|
| src/CXMF.cpp:1753-1767 | after `stream >> model` the stream state is never checked, so a payload shorter than the model it announces still loads: the fields past the end keep whatever the fresh model held (zeros, or identity matrices in resized nodes and bones) | `Container.ShortContainer(v, d)`: a valid header with base size 1 and a compatible version `v`, kind byte 0, and `d`, any stream the compressor deflates the one byte `[0]` into | a load whose content ends before the model does fails | not executed | Container.ShortContentLoadsAsWritten (over Container.LoadAsWritten) | Container.LoadedFitsContent (over Container.Load, which Container.LoadFromMemory computes) |
