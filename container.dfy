/** The .cxmf container: a HEADER, one model-type byte and the zlib-compressed
    model content. LoadFromMemory checks the header and decompresses and
    reads the model; SaveToStream serialises, compresses and writes it. */
module Container {
  import opened Wire
  import opened Types
  import opened ModelCodec
  import opened Header

  // ---------------------------------------------------------------- zlib

  /** zlib as the container uses it. deflate(content, level) stands for the
      whole deflateInit / deflate(Z_FINISH) / deflateEnd sequence and is None
      unless it ends in Z_STREAM_END; inflate(payload) stands for inflateInit /
      inflate until it stops / inflateEnd and is the whole decompressed stream,
      None unless it ends in Z_STREAM_END. */
  datatype Compressor = Compressor(deflate: (seq<u8>, int) -> Option<seq<u8>>,
                                   inflate: seq<u8> -> Option<seq<u8>>)

  /** What the container relies on from zlib: a compressed stream is never
      empty, fits the u32-sized output buffer, and inflates to its source. */
  ghost predicate Inverse(c: Compressor) {
    forall s, level, d :: c.deflate(s, level) == Some(d) ==> 0 < |d| < U32_LIMIT && c.inflate(d) == Some(s)
  }

  /** Inflating into a buffer of exactly `size` zero bytes: a stream that
      needs more room fails, a shorter one leaves the tail zero. */
  function InflateInto(c: Compressor, payload: seq<u8>, size: nat): (r: Option<seq<u8>>)
    ensures r.Some? ==> |r.value| == size
    ensures r.Some? <==> c.inflate(payload).Some? && |c.inflate(payload).value| <= size
    ensures r.Some? ==> r.value[..|c.inflate(payload).value|] == c.inflate(payload).value
    ensures r.Some? ==> r.value[|c.inflate(payload).value|..] == Zeros(size - |c.inflate(payload).value|)
  {
    match c.inflate(payload)
    case None => None
    case Some(out) => if |out| <= size then Some(out + Zeros(size - |out|)) else None
  }

  datatype CompressionLevel = NONE | DEFAULT | SPEED | MIN_SIZE

  /** Z_NO_COMPRESSION, Z_DEFAULT_COMPRESSION, Z_BEST_SPEED, Z_BEST_COMPRESSION. */
  function ZlibLevel(level: CompressionLevel): (z: int)
    ensures z == -1 || 0 <= z <= 9
    ensures z == 0 <==> level == NONE
    ensures z == -1 <==> level == DEFAULT
    ensures z == 1 <==> level == SPEED
    ensures z == 9 <==> level == MIN_SIZE
  {
    match level
    case NONE => 0
    case SPEED => 1
    case MIN_SIZE => 9
    case DEFAULT => -1
  }

  // ---------------------------------------------------------------- loading

  /** Why LoadFromMemory / LoadFromFile gave no model (each matches the
      message logged, or the silent return). */
  datatype LoadError =
    | NoData            // null buffer, or no more than a header and a type byte
    | BadMagic          // "Invalid model magic!"
    | BadSize           // "Invalid model size!"
    | BadVersion        // "Incorrect model version"
    | BadType           // "Invalid model type!"
    | InflateFailed     // inflateInit or inflate did not end in Z_STREAM_END
    | TruncatedContent  // the decompressed content ends before the model does
    | NoPath            // null path, or nothing left after trimming
    | CannotOpen        // "Can't open"
    | BadExtension      // "Invalid input file extension name"
    | ImportFailed      // the glTF importer returned no model

  datatype LoadResult = Loaded(model: Model) | Failed(error: LoadError)

  /** What passed every check before the model is read. */
  datatype Payload = Payload(header: Header, kind: ModelType, content: seq<u8>)

  datatype Unpacked = Unpacked(payload: Payload) | Rejected(error: LoadError)

  /** Major and minor must be the library's; the patch number is not compared. */
  predicate Compatible(v: Version, lib: Library) {
    v.major == lib.major && v.minor == lib.minor
  }

  const PAYLOAD_OFFSET: nat := HEADER_SIZE + 1

  /** The checks of LoadFromMemory, in order, and the decompression. */
  function Unpack(data: Option<seq<u8>>, lib: Library, c: Compressor): (r: Unpacked)
    ensures r.Unpacked? ==> data.Some? && |data.value| > PAYLOAD_OFFSET
    ensures r.Unpacked? ==> r.payload.header == ParseHeader(data.value) && r.payload.header.magic == MAGIC
    ensures r.Unpacked? ==> Compatible(DecodeVersion(r.payload.header.version), lib)
    ensures r.Unpacked? ==> r.payload.kind.Code() == data.value[HEADER_SIZE]
    ensures r.Unpacked? ==> 0 < r.payload.header.compressedSize <= |data.value| - PAYLOAD_OFFSET
    ensures r.Unpacked? ==> 0 < |r.payload.content| == r.payload.header.baseSize
    ensures r.Rejected? ==> r.error in {NoData, BadMagic, BadSize, BadVersion, BadType, InflateFailed}
  {
    if data.None? || |data.value| <= PAYLOAD_OFFSET then Rejected(NoData)
    else
      var d := data.value;
      var h := ParseHeader(d);
      if h.magic != MAGIC then Rejected(BadMagic)
      else if h.baseSize == 0 || h.compressedSize == 0 || h.compressedSize > |d| - PAYLOAD_OFFSET then
        Rejected(BadSize)
      else if !Compatible(DecodeVersion(h.version), lib) then Rejected(BadVersion)
      else match ModelTypeOf(d[HEADER_SIZE])
        case None => Rejected(BadType)
        case Some(kind) =>
          match InflateInto(c, d[PAYLOAD_OFFSET..PAYLOAD_OFFSET + h.compressedSize], h.baseSize)
          case None => Rejected(InflateFailed)
          case Some(content) => Unpacked(Payload(h, kind, content))
  }

  /** LoadFromMemory: the model read from the content, with the header's flags
      and version, provided the content held all of it. */
  function Load(data: Option<seq<u8>>, lib: Library, c: Compressor): (r: LoadResult)
    ensures r.Failed? && r.error != TruncatedContent ==> Unpack(data, lib, c) == Rejected(r.error)
    ensures r.Failed? ==> r.error in {NoData, BadMagic, BadSize, BadVersion, BadType, InflateFailed, TruncatedContent}
    ensures r == Failed(TruncatedContent) ==> Unpack(data, lib, c).Unpacked?
    ensures r.Loaded? ==> Unpack(data, lib, c).Unpacked?
  {
    match Unpack(data, lib, c)
    case Rejected(e) => Failed(e)
    case Unpacked(p) => ReadContent(p)
  }

  /** The model read from the inflated content and stamped with the header's
      flags and version, or TruncatedContent when the content runs out first. */
  function ReadContent(p: Payload): (r: LoadResult)
    ensures r.Failed? ==> r.error == TruncatedContent
    ensures r.Loaded? ==> r.model.GetType() == p.kind
    ensures r.Loaded? ==> r.model.Base().flags == p.header.flags && r.model.Base().version == p.header.version
  {
    var (m, st) := ParseModel(p.kind, Input(p.content, true));
    if st.good then Loaded(m.WithFlagsVersion(p.header.flags, p.header.version))
    else Failed(TruncatedContent)
  }

  /** LoadFromMemory as the source has it: the stream state after reading is
      never looked at, so a content too short for its model still loads. */
  function LoadAsWritten(data: Option<seq<u8>>, lib: Library, c: Compressor): (r: LoadResult)
    ensures r.Loaded? <==> Unpack(data, lib, c).Unpacked?
    ensures r.Failed? ==> Unpack(data, lib, c) == Rejected(r.error)
  {
    match Unpack(data, lib, c)
    case Rejected(e) => Failed(e)
    case Unpacked(p) =>
      var (m, _) := ParseModel(p.kind, Input(p.content, true));
      Loaded(m.WithFlagsVersion(p.header.flags, p.header.version))
  }

  /** LoadFromMemory, step by step over the buffer and the content stream. */
  method LoadFromMemory(data: Option<seq<u8>>, lib: Library, c: Compressor) returns (r: LoadResult)
    ensures r == Load(data, lib, c)
  {
    if data.None? || |data.value| <= PAYLOAD_OFFSET {
      return Failed(NoData);
    }
    var d := data.value;
    var header := ParseHeader(d);
    if header.magic != MAGIC {
      return Failed(BadMagic);
    }
    if header.baseSize == 0 || header.compressedSize == 0 || header.compressedSize > |d| - PAYLOAD_OFFSET {
      return Failed(BadSize);
    }
    var version := DecodeVersion(header.version);
    if version.major != lib.major || version.minor != lib.minor {
      return Failed(BadVersion);
    }
    var kind := ModelTypeOf(d[HEADER_SIZE]);
    if kind.None? {
      return Failed(BadType);
    }
    var content := InflateInto(c, d[PAYLOAD_OFFSET..PAYLOAD_OFFSET + header.compressedSize], header.baseSize);
    if content.None? {
      return Failed(InflateFailed);
    }
    var stream := new Reader(content.value);
    var model: Model;
    if kind.value == STATIC {
      var s := ReadStaticModel(stream);
      model := Static(s);
    } else {
      var k := ReadSkinnedModel(stream);
      model := Skinned(k);
    }
    if !stream.good {
      return Failed(TruncatedContent);
    }
    r := Loaded(model.WithFlagsVersion(header.flags, header.version));
  }

  // ---------------------------------------------------------------- saving

  /** The header written for a model whose content has `contentSize` bytes
      and compresses to `compressed`. */
  function SavedHeader(m: Model, contentSize: u32, compressed: seq<u8>): Header {
    Header(MAGIC, m.Base().version, Len32(|compressed|), contentSize, m.Base().flags)
  }

  /** The three buffers SaveToStream hands to the output stream for a model
      with this content: the header, the model-type byte and the compressed
      content; None when it gives up before writing (content of 0xFFFFFFFF
      bytes or more, deflate failure). */
  function ChunksOf(m: Model, content: seq<u8>, level: CompressionLevel, c: Compressor): (r: Option<seq<seq<u8>>>)
    ensures r.Some? <==> |content| < 0xFFFF_FFFF && c.deflate(content, ZlibLevel(level)).Some?
    ensures r.Some? ==> |r.value| == 3 && |r.value[0]| == HEADER_SIZE && r.value[1] == [m.GetType().Code()]
    ensures r.Some? ==> var d := c.deflate(content, ZlibLevel(level)).value;
      ParseHeader(r.value[0]) == Header(MAGIC, m.Base().version, Len32(|d|), |content|, m.Base().flags)
    ensures r.Some? ==> var d := c.deflate(content, ZlibLevel(level)).value;
      |d| < U32_LIMIT ==> r.value[2] == d
  {
    if |content| >= 0xFFFF_FFFF then None
    else match c.deflate(content, ZlibLevel(level))
      case None => None
      case Some(d) =>
        var h := SavedHeader(m, |content|, d);
        HeaderRoundTrip(h, []);
        assert HeaderBytes(h) + [] == HeaderBytes(h);
        Some([HeaderBytes(h), [m.GetType().Code()], d[..Len32(|d|)]])
  }

  function SaveChunks(m: Model, level: CompressionLevel, c: Compressor): Option<seq<seq<u8>>> {
    ChunksOf(m, ModelBytes(m), level, c)
  }

  /** The bytes of a saved model: the three buffers one after the other. */
  function SaveImage(m: Model, level: CompressionLevel, c: Compressor): Option<seq<u8>> {
    match SaveChunks(m, level, c)
    case None => None
    case Some(chunks) => Some(chunks[0] + chunks[1] + chunks[2])
  }

  /** One call of OutputStream::write and what it returned. */
  datatype WriteCall = WriteCall(data: seq<u8>, ok: bool)

  /** An OutputStream: every write call it received, in order. Whether a
      write succeeds is up to the stream. */
  class Sink {
    var calls: seq<WriteCall>

    constructor ()
      ensures calls == []
    {
      calls := [];
    }

    method Write(data: seq<u8>) returns (ok: bool)
      modifies this
      ensures calls == old(calls) + [WriteCall(data, ok)]
    {
      ok :| true;
      calls := calls + [WriteCall(data, ok)];
    }
  }

  /** The calls made for `chunks`: in order, stopping after the first failed
      one, and reported as a success only when every chunk went through. */
  predicate StopsAtFirstFailure(chunks: seq<seq<u8>>, made: seq<WriteCall>, ok: bool) {
    && 0 < |made| <= |chunks|
    && (forall i :: 0 <= i < |made| ==> made[i].data == chunks[i])
    && (forall i :: 0 <= i < |made| - 1 ==> made[i].ok)
    && (|made| < |chunks| ==> !made[|made| - 1].ok)
    && (ok <==> |made| == |chunks| && made[|made| - 1].ok)
  }

  /** The model content: the model written to a fresh stringstream by its kind. */
  method Serialize(m: Model) returns (content: seq<u8>)
    ensures content == ModelBytes(m)
  {
    var stream := new Writer();
    if m.Static? {
      WriteStaticModel(stream, m.s);
    } else {
      WriteSkinnedModel(stream, m.k);
    }
    content := stream.bytes;
  }

  /** The part of SaveToStream after serialisation: compress the content, then
      write the header, the type byte and the compressed content, giving up at
      the first failed write. */
  method WriteContainer(m: Model, content: seq<u8>, sink: Sink, level: CompressionLevel, c: Compressor) returns (ok: bool)
    modifies sink
    ensures |old(sink.calls)| <= |sink.calls| && sink.calls[..|old(sink.calls)|] == old(sink.calls)
    ensures ChunksOf(m, content, level, c).None? ==> !ok && sink.calls == old(sink.calls)
    ensures ChunksOf(m, content, level, c).Some? ==>
              StopsAtFirstFailure(ChunksOf(m, content, level, c).value, sink.calls[|old(sink.calls)|..], ok)
  {
    var compLevel := ZlibLevel(level);
    ghost var result := ChunksOf(m, content, level, c);
    if |content| >= 0xFFFF_FFFF {
      return false;
    }
    var compressed := c.deflate(content, compLevel);
    if compressed.None? {
      return false;
    }
    var d := compressed.value;
    var compressedSize := Len32(|d|);
    var header := SavedHeader(m, |content|, d);
    ghost var chunks := result.value;
    assert chunks == [HeaderBytes(header), [m.GetType().Code()], d[..compressedSize]];
    ghost var before := sink.calls;
    ok := sink.Write(HeaderBytes(header));
    if !ok {
      assert sink.calls[|before|..] == [WriteCall(chunks[0], false)];
      return;
    }
    ok := sink.Write([m.GetType().Code()]);
    if !ok {
      assert sink.calls[|before|..] == [WriteCall(chunks[0], true), WriteCall(chunks[1], false)];
      return;
    }
    ok := sink.Write(d[..compressedSize]);
    assert sink.calls[|before|..] == [WriteCall(chunks[0], true), WriteCall(chunks[1], true), WriteCall(chunks[2], ok)];
  }

  /** SaveToStream: the model serialised and written as a container. */
  method SaveToStream(m: Model, sink: Sink, level: CompressionLevel, c: Compressor) returns (ok: bool)
    modifies sink
    ensures |old(sink.calls)| <= |sink.calls| && sink.calls[..|old(sink.calls)|] == old(sink.calls)
    ensures SaveChunks(m, level, c).None? ==> !ok && sink.calls == old(sink.calls)
    ensures SaveChunks(m, level, c).Some? ==>
              StopsAtFirstFailure(SaveChunks(m, level, c).value, sink.calls[|old(sink.calls)|..], ok)
  {
    var content := Serialize(m);
    ok := WriteContainer(m, content, sink, level, c);
  }

  // ---------------------------------------------------------------- properties

  lemma WithFlagsVersionRestores(m: Model)
    ensures m.WithFlagsVersion(0, 0).WithFlagsVersion(m.Base().flags, m.Base().version) == m
  {
    match m
    case Static(s) =>
    case Skinned(k) =>
  }

  lemma ModelBytesNotEmpty(m: Model)
    ensures |ModelBytes(m)| >= 44
  {
    var b := m.Base();
    assert |CountsBytes(CountsOf(b))| == 44;
    assert |BaseBytes(b)| >= 44;
  }

  /** A buffer made of a well-formed header, a type byte and a compressed
      stream passes every check and inflates to the content it was made from. */
  lemma UnpackImage(h: Header, kind: ModelType, d: seq<u8>, content: seq<u8>, lib: Library, c: Compressor)
    requires h.magic == MAGIC && h.compressedSize == |d| > 0 && h.baseSize == |content| > 0
    requires Compatible(DecodeVersion(h.version), lib) && c.inflate(d) == Some(content)
    ensures Unpack(Some(HeaderBytes(h) + [kind.Code()] + d), lib, c) == Unpacked(Payload(h, kind, content))
  {
    var data := HeaderBytes(h) + [kind.Code()] + d;
    assert data == HeaderBytes(h) + ([kind.Code()] + d);
    HeaderRoundTrip(h, [kind.Code()] + d);
    assert data[HEADER_SIZE] == kind.Code();
    assert data[PAYLOAD_OFFSET..PAYLOAD_OFFSET + |d|] == d;
    assert content + Zeros(0) == content;
  }

  /** The container written for a content unpacks to that content, with the
      model's kind and a header carrying its flags and version. */
  lemma ContainerUnpacks(m: Model, content: seq<u8>, level: CompressionLevel, c: Compressor, lib: Library)
    requires Inverse(c) && ChunksOf(m, content, level, c).Some? && |content| > 0
    requires Compatible(DecodeVersion(m.Base().version), lib)
    ensures var chunks := ChunksOf(m, content, level, c).value;
      && Unpack(Some(chunks[0] + chunks[1] + chunks[2]), lib, c) == Unpacked(Payload(ParseHeader(chunks[0]), m.GetType(), content))
      && ParseHeader(chunks[0]).flags == m.Base().flags && ParseHeader(chunks[0]).version == m.Base().version
  {
    var d := c.deflate(content, ZlibLevel(level)).value;
    assert 0 < |d| < U32_LIMIT && c.inflate(d) == Some(content);
    var chunks := ChunksOf(m, content, level, c).value;
    assert chunks[0][..HEADER_SIZE] == chunks[0];
    UnpackImage(ParseHeader(chunks[0]), m.GetType(), d, content, lib, c);
  }

  /** The container written for a content that reads back as the model
      loads as that model. */
  lemma ContainerLoads(m: Model, content: seq<u8>, level: CompressionLevel, c: Compressor, lib: Library)
    requires Inverse(c) && ChunksOf(m, content, level, c).Some? && |content| > 0
    requires Compatible(DecodeVersion(m.Base().version), lib)
    requires ParseModel(m.GetType(), Input(content, true)) == (m.WithFlagsVersion(0, 0), Input([], true))
    ensures var chunks := ChunksOf(m, content, level, c).value;
      Load(Some(chunks[0] + chunks[1] + chunks[2]), lib, c) == Loaded(m)
  {
    ContainerUnpacks(m, content, level, c, lib);
    WithFlagsVersionRestores(m);
  }

  /** A model saved with a working zlib loads back as the same model, flags and
      version included, in a library whose major and minor it carries. */
  lemma SaveLoadRoundTrip(m: Model, level: CompressionLevel, c: Compressor, lib: Library)
    requires Inverse(c) && ModelFits(m)
    requires SaveImage(m, level, c).Some?
    requires Compatible(DecodeVersion(m.Base().version), lib)
    ensures Load(SaveImage(m, level, c), lib, c) == Loaded(m)
  {
    var content := ModelBytes(m);
    ModelBytesNotEmpty(m);
    ModelRoundTrip(m, []);
    assert content + [] == content;
    ContainerLoads(m, content, level, c, lib);
  }

  /** A model stamped with the library's own version, whose parts fit their
      fields, loads back in that library. */
  lemma SameLibraryRoundTrip(m: Model, level: CompressionLevel, c: Compressor, lib: Library)
    requires Inverse(c) && ModelFits(m)
    requires SaveImage(m, level, c).Some?
    requires 0 <= lib.major < 0x100 && 0 <= lib.minor < 0x100 && 0 <= lib.patch < 0x1_0000
    requires m.Base().version == GetVersion(lib)
    ensures Load(SaveImage(m, level, c), lib, c) == Loaded(m)
  {
    VersionRoundTrip(lib.major, lib.minor, lib.patch);
    SaveLoadRoundTrip(m, level, c, lib);
  }

  /** What a successful load implies about the buffer: it starts with "CXMF",
      holds more than a header and a type byte, names a supported version and a
      known model type, and the model carries that type and the header's
      flags and version. */
  lemma LoadedImplies(data: Option<seq<u8>>, lib: Library, c: Compressor)
    requires Load(data, lib, c).Loaded?
    ensures data.Some? && |data.value| > PAYLOAD_OFFSET
    ensures data.value[..4] == LE32(MAGIC)
    ensures Compatible(DecodeVersion(ParseHeader(data.value).version), lib)
    ensures Load(data, lib, c).model.GetType().Code() == data.value[HEADER_SIZE]
    ensures Load(data, lib, c).model.Base().flags == ParseHeader(data.value).flags
    ensures Load(data, lib, c).model.Base().version == ParseHeader(data.value).version
  {
    var d := data.value;
    LE32OfFromLE32(d[0..4]);
  }

  /** The load functions differ only where the content runs out: whenever the
      checked load gives a model, the source's load gives the same one. */
  lemma LoadAgreesWithSource(data: Option<seq<u8>>, lib: Library, c: Compressor)
    ensures Load(data, lib, c) != Failed(TruncatedContent) ==> LoadAsWritten(data, lib, c) == Load(data, lib, c)
  {
  }

  /** The checks of LoadFromMemory and the error each one gives, in the order
      they are made: each line assumes every earlier check passed. */
  lemma LoadChecksInOrder(data: Option<seq<u8>>, lib: Library, c: Compressor)
    ensures data.None? || |data.value| <= PAYLOAD_OFFSET ==> Load(data, lib, c) == Failed(NoData)
    ensures data.Some? && |data.value| > PAYLOAD_OFFSET ==>
      var d := data.value;
      var h := ParseHeader(d);
      var sizesOk := h.baseSize != 0 && h.compressedSize != 0 && h.compressedSize <= |d| - PAYLOAD_OFFSET;
      && (h.magic != MAGIC ==> Load(data, lib, c) == Failed(BadMagic))
      && (h.magic == MAGIC && !sizesOk ==> Load(data, lib, c) == Failed(BadSize))
      && (h.magic == MAGIC && sizesOk && !Compatible(DecodeVersion(h.version), lib) ==>
            Load(data, lib, c) == Failed(BadVersion))
      && (h.magic == MAGIC && sizesOk && Compatible(DecodeVersion(h.version), lib) && d[HEADER_SIZE] > 1 ==>
            Load(data, lib, c) == Failed(BadType))
      && (h.magic == MAGIC && sizesOk && Compatible(DecodeVersion(h.version), lib) && d[HEADER_SIZE] <= 1
          && InflateInto(c, d[PAYLOAD_OFFSET..PAYLOAD_OFFSET + h.compressedSize], h.baseSize).None? ==>
            Load(data, lib, c) == Failed(InflateFailed))
  {
    if data.Some? && |data.value| > PAYLOAD_OFFSET {
      var e := UnpackCheck(data.value, lib, c);
      if e.Some? {
        assert Unpack(data, lib, c) == Rejected(e.value);
      }
    }
  }

  /** The error the first failing check gives, if one fails. */
  function UnpackCheck(d: seq<u8>, lib: Library, c: Compressor): (e: Option<LoadError>)
    requires |d| > PAYLOAD_OFFSET
    ensures var h := ParseHeader(d);
      var sizesOk := h.baseSize != 0 && h.compressedSize != 0 && h.compressedSize <= |d| - PAYLOAD_OFFSET;
      && (h.magic != MAGIC ==> e == Some(BadMagic))
      && (h.magic == MAGIC && !sizesOk ==> e == Some(BadSize))
      && (h.magic == MAGIC && sizesOk && !Compatible(DecodeVersion(h.version), lib) ==> e == Some(BadVersion))
      && (h.magic == MAGIC && sizesOk && Compatible(DecodeVersion(h.version), lib) && d[HEADER_SIZE] > 1 ==>
            e == Some(BadType))
      && (h.magic == MAGIC && sizesOk && Compatible(DecodeVersion(h.version), lib) && d[HEADER_SIZE] <= 1
          && InflateInto(c, d[PAYLOAD_OFFSET..PAYLOAD_OFFSET + h.compressedSize], h.baseSize).None? ==>
            e == Some(InflateFailed))
    ensures e.Some? ==> Unpack(Some(d), lib, c) == Rejected(e.value)
  {
    match Unpack(Some(d), lib, c)
    case Rejected(err) => Some(err)
    case Unpacked(_) => None
  }

  /** The checks of LoadFromMemory see the same buffer whatever the patch
      number: only the header carried along differs. */
  lemma UnpackIgnoresPatch(h: Header, v: u32, rest: seq<u8>, lib: Library, c: Compressor)
    requires DecodeVersion(v).major == DecodeVersion(h.version).major
    requires DecodeVersion(v).minor == DecodeVersion(h.version).minor
    ensures var a := Unpack(Some(HeaderBytes(h) + rest), lib, c);
      var b := Unpack(Some(HeaderBytes(h.(version := v)) + rest), lib, c);
      && (a.Rejected? ==> b == a)
      && (a.Unpacked? ==> b == Unpacked(a.payload.(header := h.(version := v))))
  {
    var h' := h.(version := v);
    var d1, d2 := HeaderBytes(h) + rest, HeaderBytes(h') + rest;
    HeaderRoundTrip(h, rest);
    HeaderRoundTrip(h', rest);
    assert d1[HEADER_SIZE..] == rest == d2[HEADER_SIZE..];
    if |d1| > PAYLOAD_OFFSET {
      assert d1[HEADER_SIZE] == d2[HEADER_SIZE];
      if h.baseSize != 0 && h.compressedSize != 0 && h.compressedSize <= |d1| - PAYLOAD_OFFSET {
        assert d1[PAYLOAD_OFFSET..PAYLOAD_OFFSET + h.compressedSize] == d2[PAYLOAD_OFFSET..PAYLOAD_OFFSET + h.compressedSize];
      }
    }
  }

  /** A buffer that passes every check and inflates is accepted, whatever
      follows the compressed stream: its content is the inflated slice,
      zero-padded to the base size, and its kind is the tag's. */
  lemma UnpackAccepts(d: seq<u8>, lib: Library, c: Compressor)
    requires |d| > PAYLOAD_OFFSET
    ensures var h := ParseHeader(d);
      var sizesOk := h.baseSize != 0 && h.compressedSize != 0 && h.compressedSize <= |d| - PAYLOAD_OFFSET;
      var out := if sizesOk then InflateInto(c, d[PAYLOAD_OFFSET..PAYLOAD_OFFSET + h.compressedSize], h.baseSize) else None;
      h.magic == MAGIC && sizesOk && Compatible(DecodeVersion(h.version), lib) && d[HEADER_SIZE] <= 1 && out.Some? ==>
        Unpack(Some(d), lib, c) == Unpacked(Payload(h, if d[HEADER_SIZE] == 0 then STATIC else SKINNED, out.value))
  {
  }

  /** Only major and minor are compared: two containers that differ only in
      the patch number of their version load alike, each model carrying its
      own header's version. */
  lemma PatchNotCompared(h: Header, v: u32, rest: seq<u8>, lib: Library, c: Compressor)
    requires DecodeVersion(v).major == DecodeVersion(h.version).major
    requires DecodeVersion(v).minor == DecodeVersion(h.version).minor
    ensures var a := Load(Some(HeaderBytes(h) + rest), lib, c);
      var b := Load(Some(HeaderBytes(h.(version := v)) + rest), lib, c);
      && (a.Failed? ==> b == a)
      && (a.Loaded? ==> b == Loaded(a.model.WithFlagsVersion(h.flags, v)))
  {
    UnpackIgnoresPatch(h, v, rest, lib, c);
    var u := Unpack(Some(HeaderBytes(h) + rest), lib, c);
    if u.Unpacked? {
      var p := u.payload;
      var (m, st) := ParseModel(p.kind, Input(p.content, true));
      if st.good {
        SameFlagsVersion(m, m.WithFlagsVersion(h.flags, h.version), h.flags, v);
      }
    }
  }

  /** Restamping a restamped model is stamping the original. */
  lemma SameFlagsVersion(m: Model, a: Model, flags: u32, v: u32)
    requires a == m.WithFlagsVersion(a.Base().flags, a.Base().version)
    ensures a.WithFlagsVersion(flags, v) == m.WithFlagsVersion(flags, v)
  {
  }

  lemma ModelBytesIgnoreFlagsVersion(m: Model, flags: u32, version: u32)
    ensures ModelBytes(m.WithFlagsVersion(flags, version)) == ModelBytes(m)
  {
    match m
    case Static(s) =>
    case Skinned(k) =>
  }

  /** A loaded model was read from the content and never past its end: its
      content, written back, is no longer than the size the header announced. */
  lemma LoadedFitsContent(data: Option<seq<u8>>, lib: Library, c: Compressor)
    requires Load(data, lib, c).Loaded?
    ensures |ModelBytes(Load(data, lib, c).model)| <= ParseHeader(data.value).baseSize
  {
    var p := Unpack(data, lib, c).payload;
    var (m, st) := ParseModel(p.kind, Input(p.content, true));
    assert Load(data, lib, c).model == m.WithFlagsVersion(p.header.flags, p.header.version) && st.good;
    ModelConsumed(p.kind, Input(p.content, true));
    ModelBytesIgnoreFlagsVersion(m, p.header.flags, p.header.version);
  }

  /** A zlib stand-in that stores its input as it is. */
  function Stored(): (c: Compressor)
    ensures Inverse(c)
  {
    Compressor((s: seq<u8>, level: int) => if 0 < |s| < U32_LIMIT then Some(s) else None,
               (d: seq<u8>) => Some(d))
  }

  /** A well-formed container whose content inflates to a single zero byte:
      far too short for any model, since the eleven counts alone take 44 bytes. */
  function ShortContainer(version: u32, d: seq<u8>): (r: seq<u8>)
    requires |d| < U32_LIMIT
    ensures |r| == PAYLOAD_OFFSET + |d|
  {
    HeaderBytes(Header(MAGIC, version, |d|, 1, 0)) + [STATIC.Code()] + d
  }

  /** Whatever the compressor, the source's load accepts the short container
      and returns a model whose image is longer than the one byte it was read
      from; the checked load rejects it. */
  lemma ShortContentLoadsAsWritten(c: Compressor, level: int, d: seq<u8>, version: u32, lib: Library)
    requires Inverse(c) && c.deflate([0], level) == Some(d)
    requires Compatible(DecodeVersion(version), lib)
    ensures |d| < U32_LIMIT
    ensures LoadAsWritten(Some(ShortContainer(version, d)), lib, c).Loaded?
    ensures |ModelBytes(LoadAsWritten(Some(ShortContainer(version, d)), lib, c).model)| > 1
    ensures Load(Some(ShortContainer(version, d)), lib, c) == Failed(TruncatedContent)
  {
    var h := Header(MAGIC, version, |d|, 1, 0);
    UnpackImage(h, STATIC, d, [0], lib, c);
    var (m, st) := ParseModel(STATIC, Input([0], true));
    ModelConsumed(STATIC, Input([0], true));
    ModelBytesNotEmpty(m);
    ModelBytesNotEmpty(m.WithFlagsVersion(0, version));
  }
}
