/** Paths: LoadFromFile, which trims the path and dispatches on its
    extension, and the file name SaveToFile writes to. */
module Files {
  import opened Wire
  import opened Types
  import opened ModelCodec
  import opened Header
  import opened Container

  /** std::isspace in the "C" locale: space, \t, \n, \v, \f, \r. */
  predicate IsSpace(ch: u8) {
    ch == 32 || 9 <= ch <= 13
  }

  /** The path with every trailing white-space byte removed. */
  function TrimEnd(s: seq<u8>): (t: seq<u8>)
    ensures t <= s
    ensures t == [] || !IsSpace(t[|t| - 1])
    ensures forall i :: |t| <= i < |s| ==> IsSpace(s[i])
  {
    if s != [] && IsSpace(s[|s| - 1]) then TrimEnd(s[..|s| - 1]) else s
  }

  /** Trimming stops at the last byte that is not white space: whatever the
      trimmed path is followed by, if it is all white space it goes. */
  lemma {:induction false} TrimEndOfPadded(t: seq<u8>, pad: seq<u8>)
    requires t == [] || !IsSpace(t[|t| - 1])
    requires forall i :: 0 <= i < |pad| ==> IsSpace(pad[i])
    ensures TrimEnd(t + pad) == t
  {
    if pad != [] {
      var init := pad[..|pad| - 1];
      assert (t + pad)[..|t + pad| - 1] == t + init;
      TrimEndOfPadded(t, init);
    } else {
      assert t + pad == t;
    }
  }

  lemma TrimEndIdempotent(s: seq<u8>)
    ensures TrimEnd(TrimEnd(s)) == TrimEnd(s)
  {
    var t := TrimEnd(s);
    assert t + [] == t;
    TrimEndOfPadded(t, []);
  }

  /** The pop_back loop of LoadFromFile. */
  method TrimTrailingSpace(s: seq<u8>) returns (t: seq<u8>)
    ensures t == TrimEnd(s)
  {
    t := s;
    while t != [] && IsSpace(t[|t| - 1])
      invariant TrimEnd(t) == TrimEnd(s)
      decreases |t|
    {
      t := t[..|t| - 1];
    }
  }

  predicate EndsWith(s: seq<u8>, suffix: seq<u8>) {
    |suffix| <= |s| && s[|s| - |suffix|..] == suffix
  }

  /** ".cxmf", ".gltf" and ".glb". */
  const CXMF_EXTENSION: seq<u8> := [46, 99, 120, 109, 102]
  const GLTF_EXTENSION: seq<u8> := [46, 103, 108, 116, 102]
  const GLB_EXTENSION: seq<u8> := [46, 103, 108, 98]

  /** "unnamed". */
  const UNNAMED: seq<u8> := [117, 110, 110, 97, 109, 101, 100]

  /** What LoadFromFile reaches outside the container code: the files it can
      open, by path (None when the file cannot be opened), the glTF importer
      when the library is built with one, the library's version and zlib. */
  datatype Environment = Environment(files: seq<u8> -> Option<seq<u8>>,
                                     importer: Option<seq<u8> -> Option<Model>>,
                                     lib: Library, zlib: Compressor)

  /** HasImporter. */
  predicate HasImporter(env: Environment) {
    env.importer.Some?
  }

  /** The (trimmed) path names a .cxmf file. */
  predicate Native(p: seq<u8>) {
    EndsWith(p, CXMF_EXTENSION)
  }

  /** The (trimmed) path names a glTF file and there is an importer to read it. */
  predicate Imported(p: seq<u8>, env: Environment) {
    HasImporter(env) && (EndsWith(p, GLTF_EXTENSION) || EndsWith(p, GLB_EXTENSION))
  }

  /** LoadFromFile: a .cxmf path is read and loaded, a .gltf or .glb path goes
      to the importer when there is one, anything else is refused. */
  function LoadFile(path: Option<seq<u8>>, env: Environment): (r: LoadResult)
    ensures r == Failed(NoPath) <==> path.None? || TrimEnd(path.value) == []
    ensures r.Loaded? ==> path.Some? && (Native(TrimEnd(path.value)) || Imported(TrimEnd(path.value), env))
    ensures r == Failed(BadExtension) <==>
      path.Some? && TrimEnd(path.value) != [] && !Native(TrimEnd(path.value)) && !Imported(TrimEnd(path.value), env)
    ensures r == Failed(CannotOpen) <==>
      path.Some? && TrimEnd(path.value) != [] && Native(TrimEnd(path.value)) && env.files(TrimEnd(path.value)).None?
  {
    if path.None? then Failed(NoPath)
    else
      var p := TrimEnd(path.value);
      if p == [] then Failed(NoPath) else Dispatch(p, env)
  }

  /** The choice by extension of a trimmed, non-empty path. */
  function Dispatch(p: seq<u8>, env: Environment): (r: LoadResult)
    ensures r != Failed(NoPath)
    ensures r.Loaded? ==> Native(p) || Imported(p, env)
    ensures r == Failed(BadExtension) <==> !Native(p) && !Imported(p, env)
    ensures r == Failed(CannotOpen) <==> Native(p) && env.files(p).None?
  {
    if EndsWith(p, CXMF_EXTENSION) then
      match env.files(p)
      case None => Failed(CannotOpen)
      case Some(content) => Load(Some(content), env.lib, env.zlib)
    else if HasImporter(env) && (EndsWith(p, GLTF_EXTENSION) || EndsWith(p, GLB_EXTENSION)) then
      match env.importer.value(p)
      case None => Failed(ImportFailed)
      case Some(m) => Loaded(m)
    else Failed(BadExtension)
  }

  /** The .cxmf case of LoadFile. */
  lemma LoadFileNative(path: Option<seq<u8>>, env: Environment)
    requires path.Some? && TrimEnd(path.value) != [] && EndsWith(TrimEnd(path.value), CXMF_EXTENSION)
    requires env.files(TrimEnd(path.value)).Some?
    ensures LoadFile(path, env) == Load(env.files(TrimEnd(path.value)), env.lib, env.zlib)
  {
  }

  method LoadFromFile(path: Option<seq<u8>>, env: Environment) returns (r: LoadResult)
    ensures r == LoadFile(path, env)
  {
    if path.None? {
      return Failed(NoPath);
    }
    var str := TrimTrailingSpace(path.value);
    if str == [] {
      return Failed(NoPath);
    }
    if EndsWith(str, CXMF_EXTENSION) {
      var content := env.files(str);
      if content.None? {
        return Failed(CannotOpen);
      }
      r := LoadFromMemory(Some(content.value), env.lib, env.zlib);
      LoadFileNative(path, env);
    } else if env.importer.Some? && (EndsWith(str, GLTF_EXTENSION) || EndsWith(str, GLB_EXTENSION)) {
      var m := env.importer.value(str);
      if m.None? {
        return Failed(ImportFailed);
      }
      r := Loaded(m.value);
    } else {
      r := Failed(BadExtension);
    }
  }

  /** Trailing white space never changes what a path loads. */
  lemma LoadFileIgnoresTrailingSpace(s: seq<u8>, env: Environment)
    ensures LoadFile(Some(s), env) == LoadFile(Some(TrimEnd(s)), env)
  {
    TrimEndIdempotent(s);
  }

  /** Paths that are refused before any file is opened: none, only white
      space, or an extension that is neither .cxmf nor one the importer takes. */
  lemma LoadFileRefuses(path: Option<seq<u8>>, env: Environment)
    ensures path.None? ==> LoadFile(path, env) == Failed(NoPath)
    ensures path.Some? && (forall i :: 0 <= i < |path.value| ==> IsSpace(path.value[i])) ==>
              LoadFile(path, env) == Failed(NoPath)
    ensures (path.Some? && TrimEnd(path.value) != [] && !EndsWith(TrimEnd(path.value), CXMF_EXTENSION)
             && !HasImporter(env)) ==> LoadFile(path, env) == Failed(BadExtension)
  {
    if path.Some? && forall i :: 0 <= i < |path.value| ==> IsSpace(path.value[i]) {
      assert [] + path.value == path.value;
      TrimEndOfPadded([], path.value);
    }
  }

  /** The name SaveToFile gives the file: the model's name, or "unnamed",
      followed by ".cxmf". */
  function SaveFileName(name: seq<u8>): (f: seq<u8>)
    ensures |f| == (if name == [] then |UNNAMED| else |name|) + |CXMF_EXTENSION|
    ensures EndsWith(f, CXMF_EXTENSION)
    ensures name != [] ==> f[..|name|] == name
    ensures name == [] ==> f[..|UNNAMED|] == UNNAMED
  {
    (if name == [] then UNNAMED else name) + CXMF_EXTENSION
  }

  /** The saved file's name is loaded as a .cxmf file, as it is. */
  lemma SaveFileNameLoads(name: seq<u8>, env: Environment)
    requires env.files(SaveFileName(name)).Some?
    ensures LoadFile(Some(SaveFileName(name)), env) == Load(env.files(SaveFileName(name)), env.lib, env.zlib)
  {
    var f := SaveFileName(name);
    assert f[|f| - 1] == 102;
    assert f + [] == f;
    TrimEndOfPadded(f, []);
    LoadFileNative(Some(f), env);
  }

  /** A model saved under its file name, in a store that reads back what was
      saved, loads back as itself. */
  lemma SaveThenLoadFile(m: Model, level: CompressionLevel, env: Environment)
    requires Inverse(env.zlib) && ModelFits(m)
    requires SaveImage(m, level, env.zlib).Some?
    requires Compatible(DecodeVersion(m.Base().version), env.lib)
    requires env.files(SaveFileName(m.Base().name)) == SaveImage(m, level, env.zlib)
    ensures LoadFile(Some(SaveFileName(m.Base().name)), env) == Loaded(m)
  {
    SaveFileNameLoads(m.Base().name, env);
    SaveLoadRoundTrip(m, level, env.zlib, env.lib);
  }
}
