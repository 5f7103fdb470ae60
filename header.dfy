/** The fixed part of a .cxmf file: the 20-byte HEADER and the packed
    version word it carries. */
module Header {
  import opened Wire

  /** 'F' << 24 | 'M' << 16 | 'X' << 8 | 'C': the file starts with the bytes "CXMF". */
  const MAGIC: u32 := 0x464D_5843

  /** sizeof(HEADER): five uint32_t fields. */
  const HEADER_SIZE: nat := 20

  datatype Header = Header(magic: u32, version: u32, compressedSize: u32, baseSize: u32, flags: u32)

  /** The header as it sits in memory, field after field. */
  function HeaderBytes(h: Header): (b: seq<u8>)
    ensures |b| == HEADER_SIZE
  {
    LE32(h.magic) + LE32(h.version) + LE32(h.compressedSize) + LE32(h.baseSize) + LE32(h.flags)
  }

  /** The header read in place from the first 20 bytes of a buffer. */
  function ParseHeader(b: seq<u8>): (h: Header)
    requires |b| >= HEADER_SIZE
    ensures HeaderBytes(h) == b[..HEADER_SIZE]
  {
    LE32OfFromLE32(b[0..4]);
    LE32OfFromLE32(b[4..8]);
    LE32OfFromLE32(b[8..12]);
    LE32OfFromLE32(b[12..16]);
    LE32OfFromLE32(b[16..20]);
    assert b[..HEADER_SIZE] == b[0..4] + b[4..8] + b[8..12] + b[12..16] + b[16..20];
    Header(FromLE32(b[0..4]), FromLE32(b[4..8]), FromLE32(b[8..12]), FromLE32(b[12..16]),
           FromLE32(b[16..20]))
  }

  lemma MagicSpellsCXMF()
    ensures LE32(MAGIC) == ['C' as int, 'X' as int, 'M' as int, 'F' as int]
  {
  }

  /** Reading a written header gives every field back, whatever follows it. */
  lemma HeaderRoundTrip(h: Header, rest: seq<u8>)
    ensures ParseHeader(HeaderBytes(h) + rest) == h
  {
    var b := HeaderBytes(h) + rest;
    assert b[0..4] == LE32(h.magic);
    assert b[4..8] == LE32(h.version);
    assert b[8..12] == LE32(h.compressedSize);
    assert b[12..16] == LE32(h.baseSize);
    assert b[16..20] == LE32(h.flags);
  }

  // ---------------------------------------------------------------- versions

  type i32 = x: int | -0x8000_0000 <= x < 0x8000_0000

  /** The CXMF_VERSION_MAJOR / _MINOR / _PATCH values the library is built with. */
  datatype Library = Library(major: i32, minor: i32, patch: i32)

  datatype Version = Version(major: u32, minor: u32, patch: u32)

  /** static_cast<uint32_t> of an int32_t: the two's complement bits. */
  function Bits32(x: i32): (r: u32)
    ensures 0 <= x ==> r == x
    ensures x < 0 ==> r == x + U32_LIMIT
  {
    x % U32_LIMIT
  }

  function Pow2(n: nat): (r: nat)
    ensures r > 0
  {
    if n == 0 then 1 else 2 * Pow2(n - 1)
  }

  lemma {:induction false} Pow2Add(a: nat, b: nat)
    ensures Pow2(a + b) == Pow2(a) * Pow2(b)
  {
    if a > 0 {
      Pow2Add(a - 1, b);
      assert Pow2(a + b) == 2 * Pow2(a - 1 + b);
    }
  }

  lemma Pow2Values()
    ensures Pow2(16) == 0x1_0000 && Pow2(24) == 0x100_0000 && Pow2(32) == U32_LIMIT
  {
    assert Pow2(8) == 0x100;
    Pow2Add(8, 8);
    Pow2Add(16, 8);
    Pow2Add(24, 8);
  }

  /** x << k on a uint32_t: bits shifted past bit 31 are lost. */
  function Shl32(x: u32, k: nat): u32 {
    (x * Pow2(k)) % U32_LIMIT
  }

  /** Bitwise or of the low n bits of x and y, lowest bit first. */
  function Or(x: nat, y: nat, n: nat): (r: nat)
    ensures r < Pow2(n)
  {
    if n == 0 then 0
    else 2 * Or(x / 2, y / 2, n - 1) + (if x % 2 == 1 || y % 2 == 1 then 1 else 0)
  }

  /** x | y on uint32_t. */
  function Or32(x: u32, y: u32): u32 {
    Pow2Values();
    Or(x, y, 32)
  }

  /** make_version: major in the top byte, minor in the next, patch or-ed into
      the low bits, all in uint32_t arithmetic. */
  function MakeVersion(major: i32, minor: i32, patch: i32): (r: u32)
    ensures 0 <= major < 0x100 && 0 <= minor < 0x100 && 0 <= patch < 0x1_0000 ==>
      r == major * 0x100_0000 + minor * 0x1_0000 + patch
  {
    PackedFields(major, minor, patch);
    Or32(Or32(Shl32(Bits32(major), 24), Shl32(Bits32(minor), 16)), Bits32(patch))
  }

  /** DecodeVersion: (v >> 24) & 0xFF, (v >> 16) & 0xFF and v & 0xFFFF. */
  function DecodeVersion(v: u32): (r: Version)
    ensures r.major < 0x100 && r.minor < 0x100 && r.patch < 0x1_0000
  {
    Version((v / 0x100_0000) % 0x100, (v / 0x1_0000) % 0x100, v % 0x1_0000)
  }

  /** GetVersion. */
  function GetVersion(lib: Library): (r: u32)
    ensures 0 <= lib.major < 0x100 && 0 <= lib.minor < 0x100 && 0 <= lib.patch < 0x1_0000 ==>
      DecodeVersion(r) == Version(lib.major, lib.minor, lib.patch)
  {
    if 0 <= lib.major < 0x100 && 0 <= lib.minor < 0x100 && 0 <= lib.patch < 0x1_0000 then
      VersionRoundTrip(lib.major, lib.minor, lib.patch);
      MakeVersion(lib.major, lib.minor, lib.patch)
    else
      MakeVersion(lib.major, lib.minor, lib.patch)
  }

  /** The low k bits of r are zero. */
  predicate LowBitsClear(r: nat, k: nat) {
    k == 0 || (r % 2 == 0 && LowBitsClear(r / 2, k - 1))
  }

  /** A multiple of 2^k has its low k bits clear. */
  lemma {:induction false} MultipleLowBitsClear(q: nat, k: nat)
    ensures LowBitsClear(q * Pow2(k), k)
  {
    if k > 0 {
      MultipleLowBitsClear(q, k - 1);
      var h := q * Pow2(k - 1);
      assert q * Pow2(k) == 2 * h;
      assert (2 * h) / 2 == h;
    }
  }

  /** Or-ing a value into low bits that are all clear is addition. */
  lemma {:induction false} OrDisjoint(x: nat, y: nat, j: nat, n: nat)
    requires LowBitsClear(x, j) && y < Pow2(j)
    requires x + y < Pow2(n)
    ensures Or(x, y, n) == x + y
  {
    if n == 0 {
    } else if j == 0 {
      assert y == 0;
      OrDisjoint(x / 2, 0, 0, n - 1);
      assert Or(x, 0, n) == 2 * (x / 2) + x % 2;
    } else {
      OrDisjoint(x / 2, y / 2, j - 1, n - 1);
      assert Or(x, y, n) == 2 * (x / 2 + y / 2) + y % 2;
    }
  }

  /** Parts that fit their fields are packed without overlap. */
  lemma PackedFields(major: i32, minor: i32, patch: i32)
    ensures 0 <= major < 0x100 && 0 <= minor < 0x100 && 0 <= patch < 0x1_0000 ==>
      Or32(Or32(Shl32(Bits32(major), 24), Shl32(Bits32(minor), 16)), Bits32(patch))
        == major * 0x100_0000 + minor * 0x1_0000 + patch
  {
    if 0 <= major < 0x100 && 0 <= minor < 0x100 && 0 <= patch < 0x1_0000 {
      PackedInRange(major, minor, patch);
    }
  }

  lemma PackedInRange(major: nat, minor: nat, patch: nat)
    requires major < 0x100 && minor < 0x100 && patch < 0x1_0000
    ensures Or32(Or32(Shl32(major, 24), Shl32(minor, 16)), patch)
      == major * 0x100_0000 + minor * 0x1_0000 + patch
  {
    var upper := major * 0x100 + minor;
    PackedUpper(major, minor);
    Pow2Values();
    assert upper * 0x1_0000 == major * 0x100_0000 + minor * 0x1_0000;
    MultipleLowBitsClear(upper, 16);
    OrDisjoint(upper * 0x1_0000, patch, 16, 32);
  }

  /** The top two bytes: major and minor shifted into place do not overlap. */
  lemma PackedUpper(major: nat, minor: nat)
    requires major < 0x100 && minor < 0x100
    ensures Or32(Shl32(major, 24), Shl32(minor, 16)) == (major * 0x100 + minor) * 0x1_0000
  {
    Pow2Values();
    ShlFits(major, 24);
    ShlFits(minor, 16);
    MultipleLowBitsClear(major, 24);
    OrDisjoint(major * Pow2(24), minor * Pow2(16), 24, 32);
  }

  /** A shift that loses no bits is a multiplication. */
  lemma ShlFits(x: u32, k: nat)
    requires x * Pow2(k) < U32_LIMIT
    ensures Shl32(x, k) == x * Pow2(k)
  {
  }

  lemma DecodeParts(v: u32, major: nat, minor: nat, patch: nat)
    requires major < 0x100 && minor < 0x100 && patch < 0x1_0000
    requires v == major * 0x100_0000 + minor * 0x1_0000 + patch
    ensures DecodeVersion(v) == Version(major, minor, patch)
  {
    var low := minor * 0x1_0000 + patch;
    assert v / 0x100_0000 == major by {
      assert 0 <= low < 0x100_0000;
    }
    assert v / 0x1_0000 == major * 0x100 + minor;
  }

  /** A version made from parts that fit their fields decodes to those parts. */
  lemma VersionRoundTrip(major: i32, minor: i32, patch: i32)
    requires 0 <= major < 0x100 && 0 <= minor < 0x100 && 0 <= patch < 0x1_0000
    ensures DecodeVersion(MakeVersion(major, minor, patch)) == Version(major, minor, patch)
  {
    DecodeParts(MakeVersion(major, minor, patch), major, minor, patch);
  }
}
