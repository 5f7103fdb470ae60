/** The primitive field codec: raw integers, float words, int8 enum codes,
    bools and raw byte runs, written to and read from an in-memory stream
    exactly as the WRITE_PARAM / READ_PARAM macros copy them (little-endian
    is taken as the native byte order). */
module Wire {

  /** A byte of the serialised stream. */
  type u8 = x: int | 0 <= x < 0x100
  /** A uint32_t. */
  type u32 = x: int | 0 <= x < 0x1_0000_0000
  /** An int8_t, the underlying type of every enum the codec stores. */
  type i8 = x: int | -0x80 <= x < 0x80
  /** A 32-bit float kept as its bit pattern: the codec only copies floats. */
  type F32 = u32

  const U32_LIMIT: int := 0x1_0000_0000

  datatype Option<+T> = None | Some(value: T)

  /** static_cast<uint32_t> applied to a size_t: the low 32 bits. */
  function Len32(n: nat): (r: u32)
    ensures n < U32_LIMIT ==> r == n
    ensures r <= n
  {
    n % U32_LIMIT
  }

  function Zeros(n: nat): (z: seq<u8>)
    ensures |z| == n
    ensures forall k :: 0 <= k < n ==> z[k] == 0
  {
    seq(n, _ => 0)
  }

  // ---------------------------------------------------------------- u32

  /** The four bytes of a uint32_t, least significant first. */
  function LE32(x: u32): (b: seq<u8>)
    ensures |b| == 4
    ensures FromLE32(b) == x
  {
    var r1 := x / 0x100;
    var r2 := r1 / 0x100;
    [x % 0x100, r1 % 0x100, r2 % 0x100, r2 / 0x100]
  }

  function FromLE32(b: seq<u8>): u32
    requires |b| == 4
  {
    b[0] as int + 0x100 * (b[1] as int + 0x100 * (b[2] as int + 0x100 * b[3] as int))
  }

  /** Four bytes are the encoding of the word they decode to: the byte form is unique. */
  lemma LE32OfFromLE32(b: seq<u8>)
    requires |b| == 4
    ensures LE32(FromLE32(b)) == b
  {
    var x := FromLE32(b);
    var t2: int := b[2] as int + 0x100 * b[3] as int;
    var t1: int := b[1] as int + 0x100 * t2;
    assert x == b[0] as int + 0x100 * t1;
    assert x / 0x100 == t1 && x % 0x100 == b[0];
    assert t1 / 0x100 == t2 && t1 % 0x100 == b[1];
    assert t2 / 0x100 == b[3] && t2 % 0x100 == b[2];
  }

  // ---------------------------------------------------------------- float words

  /** A float array written with one WRITE_PARAM: each word's bytes in turn. */
  function WordsBytes(ws: seq<F32>): (b: seq<u8>)
    ensures |b| == 4 * |ws|
  {
    if ws == [] then [] else LE32(ws[0]) + WordsBytes(ws[1..])
  }

  function BytesWords(b: seq<u8>): (ws: seq<F32>)
    requires |b| % 4 == 0
    ensures 4 * |ws| == |b|
  {
    if b == [] then [] else [FromLE32(b[..4])] + BytesWords(b[4..])
  }

  lemma {:induction false} WordsRoundTrip(ws: seq<F32>)
    ensures BytesWords(WordsBytes(ws)) == ws
  {
    if ws != [] {
      var b := WordsBytes(ws);
      assert b[..4] == LE32(ws[0]);
      assert b[4..] == WordsBytes(ws[1..]);
      WordsRoundTrip(ws[1..]);
    }
  }

  // ---------------------------------------------------------------- one-byte fields

  /** The byte holding an int8_t enum code (two's complement). */
  function I8Byte(c: i8): (b: u8)
    ensures ByteI8(b) == c
  {
    if c < 0 then c + 0x100 else c
  }

  function ByteI8(b: u8): i8 {
    if b < 0x80 then b else b - 0x100
  }

  function BoolByte(v: bool): (b: u8)
    ensures ByteBool(b) == v
  {
    if v then 1 else 0
  }

  /** A bool read back from its byte; a C++ bool holding any other byte than 0 or 1 is undefined. */
  function ByteBool(b: u8): bool {
    b != 0
  }

  // ---------------------------------------------------------------- the input stream

  /** What a std::istream over an in-memory buffer holds: the bytes not yet
      read, and whether every read so far found all the bytes it asked for. */
  datatype Input = Input(rest: seq<u8>, good: bool)

  /** stream.read(p, n) into a zero-filled destination. A read that finds
      fewer than n bytes copies what is left, fails the stream and leaves the
      rest of the destination as it was; once failed, reads copy nothing. */
  function ParseRaw(st: Input, n: nat): (r: (seq<u8>, Input))
    ensures |r.0| == n
    ensures r.1.good <==> st.good && n <= |st.rest|
    ensures r.1.good ==> st.rest == r.0 + r.1.rest
    ensures !r.1.good ==> r.1.rest == []
  {
    if st.good && n <= |st.rest| then (st.rest[..n], Input(st.rest[n..], true))
    else if st.good then (st.rest + Zeros(n - |st.rest|), Input([], false))
    else (Zeros(n), Input([], false))
  }

  function ParseU32(st: Input): (u32, Input) {
    var (b, s) := ParseRaw(st, 4);
    (FromLE32(b), s)
  }

  function ParseWords(st: Input, k: nat): (r: (seq<F32>, Input))
    ensures |r.0| == k
  {
    var (b, s) := ParseRaw(st, 4 * k);
    (BytesWords(b), s)
  }

  function ParseI8(st: Input): (i8, Input) {
    var (b, s) := ParseRaw(st, 1);
    (ByteI8(b[0]), s)
  }

  function ParseBool(st: Input): (bool, Input) {
    var (b, s) := ParseRaw(st, 1);
    (ByteBool(b[0]), s)
  }

  /** A length-prefixed string: a u32 length, then that many raw bytes, no terminator. */
  function StringBytes(s: seq<u8>): (b: seq<u8>)
    ensures |b| == 4 + Len32(|s|)
    ensures FromLE32(b[..4]) == Len32(|s|)
    ensures b[4..] == s[..Len32(|s|)]
  {
    LE32(Len32(|s|)) + s[..Len32(|s|)]
  }

  /** The length is read first; a string read in full is exactly the bytes it consumed. */
  function ParseString(st: Input): (r: (seq<u8>, Input))
    ensures !st.good ==> !r.1.good
    ensures r.1.good ==> st.good && st.rest == StringBytes(r.0) + r.1.rest
  {
    var (n, s1) := ParseU32(st);
    var (b, s2) := ParseRaw(s1, n);
    if s2.good then
      LE32OfFromLE32(st.rest[..4]);
      assert st.rest == st.rest[..4] + s1.rest;
      (b, s2)
    else
      (b, s2)
  }

  lemma U32RoundTrip(x: u32, rest: seq<u8>)
    ensures ParseU32(Input(LE32(x) + rest, true)) == (x, Input(rest, true))
  {
    assert (LE32(x) + rest)[..4] == LE32(x);
    assert (LE32(x) + rest)[4..] == rest;
  }

  lemma RawRoundTrip(b: seq<u8>, rest: seq<u8>)
    ensures ParseRaw(Input(b + rest, true), |b|) == (b, Input(rest, true))
  {
    assert (b + rest)[..|b|] == b;
    assert (b + rest)[|b|..] == rest;
  }

  lemma WordsParseRoundTrip(ws: seq<F32>, rest: seq<u8>)
    ensures ParseWords(Input(WordsBytes(ws) + rest, true), |ws|) == (ws, Input(rest, true))
  {
    RawRoundTrip(WordsBytes(ws), rest);
    WordsRoundTrip(ws);
  }

  lemma I8RoundTrip(c: i8, rest: seq<u8>)
    ensures ParseI8(Input([I8Byte(c)] + rest, true)) == (c, Input(rest, true))
  {
    RawRoundTrip([I8Byte(c)], rest);
  }

  lemma BoolRoundTrip(v: bool, rest: seq<u8>)
    ensures ParseBool(Input([BoolByte(v)] + rest, true)) == (v, Input(rest, true))
  {
    RawRoundTrip([BoolByte(v)], rest);
  }

  lemma StringRoundTrip(s: seq<u8>, rest: seq<u8>)
    requires |s| < U32_LIMIT
    ensures ParseString(Input(StringBytes(s) + rest, true)) == (s, Input(rest, true))
  {
    assert StringBytes(s) + rest == LE32(|s|) + (s + rest);
    U32RoundTrip(|s|, s + rest);
    RawRoundTrip(s, rest);
  }

  // ---------------------------------------------------------------- counted runs

  /** for (i = 0; i < n; ++i) stream >> xs[i]; */
  function ParseMany<T>(parse: Input -> (T, Input), st: Input, n: nat): (r: (seq<T>, Input))
    ensures |r.0| == n
  {
    if n == 0 then ([], st)
    else
      var (xs, s1) := ParseMany(parse, st, n - 1);
      var (x, s2) := parse(s1);
      (xs + [x], s2)
  }

  /** for (i = 0; i < n; ++i) stream << xs[i]; */
  function EncodeMany<T>(enc: T -> seq<u8>, xs: seq<T>): seq<u8> {
    if xs == [] then [] else EncodeMany(enc, xs[..|xs| - 1]) + enc(xs[|xs| - 1])
  }

  /** Reading back |xs| elements of a run written element by element gives xs
      and stops exactly at the end of the run, given that one element does. */
  lemma {:induction false} ManyRoundTrip<T>(parse: Input -> (T, Input), enc: T -> seq<u8>,
                                           xs: seq<T>, rest: seq<u8>)
    requires forall x, r :: x in xs ==> parse(Input(enc(x) + r, true)) == (x, Input(r, true))
    ensures ParseMany(parse, Input(EncodeMany(enc, xs) + rest, true), |xs|) == (xs, Input(rest, true))
  {
    if xs != [] {
      var init, last := xs[..|xs| - 1], xs[|xs| - 1];
      Regroup(EncodeMany(enc, init), enc(last), rest);
      assert forall x :: x in init ==> x in xs;
      ManyRoundTrip(parse, enc, init, enc(last) + rest);
      var st := Input(EncodeMany(enc, xs) + rest, true);
      assert ParseMany(parse, st, |xs| - 1) == (init, Input(enc(last) + rest, true));
      assert parse(Input(enc(last) + rest, true)) == (last, Input(rest, true));
      assert xs == init + [last];
      assert ParseMany(parse, st, |xs|) == (init + [last], Input(rest, true));
    } else {
      assert EncodeMany(enc, xs) + rest == rest;
    }
  }

  /** Concatenation regrouped, for stepping through a layout one field at a time. */
  lemma Regroup(a: seq<u8>, b: seq<u8>, c: seq<u8>)
    ensures a + b + c == a + (b + c)
  {
  }

  /** Writing one more element of a run appends that element's encoding. */
  lemma AppendToRun<T>(enc: T -> seq<u8>, before: seq<u8>, xs: seq<T>, i: nat)
    requires i < |xs|
    ensures before + EncodeMany(enc, xs[..i]) + enc(xs[i]) == before + EncodeMany(enc, xs[..i + 1])
  {
    assert xs[..i + 1][..i] == xs[..i];
  }

  /** Once a read has failed, every later read of the run fails too. */
  lemma {:induction false} ManyKeepsFailure<T>(parse: Input -> (T, Input), st: Input, n: nat)
    requires forall s: Input :: !s.good ==> !parse(s).1.good
    ensures !st.good ==> !ParseMany(parse, st, n).1.good
  {
    if n > 0 {
      ManyKeepsFailure(parse, st, n - 1);
    }
  }

  /** A run that was read completely used up exactly the encodings' length of bytes. */
  lemma {:induction false} ManyConsumed<T>(parse: Input -> (T, Input), enc: T -> seq<u8>, st: Input, n: nat)
    requires forall s: Input :: parse(s).1.good ==> s.good && |s.rest| == |enc(parse(s).0)| + |parse(s).1.rest|
    requires forall s: Input :: !s.good ==> !parse(s).1.good
    ensures var (xs, s') := ParseMany(parse, st, n);
            s'.good ==> st.good && |st.rest| == |EncodeMany(enc, xs)| + |s'.rest|
  {
    if n > 0 {
      var (xs, s1) := ParseMany(parse, st, n - 1);
      var (x, s2) := parse(s1);
      if s2.good {
        ManyConsumed(parse, enc, st, n - 1);
        assert (xs + [x])[..n - 1] == xs;
      }
    }
  }

  // ---------------------------------------------------------------- the streams as objects

  /** The std::stringstream the model is serialised into. */
  class Writer {
    var bytes: seq<u8>

    constructor ()
      ensures bytes == []
    {
      bytes := [];
    }

    method WriteRaw(b: seq<u8>)
      modifies this
      ensures bytes == old(bytes) + b
    {
      bytes := bytes + b;
    }

    method WriteU32(x: u32)
      modifies this
      ensures bytes == old(bytes) + LE32(x)
    {
      bytes := bytes + LE32(x);
    }

    method WriteWords(ws: seq<F32>)
      modifies this
      ensures bytes == old(bytes) + WordsBytes(ws)
    {
      bytes := bytes + WordsBytes(ws);
    }

    method WriteI8(c: i8)
      modifies this
      ensures bytes == old(bytes) + [I8Byte(c)]
    {
      bytes := bytes + [I8Byte(c)];
    }

    method WriteBool(v: bool)
      modifies this
      ensures bytes == old(bytes) + [BoolByte(v)]
    {
      bytes := bytes + [BoolByte(v)];
    }
  }

  /** The std::stringstream a decompressed payload is read from. */
  class Reader {
    var rest: seq<u8>
    var good: bool

    function State(): Input
      reads this
    {
      Input(rest, good)
    }

    constructor (content: seq<u8>)
      ensures State() == Input(content, true)
    {
      rest, good := content, true;
    }

    method ReadRaw(n: nat) returns (b: seq<u8>)
      modifies this
      ensures (b, State()) == ParseRaw(old(State()), n)
    {
      if good && n <= |rest| {
        b := rest[..n];
        rest := rest[n..];
      } else if good {
        b := rest + Zeros(n - |rest|);
        rest, good := [], false;
      } else {
        b := Zeros(n);
        rest := [];
      }
    }

    method ReadU32() returns (x: u32)
      modifies this
      ensures (x, State()) == ParseU32(old(State()))
    {
      var b := ReadRaw(4);
      x := FromLE32(b);
    }

    method ReadWords(k: nat) returns (ws: seq<F32>)
      modifies this
      ensures (ws, State()) == ParseWords(old(State()), k)
      ensures |ws| == k
    {
      var b := ReadRaw(4 * k);
      ws := BytesWords(b);
    }

    method ReadI8() returns (c: i8)
      modifies this
      ensures (c, State()) == ParseI8(old(State()))
    {
      var b := ReadRaw(1);
      c := ByteI8(b[0]);
    }

    method ReadBool() returns (v: bool)
      modifies this
      ensures (v, State()) == ParseBool(old(State()))
    {
      var b := ReadRaw(1);
      v := ByteBool(b[0]);
    }
  }
}
