/** GameCommand.swift: the `BitStreamCodable` conformances of the simd vector and matrix
    types and of `String`. Every encoder appends to a writable stream
    in place and every decoder advances a readable stream's position, as the `inout` streams of
    the source do. */
module GameCommand {
  import opened Wrappers
  import opened FoundationData
  import opened BitStreams
  import Utf8

  /** simd `float3`, `float4` and `float4x4` (four `float4` columns). */
  datatype Float3 = Float3(x: Float32, y: Float32, z: Float32)
  datatype Float4 = Float4(x: Float32, y: Float32, z: Float32, w: Float32)
  datatype Float4x4 = Float4x4(c0: Float4, c1: Float4, c2: Float4, c3: Float4)

  /** `columns.i` of a matrix. */
  function Column(m: Float4x4, i: nat): Float4
    requires i < 4
  {
    match i
    case 0 => m.c0
    case 1 => m.c1
    case 2 => m.c2
    case _ => m.c3
  }

  /** Component `j` of a vector: x, y, z, w for j = 0, 1, 2, 3. */
  function Component(v: Float4, j: nat): Float32
    requires j < 4
  {
    match j
    case 0 => v.x
    case 1 => v.y
    case 2 => v.z
    case _ => v.w
  }

  // ---- What each encoder appends ----

  function Float3Tokens(v: Float3): seq<Token> {
    [FloatBits(v.x), FloatBits(v.y), FloatBits(v.z)]
  }

  function Float4Tokens(v: Float4): seq<Token> {
    [FloatBits(v.x), FloatBits(v.y), FloatBits(v.z), FloatBits(v.w)]
  }

  function Float4x4Tokens(m: Float4x4): seq<Token> {
    Float4Tokens(m.c0) + Float4Tokens(m.c1) + Float4Tokens(m.c2) + Float4Tokens(m.c3)
  }

  function StringTokens(s: string): seq<Token> {
    [DataBlock(Utf8.Encode(s))]
  }

  /** A matrix is written as sixteen floats in column-major order: item 4i + j is component j
      of column i. */
  lemma Float4x4Layout(m: Float4x4, i: nat, j: nat)
    requires i < 4 && j < 4
    ensures |Float4x4Tokens(m)| == 16
    ensures Float4x4Tokens(m)[4 * i + j] == FloatBits(Component(Column(m, i), j))
  {
    var t := Float4x4Tokens(m);
    var a, b, c, d := Float4Tokens(m.c0), Float4Tokens(m.c1), Float4Tokens(m.c2), Float4Tokens(m.c3);
    assert t == a + b + c + d;
    var k := 4 * i + j;
    assert t[k] == Float4Tokens(Column(m, i))[j] by {
      if i == 0 { assert k == j; }
      else if i == 1 { assert k == 4 + j; }
      else if i == 2 { assert k == 8 + j; }
      else { assert k == 12 + j; }
    }
    assert Float4Tokens(Column(m, i))[j] == FloatBits(Component(Column(m, i), j)) by {
      var v := Column(m, i);
      if j == 0 { } else if j == 1 { } else if j == 2 { } else { }
    }
  }

  // ---- Encoders ----

  method EncodeFloat3(v: Float3, stream: WritableBitStream)
    modifies stream
    ensures stream.tokens == old(stream.tokens) + Float3Tokens(v)
  {
    stream.AppendFloat(v.x);
    stream.AppendFloat(v.y);
    stream.AppendFloat(v.z);
  }

  method EncodeFloat4(v: Float4, stream: WritableBitStream)
    modifies stream
    ensures stream.tokens == old(stream.tokens) + Float4Tokens(v)
  {
    stream.AppendFloat(v.x);
    stream.AppendFloat(v.y);
    stream.AppendFloat(v.z);
    stream.AppendFloat(v.w);
  }

  method EncodeFloat4x4(m: Float4x4, stream: WritableBitStream)
    modifies stream
    ensures stream.tokens == old(stream.tokens) + Float4x4Tokens(m)
  {
    EncodeFloat4(m.c0, stream);
    EncodeFloat4(m.c1, stream);
    EncodeFloat4(m.c2, stream);
    EncodeFloat4(m.c3, stream);
  }

  /** The string's UTF-8 bytes as one data block. */
  method EncodeString(s: string, stream: WritableBitStream)
    modifies stream
    ensures stream.tokens == old(stream.tokens) + StringTokens(s)
  {
    var data := Utf8.Encode(s);
    stream.Append(data);
  }

  // ---- What each decoder reads ----

  /** Three floats, x then y then z; the first failing read ends the decode. */
  function ReadFloat3At(tokens: seq<Token>, pos: nat): Read<Float3> {
    var x := ReadFloatAt(tokens, pos);
    if x.result.Failure? then Read(Failure(x.result.error), x.next) else
    var y := ReadFloatAt(tokens, x.next);
    if y.result.Failure? then Read(Failure(y.result.error), y.next) else
    var z := ReadFloatAt(tokens, y.next);
    if z.result.Failure? then Read(Failure(z.result.error), z.next) else
    Read(Success(Float3(x.result.value, y.result.value, z.result.value)), z.next)
  }

  /** Four floats, x, y, z, w; the first failing read ends the decode. */
  function ReadFloat4At(tokens: seq<Token>, pos: nat): Read<Float4> {
    var x := ReadFloatAt(tokens, pos);
    if x.result.Failure? then Read(Failure(x.result.error), x.next) else
    var y := ReadFloatAt(tokens, x.next);
    if y.result.Failure? then Read(Failure(y.result.error), y.next) else
    var z := ReadFloatAt(tokens, y.next);
    if z.result.Failure? then Read(Failure(z.result.error), z.next) else
    var w := ReadFloatAt(tokens, z.next);
    if w.result.Failure? then Read(Failure(w.result.error), w.next) else
    Read(Success(Float4(x.result.value, y.result.value, z.result.value, w.result.value)), w.next)
  }

  /** Four `float4` columns, 0 to 3; the first failing column ends the decode. */
  function ReadFloat4x4At(tokens: seq<Token>, pos: nat): Read<Float4x4> {
    var c0 := ReadFloat4At(tokens, pos);
    if c0.result.Failure? then Read(Failure(c0.result.error), c0.next) else
    var c1 := ReadFloat4At(tokens, c0.next);
    if c1.result.Failure? then Read(Failure(c1.result.error), c1.next) else
    var c2 := ReadFloat4At(tokens, c1.next);
    if c2.result.Failure? then Read(Failure(c2.result.error), c2.next) else
    var c3 := ReadFloat4At(tokens, c2.next);
    if c3.result.Failure? then Read(Failure(c3.result.error), c3.next) else
    Read(Success(Float4x4(c0.result.value, c1.result.value, c2.result.value, c3.result.value)), c3.next)
  }

  /** One data block, then its bytes as UTF-8; bytes that are not UTF-8 are an
      `EncodingError` (after the block has been read). */
  function ReadStringAt(tokens: seq<Token>, pos: nat): Read<string> {
    var d := ReadDataAt(tokens, pos);
    if d.result.Failure? then Read(Failure(d.result.error), d.next)
    else match Utf8.Decode(d.result.value)
      case Some(s) => Read(Success(s), d.next)
      case None => Read(Failure(EncodingError), d.next)
  }

  // ---- Decoders ----

  method DecodeFloat3(stream: ReadableBitStream) returns (r: Result<Float3, BitStreamError>)
    modifies stream
    ensures Read(r, stream.position) == ReadFloat3At(stream.tokens, old(stream.position))
  {
    var x :- stream.ReadFloat();
    var y :- stream.ReadFloat();
    var z :- stream.ReadFloat();
    r := Success(Float3(x, y, z));
  }

  method DecodeFloat4(stream: ReadableBitStream) returns (r: Result<Float4, BitStreamError>)
    modifies stream
    ensures Read(r, stream.position) == ReadFloat4At(stream.tokens, old(stream.position))
  {
    var x :- stream.ReadFloat();
    var y :- stream.ReadFloat();
    var z :- stream.ReadFloat();
    var w :- stream.ReadFloat();
    r := Success(Float4(x, y, z, w));
  }

  method DecodeFloat4x4(stream: ReadableBitStream) returns (r: Result<Float4x4, BitStreamError>)
    modifies stream
    ensures Read(r, stream.position) == ReadFloat4x4At(stream.tokens, old(stream.position))
  {
    var c0 :- DecodeFloat4(stream);
    var c1 :- DecodeFloat4(stream);
    var c2 :- DecodeFloat4(stream);
    var c3 :- DecodeFloat4(stream);
    r := Success(Float4x4(c0, c1, c2, c3));
  }

  method DecodeString(stream: ReadableBitStream) returns (r: Result<string, BitStreamError>)
    modifies stream
    ensures Read(r, stream.position) == ReadStringAt(stream.tokens, old(stream.position))
  {
    var data :- stream.ReadData();
    var value := Utf8.Decode(data);
    if value.Some? {
      r := Success(value.value);
    } else {
      r := Failure(EncodingError);
    }
  }

  // ---- Properties of the decoders ----

  /** `n` floats, and nothing else, start at position `pos`. */
  predicate FloatsAt(tokens: seq<Token>, pos: nat, n: nat) {
    pos + n <= |tokens| && forall k :: pos <= k < pos + n ==> tokens[k].FloatBits?
  }

  /** The vector whose components are the four floats at `pos`. */
  function Float4At(tokens: seq<Token>, pos: nat): Float4
    requires FloatsAt(tokens, pos, 4)
  {
    Float4(tokens[pos].bits, tokens[pos + 1].bits, tokens[pos + 2].bits, tokens[pos + 3].bits)
  }

  /** Decoding a `float3` succeeds exactly when three floats follow, and then yields them in
      the order x, y, z and consumes exactly them. */
  lemma ReadFloat3Exact(tokens: seq<Token>, pos: nat)
    ensures ReadFloat3At(tokens, pos).result.Success? <==> FloatsAt(tokens, pos, 3)
    ensures FloatsAt(tokens, pos, 3) ==>
              ReadFloat3At(tokens, pos)
              == Read(Success(Float3(tokens[pos].bits, tokens[pos + 1].bits, tokens[pos + 2].bits)), pos + 3)
  {
  }

  /** Decoding a `float4` succeeds exactly when four floats follow, and then yields them in
      the order x, y, z, w and consumes exactly them. */
  lemma ReadFloat4Exact(tokens: seq<Token>, pos: nat)
    ensures ReadFloat4At(tokens, pos).result.Success? <==> FloatsAt(tokens, pos, 4)
    ensures FloatsAt(tokens, pos, 4) ==> ReadFloat4At(tokens, pos) == Read(Success(Float4At(tokens, pos)), pos + 4)
  {
  }

  /** Decoding a `float4x4` succeeds exactly when sixteen floats follow: if any column read
      fails the whole decode fails, and no partial matrix is produced. On success the columns
      are the floats in column-major order. */
  lemma {:induction false} ReadFloat4x4Exact(tokens: seq<Token>, pos: nat)
    ensures ReadFloat4x4At(tokens, pos).result.Success? <==> FloatsAt(tokens, pos, 16)
    ensures FloatsAt(tokens, pos, 16) ==>
              ReadFloat4x4At(tokens, pos)
              == Read(Success(Float4x4(Float4At(tokens, pos), Float4At(tokens, pos + 4),
                                       Float4At(tokens, pos + 8), Float4At(tokens, pos + 12))), pos + 16)
  {
    ReadFloat4Exact(tokens, pos);
    ReadFloat4Exact(tokens, pos + 4);
    ReadFloat4Exact(tokens, pos + 8);
    ReadFloat4Exact(tokens, pos + 12);
    if FloatsAt(tokens, pos, 4) && FloatsAt(tokens, pos + 4, 4) && FloatsAt(tokens, pos + 8, 4) && FloatsAt(tokens, pos + 12, 4) {
      assert FloatsAt(tokens, pos, 16);
    }
  }

  /** Decoding a string fails with `EncodingError` exactly when a data block follows whose
      bytes are not UTF-8; it succeeds exactly when a data block follows whose bytes are. */
  lemma ReadStringExact(tokens: seq<Token>, pos: nat)
    ensures ReadStringAt(tokens, pos).result == Failure(EncodingError) <==>
      pos < |tokens| && tokens[pos].DataBlock? && Utf8.Decode(tokens[pos].data).None?
    ensures ReadStringAt(tokens, pos).result.Success? <==>
      pos < |tokens| && tokens[pos].DataBlock? && Utf8.Decode(tokens[pos].data).Some?
  {
  }

  /** Round trip: a `float3` written anywhere in a stream is read back, all three
      components in place, whatever was written before or after it. */
  lemma Float3RoundTrip(v: Float3, before: seq<Token>, after: seq<Token>)
    ensures ReadFloat3At(before + Float3Tokens(v) + after, |before|) == Read(Success(v), |before| + 3)
  {
    ReadFloat3Exact(before + Float3Tokens(v) + after, |before|);
  }

  lemma Float4RoundTrip(v: Float4, before: seq<Token>, after: seq<Token>)
    ensures ReadFloat4At(before + Float4Tokens(v) + after, |before|) == Read(Success(v), |before| + 4)
  {
    ReadFloat4Exact(before + Float4Tokens(v) + after, |before|);
  }

  /** Round trip for a matrix: its four columns come back in the order they were written. */
  lemma Float4x4RoundTrip(m: Float4x4, before: seq<Token>, after: seq<Token>)
    ensures ReadFloat4x4At(before + Float4x4Tokens(m) + after, |before|) == Read(Success(m), |before| + 16)
  {
    var a, b, c, d := Float4Tokens(m.c0), Float4Tokens(m.c1), Float4Tokens(m.c2), Float4Tokens(m.c3);
    var tokens := before + Float4x4Tokens(m) + after;
    var p1, p2, p3 := before + a, before + a + b, before + a + b + c;
    var s3 := d + after;
    var s2 := c + s3;
    var s1 := b + s2;
    assert tokens == before + a + s1;
    Float4RoundTrip(m.c0, before, s1);
    assert tokens == p1 + b + s2;
    Float4RoundTrip(m.c1, p1, s2);
    assert tokens == p2 + c + s3;
    Float4RoundTrip(m.c2, p2, s3);
    assert tokens == p3 + d + after;
    Float4RoundTrip(m.c3, p3, after);
  }

  /** Round trip for text: a string written anywhere in a stream is read back unchanged. */
  lemma StringRoundTrip(s: string, before: seq<Token>, after: seq<Token>)
    ensures ReadStringAt(before + StringTokens(s) + after, |before|) == Read(Success(s), |before| + 1)
  {
    var tokens := before + StringTokens(s) + after;
    assert tokens[|before|] == DataBlock(Utf8.Encode(s));
    Utf8.DecodeEncode(s);
  }

  /** `decode(encode(m)) == m` through the stream objects themselves. */
  method Float4x4ThroughStreams(m: Float4x4) returns (r: Result<Float4x4, BitStreamError>)
    ensures r == Success(m)
  {
    var writer := new WritableBitStream();
    EncodeFloat4x4(m, writer);
    var reader := new ReadableBitStream(writer.tokens);
    r := DecodeFloat4x4(reader);
    Float4x4RoundTrip(m, [], []);
    assert writer.tokens == [] + Float4x4Tokens(m) + [];
  }

  /** `decode(encode(s)) == s` through the stream objects themselves. */
  method StringThroughStreams(s: string) returns (r: Result<string, BitStreamError>)
    ensures r == Success(s)
  {
    var writer := new WritableBitStream();
    EncodeString(s, writer);
    var reader := new ReadableBitStream(writer.tokens);
    r := DecodeString(reader);
    StringRoundTrip(s, [], []);
    assert writer.tokens == [] + StringTokens(s) + [];
  }
}
