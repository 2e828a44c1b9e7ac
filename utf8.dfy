/** UTF-8 for `String.data(using: .utf8)` and `String(data:encoding: .utf8)`: the encoding
    of RFC 3629, section 3, over Unicode scalar values (Dafny's `char`). Decoding rejects
    everything RFC 3629 calls ill-formed: stray continuation bytes, truncated sequences,
    overlong forms, surrogates and values above U+10FFFF. A leading byte-order mark is
    decoded like any other sequence, as U+FEFF. */
module Utf8 {
  import opened Wrappers
  import opened FoundationData

  predicate IsContinuation(b: byte) { 0x80 <= b < 0xC0 }

  /** The one to four bytes that encode the scalar value `c`. */
  function EncodeScalar(c: char): (r: Bytes)
    ensures 1 <= |r| <= 4
  {
    var cp := c as int;
    if cp < 0x80 then [cp]
    else if cp < 0x800 then [0xC0 + cp / 0x40, 0x80 + cp % 0x40]
    else if cp < 0x10000 then [0xE0 + cp / 0x40 / 0x40, 0x80 + cp / 0x40 % 0x40, 0x80 + cp % 0x40]
    else [0xF0 + cp / 0x40 / 0x40 / 0x40, 0x80 + cp / 0x40 / 0x40 % 0x40, 0x80 + cp / 0x40 % 0x40, 0x80 + cp % 0x40]
  }

  /** The UTF-8 bytes of a string: the encodings of its scalar values, in order. */
  function Encode(s: string): (r: Bytes)
    ensures |s| <= |r| <= 4 * |s|
  {
    if s == [] then [] else EncodeScalar(s[0]) + Encode(s[1..])
  }

  /** The six payload bits of a continuation byte. */
  function Low6(b: byte): int { b as int - 0x80 }

  /** The scalar value encoded by the well-formed sequence at the start of `b`, and that
      sequence's length; None when `b` does not start with a well-formed sequence. */
  function DecodeScalar(b: Bytes): (r: Option<(char, nat)>)
    ensures r.Some? ==> 1 <= r.value.1 <= |b| && r.value.1 <= 4
  {
    if |b| == 0 then None
    else if b[0] < 0x80 then Some((b[0] as char, 1))
    else if 0xC2 <= b[0] < 0xE0 then
      if |b| < 2 || !IsContinuation(b[1]) then None
      else Some((((b[0] as int - 0xC0) * 0x40 + Low6(b[1])) as char, 2))
    else if 0xE0 <= b[0] < 0xF0 then
      if |b| < 3 || !IsContinuation(b[1]) || !IsContinuation(b[2]) then None
      else
        var cp := (b[0] as int - 0xE0) * 0x1000 + Low6(b[1]) * 0x40 + Low6(b[2]);
        if cp < 0x800 || 0xD800 <= cp < 0xE000 then None else Some((cp as char, 3))
    else if 0xF0 <= b[0] < 0xF5 then
      if |b| < 4 || !IsContinuation(b[1]) || !IsContinuation(b[2]) || !IsContinuation(b[3]) then None
      else
        var cp := (b[0] as int - 0xF0) * 0x40000 + Low6(b[1]) * 0x1000 + Low6(b[2]) * 0x40 + Low6(b[3]);
        if cp < 0x10000 || 0x110000 <= cp then None else Some((cp as char, 4))
    else None
  }

  /** The string that `b` encodes, or None when `b` is not well-formed UTF-8. */
  function Decode(b: Bytes): (r: Option<string>)
    ensures r.Some? ==> |r.value| <= |b| <= 4 * |r.value|
    decreases |b|
  {
    if b == [] then Some([])
    else
      var first :- DecodeScalar(b);
      var tail :- Decode(b[first.1..]);
      Some([first.0] + tail)
  }

  /** Splitting off the low six bits of a natural number, and putting them back. */
  lemma Split6(x: int)
    requires 0 <= x
    ensures x == x / 0x40 * 0x40 + x % 0x40 && 0 <= x % 0x40 < 0x40 && 0 <= x / 0x40 <= x
  {
  }

  lemma Join6(hi: int, lo: int)
    requires 0 <= lo < 0x40
    ensures (hi * 0x40 + lo) / 0x40 == hi && (hi * 0x40 + lo) % 0x40 == lo
  {
  }

  /** Decoding the encoding of one scalar value gives it back and consumes exactly its bytes,
      whatever follows. */
  lemma DecodeScalarOfEncode(c: char, rest: Bytes)
    ensures DecodeScalar(EncodeScalar(c) + rest) == Some((c, |EncodeScalar(c)|))
  {
    var cp := c as int;
    var b := EncodeScalar(c) + rest;
    if cp < 0x80 {
    } else if cp < 0x800 {
      Split6(cp);
      assert (b[0] as int - 0xC0) * 0x40 + Low6(b[1]) == cp;
    } else if cp < 0x10000 {
      Split6(cp);
      Split6(cp / 0x40);
      assert (b[0] as int - 0xE0) * 0x1000 + Low6(b[1]) * 0x40 + Low6(b[2]) == cp;
    } else {
      Split6(cp);
      Split6(cp / 0x40);
      Split6(cp / 0x40 / 0x40);
      assert (b[0] as int - 0xF0) * 0x40000 + Low6(b[1]) * 0x1000 + Low6(b[2]) * 0x40 + Low6(b[3]) == cp;
    }
  }

  /** A well-formed sequence is the encoding of the scalar value it decodes to. */
  lemma EncodeScalarOfDecode(b: Bytes)
    requires DecodeScalar(b).Some?
    ensures EncodeScalar(DecodeScalar(b).value.0) == b[..DecodeScalar(b).value.1]
  {
    var c := DecodeScalar(b).value.0;
    var cp := c as int;
    if b[0] < 0x80 {
    } else if b[0] < 0xE0 {
      Join6(b[0] as int - 0xC0, Low6(b[1]));
      assert EncodeScalar(c) == [b[0], b[1]];
    } else if b[0] < 0xF0 {
      Join6((b[0] as int - 0xE0) * 0x40 + Low6(b[1]), Low6(b[2]));
      Join6(b[0] as int - 0xE0, Low6(b[1]));
      assert EncodeScalar(c) == [b[0], b[1], b[2]];
    } else {
      Join6(((b[0] as int - 0xF0) * 0x40 + Low6(b[1])) * 0x40 + Low6(b[2]), Low6(b[3]));
      Join6((b[0] as int - 0xF0) * 0x40 + Low6(b[1]), Low6(b[2]));
      Join6(b[0] as int - 0xF0, Low6(b[1]));
      assert EncodeScalar(c) == [b[0], b[1], b[2], b[3]];
    }
  }

  /** Decoding peels off the first well-formed sequence and decodes the rest. */
  lemma DecodeStep(b: Bytes)
    requires b != [] && DecodeScalar(b).Some?
    ensures Decode(b) == (var first := DecodeScalar(b).value;
                          match Decode(b[first.1..])
                          case None => None
                          case Some(tail) => Some([first.0] + tail))
  {
  }

  /** Round trip: every string survives encoding and decoding. */
  lemma {:induction false} DecodeEncode(s: string)
    ensures Decode(Encode(s)) == Some(s)
  {
    if s != [] {
      var head := EncodeScalar(s[0]);
      var b := head + Encode(s[1..]);
      assert Encode(s) == b;
      DecodeScalarOfEncode(s[0], Encode(s[1..]));
      assert b[|head|..] == Encode(s[1..]);
      DecodeEncode(s[1..]);
      DecodeStep(b);
      assert [s[0]] + s[1..] == s;
    }
  }

  /** Encoding a string with a known first scalar value. */
  lemma EncodeCons(c: char, tail: string)
    ensures Encode([c] + tail) == EncodeScalar(c) + Encode(tail)
  {
    var s := [c] + tail;
    assert s[0] == c && s[1..] == tail;
  }

  /** The first step of decoding, seen from the encoder: a well-formed input starts with the
      encoding of the first scalar value it decodes to, followed by a well-formed rest. */
  lemma DecodeHead(b: Bytes) returns (n: nat, c: char, tail: string)
    requires b != [] && Decode(b).Some?
    ensures 1 <= n <= |b| && b[..n] == EncodeScalar(c)
    ensures Decode(b[n..]) == Some(tail) && Decode(b).value == [c] + tail
  {
    var first := DecodeScalar(b).value;
    n, c := first.1, first.0;
    DecodeStep(b);
    tail := Decode(b[n..]).value;
    EncodeScalarOfDecode(b);
  }

  /** Round trip the other way: bytes that decode are the encoding of what they decode to,
      so no two byte sequences decode to the same string. */
  lemma {:induction false} EncodeDecode(b: Bytes)
    requires Decode(b).Some?
    ensures Encode(Decode(b).value) == b
    decreases |b|
  {
    if b != [] {
      var n, c, tail := DecodeHead(b);
      EncodeDecode(b[n..]);
      EncodeCons(c, tail);
      assert b == b[..n] + b[n..];
    }
  }

  /** The bytes `String(data:encoding: .utf8)` accepts are exactly the UTF-8 encodings of
      strings. */
  lemma DecodeSucceedsExactlyOnEncodings(b: Bytes)
    ensures Decode(b).Some? <==> exists s :: Encode(s) == b
  {
    if Decode(b).Some? {
      EncodeDecode(b);
    }
    if s :| Encode(s) == b {
      DecodeEncode(s);
    }
  }
}
