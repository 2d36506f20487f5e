/** UTF-8 as defined by section 4 of RFC 3629: the byte sequences that are
    well formed, the string they decode to, and the encoding back. Dafny's
    `char` is a Unicode scalar value, so a `string` is exactly the content of
    a Rust `String`. */
module Utf8 {
  import opened Wrappers

  type byte = x: int | 0 <= x < 256

  /** A Unicode scalar value: a code point that is not a surrogate. */
  predicate IsScalar(c: int) {
    0 <= c < 0xD800 || 0xE000 <= c < 0x11_0000
  }

  /** `UTF8-tail = %x80-BF` */
  predicate IsTail(b: byte) {
    0x80 <= b <= 0xBF
  }

  /** The second byte of a three-byte character: its range depends on the
      first byte, which excludes overlong forms (after E0) and surrogates
      (after ED). */
  predicate SecondOfThree(b0: byte, b1: byte) {
    if b0 == 0xE0 then 0xA0 <= b1 <= 0xBF
    else if b0 == 0xED then 0x80 <= b1 <= 0x9F
    else IsTail(b1)
  }

  /** The second byte of a four-byte character: after F0 it excludes overlong
      forms, after F4 code points above U+10FFFF. */
  predicate SecondOfFour(b0: byte, b1: byte) {
    if b0 == 0xF0 then 0x90 <= b1 <= 0xBF
    else if b0 == 0xF4 then 0x80 <= b1 <= 0x8F
    else IsTail(b1)
  }

  /** The number of bytes of the well-formed character at the head of `s`,
      or 0 when `s` is empty or does not start with one. */
  function HeadLength(s: seq<byte>): (n: nat)
    ensures n <= |s| && n <= 4
    ensures n > 0 ==> |s| > 0
  {
    if |s| == 0 then 0
    else if s[0] <= 0x7F then 1
    else if 0xC2 <= s[0] <= 0xDF then
      if |s| >= 2 && IsTail(s[1]) then 2 else 0
    else if 0xE0 <= s[0] <= 0xEF then
      if |s| >= 3 && SecondOfThree(s[0], s[1]) && IsTail(s[2]) then 3 else 0
    else if 0xF0 <= s[0] <= 0xF4 then
      if |s| >= 4 && SecondOfFour(s[0], s[1]) && IsTail(s[2]) && IsTail(s[3]) then 4 else 0
    else 0
  }

  /** The scalar value of the character at the head of `s`. */
  function HeadScalar(s: seq<byte>): (c: int)
    requires HeadLength(s) > 0
    ensures IsScalar(c)
    ensures HeadLength(s) == 1 ==> c < 0x80
    ensures HeadLength(s) == 2 ==> 0x80 <= c < 0x800
    ensures HeadLength(s) == 3 ==> 0x800 <= c < 0x1_0000
    ensures HeadLength(s) == 4 ==> 0x1_0000 <= c
  {
    var n := HeadLength(s);
    var b0 := s[0] as int;
    if n == 1 then b0
    else if n == 2 then (b0 - 0xC0) * 64 + (s[1] as int - 0x80)
    else if n == 3 then (b0 - 0xE0) * 4096 + (s[1] as int - 0x80) * 64 + (s[2] as int - 0x80)
    else (b0 - 0xF0) * 262144 + (s[1] as int - 0x80) * 4096 + (s[2] as int - 0x80) * 64 + (s[3] as int - 0x80)
  }

  /** The string a byte sequence decodes to, or `None` when it is not well
      formed (what `str::from_utf8` rejects). */
  function Decode(s: seq<byte>): (r: Option<string>)
    ensures r.Some? ==> |r.value| <= |s| && (r.value == [] <==> s == [])
    ensures r.Some? && s != [] ==> HeadLength(s) > 0 && r.value[0] == HeadScalar(s) as char
    ensures s != [] && HeadLength(s) == 0 ==> r.None?
    decreases |s|
  {
    if s == [] then Some([])
    else
      var n := HeadLength(s);
      if n == 0 then None
      else match Decode(s[n..])
        case None => None
        case Some(rest) => Some([HeadScalar(s) as char] + rest)
  }

  predicate IsValid(s: seq<byte>) {
    Decode(s).Some?
  }

  /** The bytes of one scalar value (section 3 of RFC 3629). */
  function EncodeChar(c: char): (r: seq<byte>)
    ensures 1 <= |r| <= 4
  {
    var x := c as int;
    if x < 0x80 then [x]
    else if x < 0x800 then [0xC0 + x / 64, 0x80 + x % 64]
    else if x < 0x1_0000 then [0xE0 + x / 4096, 0x80 + (x / 64) % 64, 0x80 + x % 64]
    else [0xF0 + x / 262144, 0x80 + (x / 4096) % 64, 0x80 + (x / 64) % 64, 0x80 + x % 64]
  }

  function Encode(str: string): seq<byte>
    decreases |str|
  {
    if str == [] then [] else EncodeChar(str[0]) + Encode(str[1..])
  }

  /** Decoding the head of an encoded character recovers exactly that
      character and consumes exactly its bytes. */
  lemma DecodeEncodeChar(c: char, rest: seq<byte>)
    ensures HeadLength(EncodeChar(c) + rest) == |EncodeChar(c)|
    ensures HeadScalar(EncodeChar(c) + rest) == c as int
  {
    var x := c as int;
    if x < 0x80 {
    } else if x < 0x800 {
      DecodeEncodeTwo(c, rest);
    } else if x < 0x1_0000 {
      DecodeEncodeThree(c, rest);
    } else {
      DecodeEncodeFour(c, rest);
    }
  }

  lemma DecodeEncodeTwo(c: char, rest: seq<byte>)
    requires 0x80 <= c as int < 0x800
    ensures HeadLength(EncodeChar(c) + rest) == 2
    ensures HeadScalar(EncodeChar(c) + rest) == c as int
  {
    var x := c as int;
    assert x == (x / 64) * 64 + x % 64;
  }

  lemma Decompose3(x: int)
    requires 0x800 <= x < 0x1_0000
    ensures x == (x / 4096) * 4096 + ((x / 64) % 64) * 64 + x % 64
    ensures 0 <= x / 4096 < 16
  {
  }

  lemma DecodeEncodeThree(c: char, rest: seq<byte>)
    requires 0x800 <= c as int < 0x1_0000
    ensures HeadLength(EncodeChar(c) + rest) == 3
    ensures HeadScalar(EncodeChar(c) + rest) == c as int
  {
    var x := c as int;
    Decompose3(x);
    var s := EncodeChar(c) + rest;
    assert s[0] == 0xE0 ==> (x / 64) % 64 >= 0x20;
    assert s[0] == 0xED ==> (x / 64) % 64 < 0x20;
  }

  lemma Decompose4(x: int)
    requires 0x1_0000 <= x < 0x11_0000
    ensures x == (x / 262144) * 262144 + ((x / 4096) % 64) * 4096 + ((x / 64) % 64) * 64 + x % 64
    ensures 0 <= x / 262144 <= 4
  {
    var q1, q2 := x / 64, x / 4096;
    assert x == q1 * 64 + x % 64;
    assert q1 == q2 * 64 + q1 % 64;
    assert q2 == (x / 262144) * 64 + q2 % 64;
  }

  lemma DecodeEncodeFour(c: char, rest: seq<byte>)
    requires 0x1_0000 <= c as int
    ensures HeadLength(EncodeChar(c) + rest) == 4
    ensures HeadScalar(EncodeChar(c) + rest) == c as int
  {
    var x := c as int;
    Decompose4(x);
    var s := EncodeChar(c) + rest;
    assert s[0] == 0xF0 ==> (x / 4096) % 64 >= 0x10;
    assert s[0] == 0xF4 ==> (x / 4096) % 64 < 0x10;
  }

  /** Encoding then decoding is the identity: every string has a well-formed
      encoding. */
  lemma {:induction false} DecodeEncode(str: string)
    ensures Decode(Encode(str)) == Some(str)
    decreases |str|
  {
    if str != [] {
      var head := EncodeChar(str[0]);
      var tail := Encode(str[1..]);
      DecodeEncodeChar(str[0], tail);
      assert (head + tail)[|head|..] == tail;
      DecodeEncode(str[1..]);
      assert [str[0]] + str[1..] == str;
    }
  }

  lemma Split64(q: int, r: int)
    requires 0 <= r < 64
    ensures (q * 64 + r) / 64 == q && (q * 64 + r) % 64 == r
  {
  }

  lemma Split4096(q: int, r: int)
    requires 0 <= r < 4096
    ensures (q * 4096 + r) / 4096 == q
  {
  }

  lemma Split262144(q: int, r: int)
    requires 0 <= r < 262144
    ensures (q * 262144 + r) / 262144 == q
  {
  }

  /** The digits base 64 of a three-byte character's scalar value are its
      payload bits. */
  lemma Digits3(b0: int, b1: int, b2: int)
    requires 0 <= b0 < 16 && 0 <= b1 < 64 && 0 <= b2 < 64
    ensures var x := b0 * 4096 + b1 * 64 + b2;
      x / 4096 == b0 && (x / 64) % 64 == b1 && x % 64 == b2
  {
    var x := b0 * 4096 + b1 * 64 + b2;
    assert x == (b0 * 64 + b1) * 64 + b2;
    Split64(b0 * 64 + b1, b2);
    Split64(b0, b1);
    Split4096(b0, b1 * 64 + b2);
  }

  /** The digits base 64 of a four-byte character's scalar value are its
      payload bits. */
  lemma Digits4(b0: int, b1: int, b2: int, b3: int)
    requires 0 <= b0 < 8 && 0 <= b1 < 64 && 0 <= b2 < 64 && 0 <= b3 < 64
    ensures var x := b0 * 262144 + b1 * 4096 + b2 * 64 + b3;
      x / 262144 == b0 && (x / 4096) % 64 == b1 && (x / 64) % 64 == b2 && x % 64 == b3
  {
    var x := b0 * 262144 + b1 * 4096 + b2 * 64 + b3;
    assert x == ((b0 * 64 + b1) * 64 + b2) * 64 + b3;
    Split64((b0 * 64 + b1) * 64 + b2, b3);
    assert x / 64 == (b0 * 64 + b1) * 64 + b2;
    Split64(b0 * 64 + b1, b2);
    assert x == (b0 * 64 + b1) * 4096 + (b2 * 64 + b3);
    Split4096(b0 * 64 + b1, b2 * 64 + b3);
    Split64(b0, b1);
    Split262144(b0, (b1 * 64 + b2) * 64 + b3);
  }

  /** The bytes of the character at the head of a well-formed sequence are the
      encoding of the scalar value decoded from them. */
  lemma EncodeHeadScalar(s: seq<byte>)
    requires HeadLength(s) > 0
    ensures EncodeChar(HeadScalar(s) as char) == s[..HeadLength(s)]
  {
    var n := HeadLength(s);
    if n == 2 {
      EncodeHeadTwo(s);
    } else if n == 3 {
      EncodeHeadThree(s);
    } else if n == 4 {
      EncodeHeadFour(s);
    }
  }

  lemma EncodeHeadTwo(s: seq<byte>)
    requires HeadLength(s) == 2
    ensures EncodeChar(HeadScalar(s) as char) == s[..2]
  {
    Split64(s[0] as int - 0xC0, s[1] as int - 0x80);
  }

  lemma EncodeHeadThree(s: seq<byte>)
    requires HeadLength(s) == 3
    ensures EncodeChar(HeadScalar(s) as char) == s[..3]
  {
    Digits3(s[0] as int - 0xE0, s[1] as int - 0x80, s[2] as int - 0x80);
  }

  lemma EncodeHeadFour(s: seq<byte>)
    requires HeadLength(s) == 4
    ensures EncodeChar(HeadScalar(s) as char) == s[..4]
  {
    Digits4(s[0] as int - 0xF0, s[1] as int - 0x80, s[2] as int - 0x80, s[3] as int - 0x80);
  }

  /** Decoding then encoding is the identity on well-formed input: the string
      a decoder hands out carries exactly the bytes it was given. */
  lemma {:induction false} EncodeDecode(s: seq<byte>)
    requires IsValid(s)
    ensures Encode(Decode(s).value) == s
    decreases |s|
  {
    if s != [] {
      var n := HeadLength(s);
      var c, rest := HeadScalar(s) as char, Decode(s[n..]).value;
      assert Decode(s).value == [c] + rest;
      EncodeCons(c, rest);
      EncodeHeadScalar(s);
      EncodeDecode(s[n..]);
      SplitAt(s, n);
    }
  }

  lemma SplitAt(s: seq<byte>, n: nat)
    requires n <= |s|
    ensures s[..n] + s[n..] == s
  {
  }

  lemma EncodeCons(c: char, rest: string)
    ensures Encode([c] + rest) == EncodeChar(c) + Encode(rest)
  {
    assert ([c] + rest)[1..] == rest;
  }

  /** A lone continuation byte is not well formed: the example the FFI tests
      use for invalid input, `[0x80, 0xFF]`, is rejected. */
  lemma RejectsStrayContinuation(rest: seq<byte>)
    ensures !IsValid([0x80] + rest)
  {
  }
}
