/** UTF-8 validity as `std::str::from_utf8` decides it: the well-formed byte
    sequences of section 4 of RFC 3629. A Rust `String` is modelled by its bytes. */
module Utf8 {
  import opened Bytes

  predicate Tail(b: Byte) {
    0x80 <= b <= 0xBF
  }

  /** First two bytes of a three-byte character: no overlong form, no surrogate. */
  predicate Lead3(a: Byte, b: Byte) {
    || (a == 0xE0 && 0xA0 <= b <= 0xBF)
    || (0xE1 <= a <= 0xEC && Tail(b))
    || (a == 0xED && 0x80 <= b <= 0x9F)
    || (0xEE <= a <= 0xEF && Tail(b))
  }

  /** First two bytes of a four-byte character: no overlong form, at most U+10FFFF. */
  predicate Lead4(a: Byte, b: Byte) {
    || (a == 0xF0 && 0x90 <= b <= 0xBF)
    || (0xF1 <= a <= 0xF3 && Tail(b))
    || (a == 0xF4 && 0x80 <= b <= 0x8F)
  }

  /** Number of bytes of the well-formed character that `s` starts with, or 0. */
  function CharLen(s: Data): (n: nat)
    ensures n <= |s| && n <= 4
  {
    if |s| >= 1 && s[0] <= 0x7F then 1
    else if |s| >= 2 && 0xC2 <= s[0] <= 0xDF && Tail(s[1]) then 2
    else if |s| >= 3 && Lead3(s[0], s[1]) && Tail(s[2]) then 3
    else if |s| >= 4 && Lead4(s[0], s[1]) && Tail(s[2]) && Tail(s[3]) then 4
    else 0
  }

  predicate Valid(s: Data) {
    s == [] || (CharLen(s) > 0 && Valid(s[CharLen(s)..]))
  }

  type Str = s: Data | Valid(s) witness []

  /** A Unicode scalar value: any code point but the surrogates. */
  newtype Scalar = c: int | 0 <= c < 0x11_0000 && !(0xD800 <= c < 0xE000) witness 0

  function EncodeScalar(c: Scalar): (s: Data)
    ensures 1 <= |s| <= 4
  {
    var n := c as int;
    if n < 0x80 then [n as Byte]
    else if n < 0x800 then [(0xC0 + n / 64) as Byte, (0x80 + n % 64) as Byte]
    else if n < 0x1_0000 then
      [(0xE0 + n / 4096) as Byte, (0x80 + n / 64 % 64) as Byte, (0x80 + n % 64) as Byte]
    else
      [(0xF0 + n / 262144) as Byte, (0x80 + n / 4096 % 64) as Byte,
       (0x80 + n / 64 % 64) as Byte, (0x80 + n % 64) as Byte]
  }

  function Encode(cs: seq<Scalar>): Data {
    if cs == [] then [] else EncodeScalar(cs[0]) + Encode(cs[1..])
  }

  /** The value carried by the first character of `s`. */
  function FirstScalar(s: Data): Scalar
    requires CharLen(s) > 0
  {
    match CharLen(s)
    case 1 => s[0] as Scalar
    case 2 => ((s[0] as int - 0xC0) * 64 + (s[1] as int - 0x80)) as Scalar
    case 3 => ((s[0] as int - 0xE0) * 4096 + (s[1] as int - 0x80) * 64 + (s[2] as int - 0x80)) as Scalar
    case _ =>
      ((s[0] as int - 0xF0) * 262144 + (s[1] as int - 0x80) * 4096
       + (s[2] as int - 0x80) * 64 + (s[3] as int - 0x80)) as Scalar
  }

  function Decode(s: Str): seq<Scalar> {
    if s == [] then [] else [FirstScalar(s)] + Decode(s[CharLen(s)..])
  }

  lemma EncodedScalarIsChar(c: Scalar, rest: Data)
    ensures CharLen(EncodeScalar(c) + rest) == |EncodeScalar(c)|
    ensures FirstScalar(EncodeScalar(c) + rest) == c
  {
    var n := c as int;
    assert n / 4096 == n / 64 / 64 && n / 262144 == n / 64 / 64 / 64;
  }

  lemma Digits2(a: nat, b: nat)
    requires b < 64
    ensures (a * 64 + b) / 64 == a && (a * 64 + b) % 64 == b
  {
  }

  lemma Digits3(a: nat, b: nat, c: nat)
    requires b < 64 && c < 64
    ensures var n := a * 4096 + b * 64 + c; n / 4096 == a && n / 64 % 64 == b && n % 64 == c
  {
    Digits2(a * 64 + b, c);
  }

  lemma Digits4(a: nat, b: nat, c: nat, d: nat)
    requires b < 64 && c < 64 && d < 64
    ensures var n := a * 262144 + b * 4096 + c * 64 + d;
            n / 262144 == a && n / 4096 % 64 == b && n / 64 % 64 == c && n % 64 == d
  {
    Digits3(a * 64 + b, c, d);
  }

  lemma Reencodes3(s: Data)
    requires CharLen(s) == 3
    ensures EncodeScalar(FirstScalar(s)) == s[..3]
  {
    Digits3(s[0] as int - 0xE0, s[1] as int - 0x80, s[2] as int - 0x80);
  }

  lemma Reencodes4(s: Data)
    requires CharLen(s) == 4
    ensures EncodeScalar(FirstScalar(s)) == s[..4]
  {
    Digits4(s[0] as int - 0xF0, s[1] as int - 0x80, s[2] as int - 0x80, s[3] as int - 0x80);
  }

  lemma FirstCharReencodes(s: Data)
    requires CharLen(s) > 0
    ensures EncodeScalar(FirstScalar(s)) == s[..CharLen(s)]
  {
    if CharLen(s) == 4 {
      Reencodes4(s);
    } else if CharLen(s) == 3 {
      Reencodes3(s);
    } else if CharLen(s) == 2 {
      Digits2(s[0] as int - 0xC0, s[1] as int - 0x80);
    }
  }

  /** Encoding any text gives valid UTF-8 and loses nothing. */
  lemma {:induction false} EncodeIsValid(cs: seq<Scalar>)
    ensures Valid(Encode(cs)) && Decode(Encode(cs)) == cs
  {
    if cs != [] {
      var rest := Encode(cs[1..]);
      EncodedScalarIsChar(cs[0], rest);
      EncodeIsValid(cs[1..]);
      assert Encode(cs)[|EncodeScalar(cs[0])|..] == rest;
    }
  }

  lemma {:induction false} DecodeReencodes(s: Str)
    ensures Encode(Decode(s)) == s
  {
    if s != [] {
      FirstCharReencodes(s);
      DecodeReencodes(s[CharLen(s)..]);
      assert s == s[..CharLen(s)] + s[CharLen(s)..];
      assert Decode(s)[1..] == Decode(s[CharLen(s)..]);
    }
  }

  /** `Valid` accepts exactly the encodings of sequences of scalar values. */
  lemma ValidIffEncoded(s: Data)
    ensures Valid(s) <==> exists cs: seq<Scalar> :: s == Encode(cs)
  {
    if Valid(s) {
      DecodeReencodes(s);
      assert s == Encode(Decode(s));
    }
    forall cs: seq<Scalar> | s == Encode(cs)
      ensures Valid(s)
    {
      EncodeIsValid(cs);
    }
  }
}
