/** The padded Base64 alphabet of section 4 of RFC 4648, over bytes. */
module Base64 {
  import opened Bytes
  import opened Wrappers

  newtype Sextet = x: int | 0 <= x < 64

  const PAD: Byte := 0x3D

  function ToChar(x: Sextet): Byte {
    if x < 26 then x as Byte + 65
    else if x < 52 then x as Byte + 71
    else if x < 62 then x as Byte - 4
    else if x == 62 then 43
    else 47
  }

  predicate IsChar(c: Byte) {
    65 <= c <= 90 || 97 <= c <= 122 || 48 <= c <= 57 || c == 43 || c == 47
  }

  function FromChar(c: Byte): Sextet
    requires IsChar(c)
  {
    if 65 <= c <= 90 then (c - 65) as Sextet
    else if 97 <= c <= 122 then (c - 71) as Sextet
    else if 48 <= c <= 57 then (c + 4) as Sextet
    else if c == 43 then 62
    else 63
  }

  function Hi6(a: Byte): Sextet { (a / 4) as Sextet }
  function Mid6(a: Byte, b: Byte): Sextet { ((a % 4) as int * 16 + (b / 16) as int) as Sextet }
  function Mid4(b: Byte, c: Byte): Sextet { ((b % 16) as int * 4 + (c / 64) as int) as Sextet }
  function Lo6(c: Byte): Sextet { (c % 64) as Sextet }

  function Byte0(x: Sextet, y: Sextet): Byte { (x as int * 4 + (y / 16) as int) as Byte }
  function Byte1(y: Sextet, z: Sextet): Byte { ((y % 16) as int * 16 + (z / 4) as int) as Byte }
  function Byte2(z: Sextet, w: Sextet): Byte { ((z % 4) as int * 64 + w as int) as Byte }

  function EncodeBlock(a: Byte, b: Byte, c: Byte): (s: Data)
    ensures |s| == 4
  {
    [ToChar(Hi6(a)), ToChar(Mid6(a, b)), ToChar(Mid4(b, c)), ToChar(Lo6(c))]
  }

  function DecodeBlock(p: Byte, q: Byte, r: Byte, t: Byte): (b: Data)
    requires IsChar(p) && IsChar(q) && IsChar(r) && IsChar(t)
    ensures |b| == 3
  {
    var x, y, z, w := FromChar(p), FromChar(q), FromChar(r), FromChar(t);
    [Byte0(x, y), Byte1(y, z), Byte2(z, w)]
  }

  /** The padded block for the last byte or two bytes. */
  function EncodeLast(b: Data): (s: Data)
    requires 1 <= |b| <= 2
    ensures |s| == 4
  {
    if |b| == 1 then
      var s := EncodeBlock(b[0], 0, 0);
      [s[0], s[1], PAD, PAD]
    else
      var s := EncodeBlock(b[0], b[1], 0);
      [s[0], s[1], s[2], PAD]
  }

  function DecodeLast(p: Byte, q: Byte, r: Byte, t: Byte): Option<Data> {
    if !IsChar(p) || !IsChar(q) || t != PAD then None
    else if IsChar(r) then
      var b := DecodeBlock(p, q, r, 65);
      if FromChar(r) % 4 == 0 then Some([b[0], b[1]]) else None
    else
      var b := DecodeBlock(p, q, 65, 65);
      if r == PAD && FromChar(q) % 16 == 0 then Some([b[0]]) else None
  }

  function Encode(b: Data): Data {
    if b == [] then []
    else if |b| < 3 then EncodeLast(b)
    else EncodeBlock(b[0], b[1], b[2]) + Encode(b[3..])
  }

  /** Accepts exactly the canonical encodings: padding only at the end, unused bits zero. */
  function Decode(s: Data): Option<Data> {
    if s == [] then Some([])
    else if |s| < 4 then None
    else if IsChar(s[0]) && IsChar(s[1]) && IsChar(s[2]) && IsChar(s[3]) then
      match Decode(s[4..])
      case Some(rest) => Some(DecodeBlock(s[0], s[1], s[2], s[3]) + rest)
      case None => None
    else if |s| == 4 then DecodeLast(s[0], s[1], s[2], s[3])
    else None
  }

  lemma CharRoundTrip(x: Sextet)
    ensures IsChar(ToChar(x)) && FromChar(ToChar(x)) == x
  {
  }

  lemma PadIsNoChar()
    ensures !IsChar(PAD)
  {
  }

  lemma CharIsCanonical(c: Byte)
    requires IsChar(c)
    ensures ToChar(FromChar(c)) == c
  {
  }

  lemma Join(a: Byte, b: Byte, c: Byte)
    ensures Byte0(Hi6(a), Mid6(a, b)) == a
    ensures Byte1(Mid6(a, b), Mid4(b, c)) == b
    ensures Byte2(Mid4(b, c), Lo6(c)) == c
    ensures Mid6(a, 0) % 16 == 0 && Mid4(b, 0) % 4 == 0
  {
  }

  lemma Split(x: Sextet, y: Sextet, z: Sextet, w: Sextet)
    ensures Hi6(Byte0(x, y)) == x
    ensures Mid6(Byte0(x, y), Byte1(y, z)) == y
    ensures Mid4(Byte1(y, z), Byte2(z, w)) == z
    ensures Lo6(Byte2(z, w)) == w
    ensures y % 16 == 0 ==> Mid6(Byte0(x, y), 0) == y
    ensures z % 4 == 0 ==> Mid4(Byte1(y, z), 0) == z
  {
  }

  lemma BlockRoundTrip(a: Byte, b: Byte, c: Byte)
    ensures var s := EncodeBlock(a, b, c);
            && IsChar(s[0]) && IsChar(s[1]) && IsChar(s[2]) && IsChar(s[3])
            && DecodeBlock(s[0], s[1], s[2], s[3]) == [a, b, c]
  {
    Join(a, b, c);
    CharRoundTrip(Hi6(a));
    CharRoundTrip(Mid6(a, b));
    CharRoundTrip(Mid4(b, c));
    CharRoundTrip(Lo6(c));
    hide ToChar, FromChar, IsChar, Hi6, Mid6, Mid4, Lo6;
  }

  lemma BlockIsCanonical(p: Byte, q: Byte, r: Byte, t: Byte)
    requires IsChar(p) && IsChar(q) && IsChar(r) && IsChar(t)
    ensures var b := DecodeBlock(p, q, r, t);
            EncodeBlock(b[0], b[1], b[2]) == [p, q, r, t]
  {
    Split(FromChar(p), FromChar(q), FromChar(r), FromChar(t));
    CharIsCanonical(p);
    CharIsCanonical(q);
    CharIsCanonical(r);
    CharIsCanonical(t);
    hide ToChar, FromChar, IsChar, Byte0, Byte1, Byte2;
  }

  lemma LastRoundTrip(b: Data)
    requires 1 <= |b| <= 2
    ensures var s := EncodeLast(b);
            s[3] == PAD && DecodeLast(s[0], s[1], s[2], s[3]) == Some(b)
  {
    hide ToChar, FromChar, IsChar, Hi6, Mid6, Mid4, Lo6, Byte0, Byte1, Byte2;
    var a, b1 := b[0], if |b| == 1 then 0 else b[1];
    Join(a, b1, 0);
    CharRoundTrip(Hi6(a));
    CharRoundTrip(Mid6(a, b1));
    CharRoundTrip(Mid4(b1, 0));
    PadIsNoChar();
    assert b == if |b| == 1 then [a] else [a, b1];
  }

  lemma LastIsCanonical(p: Byte, q: Byte, r: Byte, t: Byte)
    requires DecodeLast(p, q, r, t).Some?
    ensures var b := DecodeLast(p, q, r, t).value;
            1 <= |b| <= 2 && EncodeLast(b) == [p, q, r, t]
  {
    var r' := if IsChar(r) then r else 65;
    Split(FromChar(p), FromChar(q), FromChar(r'), 0);
    CharIsCanonical(p);
    CharIsCanonical(q);
    CharIsCanonical(r');
    hide ToChar, FromChar, IsChar, Hi6, Mid6, Mid4, Lo6, Byte0, Byte1, Byte2;
  }

  lemma {:induction false} EncodeDecode(b: Data)
    ensures Decode(Encode(b)) == Some(b)
  {
    hide EncodeBlock, DecodeBlock, FromChar, EncodeLast, DecodeLast;
    if |b| >= 3 {
      BlockRoundTrip(b[0], b[1], b[2]);
      EncodeDecode(b[3..]);
      assert Encode(b)[4..] == Encode(b[3..]);
      assert b == [b[0], b[1], b[2]] + b[3..];
    } else if b != [] {
      LastRoundTrip(b);
    }
  }

  lemma {:induction false} DecodeEncode(s: Data)
    requires Decode(s).Some?
    ensures Encode(Decode(s).value) == s
  {
    hide EncodeBlock, DecodeBlock, FromChar, EncodeLast, DecodeLast, IsChar;
    if s != [] {
      if IsChar(s[0]) && IsChar(s[1]) && IsChar(s[2]) && IsChar(s[3]) {
        BlockIsCanonical(s[0], s[1], s[2], s[3]);
        DecodeEncode(s[4..]);
        assert Decode(s).value[3..] == Decode(s[4..]).value;
        assert s == [s[0], s[1], s[2], s[3]] + s[4..];
      } else {
        LastIsCanonical(s[0], s[1], s[2], s[3]);
      }
    }
  }

  // ----- The alphabet and the bits -----

  /** Table 1 of the RFC. */
  function CharFor(x: nat): char
    requires x < 64
  {
    if x < 26 then 'A' + x as char
    else if x < 52 then 'a' + (x - 26) as char
    else if x < 62 then '0' + (x - 52) as char
    else if x == 62 then '+'
    else '/'
  }

  lemma CharsAreOfTheAlphabet(x: Sextet)
    ensures ToChar(x) as int == CharFor(x as nat) as int
  {
  }

  /** Byte `k`, or zero bits past the end. */
  function At(b: Data, k: nat): nat {
    if k < |b| then b[k] as nat else 0
  }

  /** The 24 bits of input group `g`. */
  function GroupOf(b: Data, g: nat): nat {
    (At(b, 3 * g) * 256 + At(b, 3 * g + 1)) * 256 + At(b, 3 * g + 2)
  }

  /** The j-th six of 24 bits. */
  function SixOf(n: nat, j: nat): (x: nat)
    ensures x < 64
  {
    match j case 0 => n / 262144 % 64 case 1 => n / 4096 % 64 case 2 => n / 64 % 64 case _ => n % 64
  }

  lemma SixesOfBlock(a: Byte, b: Byte, c: Byte)
    ensures var n := (a as nat * 256 + b as nat) * 256 + c as nat;
            && Hi6(a) as nat == SixOf(n, 0) && Mid6(a, b) as nat == SixOf(n, 1)
            && Mid4(b, c) as nat == SixOf(n, 2) && Lo6(c) as nat == SixOf(n, 3)
  {
    var x, y, z := a as nat, b as nat, c as nat;
    var n := (x * 256 + y) * 256 + z;
    QuotientIs(n, 262144, x / 4);
    QuotientIs(n, 4096, x * 16 + y / 16);
    QuotientIs(n, 64, x * 1024 + y * 4 + z / 64);
    QuotientIs(x * 16 + y / 16, 64, x / 4);
    QuotientIs(x * 1024 + y * 4 + z / 64, 64, x * 16 + y / 16);
  }

  lemma {:induction false} EncodedLength(b: Data)
    ensures |Encode(b)| == (|b| + 2) / 3 * 4
  {
    if |b| >= 3 {
      EncodedLength(b[3..]);
    }
  }

  /** Four characters for three bytes: each is that of the alphabet for the next six bits, or padding
      where there are no more bits. */
  lemma {:induction false} EncodedChar(b: Data, i: nat)
    requires i < |Encode(b)|
    ensures Encode(b)[i] as int ==
            if 3 * (i / 4) + i % 4 > |b| then '=' as int else CharFor(SixOf(GroupOf(b, i / 4), i % 4)) as int
  {
    hide ToChar, Hi6, Mid6, Mid4, Lo6, SixOf;
    EncodedLength(b);
    if |b| >= 3 && i >= 4 {
      EncodedChar(b[3..], i - 4);
      assert Encode(b)[i] == Encode(b[3..])[i - 4];
      assert (i - 4) / 4 == i / 4 - 1 && (i - 4) % 4 == i % 4;
      assert GroupOf(b[3..], i / 4 - 1) == GroupOf(b, i / 4);
    } else {
      var x: Byte, y: Byte, z: Byte := At(b, 0) as Byte, At(b, 1) as Byte, At(b, 2) as Byte;
      assert i / 4 == 0 && i % 4 == i && GroupOf(b, 0) == (x as nat * 256 + y as nat) * 256 + z as nat;
      SixesOfBlock(x, y, z);
      CharsAreOfTheAlphabet(Hi6(x));
      CharsAreOfTheAlphabet(Mid6(x, y));
      CharsAreOfTheAlphabet(Mid4(y, z));
      CharsAreOfTheAlphabet(Lo6(z));
    }
  }
}
