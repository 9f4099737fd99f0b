/** Bytes and big-endian unsigned integers, as written by `put_u16`, `put_u32`
    and `put_u64` and read back by `from_be_bytes`. */
module Bytes {
  newtype Byte = b: int | 0 <= b < 256

  type Data = seq<Byte>

  const U16_SIZE: nat := 0x1_0000
  const U32_SIZE: nat := 0x1_0000_0000
  const U64_SIZE: nat := 0x1_0000_0000_0000_0000

  type U64 = n: nat | n < U64_SIZE

  function Pow256(n: nat): (p: nat)
    ensures p > 0
  {
    if n == 0 then 1 else 256 * Pow256(n - 1)
  }

  lemma Widths()
    ensures Pow256(2) == U16_SIZE && Pow256(4) == U32_SIZE && Pow256(8) == U64_SIZE
  {
    assert Pow256(4) == 256 * 256 * Pow256(2);
    assert Pow256(6) == 256 * 256 * Pow256(4);
  }

  /** The `width` low-order bytes of `v`, most significant first. */
  function PutUint(width: nat, v: nat): (s: Data)
    ensures |s| == width
  {
    if width == 0 then [] else PutUint(width - 1, v / 256) + [(v % 256) as Byte]
  }

  function GetUint(s: Data): nat {
    if s == [] then 0 else 256 * GetUint(s[..|s| - 1]) + s[|s| - 1] as nat
  }

  lemma {:induction false} GetUintBound(s: Data)
    ensures GetUint(s) < Pow256(|s|)
  {
    if s != [] {
      GetUintBound(s[..|s| - 1]);
    }
  }

  lemma {:induction false} GetPut(width: nat, v: nat)
    requires v < Pow256(width)
    ensures GetUint(PutUint(width, v)) == v
  {
    if width > 0 {
      GetPut(width - 1, v / 256);
      var s := PutUint(width, v);
      assert s[..width - 1] == PutUint(width - 1, v / 256);
    }
  }

  lemma {:induction false} PutGet(s: Data)
    ensures PutUint(|s|, GetUint(s)) == s
  {
    if s != [] {
      PutGet(s[..|s| - 1]);
    }
  }

  lemma AtLeastOnce(d: nat, k: int)
    ensures k >= 1 ==> d * k >= d
    ensures k <= -1 ==> d * k + d <= 0
  {
    if k >= 1 {
      assert d * k == d + d * (k - 1);
    } else if k <= -1 {
      assert d * k + d == d * (k + 1);
    }
  }

  lemma QuotientIs(v: nat, d: nat, q: nat)
    requires d > 0 && d * q <= v < d * q + d
    ensures v / d == q && v % d == v - d * q
  {
    assert v == d * (v / d) + v % d;
    assert d * (v / d - q) == d * (v / d) - d * q;
    AtLeastOnce(d, v / d - q);
  }

  lemma TwoRemainders(a: nat, b: nat, r: nat, s: nat, t: nat)
    requires r < a && t < b
    ensures a * b * s <= a * (b * s + t) + r < a * b * s + a * b
  {
    assert a * (b * s + t) == a * (b * s) + a * t && a * (b * s) == a * b * s;
    assert a * b == a * t + a * (b - t);
    AtLeastOnce(a, b - t);
  }

  lemma Divided(v: nat, d: nat)
    requires d > 0
    ensures v == d * (v / d) + v % d
  {
  }

  lemma QuotientOfQuotient(v: nat, a: nat, b: nat, r: nat, s: nat, t: nat)
    requires r < a && t < b && v == a * (b * s + t) + r
    ensures v / (a * b) == s
  {
    TwoRemainders(a, b, r, s, t);
    var d := a * b;
    QuotientIs(v, d, s);
  }

  lemma DivideTwice(v: nat, a: nat, b: nat)
    requires a > 0 && b > 0
    ensures v / a / b == v / (a * b)
  {
    Divided(v, a);
    var q := v / a;
    Divided(q, b);
    var s, t := q / b, q % b;
    QuotientOfQuotient(v, a, b, v % a, s, t);
  }

  /** Big-endian: byte `i` counts multiples of the power of 256 that the bytes after it make up. */
  lemma {:induction false} PutUintAt(width: nat, v: nat, i: nat)
    requires i < width
    ensures PutUint(width, v)[i] as nat == v / Pow256(width - 1 - i) % 256
  {
    if i < width - 1 {
      PutUintAt(width - 1, v / 256, i);
      DivideTwice(v, 256, Pow256(width - 2 - i));
    }
  }
}
