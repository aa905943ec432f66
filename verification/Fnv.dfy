/** FNV-1a (section 2 of draft-eastlake-fnv) at the two widths the program uses, and why
    it notices every single-byte change: each step is injective in the running hash. */
module Fnv {
  import opened Prelude

  /** Width-specific constants. `inverse` and `quotient` witness that `prime` is odd:
      prime * inverse == 1 + quotient * modulus. */
  datatype Params = Params(offset: nat, prime: nat, modulus: nat, inverse: nat, quotient: nat) {
    ghost predicate Valid() {
      && modulus % 256 == 0 && 0 < modulus
      && offset < modulus
      && prime * inverse == 1 + quotient * modulus
    }
  }

  // The start value at persistence.cpp:19 is the code's own constant.
  const FNV64 := Params(1469598103934665603, 1099511628211, TWO64, 14886173955864302971, 887285111055)
  const FNV32 := Params(2166136261, 16777619, TWO32, 899433627, 3513497)

  lemma Constants()
    ensures FNV64.Valid() && FNV32.Valid()
  {
  }

  const BITS: nat := 8

  /** Exclusive or of the low n bits, bit by bit. */
  function XorBits(x: nat, d: nat, n: nat): (r: nat)
    decreases n
  {
    if n == 0 then 0 else (x + d) % 2 + 2 * XorBits(x / 2, d / 2, n - 1)
  }

  /** `h ^= d`: only the low eight bits of h change. */
  function Xor(h: nat, d: byte): nat
  {
    h / 256 * 256 + XorBits(h % 256, d, BITS)
  }

  function Step(k: Params, h: nat, d: byte): nat
    requires 0 < k.modulus
  {
    Xor(h, d) * k.prime % k.modulus
  }

  /** The hash of `d` when the loop starts from h. */
  function HashFrom(k: Params, h: nat, d: bytes): nat
    requires 0 < k.modulus
    decreases |d|
  {
    if d == [] then h else Step(k, HashFrom(k, h, d[..|d| - 1]), d[|d| - 1])
  }

  function Hash(k: Params, d: bytes): nat
    requires 0 < k.modulus
  {
    HashFrom(k, k.offset, d)
  }

  method Fnv1a(d: bytes) returns (h: u64)
    ensures h == Hash(FNV64, d)
  {
    h := 1469598103934665603;
    for i := 0 to |d|
      invariant h == HashFrom(FNV64, FNV64.offset, d[..i])
    {
      assert d[..i + 1][..i] == d[..i];
      h := Xor(h, d[i]) * 1099511628211 % TWO64;
    }
    assert d[..|d|] == d;
  }

  method ProtoChecksum(d: bytes) returns (h: u32)
    ensures h == Hash(FNV32, d)
  {
    h := 2166136261;
    for i := 0 to |d|
      invariant h == HashFrom(FNV32, FNV32.offset, d[..i])
    {
      assert d[..i + 1][..i] == d[..i];
      h := Xor(h, d[i]) * 16777619 % TWO32;
    }
    assert d[..|d|] == d;
  }

  function Pow2(n: nat): (p: nat)
    ensures p > 0
  {
    if n == 0 then 1 else 2 * Pow2(n - 1)
  }

  lemma {:induction false} XorBitsBounded(x: nat, d: nat, n: nat)
    ensures XorBits(x, d, n) < Pow2(n)
    ensures XorBits(x, d, n) == XorBits(d, x, n)
    decreases n
  {
    if n > 0 {
      XorBitsBounded(x / 2, d / 2, n - 1);
    }
  }

  lemma LowBit(x: nat, y: nat, d: nat, t: nat, u: nat)
    requires (x + d) % 2 + 2 * t == (y + d) % 2 + 2 * u
    ensures t == u && x % 2 == y % 2
  {
  }

  lemma {:induction false} XorBitsInjective(x: nat, y: nat, d: nat, n: nat)
    requires x < Pow2(n) && y < Pow2(n)
    requires XorBits(x, d, n) == XorBits(y, d, n)
    ensures x == y
    decreases n
  {
    if n > 0 {
      LowBit(x, y, d, XorBits(x / 2, d / 2, n - 1), XorBits(y / 2, d / 2, n - 1));
      XorBitsInjective(x / 2, y / 2, d / 2, n - 1);
    }
  }

  lemma XorParts(h: nat, d: byte)
    ensures Xor(h, d) / 256 == h / 256
    ensures Xor(h, d) % 256 == XorBits(h % 256, d, BITS) == XorBits(d, h % 256, BITS)
  {
    assert Pow2(BITS) == 256;
    XorBitsBounded(h % 256, d, BITS);
  }

  lemma XorInjective(g: nat, h: nat, d: byte, e: byte)
    ensures Xor(g, d) == Xor(h, d) ==> g == h
    ensures Xor(h, d) == Xor(h, e) ==> d == e
  {
    assert Pow2(BITS) == 256;
    XorParts(g, d);
    XorParts(h, d);
    XorParts(h, e);
    if Xor(g, d) == Xor(h, d) {
      XorBitsInjective(g % 256, h % 256, d, BITS);
    }
    if Xor(h, d) == Xor(h, e) {
      XorBitsInjective(d, e, h % 256, BITS);
    }
  }

  lemma XorBounded(k: Params, h: nat, d: byte)
    requires k.Valid() && h < k.modulus
    ensures Xor(h, d) < k.modulus
  {
    var m := k.modulus / 256;
    assert k.modulus == m * 256;
    assert h / 256 <= m - 1;
    assert h / 256 * 256 <= (m - 1) * 256;
    XorParts(h, d);
  }

  lemma MultipleAtLeast(m: int, k: int)
    requires 0 < m && 0 < k
    ensures m <= m * k
  {
    assert m * k == m + m * (k - 1);
  }

  lemma OnlyZeroMultiple(m: int, k: int)
    requires 0 < m
    ensures -m < m * k < m ==> k == 0
  {
    if k > 0 {
      MultipleAtLeast(m, k);
    } else if k < 0 {
      MultipleAtLeast(m, -k);
      assert m * -k == -(m * k);
    }
  }

  lemma Residue(x: nat, z: int, m: nat)
    requires x < m
    ensures (x + m * z) % m == x
  {
    var q, r := (x + m * z) / m, (x + m * z) % m;
    assert m * (q - z) == m * q - m * z == x - r;
    OnlyZeroMultiple(m, q - z);
  }

  /** Multiplying by the prime can be undone: the product determines x. */
  lemma MultiplyInjective(k: Params, x: nat)
    requires k.Valid() && x < k.modulus
    ensures (x * k.prime % k.modulus) * k.inverse % k.modulus == x
  {
    var m, p, q, j := k.modulus, k.prime, k.inverse, k.quotient;
    var t, r := x * p / m, x * p % m;
    assert x * p == m * t + r;
    calc {
      r * q;
      (x * p - m * t) * q;
      x * p * q - m * t * q;
      x * (p * q) - m * t * q;
      x * (1 + j * m) - m * t * q;
      x + m * (x * j) - m * (t * q);
      x + m * (x * j - t * q);
    }
    Residue(x, x * j - t * q, m);
  }

  /** One FNV-1a step is a bijection of the hash for a fixed byte, and separates bytes. */
  lemma StepInjective(k: Params, g: nat, h: nat, d: byte, e: byte)
    requires k.Valid() && g < k.modulus && h < k.modulus
    ensures Step(k, g, d) == Step(k, h, d) ==> g == h
    ensures Step(k, h, d) == Step(k, h, e) ==> d == e
  {
    XorBounded(k, g, d);
    XorBounded(k, h, d);
    XorBounded(k, h, e);
    MultiplyInjective(k, Xor(g, d));
    MultiplyInjective(k, Xor(h, d));
    MultiplyInjective(k, Xor(h, e));
    XorInjective(g, h, d, e);
  }

  lemma {:induction false} HashFromBounded(k: Params, h: nat, d: bytes)
    requires k.Valid() && h < k.modulus
    ensures HashFrom(k, h, d) < k.modulus
    decreases |d|
  {
    if d != [] {
      HashFromBounded(k, h, d[..|d| - 1]);
    }
  }

  /** a and b have the same length and differ in position i and nowhere else. */
  ghost predicate Substituted(a: bytes, b: bytes, i: nat)
  {
    |a| == |b| && i < |a| && a[i] != b[i] && forall j :: 0 <= j < |a| && j != i ==> a[j] == b[j]
  }

  /** Replacing any one byte changes the hash, at every length. */
  lemma {:induction false} HashSeesSubstitution(k: Params, a: bytes, b: bytes, i: nat)
    requires k.Valid() && Substituted(a, b, i)
    ensures Hash(k, a) != Hash(k, b)
    decreases |a|
  {
    var n := |a| - 1;
    var x, y := a[..n], b[..n];
    HashFromBounded(k, k.offset, x);
    HashFromBounded(k, k.offset, y);
    if i == n {
      assert x == y;
    } else {
      HashSeesSubstitution(k, x, y, i);
    }
    StepInjective(k, Hash(k, x), Hash(k, y), a[n], b[n]);
  }

  /** The published 32-bit constants, and the code's own 64-bit start with the published prime. */
  lemma KnownConstants()
    ensures Hash(FNV32, []) == 0x811c_9dc5 && FNV32.prime == 0x0100_0193
    ensures Hash(FNV64, []) == 0x1465_0fb0_739d_0383 && FNV64.prime == 0x0000_0100_0000_01b3
  {
  }
}
