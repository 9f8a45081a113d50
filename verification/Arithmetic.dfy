/** Powers of two, binary digits and prefixes of 32-bit addresses (section 3.1 of RFC 4632). */
module Arithmetic {
  import opened Resources

  function Pow2(n: nat): (p: nat)
    ensures p > 0
  {
    if n == 0 then 1 else 2 * Pow2(n - 1)
  }

  lemma {:induction false} Pow2Adds(a: nat, b: nat)
    ensures Pow2(a + b) == Pow2(a) * Pow2(b)
  {
    if a == 0 {
    } else {
      Pow2Adds(a - 1, b);
      MulAssociates(2, Pow2(a - 1), Pow2(b));
    }
  }

  lemma {:induction false} Pow2Grows(a: nat, b: nat)
    requires a <= b
    ensures Pow2(a) <= Pow2(b)
    ensures a < b ==> 2 * Pow2(a) <= Pow2(b)
  {
    if a < b {
      Pow2Grows(a, b - 1);
    }
  }

  lemma Pow2Of32()
    ensures Pow2(32) == TWO_TO_THE_32
  {
    assert Pow2(8) == 0x100;
    Pow2Adds(8, 8);
    Pow2Adds(16, 16);
  }

  lemma MulAssociates(a: int, b: int, c: int)
    ensures a * (b * c) == (a * b) * c
  {
  }

  lemma MulDistributes(a: int, b: int, c: int)
    ensures (a + b) * c == a * c + b * c
  {
  }

  lemma FactorOut(n: int, t: int, s: int, i: int, size: int)
    requires size == t * s
    ensures n * size + i * s == (n * t + i) * s
  {
    MulAssociates(n, t, s);
    MulDistributes(n * t, i, s);
  }

  /** The printout of a number in base two. */
  function BinaryDigits(n: nat): string {
    if n == 0 then "0" else if n == 1 then "1"
    else BinaryDigits(n / 2) + (if n % 2 == 0 then "0" else "1")
  }

  lemma {:induction false} BinaryLength(n: nat)
    ensures |BinaryDigits(n)| >= 1
    ensures n < Pow2(|BinaryDigits(n)|)
    ensures n >= 1 ==> Pow2(|BinaryDigits(n)| - 1) <= n
  {
    if n >= 2 {
      BinaryLength(n / 2);
    }
  }

  // ------------------------------------------------------------------ division by a positive number

  lemma QuotientIsUnique(x: int, d: int, q: int)
    requires d > 0 && q * d <= x < q * d + d
    ensures x / d == q
  {
    var r := x - q * d;
    assert x == q * d + r && 0 <= r < d;
    var q', r' := x / d, x % d;
    assert x == q' * d + r';
    if q' < q {
      MulGrows(q' + 1, q, d);
    } else if q < q' {
      MulGrows(q + 1, q', d);
    }
  }

  lemma MulGrows(a: int, b: int, d: int)
    requires a <= b && d >= 0
    ensures a * d <= b * d
  {
  }

  lemma QuotientBounds(x: nat, d: int)
    requires d > 0
    ensures (x / d) * d <= x < (x / d) * d + d
    ensures x / d >= 0
  {
  }

  /** Dividing in two steps. */
  lemma QuotientOfQuotient(x: nat, s: int, t: int)
    requires s > 0 && t > 0
    ensures s * t > 0 && x / (s * t) == (x / s) / t
  {
    var m := x / s;
    var q := m / t;
    QuotientBounds(x, s);
    QuotientBounds(m, t);
    MulAssociates(q, t, s);
    MulGrows(q * t, m, s);
    MulGrows(m + 1, q * t + t, s);
    assert (q * t + t) * s == q * (t * s) + t * s;
    assert t * s == s * t;
    assert s * t > 0;
    QuotientIsUnique(x, s * t, q);
  }

  // ------------------------------------------------------------------ prefixes

  /** The number of addresses under a prefix. */
  function BlockSize(prefix: nat): (size: nat)
    requires prefix <= 32
    ensures size > 0
  {
    Pow2(32 - prefix)
  }

  /** Two addresses are in the same block when they agree on the first `prefix` bits. */
  predicate SameBlock(a: Address, b: Address, prefix: nat)
    requires prefix <= 32
  {
    a / BlockSize(prefix) == b / BlockSize(prefix)
  }

  /** The address with its host bits cleared. */
  function NetworkOf(a: Address, prefix: nat): (base: Address)
    requires prefix <= 32
    ensures base <= a
  {
    QuotientBounds(a, BlockSize(prefix));
    (a / BlockSize(prefix)) * BlockSize(prefix)
  }

  function HostOffset(a: Address, prefix: nat): (offset: nat)
    requires prefix <= 32
    ensures offset == a - NetworkOf(a, prefix)
    ensures offset < BlockSize(prefix)
  {
    QuotientBounds(a, BlockSize(prefix));
    a - NetworkOf(a, prefix)
  }

  /** A block ends at or before the end of the address space. */
  lemma BlockFits(a: Address, prefix: nat)
    requires prefix <= 32
    ensures NetworkOf(a, prefix) + BlockSize(prefix) <= TWO_TO_THE_32
  {
    Pow2Of32();
    Pow2Adds(prefix, 32 - prefix);
    MultipleFits(a, BlockSize(prefix), Pow2(prefix));
  }

  lemma MultipleFits(a: nat, s: int, t: int)
    requires s > 0 && a < t * s
    ensures (a / s) * s + s <= t * s
  {
    QuotientBounds(a, s);
    if a / s >= t {
      MulGrows(t, a / s, s);
    }
    MulGrows(a / s + 1, t, s);
    assert (a / s + 1) * s == (a / s) * s + s;
  }

  function Add32(a: nat, b: nat): Address {
    (a + b) % TWO_TO_THE_32
  }

  function Mul32(a: nat, b: nat): Address {
    (a * b) % TWO_TO_THE_32
  }
}
