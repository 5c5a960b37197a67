/** Python's arbitrary-precision bit operations on `int`, written out over unbounded integers.
    Python treats a negative integer as an infinite two's-complement bit string; floor division
    by 2 (which Dafny's Euclidean `/` coincides with for a positive divisor) drops its lowest bit. */
module Bits {

  /** `1 << n`: bit `n` is set (and, by `Pow2LowBitsClear`, every bit below it is clear). */
  function Pow2(n: nat): (r: nat)
    ensures r >= 1
    ensures Bit(r, n)
  {
    if n == 0 then 1 else 2 * Pow2(n - 1)
  }

  /** Every bit of `1 << n` below bit `n` is clear. */
  lemma {:induction false} Pow2LowBitsClear(n: nat, b: nat)
    requires b < n
    ensures !Bit(Pow2(n), b)
    decreases b
  {
    if b > 0 {
      Pow2LowBitsClear(n - 1, b - 1);
      assert Pow2(n) / 2 == Pow2(n - 1);
    }
  }

  /** Bit `b` of the two's-complement representation of `m`: the reference definition the
      objective flags are checked against. */
  function Bit(m: int, b: nat): bool
    decreases b
  {
    if b == 0 then m % 2 == 1 else Bit(m / 2, b - 1)
  }

  function Abs(x: int): nat {
    if x < 0 then -x else x
  }

  /** Python's `a & b` on integers of any sign. 0 is the all-zeros and -1 the all-ones bit string;
      otherwise the lowest bits are combined and the rest is the `&` of the halved operands. */
  function BitAnd(a: int, b: int): int
    decreases Abs(a) + Abs(b)
  {
    if a == 0 || b == 0 then 0
    else if a == -1 then b
    else if b == -1 then a
    else 2 * BitAnd(a / 2, b / 2) + (a % 2) * (b % 2)
  }

  /** The number whose bit `b` is `flags[b]`, for `b < |flags|`, and whose other bits are clear. */
  function MaskOf(flags: seq<bool>): (m: nat)
    ensures m < Pow2(|flags|)
  {
    if |flags| == 0 then 0 else (if flags[0] then 1 else 0) + 2 * MaskOf(flags[1..])
  }

  /** The lowest `n` bits of `m`, lowest first. */
  function LowBits(m: int, n: nat): (bits: seq<bool>)
    ensures |bits| == n
  {
    seq(n, b requires 0 <= b < n => Bit(m, b))
  }

  /** `mask & (1 << k)` is `1 << k` when bit `k` of `mask` is set and 0 otherwise, for every
      integer `mask`, negative ones included. */
  lemma {:induction false} BitAndPow2(m: int, k: nat)
    ensures BitAnd(m, Pow2(k)) == if Bit(m, k) then Pow2(k) else 0
    decreases k
  {
    if k > 0 {
      BitAndPow2(m / 2, k - 1);
      assert Pow2(k) / 2 == Pow2(k - 1) && Pow2(k) % 2 == 0;
    }
  }

  /** A positive multiple of a positive number is at least that number. */
  lemma MulAtLeast(d: int, k: int)
    requires d > 0 && k >= 1
    ensures d * k >= d
  {
    assert d * k == d + d * (k - 1);
  }

  /** Division with remainder by a positive divisor has exactly one answer. */
  lemma DivModUnique(x: int, d: int, q: int, r: int)
    requires d > 0 && 0 <= r < d && x == d * q + r
    ensures x / d == q && x % d == r
  {
    var q', r' := x / d, x % d;
    assert x == d * q' + r';
    if q' < q {
      assert d * q == d * q' + d * (q - q');
      MulAtLeast(d, q - q');
    } else if q' > q {
      assert d * q' == d * q + d * (q' - q);
      MulAtLeast(d, q' - q);
    }
  }

  /** Reducing modulo `2 * p` keeps the lowest bit and reduces the remaining bits modulo `p`. */
  lemma ModDouble(m: int, p: nat)
    requires p > 0
    ensures (m % (2 * p)) % 2 == m % 2
    ensures (m % (2 * p)) / 2 == (m / 2) % p
  {
    var q, r := m / (2 * p), m % (2 * p);
    assert m == (2 * p) * q + r;
    assert (2 * p) * q == 2 * (p * q);
    assert m / 2 == p * q + r / 2;
    DivModUnique(m / 2, p, q, r / 2);
  }

  /** Bits below position `k` survive reduction modulo `2^k`. */
  lemma {:induction false} BitOfMod(m: int, k: nat, b: nat)
    requires b < k
    ensures Bit(m % Pow2(k), b) == Bit(m, b)
    decreases b
  {
    ModDouble(m, Pow2(k - 1));
    if b > 0 {
      BitOfMod(m / 2, k - 1, b - 1);
    }
  }

  /** `MaskOf` places each flag at its own bit position. */
  lemma {:induction false} BitOfMaskOf(flags: seq<bool>, b: nat)
    requires b < |flags|
    ensures Bit(MaskOf(flags), b) == flags[b]
    decreases b
  {
    if b > 0 {
      BitOfMaskOf(flags[1..], b - 1);
    }
  }

  /** Collecting the lowest `n` bits of `m` and packing them again gives `m` modulo `2^n`. */
  lemma {:induction false} MaskOfLowBits(m: int, n: nat)
    ensures MaskOf(LowBits(m, n)) == m % Pow2(n)
    decreases n
  {
    if n > 0 {
      assert LowBits(m, n)[1..] == LowBits(m / 2, n - 1);
      MaskOfLowBits(m / 2, n - 1);
      ModDouble(m, Pow2(n - 1));
    }
  }

  /** Packing flags into a mask and reading the bits back returns the flags. */
  lemma LowBitsMaskOf(flags: seq<bool>)
    ensures LowBits(MaskOf(flags), |flags|) == flags
  {
    forall b | 0 <= b < |flags|
      ensures LowBits(MaskOf(flags), |flags|)[b] == flags[b]
    {
      BitOfMaskOf(flags, b);
    }
  }
}
