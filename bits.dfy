/** Go's bitwise operators on non-negative `int`s, written as arithmetic on
    `nat` so that they can be reasoned about bit by bit. */
module Bits {

  /** `1 << k` */
  function Pow2(k: nat): (r: nat)
    ensures r > 0
  {
    if k == 0 then 1 else 2 * Pow2(k - 1)
  }

  /** Bit `k` of `x`: `(x >> k) & 1 == 1` */
  predicate Bit(x: nat, k: nat)
  {
    if k == 0 then x % 2 == 1 else Bit(x / 2, k - 1)
  }

  /** `a | b` */
  function Or(a: nat, b: nat): (r: nat)
    decreases a + b
  {
    if a == 0 && b == 0 then 0
    else 2 * Or(a / 2, b / 2) + (if a % 2 == 1 || b % 2 == 1 then 1 else 0)
  }

  /** `a &^ b`, which is `a & ^b` for a non-negative `a` */
  function AndNot(a: nat, b: nat): (r: nat)
    decreases a
  {
    if a == 0 then 0
    else 2 * AndNot(a / 2, b / 2) + (if a % 2 == 1 && !(b % 2 == 1) then 1 else 0)
  }

  lemma {:induction false} ZeroBit(k: nat)
    ensures !Bit(0, k)
  {
    if k > 0 { ZeroBit(k - 1); }
  }

  /** `1 << k` has exactly bit `k` set. */
  lemma {:induction false} Pow2Bit(k: nat, j: nat)
    ensures Bit(Pow2(k), j) <==> j == k
  {
    if j == 0 {
    } else if k == 0 {
      ZeroBit(j - 1);
    } else {
      Pow2Bit(k - 1, j - 1);
    }
  }

  lemma {:induction false} OrBit(a: nat, b: nat, k: nat)
    ensures Bit(Or(a, b), k) <==> Bit(a, k) || Bit(b, k)
    decreases k
  {
    if k > 0 {
      if a == 0 && b == 0 {
        ZeroBit(k);
      } else {
        OrBit(a / 2, b / 2, k - 1);
      }
    }
  }

  lemma {:induction false} AndNotBit(a: nat, b: nat, k: nat)
    ensures Bit(AndNot(a, b), k) <==> Bit(a, k) && !Bit(b, k)
    decreases k
  {
    if k > 0 {
      if a == 0 {
        ZeroBit(k);
      } else {
        AndNotBit(a / 2, b / 2, k - 1);
      }
    }
  }

  /** `|` of two `n`-bit values is an `n`-bit value. */
  lemma {:induction false} OrBound(a: nat, b: nat, n: nat)
    requires a < Pow2(n) && b < Pow2(n)
    ensures Or(a, b) < Pow2(n)
  {
    if n > 0 && !(a == 0 && b == 0) {
      OrBound(a / 2, b / 2, n - 1);
    }
  }

  /** Clearing bits never makes a value larger. */
  lemma {:induction false} AndNotBound(a: nat, b: nat)
    ensures AndNot(a, b) <= a
    decreases a
  {
    if a > 0 {
      AndNotBound(a / 2, b / 2);
    }
  }

  /** Two `n`-bit values with the same low `n` bits are equal. */
  lemma {:induction false} BitsEqual(a: nat, b: nat, n: nat)
    requires a < Pow2(n) && b < Pow2(n)
    requires forall j: nat | j < n :: Bit(a, j) == Bit(b, j)
    ensures a == b
  {
    if n > 0 {
      assert Bit(a, 0) == Bit(b, 0);
      forall j: nat | j < n - 1
        ensures Bit(a / 2, j) == Bit(b / 2, j)
      {
        assert Bit(a, j + 1) == Bit(b, j + 1);
      }
      BitsEqual(a / 2, b / 2, n - 1);
    }
  }

  lemma {:induction false} MulAtLeast(b: nat, d: nat)
    requires d >= 1
    ensures b * d >= b
    decreases d
  {
    if d > 1 {
      MulAtLeast(b, d - 1);
      assert b * d == b * (d - 1) + b;
    }
  }

  /** Euclidean division has exactly one quotient. */
  lemma DivUnique(a: int, b: nat, q: int, r: int)
    requires b > 0 && a == b * q + r && 0 <= r < b
    ensures a / b == q
  {
    var q' := a / b;
    assert a == b * q' + a % b;
    if q > q' {
      MulAtLeast(b, q - q');
    } else if q < q' {
      MulAtLeast(b, q' - q);
    }
  }

  /** `x >> (k + 1)` is `(x >> 1) >> k`. */
  lemma DivHalf(m: int, p: nat)
    requires p > 0
    ensures m / (2 * p) == (m / 2) / p
  {
    var d := 2 * p;
    var q := m / d;
    var r := m % d;
    assert m == d * q + r && 0 <= r < d;
    assert d * q == 2 * (p * q);
    DivUnique(m, 2, p * q + r / 2, r % 2);
    DivUnique(m / 2, p, q, r / 2);
  }

  /** Bit `k` of `x` is the low bit of `x / 2^k`, which is how a one-bit
      mask test `x & (1 << k) != 0` reads it. */
  lemma {:induction false} ShiftBit(x: nat, k: nat)
    ensures Bit(x, k) <==> (x / Pow2(k)) % 2 == 1
    decreases k
  {
    if k > 0 {
      DivHalf(x, Pow2(k - 1));
      ShiftBit(x / 2, k - 1);
    }
  }
}
