/**
 * The C integer operators that the LED-strip header is built from, on
 * unbounded integers.
 *
 * `&` and `|` are defined bit by bit (lowest bit first), so they say what the
 * C operators do and not what they are used for; `And` covers negative
 * operands as their two's-complement representation does. `<<` and `>>` on
 * non-negative operands shift one place at a time. `Bit` is the digit-by-digit
 * reading of a binary numeral, and `Pow2` the arithmetic reading of a shift;
 * the lemmas connect the shift-and-mask expressions to both.
 */
module CBits {

  /** 2 to the power n. */
  function Pow2(n: nat): (r: nat)
    ensures r >= 1
  {
    if n == 0 then 1 else 2 * Pow2(n - 1)
  }

  function Abs(a: int): nat {
    if a < 0 then -a else a
  }

  /** C's `a & b` on two's-complement integers; masking a non-negative value
      can only clear bits of it. */
  function And(a: int, b: int): (r: int)
    ensures 0 <= a ==> 0 <= r <= a
    ensures 0 <= b ==> 0 <= r <= b
    decreases Abs(a) + Abs(b)
  {
    if a == 0 || b == 0 then 0
    else if a == -1 then b
    else if b == -1 then a
    else 2 * And(a / 2, b / 2) + (if a % 2 == 1 && b % 2 == 1 then 1 else 0)
  }

  /** C's `a | b` on non-negative integers. */
  function Or(a: nat, b: nat): nat
  {
    if a == 0 then b
    else if b == 0 then a
    else 2 * Or(a / 2, b / 2) + (if a % 2 == 1 || b % 2 == 1 then 1 else 0)
  }

  /** C's `v << n` on a non-negative value: n doublings. */
  function Shl(v: nat, n: nat): (r: nat)
    ensures v <= r
    ensures v == 0 ==> r == 0
  {
    if n == 0 then v else 2 * Shl(v, n - 1)
  }

  /** C's `v >> n` on a non-negative value: n halvings, rounding down. */
  function Shr(v: nat, n: nat): (r: nat)
    ensures r <= v
  {
    if n == 0 then v else Shr(v / 2, n - 1)
  }

  /** Digit i (counting from the least significant, 0) of v written in binary. */
  predicate Bit(v: nat, i: nat) {
    if i == 0 then v % 2 == 1 else Bit(v / 2, i - 1)
  }

  // ---------------------------------------------------------------------------
  // Arithmetic facts used by the bit-level lemmas

  lemma MulOutside(d: int, t: int)
    requires d > 0
    ensures t >= 1 ==> d * t >= d
    ensures t <= -1 ==> d * t <= -d
  {
  }

  /** Euclidean division has one quotient and one remainder. */
  lemma DivModUnique(x: int, d: int, q: int, m: int)
    requires d > 0 && 0 <= m < d && x == d * q + m
    ensures x / d == q && x % d == m
  {
    var t := q - x / d;
    assert d * t == x % d - m;
    MulOutside(d, t);
  }

  /** Dividing by 2p is halving and then dividing by p; the remainders agree. */
  lemma DivModHalf(x: int, p: nat)
    requires p >= 1
    ensures x / (2 * p) == (x / 2) / p
    ensures x % (2 * p) == 2 * ((x / 2) % p) + x % 2
  {
    var q, r := x / 2, x % 2;
    var k, s := q / p, q % p;
    assert x == 2 * q + r;
    assert q == p * k + s;
    assert x == (2 * p) * k + (2 * s + r);
    DivModUnique(x, 2 * p, k, 2 * s + r);
  }

  lemma DoubleFactor(a: int, p: int)
    ensures a * (2 * p) == 2 * (a * p)
  {
  }

  /** The powers that the LED-strip fields use. */
  lemma Pow2Values()
    ensures Pow2(1) == 2 && Pow2(4) == 16 && Pow2(6) == 64 && Pow2(8) == 256 && Pow2(16) == 65536
  {
    assert Pow2(2) == 4;
    assert Pow2(4) == 16;
    assert Pow2(6) == 64;
    assert Pow2(8) == 256;
    assert Pow2(12) == 4096;
    assert Pow2(16) == 65536;
  }

  lemma {:induction false} Pow2Add(a: nat, b: nat)
    ensures Pow2(a + b) == Pow2(a) * Pow2(b)
  {
    if a > 0 {
      Pow2Add(a - 1, b);
    }
  }

  lemma {:induction false} Pow2Monotone(a: nat, b: nat)
    requires a < b
    ensures Pow2(a) < Pow2(b)
  {
    if a + 1 < b {
      Pow2Monotone(a, b - 1);
    }
  }

  // ---------------------------------------------------------------------------
  // Shifts

  /** Shifting left by n multiplies by 2^n. */
  lemma {:induction false} ShlIsMul(v: nat, n: nat)
    ensures Shl(v, n) == v * Pow2(n)
  {
    if n > 0 {
      ShlIsMul(v, n - 1);
      DoubleFactor(v, Pow2(n - 1));
    }
  }

  /** Shifting right by n divides by 2^n, rounding down. */
  lemma {:induction false} ShrIsDiv(v: nat, n: nat)
    ensures Shr(v, n) == v / Pow2(n)
  {
    if n > 0 {
      ShrIsDiv(v / 2, n - 1);
      DivModHalf(v, Pow2(n - 1));
    }
  }

  /** `1 << n` is 2^n. */
  lemma {:induction false} ShlOne(n: nat)
    ensures Shl(1, n) == Pow2(n)
  {
    if n > 0 {
      ShlOne(n - 1);
    }
  }

  /** Shifting right undoes shifting left by the same amount. */
  lemma {:induction false} ShrShl(a: nat, k: nat)
    ensures Shr(Shl(a, k), k) == a
  {
    if k > 0 {
      ShrShl(a, k - 1);
    }
  }

  // ---------------------------------------------------------------------------
  // AND with masks

  /** The n low bits of x, rebuilt digit by digit (x's two's-complement
      digits when x is negative). */
  function LowBits(x: int, n: nat): (r: int)
    decreases n
  {
    if n == 0 then 0 else 2 * LowBits(x / 2, n - 1) + x % 2
  }

  /** The n low digits of x are x reduced modulo 2^n. */
  lemma {:induction false} LowBitsIsMod(x: int, n: nat)
    ensures LowBits(x, n) == x % Pow2(n)
    decreases n
  {
    if n > 0 {
      LowBitsIsMod(x / 2, n - 1);
      DivModHalf(x, Pow2(n - 1));
    }
  }

  /** Masking with 2^n - 1 keeps the n low bits: it is reduction modulo 2^n,
      for negative operands too. */
  lemma AndLowMask(x: int, n: nat)
    ensures And(x, Pow2(n) - 1) == x % Pow2(n)
  {
    AndLowDigits(x, n);
    LowBitsIsMod(x, n);
  }

  lemma {:induction false} AndLowDigits(x: int, n: nat)
    ensures And(x, Pow2(n) - 1) == LowBits(x, n)
    decreases n
  {
    if n == 0 {
    } else if x == 0 {
      LowBitsOfZero(n);
    } else if x == -1 {
      LowBitsOfMinusOne(n);
    } else {
      AndLowDigits(x / 2, n - 1);
      AndLowDigitsStep(x, n);
    }
  }

  lemma AndLowDigitsStep(x: int, n: nat)
    requires n > 0 && x != 0 && x != -1
    requires And(x / 2, Pow2(n - 1) - 1) == LowBits(x / 2, n - 1)
    ensures And(x, Pow2(n) - 1) == LowBits(x, n)
  {
    var p := Pow2(n - 1);
    var m := 2 * p - 1;
    assert m % 2 == 1 && m / 2 == p - 1;
    AndOddMask(x, m);
  }

  lemma {:induction false} LowBitsOfZero(n: nat)
    ensures LowBits(0, n) == 0
  {
    if n > 0 {
      LowBitsOfZero(n - 1);
    }
  }

  lemma {:induction false} LowBitsOfMinusOne(n: nat)
    ensures LowBits(-1, n) == Pow2(n) - 1
  {
    if n > 0 {
      LowBitsOfMinusOne(n - 1);
    }
  }

  /** An odd mask keeps the lowest bit and masks the rest one place down. */
  lemma AndOddMask(x: int, m: nat)
    requires x != 0 && x != -1 && m % 2 == 1
    ensures And(x, m) == 2 * And(x / 2, m / 2) + x % 2
  {
  }

  /** An even mask clears the lowest bit and masks the rest one place down. */
  lemma AndEvenMask(v: nat, m: nat)
    requires m >= 2 && m % 2 == 0
    ensures And(v, m) == 2 * And(v / 2, m / 2)
  {
  }

  /** Masking with a block of w one-bits moved up to bit k extracts that bit
      field of v, left in place. */
  lemma {:induction false} AndFieldMask(v: nat, w: nat, k: nat)
    ensures And(v, Shl(Pow2(w) - 1, k)) == Shl(Shr(v, k) % Pow2(w), k)
  {
    if k == 0 {
      AndLowMask(v, w);
    } else if w > 0 && v != 0 {
      var m := Shl(Pow2(w) - 1, k);
      assert m / 2 == Shl(Pow2(w) - 1, k - 1);
      AndEvenMask(v, m);
      AndFieldMask(v / 2, w, k - 1);
    }
  }

  /** Masking and shifting down extracts the w-bit field at bit k. */
  lemma ExtractField(v: nat, w: nat, k: nat)
    ensures Shr(And(v, Shl(Pow2(w) - 1, k)), k) == Shr(v, k) % Pow2(w)
  {
    AndFieldMask(v, w, k);
    ShrShl(Shr(v, k) % Pow2(w), k);
  }

  /** A value below 2^k shares no bit with anything shifted left by k. */
  lemma {:induction false} AndShiftedApart(a: nat, b: nat, k: nat)
    requires a < Pow2(k)
    ensures And(a, Shl(b, k)) == 0
  {
    if k > 0 && a != 0 && b != 0 {
      var m := Shl(b, k);
      assert m / 2 == Shl(b, k - 1);
      AndEvenMask(a, m);
      AndShiftedApart(a / 2, b, k - 1);
    }
  }

  // ---------------------------------------------------------------------------
  // OR of non-overlapping values

  lemma {:induction false} OrCommutes(a: nat, b: nat)
    ensures Or(a, b) == Or(b, a)
  {
    if a != 0 && b != 0 {
      OrCommutes(a / 2, b / 2);
    }
  }

  /** OR-ing a value shifted left by k with a value below 2^k adds them:
      their bits do not overlap. */
  lemma {:induction false} OrShiftedDisjoint(a: nat, b: nat, k: nat)
    requires b < Pow2(k)
    ensures Or(Shl(a, k), b) == Shl(a, k) + b
  {
    if k > 0 && a != 0 && b != 0 {
      OrShiftedDisjoint(a, b / 2, k - 1);
    }
  }

  // ---------------------------------------------------------------------------
  // Single bits

  /** C's bit test `(v >> i) & 1` reads digit i of v. */
  lemma {:induction false} BitIsShiftedParity(v: nat, i: nat)
    ensures Bit(v, i) <==> Shr(v, i) % 2 == 1
  {
    if i > 0 {
      BitIsShiftedParity(v / 2, i - 1);
    }
  }

  lemma {:induction false} BitOfZero(i: nat)
    ensures !Bit(0, i)
  {
    if i > 0 {
      BitOfZero(i - 1);
    }
  }

  /** 2^n has exactly one bit set, bit n. */
  lemma {:induction false} BitOfPow2(n: nat, i: nat)
    ensures Bit(Pow2(n), i) <==> i == n
  {
    if i > 0 {
      if n == 0 {
        BitOfZero(i - 1);
      } else {
        BitOfPow2(n - 1, i - 1);
      }
    }
  }

  /** A value below 2^n has no bit at or above n. */
  lemma {:induction false} BitAboveWidth(v: nat, n: nat, i: nat)
    requires v < Pow2(n) && n <= i
    ensures !Bit(v, i)
  {
    if v == 0 {
      BitOfZero(i);
    } else {
      BitAboveWidth(v / 2, n - 1, i - 1);
    }
  }
}
