/** Python's integer and list semantics, as far as the LS-8 CPU relies on them.
    Python integers are unbounded, like Dafny's `int`; what differs is indexing
    (negative indices count from the end), `%` (floored, not Euclidean), and the
    shift and bitwise operators, which act on an infinite two's-complement
    representation. */
module PyInt {

  // ---------------------------------------------------------------------------
  // List indexing

  /** `xs[i]` on a Python list of length `n` succeeds exactly for -n <= i < n;
      any other index raises IndexError. */
  predicate ValidIndex(i: int, n: nat) {
    -(n as int) <= i < n
  }

  /** The cell that `xs[i]` designates: the slot congruent to `i` modulo `n`. */
  function At(i: int, n: nat): (k: nat)
    requires ValidIndex(i, n)
    ensures k < n
    ensures (k - i) % n == 0
    ensures 0 <= i ==> k == i
  {
    if i < 0 then i + n else i
  }

  // ---------------------------------------------------------------------------
  // Arithmetic

  function Pow2(n: nat): (r: nat)
    ensures r >= 1
  {
    if n == 0 then 1 else 2 * Pow2(n - 1)
  }

  /** Division with remainder is unique: the quotient of `x` by `m` is the `q`
      that leaves a remainder in [0, m). */
  lemma DivUnique(x: int, m: int, q: int, r: int)
    requires m > 0 && x == m * q + r && 0 <= r < m
    ensures x / m == q && x % m == r
  {
    var q', r' := x / m, x % m;
    assert m * q + r == m * q' + r';
    if q < q' {
      MulAtLeast(m, q' - q);
    } else if q > q' {
      MulAtLeast(m, q - q');
    }
  }

  lemma MulAtLeast(m: int, k: int)
    requires m > 0 && k >= 1
    ensures m * k >= m
  {
    assert m * k == m + m * (k - 1);
  }

  /** Python's `a % b`: the remainder takes the sign of the divisor. It is the one
      value in (b, 0] or [0, b) that differs from `a` by a multiple of `b`.
      Python raises ZeroDivisionError for b == 0, which callers check first. */
  function FloorMod(a: int, b: int): (r: int)
    requires b != 0
    ensures b > 0 ==> 0 <= r < b
    ensures b < 0 ==> b < r <= 0
    ensures (a - r) % b == 0
  {
    var e := a % b;
    MultipleMod(b, a / b);
    MultipleMod(b, a / b - 1);
    if e == 0 || b > 0 then e else e + b
  }

  /** A multiple of `b` leaves no Euclidean remainder. */
  lemma MultipleMod(b: int, k: int)
    requires b != 0
    ensures (b * k) % b == 0
  {
    if b > 0 {
      DivUnique(b * k, b, k, 0);
    } else {
      DivUnique(b * k, -b, -k, 0);
      assert (b * k) % (-b) == 0;
      NegDivisorMod(b * k, b);
    }
  }

  lemma NegDivisorMod(x: int, b: int)
    requires b < 0
    ensures x % b == x % (-b)
  {
    DivUnique(x, -b, x / (-b), x % (-b));
    assert x == b * (-(x / (-b))) + x % (-b);
  }

  // ---------------------------------------------------------------------------
  // Shifts

  /** Python's `a << n` for n >= 0 (a negative count raises ValueError). */
  function Shl(a: int, n: nat): int {
    a * Pow2(n)
  }

  /** Python's `a >> n` for n >= 0: floor division by 2^n. Dafny's `/` with a
      positive divisor already rounds toward negative infinity. */
  function Shr(a: int, n: nat): int {
    a / Pow2(n)
  }

  lemma HalveTwice(x: int, d: int)
    requires d > 0
    ensures (x / 2) / d == x / (2 * d)
  {
    var q1, r1 := x / 2, x % 2;
    var q2, r2 := q1 / d, q1 % d;
    assert x == 2 * (d * q2 + r2) + r1;
    assert x == (2 * d) * q2 + (2 * r2 + r1);
    DivUnique(x, 2 * d, q2, 2 * r2 + r1);
  }

  /** Shifting right by n + 1 is halving, then shifting right by n. */
  lemma {:induction false} ShrStep(a: int, n: nat)
    ensures Shr(a, n + 1) == Shr(a / 2, n)
  {
    HalveTwice(a, Pow2(n));
  }

  /** `(a << n) >> n == a`: a left shift loses nothing. */
  lemma ShrUndoesShl(a: int, n: nat)
    ensures Shr(Shl(a, n), n) == a
  {
    DivUnique(a * Pow2(n), Pow2(n), a, 0);
  }

  // ---------------------------------------------------------------------------
  // Two's-complement bits

  /** Bit `i` of the infinite two's-complement representation of `a`. */
  function Bit(a: int, i: nat): bool
    decreases i
  {
    if i == 0 then a % 2 == 1 else Bit(a / 2, i - 1)
  }

  lemma {:induction false} ZeroBits(i: nat)
    ensures !Bit(0, i)
  {
    if i > 0 { ZeroBits(i - 1); }
  }

  lemma {:induction false} MinusOneBits(i: nat)
    ensures Bit(-1, i)
  {
    if i > 0 { assert -1 / 2 == -1; MinusOneBits(i - 1); }
  }

  /** Distance from the fixed points 0 and -1 of halving: the measure on which
      the bitwise operators recurse. */
  function Mag(a: int): nat {
    if a >= 0 then a else -a - 1
  }

  lemma HalveMag(a: int)
    ensures Mag(a / 2) <= Mag(a)
    ensures Mag(a) > 0 ==> Mag(a / 2) < Mag(a)
  {
  }

  /** The low bit that a value contributes: 0 or 1. */
  function Low(a: int): int {
    a % 2
  }

  /** Python's `a & b` on unbounded integers. */
  function BitAnd(a: int, b: int): int
    decreases Mag(a) + Mag(b)
  {
    if Mag(a) + Mag(b) == 0 then
      (if a == -1 && b == -1 then -1 else 0)
    else
      HalveMag(a); HalveMag(b);
      2 * BitAnd(a / 2, b / 2) + (if Low(a) == 1 && Low(b) == 1 then 1 else 0)
  }

  /** Python's `a | b` on unbounded integers. */
  function BitOr(a: int, b: int): int
    decreases Mag(a) + Mag(b)
  {
    if Mag(a) + Mag(b) == 0 then
      (if a == 0 && b == 0 then 0 else -1)
    else
      HalveMag(a); HalveMag(b);
      2 * BitOr(a / 2, b / 2) + (if Low(a) == 1 || Low(b) == 1 then 1 else 0)
  }

  /** Python's `a ^ b` on unbounded integers. */
  function BitXor(a: int, b: int): int
    decreases Mag(a) + Mag(b)
  {
    if Mag(a) + Mag(b) == 0 then
      (if a == b then 0 else -1)
    else
      HalveMag(a); HalveMag(b);
      2 * BitXor(a / 2, b / 2) + (if Low(a) != Low(b) then 1 else 0)
  }

  /** The two facts about `2 * h + c` that the bit lemmas need. */
  lemma SplitLow(h: int, c: int)
    requires c == 0 || c == 1
    ensures (2 * h + c) % 2 == c && (2 * h + c) / 2 == h
  {
  }

  /** Every bit of `a & b` is the conjunction of the operands' bits. */
  lemma {:induction false} AndBits(a: int, b: int, i: nat)
    ensures Bit(BitAnd(a, b), i) == (Bit(a, i) && Bit(b, i))
    decreases i
  {
    if Mag(a) + Mag(b) == 0 {
      ZeroBits(i);
      MinusOneBits(i);
    } else {
      var c := if Low(a) == 1 && Low(b) == 1 then 1 else 0;
      SplitLow(BitAnd(a / 2, b / 2), c);
      if i > 0 { AndBits(a / 2, b / 2, i - 1); }
    }
  }

  /** Every bit of `a | b` is the disjunction of the operands' bits. */
  lemma {:induction false} OrBits(a: int, b: int, i: nat)
    ensures Bit(BitOr(a, b), i) == (Bit(a, i) || Bit(b, i))
    decreases i
  {
    if Mag(a) + Mag(b) == 0 {
      ZeroBits(i);
      MinusOneBits(i);
    } else {
      var c := if Low(a) == 1 || Low(b) == 1 then 1 else 0;
      SplitLow(BitOr(a / 2, b / 2), c);
      if i > 0 { OrBits(a / 2, b / 2, i - 1); }
    }
  }

  /** Every bit of `a ^ b` is set exactly where the operands' bits differ. */
  lemma {:induction false} XorBits(a: int, b: int, i: nat)
    ensures Bit(BitXor(a, b), i) == (Bit(a, i) != Bit(b, i))
    decreases i
  {
    if Mag(a) + Mag(b) == 0 {
      ZeroBits(i);
      MinusOneBits(i);
    } else {
      var c := if Low(a) != Low(b) then 1 else 0;
      SplitLow(BitXor(a / 2, b / 2), c);
      if i > 0 { XorBits(a / 2, b / 2, i - 1); }
    }
  }

  /** `a << n` moves bit i to bit i + n and clears the n low bits. */
  lemma {:induction false} ShlBits(a: int, n: nat, i: nat)
    ensures Bit(Shl(a, n), i + n) == Bit(a, i)
    ensures i < n ==> !Bit(Shl(a, n), i)
    decreases n
  {
    if n > 0 {
      var s := Shl(a, n - 1);
      assert Shl(a, n) == 2 * s + 0;
      SplitLow(s, 0);
      ShlBits(a, n - 1, i);
      if 0 < i < n { ShlBits(a, n - 1, i - 1); }
    }
  }

  /** `a >> n` moves bit i + n down to bit i. */
  lemma {:induction false} ShrBits(a: int, n: nat, i: nat)
    ensures Bit(Shr(a, n), i) == Bit(a, i + n)
    decreases n
  {
    if n > 0 {
      ShrStep(a, n - 1);
      ShrBits(a / 2, n - 1, i);
    }
  }
}
