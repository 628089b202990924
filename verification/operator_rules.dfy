/**
 * `has_permission` from the operator style rules: `flag & 0b1000 != 0`.
 *
 * Python integers are unbounded and its bitwise operators act on their
 * infinite two's-complement representation, so `&` and `^` are defined here
 * on `int` by recursion on the lowest bit. Dafny's `/` and `%` with a
 * positive divisor are floor division and a non-negative remainder, which is
 * what Python's `//` and `%` do, so `a / 2` is Python's `a >> 1` for every
 * int, negative ones included.
 */
module OperatorRules {

  /** Distance of `a` from the two fixed points 0 and -1 of `a >> 1`. */
  function Magnitude(a: int): nat {
    if a >= 0 then a else -a - 1
  }

  /** Bit k of the two's-complement representation of a: `(a >> k) & 1 == 1`. */
  function Bit(a: int, k: nat): bool
    decreases k
  {
    if k == 0 then a % 2 == 1 else Bit(a / 2, k - 1)
  }

  function Pow2(k: nat): (p: nat)
    ensures p > 0
  {
    if k == 0 then 1 else 2 * Pow2(k - 1)
  }

  /** Python's `a & b` on unbounded ints. */
  function BitAnd(a: int, b: int): int
    decreases Magnitude(a)
  {
    if a == 0 then 0
    else if a == -1 then b
    else 2 * BitAnd(a / 2, b / 2) + (a % 2) * (b % 2)
  }

  /** Python's `~b`, i.e. `-b - 1`. */
  function BitNot(b: int): int {
    -b - 1
  }

  /** Python's `a ^ b` on unbounded ints. */
  function BitXor(a: int, b: int): int
    decreases Magnitude(a)
  {
    if a == 0 then b
    else if a == -1 then BitNot(b)
    else 2 * BitXor(a / 2, b / 2) + (a % 2 + b % 2) % 2
  }

  /** The Python mask literal `0b1000`. */
  const PermissionMask: int := 8

  /**
   * has_permission(flag): `flag & 0b1000 != 0`. Python's `&` binds tighter
   * than `!=`, so this is `(flag & 0b1000) != 0`, not `flag & (0b1000 != 0)`.
   */
  function HasPermission(flag: int): bool {
    BitAnd(flag, PermissionMask) != 0
  }

  // ---------------------------------------------------------------------------
  // Bits of the operators
  // ---------------------------------------------------------------------------

  /** Splitting off the lowest bit: `(2*q + r) >> 1 == q` and its low bit is r. */
  lemma ShiftLowBit(q: int, r: int)
    requires 0 <= r < 2
    ensures (2 * q + r) / 2 == q && (2 * q + r) % 2 == r
  {
  }

  lemma {:induction false} BitOfZero(k: nat)
    ensures !Bit(0, k)
  {
    if k > 0 { BitOfZero(k - 1); }
  }

  lemma {:induction false} BitOfMinusOne(k: nat)
    ensures Bit(-1, k)
  {
    if k > 0 { BitOfMinusOne(k - 1); }
  }

  /** `~b` flips every bit of b. */
  lemma {:induction false} BitNotBit(b: int, k: nat)
    ensures Bit(BitNot(b), k) == !Bit(b, k)
    decreases k
  {
    ShiftLowBit(b / 2, b % 2);
    ShiftLowBit(-(b / 2) - 1, 1 - b % 2);
    assert BitNot(b) == 2 * (-(b / 2) - 1) + (1 - b % 2);
    if k > 0 {
      BitNotBit(b / 2, k - 1);
    }
  }

  /** Bit k of `a & b` is set exactly when bit k is set in both a and b. */
  lemma {:induction false} BitAndBit(a: int, b: int, k: nat)
    ensures Bit(BitAnd(a, b), k) == (Bit(a, k) && Bit(b, k))
    decreases Magnitude(a)
  {
    if a == 0 {
      BitOfZero(k);
    } else if a == -1 {
      BitOfMinusOne(k);
    } else {
      ShiftLowBit(BitAnd(a / 2, b / 2), (a % 2) * (b % 2));
      if k > 0 {
        BitAndBit(a / 2, b / 2, k - 1);
      }
    }
  }

  /** Bit k of `a ^ b` is set exactly when bit k differs between a and b. */
  lemma {:induction false} BitXorBit(a: int, b: int, k: nat)
    ensures Bit(BitXor(a, b), k) == (Bit(a, k) != Bit(b, k))
    decreases Magnitude(a)
  {
    if a == 0 {
      BitOfZero(k);
    } else if a == -1 {
      BitOfMinusOne(k);
      BitNotBit(b, k);
    } else {
      ShiftLowBit(BitXor(a / 2, b / 2), (a % 2 + b % 2) % 2);
      if k > 0 {
        BitXorBit(a / 2, b / 2, k - 1);
      }
    }
  }

  lemma {:induction false} BitAndZero(a: int)
    ensures BitAnd(a, 0) == 0
    decreases Magnitude(a)
  {
    if a != 0 && a != -1 {
      BitAndZero(a / 2);
    }
  }

  /** Masking with a single bit `1 << k` leaves either that bit or nothing. */
  lemma {:induction false} BitAndPow2(a: int, k: nat)
    ensures BitAnd(a, Pow2(k)) == if Bit(a, k) then Pow2(k) else 0
    decreases Magnitude(a)
  {
    if a == 0 {
      BitOfZero(k);
    } else if a == -1 {
      BitOfMinusOne(k);
    } else if k == 0 {
      BitAndZero(a / 2);
    } else {
      assert Pow2(k) / 2 == Pow2(k - 1) && Pow2(k) % 2 == 0;
      BitAndPow2(a / 2, k - 1);
    }
  }

  /** A non-zero multiple of a positive m is at least m away from 0. */
  lemma MultipleAwayFromZero(m: int, e: int)
    requires m > 0
    ensures e >= 1 ==> m * e >= m
    ensures e <= -1 ==> m * e <= -m
  {
  }

  /** A quotient is determined by the interval the dividend falls in. */
  lemma DivisionUnique(h: int, m: int, q: int)
    requires m > 0 && m * q <= h < m * q + m
    ensures h / m == q
  {
    var d := h / m;
    assert m * d <= h < m * d + m;
    assert m * (d - q) == m * d - m * q;
    MultipleAwayFromZero(m, d - q);
  }

  /** `(a >> 1) // m == a // (2 * m)` for a positive m. */
  lemma HalveThenDivide(a: int, m: int)
    requires m > 0
    ensures a / 2 / m == a / (2 * m)
  {
    var q := a / (2 * m);
    var t := m * q;
    assert 2 * t <= a < 2 * t + 2 * m by {
      assert 2 * m * q == 2 * t;
    }
    var h := a / 2;
    assert t <= h < t + m;
    DivisionUnique(h, m, q);
  }

  /** Bit k of a is the parity of `a // 2**k`. */
  lemma {:induction false} BitIsQuotientParity(a: int, k: nat)
    ensures Bit(a, k) == (a / Pow2(k) % 2 == 1)
    decreases k
  {
    if k > 0 {
      BitIsQuotientParity(a / 2, k - 1);
      HalveThenDivide(a, Pow2(k - 1));
    }
  }

  // ---------------------------------------------------------------------------
  // has_permission
  // ---------------------------------------------------------------------------

  /** has_permission tests exactly bit 3 of the flag, for every int. */
  lemma HasPermissionIsBitThree(flag: int)
    ensures HasPermission(flag) == Bit(flag, 3)
    ensures BitAnd(flag, PermissionMask) == if Bit(flag, 3) then PermissionMask else 0
  {
    assert Pow2(3) == PermissionMask;
    BitAndPow2(flag, 3);
  }

  /** has_permission(flag) == ((flag // 8) % 2 == 1); Python's floor division makes this hold for negative flags too. */
  lemma HasPermissionIsQuotientParity(flag: int)
    ensures HasPermission(flag) == (flag / 8 % 2 == 1)
  {
    HasPermissionIsBitThree(flag);
    BitIsQuotientParity(flag, 3);
    assert Pow2(3) == 8;
  }

  /** Toggling any bits outside bit 3 leaves the permission unchanged. */
  lemma HasPermissionIgnoresOtherBits(flag: int, m: int)
    requires BitAnd(m, PermissionMask) == 0
    ensures HasPermission(BitXor(flag, m)) == HasPermission(flag)
  {
    HasPermissionIsBitThree(m);
    HasPermissionIsBitThree(flag);
    HasPermissionIsBitThree(BitXor(flag, m));
    BitXorBit(flag, m, 3);
  }

  /**
   * Sample flags: 0 and 7 lack the permission, 8 and 15 have it. The
   * misparse `flag & (0b1000 != 0)`, which is `flag & True`, i.e. `flag & 1`,
   * would instead deny flag 8 and grant flag 7.
   */
  lemma HasPermissionExamples()
    ensures !HasPermission(0) && !HasPermission(7)
    ensures HasPermission(8) && HasPermission(15)
    ensures BitAnd(8, 1) == 0 && BitAnd(7, 1) != 0
  {
  }
}
