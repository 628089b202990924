/**
 * The two integer helpers of the comment style rules, `add` and `square`.
 * Python ints are unbounded, so Dafny's `int` models them exactly: there is
 * no overflow to account for.
 */
module CommentRules {

  /** add(a, b): the sum of two integers. */
  function Add(a: int, b: int): int {
    a + b
  }

  /** square(x): x times itself. */
  function Square(x: int): int {
    x * x
  }

  // ---------------------------------------------------------------------------
  // add
  // ---------------------------------------------------------------------------

  /** Subtracting b undoes adding b, so add loses no information. */
  lemma AddThenSubtract(a: int, b: int)
    ensures Add(a, b) - b == a && Add(a, b) - a == b
  {
  }

  lemma AddCommutative(a: int, b: int)
    ensures Add(a, b) == Add(b, a)
  {
  }

  lemma AddAssociative(a: int, b: int, c: int)
    ensures Add(Add(a, b), c) == Add(a, Add(b, c))
  {
  }

  /** 0 is the identity of add, on either side. */
  lemma AddZero(a: int)
    ensures Add(a, 0) == a && Add(0, a) == a
  {
  }

  /** A sample value: add(2, 3) == 5. */
  lemma AddExample()
    ensures Add(2, 3) == 5
  {
  }

  // ---------------------------------------------------------------------------
  // square
  // ---------------------------------------------------------------------------

  /** The sum of the first n odd numbers, 1 + 3 + ... + (2n - 1): an independent definition of n squared. */
  function SumOfFirstOdds(n: nat): nat {
    if n == 0 then 0 else SumOfFirstOdds(n - 1) + (2 * n - 1)
  }

  /** square(n) is the sum of the first n odd numbers. */
  lemma {:induction false} SquareIsSumOfOdds(n: nat)
    ensures Square(n) == SumOfFirstOdds(n)
  {
    if n > 0 {
      SquareIsSumOfOdds(n - 1);
      assert Square(n) == Square(n - 1) + (2 * n - 1);
    }
  }

  /** A square is never negative, and is zero only for zero. */
  lemma SquareNonNegative(x: int)
    ensures Square(x) >= 0
    ensures Square(x) == 0 <==> x == 0
  {
  }

  /** square is even: square(-x) == square(x). */
  lemma SquareOfNegation(x: int)
    ensures Square(-x) == Square(x)
  {
  }

  /** On non-negative inputs square is strictly increasing. */
  lemma SquareStrictlyIncreasing(x: nat, y: nat)
    requires x < y
    ensures Square(x) < Square(y)
  {
  }

  /** square of a sum expands as a^2 + 2ab + b^2. */
  lemma SquareOfAdd(a: int, b: int)
    ensures Square(Add(a, b)) == Square(a) + 2 * a * b + Square(b)
  {
    assert (a + b) * (a + b) == a * (a + b) + b * (a + b);
  }
}
