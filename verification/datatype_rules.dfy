/**
 * The two helper functions of the data-type style rules:
 *  - `is_valid_age`, which accepts an int or a string and decides whether it
 *    can be taken as an age, and
 *  - `add_item`, the safe "optional cart" pattern that appends to a shopping
 *    cart in place, creating a fresh cart when none is given,
 * together with the commented-out "mutable default argument" version that the
 * safe pattern replaces.
 */
module DataTypeRules {

  // ---------------------------------------------------------------------------
  // is_valid_age
  // ---------------------------------------------------------------------------

  /** The dynamic type of the argument: an int, a str, or any other object. */
  datatype AgeInput = IntAge(n: int) | StrAge(s: string) | OtherAge

  /**
   * A decimal digit. Only the ASCII digits '0'..'9' are modelled. Python's
   * str.isdigit also accepts non-ASCII decimal digits (such as Arabic-Indic
   * or fullwidth digits), which int() converts, so is_valid_age accepts e.g.
   * a fullwidth "3" where this model rejects it; and it accepts other Unicode
   * digits (such as superscript two), on which int() raises ValueError where
   * this model answers false.
   */
  predicate IsDigit(c: char) {
    '0' <= c <= '9'
  }

  predicate AllDigits(s: string) {
    forall i :: 0 <= i < |s| ==> IsDigit(s[i])
  }

  /** str.isdigit(): at least one character, and every character a digit. */
  predicate StrIsDigit(s: string) {
    |s| > 0 && AllDigits(s)
  }

  function DigitValue(c: char): (d: nat)
    requires IsDigit(c)
    ensures d < 10
    ensures d == 0 <==> c == '0'
  {
    (c - '0') as nat
  }

  function Pow10(k: nat): (p: nat)
    ensures p > 0
  {
    if k == 0 then 1 else 10 * Pow10(k - 1)
  }

  /**
   * int(s) for a string of decimal digits, read most significant digit first.
   * The value of k digits is below 10^k.
   */
  function DecimalValue(s: string): (v: nat)
    requires AllDigits(s)
    ensures v < Pow10(|s|)
  {
    if |s| == 0 then 0
    else 10 * DecimalValue(s[..|s| - 1]) + DigitValue(s[|s| - 1])
  }

  /** Some digit of `s` is not '0'. */
  predicate HasNonZeroDigit(s: string) {
    exists i :: 0 <= i < |s| && s[i] != '0'
  }

  /** A digit string denotes a positive number exactly when not all of its digits are '0'. */
  lemma {:induction false} DecimalValuePositive(s: string)
    requires AllDigits(s)
    ensures DecimalValue(s) > 0 <==> HasNonZeroDigit(s)
  {
    if |s| > 0 {
      var p := s[..|s| - 1];
      var c := s[|s| - 1];
      assert AllDigits(p) by {
        forall i | 0 <= i < |p| ensures IsDigit(p[i]) {
          assert p[i] == s[i];
        }
      }
      DecimalValuePositive(p);
      if HasNonZeroDigit(p) {
        var i :| 0 <= i < |p| && p[i] != '0';
        assert s[i] != '0';
      }
      if HasNonZeroDigit(s) && c == '0' {
        var i :| 0 <= i < |s| && s[i] != '0';
        assert i < |p| && p[i] != '0';
      }
    }
  }

  /** Leading zeros do not change the value: int("0" + s) == int(s). */
  lemma {:induction false} LeadingZeroIgnored(s: string)
    requires AllDigits(s)
    ensures AllDigits("0" + s) && DecimalValue("0" + s) == DecimalValue(s)
  {
    var z := "0" + s;
    assert AllDigits(z) by {
      forall i | 0 <= i < |z| ensures IsDigit(z[i]) {
        if i > 0 { assert z[i] == s[i - 1]; }
      }
    }
    if |s| > 0 {
      var p := s[..|s| - 1];
      assert AllDigits(p) by {
        forall i | 0 <= i < |p| ensures IsDigit(p[i]) {
          assert p[i] == s[i];
        }
      }
      assert z[..|z| - 1] == "0" + p;
      LeadingZeroIgnored(p);
    }
  }

  /**
   * is_valid_age: an int is valid when positive; a str is valid when it
   * consists of digits and its decimal value is positive, i.e. when it has a
   * non-zero digit; anything else is invalid. A string that is not all digits
   * is never converted: DecimalValue is only applied to digit strings.
   * int() is taken to be unlimited: the interpreter's cap on the number of
   * digits int() converts (4300 by default), beyond which it raises
   * ValueError, is not modelled.
   */
  function IsValidAge(age: AgeInput): (valid: bool)
    ensures age.IntAge? ==> (valid <==> age.n > 0)
    ensures age.StrAge? ==> (valid <==> StrIsDigit(age.s) && HasNonZeroDigit(age.s))
    ensures age.OtherAge? ==> !valid
  {
    match age
    case IntAge(n) => n > 0
    case StrAge(s) =>
      if StrIsDigit(s) then
        DecimalValuePositive(s);
        DecimalValue(s) > 0
      else
        false
    case OtherAge => false
  }

  /** The value 0 and every negative int are rejected. */
  lemma NonPositiveIntRejected(n: int)
    requires n <= 0
    ensures !IsValidAge(IntAge(n))
  {
  }

  /** Sample inputs: "0" and "000" are rejected, "007" is accepted; "", "-5", "12a" and " 3" are rejected. */
  lemma StringAgeExamples()
    ensures !IsValidAge(StrAge("0")) && !IsValidAge(StrAge("000"))
    ensures IsValidAge(StrAge("007")) && IsValidAge(StrAge("18"))
    ensures !IsValidAge(StrAge("")) && !IsValidAge(StrAge("-5"))
    ensures !IsValidAge(StrAge("12a")) && !IsValidAge(StrAge(" 3"))
  {
  }

  /** A non-empty string with a character outside '0'..'9' is rejected, whatever else it contains. */
  lemma NonDigitStringRejected(s: string, i: nat)
    requires i < |s| && !IsDigit(s[i])
    ensures !IsValidAge(StrAge(s))
  {
  }

  // ---------------------------------------------------------------------------
  // add_item
  // ---------------------------------------------------------------------------

  /** A Python list[str] used as a shopping cart; `items` is its contents. */
  class Cart {
    var items: seq<string>

    /** `[]` */
    constructor ()
      ensures items == []
    {
      items := [];
    }

    /** list.append, in place. */
    method Append(item: string)
      modifies this
      ensures items == old(items) + [item]
    {
      items := items + [item];
    }
  }

  /**
   * add_item(item, cart=None): a missing cart is replaced by a freshly
   * allocated empty one; the item is appended in place and the same list
   * object is returned. Nothing but the given cart is modified.
   */
  method AddItem(item: string, cart: Cart?) returns (r: Cart)
    modifies cart
    ensures cart == null ==> fresh(r) && r.items == [item]
    ensures cart != null ==> r == cart && r.items == old(cart.items) + [item]
    ensures cart != null ==> |r.items| == |old(cart.items)| + 1 && r.items[..|old(cart.items)|] == old(cart.items)
  {
    if cart == null {
      r := new Cart();
    } else {
      r := cart;
    }
    r.Append(item);
  }

  /** Two calls that both omit the cart never share a list. */
  method AddItemTwiceWithoutCart(a: string, b: string) returns (first: Cart, second: Cart)
    ensures fresh(first) && fresh(second) && first != second
    ensures first.items == [a] && second.items == [b]
  {
    first := AddItem(a, null);
    second := AddItem(b, null);
  }

  /**
   * The rejected version, `def add_item(item, cart=[])`: the default list is
   * created once, when the function is defined, so every call that omits the
   * cart appends to that one `shared` list and returns it.
   */
  method AddItemSharedDefault(item: string, shared: Cart) returns (r: Cart)
    modifies shared
    ensures r == shared && r.items == old(shared.items) + [item]
  {
    shared.Append(item);
    r := shared;
  }

  /** With the shared default, two calls that omit the cart return the same list holding both items. */
  method AddItemSharedDefaultTwice(a: string, b: string, shared: Cart) returns (first: Cart, second: Cart)
    modifies shared
    ensures first == second == shared
    ensures shared.items == old(shared.items) + [a, b]
  {
    first := AddItemSharedDefault(a, shared);
    second := AddItemSharedDefault(b, shared);
  }
}
