# Python style-guide helpers, modelled in Dafny

The repository is a collection of Python style-guide examples. Almost all of
it is literal assignments, comments and console I/O; this project models the
handful of helper functions that compute something:

- `is_valid_age` and `add_item` from `4-rules_datatype.py` (module
  `DataTypeRules`, file `datatype_rules.dfy`). `is_valid_age` takes an `int`
  or a `str`; its argument is the datatype `AgeInput` (`IntAge`, `StrAge`,
  `OtherAge` for anything else). `int(age)` on a digit string is the recursive
  `DecimalValue`. The list that `add_item` mutates is the class `Cart`, whose
  field `items` is the list's contents; the method `AddItem` takes a nullable
  `Cart?` for the optional argument. The commented-out "mutable default
  argument" version that the rule warns against is modelled beside it, with
  the default list as an explicit shared `Cart`.
- `has_permission` from `6-rules_operators.py` (module `OperatorRules`, file
  `operator_rules.dfy`). Python's `&` and `^` act on unbounded
  two's-complement integers; they are defined on `int` by recursion on the
  lowest bit (`BitAnd`, `BitXor`) and related to a reference `Bit(a, k)`, the
  k-th bit. Because Dafny's `/` by a positive number is floor division, as
  Python's `//` is, the results hold for negative flags as well.
- `add` and `square` from `comment_rules.py` (module `CommentRules`, file
  `comment_rules.dfy`). Python integers are unbounded, as Dafny's `int` is.
  `square` is related to an independent definition, the sum of the first n
  odd numbers.

## Model

| member | source | states |
|---|---|---|
| `DataTypeRules.IsValidAge` | 4-rules_datatype.py:147-155 | an int is valid iff it is positive; a str is valid iff it is non-empty, all ASCII digits and has a digit other than '0' (its decimal value is positive); any other input is invalid |
| `DataTypeRules.DecimalValue` | 4-rules_datatype.py:154 | the value `int(s)` of a digit string of length k is below 10^k |
| `DataTypeRules.DecimalValuePositive` | 4-rules_datatype.py:153-154 | a digit string's value is positive exactly when some digit is not '0' |
| `DataTypeRules.LeadingZeroIgnored` | 4-rules_datatype.py:154 | prefixing a digit string with '0' keeps it a digit string and does not change its value |
| `DataTypeRules.NonPositiveIntRejected` | 4-rules_datatype.py:151-152 | 0 and every negative int are rejected |
| `DataTypeRules.NonDigitStringRejected` | 4-rules_datatype.py:153-155 | a string with any character outside the ASCII digits '0'..'9' is rejected (non-ASCII digits are not modelled, see Left out) |
| `DataTypeRules.StringAgeExamples` | 4-rules_datatype.py:153-155 | "0" and "000" are rejected, "007" and "18" accepted, "", "-5", "12a" and " 3" rejected |
| `DataTypeRules.Cart.constructor` | 4-rules_datatype.py:64 | a new list is empty |
| `DataTypeRules.Cart.Append` | 4-rules_datatype.py:65 | append adds the item at the end, in place, keeping the earlier contents |
| `DataTypeRules.AddItem` | 4-rules_datatype.py:59-66 | with no cart, returns a freshly allocated list holding exactly the item; with a cart, returns that same object, its contents now its old contents followed by the item (length one more, earlier elements unchanged); nothing else is modified |
| `DataTypeRules.AddItemTwiceWithoutCart` | 4-rules_datatype.py:59-66 | two calls without a cart return two distinct fresh lists, each holding only its own item |
| `DataTypeRules.AddItemSharedDefault` | 4-rules_datatype.py:53-56 | the rejected `cart=[]` version appends to the one default list and returns it |
| `DataTypeRules.AddItemSharedDefaultTwice` | 4-rules_datatype.py:53-56 | with the rejected version, two calls without a cart return the same list, which holds both items |
| `OperatorRules.BitAndBit` | 6-rules_operators.py:75 | bit k of `a & b` is set iff bit k is set in both a and b |
| `OperatorRules.BitXorBit` | 6-rules_operators.py:75 | bit k of `a ^ b` is set iff bit k differs between a and b |
| `OperatorRules.BitAndPow2` | 6-rules_operators.py:75 | masking with `1 << k` gives `1 << k` when bit k is set and 0 otherwise |
| `OperatorRules.BitIsQuotientParity` | 6-rules_operators.py:75 | bit k of a is the parity of `a // 2**k` |
| `OperatorRules.HasPermissionIsBitThree` | 6-rules_operators.py:74-75 | `has_permission(flag)` is exactly bit 3 of flag, for every int; `flag & 0b1000` is 8 or 0 accordingly |
| `OperatorRules.HasPermissionIsQuotientParity` | 6-rules_operators.py:74-75 | `has_permission(flag) == ((flag // 8) % 2 == 1)` for every int, negative ones included |
| `OperatorRules.HasPermissionIgnoresOtherBits` | 6-rules_operators.py:74-75 | toggling with a mask m where `m & 8 == 0` does not change the result |
| `OperatorRules.HasPermissionExamples` | 6-rules_operators.py:74-75 | 0 and 7 lack the permission, 8 and 15 have it; the misparse `flag & (0b1000 != 0)` (= `flag & 1`) would answer differently on 8 and 7 |
| `CommentRules.AddThenSubtract` | comment_rules.py:40-42 | subtracting either operand from `add(a, b)` gives back the other |
| `CommentRules.AddCommutative` | comment_rules.py:40-42 | `add(a, b) == add(b, a)` |
| `CommentRules.AddAssociative` | comment_rules.py:40-42 | `add(add(a, b), c) == add(a, add(b, c))` |
| `CommentRules.AddZero` | comment_rules.py:40-42 | 0 is the identity of add on either side |
| `CommentRules.AddExample` | comment_rules.py:40-42 | `add(2, 3) == 5` |
| `CommentRules.SquareIsSumOfOdds` | comment_rules.py:51-53 | `square(n)` equals 1 + 3 + ... + (2n - 1) |
| `CommentRules.SquareNonNegative` | comment_rules.py:51-53 | `square(x) >= 0`, and it is 0 only for x == 0 |
| `CommentRules.SquareOfNegation` | comment_rules.py:51-53 | `square(-x) == square(x)` |
| `CommentRules.SquareStrictlyIncreasing` | comment_rules.py:51-53 | on non-negative inputs, a larger input has a larger square |
| `CommentRules.SquareOfAdd` | comment_rules.py:40-53 | `square(add(a, b)) == square(a) + 2ab + square(b)` |

## Left out

- `DataTypeRules.IsValidAge`: `bool` is a subclass of `int` in Python, so `is_valid_age(True)` is true; the model has no booleans and a caller passes `IntAge(1)` for it.
- `DataTypeRules.IsValidAge`: only the ASCII digits '0'..'9' are digits. Python's `str.isdigit` also accepts non-ASCII decimal digits (Arabic-Indic '٣', fullwidth '３'), which `int()` converts, so `is_valid_age('٣')` is true where the model answers false; and it accepts other Unicode digits ('²', '①'), on which `int()` raises ValueError where the model answers false.
- `DataTypeRules.NonDigitStringRejected`: rests on the same ASCII-only digit set. A string whose non-ASCII characters are all Unicode decimal digits can be accepted by Python (`is_valid_age('٣')` is true), and one holding other Unicode digits makes `int()` raise; the lemma states that both are rejected.
- `DataTypeRules.IsValidAge`: `int()` is treated as unlimited. On Python 3.10.7 and later, `int()` raises ValueError for a digit string longer than the interpreter's limit (`sys.get_int_max_str_digits()`, 4300 by default, leading zeros included), so `is_valid_age('1' * 4301)` raises where the model answers true; this interpreter setting is not modelled.
- `DataTypeRules.DecimalValue`: likewise converts digit strings of any length, without the interpreter's 4300-digit limit.
- `DataTypeRules.AddItem`: Python lists hold references and may be aliased by other variables; the model's `Cart` holds a sequence of strings and models aliasing only of the cart object itself.
- All module-level demonstration statements (literal assignments, prints, the `input()`/`int()` try/except in 4-rules_datatype.py and the clock read `datetime.now()`): they compute nothing beyond console I/O and the clock.
- `retry_connection` (comment_rules.py): sleeping and printing only.
- `get_user_name` and `greet` (comment_rules.py): console input and output; `str.title()` is a Unicode library call.
- `calculate_total_with_tax` (comment_rules.py): floating-point arithmetic, whose result depends on IEEE rounding.
- `legacy_fallback` and `fetch_data` (comment_rules.py): they return constant strings.
- 3-rules_variable.py: literal assignments only; its naming rules exist only as comments.
- The module-level code of 6-rules_operators.py refers to names it never defines; only `has_permission` is modelled.
