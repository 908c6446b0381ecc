# pycalc-gui: the safe evaluator and the editing buffer, in Dafny

pycalc-gui is a small desktop calculator. Its core is in `calculator.py`:

- a sandboxed evaluator, `_eval_ast`. It walks the tree Python's parser builds and accepts only numeric constants, unary `+`/`-` and the seven binary operators of its table (`+ - * / // % **`). It checks for a zero divisor and for an exponent larger than 1000 in size.
- `safe_eval`. It swaps the glyphs `×` and `÷` for `*` and `/`, parses and evaluates.
- the `Calculator` window's two pieces of state: the expression being typed and the result shown. Four commands change them: `insert`, `backspace`, `clear` and `calculate`.

The project models that core and proves its properties:

- `py_int.dfy` (module `PyInt`): Python's integer `//`, `%` and `**`. Python's floor division and modulo are written out, because Dafny's own `/` and `%` are Euclidean.
- `safe_eval.dfy` (module `SafeEval`):
  - the operator tables;
  - Python's expression tree as a closed datatype, with `Other` for every node class the evaluator has no case for;
  - `Eval` for `_eval_ast`;
  - `Normalize` for the glyph replacement;
  - `Evaluate` for `safe_eval`, with Python's parser as a parameter.
- `text.dfy` (module `Text`): `str.strip()`, and `str()` of an integer with its inverse and its 4300-digit limit.
- `calculator.dfy` (module `Calculator`): the `Calculator` class with fields `expression` and `result` and the four commands. `calculate` takes `safe_eval` as a function parameter. It returns what `safe_eval` returned or raised. Bridge lemmas tie that parameter to `SafeEval.Evaluate`.

Integers are Python's unbounded integers, so Dafny's `int` needs no wrap-around. A bare `True` or `False` stays a bool, because `str` writes it as a word. No operator gives a bool. `+`, `-`, `*`, `//`, `%` and `**` with a non-negative exponent give an int (`+True` is 1). `/` and `**` with a negative exponent give a float (`True / 1` is 1.0). Operations on floats and complex numbers are not modelled. An evaluation that produces or consumes one has the outcome `Untracked`. That happens for a float or complex literal, a true division, and a negative exponent on a non-zero base. `Untracked` means that the model does not say which value or which exception the source ends with. The rule is deliberately pessimistic. Once the left operand is untracked, the result is untracked too, because the left operand may itself have raised.

The model follows CPython 3.11 to 3.13. Those versions still have `ast.Num`, so the shim at `calculator.py:32-34` accepts complex literals. They also limit how many digits `str()` writes for an int.

How the code behaves, in the places where that is easy to get wrong:

- The code has no tokenizer or grammar of its own. It calls Python's `ast.parse`, which is a parameter here.
- Integers are unbounded. `str()` raises ValueError for an int of more than 4300 digits, and `calculate` shows "Error" for it. One example is `(10**1000)**5`.
- A node outside the whitelist raises `ValueError("Invalid expression")`, which `calculate` shows as "Error".
- `bool` constants pass the numeric test (`True + 1` is 2), and a bare `True` is shown as `True`.
- A complex literal fails the test at `calculator.py:29`. It is still returned, by the `ast.Num` branch.
- For an operator outside the tables, the operands are never evaluated.
- `0 ** -k` (with `k` at most 1000) raises Python's own ZeroDivisionError from the power operation, not from the guard. `calculate` therefore shows "Error: ÷ by 0" for it.
- `6÷2×3` goes through true division, so its outcome is untracked here.

## Model

| member | source | states |
|---|---|---|
| PyInt.FloorDiv | calculator.py:14 | `a // b` is rounded toward negative infinity: `q*b <= a < q*b + b` for a positive divisor, mirrored for a negative one |
| PyInt.FloorDivUnique | calculator.py:14 | that bracketing determines the quotient: any `q` satisfying it equals `FloorDiv(a, b)` |
| PyInt.FloorMod | calculator.py:15 | `a == (a // b) * b + a % b`; the remainder lies in `[0, b)` for `b > 0` and in `(b, 0]` for `b < 0` |
| PyInt.FloorModSignAndSize | calculator.py:15 | the remainder is 0 or has the divisor's sign, and is smaller than the divisor in absolute value |
| PyInt.NegativeDivisorExample | calculator.py:14-15 | with a negative divisor Python and Dafny disagree: `7 // -2 == -4` and `7 % -2 == -1`, where Dafny's Euclidean operators give -3 and 1 |
| PyInt.Power | calculator.py:16 | `a ** 0 == 1`; a positive base gives a positive power; a non-zero base never gives 0; `0 ** n == 0` for `n > 0` |
| PyInt.PowerAdd | calculator.py:16 | exponents add: `a ** (m + n) == a ** m * a ** n` |
| SafeEval.AllowedBinOp | calculator.py:9-17 | the binary table holds exactly `+ - * / // % **`: an operator is refused if and only if it is `@`, a shift or a bitwise operator |
| SafeEval.AllowedUnaryOp | calculator.py:19-22 | the unary table holds exactly `+` and `-`: an operator is refused if and only if it is `not` or `~` |
| SafeEval.ApplyUnary | calculator.py:37-38 | `operator.pos` and `operator.neg` turn an int or a bool into an int of the same absolute value, `+` keeping and `-` flipping the sign; never a bool; an exception or untracked value passes through |
| SafeEval.ApplyBinary | calculator.py:44-50 | on two ints: the division error if and only if `/ // %` has a zero divisor; the exponent error if and only if `**` has an exponent over 1000 in size; Python's ZeroDivisionError if and only if `0 ** -k` within the cap; a float if and only if a true division or a negative exponent on another base; no other exception |
| SafeEval.Combine | calculator.py:41-50 | the left operand's exception wins; with an int on the left, the right operand's exception is next; two ints go to the guards and the operator; an untracked operand after a left one that did not fail makes the result untracked; an untracked result needs an untracked operand, `/` or `**`; never a bool |
| SafeEval.Eval | calculator.py:24-54 | the division error only arises from a tree containing `/`, `//` or `%`; the exponent errors only from one containing `**`; "Invalid expression" only from one containing a rejected node; never a syntax error; untracked only with a float or complex literal, `/` or `**` in the tree; a bool if and only if the tree is a bare bool literal |
| SafeEval.RingTreesSucceed | calculator.py:24-54 | a tree with no rejected node, no float or complex literal and none of `/ // % **` always evaluates to an int or a bool |
| SafeEval.LeftFailureWins | calculator.py:41-43 | error precedence: when the left operand fails, its exception is the result, whatever the right operand and the operator |
| SafeEval.RightFailureBeforeGuards | calculator.py:41-47 | with an int on the left, the right operand's exception comes before either guard |
| SafeEval.ZeroDivisorGuard | calculator.py:46-47 | for int operands, the division error is raised if and only if the operator is `/`, `//` or `%` and the right operand is 0 (`False` included); `+ - * **` never raise it |
| SafeEval.ExponentCap | calculator.py:48-49 | for int operands, `**` fails with the exponent error if and only if the exponent is over 1000 in absolute value; an exponent of 1000 gives the power |
| SafeEval.NegativeExponent | calculator.py:50 | an exponent in [-1000, -1] raises ZeroDivisionError for a zero base and gives a float otherwise |
| SafeEval.FloorDivisionAndModulo | calculator.py:44-50 | for int operands with a non-zero divisor, `//` and `%` succeed; `a == (a//b)*b + a%b`; `a%b` is 0 or has `b`'s sign; the remainder is smaller than `b` in absolute value |
| SafeEval.UnaryOperators | calculator.py:37-38 | unary `+` gives the operand's int (`+True` is 1), unary `-` its negation; exceptions and floats pass through both; `--x` evaluates like `+x` |
| SafeEval.RejectedNodesAreInvalid | calculator.py:28-54 | an operator missing from the tables, an unknown node class or a string, bytes, `None` or `...` constant fails with "Invalid expression", whatever its operands; a complex literal is not rejected but returned by the `ast.Num` branch |
| SafeEval.FloorExamples | calculator.py:14-15 | `-7 % 3` is 2, `7 // 2` is 3, `7 // -2` is -4 |
| SafeEval.ArithmeticExamples | calculator.py:24-54 | `2 + 3 * 4` is 14 and `True + 1` is 2 |
| SafeEval.BoolExamples | calculator.py:28-50 | a bare `True` stays a bool; `+True`, `-False` and `True * 1` are ints; `1 // False` is a division by zero |
| SafeEval.PowerExamples | calculator.py:37-50 | `-(2 ** 2)` (how `-2**2` parses) is -4 and `(-2) ** 2` is 4 |
| SafeEval.ErrorExamples | calculator.py:45-54 | `5 // 0`, `5 % 0` and `5 / 0` fail with the division error, `2 ** 1001` with the exponent error, `not 1` with "Invalid expression" |
| SafeEval.Replace | calculator.py:58 | replacing one character: the length is kept, each occurrence of the pattern becomes the replacement, every other character stays in place |
| SafeEval.Normalize | calculator.py:58 | after normalisation there is no `×` and no `÷`; the length is unchanged; `×` became `*`, `÷` became `/`, and every other character is unchanged in its position |
| SafeEval.NormalizeIdempotent | calculator.py:58 | normalising twice gives the same text as normalising once |
| SafeEval.Evaluate | calculator.py:56-64 | `safe_eval` reports the syntax error if and only if the parser rejects the normalised text; a tree the parser returns is evaluated by `_eval_ast` |
| SafeEval.EvaluateSeesOnlyNormalizedText | calculator.py:56-64 | text that is already normalised evaluates exactly like the original |
| Text.AsciiSpaces | calculator.py:168 | among ASCII characters, `strip()` treats exactly tab, line feed, vertical tab, form feed, carriage return, the separators U+001C to U+001F and the space as whitespace |
| Text.LeadingSpaces | calculator.py:168 | the count of leading characters that are all whitespace and followed by a non-whitespace character or the end |
| Text.TrailingSpaces | calculator.py:168 | the same count at the end of the text |
| Text.Strip | calculator.py:168 | `strip()` removes only whitespace, from both ends; the result is empty if and only if the text is all whitespace; otherwise it starts and ends with non-whitespace |
| Text.StripIdempotent | calculator.py:168 | stripping twice is stripping once |
| Text.NatToDecimal | calculator.py:177 | `str(n)` for `n >= 0` is digits without a leading zero |
| Text.IntToDecimal | calculator.py:177 | `str(n)` is a canonical numeral, and it starts with `-` if and only if `n < 0` |
| Text.IntToDecimalRoundTrip | calculator.py:177 | reading back `str(n)` gives `n` |
| Text.DecimalToIntRoundTrip | calculator.py:177 | every canonical numeral is `str` of its value |
| Text.DigitCount | calculator.py:177 | the digit count that `str()` limits is the length of the numeral without its sign |
| Text.NatDigitsThreshold | calculator.py:177 | a natural number has more than `k >= 1` digits if and only if it is at least `10 ** k` |
| Text.StrLimitThreshold | calculator.py:177 | `str()` refuses an int for its length if and only if its absolute value is at least `10 ** 4300` |
| Calculator.Display | calculator.py:172-181 | an exception shows an error text; an int within the limit shows a numeral that reads back as the int; an int over the limit shows "Error"; a bool shows `True` or `False` |
| Calculator.Shown | calculator.py:167-181 | empty or all-whitespace text shows "0"; any other text shows the display of what the evaluator makes of the stripped text |
| Calculator.DisplayReportsExceptions | calculator.py:172-181 | the result starts with "Error" if and only if `safe_eval` raised or returned an int of more than 4300 digits; it is "Error: ÷ by 0" if and only if it raised ZeroDivisionError, and "Error" if and only if it raised anything else or the int was too long |
| Calculator.ShownOutcomes | calculator.py:167-181 | an error text appears if and only if the text is not blank and the evaluator raised on the stripped text or returned an int too long for `str()`; the division message appears if and only if it raised ZeroDivisionError |
| Calculator.Observed | calculator.py:56-64 | the model's outcomes as `calculate` receives them: `safe_eval` raised if and only if the evaluator failed, with ZeroDivisionError if and only if the failure is one of the two zero-division errors and ValueError otherwise; no float or complex value; an int or bool comes back as itself |
| Calculator.ShownForModel | calculator.py:167-181 | with the model's evaluator behind `safe_eval`, a non-blank expression shows a numeral that reads back as its int value when `str()` accepts it; a bare bool shows `True` or `False`; "Error: ÷ by 0" if and only if there was a division by zero or a zero base with a negative exponent; "Error" if and only if there was another failure or the int has more than 4300 digits |
| Calculator.Backspaced | calculator.py:155-161 | the result is a prefix of the expression; a trailing `**` loses two characters; any other non-empty expression loses one; `""` stays `""` |
| Calculator.BackspaceUndoesInsert | calculator.py:151-161 | backspace after inserting `**` or a single character restores the expression, except that a `*` typed after a `*` is deleted together with it |
| Calculator.Calculator.constructor | calculator.py:73-74 | a new window starts with an empty expression and the result "0" |
| Calculator.Calculator.Insert | calculator.py:151-153 | the expression becomes the old expression followed by the inserted text; the result is unchanged |
| Calculator.Calculator.Backspace | calculator.py:155-161 | the expression becomes `Backspaced` of the old one; the result is unchanged |
| Calculator.Calculator.Clear | calculator.py:163-165 | the expression becomes `""` and the result "0" |
| Calculator.Calculator.Calculate | calculator.py:167-183 | the expression is unchanged; the result is what `Shown` gives for the old expression: "0" for blank text, otherwise the display of what `safe_eval` returned or raised on the stripped text, with "Error" for an int too long for `str()` |

## Left out

- Python's parser, `ast.parse`, is a foreign call. `SafeEval.Evaluate` takes it as a parameter that returns a tree or a syntax error. The grammar it accepts is not modelled. That includes the parser's refusal of int literals longer than 4300 digits.
- SafeEval.Eval: Python's recursion limit is not modelled. `_eval_ast` calls itself once per tree level (calculator.py:26, 38, 42-43). Under CPython's default limit of 1000, a tree about 1000 levels deep raises RecursionError, and `calculate` shows "Error" for it. An example is the text `1+1+…+1` with 1000 terms. The model gives such a tree its value, and so do `RingTreesSucceed` and `Calculator.ShownForModel`. The exact depth depends on how deep the interpreter's stack already is when `calculate` runs.
- SafeEval.Eval: float and complex arithmetic is not followed. A float or complex literal, a true division `/` and a negative exponent on a non-zero base all give `Untracked`. These include the float value of `/`, `int`/`float` mixing, `OverflowError`s from float conversion, and complex results of fractional powers.
- SafeEval.Eval: the guards defer to `Untracked` when either operand is a float or complex number. In the source, `1.5 / 0` still raises the division error.
- SafeEval.Eval: the model follows Python versions that have `ast.Num` (3.8 to 3.13). On 3.14 and later, `ast.Num` is gone and a complex literal fails with "Invalid expression" instead.
- Text.WithinStrLimit: the limit is CPython's default of 4300 digits. It is absent before 3.11 (apart from the security releases of 3.7 to 3.10). It can be changed through `sys.set_int_max_str_digits`, `PYTHONINTMAXSTRDIGITS` or `-X int_max_str_digits`. None of these is modelled.
- Calculator.Calculator.Calculate: when `safe_eval` returns a float or a complex number, the text shown for it comes in with the result as given. The `is_integer()`/`int()` collapse and `str()` of floats and complex numbers are not modelled. The text is only known to be made of the characters of such a repr.
- Calculator.Calculator.Calculate: the exceptions other than the model's own come in as an abstract `OtherException` (OverflowError, RecursionError on very deep nesting, and so on). All of them show "Error".
- The tkinter window: `__init__` beyond the two initial values, `_build_ui`, `_bind_keys`, the button table, `mainloop`, and the Windows DPI call. These are user-interface and platform I/O. The `StringVar`s are modelled as plain string fields.
- Running time and memory are not modelled. The exponent cap bounds the exponent, not the size of a base built up by nested powers.
