/** The editing buffer behind calculator.py's `Calculator` window: the expression being typed,
    the result shown under it, and the four commands the buttons and keys are bound to. The
    window, its widgets and the key bindings are not part of this model; the two `StringVar`s
    are the two string fields of the class. */
module Calculator {
  import opened Text
  import SafeEval

  const ErrorMessage: string := "Error"
  const ZeroDivisionMessage: string := "Error: \U{F7} by 0"    // "Error: ÷ by 0"

  /** The exception classes the `except` clauses of `calculate` tell apart. */
  datatype Exception = ZeroDivisionError | ValueError | OtherException

  /** The characters of the text `calculate` shows for a float: `str()` of a float that is not
      a whole number (digits, the point, an exponent `e` with its sign, the words `inf` and
      `nan`), or the numeral of the int a whole float collapses to, such as `2` for `4/2`. */
  predicate IsFloatText(t: string) {
    |t| >= 1 && forall i :: 0 <= i < |t| ==> t[i] in "0123456789.+-einfa"
  }

  type FloatText = t: string | IsFloatText(t) witness "0.5"

  /** The characters `str()` writes for a complex number: those of its two float parts, the
      imaginary unit `j`, and the parentheses around a number with a real part, as in `1j`
      or `(1+2j)`. */
  predicate IsComplexText(t: string) {
    |t| >= 1 && forall i :: 0 <= i < |t| ==> t[i] in "0123456789.+-einfaj()"
  }

  type ComplexText = t: string | IsComplexText(t) witness "1j"

  /** What `safe_eval` returned or raised. A float or a complex number stands for itself by
      the text that the success branch of `calculate` displays for it. */
  datatype SafeEvalResult =
    | ReturnedInt(value: int)
    | ReturnedBool(flag: bool)
    | ReturnedFloat(shown: FloatText)
    | ReturnedComplex(text: ComplexText)
    | Raised(exception: Exception)

  /** Whether the value returned is an int whose `str()` raises ValueError for having more
      than 4300 digits. */
  predicate IsOverlongInt(o: SafeEvalResult) {
    o.ReturnedInt? && !WithinStrLimit(o.value)
  }

  /** The text `calculate` puts into `result` for what `safe_eval` returned or raised. An int
      is written as its numeral, which reads back as the int, unless `str()` raises for its
      length and "Error" is shown; an exception shows a text that starts with "Error". */
  function Display(o: SafeEvalResult): (r: string)
    ensures o.Raised? || IsOverlongInt(o) ==> IsErrorText(r)
    ensures IsOverlongInt(o) ==> r == ErrorMessage
    ensures o.ReturnedInt? && WithinStrLimit(o.value) ==> IsIntNumeral(r) && DecimalToInt(r) == o.value
    ensures o.ReturnedBool? ==> r == (if o.flag then "True" else "False")
  {
    match o
    case ReturnedInt(n) =>
      if WithinStrLimit(n) then IntToDecimalRoundTrip(n); IntToDecimal(n)
      else ErrorMessage                    // `str(value)` raised ValueError
    case ReturnedBool(b) => if b then "True" else "False"
    case ReturnedFloat(t) => t
    case ReturnedComplex(t) => t
    case Raised(ZeroDivisionError) => ZeroDivisionMessage
    case Raised(_) => ErrorMessage
  }

  /** What `calculate` shows for the expression text when `safeEval` is the evaluator: "0"
      for an empty or all-whitespace text, otherwise the display of what the evaluator makes
      of the stripped text. */
  function Shown(expression: string, safeEval: string -> SafeEvalResult): (r: string)
    ensures AllSpace(expression) ==> r == "0"
    ensures !AllSpace(expression) ==> r == Display(safeEval(Strip(expression)))
  {
    var expr := Strip(expression);
    if expr == [] then "0" else Display(safeEval(expr))
  }

  /** The two display strings that report a failure both begin with "Error". */
  predicate IsErrorText(s: string) {
    |s| >= 5 && s[..5] == "Error"
  }

  /** An error text is shown exactly when `safe_eval` raised or returned an int too long for
      `str()`; the division message exactly when what it raised was a ZeroDivisionError. */
  lemma DisplayReportsExceptions(o: SafeEvalResult)
    ensures IsErrorText(Display(o)) <==> o.Raised? || IsOverlongInt(o)
    ensures Display(o) == ZeroDivisionMessage <==> o == Raised(ZeroDivisionError)
    ensures Display(o) == ErrorMessage
            <==> (o.Raised? && o.exception != ZeroDivisionError) || IsOverlongInt(o)
  {
    MessagesAreErrorTexts();
    if !o.Raised? && !IsOverlongInt(o) {
      ValueIsNoErrorText(o);
    }
  }

  /** A value `str()` accepts is not shown as an error text. */
  lemma ValueIsNoErrorText(o: SafeEvalResult)
    requires !o.Raised? && !IsOverlongInt(o)
    ensures !IsErrorText(Display(o))
  {
    match o
    case ReturnedInt(n) =>
      assert Display(o) == IntToDecimal(n);
      NumeralIsNoErrorText(n);
    case ReturnedBool(b) =>
      NotErrorText(if b then "True" else "False");
    case ReturnedFloat(t) =>
      ReprIsNoErrorText(t);
    case ReturnedComplex(t) =>
      ReprIsNoErrorText(t);
  }

  lemma NumeralIsNoErrorText(n: int)
    ensures !IsErrorText(IntToDecimal(n))
  {
    var s := IntToDecimal(n);
    assert s[0] == '-' || IsDigit(s[0]);
    NotErrorText(s);
  }

  /** What `str()` writes for a float or a complex number is no error text. */
  lemma ReprIsNoErrorText(t: string)
    requires IsFloatText(t) || IsComplexText(t)
    ensures !IsErrorText(t)
  {
    assert t[0] in "0123456789.+-einfaj()";
    NotErrorText(t);
  }

  /** Both failure messages are error texts, and they differ. */
  lemma MessagesAreErrorTexts()
    ensures IsErrorText(ErrorMessage) && IsErrorText(ZeroDivisionMessage)
    ensures ErrorMessage != ZeroDivisionMessage
  {
    assert |ErrorMessage| != |ZeroDivisionMessage|;
  }

  /** A text that does not open with `E` is no error text. */
  lemma NotErrorText(s: string)
    requires |s| >= 1 && s[0] != 'E'
    ensures !IsErrorText(s)
  {
    if |s| >= 5 {
      assert s[..5][0] == s[0];
    }
  }

  /** `calculate` on the whole: an error text exactly when the text is not blank and the
      evaluator raised on the stripped text or returned an int too long for `str()`, and the
      division message exactly when it raised a ZeroDivisionError. */
  lemma ShownOutcomes(expression: string, safeEval: string -> SafeEvalResult)
    ensures IsErrorText(Shown(expression, safeEval))
            <==> !AllSpace(expression)
                 && (safeEval(Strip(expression)).Raised? || IsOverlongInt(safeEval(Strip(expression))))
    ensures Shown(expression, safeEval) == ZeroDivisionMessage
            <==> !AllSpace(expression) && safeEval(Strip(expression)) == Raised(ZeroDivisionError)
  {
    if !AllSpace(expression) {
      DisplayReportsExceptions(safeEval(Strip(expression)));
    }
  }

  /** How an outcome of the model's evaluator reaches `calculate`: an int or a bool is
      returned as it is, the two zero-division errors are ZeroDivisionErrors and the others
      ValueErrors. */
  function Observed(o: SafeEval.Outcome): (r: SafeEvalResult)
    requires !o.Untracked?
    ensures r.Raised? <==> o.Fail?
    ensures r == Raised(ZeroDivisionError) <==> o.Fail? && SafeEval.IsZeroDivisionError(o.error)
    ensures r.Raised? ==> r.exception != OtherException
    ensures !r.ReturnedFloat? && !r.ReturnedComplex?
    ensures o.Ok? ==> r == ReturnedInt(o.value)
    ensures o.OkBool? ==> r == ReturnedBool(o.flag)
  {
    match o
    case Ok(n) => ReturnedInt(n)
    case OkBool(b) => ReturnedBool(b)
    case Fail(e) => Raised(if SafeEval.IsZeroDivisionError(e) then ZeroDivisionError else ValueError)
  }

  /** With the model's evaluator behind `safe_eval` (and Python's parser as `parse`), a
      non-blank expression shows the int it evaluates to, which reads back as that int, as
      long as `str()` accepts its length; a bare bool shows as `True` or `False`;
      "Error: ÷ by 0" exactly for a division by zero or `0` raised to a negative power; and
      "Error" exactly for the other failures (a syntax error, a rejected node, an exponent
      over the cap) and for an int of more than 4300 digits. */
  lemma ShownForModel(expression: string, parse: string -> SafeEval.ParseResult, safeEval: string -> SafeEvalResult)
    requires !AllSpace(expression)
    requires !SafeEval.Evaluate(Strip(expression), parse).Untracked?
    requires safeEval(Strip(expression)) == Observed(SafeEval.Evaluate(Strip(expression), parse))
    ensures var o, shown := SafeEval.Evaluate(Strip(expression), parse), Shown(expression, safeEval);
            && (o.Ok? && WithinStrLimit(o.value) ==> IsIntNumeral(shown) && DecimalToInt(shown) == o.value)
            && (o.OkBool? ==> shown == (if o.flag then "True" else "False"))
            && (shown == ZeroDivisionMessage <==> o.Fail? && SafeEval.IsZeroDivisionError(o.error))
            && (shown == ErrorMessage
                <==> (o.Fail? && !SafeEval.IsZeroDivisionError(o.error)) || (o.Ok? && !WithinStrLimit(o.value)))
  {
    var o := SafeEval.Evaluate(Strip(expression), parse);
    DisplayReportsExceptions(Observed(o));
  }

  predicate EndsWith(s: string, suffix: string) {
    |suffix| <= |s| && s[|s| - |suffix|..] == suffix
  }

  /** The expression after one backspace: a trailing `**` (the caret button's power operator)
      goes as one unit, otherwise the last character, and an empty expression stays empty.
      What is left is always a prefix of what was there. */
  function Backspaced(expr: string): (r: string)
    ensures |r| <= |expr| && r == expr[..|r|]
    ensures expr == [] ==> r == []
    ensures EndsWith(expr, "**") ==> |r| == |expr| - 2
    ensures expr != [] && !EndsWith(expr, "**") ==> |r| == |expr| - 1
  {
    if EndsWith(expr, "**") then expr[..|expr| - 2]
    else if expr != [] then expr[..|expr| - 1]
    else []
  }

  /** Backspace undoes the insertion of a power operator or of a single character, except a
      `*` typed after another `*`: the two then read as a power operator and go together. */
  lemma BackspaceUndoesInsert(expr: string, s: string)
    requires s == "**" || (|s| == 1 && !(s == "*" && EndsWith(expr, "*")))
    ensures Backspaced(expr + s) == expr
    ensures EndsWith(expr, "*") ==> Backspaced(expr + "*") == expr[..|expr| - 1]
  {
    var e := expr + s;
    if s == "**" {
      assert e[|e| - 2..] == "**";
    } else if |expr| >= 1 {
      assert expr[|expr| - 1..] == [expr[|expr| - 1]];
      assert e[|e| - 2..] == [expr[|expr| - 1], s[0]];
    }
    assert e[..|expr|] == expr;
    if EndsWith(expr, "*") {
      var e' := expr + "*";
      assert e'[|e'| - 2..] == "**" by {
        assert e'[|e'| - 2] == expr[|expr| - 1..][0];
      }
      assert e'[..|expr| - 1] == expr[..|expr| - 1];
    }
  }

  /** The two `StringVar`s of the window: the expression being typed and the result shown. */
  class Calculator {
    var expression: string
    var result: string

    /** The state `__init__` sets up before building the window. */
    constructor ()
      ensures expression == "" && result == "0"
    {
      expression := "";
      result := "0";
    }

    /** `insert`: appends the text of a button or key to the expression. */
    method Insert(s: string)
      modifies this`expression
      ensures expression == old(expression) + s
      ensures result == old(result)
    {
      expression := expression + s;
    }

    /** `backspace`. */
    method Backspace()
      modifies this`expression
      ensures expression == Backspaced(old(expression))
      ensures result == old(result)
    {
      var expr := expression;
      if EndsWith(expr, "**") {
        expression := expr[..|expr| - 2];
      } else {
        expression := if expr != [] then expr[..|expr| - 1] else [];
      }
    }

    /** `clear`: empties the expression and shows "0". */
    method Clear()
      modifies this
      ensures expression == "" && result == "0"
    {
      expression := "";
      result := "0";
    }

    /** `calculate`. `safeEval` stands for `safe_eval`; the expression is left as it was so
        that it can be edited further. */
    method Calculate(safeEval: string -> SafeEvalResult)
      modifies this`result
      ensures expression == old(expression)
      ensures result == Shown(old(expression), safeEval)
    {
      var expr := Strip(expression);
      if expr == [] {
        result := "0";
        return;
      }
      var outcome := safeEval(expr);
      match outcome {
        case ReturnedInt(n) =>
          if WithinStrLimit(n) {
            result := IntToDecimal(n);
          } else {
            result := ErrorMessage;          // `str(value)` raised ValueError
          }
        case ReturnedBool(b) => result := if b then "True" else "False";
        case ReturnedFloat(t) => result := t;
        case ReturnedComplex(t) => result := t;
        case Raised(ZeroDivisionError) => result := ZeroDivisionMessage;
        case Raised(_) => result := ErrorMessage;
      }
    }
  }
}
