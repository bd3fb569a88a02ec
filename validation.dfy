/**
 * Input validation of budget.py: the non-empty-string check applied to a category
 * or description, and the positivity check applied to an amount once its text has
 * been converted to a floating-point number. A failed check is the error outcome
 * that the source reports before exiting with status 1.
 */
module Validation {
  import opened Wrappers

  /** Why a command-line value was refused; each carries what the message echoes back. */
  datatype Error =
    | NotANumber(given: string)
    | NotPositive(given: string)
    | EmptyField(fieldName: string)

  /**
   * The characters Python's `str.strip()` removes when called without arguments:
   * those for which `str.isspace()` holds.
   */
  predicate IsSpace(c: char)
  {
    || '\U{9}' <= c <= '\U{D}'
    || '\U{1C}' <= c <= '\U{20}'
    || c == '\U{85}' || c == '\U{A0}' || c == '\U{1680}'
    || '\U{2000}' <= c <= '\U{200A}'
    || c == '\U{2028}' || c == '\U{2029}' || c == '\U{202F}' || c == '\U{205F}' || c == '\U{3000}'
  }

  predicate AllSpace(s: string)
  {
    forall i :: 0 <= i < |s| ==> IsSpace(s[i])
  }

  /** `s` with its leading whitespace removed: a suffix of `s` that does not start with whitespace. */
  function StripStart(s: string): (r: string)
    ensures |r| <= |s| && r == s[|s| - |r|..]
    ensures AllSpace(s[..|s| - |r|])
    ensures r == [] || !IsSpace(r[0])
  {
    if s != [] && IsSpace(s[0]) then StripStart(s[1..]) else s
  }

  /** `s` with its trailing whitespace removed: a prefix of `s` that does not end with whitespace. */
  function StripEnd(s: string): (r: string)
    ensures |r| <= |s| && r == s[..|r|]
    ensures AllSpace(s[|r|..])
    ensures r == [] || !IsSpace(r[|r| - 1])
  {
    if s != [] && IsSpace(s[|s| - 1]) then StripEnd(s[..|s| - 1]) else s
  }

  /** Python's `s.strip()`. */
  function Strip(s: string): string
  {
    StripEnd(StripStart(s))
  }

  /**
   * `Strip(s)` is the unique infix of `s` that is surrounded by whitespace only and
   * neither starts nor ends with whitespace; it is empty exactly when `s` is all whitespace.
   */
  lemma StripIsTrimmedInfix(s: string)
    ensures exists i, j :: 0 <= i <= j <= |s| && Strip(s) == s[i..j] && AllSpace(s[..i]) && AllSpace(s[j..])
    ensures Strip(s) == [] <==> AllSpace(s)
    ensures Strip(s) != [] ==> !IsSpace(Strip(s)[0]) && !IsSpace(Strip(s)[|Strip(s)| - 1])
  {
    var t := StripStart(s);
    var r := StripEnd(t);
    var i := |s| - |t|;
    var j := i + |r|;
    assert s[i..] == t;
    assert r == s[i..j];
    assert s[j..] == t[|r|..];
    if r == [] {
      assert t == [] by { assert AllSpace(t); }
      assert s[..i] == s;
    }
  }

  /** Stripping twice is stripping once. */
  lemma StripIdempotent(s: string)
    ensures Strip(Strip(s)) == Strip(s)
  {
    var r := Strip(s);
    StripIsTrimmedInfix(s);
    if r != [] {
      assert StripStart(r) == r;
      assert StripEnd(r) == r;
    }
  }

  /**
   * `validate_string`: a missing value, the empty string or an all-whitespace string
   * is refused naming the field; otherwise the stripped string is returned.
   */
  function ValidateString(value: Option<string>, fieldName: string): (r: Result<string, Error>)
    ensures r.Failure? <==> value.None? || AllSpace(value.value)
    ensures r.Failure? ==> r.error == EmptyField(fieldName)
    ensures r.Success? ==> r.value == Strip(value.value) && r.value != []
    ensures r.Success? ==> !IsSpace(r.value[0]) && !IsSpace(r.value[|r.value| - 1])
  {
    if value.None? || value.value == [] then Failure(EmptyField(fieldName))
    else
      StripIsTrimmedInfix(value.value);
      if Strip(value.value) == [] then Failure(EmptyField(fieldName))
      else Success(Strip(value.value))
  }

  /** An IEEE 754 double as far as the amount check can tell them apart. */
  datatype Float = Finite(x: real) | PosInfinity | NegInfinity | NaN

  /** Python's `f <= 0` on a float: false for NaN, whatever the other operand. */
  predicate AtMostZero(f: Float)
  {
    match f
    case Finite(x) => x <= 0.0
    case PosInfinity => false
    case NegInfinity => true
    case NaN => false
  }

  /**
   * `validate_amount` exactly as written: `float(value)` is given as `parsed`
   * (`None` when it raised ValueError), and the only refusal after parsing is `<= 0`.
   */
  function ValidateAmountAsWritten(value: string, parsed: Option<Float>): (r: Result<Float, Error>)
    ensures r.Failure? <==> parsed.None? || AtMostZero(parsed.value)
    ensures r.Success? ==> r.value == parsed.value
    ensures parsed.None? ==> r == Failure(NotANumber(value))
    ensures parsed.Some? && AtMostZero(parsed.value) ==> r == Failure(NotPositive(value))
  {
    match parsed
    case None => Failure(NotANumber(value))
    case Some(f) => if AtMostZero(f) then Failure(NotPositive(value)) else Success(f)
  }

  /** The text "nan" passes the check as written and yields a value that is not a positive number. */
  lemma AsWrittenAcceptsNaN()
    ensures ValidateAmountAsWritten("nan", Some(NaN)) == Success(NaN)
    ensures ValidateAmountAsWritten("inf", Some(PosInfinity)) == Success(PosInfinity)
  {
  }

  /**
   * `validate_amount` as evidently intended: the result is a finite amount strictly
   * greater than zero. Text that does not parse, NaN and +infinity are refused as not
   * a number; finite values at most zero and -infinity as not positive, as the
   * source's `<= 0` test does.
   */
  function ValidateAmount(value: string, parsed: Option<Float>): (r: Result<real, Error>)
    ensures r.Success? <==> parsed.Some? && parsed.value.Finite? && parsed.value.x > 0.0
    ensures r.Success? ==> r.value > 0.0 && parsed == Some(Finite(r.value))
    ensures r.Failure? && parsed.Some? && AtMostZero(parsed.value) ==> r.error == NotPositive(value)
    ensures r.Failure? && !(parsed.Some? && AtMostZero(parsed.value)) ==> r.error == NotANumber(value)
  {
    match parsed
    case Some(Finite(x)) => if x <= 0.0 then Failure(NotPositive(value)) else Success(x)
    case Some(NegInfinity) => Failure(NotPositive(value))
    case _ => Failure(NotANumber(value))
  }

  /**
   * The corrected check refuses exactly the values the written one refuses, with the
   * same error, and in addition NaN and +infinity, as not a number.
   */
  lemma ValidateAmountRefinesAsWritten(value: string, parsed: Option<Float>)
    ensures ValidateAmount(value, parsed).Success? <==>
            ValidateAmountAsWritten(value, parsed).Success? && !(parsed.value == NaN || parsed.value == PosInfinity)
    ensures ValidateAmount(value, parsed).Success? ==>
            ValidateAmountAsWritten(value, parsed) == Success(Finite(ValidateAmount(value, parsed).value))
    ensures ValidateAmountAsWritten(value, parsed).Failure? ==>
            ValidateAmount(value, parsed) == Failure(ValidateAmountAsWritten(value, parsed).error)
    ensures ValidateAmountAsWritten(value, parsed).Success? && ValidateAmount(value, parsed).Failure? ==>
            ValidateAmount(value, parsed) == Failure(NotANumber(value))
  {
  }
}
