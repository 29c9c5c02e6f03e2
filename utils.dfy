/** `safe_int` and the `fail_safely` decorator of the shared utilities. */
module Utils {
  import opened Wrappers
  import opened Text

  /** The values `safe_int` is applied to: `None`, a bool, an int, or text. */
  datatype PyValue = PyNone | PyBool(b: bool) | PyInt(i: int) | PyStr(s: string)

  /**
   * `safe_int(value)`: `None` stays `None`; anything else goes through `int(value)`, which
   * raises on text Python does not read as an integer.
   */
  function SafeInt(v: PyValue): (r: CallResult<int>)
    ensures r == Returned(None) <==> v.PyNone?
    ensures v.PyInt? ==> r == Returned(Some(v.i))
    ensures v.PyBool? ==> r == Returned(Some(if v.b then 1 else 0))
    ensures v.PyStr? ==> (r.Raised? <==> PyIntOfStr(v.s).None?)
    ensures v.PyStr? && r.Returned? ==> r.value == PyIntOfStr(v.s)
    ensures v.PyStr? && ParseInt(v.s).Some? ==> r == Returned(ParseInt(v.s))
  {
    match v
    case PyNone => Returned(None)
    case PyBool(b) => Returned(Some(if b then 1 else 0))
    case PyInt(i) => Returned(Some(i))
    case PyStr(s) =>
      PyIntOfStrExtendsParseInt(s);
      match PyIntOfStr(s)
      case Some(i) => Returned(Some(i))
      case None => Raised
  }

  /** `safe_int(str(i)) == i`: an id that went through text comes back unchanged. */
  lemma SafeIntOfDecimal(i: int)
    ensures SafeInt(PyStr(IntToString(i))) == Returned(Some(i))
  {
    ParseIntToString(i);
  }

  /** An id written with whitespace around it is still read. */
  lemma SafeIntOfPaddedDecimal(i: int, pre: string, post: string)
    requires AllPyWhitespace(pre) && AllPyWhitespace(post)
    ensures SafeInt(PyStr(pre + IntToString(i) + post)) == Returned(Some(i))
  {
    PyIntOfStrPadded(i, pre, post);
  }

  /** Text with two underscores in a row raises. */
  lemma SafeIntOfDoubledUnderscore(s: string, k: int)
    requires 0 <= k < |s| - 1 && s[k] == '_' && s[k + 1] == '_'
    ensures SafeInt(PyStr(s)).Raised?
  {
    PyIntOfStrDoubledUnderscore(s, k);
  }

  /**
   * What a call wrapped by `fail_safely(static_response)` yields, given what the wrapped call
   * did: a non-`None` return value passes through; a raise or a `None` return both become
   * `static_response`. The wrapper itself never raises.
   */
  function FailSafely<T>(staticResponse: Option<T>, outcome: CallResult<T>): (r: Option<T>)
    ensures outcome.Returned? && outcome.value.Some? ==> r == outcome.value
    ensures outcome.Raised? ==> r == staticResponse
    ensures outcome == Returned(None) ==> r == staticResponse
  {
    match outcome
    case Returned(Some(v)) => Some(v)
    case _ => staticResponse
  }

  /** With the default `static_response=None`, the wrapped call yields `None` exactly when it raised or returned `None`. */
  lemma FailSafelyDefault<T>(outcome: CallResult<T>)
    ensures FailSafely(None, outcome).None? <==> (outcome.Raised? || outcome == Returned(None))
  {
  }

  /** Wrapping twice with the same static response changes nothing. */
  lemma FailSafelyIdempotent<T>(staticResponse: Option<T>, outcome: CallResult<T>)
    ensures FailSafely(staticResponse, Returned(FailSafely(staticResponse, outcome))) == FailSafely(staticResponse, outcome)
  {
  }
}
