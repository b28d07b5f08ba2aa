/** `assure_io_gt!`: a query that reports whether one value is greater than another, always through the
    success channel; its declared error type is `String`. */
module AssureIoGt {
  import opened Results
  import Checks

  /** `assure_io_gt!(left, right)`: never an error; the payload is the comparison. */
  function Default(left: int, right: int): (r: Result<bool, string>)
    ensures r == Ok(left > right)
  {
    if left > right then Ok(true) else Ok(false)
  }

  /** `assure_io_gt!(left, right, message)`: the message is accepted and ignored. */
  function WithMessage(left: int, right: int, message: string): (r: Result<bool, string>)
    ensures r == Ok(left > right)
  {
    if left > right then Ok(true) else Ok(false)
  }

  /** The message has no effect on the outcome. */
  lemma MessageIgnored(left: int, right: int, message: string)
    ensures WithMessage(left, right, message) == Default(left, right)
  {
  }

  /** The comparison is strict: equal operands report `false`, not an error. */
  lemma EqualOperandsReportFalse(x: int, message: string)
    ensures Default(x, x) == Ok(false)
    ensures WithMessage(x, x, message) == Ok(false)
  {
  }

  /** Both arms are the generic check under the always-Ok policy, whatever
      error value that policy is handed. */
  lemma IsAlwaysOkCheck(left: int, right: int, message: string, unused: string)
    ensures Default(left, right) == Checks.Evaluate(Checks.AlwaysOk, left > right, unused)
    ensures WithMessage(left, right, message) == Checks.Evaluate(Checks.AlwaysOk, left > right, unused)
  {
  }
}
