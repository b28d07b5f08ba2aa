/** `assume_io_lt!`: a strict less-than check whose failure goes to the error
    channel as an `std::io::Error` of kind `InvalidInput`. */
module AssumeIoLt {
  import opened Results
  import Diagnostics
  import Checks
  import DebugFormat

  const Name: string := "assume_io_lt"

  /** `assume_io_lt!(left, right)`: succeeds only with `true`; otherwise an
      invalid-input error carrying the default diagnostic. */
  function Default(left: int, right: int): (r: Result<bool, IoError>)
    ensures r.Ok? <==> left < right
    ensures r.Ok? ==> r.value
    ensures r.Err? ==> r.error.kind == InvalidInput
    ensures r.Err? ==> r.error.message == Diagnostics.AssumptionFailed(Name, left, right)
  {
    if left < right then Ok(true)
    else Err(IoError(InvalidInput, Diagnostics.AssumptionFailed(Name, left, right)))
  }

  /** `assume_io_lt!(left, right, message)`: an invalid-input error whose text
      is the caller's message, unchanged. */
  function WithMessage(left: int, right: int, message: string): (r: Result<bool, IoError>)
    ensures r.Ok? <==> left < right
    ensures r.Ok? ==> r.value
    ensures r.Err? ==> r.error == IoError(InvalidInput, message)
  {
    if left < right then Ok(true) else Err(IoError(InvalidInput, message))
  }

  /** Neither arm ever reports `Ok(false)`: a false comparison is an error. */
  lemma NeverOkFalse(left: int, right: int, message: string)
    ensures Default(left, right) != Ok(false)
    ensures WithMessage(left, right, message) != Ok(false)
  {
  }

  /** Both arms make the same decision, and agree outright when it succeeds. */
  lemma FormsAgree(left: int, right: int, message: string)
    ensures Default(left, right).Ok? == WithMessage(left, right, message).Ok?
    ensures Default(left, right).Ok? ==> Default(left, right) == WithMessage(left, right, message)
  {
  }

  /** The comparison is strict: equal operands fail in both arms. */
  lemma EqualOperandsFail(x: int, message: string)
    ensures Default(x, x) == Err(IoError(InvalidInput, Diagnostics.AssumptionFailed(Name, x, x)))
    ensures WithMessage(x, x, message) == Err(IoError(InvalidInput, message))
  {
  }

  /** A failing check's default diagnostic identifies its operands. */
  lemma FailureIdentifiesOperands(a: int, b: int, c: int, d: int)
    requires Default(a, b).Err? && Default(a, b) == Default(c, d)
    ensures a == c && b == d
  {
    Diagnostics.OperandsRecoverable(Name, a, b, c, d);
  }

  /** Both arms are the generic check under the fail-on-false policy. */
  lemma IsFailOnFalseCheck(left: int, right: int, message: string)
    ensures Default(left, right) == Checks.Evaluate(Checks.FailOnFalse, left < right, IoError(InvalidInput, Diagnostics.AssumptionFailed(Name, left, right)))
    ensures WithMessage(left, right, message) == Checks.Evaluate(Checks.FailOnFalse, left < right, IoError(InvalidInput, message))
  {
  }

  /** The success and custom-message cases the crate's own tests exercise. */
  lemma Examples()
    ensures Default(1, 2) == Ok(true)
    ensures WithMessage(1, 2, "message") == Ok(true)
    ensures WithMessage(2, 1, "message") == Err(IoError(InvalidInput, "message"))
  {
  }

  /** The failing case the crate's own tests exercise, with its exact text. */
  lemma FailureExample()
    ensures Default(2, 1) == Err(IoError(InvalidInput,
      "assumption failed: `" + "assume_io_lt" + "(left, right)`\n  left: `" + "2" + "`\n right: `" + "1" + "`"))
  {
    assert DebugFormat.Show(2) == "2" && DebugFormat.Show(1) == "1";
    Diagnostics.Spelled(Name, 2, 1);
  }
}
