/** `assume_ne!`: an inequality check whose failure goes to the error channel
    as a plain `String`. */
module AssumeNe {
  import opened Results
  import Diagnostics
  import Checks
  import DebugFormat

  const Name: string := "assume_ne"

  /** `assume_ne!(left, right)`: succeeds only with `true`; a failure can only
      come from equal operands, so both renderings in its diagnostic agree. */
  function Default(left: int, right: int): (r: Result<bool, string>)
    ensures r.Ok? <==> left != right
    ensures r.Ok? ==> r.value
    ensures r.Err? ==> r.error == Diagnostics.AssumptionFailed(Name, left, left)
  {
    if left != right then Ok(true)
    else Err(Diagnostics.AssumptionFailed(Name, left, right))
  }

  /** `assume_ne!(left, right, message)`: the caller's message replaces the
      diagnostic unchanged. */
  function WithMessage(left: int, right: int, message: string): (r: Result<bool, string>)
    ensures r.Ok? <==> left != right
    ensures r.Ok? ==> r.value
    ensures r.Err? ==> r.error == message
  {
    if left != right then Ok(true) else Err(message)
  }

  /** The whole outcome, diagnostic included, does not depend on operand order. */
  lemma Symmetric(a: int, b: int, message: string)
    ensures Default(a, b) == Default(b, a)
    ensures WithMessage(a, b, message) == WithMessage(b, a, message)
  {
  }

  /** Both arms make the same decision, and agree outright when it succeeds. */
  lemma FormsAgree(left: int, right: int, message: string)
    ensures Default(left, right).Ok? == WithMessage(left, right, message).Ok?
    ensures Default(left, right).Ok? ==> Default(left, right) == WithMessage(left, right, message)
  {
  }

  /** A failing check's default diagnostic identifies its operand. */
  lemma FailureIdentifiesOperands(a: int, b: int, c: int, d: int)
    requires Default(a, b).Err? && Default(a, b) == Default(c, d)
    ensures a == b == c == d
  {
    Diagnostics.OperandsRecoverable(Name, a, b, c, d);
  }

  /** Both arms are the generic check under the fail-on-false policy. */
  lemma IsFailOnFalseCheck(left: int, right: int, message: string)
    ensures Default(left, right) == Checks.Evaluate(Checks.FailOnFalse, left != right, Diagnostics.AssumptionFailed(Name, left, right))
    ensures WithMessage(left, right, message) == Checks.Evaluate(Checks.FailOnFalse, left != right, message)
  {
  }

  /** The success and custom-message cases the crate's own tests exercise. */
  lemma Examples()
    ensures Default(1, 2) == Ok(true)
    ensures WithMessage(1, 2, "message") == Ok(true)
    ensures WithMessage(1, 1, "message") == Err("message")
  {
  }

  /** The failing case the crate's own tests exercise, with its exact text. */
  lemma FailureExample()
    ensures Default(1, 1) == Err(
      "assumption failed: `" + "assume_ne" + "(left, right)`\n  left: `" + "1" + "`\n right: `" + "1" + "`")
  {
    assert DebugFormat.Show(1) == "1";
    Diagnostics.Spelled(Name, 1, 1);
  }

  /** That text is the current template, not the older one the documentation
      shows for the same call. */
  lemma NotOldFormat()
    ensures Default(1, 1) != Err("assume_ne left:1 right:1")
  {
  }
}
