/** `assure!`: a query that reports a condition through the success channel;
    its declared error type is `String`. */
module Assure {
  import opened Results
  import Checks

  /** `assure!(condition)`: never an error; the payload is the condition. */
  function Default(condition: bool): (r: Result<bool, string>)
    ensures r.Ok? && r.value == condition
  {
    if condition then Ok(true) else Ok(false)
  }

  /** `assure!(condition, message)`: the message is accepted and ignored. */
  function WithMessage(condition: bool, message: string): (r: Result<bool, string>)
    ensures r.Ok? && r.value == condition
  {
    if condition then Ok(true) else Ok(false)
  }

  /** The message has no effect on the outcome. */
  lemma MessageIgnored(condition: bool, message: string)
    ensures WithMessage(condition, message) == Default(condition)
  {
  }

  /** Both arms are the generic check under the always-Ok policy, whatever
      error value that policy is handed. */
  lemma IsAlwaysOkCheck(condition: bool, message: string, unused: string)
    ensures Default(condition) == Checks.Evaluate(Checks.AlwaysOk, condition, unused)
    ensures WithMessage(condition, message) == Checks.Evaluate(Checks.AlwaysOk, condition, unused)
  {
  }
}
