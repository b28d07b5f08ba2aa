/** `assure_io!`: a query that reports a condition through the success channel;
    its declared error type is `std::io::Error`. */
module AssureIo {
  import opened Results
  import Checks

  /** `assure_io!(condition)`: never an error; the payload is the condition. */
  function Default(condition: bool): (r: Result<bool, IoError>)
    ensures r.Ok? && r.value == condition
  {
    if condition then Ok(true) else Ok(false)
  }

  /** `assure_io!(condition, message)`: the message is accepted and ignored. */
  function WithMessage(condition: bool, message: string): (r: Result<bool, IoError>)
    ensures r.Ok? && r.value == condition
  {
    if condition then Ok(true) else Ok(false)
  }

  /** The message has no effect on the outcome. */
  lemma MessageIgnored(condition: bool, message: string)
    ensures WithMessage(condition, message) == Default(condition)
  {
  }

  /** Both arms are the generic check under the always-Ok policy, whatever
      error value that policy is handed. */
  lemma IsAlwaysOkCheck(condition: bool, message: string, unused: IoError)
    ensures Default(condition) == Checks.Evaluate(Checks.AlwaysOk, condition, unused)
    ensures WithMessage(condition, message) == Checks.Evaluate(Checks.AlwaysOk, condition, unused)
  {
  }
}
