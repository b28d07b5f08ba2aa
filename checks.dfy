/** One generic check that every macro of the crate instantiates: a policy
    says whether a false condition goes to the error channel ("assume") or
    is reported as the payload ("assure"). */
module Checks {
  import opened Results

  datatype Policy = FailOnFalse | AlwaysOk

  /** Evaluate a condition under a policy; `failure` is the error value the
      "assume" policy reports when the condition does not hold. */
  function Evaluate<E>(policy: Policy, holds: bool, failure: E): (r: Result<bool, E>)
    ensures r.Ok? ==> r.value == holds
    ensures r.Err? <==> policy == FailOnFalse && !holds
    ensures r.Err? ==> r.error == failure
  {
    match policy
    case FailOnFalse => if holds then Ok(true) else Err(failure)
    case AlwaysOk => Ok(holds)
  }
}
