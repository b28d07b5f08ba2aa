/** How the macros relate to one another: the "assume" checks succeed exactly
    when the matching "assure" query reports `true`, and the variants that
    differ only in name or error type give the same answers. */
module FamilyLaws {
  import opened Results
  import AssumeLt
  import AssumeNe
  import AssumeIoLt
  import AssureLt
  import AssureIoLt
  import AssureIoGt
  import Assure
  import AssureIo

  /** Wrap a plain-text failure as an invalid-input `std::io::Error`. */
  function AsInvalidInput(r: Result<bool, string>): (w: Result<bool, IoError>)
    ensures w.Ok? <==> r.Ok?
    ensures r.Ok? ==> w.value == r.value
    ensures r.Err? ==> w.error == IoError(InvalidInput, r.error)
  {
    match r
    case Ok(b) => Ok(b)
    case Err(text) => Err(IoError(InvalidInput, text))
  }

  /** `assure_lt!` and `assure_io_lt!` are the same query. */
  lemma AssureLtMatchesAssureIoLt(left: int, right: int, message: string)
    ensures AssureLt.Default(left, right) == AssureIoLt.Default(left, right)
    ensures AssureLt.WithMessage(left, right, message) == AssureIoLt.WithMessage(left, right, message)
  {
  }

  /** `assure_io_gt!(a, b)` is `assure_io_lt!(b, a)`. */
  lemma GtMirrorsLt(a: int, b: int, message: string)
    ensures AssureIoGt.Default(a, b) == AssureIoLt.Default(b, a)
    ensures AssureIoGt.WithMessage(a, b, message) == AssureIoLt.WithMessage(b, a, message)
  {
  }

  /** `assure!` and `assure_io!` carry the same payload for every condition. */
  lemma AssureMatchesAssureIo(condition: bool, message: string)
    ensures Assure.Default(condition).value == AssureIo.Default(condition).value
    ensures Assure.WithMessage(condition, message).value == AssureIo.WithMessage(condition, message).value
  {
  }

  /** `assume_io_lt!` with a custom message is `assume_lt!` with the failure
      wrapped as an invalid-input error; the default arms decide alike and
      differ only in the macro name their diagnostic carries. */
  lemma AssumeIoLtWrapsAssumeLt(left: int, right: int, message: string)
    ensures AssumeIoLt.WithMessage(left, right, message) == AsInvalidInput(AssumeLt.WithMessage(left, right, message))
    ensures AssumeIoLt.Default(left, right).Ok? == AssumeLt.Default(left, right).Ok?
  {
  }

  /** An "assume" less-than check succeeds exactly when the "assure" query
      reports `true`; when it fails the query reports `false` instead. */
  lemma AssumeLtAgreesWithAssureLt(left: int, right: int)
    ensures AssumeLt.Default(left, right).Ok? <==> AssureLt.Default(left, right) == Ok(true)
    ensures AssumeLt.Default(left, right).Err? <==> AssureLt.Default(left, right) == Ok(false)
    ensures AssumeIoLt.Default(left, right).Ok? <==> AssureIoLt.Default(left, right) == Ok(true)
  {
  }

  /** An "assume" inequality check succeeds exactly when `assure!` of the
      inequality reports `true`. */
  lemma AssumeNeAgreesWithAssure(left: int, right: int)
    ensures AssumeNe.Default(left, right).Ok? <==> Assure.Default(left != right) == Ok(true)
  {
  }
}
