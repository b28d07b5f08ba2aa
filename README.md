# Check macros of the `assertable` crate, modelled in Dafny

The crate offers small check macros that return a `Result` rather than
panicking. Each one takes one condition or two operands, plus an optional
custom message. It runs one comparison and builds one value. There are two
families:

- **assume** (`assume_lt!`, `assume_ne!`, `assume_io_lt!`): a comparison that
  does not hold is reported through `Err`. `assume_lt!` and `assume_ne!` fail
  with a `String`. `assume_io_lt!` fails with an `std::io::Error` of kind
  `InvalidInput`. The default diagnostic is the text
  ``assumption failed: `<macro>(left, right)`\n  left: `<left>`\n right: `<right>` ``,
  built from the `{:?}` renderings of the operands. A custom message replaces
  that diagnostic unchanged. On success the payload is always `true`.
- **assure** (`assure!`, `assure_io!`, `assure_lt!`, `assure_io_lt!`,
  `assure_io_gt!`): the result is always `Ok(outcome)`. The custom message is
  accepted and ignored.

Each source file becomes one module. The module has `Default` for the macro's
first arm (no message) and `WithMessage` for its second arm. Shared pieces:

- `Results`: `Result<T, E>`, plus `IoError(kind, message)` standing for
  `std::io::Error::new(kind, message)`.
- `DebugFormat`: `Show`, the `{:?}` rendering of an integer (decimal digits,
  with a leading `-` when negative).
- `Diagnostics`: `AssumptionFailed`, the default diagnostic template.
- `Checks`: `Evaluate`, one generic check with a fail-on-false or always-Ok
  policy. Every macro is proved to be an instance of it.
- `FamilyLaws`: lemmas that relate the macros to one another.

Where the doc comments and the code disagree, the model follows the code:

- `src/assume_io_lt.rs:5` says `Ok(false)` can be returned. Both arms return
  `Err` instead (lines 39-45 and 55-61). `AssumeIoLt.NeverOkFalse` proves this.
- `src/assume_ne.rs:20` shows an older diagnostic format. The code uses the
  common template (line 33). `AssumeNe.NotOldFormat` proves the two differ.
- The assure docs describe an "Otherwise, return `Err`" case (for example
  `src/assure.rs:7-8`). No branch of the code reaches it.
- `assure_io_lt!` and `assure_io_gt!` are declared `Result<bool, String>`,
  not `Result<bool, std::io::Error>` (`src/assure_io_lt.rs:39`,
  `src/assure_io_gt.rs:39`). The model uses the declared type.

## Model

| member | source | states |
|---|---|---|
| `DebugFormat.Show` | src/assume_lt.rs:33 | the `{:?}` rendering of an integer operand is non-empty, starts with `-` exactly for negative operands, and never contains a backtick |
| `DebugFormat.ShowInjective` | src/assume_lt.rs:33 | distinct operands never render alike |
| `Diagnostics.OperandsRecoverable` | src/assume_lt.rs:33 | two default diagnostics of the same macro that are equal were built from the same left and right operands |
| `Diagnostics.AssumptionFailed` | src/assume_lt.rs:33 | the default diagnostic template: it opens with ``assumption failed: ` `` followed by the macro's name and closes with a backtick; its exact text is given by `Diagnostics.Spelled`, and both operands can be recovered from it by `Diagnostics.OperandsRecoverable` |
| `Diagnostics.Spelled` | src/assume_io_lt.rs:43 | the default diagnostic is exactly ``assumption failed: `<name>(left, right)`\n  left: `<left>`\n right: `<right>` `` with the operands' renderings in place |
| `Checks.Evaluate` | src/assume_lt.rs:30-34 | under every policy an `Ok` payload equals the condition; `Err` occurs exactly under fail-on-false with a false condition, and carries the given failure value |
| `AssumeLt.Default` | src/assume_lt.rs:27-37 | `Ok` exactly when `left < right`, with payload `true`; otherwise `Err` with the default diagnostic naming `assume_lt` |
| `AssumeLt.WithMessage` | src/assume_lt.rs:38-48 | `Ok` exactly when `left < right`, with payload `true`; otherwise `Err` carrying the caller's message unchanged |
| `AssumeLt.FormsAgree` | src/assume_lt.rs:27-48 | both arms decide success alike, and give the same result when they succeed |
| `AssumeLt.EqualOperandsFail` | src/assume_lt.rs:30 | equal operands fail in both arms (strict `<`) |
| `AssumeLt.FailureIdentifiesOperands` | src/assume_lt.rs:33 | a failing default result determines both operands |
| `AssumeLt.IsFailOnFalseCheck` | src/assume_lt.rs:27-48 | both arms are the generic check under the fail-on-false policy |
| `AssumeLt.Examples` | src/assume_lt.rs:54-96 | `(1, 2)` gives `Ok(true)` in both arms; `(2, 1, "message")` gives `Err("message")` |
| `AssumeLt.FailureExample` | src/assume_lt.rs:65-74 | `(2, 1)` fails with exactly the text the test expects |
| `AssumeNe.Default` | src/assume_ne.rs:27-37 | `Ok` exactly when `left != right`, with payload `true`; otherwise `Err` with the default diagnostic, whose two renderings are those of the same value |
| `AssumeNe.WithMessage` | src/assume_ne.rs:38-48 | `Ok` exactly when `left != right`, with payload `true`; otherwise `Err` carrying the caller's message unchanged |
| `AssumeNe.Symmetric` | src/assume_ne.rs:27-48 | swapping the operands changes nothing, in both arms, the diagnostic included |
| `AssumeNe.FormsAgree` | src/assume_ne.rs:27-48 | both arms decide success alike, and give the same result when they succeed |
| `AssumeNe.FailureIdentifiesOperands` | src/assume_ne.rs:33 | a failing default result determines its operands, which are all equal |
| `AssumeNe.IsFailOnFalseCheck` | src/assume_ne.rs:27-48 | both arms are the generic check under the fail-on-false policy |
| `AssumeNe.Examples` | src/assume_ne.rs:54-96 | `(1, 2)` gives `Ok(true)` in both arms; `(1, 1, "message")` gives `Err("message")` |
| `AssumeNe.FailureExample` | src/assume_ne.rs:65-74 | `(1, 1)` fails with exactly the text the test expects |
| `AssumeNe.NotOldFormat` | src/assume_ne.rs:20 | that failure is not the older format shown in the documentation |
| `AssumeIoLt.Default` | src/assume_io_lt.rs:34-49 | `Ok` exactly when `left < right`, with payload `true`; otherwise an `InvalidInput` error whose message is the default diagnostic naming `assume_io_lt` |
| `AssumeIoLt.WithMessage` | src/assume_io_lt.rs:50-65 | `Ok` exactly when `left < right`, with payload `true`; otherwise an `InvalidInput` error carrying the caller's message unchanged |
| `AssumeIoLt.NeverOkFalse` | src/assume_io_lt.rs:37-61 | neither arm ever returns `Ok(false)` |
| `AssumeIoLt.FormsAgree` | src/assume_io_lt.rs:34-65 | both arms decide success alike, and give the same result when they succeed |
| `AssumeIoLt.EqualOperandsFail` | src/assume_io_lt.rs:37 | equal operands give an `InvalidInput` error in both arms |
| `AssumeIoLt.FailureIdentifiesOperands` | src/assume_io_lt.rs:43 | a failing default result determines both operands |
| `AssumeIoLt.IsFailOnFalseCheck` | src/assume_io_lt.rs:34-65 | both arms are the generic check under the fail-on-false policy, with the failure wrapped as an `InvalidInput` error |
| `AssumeIoLt.Examples` | src/assume_io_lt.rs:71-113 | `(1, 2)` gives `Ok(true)` in both arms; `(2, 1, "message")` gives an `InvalidInput` error with message `"message"` |
| `AssumeIoLt.FailureExample` | src/assume_io_lt.rs:82-91 | `(2, 1)` fails with kind `InvalidInput` and exactly the text the test expects |
| `AssureLt.Default` | src/assure_lt.rs:29-39 | always `Ok`, with payload `left < right` |
| `AssureLt.WithMessage` | src/assure_lt.rs:40-50 | always `Ok`, with payload `left < right`, whatever the message |
| `AssureLt.MessageIgnored` | src/assure_lt.rs:29-50 | the message arm equals the default arm |
| `AssureLt.EqualOperandsReportFalse` | src/assure_lt.rs:32-35 | equal operands give `Ok(false)` in both arms |
| `AssureLt.IsAlwaysOkCheck` | src/assure_lt.rs:29-50 | both arms are the generic check under the always-Ok policy |
| `AssureIoLt.Default` | src/assure_io_lt.rs:29-39 | always `Ok`, with payload `left < right` |
| `AssureIoLt.WithMessage` | src/assure_io_lt.rs:40-50 | always `Ok`, with payload `left < right`, whatever the message |
| `AssureIoLt.MessageIgnored` | src/assure_io_lt.rs:29-50 | the message arm equals the default arm |
| `AssureIoLt.EqualOperandsReportFalse` | src/assure_io_lt.rs:32-35 | equal operands give `Ok(false)` in both arms |
| `AssureIoLt.IsAlwaysOkCheck` | src/assure_io_lt.rs:29-50 | both arms are the generic check under the always-Ok policy |
| `AssureIoGt.Default` | src/assure_io_gt.rs:29-39 | always `Ok`, with payload `left > right` |
| `AssureIoGt.WithMessage` | src/assure_io_gt.rs:40-50 | always `Ok`, with payload `left > right`, whatever the message |
| `AssureIoGt.MessageIgnored` | src/assure_io_gt.rs:29-50 | the message arm equals the default arm |
| `AssureIoGt.EqualOperandsReportFalse` | src/assure_io_gt.rs:32-35 | equal operands give `Ok(false)` in both arms |
| `AssureIoGt.IsAlwaysOkCheck` | src/assure_io_gt.rs:29-50 | both arms are the generic check under the always-Ok policy |
| `Assure.Default` | src/assure.rs:29-35 | always `Ok`, and unwrapping gives back the condition |
| `Assure.WithMessage` | src/assure.rs:36-42 | always `Ok`, and unwrapping gives back the condition, whatever the message |
| `Assure.MessageIgnored` | src/assure.rs:29-42 | the message arm equals the default arm |
| `Assure.IsAlwaysOkCheck` | src/assure.rs:29-42 | both arms are the generic check under the always-Ok policy |
| `AssureIo.Default` | src/assure_io.rs:29-35 | always `Ok`, never the `std::io::Error` channel, and unwrapping gives back the condition |
| `AssureIo.WithMessage` | src/assure_io.rs:36-42 | always `Ok`, and unwrapping gives back the condition, whatever the message |
| `AssureIo.MessageIgnored` | src/assure_io.rs:29-42 | the message arm equals the default arm |
| `AssureIo.IsAlwaysOkCheck` | src/assure_io.rs:29-42 | both arms are the generic check under the always-Ok policy |
| `FamilyLaws.AsInvalidInput` | src/assume_io_lt.rs:56-61 | wrapping keeps the channel and the payload, and turns a text failure into an `InvalidInput` error with that text |
| `FamilyLaws.AssureLtMatchesAssureIoLt` | src/assure_lt.rs:29-50 | `assure_lt!` and `assure_io_lt!` agree on every input, in both arms |
| `FamilyLaws.GtMirrorsLt` | src/assure_io_gt.rs:32 | `assure_io_gt!(a, b)` equals `assure_io_lt!(b, a)`, in both arms |
| `FamilyLaws.AssureMatchesAssureIo` | src/assure.rs:35 | `assure!` and `assure_io!` carry the same payload for every condition; only the error type differs |
| `FamilyLaws.AssumeIoLtWrapsAssumeLt` | src/assume_io_lt.rs:50-65 | `assume_io_lt!` with a message is `assume_lt!` with its failure wrapped as `InvalidInput`; the default arms decide alike |
| `FamilyLaws.AssumeLtAgreesWithAssureLt` | src/assume_lt.rs:30-33 | the assume less-than check succeeds exactly when the assure query reports `true`, and fails exactly when it reports `false` |
| `FamilyLaws.AssumeNeAgreesWithAssure` | src/assume_ne.rs:30 | `assume_ne!` succeeds exactly when `assure!(left != right)` reports `true` |

## Left out

- Generic operands: the source accepts any `PartialOrd` or `PartialEq` type. The model uses unbounded `int`. So it does not cover partial orders (floats with NaN), fixed-width integer types, or other `Debug` impls.
- `DebugFormat.Show`: models `{:?}` for integers only. Rust's general formatter is not part of this model.
- `std::io::Error` internals (`Box<dyn Error>`, `get_ref`, `to_string`) are not modelled. The error is a kind plus its message text. `ErrorKind` lists only a few variants; only `InvalidInput` is ever produced.
- Macro mechanics are not modelled: token-tree matching, the optional trailing comma, and the `as Result<…>` ascription. The custom-message arm passes one caller expression through unformatted. In `assume_lt!` and `assume_ne!` it becomes `Err(message)`, so it may have any type, and a `&str` literal makes that arm `Result<bool, &str>`; the model fixes its type to `string`. In `assume_io_lt!` it becomes `std::io::Error::new(InvalidInput, message)`, so it must convert into a boxed error and the arm stays `Result<bool, std::io::Error>`; the model's `string` stands for the text that `get_ref().unwrap().to_string()` gives back.
- A failing first arm of an assume macro evaluates both operand expressions a second time, to format them. Side effects of that second evaluation are outside a value model.
- Doc-test scaffolding and the commented-out expectations in the tests are not modelled.
