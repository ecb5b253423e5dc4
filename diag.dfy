/** The subset of the Terraform plugin SDK's `diag` package that the
    handlers use: a diagnostic list with its severities, `HasError` and
    `FromErr`. In the SDK `diag.Error` is the error severity, not a
    constructor; the delete handler's `diag.Error(message)` is read as the
    one error diagnostic carrying that message, which is what `FromErr`
    builds. */
module Diag {

  datatype Severity = Error | Warning

  datatype Diagnostic = Diagnostic(severity: Severity, summary: string)

  /** A Go `diag.Diagnostics` slice; a nil slice is the empty sequence. */
  type Diagnostics = seq<Diagnostic>

  predicate HasError(diags: Diagnostics)
  {
    exists i :: 0 <= i < |diags| && diags[i].severity == Error
  }

  /** `diag.FromErr(err)` for a non-nil error: one error carrying its message. */
  function FromErr(message: string): (diags: Diagnostics)
    ensures HasError(diags) && |diags| == 1 && diags[0].summary == message
  {
    var diags := [Diagnostic(Error, message)];
    assert diags[0].severity == Error;
    diags
  }

  /** A result that comes with diagnostics, as in Go's `(value, diag.Diagnostics)`. */
  datatype Diagnosed<+T> = Diagnosed(value: T, diags: Diagnostics)
}
