/** What a technical failure becomes on the second axis of a consumption. */
module Dispositions {
  import opened Ports

  /** What an error and the errors it wraps say of themselves: its own classification,
      the sentinels among them, the driver's state and verdicts. */
  datatype Fault = Fault(
    declared: Option<bool>,
    registerTimeout: bool,
    deadline: bool,
    sqlState: Option<string>,
    safeToRetry: bool,
    timeout: bool,
    cancelled: bool)

  const PLAIN := Fault(None, false, false, None, false, false, false)

  /** A failure classified where it was known. */
  function Declared(retryable: bool): Fault {
    PLAIN.(declared := Some(retryable))
  }

  predicate TransientDatabase(f: Fault) {
    && f.sqlState.Some?
    && ("08" <= f.sqlState.value || f.sqlState.value in {"40001", "40P01", "57P01"})
  }

  predicate TransientTransport(f: Fault) {
    f.safeToRetry || f.timeout
  }

  function Classify(f: Fault): (d: Disposition)
    ensures d == R1D3 || d == R1D4
  {
    if f.declared.Some? then (if f.declared.value then R1D3 else R1D4)
    else if f.registerTimeout then R1D3
    else if f.deadline || TransientDatabase(f) || TransientTransport(f) then R1D3
    else R1D4
  }

  /** The classification made where the failure was known prevails over everything the
      error wraps; without one, a cancellation changes nothing, and the conditions that
      leave nothing kept, and only they, are retried. */
  lemma ClassifyMeaning(f: Fault)
    ensures f.declared.Some? ==> Classify(f) == Classify(Declared(f.declared.value))
    ensures f.declared.None? ==> Classify(f) == Classify(f.(cancelled := !f.cancelled))
    ensures f.declared.None? ==>
      (Classify(f) == R1D3 <==> f.registerTimeout || f.deadline || f.safeToRetry || f.timeout || TransientDatabase(f))
  {
  }
}
