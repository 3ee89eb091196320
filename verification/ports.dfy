/** The vocabulary shared by every part: results, the external-command cycle's
    classes and findings, and the scope a caller's context gives to a key. */
module Ports {

  datatype Option<+T> = None | Some(value: T)

  datatype Result<+T, +E> = Ok(value: T) | Err(error: E)

  /** Nanoseconds. Unbounded here; the places where int64 matters say so. */
  type Instant = int

  type TenantID = string
  type OutboundKey = string
  type MessageID = string

  /** The closed outcome of one submission. `ClassNone` is the zero value and
      `ClassUndeclared` stands for every byte above the nine declared ones. */
  datatype ExternalClass =
    | ClassNone
    | ClassAccepted
    | ClassRetryableTransport
    | ClassRetryableUpstream
    | ClassFinalValidation
    | ClassFinalBusiness
    | ClassFinalAuthorization
    | ClassUnknownSent
    | ClassUnknownAmbiguous
    | ClassSchemaMismatch
    | ClassUndeclared
  {
    predicate Valid() {
      !ClassNone? && !ClassUndeclared?
    }

    predicate Retryable() {
      ClassRetryableTransport? || ClassRetryableUpstream?
    }
  }

  /** What an observation concluded; `FindingNone` is the zero value. */
  datatype Finding =
    | FindingNone
    | FindingApplied
    | FindingAbsent
    | FindingRejected
    | FindingPending
    | FindingInconclusive
    | FindingUndeclared
  {
    predicate Valid() {
      !FindingNone? && !FindingUndeclared?
    }

    predicate Terminal() {
      FindingApplied? || FindingRejected?
    }
  }

  datatype Observation = Observation(
    key: OutboundKey, finding: Finding, sourceAt: Instant, provider: string, externalRef: string, id: string)

  const NO_OBSERVATION := Observation("", FindingNone, 0, "", "", "")

  /** The execution context of a call: absent, present without a tenant, or scoped. */
  datatype Caller = NoExecution | PlatformChain | OfTenant(tenant: TenantID)

  /** A key is scoped by tenant: the same key under two tenants is two ledgers. */
  datatype Scope = Scope(tenant: TenantID, key: OutboundKey)

  datatype Attempt = Attempt(scope: Scope, n: int, message: MessageID, startedAt: Instant)

  datatype AttemptOutcome = AttemptOutcome(
    key: OutboundKey, n: int, cls: ExternalClass, observation: Observation, finishedAt: Instant, presumed: bool)

  datatype LedgerError =
    | InvalidAttempt
    | AttemptUnknown
    | AttemptInFlight
    | ExecutionContextRequired
    | TenantUnresolved
    | InsertRacesLost

  datatype AttemptStart =
    | StartedAttempt(attempt: Attempt)
    | PendingAttempt(attempt: Attempt)
    | DoneAttempt(attempt: Attempt, cls: ExternalClass)

  datatype FinishResult = FinishRecorded | FinishUnchanged | FinishConflict | FinishSaturated

  /** `recorded` is the class the row holds after the call. */
  datatype Finished = Finished(result: FinishResult, recorded: ExternalClass)

  datatype ObserveResult = ObserveRecorded | ObserveDuplicate | ObserveConflict | ObserveSaturated

  datatype Observed = Observed(result: ObserveResult, n: int, cls: ExternalClass, queriesDone: nat)

  /** The seven consumption outcomes: R2, R3 and R4 short-circuit the second axis. */
  datatype Disposition = R1D1 | R1D2 | R1D3 | R1D4 | R2 | R3 | R4

  /** Caps the observation IDs and the conflicts one attempt keeps. */
  const MAX_ATTEMPT_ENTRIES: nat := 64

  /** The tenant scoping of the context's key, or the refusal of its absence. */
  function ScopeOf(caller: Caller, key: OutboundKey): Result<Scope, LedgerError> {
    match caller
    case NoExecution => Err(ExecutionContextRequired)
    case PlatformChain => Err(TenantUnresolved)
    case OfTenant(tenant) => Ok(Scope(tenant, key))
  }

  predicate ValidOutcome(o: AttemptOutcome) {
    && o.key != ""
    && o.n >= 1
    && o.cls.Valid()
    && (o.observation.key == "" || o.observation.key == o.key)
    && (o.observation.finding == FindingNone || o.observation.finding.Valid())
  }

  predicate ValidObservation(o: Observation) {
    o.key != "" && o.id != "" && o.finding.Valid()
  }
}
