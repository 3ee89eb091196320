/** What the reference ledger does to the rows of one key: the specification the
    in-memory ledger is proved against, and the laws the rows obey. */
module AttemptRows {
  import opened Ports

  /** A late contradiction kept beside the recorded outcome, never over it. */
  datatype Conflict = Conflict(cls: ExternalClass, finding: Finding, at: Instant)

  datatype Row = Row(
    message: MessageID,
    startedAt: Instant,
    finished: bool,
    finishedAt: Instant,
    cls: ExternalClass,
    observation: Observation,
    finding: Finding,
    observedAt: Instant,
    seen: seq<string>,
    queries: nat,
    conflicts: seq<Conflict>)
  {
    predicate Saturated() {
      |seen| >= MAX_ATTEMPT_ENTRIES || |conflicts| >= MAX_ATTEMPT_ENTRIES
    }

    /** The message closed this attempt with a class no resend follows. */
    predicate DoneFor(m: MessageID) {
      finished && message == m && !cls.Retryable()
    }
  }

  function BegunRow(message: MessageID, now: Instant): Row {
    Row(message, now, false, 0, ClassNone, NO_OBSERVATION, FindingNone, 0, [], 0, [])
  }

  /** Rows of every scope; a scope with no entry has none. */
  type Ledger = map<Scope, seq<Row>>

  function RowsOf(ledger: Ledger, scope: Scope): seq<Row> {
    if scope in ledger then ledger[scope] else []
  }

  function AttemptOf(scope: Scope, n: int, row: Row): Attempt {
    Attempt(scope, n, row.message, row.startedAt)
  }

  /** The number of the last attempt `m` finished for good, or 0. */
  function LastDone(rows: seq<Row>, m: MessageID): (n: nat)
    ensures n <= |rows|
    ensures n > 0 ==> rows[n - 1].DoneFor(m)
    ensures forall i :: n <= i < |rows| ==> !rows[i].DoneFor(m)
  {
    if |rows| == 0 then 0
    else if rows[|rows| - 1].DoneFor(m) then |rows|
    else LastDone(rows[..|rows| - 1], m)
  }

  function BeginRows(scope: Scope, rows: seq<Row>, m: MessageID, now: Instant): (seq<Row>, AttemptStart) {
    var done := LastDone(rows, m);
    if done > 0 then (rows, DoneAttempt(AttemptOf(scope, done, rows[done - 1]), rows[done - 1].cls))
    else if |rows| > 0 && !rows[|rows| - 1].finished then (rows, PendingAttempt(AttemptOf(scope, |rows|, rows[|rows| - 1])))
    else (rows + [BegunRow(m, now)], StartedAttempt(AttemptOf(scope, |rows| + 1, BegunRow(m, now))))
  }

  function FinishRow(row: Row, o: AttemptOutcome): (Row, Finished) {
    if !row.finished then
      var closed := row.(finished := true, finishedAt := o.finishedAt, cls := o.cls);
      var observed :=
        if o.observation.id != "" || o.observation.finding != FindingNone
        then closed.(observation := o.observation, finding := o.observation.finding, observedAt := o.finishedAt)
        else closed;
      var tracked := if o.observation.id != "" then observed.(seen := observed.seen + [o.observation.id]) else observed;
      (tracked, Finished(FinishRecorded, o.cls))
    else if row.cls == o.cls || o.presumed then (row, Finished(FinishUnchanged, row.cls))
    else if row.Saturated() then (row, Finished(FinishSaturated, row.cls))
    else (row.(conflicts := row.conflicts + [Conflict(o.cls, FindingNone, o.finishedAt)]), Finished(FinishConflict, row.cls))
  }

  function ObserveRow(row: Row, n: int, o: Observation, now: Instant): (Row, Observed)
    requires row.finished
  {
    var same := Observed(ObserveDuplicate, n, row.cls, row.queries);
    var full := row.Saturated();
    if o.id in row.seen then (row, same)
    else if full && row.finding.Terminal() && o.finding == row.finding then (row, same)
    else if full && (row.finding.Terminal() || !o.finding.Terminal()) then (row, same.(result := ObserveSaturated))
    else
      var tracked := if full then row else row.(seen := row.seen + [o.id]);
      if row.finding.Terminal() then
        if !o.finding.Terminal() || o.finding == row.finding then (tracked, same)
        else (tracked.(conflicts := tracked.conflicts + [Conflict(ClassNone, o.finding, now)]), same.(result := ObserveConflict))
      else
        (tracked.(observation := o, finding := o.finding, observedAt := now, queries := row.queries + 1),
         Observed(ObserveRecorded, n, row.cls, row.queries + 1))
  }

  // --- The three calls over a whole ledger -----------------------------------

  type Started = Result<AttemptStart, LedgerError>

  function BeginIn(ledger: Ledger, caller: Caller, key: OutboundKey, m: MessageID, now: Instant): (Ledger, Started) {
    if key == "" || m == "" then (ledger, Err(InvalidAttempt))
    else match ScopeOf(caller, key)
      case Err(e) => (ledger, Err(e))
      case Ok(scope) =>
        var (rows, start) := BeginRows(scope, RowsOf(ledger, scope), m, now);
        (if start.StartedAttempt? then ledger[scope := rows] else ledger, Ok(start))
  }

  function FinishIn(ledger: Ledger, caller: Caller, o: AttemptOutcome): (Ledger, Result<Finished, LedgerError>) {
    if !ValidOutcome(o) then (ledger, Err(InvalidAttempt))
    else match ScopeOf(caller, o.key)
      case Err(e) => (ledger, Err(e))
      case Ok(scope) =>
        var rows := RowsOf(ledger, scope);
        if o.n > |rows| then (ledger, Err(AttemptUnknown))
        else
          var (row, finished) := FinishRow(rows[o.n - 1], o);
          (ledger[scope := rows[o.n - 1 := row]], Ok(finished))
  }

  function ObserveIn(ledger: Ledger, caller: Caller, o: Observation, now: Instant): (Ledger, Result<Observed, LedgerError>) {
    if !ValidObservation(o) then (ledger, Err(InvalidAttempt))
    else match ScopeOf(caller, o.key)
      case Err(e) => (ledger, Err(e))
      case Ok(scope) =>
        var rows := RowsOf(ledger, scope);
        if |rows| == 0 then (ledger, Err(AttemptUnknown))
        else if !rows[|rows| - 1].finished then (ledger, Err(AttemptInFlight))
        else
          var (row, observed) := ObserveRow(rows[|rows| - 1], |rows|, o, now);
          (ledger[scope := rows[|rows| - 1 := row]], Ok(observed))
  }
}
