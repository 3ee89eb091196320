/** What every run of Begin, Finish and Observe keeps: write-once outcomes, the
    entry bounds, one begun attempt per key, and the exact meaning of each result. */
module AttemptLaws {
  import opened Ports
  import opened AttemptRows

  // --- Invariants -------------------------------------------------------------

  /** A recorded query costs one observation ID, except the single terminal
      finding a saturated row still takes. */
  ghost predicate RowOk(row: Row) {
    && (row.finished <==> row.cls.Valid())
    && (!row.finished ==> row == BegunRow(row.message, row.startedAt))
    && |row.seen| <= MAX_ATTEMPT_ENTRIES
    && |row.conflicts| <= MAX_ATTEMPT_ENTRIES
    && row.queries <= |row.seen| + (if row.finding.Terminal() then 1 else 0)
  }

  /** Attempts count from 1 and only the last of a key can still be begun. */
  ghost predicate RowsOk(rows: seq<Row>) {
    && (forall i :: 0 <= i < |rows| ==> RowOk(rows[i]))
    && (forall i :: 0 <= i < |rows| - 1 ==> rows[i].finished)
  }

  ghost predicate LedgerOk(ledger: Ledger) {
    forall scope :: scope in ledger ==> RowsOk(ledger[scope])
  }

  /** What one row may become: an outcome, once recorded, never changes. */
  ghost predicate RowEvolves(before: Row, after: Row) {
    && after.message == before.message
    && after.startedAt == before.startedAt
    && before.seen <= after.seen
    && before.conflicts <= after.conflicts
    && before.queries <= after.queries
    && (before.finished ==>
      after.finished && after.cls == before.cls && after.finishedAt == before.finishedAt)
    && (before.finding.Terminal() ==>
      after.finding == before.finding && after.observation == before.observation && after.queries == before.queries)
  }

  ghost predicate RowsEvolve(before: seq<Row>, after: seq<Row>) {
    && |before| <= |after|
    && forall i :: 0 <= i < |before| ==> RowEvolves(before[i], after[i])
  }

  ghost predicate LedgerEvolves(before: Ledger, after: Ledger) {
    forall scope {:trigger RowsOf(before, scope)} {:trigger RowsOf(after, scope)} ::
      RowsEvolve(RowsOf(before, scope), RowsOf(after, scope))
  }

  lemma EvolvesTrans(a: Ledger, b: Ledger, c: Ledger)
    requires LedgerEvolves(a, b) && LedgerEvolves(b, c)
    ensures LedgerEvolves(a, c)
  {
    forall scope ensures RowsEvolve(RowsOf(a, scope), RowsOf(c, scope)) {
      var ra, rb, rc := RowsOf(a, scope), RowsOf(b, scope), RowsOf(c, scope);
      assert RowsEvolve(ra, rb) && RowsEvolve(rb, rc);
      forall i | 0 <= i < |ra| ensures RowEvolves(ra[i], rc[i]) {
        assert RowEvolves(ra[i], rb[i]) && RowEvolves(rb[i], rc[i]);
      }
    }
  }

  // --- One row ----------------------------------------------------------------

  /** A first outcome is recorded whatever it is; a later one never replaces it. */
  lemma FinishMeaning(row: Row, o: AttemptOutcome)
    requires RowOk(row) && ValidOutcome(o)
    ensures var (row', f) := FinishRow(row, o);
      && RowOk(row') && RowEvolves(row, row') && row'.finished
      && f.recorded == row'.cls
      && (f.result == FinishRecorded <==> !row.finished)
      && (f.result == FinishRecorded ==>
        && row'.cls == o.cls && row'.finishedAt == o.finishedAt && row'.finding == o.observation.finding
        && (o.observation.id != "" ==> row'.observation == o.observation)
        && row'.seen == (if o.observation.id != "" then [o.observation.id] else []))
      && (f.result == FinishConflict <==> row.finished && row.cls != o.cls && !o.presumed && !row.Saturated())
      && (f.result == FinishSaturated <==> row.finished && row.cls != o.cls && !o.presumed && row.Saturated())
      && row'.conflicts == (if f.result == FinishConflict then row.conflicts + [Conflict(o.cls, FindingNone, o.finishedAt)] else row.conflicts)
      && (row.finished ==> row'.(conflicts := row.conflicts) == row)
      && row'.queries == row.queries
  {
  }

  /** A presumed outcome yields to a recorded one and never adds a conflict. */
  lemma PresumedNeverConflicts(row: Row, o: AttemptOutcome)
    requires RowOk(row) && o.presumed
    ensures FinishRow(row, o).0.conflicts == row.conflicts
    ensures row.finished ==> FinishRow(row, o) == (row, Finished(FinishUnchanged, row.cls))
  {
  }

  /** The four results of an observation, each exactly when. */
  lemma ObserveMeaning(row: Row, n: int, o: Observation, now: Instant)
    requires RowOk(row) && row.finished && ValidObservation(o)
    ensures var (row', r) := ObserveRow(row, n, o, now);
      var settled := row.finding.Terminal();
      var unseen := o.id !in row.seen;
      && RowOk(row') && RowEvolves(row, row')
      && r.n == n && r.cls == row.cls && r.queriesDone == row'.queries
      && (r.result == ObserveRecorded <==> unseen && !settled && (row.Saturated() ==> o.finding.Terminal()))
      && (r.result == ObserveConflict <==>
            unseen && settled && o.finding.Terminal() && o.finding != row.finding && !row.Saturated())
      && (r.result == ObserveSaturated <==>
            unseen && row.Saturated() && (if settled then o.finding != row.finding else !o.finding.Terminal()))
      && row'.queries == row.queries + (if r.result == ObserveRecorded then 1 else 0)
      && row'.finding == (if r.result == ObserveRecorded then o.finding else row.finding)
      && row'.observation == (if r.result == ObserveRecorded then o else row.observation)
      && row'.observedAt == (if r.result == ObserveRecorded then now else row.observedAt)
      && row'.conflicts == (if r.result == ObserveConflict then row.conflicts + [Conflict(ClassNone, o.finding, now)] else row.conflicts)
      && row'.seen == (if unseen && !row.Saturated() then row.seen + [o.id] else row.seen)
  {
  }

  /** A first terminal finding under an unseen ID is never lost to saturation. */
  lemma FirstTerminalFindingRecorded(row: Row, n: int, o: Observation, now: Instant)
    requires RowOk(row) && row.finished && ValidObservation(o)
    requires o.id !in row.seen && o.finding.Terminal() && !row.finding.Terminal()
    ensures var (row', r) := ObserveRow(row, n, o, now);
      && r.result == ObserveRecorded && row'.finding == o.finding && row'.observation == o
      && forall later: Observation, at: Instant :: ValidObservation(later) ==>
           ObserveRow(row', n, later, at).1.result != ObserveRecorded
  {
    var row' := ObserveRow(row, n, o, now).0;
    forall later: Observation, at: Instant | ValidObservation(later)
      ensures ObserveRow(row', n, later, at).1.result != ObserveRecorded
    {
      ObserveMeaning(row, n, o, now);
      ObserveMeaning(row', n, later, at);
    }
  }

  // --- The whole ledger ---------------------------------------------------------

  lemma RowsOkOf(ledger: Ledger, scope: Scope)
    requires LedgerOk(ledger)
    ensures RowsOk(RowsOf(ledger, scope))
  {
  }

  /** Begin starts an attempt only over a key whose attempts all finished, and
      never for a message that already finished one for good. */
  lemma BeginMeaning(ledger: Ledger, caller: Caller, key: OutboundKey, m: MessageID, now: Instant)
    requires LedgerOk(ledger)
    ensures var (ledger', r) := BeginIn(ledger, caller, key, m, now);
      && LedgerOk(ledger') && LedgerEvolves(ledger, ledger')
      && (r.Ok? <==> key != "" && m != "" && caller.OfTenant?)
      && (r.Err? ==> ledger' == ledger)
      && (r.Ok? ==>
        var scope := Scope(caller.tenant, key);
        var rows := RowsOf(ledger, scope);
        var a := r.value.attempt;
        var done := exists i :: 0 <= i < |rows| && rows[i].DoneFor(m);
        && a.scope == scope && 1 <= a.n
        && (r.value.DoneAttempt? <==> done)
        && (r.value.StartedAttempt? <==> !done && forall i :: 0 <= i < |rows| ==> rows[i].finished)
        && (r.value.StartedAttempt? ==>
          a == Attempt(scope, |rows| + 1, m, now) && ledger' == ledger[scope := rows + [BegunRow(m, now)]])
        && (!r.value.StartedAttempt? ==>
          && ledger' == ledger && a.n <= |rows|
          && a == AttemptOf(scope, a.n, rows[a.n - 1]))
        && (r.value.PendingAttempt? ==> a.n == |rows| && !rows[a.n - 1].finished)
        && (r.value.DoneAttempt? ==>
          && rows[a.n - 1].DoneFor(m)
          && r.value.cls == rows[a.n - 1].cls
          && forall i :: a.n <= i < |rows| ==> !rows[i].DoneFor(m)))
  {
    var (ledger', r) := BeginIn(ledger, caller, key, m, now);
    if r.Ok? {
      var scope := Scope(caller.tenant, key);
      RowsOkOf(ledger, scope);
      var rows := RowsOf(ledger, scope);
      if r.value.PendingAttempt? {
        assert !rows[|rows| - 1].finished;
      }
      forall other ensures RowsEvolve(RowsOf(ledger, other), RowsOf(ledger', other)) {
        if other == scope && r.value.StartedAttempt? {
          assert RowsOf(ledger', scope) == rows + [BegunRow(m, now)];
        }
      }
    }
  }

  /** Replacing one row by what it may become keeps the ledger. */
  lemma UpdateKeeps(ledger: Ledger, scope: Scope, i: nat, row: Row)
    requires LedgerOk(ledger) && i < |RowsOf(ledger, scope)|
    requires RowOk(row) && row.finished && RowEvolves(RowsOf(ledger, scope)[i], row)
    ensures var ledger' := ledger[scope := RowsOf(ledger, scope)[i := row]];
      LedgerOk(ledger') && LedgerEvolves(ledger, ledger')
  {
    RowsOkOf(ledger, scope);
    var ledger' := ledger[scope := RowsOf(ledger, scope)[i := row]];
    forall other ensures RowsEvolve(RowsOf(ledger, other), RowsOf(ledger', other)) {
    }
  }

  lemma FinishKeeps(ledger: Ledger, caller: Caller, o: AttemptOutcome)
    requires LedgerOk(ledger)
    ensures var (ledger', r) := FinishIn(ledger, caller, o);
      && LedgerOk(ledger') && LedgerEvolves(ledger, ledger')
      && (r.Err? ==> ledger' == ledger)
      && (r.Ok? ==>
        && ValidOutcome(o) && caller.OfTenant?
        && var scope := Scope(caller.tenant, o.key);
        && o.n <= |RowsOf(ledger, scope)|
        && ledger' == ledger[scope := RowsOf(ledger, scope)[o.n - 1 := FinishRow(RowsOf(ledger, scope)[o.n - 1], o).0]]
        && r.value == FinishRow(RowsOf(ledger, scope)[o.n - 1], o).1)
  {
    var (ledger', r) := FinishIn(ledger, caller, o);
    if r.Ok? {
      var scope := Scope(caller.tenant, o.key);
      RowsOkOf(ledger, scope);
      var row := RowsOf(ledger, scope)[o.n - 1];
      FinishMeaning(row, o);
      UpdateKeeps(ledger, scope, o.n - 1, FinishRow(row, o).0);
    }
  }

  /** An observation reaches only the key's last attempt, and only once finished. */
  lemma ObserveKeeps(ledger: Ledger, caller: Caller, o: Observation, now: Instant)
    requires LedgerOk(ledger)
    ensures var (ledger', r) := ObserveIn(ledger, caller, o, now);
      && LedgerOk(ledger') && LedgerEvolves(ledger, ledger')
      && (r.Err? ==> ledger' == ledger)
      && (r.Ok? ==>
        && ValidObservation(o) && caller.OfTenant?
        && var rows := RowsOf(ledger, Scope(caller.tenant, o.key));
        && |rows| > 0 && rows[|rows| - 1].finished
        && ledger' == ledger[Scope(caller.tenant, o.key) := rows[|rows| - 1 := ObserveRow(rows[|rows| - 1], |rows|, o, now).0]]
        && r.value == ObserveRow(rows[|rows| - 1], |rows|, o, now).1)
  {
    var (ledger', r) := ObserveIn(ledger, caller, o, now);
    if r.Ok? {
      var scope := Scope(caller.tenant, o.key);
      RowsOkOf(ledger, scope);
      var rows := RowsOf(ledger, scope);
      ObserveMeaning(rows[|rows| - 1], |rows|, o, now);
      UpdateKeeps(ledger, scope, |rows| - 1, ObserveRow(rows[|rows| - 1], |rows|, o, now).0);
    }
  }

  // --- Runs ---------------------------------------------------------------------

  datatype Call =
    | Begin(caller: Caller, key: OutboundKey, message: MessageID, now: Instant)
    | Finish(caller: Caller, outcome: AttemptOutcome)
    | Observe(caller: Caller, observation: Observation, now: Instant)

  datatype Response =
    | Began(start: Result<AttemptStart, LedgerError>)
    | Closed(finished: Result<Finished, LedgerError>)
    | Saw(observed: Result<Observed, LedgerError>)

  function Perform(ledger: Ledger, call: Call): (Ledger, Response) {
    match call
    case Begin(caller, key, m, now) => var (l, r) := BeginIn(ledger, caller, key, m, now); (l, Began(r))
    case Finish(caller, o) => var (l, r) := FinishIn(ledger, caller, o); (l, Closed(r))
    case Observe(caller, o, now) => var (l, r) := ObserveIn(ledger, caller, o, now); (l, Saw(r))
  }

  /** The ledger after a sequence of calls. */
  function After(ledger: Ledger, calls: seq<Call>): Ledger
    decreases |calls|
  {
    if |calls| == 0 then ledger else After(Perform(ledger, calls[0]).0, calls[1..])
  }

  /** In every run, whatever the calls: outcomes and terminal findings are
      write-once, entries stay bounded and attempts are numbered without gaps. */
  lemma {:induction false} RunsKeepTheLedger(ledger: Ledger, calls: seq<Call>)
    requires LedgerOk(ledger)
    ensures LedgerOk(After(ledger, calls)) && LedgerEvolves(ledger, After(ledger, calls))
    decreases |calls|
  {
    if |calls| > 0 {
      var next := Perform(ledger, calls[0]).0;
      match calls[0] {
        case Begin(caller, key, m, now) => BeginMeaning(ledger, caller, key, m, now);
        case Finish(caller, o) => FinishKeeps(ledger, caller, o);
        case Observe(caller, o, now) => ObserveKeeps(ledger, caller, o, now);
      }
      RunsKeepTheLedger(next, calls[1..]);
      EvolvesTrans(ledger, next, After(ledger, calls));
    }
  }

  /** The bounds a reader asks for, on every ledger a run from nothing reaches. */
  lemma EntryBounds(calls: seq<Call>, scope: Scope, i: nat)
    requires i < |RowsOf(After(map[], calls), scope)|
    ensures var row := RowsOf(After(map[], calls), scope)[i];
      |row.seen| <= 64 && |row.conflicts| <= 64 && row.queries <= 65
  {
    RunsKeepTheLedger(map[], calls);
    RowsOkOf(After(map[], calls), scope);
  }
}
