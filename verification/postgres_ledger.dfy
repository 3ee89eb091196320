/** The ledger over the external_attempt table: each SQL statement is the update
    it makes to rows, and the calls are the sequences of statements they run. */
module PostgresLedgers {
  import opened Ports
  import opened AttemptRows
  import opened AttemptLaws

  datatype PgConflict = PgConflict(cls: Option<ExternalClass>, finding: Option<Finding>, at: Instant)

  /** The four columns of the observation in force; all NULL when none was carried. */
  datatype ObservationColumns = ObservationColumns(
    id: Option<string>, provider: Option<string>, externalRef: Option<string>, sourceAt: Option<Instant>)

  const NULLS := ObservationColumns(None, None, None, None)

  datatype PgRow = PgRow(
    message: MessageID,
    begun: bool,
    startedAt: Instant,
    finishedAt: Option<Instant>,
    cls: Option<ExternalClass>,
    finding: Option<Finding>,
    observed: ObservationColumns,
    terminal: Option<Finding>,
    observationIds: seq<string>,
    queries: nat,
    conflicts: seq<PgConflict>)

  /** The primary key. */
  datatype PgKey = PgKey(scope: Scope, n: int)

  type Table = map<PgKey, PgRow>

  // --- Conversions between columns and values --------------------------------------

  function NullableFinding(f: Finding): Option<Finding> {
    if f == FindingNone then None else Some(f)
  }

  function TerminalOf(f: Finding): Option<Finding> {
    if f.Terminal() then Some(f) else None
  }

  function ClassOf(stored: Option<ExternalClass>): ExternalClass {
    if stored.None? then ClassNone else stored.value
  }

  function ColumnsOf(o: Observation): ObservationColumns {
    if o.id == "" && o.finding == FindingNone then NULLS
    else ObservationColumns(Some(o.id), Some(o.provider), Some(o.externalRef), Some(o.sourceAt))
  }

  predicate Saturated(seen: nat, conflicts: nat) {
    seen >= MAX_ATTEMPT_ENTRIES || conflicts >= MAX_ATTEMPT_ENTRIES
  }

  // --- The statements ------------------------------------------------------------------

  /** ORDER BY attempt DESC LIMIT 1 over a set of attempt numbers. */
  ghost function Greatest(ns: set<int>): (n: Option<int>)
    ensures n.None? <==> ns == {}
    ensures n.Some? ==> n.value in ns && forall m :: m in ns ==> m <= n.value
    decreases ns
  {
    if exists m :: m in ns then
      var m :| m in ns;
      var rest := Greatest(ns - {m});
      assert ns == (ns - {m}) + {m};
      if rest.None? || rest.value < m then Some(m) else rest
    else None
  }

  ghost function SelectLast(table: Table, scope: Scope): Option<int> {
    Greatest(set k | k in table && k.scope == scope :: k.n)
  }

  predicate DoneRow(row: PgRow, m: MessageID) {
    row.message == m && !row.begun && row.cls.Some? && !row.cls.value.Retryable()
  }

  ghost function SelectDone(table: Table, scope: Scope, m: MessageID): Option<int> {
    Greatest(set k | k in table && k.scope == scope && DoneRow(table[k], m) :: k.n)
  }

  /** INSERT ... ON CONFLICT DO NOTHING, with the number of rows affected. */
  function InsertAttempt(table: Table, k: PgKey, m: MessageID, at: Instant): (Table, nat) {
    if k in table then (table, 0)
    else (table[k := PgRow(m, true, at, None, None, None, NULLS, None, [], 0, [])], 1)
  }

  function FinishBegunAttempt(table: Table, k: PgKey, o: AttemptOutcome): (Table, nat) {
    if k !in table || !table[k].begun then (table, 0)
    else
      var row := table[k];
      var ids := if o.observation.id == "" then row.observationIds else row.observationIds + [o.observation.id];
      (table[k := row.(begun := false, finishedAt := Some(o.finishedAt), cls := Some(o.cls),
                       finding := NullableFinding(o.observation.finding), terminal := TerminalOf(o.observation.finding),
                       observationIds := ids, observed := ColumnsOf(o.observation))], 1)
  }

  function AppendConflict(table: Table, k: PgKey, conflict: PgConflict): Table
    requires k in table
  {
    table[k := table[k].(conflicts := table[k].conflicts + [conflict])]
  }

  function RecordObservationID(table: Table, k: PgKey, id: string): Table
    requires k in table
  {
    table[k := table[k].(observationIds := table[k].observationIds + [id])]
  }

  function RecordObservation(table: Table, k: PgKey, o: Observation, full: bool): Table
    requires k in table
  {
    var row := table[k];
    table[k := row.(finding := Some(o.finding), terminal := TerminalOf(o.finding), queries := row.queries + 1,
                    observationIds := if full then row.observationIds else row.observationIds + [o.id],
                    observed := ObservationColumns(Some(o.id), Some(o.provider), Some(o.externalRef), Some(o.sourceAt)))]
  }

  // --- The calls ------------------------------------------------------------------------

  /** One round: the message's finished row, else the last row, else an insert. */
  ghost function BeginRound(table: Table, scope: Scope, m: MessageID, now: Instant): (Table, Option<AttemptStart>) {
    var done := SelectDone(table, scope, m);
    if done.Some? then
      var row := table[PgKey(scope, done.value)];
      (table, Some(DoneAttempt(Attempt(scope, done.value, m, row.startedAt), ClassOf(row.cls))))
    else
      var last := SelectLast(table, scope);
      if last.Some? && table[PgKey(scope, last.value)].begun then
        var row := table[PgKey(scope, last.value)];
        (table, Some(PendingAttempt(Attempt(scope, last.value, row.message, row.startedAt))))
      else
        var next := (if last.Some? then last.value else 0) + 1;
        var (table', affected) := InsertAttempt(table, PgKey(scope, next), m, now);
        if affected == 0 then (table', None)
        else (table', Some(StartedAttempt(Attempt(scope, next, m, now))))
  }

  ghost function PgBegin(table: Table, caller: Caller, key: OutboundKey, m: MessageID, now: Instant): (Table, Result<AttemptStart, LedgerError>) {
    if key == "" || m == "" then (table, Err(InvalidAttempt))
    else match ScopeOf(caller, key)
      case Err(e) => (table, Err(e))
      case Ok(scope) =>
        var (table', start) := BeginRound(table, scope, m, now);
        (table', if start.Some? then Ok(start.value) else Err(InsertRacesLost))
  }

  function PgFinish(table: Table, caller: Caller, o: AttemptOutcome): (Table, Result<Finished, LedgerError>) {
    if !ValidOutcome(o) then (table, Err(InvalidAttempt))
    else match ScopeOf(caller, o.key)
      case Err(e) => (table, Err(e))
      case Ok(scope) =>
        var k := PgKey(scope, o.n);
        var (table', affected) := FinishBegunAttempt(table, k, o);
        if affected == 1 then (table', Ok(Finished(FinishRecorded, o.cls)))
        else if k !in table then (table, Err(AttemptUnknown))
        else
          var row := table[k];
          var recorded := ClassOf(row.cls);
          if recorded == o.cls || o.presumed then (table, Ok(Finished(FinishUnchanged, recorded)))
          else if Saturated(|row.observationIds|, |row.conflicts|) then (table, Ok(Finished(FinishSaturated, recorded)))
          else (AppendConflict(table, k, PgConflict(Some(o.cls), None, o.finishedAt)), Ok(Finished(FinishConflict, recorded)))
  }

  ghost function PgObserve(table: Table, caller: Caller, o: Observation, now: Instant): (Table, Result<Observed, LedgerError>) {
    if !ValidObservation(o) then (table, Err(InvalidAttempt))
    else match ScopeOf(caller, o.key)
      case Err(e) => (table, Err(e))
      case Ok(scope) =>
        var last := SelectLast(table, scope);
        if last.None? then (table, Err(AttemptUnknown))
        else
          var k := PgKey(scope, last.value);
          if table[k].begun then (table, Err(AttemptInFlight)) else PgObserveLast(table, k, o, now)
  }

  function PgObserveLast(table: Table, k: PgKey, o: Observation, now: Instant): (Table, Result<Observed, LedgerError>)
    requires k in table
  {
    var row := table[k];
    var same := Observed(ObserveDuplicate, k.n, ClassOf(row.cls), row.queries);
    var full := Saturated(|row.observationIds|, |row.conflicts|);
    if o.id in row.observationIds then (table, Ok(same))
    else if full && row.terminal == Some(o.finding) then (table, Ok(same))
    else if full && (row.terminal.Some? || TerminalOf(o.finding).None?) then (table, Ok(same.(result := ObserveSaturated)))
    else if row.terminal.Some? then ObserveAfterTerminal(table, k, o, now, same)
    else (RecordObservation(table, k, o, full), Ok(same.(result := ObserveRecorded, queriesDone := row.queries + 1)))
  }

  function ObserveAfterTerminal(table: Table, k: PgKey, o: Observation, now: Instant, same: Observed): (Table, Result<Observed, LedgerError>)
    requires k in table && table[k].terminal.Some?
  {
    var tracked := RecordObservationID(table, k, o.id);
    if TerminalOf(o.finding).None? || table[k].terminal == Some(o.finding) then (tracked, Ok(same))
    else (AppendConflict(tracked, k, PgConflict(None, Some(o.finding), now)), Ok(same.(result := ObserveConflict)))
  }

  // --- Agreement with the reference ledger ------------------------------------------------

  ghost predicate ConflictAgrees(mem: Conflict, pg: PgConflict) {
    && pg.at == mem.at
    && pg.cls == (if mem.cls == ClassNone then None else Some(mem.cls))
    && pg.finding == NullableFinding(mem.finding)
  }

  ghost predicate RowAgrees(mem: Row, pg: PgRow) {
    && pg.message == mem.message
    && pg.startedAt == mem.startedAt
    && pg.begun == !mem.finished
    && pg.finishedAt == (if mem.finished then Some(mem.finishedAt) else None)
    && pg.cls == (if mem.finished then Some(mem.cls) else None)
    && pg.finding == NullableFinding(mem.finding)
    && pg.terminal == TerminalOf(mem.finding)
    && pg.observed == ColumnsOf(mem.observation)
    && pg.observationIds == mem.seen
    && pg.queries == mem.queries
    && |pg.conflicts| == |mem.conflicts|
    && forall i :: 0 <= i < |mem.conflicts| ==> ConflictAgrees(mem.conflicts[i], pg.conflicts[i])
  }

  /** The table holds exactly the ledger's rows, numbered from 1. */
  ghost predicate Agrees(ledger: Ledger, table: Table) {
    && (forall scope, n :: PgKey(scope, n) in table <==> 1 <= n <= |RowsOf(ledger, scope)|)
    && (forall scope, n :: 1 <= n <= |RowsOf(ledger, scope)| ==> RowAgrees(RowsOf(ledger, scope)[n - 1], table[PgKey(scope, n)]))
  }

  lemma StoredRow(ledger: Ledger, table: Table, scope: Scope, n: int)
    requires LedgerOk(ledger) && Agrees(ledger, table) && 1 <= n <= |RowsOf(ledger, scope)|
    ensures PgKey(scope, n) in table && RowOk(RowsOf(ledger, scope)[n - 1])
    ensures RowAgrees(RowsOf(ledger, scope)[n - 1], table[PgKey(scope, n)])
  {
    RowsOkOf(ledger, scope);
  }

  lemma LastAgrees(ledger: Ledger, table: Table, scope: Scope)
    requires Agrees(ledger, table)
    ensures SelectLast(table, scope) == (if |RowsOf(ledger, scope)| == 0 then None else Some(|RowsOf(ledger, scope)|))
  {
    var ns := set k | k in table && k.scope == scope :: k.n;
    var n := |RowsOf(ledger, scope)|;
    forall m ensures m in ns <==> 1 <= m <= n {
      if 1 <= m <= n {
        assert PgKey(scope, m) in table && PgKey(scope, m).n == m;
      }
    }
    assert n > 0 ==> n in ns;
  }

  lemma DoneNumber(ledger: Ledger, table: Table, scope: Scope, m: MessageID, i: int)
    requires LedgerOk(ledger) && Agrees(ledger, table)
    ensures PgKey(scope, i) in table && DoneRow(table[PgKey(scope, i)], m) <==>
            1 <= i <= |RowsOf(ledger, scope)| && RowsOf(ledger, scope)[i - 1].DoneFor(m)
  {
    if 1 <= i <= |RowsOf(ledger, scope)| {
      StoredRow(ledger, table, scope, i);
    }
  }

  lemma DoneAgrees(ledger: Ledger, table: Table, scope: Scope, m: MessageID)
    requires LedgerOk(ledger) && Agrees(ledger, table)
    ensures SelectDone(table, scope, m) == (var n := LastDone(RowsOf(ledger, scope), m); if n == 0 then None else Some(n))
  {
    var rows := RowsOf(ledger, scope);
    var ns := set k | k in table && k.scope == scope && DoneRow(table[k], m) :: k.n;
    forall i ensures i in ns <==> 1 <= i <= |rows| && rows[i - 1].DoneFor(m) {
      DoneNumber(ledger, table, scope, m, i);
      if i in ns {
        var k :| k in table && k.scope == scope && DoneRow(table[k], m) && k.n == i;
        assert k == PgKey(scope, i);
      } else {
        assert PgKey(scope, i).n == i;
      }
    }
    GreatestIs(ns, LastDone(rows, m));
  }

  lemma GreatestIs(ns: set<int>, n: int)
    requires n in ns || (n == 0 && ns == {})
    requires forall m :: m in ns ==> m <= n
    ensures Greatest(ns) == if ns == {} then None else Some(n)
  {
  }

  lemma BeginAgrees(ledger: Ledger, table: Table, caller: Caller, key: OutboundKey, m: MessageID, now: Instant)
    requires LedgerOk(ledger) && Agrees(ledger, table)
    ensures var mem, pg := BeginIn(ledger, caller, key, m, now), PgBegin(table, caller, key, m, now);
      Agrees(mem.0, pg.0) && mem.1 == pg.1
  {
    if key != "" && m != "" && caller.OfTenant? {
      RoundAgrees(ledger, table, Scope(caller.tenant, key), m, now);
    }
  }

  lemma RoundAgrees(ledger: Ledger, table: Table, scope: Scope, m: MessageID, now: Instant)
    requires LedgerOk(ledger) && Agrees(ledger, table)
    ensures var (rows', start) := BeginRows(scope, RowsOf(ledger, scope), m, now); var pg := BeginRound(table, scope, m, now);
      && pg.1 == Some(start)
      && Agrees(if start.StartedAttempt? then ledger[scope := rows'] else ledger, pg.0)
  {
    var rows := RowsOf(ledger, scope);
    LastAgrees(ledger, table, scope);
    DoneAgrees(ledger, table, scope, m);
    if LastDone(rows, m) > 0 {
      StoredRow(ledger, table, scope, LastDone(rows, m));
    }
    if |rows| > 0 {
      StoredRow(ledger, table, scope, |rows|);
    }
    NextIsFree(ledger, table, scope);
    RoundAnswers(table, scope, rows, m, now);
    InsertAgrees(ledger, table, scope, m, now);
  }

  lemma NextIsFree(ledger: Ledger, table: Table, scope: Scope)
    requires Agrees(ledger, table)
    ensures PgKey(scope, |RowsOf(ledger, scope)| + 1) !in table
  {
  }

  /** A round on a table that holds the key's rows answers as the reference does. */
  lemma RoundAnswers(table: Table, scope: Scope, rows: seq<Row>, m: MessageID, now: Instant)
    requires SelectLast(table, scope) == (if |rows| == 0 then None else Some(|rows|))
    requires SelectDone(table, scope, m) == (if LastDone(rows, m) == 0 then None else Some(LastDone(rows, m)))
    requires PgKey(scope, |rows| + 1) !in table
    requires LastDone(rows, m) > 0 ==> HoldsRow(table, scope, LastDone(rows, m), rows)
    requires |rows| > 0 ==> HoldsRow(table, scope, |rows|, rows)
    ensures var (rows', start) := BeginRows(scope, rows, m, now); var pg := BeginRound(table, scope, m, now);
      && pg.1 == Some(start)
      && pg.0 == (if start.StartedAttempt? then InsertAttempt(table, PgKey(scope, |rows| + 1), m, now).0 else table)
      && (start.StartedAttempt? ==> rows' == rows + [BegunRow(m, now)])
  {
  }

  ghost predicate HoldsRow(table: Table, scope: Scope, n: int, rows: seq<Row>) {
    && 1 <= n <= |rows| && PgKey(scope, n) in table
    && table[PgKey(scope, n)].message == rows[n - 1].message
    && table[PgKey(scope, n)].startedAt == rows[n - 1].startedAt
    && table[PgKey(scope, n)].begun == !rows[n - 1].finished
    && table[PgKey(scope, n)].cls == (if rows[n - 1].finished then Some(rows[n - 1].cls) else None)
  }

  lemma InsertAgrees(ledger: Ledger, table: Table, scope: Scope, m: MessageID, now: Instant)
    requires Agrees(ledger, table)
    ensures var rows := RowsOf(ledger, scope);
      Agrees(ledger[scope := rows + [BegunRow(m, now)]], InsertAttempt(table, PgKey(scope, |rows| + 1), m, now).0)
  {
    var rows := RowsOf(ledger, scope);
    var ledger' := ledger[scope := rows + [BegunRow(m, now)]];
    var table' := InsertAttempt(table, PgKey(scope, |rows| + 1), m, now).0;
    assert PgKey(scope, |rows| + 1) !in table;
    forall sc, n | 1 <= n <= |RowsOf(ledger', sc)| ensures RowAgrees(RowsOf(ledger', sc)[n - 1], table'[PgKey(sc, n)]) {
      if !(sc == scope && n == |rows| + 1) {
        assert RowAgrees(RowsOf(ledger, sc)[n - 1], table[PgKey(sc, n)]);
      }
    }
  }

  /** Updating the same attempt on both sides to rows that agree keeps the tables agreeing. */
  lemma UpdateAgrees(ledger: Ledger, table: Table, scope: Scope, n: int, row: Row, pg: PgRow)
    requires Agrees(ledger, table) && 1 <= n <= |RowsOf(ledger, scope)| && RowAgrees(row, pg)
    ensures Agrees(ledger[scope := RowsOf(ledger, scope)[n - 1 := row]], table[PgKey(scope, n) := pg])
  {
  }

  lemma FinishAgrees(ledger: Ledger, table: Table, caller: Caller, o: AttemptOutcome)
    requires LedgerOk(ledger) && Agrees(ledger, table)
    ensures var mem, pg := FinishIn(ledger, caller, o), PgFinish(table, caller, o);
      Agrees(mem.0, pg.0) && mem.1 == pg.1
  {
    if ValidOutcome(o) && caller.OfTenant? {
      var scope := Scope(caller.tenant, o.key);
      var rows := RowsOf(ledger, scope);
      if o.n <= |rows| {
        RowsOkOf(ledger, scope);
        var row, pgRow := rows[o.n - 1], table[PgKey(scope, o.n)];
        assert RowAgrees(row, pgRow) && RowOk(row);
        var pg := PgFinish(table, caller, o).0;
        assert pg == table[PgKey(scope, o.n) := pg[PgKey(scope, o.n)]];
        UpdateAgrees(ledger, table, scope, o.n, FinishRow(row, o).0, pg[PgKey(scope, o.n)]);
      } else {
        assert PgKey(scope, o.n) !in table;
      }
    }
  }

  lemma ObserveAgrees(ledger: Ledger, table: Table, caller: Caller, o: Observation, now: Instant)
    requires LedgerOk(ledger) && Agrees(ledger, table)
    ensures var mem, pg := ObserveIn(ledger, caller, o, now), PgObserve(table, caller, o, now);
      Agrees(mem.0, pg.0) && mem.1 == pg.1
  {
    if ValidObservation(o) && caller.OfTenant? {
      ObserveAgreesAt(ledger, table, Scope(caller.tenant, o.key), o, now);
    }
  }

  lemma ObserveAgreesAt(ledger: Ledger, table: Table, scope: Scope, o: Observation, now: Instant)
    requires LedgerOk(ledger) && Agrees(ledger, table) && ValidObservation(o) && scope.key == o.key
    ensures var mem, pg := ObserveIn(ledger, OfTenant(scope.tenant), o, now), PgObserve(table, OfTenant(scope.tenant), o, now);
      Agrees(mem.0, pg.0) && mem.1 == pg.1
  {
    var rows := RowsOf(ledger, scope);
    LastAgrees(ledger, table, scope);
    if |rows| > 0 {
      StoredRow(ledger, table, scope, |rows|);
    }
    ObserveCases(ledger, table, scope, o, now);
    if |rows| > 0 && rows[|rows| - 1].finished {
      LastRowAgrees(ledger, table, scope, o, now);
    }
  }

  lemma ObserveCases(ledger: Ledger, table: Table, scope: Scope, o: Observation, now: Instant)
    requires ValidObservation(o) && scope.key == o.key
    requires var rows := RowsOf(ledger, scope); var n := |rows|;
      && SelectLast(table, scope) == (if n == 0 then None else Some(n))
      && (n > 0 ==> PgKey(scope, n) in table && table[PgKey(scope, n)].begun == !rows[n - 1].finished)
    ensures var rows := RowsOf(ledger, scope); var n := |rows|;
      var mem, pg := ObserveIn(ledger, OfTenant(scope.tenant), o, now), PgObserve(table, OfTenant(scope.tenant), o, now);
      if n == 0 || !rows[n - 1].finished then mem.0 == ledger && pg.0 == table && mem.1 == pg.1
      else
        var (row, r) := ObserveRow(rows[n - 1], n, o, now);
        mem == (ledger[scope := rows[n - 1 := row]], Ok(r)) && pg == PgObserveLast(table, PgKey(scope, n), o, now)
  {
  }

  lemma LastRowAgrees(ledger: Ledger, table: Table, scope: Scope, o: Observation, now: Instant)
    requires Agrees(ledger, table) && ValidObservation(o)
    requires var rows := RowsOf(ledger, scope);
      |rows| > 0 && rows[|rows| - 1].finished && rows[|rows| - 1].cls.Valid() && PgKey(scope, |rows|) in table
    ensures var rows := RowsOf(ledger, scope); var n := |rows|;
      var mem, pg := ObserveRow(rows[n - 1], n, o, now), PgObserveLast(table, PgKey(scope, n), o, now);
      Agrees(ledger[scope := rows[n - 1 := mem.0]], pg.0) && pg.1 == Ok(mem.1)
  {
    var rows := RowsOf(ledger, scope);
    var n := |rows|;
    var k := PgKey(scope, n);
    assert RowAgrees(rows[n - 1], table[k]);
    ObserveRowAgrees(rows[n - 1], table, k, o, now);
    UpdateAgrees(ledger, table, scope, n, ObserveRow(rows[n - 1], n, o, now).0, PgObserveLast(table, k, o, now).0[k]);
  }

  lemma ObserveRowAgrees(row: Row, table: Table, k: PgKey, o: Observation, now: Instant)
    requires k in table && RowAgrees(row, table[k]) && row.finished && ValidObservation(o)
    requires row.cls.Valid()
    ensures var mem, pg := ObserveRow(row, k.n, o, now), PgObserveLast(table, k, o, now);
      && pg.1 == Ok(mem.1)
      && k in pg.0 && pg.0 == table[k := pg.0[k]]
      && RowAgrees(mem.0, pg.0[k])
  {
  }

  ghost function PgPerform(table: Table, call: Call): (Table, Response) {
    match call
    case Begin(caller, key, m, now) => var (t, r) := PgBegin(table, caller, key, m, now); (t, Began(r))
    case Finish(caller, o) => var (t, r) := PgFinish(table, caller, o); (t, Closed(r))
    case Observe(caller, o, now) => var (t, r) := PgObserve(table, caller, o, now); (t, Saw(r))
  }

  ghost function Responses(ledger: Ledger, calls: seq<Call>): seq<Response>
    decreases |calls|
  {
    if |calls| == 0 then []
    else var (next, r) := Perform(ledger, calls[0]); [r] + Responses(next, calls[1..])
  }

  ghost function PgResponses(table: Table, calls: seq<Call>): seq<Response>
    decreases |calls|
  {
    if |calls| == 0 then []
    else var (next, r) := PgPerform(table, calls[0]); [r] + PgResponses(next, calls[1..])
  }

  lemma OneCallAgrees(ledger: Ledger, table: Table, call: Call)
    requires LedgerOk(ledger) && Agrees(ledger, table)
    ensures var mem, pg := Perform(ledger, call), PgPerform(table, call);
      LedgerOk(mem.0) && Agrees(mem.0, pg.0) && mem.1 == pg.1
  {
    match call {
      case Begin(caller, key, m, now) =>
        BeginAgrees(ledger, table, caller, key, m, now);
        BeginMeaning(ledger, caller, key, m, now);
      case Finish(caller, o) =>
        FinishAgrees(ledger, table, caller, o);
        FinishKeeps(ledger, caller, o);
      case Observe(caller, o, now) =>
        ObserveAgrees(ledger, table, caller, o, now);
        ObserveKeeps(ledger, caller, o, now);
    }
  }

  /** Over every sequential run, from agreeing stores, the two ledgers answer alike. */
  lemma {:induction false} RunsAgree(ledger: Ledger, table: Table, calls: seq<Call>)
    requires LedgerOk(ledger) && Agrees(ledger, table)
    ensures Responses(ledger, calls) == PgResponses(table, calls)
    decreases |calls|
  {
    if |calls| > 0 {
      OneCallAgrees(ledger, table, calls[0]);
      RunsAgree(Perform(ledger, calls[0]).0, PgPerform(table, calls[0]).0, calls[1..]);
    }
  }

  lemma FromEmptyRunsAgree(calls: seq<Call>)
    ensures Responses(map[], calls) == PgResponses(map[], calls)
  {
    RunsAgree(map[], map[], calls);
  }

  // --- The calls as they run ------------------------------------------------------------------

  const BEGIN_ROUNDS := 8

  class PostgresLedger {
    var table: Table

    constructor ()
      ensures table == map[]
    {
      table := map[];
    }

    method QueryLast(scope: Scope) returns (last: Option<int>)
      ensures last == SelectLast(table, scope)
    {
      last := None;
      var keys := table.Keys;
      while keys != {}
        invariant keys <= table.Keys
        invariant last.None? <==> forall k :: k in table.Keys - keys ==> k.scope != scope
        invariant last.Some? ==> PgKey(scope, last.value) in table
        invariant last.Some? ==> forall k :: k in table.Keys - keys && k.scope == scope ==> k.n <= last.value
        decreases keys
      {
        var k :| k in keys;
        if k.scope == scope && (last.None? || k.n > last.value) {
          last := Some(k.n);
        }
        keys := keys - {k};
      }
      ghost var ns := set k | k in table && k.scope == scope :: k.n;
      if last.Some? {
        assert PgKey(scope, last.value).n in ns;
      }
    }

    method QueryDone(scope: Scope, m: MessageID) returns (done: Option<int>)
      ensures done == SelectDone(table, scope, m)
    {
      done := None;
      var keys := table.Keys;
      while keys != {}
        invariant keys <= table.Keys
        invariant done.None? <==> forall k :: k in table.Keys - keys ==> !(k.scope == scope && DoneRow(table[k], m))
        invariant done.Some? ==> PgKey(scope, done.value) in table && DoneRow(table[PgKey(scope, done.value)], m)
        invariant done.Some? ==> forall k :: k in table.Keys - keys && k.scope == scope && DoneRow(table[k], m) ==> k.n <= done.value
        decreases keys
      {
        var k :| k in keys;
        if k.scope == scope && DoneRow(table[k], m) && (done.None? || k.n > done.value) {
          done := Some(k.n);
        }
        keys := keys - {k};
      }
      ghost var ns := set k | k in table && k.scope == scope && DoneRow(table[k], m) :: k.n;
      if done.Some? {
        assert PgKey(scope, done.value).n in ns;
      }
    }

    method Round(scope: Scope, m: MessageID, now: Instant) returns (start: Option<AttemptStart>)
      modifies this
      ensures (table, start) == BeginRound(old(table), scope, m, now)
    {
      var done := QueryDone(scope, m);
      if done.Some? {
        var row := table[PgKey(scope, done.value)];
        return Some(DoneAttempt(Attempt(scope, done.value, m, row.startedAt), ClassOf(row.cls)));
      }
      var last := QueryLast(scope);
      var n := 0;
      if last.Some? {
        n := last.value;
        var row := table[PgKey(scope, n)];
        if row.begun {
          return Some(PendingAttempt(Attempt(scope, n, row.message, row.startedAt)));
        }
      }
      var next := n + 1;
      var (inserted, affected) := InsertAttempt(table, PgKey(scope, next), m, now);
      table := inserted;
      if affected == 0 {
        return None;
      }
      return Some(StartedAttempt(Attempt(scope, next, m, now)));
    }

    /** Alone on its connection, the first round always settles. */
    method Begin(caller: Caller, key: OutboundKey, m: MessageID, now: Instant) returns (r: Result<AttemptStart, LedgerError>)
      modifies this
      ensures (table, r) == PgBegin(old(table), caller, key, m, now)
    {
      if key == "" || m == "" {
        return Err(InvalidAttempt);
      }
      var scoped := ScopeOf(caller, key);
      if scoped.Err? {
        return Err(scoped.error);
      }
      var round := 0;
      while round < BEGIN_ROUNDS
        invariant table == old(table)
        invariant round > 0 ==> BeginRound(old(table), scoped.value, m, now) == (old(table), None)
      {
        var start := Round(scoped.value, m, now);
        if start.Some? {
          return Ok(start.value);
        }
        round := round + 1;
      }
      return Err(InsertRacesLost);
    }

    method Finish(caller: Caller, o: AttemptOutcome) returns (r: Result<Finished, LedgerError>)
      modifies this
      ensures (table, r) == PgFinish(old(table), caller, o)
    {
      if !ValidOutcome(o) {
        return Err(InvalidAttempt);
      }
      var scoped := ScopeOf(caller, o.key);
      if scoped.Err? {
        return Err(scoped.error);
      }
      var k := PgKey(scoped.value, o.n);
      var (updated, affected) := FinishBegunAttempt(table, k, o);
      table := updated;
      if affected == 1 {
        return Ok(Finished(FinishRecorded, o.cls));
      }
      if k !in table {
        return Err(AttemptUnknown);
      }
      var recorded := ClassOf(table[k].cls);
      if recorded == o.cls || o.presumed {
        return Ok(Finished(FinishUnchanged, recorded));
      }
      if Saturated(|table[k].observationIds|, |table[k].conflicts|) {
        return Ok(Finished(FinishSaturated, recorded));
      }
      table := AppendConflict(table, k, PgConflict(Some(o.cls), None, o.finishedAt));
      return Ok(Finished(FinishConflict, recorded));
    }

    method Observe(caller: Caller, o: Observation, now: Instant) returns (r: Result<Observed, LedgerError>)
      modifies this
      ensures (table, r) == PgObserve(old(table), caller, o, now)
    {
      if !ValidObservation(o) {
        return Err(InvalidAttempt);
      }
      var scoped := ScopeOf(caller, o.key);
      if scoped.Err? {
        return Err(scoped.error);
      }
      var last := QueryLast(scoped.value);
      if last.None? {
        return Err(AttemptUnknown);
      }
      var k := PgKey(scoped.value, last.value);
      var row := table[k];
      if row.begun {
        return Err(AttemptInFlight);
      }
      var observed := Observed(ObserveDuplicate, last.value, ClassOf(row.cls), row.queries);
      if o.id in row.observationIds {
        return Ok(observed);
      }
      var full := Saturated(|row.observationIds|, |row.conflicts|);
      if full && row.terminal == Some(o.finding) {
        return Ok(observed);
      }
      if full && (row.terminal.Some? || TerminalOf(o.finding).None?) {
        return Ok(observed.(result := ObserveSaturated));
      }
      if row.terminal.Some? {
        table := RecordObservationID(table, k, o.id);
        if TerminalOf(o.finding).None? || row.terminal == Some(o.finding) {
          return Ok(observed);
        }
        table := AppendConflict(table, k, PgConflict(None, Some(o.finding), now));
        return Ok(observed.(result := ObserveConflict));
      }
      table := RecordObservation(table, k, o, full);
      return Ok(observed.(result := ObserveRecorded, queriesDone := row.queries + 1));
    }
  }
}
