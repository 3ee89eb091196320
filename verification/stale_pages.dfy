/** The order in which the sweep walks begun attempts, and what one page of them is. */
module StalePages {
  import opened Ports
  import opened AttemptRows
  import opened TextOrder

  /** Where a page resumes; the zero value starts from the oldest attempt. */
  datatype Cursor = Cursor(startedAt: Instant, tenant: TenantID, key: OutboundKey, n: int)

  const START := Cursor(0, "", "", 0)

  function CursorOf(a: Attempt): Cursor {
    Cursor(a.startedAt, a.scope.tenant, a.scope.key, a.n)
  }

  /** The first field that differs decides. */
  function CompareCursor(a: Cursor, b: Cursor): (c: int)
    ensures -1 <= c <= 1
  {
    if a.startedAt != b.startedAt then CompareInt(a.startedAt, b.startedAt)
    else if CompareText(a.tenant, b.tenant) != 0 then CompareText(a.tenant, b.tenant)
    else if CompareText(a.key, b.key) != 0 then CompareText(a.key, b.key)
    else CompareInt(a.n, b.n)
  }

  predicate Precedes(a: Attempt, b: Attempt) {
    CompareCursor(CursorOf(a), CursorOf(b)) < 0
  }

  lemma CursorAntisymmetric(a: Cursor, b: Cursor)
    ensures CompareCursor(a, b) == -CompareCursor(b, a)
    ensures CompareCursor(a, b) == 0 <==> a == b
  {
    TextAntisymmetric(a.tenant, b.tenant);
    TextAntisymmetric(a.key, b.key);
  }

  lemma CursorTransitive(a: Cursor, b: Cursor, c: Cursor)
    requires CompareCursor(a, b) <= 0 && CompareCursor(b, c) <= 0
    ensures CompareCursor(a, c) <= 0
    ensures CompareCursor(a, b) < 0 || CompareCursor(b, c) < 0 ==> CompareCursor(a, c) < 0
  {
    TextAntisymmetric(a.tenant, b.tenant);
    TextAntisymmetric(b.tenant, c.tenant);
    TextAntisymmetric(a.tenant, c.tenant);
    TextAntisymmetric(a.key, b.key);
    TextAntisymmetric(b.key, c.key);
    TextAntisymmetric(a.key, c.key);
    if CompareText(a.tenant, b.tenant) <= 0 && CompareText(b.tenant, c.tenant) <= 0 {
      TextTransitive(a.tenant, b.tenant, c.tenant);
    }
    if CompareText(a.key, b.key) <= 0 && CompareText(b.key, c.key) <= 0 {
      TextTransitive(a.key, b.key, c.key);
    }
  }

  /** A begun attempt started at or before the cutoff and past the cursor. */
  predicate StaleRow(row: Row, cutoff: Instant, after: Cursor, a: Attempt) {
    !row.finished && row.startedAt <= cutoff && (after == START || CompareCursor(CursorOf(a), after) > 0)
  }

  function StaleSet(ledger: Ledger, cutoff: Instant, after: Cursor): set<Attempt> {
    set scope, i | scope in ledger && 0 <= i < |ledger[scope]|
                && StaleRow(ledger[scope][i], cutoff, after, AttemptOf(scope, i + 1, ledger[scope][i]))
      :: AttemptOf(scope, i + 1, ledger[scope][i])
  }

  ghost predicate Ascending(page: seq<Attempt>) {
    forall i, j :: 0 <= i < j < |page| ==> Precedes(page[i], page[j])
  }

  /** The first `limit` members in cursor order. */
  ghost predicate IsPage(page: seq<Attempt>, all: set<Attempt>, limit: nat) {
    && Ascending(page)
    && |page| <= limit
    && (forall a :: a in page ==> a in all)
    && (forall a :: a in all && a !in page ==> |page| == limit && forall b :: b in page ==> Precedes(b, a))
  }

  /** `a` placed behind everything it does not precede. */
  function Insert(page: seq<Attempt>, a: Attempt): (r: seq<Attempt>)
    ensures forall b :: b in r <==> b in page || b == a
  {
    if |page| == 0 then [a]
    else if a == page[0] then page
    else if Precedes(a, page[0]) then [a] + page
    else [page[0]] + Insert(page[1..], a)
  }

  lemma {:induction false} InsertAscending(page: seq<Attempt>, a: Attempt)
    requires Ascending(page)
    requires forall b :: b in page && CursorOf(b) == CursorOf(a) ==> b == a
    ensures Ascending(Insert(page, a))
  {
    var r := Insert(page, a);
    if |page| > 0 && a != page[0] {
      CursorAntisymmetric(CursorOf(a), CursorOf(page[0]));
      if Precedes(a, page[0]) {
        forall j | 1 <= j < |r| ensures Precedes(a, r[j]) {
          if j > 1 {
            CursorTransitive(CursorOf(a), CursorOf(page[0]), CursorOf(page[j - 1]));
          }
        }
      } else {
        assert page[0] in page;
        InsertAscending(page[1..], a);
        var rest := Insert(page[1..], a);
        forall j | 1 <= j < |r| ensures Precedes(page[0], r[j]) {
          assert rest[j - 1] in rest;
        }
      }
    }
  }
}

/** The reference ledger: attempts per scope, updated in place. */
module MemoryLedgers {
  import opened Ports
  import opened AttemptRows
  import opened StalePages

  class MemoryLedger {
    var attempts: Ledger

    constructor ()
      ensures attempts == map[]
    {
      attempts := map[];
    }

    method Begin(caller: Caller, key: OutboundKey, message: MessageID, now: Instant)
      returns (r: Result<AttemptStart, LedgerError>)
      modifies this
      ensures (attempts, r) == BeginIn(old(attempts), caller, key, message, now)
    {
      if key == "" || message == "" {
        return Err(InvalidAttempt);
      }
      var scoped := ScopeOf(caller, key);
      if scoped.Err? {
        return Err(scoped.error);
      }
      var scope := scoped.value;
      var rows := RowsOf(attempts, scope);
      var i := |rows| - 1;
      while i >= 0
        invariant -1 <= i < |rows|
        invariant LastDone(rows, message) == LastDone(rows[..i + 1], message)
      {
        assert rows[..i + 1][..i] == rows[..i];
        if rows[i].finished && rows[i].message == message && !rows[i].cls.Retryable() {
          return Ok(DoneAttempt(AttemptOf(scope, i + 1, rows[i]), rows[i].cls));
        }
        i := i - 1;
      }
      var n := |rows|;
      if n > 0 && !rows[n - 1].finished {
        return Ok(PendingAttempt(AttemptOf(scope, n, rows[n - 1])));
      }
      var row := BegunRow(message, now);
      attempts := attempts[scope := rows + [row]];
      return Ok(StartedAttempt(AttemptOf(scope, n + 1, row)));
    }

    method Finish(caller: Caller, o: AttemptOutcome) returns (r: Result<Finished, LedgerError>)
      modifies this
      ensures (attempts, r) == FinishIn(old(attempts), caller, o)
    {
      if !ValidOutcome(o) {
        return Err(InvalidAttempt);
      }
      var scoped := ScopeOf(caller, o.key);
      if scoped.Err? {
        return Err(scoped.error);
      }
      var rows := RowsOf(attempts, scoped.value);
      if o.n > |rows| {
        return Err(AttemptUnknown);
      }
      var row := rows[o.n - 1];
      if !row.finished {
        row := row.(finished := true, finishedAt := o.finishedAt, cls := o.cls);
        if o.observation.id != "" || o.observation.finding != FindingNone {
          row := row.(observation := o.observation, finding := o.observation.finding, observedAt := o.finishedAt);
        }
        if o.observation.id != "" {
          row := row.(seen := row.seen + [o.observation.id]);
        }
        r := Ok(Finished(FinishRecorded, o.cls));
      } else if row.cls == o.cls || o.presumed {
        r := Ok(Finished(FinishUnchanged, row.cls));
      } else if row.Saturated() {
        r := Ok(Finished(FinishSaturated, row.cls));
      } else {
        row := row.(conflicts := row.conflicts + [Conflict(o.cls, FindingNone, o.finishedAt)]);
        r := Ok(Finished(FinishConflict, row.cls));
      }
      attempts := attempts[scoped.value := rows[o.n - 1 := row]];
    }

    method Observe(caller: Caller, o: Observation, now: Instant) returns (r: Result<Observed, LedgerError>)
      modifies this
      ensures (attempts, r) == ObserveIn(old(attempts), caller, o, now)
    {
      if !ValidObservation(o) {
        return Err(InvalidAttempt);
      }
      var scoped := ScopeOf(caller, o.key);
      if scoped.Err? {
        return Err(scoped.error);
      }
      var rows := RowsOf(attempts, scoped.value);
      if |rows| == 0 {
        return Err(AttemptUnknown);
      }
      var last := rows[|rows| - 1];
      if !last.finished {
        return Err(AttemptInFlight);
      }
      var observed := Observed(ObserveDuplicate, |rows|, last.cls, last.queries);
      var full := last.Saturated();
      if o.id in last.seen || (full && last.finding.Terminal() && o.finding == last.finding) {
      } else if full && (last.finding.Terminal() || !o.finding.Terminal()) {
        observed := observed.(result := ObserveSaturated);
      } else {
        if !full {
          last := last.(seen := last.seen + [o.id]);
        }
        if !last.finding.Terminal() {
          last := last.(observation := o, finding := o.finding, observedAt := now, queries := last.queries + 1);
          observed := observed.(result := ObserveRecorded, queriesDone := last.queries);
        } else if o.finding.Terminal() && o.finding != last.finding {
          last := last.(conflicts := last.conflicts + [Conflict(ClassNone, o.finding, now)]);
          observed := observed.(result := ObserveConflict);
        }
      }
      attempts := attempts[scoped.value := rows[|rows| - 1 := last]];
      return Ok(observed);
    }

    /** One page of begun attempts across tenants, oldest first. */
    method Stale(cutoff: Instant, after: Cursor, limit: int) returns (r: Result<seq<Attempt>, LedgerError>)
      ensures r.Ok? <==> limit >= 1
      ensures r.Err? ==> r.error == InvalidAttempt
      ensures r.Ok? ==> IsPage(r.value, StaleSet(attempts, cutoff, after), limit)
    {
      if limit < 1 {
        return Err(InvalidAttempt);
      }
      var stale: seq<Attempt> := [];
      var scopes := attempts.Keys;
      while scopes != {}
        invariant scopes <= attempts.Keys
        invariant Ascending(stale)
        invariant forall a :: a in stale <==> a in StaleSet(attempts, cutoff, after) && a.scope !in scopes
        decreases scopes
      {
        var scope :| scope in scopes;
        var rows := attempts[scope];
        for i := 0 to |rows|
          invariant Ascending(stale)
          invariant forall a :: a in stale <==>
            a in StaleSet(attempts, cutoff, after) && (a.scope !in scopes || (a.scope == scope && a.n <= i))
        {
          var a := AttemptOf(scope, i + 1, rows[i]);
          if StaleRow(rows[i], cutoff, after, a) {
            InsertAscending(stale, a);
            stale := Insert(stale, a);
          }
        }
        scopes := scopes - {scope};
      }
      var kept := if limit < |stale| then limit else |stale|;
      forall a | a in stale && a !in stale[..kept] ensures kept == limit && forall b :: b in stale[..kept] ==> Precedes(b, a) {
        assert forall i :: 0 <= i < kept ==> stale[..kept][i] == stale[i];
        var j :| 0 <= j < |stale| && stale[j] == a;
      }
      return Ok(stale[..kept]);
    }
  }
}
