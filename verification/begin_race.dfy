/** Any number of clients inside Begin at once on the table: each round is a read
    of the message's finished row, a read of the last row, and an insert if the
    next number is still free. Rows finish and are observed in between. */
module BeginRaces {
  import opened Ports
  import opened PostgresLedgers

  /** `before` is the table the done read saw, `mid` the one the last read saw, and
      `inserts` how many inserts had happened by then. */
  datatype Client =
    | AtDone(scope: Scope, m: MessageID, round: nat)
    | AtLast(scope: Scope, m: MessageID, round: nat, before: Table)
    | AtInsert(scope: Scope, m: MessageID, round: nat, before: Table, mid: Table, next: int, inserts: nat)
    | Answered(start: AttemptStart)
    | Lost

  datatype Inserted = Inserted(pid: nat, key: PgKey)

  datatype State = State(table: Table, clients: map<nat, Client>, inserts: seq<Inserted>)

  datatype Label =
    | Enter(pid: nat, scope: Scope, m: MessageID)
    | ReadDone(pid: nat)
    | ReadLast(pid: nat)
    | Insert(pid: nat, at: Instant)
    | Leave(pid: nat)
    | FinishCall(caller: Caller, outcome: AttemptOutcome)
    | ObserveCall(caller: Caller, observation: Observation, at: Instant)

  predicate Enabled(s: State, l: Label) {
    match l
    case Enter(pid, _, _) => pid !in s.clients
    case ReadDone(pid) => pid in s.clients && s.clients[pid].AtDone?
    case ReadLast(pid) => pid in s.clients && s.clients[pid].AtLast?
    case Insert(pid, _) => pid in s.clients && s.clients[pid].AtInsert?
    case Leave(pid) => pid in s.clients
    case FinishCall(_, _) => true
    case ObserveCall(_, _, _) => true
  }

  ghost function AfterDone(table: Table, c: Client): Client
    requires c.AtDone?
  {
    var done := SelectDone(table, c.scope, c.m);
    if done.None? then AtLast(c.scope, c.m, c.round, table)
    else
      var row := table[PgKey(c.scope, done.value)];
      Answered(DoneAttempt(Attempt(c.scope, done.value, c.m, row.startedAt), ClassOf(row.cls)))
  }

  ghost function AfterLast(table: Table, c: Client, inserts: nat): Client
    requires c.AtLast?
  {
    var last := SelectLast(table, c.scope);
    if last.Some? && table[PgKey(c.scope, last.value)].begun then
      var row := table[PgKey(c.scope, last.value)];
      Answered(PendingAttempt(Attempt(c.scope, last.value, row.message, row.startedAt)))
    else AtInsert(c.scope, c.m, c.round, c.before, table, (if last.Some? then last.value else 0) + 1, inserts)
  }

  /** A lost insert starts the next round, up to the limit. */
  function AfterInsert(c: Client, affected: nat, at: Instant): Client
    requires c.AtInsert?
  {
    if affected > 0 then Answered(StartedAttempt(Attempt(c.scope, c.next, c.m, at)))
    else if c.round + 1 < BEGIN_ROUNDS then AtDone(c.scope, c.m, c.round + 1)
    else Lost
  }

  ghost function Next(s: State, l: Label): State
    requires Enabled(s, l)
  {
    match l
    case Enter(pid, scope, m) => s.(clients := s.clients[pid := AtDone(scope, m, 0)])
    case ReadDone(pid) => s.(clients := s.clients[pid := AfterDone(s.table, s.clients[pid])])
    case ReadLast(pid) => s.(clients := s.clients[pid := AfterLast(s.table, s.clients[pid], |s.inserts|)])
    case Insert(pid, at) =>
      var c := s.clients[pid];
      var key := PgKey(c.scope, c.next);
      var (table, affected) := InsertAttempt(s.table, key, c.m, at);
      State(table, s.clients[pid := AfterInsert(c, affected, at)],
            if affected > 0 then s.inserts + [Inserted(pid, key)] else s.inserts)
    case Leave(pid) => s.(clients := s.clients - {pid})
    case FinishCall(caller, o) => s.(table := PgFinish(s.table, caller, o).0)
    case ObserveCall(caller, o, at) => s.(table := PgObserve(s.table, caller, o, at).0)
  }

  // --- The invariant ----------------------------------------------------------------------

  /** Numbered from 1 without gaps, and only the last of a key can be begun. */
  ghost predicate Numbered(table: Table) {
    && (forall k :: k in table ==> k.n >= 1)
    && (forall scope, n :: PgKey(scope, n) in table && n > 1 ==>
          PgKey(scope, n - 1) in table && !table[PgKey(scope, n - 1)].begun)
    && (forall k :: k in table && !table[k].begun ==> table[k].cls.Some?)
  }

  /** Rows stay, keep their message, and a finished one keeps its class. */
  ghost predicate Grows(before: Table, after: Table) {
    forall k :: k in before ==>
      && k in after
      && after[k].message == before[k].message
      && (!before[k].begun ==> !after[k].begun && after[k].cls == before[k].cls)
  }

  /** The insert was made by another client after this one's last read. */
  ghost predicate TakenByAnother(s: State, pid: nat, key: PgKey, since: nat) {
    exists j :: since <= j < |s.inserts| && s.inserts[j].key == key && s.inserts[j].pid != pid
  }

  ghost predicate ClientOk(s: State, pid: nat, c: Client) {
    match c
    case AtDone(_, _, round) => round < BEGIN_ROUNDS
    case AtLast(scope, m, round, before) =>
      round < BEGIN_ROUNDS && Grows(before, s.table) && SelectDone(before, scope, m).None?
    case AtInsert(scope, m, round, before, mid, next, inserts) =>
      && round < BEGIN_ROUNDS
      && Grows(before, mid) && Grows(mid, s.table) && SelectDone(before, scope, m).None?
      && next >= 1 && inserts <= |s.inserts|
      && (forall n :: PgKey(scope, n) in mid ==> n < next && !mid[PgKey(scope, n)].begun)
      && (forall n :: 1 <= n < next ==> PgKey(scope, n) in mid)
      && (PgKey(scope, next) in s.table ==> TakenByAnother(s, pid, PgKey(scope, next), inserts))
    case _ => true
  }

  ghost predicate Inv(s: State) {
    Numbered(s.table) && forall pid :: pid in s.clients ==> ClientOk(s, pid, s.clients[pid])
  }

  // --- Statements keep the numbering ---------------------------------------------------------

  lemma FinishCallGrows(table: Table, caller: Caller, o: AttemptOutcome)
    requires Numbered(table)
    ensures var t := PgFinish(table, caller, o).0; Numbered(t) && Grows(table, t) && t.Keys == table.Keys
  {
  }

  lemma ObserveCallGrows(table: Table, caller: Caller, o: Observation, at: Instant)
    requires Numbered(table)
    ensures var t := PgObserve(table, caller, o, at).0; Numbered(t) && Grows(table, t) && t.Keys == table.Keys
  {
    if ValidObservation(o) && caller.OfTenant? {
      var scope := Scope(caller.tenant, o.key);
      var last := SelectLast(table, scope);
      if last.Some? && !table[PgKey(scope, last.value)].begun {
        ObserveLastGrows(table, PgKey(scope, last.value), o, at);
      }
    }
  }

  lemma ObserveLastGrows(table: Table, k: PgKey, o: Observation, at: Instant)
    requires Numbered(table) && k in table
    ensures var t := PgObserveLast(table, k, o, at).0; Numbered(t) && Grows(table, t) && t.Keys == table.Keys
  {
    var t := PgObserveLast(table, k, o, at).0;
    assert t.Keys == table.Keys;
    assert forall j :: j in table ==> t[j].begun == table[j].begun && t[j].message == table[j].message && t[j].cls == table[j].cls;
  }

  /** Everything above the last number is free. */
  lemma AboveIsFree(table: Table, scope: Scope, n: int, m: int)
    requires Numbered(table) && 1 <= n <= m && PgKey(scope, n) !in table
    ensures PgKey(scope, m) !in table
    decreases m
  {
    if m > n {
      AboveIsFree(table, scope, n, m - 1);
    }
  }

  lemma InsertGrows(table: Table, scope: Scope, next: int, m: MessageID, at: Instant)
    requires Numbered(table) && next >= 1
    requires next > 1 ==> PgKey(scope, next - 1) in table && !table[PgKey(scope, next - 1)].begun
    ensures var t := InsertAttempt(table, PgKey(scope, next), m, at).0; Numbered(t) && Grows(table, t)
  {
    if PgKey(scope, next) !in table {
      AboveIsFree(table, scope, next, next + 1);
    }
  }

  /** Another client keeps what it knows while the table grows without its number being taken by itself. */
  lemma ClientKept(s: State, s': State, pid: nat, c: Client)
    requires ClientOk(s, pid, c) && Grows(s.table, s'.table) && s.inserts <= s'.inserts
    requires forall j :: |s.inserts| <= j < |s'.inserts| ==> s'.inserts[j].pid != pid
    requires forall k :: k in s'.table && k !in s.table ==> exists j :: |s.inserts| <= j < |s'.inserts| && s'.inserts[j].key == k
    ensures ClientOk(s', pid, c)
  {
    if c.AtInsert? {
      GrowsTrans(c.mid, s.table, s'.table);
      var key := PgKey(c.scope, c.next);
      if key in s'.table {
        if key in s.table {
          var j :| c.inserts <= j < |s.inserts| && s.inserts[j].key == key && s.inserts[j].pid != pid;
          assert s'.inserts[j] == s.inserts[j];
        }
        assert TakenByAnother(s', pid, key, c.inserts);
      }
    } else if c.AtLast? {
      GrowsTrans(c.before, s.table, s'.table);
    }
  }

  lemma GrowsTrans(a: Table, b: Table, c: Table)
    requires Grows(a, b) && Grows(b, c)
    ensures Grows(a, c)
  {
  }

  lemma ReadLastOk(s: State, pid: nat)
    requires Inv(s) && Enabled(s, ReadLast(pid))
    ensures ClientOk(s, pid, AfterLast(s.table, s.clients[pid], |s.inserts|))
  {
    var c := s.clients[pid];
    var last := SelectLast(s.table, c.scope);
    var ns := set k | k in s.table && k.scope == c.scope :: k.n;
    assert ClientOk(s, pid, c);
    forall n | PgKey(c.scope, n) in s.table
      ensures last.Some? && n <= last.value && (n < last.value ==> !s.table[PgKey(c.scope, n)].begun)
    {
      assert PgKey(c.scope, n).n in ns;
      if n < last.value {
        SuccessorPresent(s.table, c.scope, n, last.value);
      }
    }
    if last.Some? {
      assert last.value in ns;
      assert PgKey(c.scope, last.value) in s.table;
      forall n | 1 <= n < last.value ensures PgKey(c.scope, n) in s.table {
        SuccessorPresent(s.table, c.scope, n, last.value);
      }
    }
  }

  lemma SuccessorPresent(table: Table, scope: Scope, n: int, m: int)
    requires Numbered(table) && PgKey(scope, m) in table && 1 <= n < m
    ensures PgKey(scope, n) in table && !table[PgKey(scope, n)].begun
    decreases m - n
  {
    assert PgKey(scope, m - 1) in table;
    if n < m - 1 {
      SuccessorPresent(table, scope, n, m - 1);
    }
  }

  lemma StepKeeps(s: State, l: Label)
    requires Inv(s) && Enabled(s, l)
    ensures Inv(Next(s, l)) && Grows(s.table, Next(s, l).table)
  {
    var s' := Next(s, l);
    match l {
      case Insert(pid, at) =>
        assert ClientOk(s, pid, s.clients[pid]);
        InsertGrows(s.table, s.clients[pid].scope, s.clients[pid].next, s.clients[pid].m, at);
      case FinishCall(caller, o) => FinishCallGrows(s.table, caller, o);
      case ObserveCall(caller, o, at) => ObserveCallGrows(s.table, caller, o, at);
      case ReadLast(pid) => ReadLastOk(s, pid);
      case _ =>
    }
    forall pid | pid in s'.clients ensures ClientOk(s', pid, s'.clients[pid]) {
      if pid in s.clients {
        assert ClientOk(s, pid, s.clients[pid]);
        if s'.clients[pid] == s.clients[pid] {
          if l.Insert? && |s'.inserts| > |s.inserts| {
            assert s'.inserts[|s.inserts|].key == PgKey(s.clients[l.pid].scope, s.clients[l.pid].next);
          }
          ClientKept(s, s', pid, s.clients[pid]);
        }
      }
    }
  }

  // --- What the clients may rely on -------------------------------------------------------------

  /** A round is lost only to another client that inserted the same number after
      this one looked. */
  lemma LosesOnlyToAnotherInsert(s: State, pid: nat, at: Instant)
    requires Inv(s) && Enabled(s, Insert(pid, at))
    ensures var c := s.clients[pid]; var c' := Next(s, Insert(pid, at)).clients[pid];
      !c'.Answered? <==> TakenByAnother(s, pid, PgKey(c.scope, c.next), c.inserts) && PgKey(c.scope, c.next) in s.table
  {
    assert ClientOk(s, pid, s.clients[pid]);
  }

  lemma DoneIsSelected(table: Table, scope: Scope, m: MessageID, n: int)
    requires PgKey(scope, n) in table
    ensures DoneRow(table[PgKey(scope, n)], m) ==> SelectDone(table, scope, m).Some?
  {
    var ns := set k | k in table && k.scope == scope && DoneRow(table[k], m) :: k.n;
    assert DoneRow(table[PgKey(scope, n)], m) ==> PgKey(scope, n).n in ns;
  }

  lemma NothingAfterLast(table: Table, scope: Scope, n: int)
    ensures PgKey(scope, n) in table ==> SelectLast(table, scope).Some? && n <= SelectLast(table, scope).value
  {
    var ns := set k | k in table && k.scope == scope :: k.n;
    assert PgKey(scope, n) in table ==> PgKey(scope, n).n in ns;
  }

  ghost predicate DoneIn(table: Table, scope: Scope, m: MessageID) {
    exists n :: PgKey(scope, n) in table && DoneRow(table[PgKey(scope, n)], m)
  }

  /** An attempt starts for a message already done exactly when the message was
      finished between this round's two reads: the done read missed it. */
  lemma StartsDoneMessageExactlyWhenFinishedBetweenReads(s: State, pid: nat, at: Instant)
    requires Inv(s) && Enabled(s, Insert(pid, at)) && Next(s, Insert(pid, at)).clients[pid].Answered?
    ensures var c := s.clients[pid];
      && (DoneIn(s.table, c.scope, c.m) <==> DoneIn(c.mid, c.scope, c.m))
      && !DoneIn(c.before, c.scope, c.m)
  {
    var c := s.clients[pid];
    assert ClientOk(s, pid, c);
    forall n | PgKey(c.scope, n) in s.table ensures PgKey(c.scope, n) in c.mid {
      if n >= c.next {
        AboveIsFree(s.table, c.scope, c.next, n);
      }
    }
    if DoneIn(c.mid, c.scope, c.m) {
      var n :| PgKey(c.scope, n) in c.mid && DoneRow(c.mid[PgKey(c.scope, n)], c.m);
      assert DoneRow(s.table[PgKey(c.scope, n)], c.m);
    }
    forall n | PgKey(c.scope, n) in c.before ensures !DoneRow(c.before[PgKey(c.scope, n)], c.m) {
      DoneIsSelected(c.before, c.scope, c.m, n);
    }
  }

  /** The race exists: whatever the ledger holds, a redelivery whose done read
      comes before the finish and whose last read comes after it starts a new
      attempt of a message already finished for good. */
  lemma TheRaceResubmits(s: State, pid: nat, scope: Scope, m: MessageID, n: int, o: AttemptOutcome, at: Instant)
    requires Inv(s) && pid !in s.clients
    requires SelectLast(s.table, scope) == Some(n) && PgKey(scope, n) in s.table
    requires s.table[PgKey(scope, n)].begun && s.table[PgKey(scope, n)].message == m
    requires SelectDone(s.table, scope, m).None?
    requires ValidOutcome(o) && o.key == scope.key && o.n == n && !o.cls.Retryable()
    ensures var s1 := Next(s, Enter(pid, scope, m));
      var s2 := Next(s1, ReadDone(pid));
      var s3 := Next(s2, FinishCall(OfTenant(scope.tenant), o));
      && Enabled(s3, ReadLast(pid))
      && var s4 := Next(s3, ReadLast(pid));
      && Enabled(s4, Insert(pid, at))
      && DoneIn(s4.table, scope, m)
      && Next(s4, Insert(pid, at)).clients[pid] == Answered(StartedAttempt(Attempt(scope, n + 1, m, at)))
  {
    var s2 := Next(Next(s, Enter(pid, scope, m)), ReadDone(pid));
    var s3 := Next(s2, FinishCall(OfTenant(scope.tenant), o));
    assert s3.table.Keys == s.table.Keys;
    assert (set k | k in s3.table && k.scope == scope :: k.n) == (set k | k in s.table && k.scope == scope :: k.n);
    assert SelectLast(s3.table, scope) == Some(n);
    assert DoneRow(s3.table[PgKey(scope, n)], m);
    assert DoneIn(s3.table, scope, m);
    NothingAfterLast(s.table, scope, n + 1);
  }

  ghost predicate IsRun(run: seq<State>, labels: seq<Label>) {
    && |run| == |labels| + 1
    && run[0] == State(map[], map[], [])
    && forall i :: 0 <= i < |labels| ==> Enabled(run[i], labels[i]) && run[i + 1] == Next(run[i], labels[i])
  }

  /** In every run of any number of clients the attempts of a key stay 1..n, only
      the last can be begun, and nothing recorded is lost. */
  lemma {:induction false} RunKeeps(run: seq<State>, labels: seq<Label>, i: nat)
    requires IsRun(run, labels) && i < |run|
    ensures Inv(run[i])
    ensures i > 0 ==> Grows(run[i - 1].table, run[i].table)
  {
    if i > 0 {
      RunKeeps(run, labels, i - 1);
      StepKeeps(run[i - 1], labels[i - 1]);
    }
  }

  /** Between any two states of a run no attempt disappears, changes its message, or
      changes a class once finished. */
  lemma {:induction false} NothingRecordedIsLost(run: seq<State>, labels: seq<Label>, i: nat, j: nat)
    requires IsRun(run, labels) && i <= j < |run|
    ensures Grows(run[i].table, run[j].table)
    decreases j
  {
    if i < j {
      NothingRecordedIsLost(run, labels, i, j - 1);
      RunKeeps(run, labels, j);
      GrowsTrans(run[i].table, run[j - 1].table, run[j].table);
    }
  }
}
