/** What every interleaving of the protocol keeps: one partner call and one
    outcome step per attempt, one dispatched step per message, and a bounded
    number of questions to the partner. */
module DispatchSafety {
  import opened Ports
  import opened AttemptRows
  import opened AttemptLaws
  import opened NextSteps
  import opened Inboxes
  import opened DispatchProtocol

  // --- Counting what the logs hold ----------------------------------------------

  datatype Kind =
    | OutcomeOfAttempt(scope: Scope, n: int)
    | AskOfAttempt(scope: Scope, n: int)
    | AnyOfAttempt(scope: Scope, n: int)
    | DispatchedUnder(key: InboxKey)

  predicate Matches(kind: Kind, step: AppliedStep) {
    match kind
    case OutcomeOfAttempt(scope, n) => step.scope == scope && step.n == n && !step.origin.ByResolve?
    case AskOfAttempt(scope, n) => step.scope == scope && step.n == n && step.step.Asks()
    case AnyOfAttempt(scope, n) => step.scope == scope && step.n == n
    case DispatchedUnder(key) => step.origin == ByDispatch(key)
  }

  function StepCount(steps: seq<AppliedStep>, kind: Kind): nat {
    if |steps| == 0 then 0
    else StepCount(steps[..|steps| - 1], kind) + (if Matches(kind, steps[|steps| - 1]) then 1 else 0)
  }

  function ClosedCount(closed: seq<ClosedAttempt>, scope: Scope, n: int): nat {
    if |closed| == 0 then 0
    else ClosedCount(closed[..|closed| - 1], scope, n) + (var x := closed[|closed| - 1]; if x.scope == scope && x.n == n then 1 else 0)
  }

  function SubmitCount(submits: seq<Submission>, scope: Scope, n: int): nat {
    if |submits| == 0 then 0
    else SubmitCount(submits[..|submits| - 1], scope, n) + (var x := submits[|submits| - 1]; if x.scope == scope && x.n == n then 1 else 0)
  }

  lemma StepCountAppend(steps: seq<AppliedStep>, step: AppliedStep)
    ensures forall kind :: StepCount(steps + [step], kind) == StepCount(steps, kind) + (if Matches(kind, step) then 1 else 0)
  {
    assert (steps + [step])[..|steps|] == steps;
  }

  lemma ClosedCountAppend(closed: seq<ClosedAttempt>, x: ClosedAttempt)
    ensures forall scope, n :: ClosedCount(closed + [x], scope, n)
                            == ClosedCount(closed, scope, n) + (if x.scope == scope && x.n == n then 1 else 0)
  {
    assert (closed + [x])[..|closed|] == closed;
  }

  lemma SubmitCountAppend(submits: seq<Submission>, x: Submission)
    ensures forall scope, n :: SubmitCount(submits + [x], scope, n)
                            == SubmitCount(submits, scope, n) + (if x.scope == scope && x.n == n then 1 else 0)
  {
    assert (submits + [x])[..|submits|] == submits;
  }

  // --- The inductive invariant ----------------------------------------------------

  predicate HasRow(ledger: Ledger, scope: Scope, n: int) {
    1 <= n <= |RowsOf(ledger, scope)|
  }

  function RowAt(ledger: Ledger, scope: Scope, n: int): Row
    requires HasRow(ledger, scope, n)
  {
    RowsOf(ledger, scope)[n - 1]
  }

  /** The attempt holds an outcome no resend follows. */
  predicate Settled?(ledger: Ledger, scope: Scope, n: int) {
    HasRow(ledger, scope, n) && RowAt(ledger, scope, n).finished && !RowAt(ledger, scope, n).cls.Retryable()
  }

  predicate HoldsAttempt(ledger: Ledger, a: Attempt) {
    HasRow(ledger, a.scope, a.n) && a == AttemptOf(a.scope, a.n, RowAt(ledger, a.scope, a.n))
  }

  predicate InScope(req: Request, a: Attempt) {
    req.caller.OfTenant? && a.scope == Scope(req.caller.tenant, req.key)
  }

  /** This caller began the attempt and has not yet recorded its outcome. */
  predicate Owns(pc: Pc, scope: Scope, n: int) {
    match pc
    case Began(_, a) => a.scope == scope && a.n == n
    case Calling(_, a, _) => a.scope == scope && a.n == n
    case Closing(_, s, _) => s.attempt.scope == scope && s.attempt.n == n
    case Settling(_, s, _) => s.owned && !s.presumed && s.attempt.scope == scope && s.attempt.n == n
    case _ => false
  }

  predicate PcOk(ledger: Ledger, pc: Pc) {
    match pc
    case Ready(req) => req.receipt.expiresAt == 0
    case Began(req, a) => req.receipt.expiresAt == 0 && HoldsAttempt(ledger, a) && InScope(req, a)
    case Calling(req, a, _) => req.receipt.expiresAt == 0 && HoldsAttempt(ledger, a) && InScope(req, a)
    case Resuming(req, a) => req.receipt.expiresAt == 0 && HoldsAttempt(ledger, a) && InScope(req, a)
    case Closing(req, s, _) =>
      req.receipt.expiresAt == 0 && HoldsAttempt(ledger, s.attempt) && InScope(req, s.attempt) && s.owned && !s.presumed && s.cls.Retryable()
    case Settling(req, s, _) =>
      && req.receipt.expiresAt == 0 && HoldsAttempt(ledger, s.attempt) && InScope(req, s.attempt)
      && !s.cls.Retryable()
      && (!s.owned ==> Settled?(ledger, s.attempt.scope, s.attempt.n))
    case Abandoning(a) => HoldsAttempt(ledger, a)
    case Returned => true
  }

  ghost predicate ProcsOk(s: State) {
    && (forall pid :: pid in s.procs ==> PcOk(s.ledger, s.procs[pid]))
    && (forall p, q, scope, n :: p in s.procs && q in s.procs && Owns(s.procs[p], scope, n) && Owns(s.procs[q], scope, n) ==> p == q)
  }

  /** One call per attempt, made by the owner that began it. */
  ghost predicate SubmitsOk(s: State) {
    && (forall scope, n :: SubmitCount(s.submits, scope, n) <= (if HasRow(s.ledger, scope, n) then 1 else 0))
    && (forall pid :: pid in s.procs && s.procs[pid].Began? ==>
          SubmitCount(s.submits, s.procs[pid].attempt.scope, s.procs[pid].attempt.n) == 0)
  }

  /** A settled attempt was applied once, or closed once under an existing entry; no other was. */
  ghost predicate OutcomesOk(s: State) {
    forall scope, n ::
      StepCount(s.steps, OutcomeOfAttempt(scope, n)) + ClosedCount(s.closed, scope, n)
      == (if Settled?(s.ledger, scope, n) then 1 else 0)
  }

  ghost predicate MessagesOk(s: State) {
    && (forall key :: key in s.inbox ==> s.inbox[key].expiresAt == 0)
    && (forall key :: StepCount(s.steps, DispatchedUnder(key)) <= (if key in s.inbox then 1 else 0))
    && (forall i :: 0 <= i < |s.closed| ==> s.closed[i].key in s.inbox)
  }

  /** Questions asked about an attempt: its outcome's, and one per recorded
      observation while below the ceiling. */
  function AskBound(c: Config, row: Row): int {
    1 + (if row.queries < c.profile.maxQueries then row.queries else c.profile.maxQueries - 1)
  }

  ghost predicate AsksOk(c: Config, s: State) {
    && (forall scope, n :: !(HasRow(s.ledger, scope, n) && RowAt(s.ledger, scope, n).finished) ==>
          StepCount(s.steps, AnyOfAttempt(scope, n)) == 0 && StepCount(s.steps, AskOfAttempt(scope, n)) == 0)
    && (forall scope, n :: HasRow(s.ledger, scope, n) && RowAt(s.ledger, scope, n).finished ==>
          StepCount(s.steps, AskOfAttempt(scope, n)) <= AskBound(c, RowAt(s.ledger, scope, n)))
  }

  /** An observation that confirms or fails is a terminal finding. */
  predicate Consistent(x: AppliedStep) {
    x.finding != FindingNone && (x.step.StepConfirm? || x.step.StepFail?) ==> x.finding.Terminal()
  }

  /** A step a terminal finding produced is the last one of its attempt. */
  ghost predicate TerminalOk(s: State) {
    && (forall i :: 0 <= i < |s.steps| ==> Consistent(s.steps[i]))
    && (forall i :: 0 <= i < |s.steps| && s.steps[i].finding.Terminal() ==>
          && HasRow(s.ledger, s.steps[i].scope, s.steps[i].n)
          && RowAt(s.ledger, s.steps[i].scope, s.steps[i].n).finding.Terminal())
    && (forall i, j :: 0 <= i < j < |s.steps| && s.steps[i].scope == s.steps[j].scope && s.steps[i].n == s.steps[j].n ==>
          !s.steps[i].finding.Terminal())
  }

  ghost predicate Inv(c: Config, s: State) {
    && c.profile.maxQueries > 0
    && LedgerOk(s.ledger)
    && ProcsOk(s)
    && SubmitsOk(s)
    && OutcomesOk(s)
    && MessagesOk(s)
    && AsksOk(c, s)
    && TerminalOk(s)
  }

  // --- What a ledger call may change, as the invariant sees it ----------------------

  /** Every row keeps its identity and its outcome; only `(scope, n)` may settle. */
  ghost predicate LedgerStep(before: Ledger, after: Ledger) {
    && LedgerOk(after)
    && (forall scope, n :: HasRow(before, scope, n) ==>
          HasRow(after, scope, n) && RowEvolves(RowAt(before, scope, n), RowAt(after, scope, n)))
  }

  lemma EvolvesRows(before: Ledger, after: Ledger)
    requires LedgerOk(after) && LedgerEvolves(before, after)
    ensures LedgerStep(before, after)
  {
    forall scope, n | HasRow(before, scope, n)
      ensures HasRow(after, scope, n) && RowEvolves(RowAt(before, scope, n), RowAt(after, scope, n))
    {
      assert RowsEvolve(RowsOf(before, scope), RowsOf(after, scope));
    }
  }

  /** A pc stays good while rows keep their identity. */
  lemma PcOkKept(before: Ledger, after: Ledger, pc: Pc)
    requires LedgerStep(before, after) && PcOk(before, pc)
    ensures PcOk(after, pc)
  {
  }

  lemma FinishEffect(ledger: Ledger, caller: Caller, o: AttemptOutcome)
    requires LedgerOk(ledger)
    ensures var (ledger', r) := FinishIn(ledger, caller, o);
      && LedgerStep(ledger, ledger')
      && (r.Err? ==> ledger' == ledger)
      && (r.Ok? ==> caller.OfTenant? && var scope := Scope(caller.tenant, o.key);
        && ValidOutcome(o) && HasRow(ledger, scope, o.n)
        && (forall sc, n :: HasRow(ledger', sc, n) <==> HasRow(ledger, sc, n))
        && (forall sc, n :: HasRow(ledger, sc, n) && !(sc == scope && n == o.n) ==> RowAt(ledger', sc, n) == RowAt(ledger, sc, n))
        && RowAt(ledger', scope, o.n).finished
        && RowAt(ledger', scope, o.n).queries == RowAt(ledger, scope, o.n).queries
        && r.value.recorded == RowAt(ledger', scope, o.n).cls
        && (r.value.result == FinishRecorded <==> !RowAt(ledger, scope, o.n).finished)
        && (r.value.result == FinishRecorded ==>
              RowAt(ledger', scope, o.n).cls == o.cls && RowAt(ledger', scope, o.n).finding == o.observation.finding))
  {
    FinishKeeps(ledger, caller, o);
    var (ledger', r) := FinishIn(ledger, caller, o);
    EvolvesRows(ledger, ledger');
    if r.Ok? {
      FinishMeaning(RowAt(ledger, Scope(caller.tenant, o.key), o.n), o);
    }
  }

  lemma ObserveEffect(ledger: Ledger, caller: Caller, o: Observation, now: Instant)
    requires LedgerOk(ledger)
    ensures var (ledger', r) := ObserveIn(ledger, caller, o, now);
      && LedgerStep(ledger, ledger')
      && (r.Err? ==> ledger' == ledger)
      && (r.Ok? ==> caller.OfTenant? && var scope := Scope(caller.tenant, o.key); var n := |RowsOf(ledger, scope)|;
        && HasRow(ledger, scope, n) && RowAt(ledger, scope, n).finished && r.value.n == n
        && (forall sc, m :: HasRow(ledger', sc, m) <==> HasRow(ledger, sc, m))
        && (forall sc, m :: HasRow(ledger, sc, m) && !(sc == scope && m == n) ==> RowAt(ledger', sc, m) == RowAt(ledger, sc, m))
        && RowAt(ledger', scope, n).finished && RowAt(ledger', scope, n).cls == RowAt(ledger, scope, n).cls
        && r.value.cls == RowAt(ledger, scope, n).cls
        && r.value.queriesDone == RowAt(ledger', scope, n).queries
        && RowAt(ledger', scope, n).queries == RowAt(ledger, scope, n).queries + (if r.value.result == ObserveRecorded then 1 else 0)
        && (r.value.result == ObserveRecorded ==>
              !RowAt(ledger, scope, n).finding.Terminal() && RowAt(ledger', scope, n).finding == o.finding)
        && (r.value.result != ObserveRecorded ==> RowAt(ledger', scope, n).finding == RowAt(ledger, scope, n).finding))
  {
    ObserveKeeps(ledger, caller, o, now);
    var (ledger', r) := ObserveIn(ledger, caller, o, now);
    EvolvesRows(ledger, ledger');
    if r.Ok? {
      var rows := RowsOf(ledger, Scope(caller.tenant, o.key));
      RowsOkOf(ledger, Scope(caller.tenant, o.key));
      ObserveMeaning(rows[|rows| - 1], |rows|, o, now);
    }
  }

  lemma BeginEffect(ledger: Ledger, caller: Caller, key: OutboundKey, m: MessageID, at: Instant)
    requires LedgerOk(ledger)
    ensures var (ledger', r) := BeginIn(ledger, caller, key, m, at);
      && LedgerStep(ledger, ledger')
      && (forall sc, n :: HasRow(ledger, sc, n) ==> RowAt(ledger', sc, n) == RowAt(ledger, sc, n))
      && (!(r.Ok? && r.value.StartedAttempt?) ==> ledger' == ledger)
      && (r.Ok? ==>
            && caller.OfTenant?
            && r.value.attempt.scope == Scope(caller.tenant, key)
            && HoldsAttempt(ledger', r.value.attempt))
      && (r.Ok? && r.value.StartedAttempt? ==>
            var a := r.value.attempt;
            && a.n == |RowsOf(ledger, a.scope)| + 1 && !RowAt(ledger', a.scope, a.n).finished && a.startedAt == at
            && (forall n :: HasRow(ledger, a.scope, n) ==> RowAt(ledger, a.scope, n).finished)
            && (forall sc, n :: HasRow(ledger', sc, n) <==> HasRow(ledger, sc, n) || (sc == a.scope && n == a.n)))
      && (r.Ok? && r.value.DoneAttempt? ==>
            var a := r.value.attempt;
            Settled?(ledger, a.scope, a.n) && r.value.cls == RowAt(ledger, a.scope, a.n).cls)
  {
    BeginMeaning(ledger, caller, key, m, at);
    EvolvesRows(ledger, BeginIn(ledger, caller, key, m, at).0);
  }

  // --- Steps that leave the logs alone ------------------------------------------------

  /** One caller moved, and owns nothing it did not own before. */
  lemma ProcMoved(s: State, ledger: Ledger, pid: nat, pc: Pc)
    requires ProcsOk(s) && LedgerStep(s.ledger, ledger) && PcOk(ledger, pc)
    requires forall scope, n :: Owns(pc, scope, n) ==> pid in s.procs && Owns(s.procs[pid], scope, n)
    ensures ProcsOk(Set(s.(ledger := ledger), pid, pc))
  {
    var s' := Set(s.(ledger := ledger), pid, pc);
    forall p | p in s'.procs ensures PcOk(ledger, s'.procs[p]) {
      if p != pid {
        PcOkKept(s.ledger, ledger, s.procs[p]);
      }
    }
  }

  lemma SubmitsKept(s: State, s': State)
    requires SubmitsOk(s) && LedgerStep(s.ledger, s'.ledger) && s'.submits == s.submits
    requires forall pid :: pid in s'.procs && s'.procs[pid].Began? ==> pid in s.procs && s.procs[pid] == s'.procs[pid]
    ensures SubmitsOk(s')
  {
  }

  lemma OutcomesKept(s: State, s': State)
    requires OutcomesOk(s) && s'.steps == s.steps && s'.closed == s.closed
    requires forall scope, n :: Settled?(s'.ledger, scope, n) == Settled?(s.ledger, scope, n)
    ensures OutcomesOk(s')
  {
  }

  lemma AsksKept(c: Config, s: State, s': State)
    requires c.profile.maxQueries > 0
    requires AsksOk(c, s) && LedgerStep(s.ledger, s'.ledger) && s'.steps == s.steps
    ensures AsksOk(c, s')
  {
    forall scope, n | HasRow(s'.ledger, scope, n) && RowAt(s'.ledger, scope, n).finished
      ensures StepCount(s'.steps, AskOfAttempt(scope, n)) <= AskBound(c, RowAt(s'.ledger, scope, n))
    {
      if HasRow(s.ledger, scope, n) && RowAt(s.ledger, scope, n).finished {
        assert RowEvolves(RowAt(s.ledger, scope, n), RowAt(s'.ledger, scope, n));
      }
    }
    forall scope, n | !(HasRow(s'.ledger, scope, n) && RowAt(s'.ledger, scope, n).finished)
      ensures StepCount(s'.steps, AnyOfAttempt(scope, n)) == 0 && StepCount(s'.steps, AskOfAttempt(scope, n)) == 0
    {
      if HasRow(s.ledger, scope, n) {
        assert RowEvolves(RowAt(s.ledger, scope, n), RowAt(s'.ledger, scope, n));
      }
    }
  }

  lemma TerminalKept(s: State, s': State)
    requires TerminalOk(s) && LedgerStep(s.ledger, s'.ledger) && s'.steps == s.steps
    ensures TerminalOk(s')
  {
    forall i | 0 <= i < |s'.steps| && s'.steps[i].finding.Terminal()
      ensures HasRow(s'.ledger, s'.steps[i].scope, s'.steps[i].n)
           && RowAt(s'.ledger, s'.steps[i].scope, s'.steps[i].n).finding.Terminal()
    {
      var x := s.steps[i];
      assert RowEvolves(RowAt(s.ledger, x.scope, x.n), RowAt(s'.ledger, x.scope, x.n));
    }
  }

  /** A step that writes no row and no log only moves one caller. */
  lemma MoveKeeps(c: Config, s: State, pid: nat, pc: Pc)
    requires Inv(c, s) && PcOk(s.ledger, pc) && !pc.Began?
    requires forall scope, n :: Owns(pc, scope, n) ==> pid in s.procs && Owns(s.procs[pid], scope, n)
    ensures Inv(c, Set(s, pid, pc))
  {
    var s' := Set(s, pid, pc);
    EvolvesRows(s.ledger, s.ledger);
    ProcMoved(s, s.ledger, pid, pc);
    SubmitsKept(s, s');
    OutcomesKept(s, s');
    AsksKept(c, s, s');
    TerminalKept(s, s');
  }

  lemma QuietKeeps(c: Config, s: State, l: Label)
    requires Inv(c, s) && Enabled(c, s, l)
    requires l.Arrive? || l.Reply? || l.Resume? || l.Fail? || l.List?
    ensures Inv(c, Next(c, s, l))
  {
    var pc := Next(c, s, l).procs[l.pid];
    if !l.Arrive? && !l.List? {
      assert PcOk(s.ledger, s.procs[l.pid]);
    }
    MoveKeeps(c, s, l.pid, pc);
  }

  // --- Steps that begin, call or close --------------------------------------------------

  lemma BeginTxKeeps(c: Config, s: State, pid: nat, at: Instant)
    requires Inv(c, s) && Enabled(c, s, BeginTx(pid, at))
    ensures Inv(c, Next(c, s, BeginTx(pid, at)))
  {
    var s' := Next(c, s, BeginTx(pid, at));
    var req := s.procs[pid].req;
    BeginEffect(s.ledger, req.caller, req.key, req.receipt.message, at);
    forall scope, n ensures Settled?(s'.ledger, scope, n) == Settled?(s.ledger, scope, n) {
    }
    BeginProcs(s, s', pid, at);
    BeginSubmits(s, s', pid, at);
    OutcomesKept(s, s');
    AsksKept(c, s, s');
    TerminalKept(s, s');
  }

  lemma OwnersHold(s: State, pid: nat, scope: Scope, n: int)
    requires ProcsOk(s) && pid in s.procs && Owns(s.procs[pid], scope, n)
    ensures HasRow(s.ledger, scope, n)
  {
    assert PcOk(s.ledger, s.procs[pid]);
  }

  lemma BeginProcs(s: State, s': State, pid: nat, at: Instant)
    requires LedgerOk(s.ledger) && ProcsOk(s) && pid in s.procs && s.procs[pid].Ready?
    requires var req := s.procs[pid].req; var (ledger', start) := BeginIn(s.ledger, req.caller, req.key, req.receipt.message, at);
      s' == Set(s.(ledger := ledger'), pid, AfterBegin(req, start))
    ensures ProcsOk(s')
  {
    var req := s.procs[pid].req;
    BeginEffect(s.ledger, req.caller, req.key, req.receipt.message, at);
    assert PcOk(s.ledger, s.procs[pid]);
    forall p | p in s'.procs ensures PcOk(s'.ledger, s'.procs[p]) {
      if p != pid {
        PcOkKept(s.ledger, s'.ledger, s.procs[p]);
      }
    }
    forall p, q, scope, n | p in s'.procs && q in s'.procs && Owns(s'.procs[p], scope, n) && Owns(s'.procs[q], scope, n)
      ensures p == q
    {
      if p != pid { OwnersHold(s, p, scope, n); }
      if q != pid { OwnersHold(s, q, scope, n); }
    }
  }

  lemma BeginSubmits(s: State, s': State, pid: nat, at: Instant)
    requires LedgerOk(s.ledger) && SubmitsOk(s) && pid in s.procs && s.procs[pid].Ready?
    requires var req := s.procs[pid].req; var (ledger', start) := BeginIn(s.ledger, req.caller, req.key, req.receipt.message, at);
      s' == Set(s.(ledger := ledger'), pid, AfterBegin(req, start))
    ensures SubmitsOk(s')
  {
    var req := s.procs[pid].req;
    BeginEffect(s.ledger, req.caller, req.key, req.receipt.message, at);
    if s'.procs[pid].Began? {
      var a := s'.procs[pid].attempt;
      assert !HasRow(s.ledger, a.scope, a.n);
      assert SubmitCount(s.submits, a.scope, a.n) == 0;
    }
  }

  lemma CallKeeps(c: Config, s: State, pid: nat)
    requires Inv(c, s) && Enabled(c, s, Call(pid))
    ensures Inv(c, Next(c, s, Call(pid)))
  {
    var pc := s.procs[pid];
    var s' := Next(c, s, Call(pid));
    EvolvesRows(s.ledger, s.ledger);
    ProcMoved(s, s.ledger, pid, Calling(pc.req, pc.attempt, s.now));
    CallSubmits(s, s', pid);
    OutcomesKept(s, s');
    AsksKept(c, s, s');
    TerminalKept(s, s');
  }

  lemma CallSubmits(s: State, s': State, pid: nat)
    requires ProcsOk(s) && SubmitsOk(s) && pid in s.procs && s.procs[pid].Began?
    requires s'.ledger == s.ledger
    requires s'.procs == s.procs[pid := Calling(s.procs[pid].req, s.procs[pid].attempt, s.now)]
    requires var a := s.procs[pid].attempt;
      s'.submits == s.submits + [Submission(pid, a.scope, a.n, s.procs[pid].req.receipt.message)]
    ensures SubmitsOk(s')
  {
    var a := s.procs[pid].attempt;
    SubmitCountAppend(s.submits, Submission(pid, a.scope, a.n, s.procs[pid].req.receipt.message));
    OwnersHold(s, pid, a.scope, a.n);
    forall p | p in s'.procs && s'.procs[p].Began?
      ensures SubmitCount(s'.submits, s'.procs[p].attempt.scope, s'.procs[p].attempt.n) == 0
    {
      var b := s.procs[p].attempt;
      assert Owns(s.procs[p], b.scope, b.n) && Owns(s.procs[pid], a.scope, a.n);
    }
  }

  lemma CloseRetryableKeeps(c: Config, s: State, pid: nat)
    requires Inv(c, s) && Enabled(c, s, CloseRetryable(pid))
    ensures Inv(c, Next(c, s, CloseRetryable(pid)))
  {
    var s' := Next(c, s, CloseRetryable(pid));
    var pc := s.procs[pid];
    assert PcOk(s.ledger, pc);
    FinishEffect(s.ledger, pc.req.caller, OutcomeOf(pc.req, pc.s, s.now));
    forall scope, n ensures Settled?(s'.ledger, scope, n) == Settled?(s.ledger, scope, n) {
    }
    PcOkKept(s.ledger, s'.ledger, pc);
    ProcMoved(s, s'.ledger, pid, s'.procs[pid]);
    SubmitsKept(s, s');
    OutcomesKept(s, s');
    AsksKept(c, s, s');
    TerminalKept(s, s');
  }

  // --- Steps that settle, abandon or resolve ----------------------------------------------

  lemma {:induction false} NoneCounted(steps: seq<AppliedStep>, kind: Kind, i: nat)
    requires i < |steps| && StepCount(steps, kind) == 0
    ensures !Matches(kind, steps[i])
  {
    if i < |steps| - 1 {
      NoneCounted(steps[..|steps| - 1], kind, i);
    }
  }

  /** One attempt got its outcome, a class no resend follows; the others are as they were. */
  ghost predicate JustSettled(before: Ledger, after: Ledger, scope: Scope, n: int) {
    && LedgerStep(before, after)
    && (forall sc, m :: HasRow(after, sc, m) <==> HasRow(before, sc, m))
    && (forall sc, m :: HasRow(before, sc, m) && !(sc == scope && m == n) ==> RowAt(after, sc, m) == RowAt(before, sc, m))
    && HasRow(before, scope, n) && !RowAt(before, scope, n).finished
    && Settled?(after, scope, n)
  }

  /** The step of an outcome just recorded is the first of its attempt. */
  lemma OutcomeApplied(c: Config, s: State, s': State, x: AppliedStep)
    requires Inv(c, s) && JustSettled(s.ledger, s'.ledger, x.scope, x.n)
    requires s'.steps == s.steps + [x] && s'.closed == s.closed && !x.origin.ByResolve?
    requires RowAt(s'.ledger, x.scope, x.n).finding == x.finding && Consistent(x)
    ensures OutcomesOk(s') && AsksOk(c, s') && TerminalOk(s')
  {
    StepCountAppend(s.steps, x);
    var any := AnyOfAttempt(x.scope, x.n);
    assert StepCount(s.steps, any) == 0;
    forall i | 0 <= i < |s.steps| ensures !(s.steps[i].scope == x.scope && s.steps[i].n == x.n) {
      NoneCounted(s.steps, any, i);
    }
    forall scope, n ensures Settled?(s'.ledger, scope, n) == (Settled?(s.ledger, scope, n) || (scope == x.scope && n == x.n)) {
    }
    AsksAfterOutcome(c, s, s', x);
  }

  lemma AsksAfterOutcome(c: Config, s: State, s': State, x: AppliedStep)
    requires Inv(c, s) && JustSettled(s.ledger, s'.ledger, x.scope, x.n)
    requires s'.steps == s.steps + [x]
    ensures AsksOk(c, s')
  {
    StepCountAppend(s.steps, x);
    assert StepCount(s.steps, AskOfAttempt(x.scope, x.n)) == 0;
  }

  /** Closing under an existing entry settles the attempt without a step. */
  lemma ClosedApplied(c: Config, s: State, s': State, x: ClosedAttempt)
    requires Inv(c, s) && JustSettled(s.ledger, s'.ledger, x.scope, x.n)
    requires s'.steps == s.steps && s'.closed == s.closed + [x]
    ensures OutcomesOk(s') && AsksOk(c, s') && TerminalOk(s')
  {
    ClosedCountAppend(s.closed, x);
    forall scope, n ensures Settled?(s'.ledger, scope, n) == (Settled?(s.ledger, scope, n) || (scope == x.scope && n == x.n)) {
    }
    AsksKept(c, s, s');
    TerminalKept(s, s');
  }

  /** What one settlement does to the ledger, whatever branch it takes. */
  lemma SettleEffect(c: Config, s: State, pid: nat)
    requires Inv(c, s) && pid in s.procs && s.procs[pid].Settling?
    ensures var pc := s.procs[pid]; var st := pc.s; var a := st.attempt;
      var tx := SettleIn(c, s.ledger, s.inbox, pc.req, st, s.now);
      var key := MessageKey(pc.req.receipt);
      tx.Some? ==>
        && LedgerStep(s.ledger, tx.value.ledger)
        && (key in s.inbox ==> tx.value.inbox == s.inbox && tx.value.steps == [])
        && (key !in s.inbox ==>
              && tx.value.closed == []
              && key in tx.value.inbox && tx.value.inbox[key].expiresAt == 0
              && tx.value.inbox == s.inbox[key := tx.value.inbox[key]])
        && (tx.value.steps == [] || tx.value.steps == [StepOf(c, pc.req, st, key)])
        && (tx.value.closed == [] || tx.value.closed == [ClosedAttempt(a.scope, a.n, key)])
        && (tx.value.steps == [] && tx.value.closed == [] ==>
              forall scope, n :: Settled?(tx.value.ledger, scope, n) == Settled?(s.ledger, scope, n))
        && (tx.value.steps != [] || tx.value.closed != [] ==> JustSettled(s.ledger, tx.value.ledger, a.scope, a.n))
        && (tx.value.steps != [] ==> RowAt(tx.value.ledger, a.scope, a.n).finding == st.observation.finding)
  {
    var pc := s.procs[pid];
    assert PcOk(s.ledger, pc);
    EvolvesRows(s.ledger, s.ledger);
    FinishEffect(s.ledger, pc.req.caller, OutcomeOf(pc.req, pc.s, s.now));
    var key := MessageKey(pc.req.receipt);
    var got := RegisterIn(s.inbox, pc.req.receipt.consumer, false, pc.req.caller, pc.req.receipt);
    if got.Ok? {
      assert got.value.FirstReception? <==> key !in s.inbox;
    }
  }

  /** The caller is done: what remains is what its transaction did to the logs. */
  lemma ReturnKeeps(c: Config, s: State, s': State, pid: nat)
    requires Inv(c, s) && LedgerStep(s.ledger, s'.ledger)
    requires s'.procs == s.procs[pid := Returned] && s'.submits == s.submits
    requires OutcomesOk(s') && AsksOk(c, s') && TerminalOk(s') && MessagesOk(s')
    ensures Inv(c, s')
  {
    ProcMoved(s, s'.ledger, pid, Returned);
    assert ProcsOk(s');
    SubmitsKept(s, s');
  }

  lemma LogsKept(c: Config, s: State, s': State)
    requires Inv(c, s) && LedgerStep(s.ledger, s'.ledger) && s'.steps == s.steps && s'.closed == s.closed
    requires forall scope, n :: Settled?(s'.ledger, scope, n) == Settled?(s.ledger, scope, n)
    ensures OutcomesOk(s') && AsksOk(c, s') && TerminalOk(s')
  {
    OutcomesKept(s, s');
    AsksKept(c, s, s');
    TerminalKept(s, s');
  }

  lemma SettleTxKeeps(c: Config, s: State, pid: nat)
    requires Inv(c, s) && Enabled(c, s, SettleTx(pid))
    ensures Inv(c, Next(c, s, SettleTx(pid)))
  {
    var pc := s.procs[pid];
    var tx := SettleIn(c, s.ledger, s.inbox, pc.req, pc.s, s.now);
    if tx.None? {
      MoveKeeps(c, s, pid, Returned);
    } else {
      SettleEffect(c, s, pid);
      SettledKeeps(c, s, Next(c, s, SettleTx(pid)), pid, tx.value);
    }
  }

  lemma SettledKeeps(c: Config, s: State, s': State, pid: nat, tx: Settled)
    requires Inv(c, s) && pid in s.procs && s.procs[pid].Settling? && LedgerStep(s.ledger, tx.ledger)
    requires s' == State(s.now, tx.ledger, tx.inbox, s.procs[pid := Returned], s.submits, s.steps + tx.steps, s.closed + tx.closed)
    requires var pc := s.procs[pid]; var a := pc.s.attempt; var key := MessageKey(pc.req.receipt);
      && (key in s.inbox ==> tx.inbox == s.inbox && tx.steps == [])
      && (key !in s.inbox ==>
            tx.closed == [] && key in tx.inbox && tx.inbox[key].expiresAt == 0 && tx.inbox == s.inbox[key := tx.inbox[key]])
      && (tx.steps == [] || tx.steps == [StepOf(c, pc.req, pc.s, key)])
      && (tx.closed == [] || tx.closed == [ClosedAttempt(a.scope, a.n, key)])
      && (tx.steps == [] && tx.closed == [] ==> forall scope, n :: Settled?(tx.ledger, scope, n) == Settled?(s.ledger, scope, n))
      && (tx.steps != [] || tx.closed != [] ==> JustSettled(s.ledger, tx.ledger, a.scope, a.n))
      && (tx.steps != [] ==> RowAt(tx.ledger, a.scope, a.n).finding == pc.s.observation.finding)
    ensures Inv(c, s')
  {
    var pc := s.procs[pid];
    var key := MessageKey(pc.req.receipt);
    if tx.steps != [] {
      assert s'.closed == s.closed;
      OutcomeApplied(c, s, s', StepOf(c, pc.req, pc.s, key));
      MessagesAfterStep(c, s, s', pid);
    } else if tx.closed != [] {
      assert s'.steps == s.steps;
      ClosedApplied(c, s, s', ClosedAttempt(pc.s.attempt.scope, pc.s.attempt.n, key));
    } else {
      assert s'.steps == s.steps && s'.closed == s.closed;
      LogsKept(c, s, s');
    }
    ReturnKeeps(c, s, s', pid);
  }

  lemma MessagesAfterStep(c: Config, s: State, s': State, pid: nat)
    requires MessagesOk(s) && pid in s.procs && s.procs[pid].Settling?
    requires var key := MessageKey(s.procs[pid].req.receipt);
      && key !in s.inbox && s'.closed == s.closed
      && key in s'.inbox && s'.inbox[key].expiresAt == 0 && s'.inbox == s.inbox[key := s'.inbox[key]]
      && s'.steps == s.steps + [StepOf(c, s.procs[pid].req, s.procs[pid].s, key)]
    ensures MessagesOk(s')
  {
    StepCountAppend(s.steps, StepOf(c, s.procs[pid].req, s.procs[pid].s, MessageKey(s.procs[pid].req.receipt)));
  }

  lemma AbandonTxKeeps(c: Config, s: State, pid: nat, queryAvailable: bool)
    requires Inv(c, s) && Enabled(c, s, AbandonTx(pid, queryAvailable))
    ensures Inv(c, Next(c, s, AbandonTx(pid, queryAvailable)))
  {
    var a := s.procs[pid].attempt;
    assert PcOk(s.ledger, s.procs[pid]);
    AbandonEffect(c, s.ledger, a, queryAvailable, s.now);
    AbandonedKeeps(c, s, Next(c, s, AbandonTx(pid, queryAvailable)), pid, AbandonIn(c, s.ledger, a, queryAvailable, s.now).1);
  }

  lemma AbandonEffect(c: Config, ledger: Ledger, a: Attempt, queryAvailable: bool, now: Instant)
    requires LedgerOk(ledger) && HoldsAttempt(ledger, a)
    ensures var (after, applied) := AbandonIn(c, ledger, a, queryAvailable, now);
      && LedgerStep(ledger, after)
      && (applied == [] ==> forall scope, n :: Settled?(after, scope, n) == Settled?(ledger, scope, n))
      && (applied != [] ==>
        && |applied| == 1 && applied[0].origin.ByAbandon? && Consistent(applied[0])
        && JustSettled(ledger, after, applied[0].scope, applied[0].n)
        && RowAt(after, applied[0].scope, applied[0].n).finding == applied[0].finding)
  {
    FinishEffect(ledger, OfTenant(a.scope.tenant), PresumedOutcome(a, now));
  }

  lemma AbandonedKeeps(c: Config, s: State, s': State, pid: nat, applied: seq<AppliedStep>)
    requires Inv(c, s) && LedgerStep(s.ledger, s'.ledger)
    requires s' == s.(ledger := s'.ledger, procs := s.procs[pid := Returned], steps := s.steps + applied)
    requires applied == [] ==> forall scope, n :: Settled?(s'.ledger, scope, n) == Settled?(s.ledger, scope, n)
    requires applied != [] ==>
      && |applied| == 1 && applied[0].origin.ByAbandon? && Consistent(applied[0])
      && JustSettled(s.ledger, s'.ledger, applied[0].scope, applied[0].n)
      && RowAt(s'.ledger, applied[0].scope, applied[0].n).finding == applied[0].finding
    ensures Inv(c, s')
  {
    if applied != [] {
      assert applied == [applied[0]];
      OutcomeApplied(c, s, s', applied[0]);
      StepCountAppend(s.steps, applied[0]);
    } else {
      assert s'.steps == s.steps;
      LogsKept(c, s, s');
    }
    ReturnKeeps(c, s, s', pid);
  }

  /** What a resolution's step rests on. */
  lemma ResolveEffect(c: Config, ledger: Ledger, caller: Caller, o: Observation, queryAvailable: bool, now: Instant)
    requires LedgerOk(ledger)
    ensures var (ledger', applied) := ResolveIn(c, ledger, caller, o, queryAvailable, now);
      && LedgerStep(ledger, ledger')
      && (forall scope, n :: Settled?(ledger', scope, n) == Settled?(ledger, scope, n))
      && (applied != [] ==>
        && |applied| == 1 && applied[0].origin.ByResolve? && Consistent(applied[0])
        && JustObserved(ledger, ledger', applied[0])
        && (applied[0].step.Asks() ==> RowAt(ledger', applied[0].scope, applied[0].n).queries < c.profile.maxQueries))
  {
    ObserveEffect(ledger, caller, o, now);
  }

  lemma ResolveTxKeeps(c: Config, s: State, caller: Caller, o: Observation, queryAvailable: bool)
    requires Inv(c, s)
    ensures Inv(c, Next(c, s, ResolveTx(caller, o, queryAvailable)))
  {
    ResolveEffect(c, s.ledger, caller, o, queryAvailable, s.now);
    ResolvedKeeps(c, s, Next(c, s, ResolveTx(caller, o, queryAvailable)),
                  ResolveIn(c, s.ledger, caller, o, queryAvailable, s.now).1);
  }

  lemma ResolvedKeeps(c: Config, s: State, s': State, applied: seq<AppliedStep>)
    requires Inv(c, s) && LedgerStep(s.ledger, s'.ledger)
    requires s' == s.(ledger := s'.ledger, steps := s.steps + applied)
    requires forall scope, n :: Settled?(s'.ledger, scope, n) == Settled?(s.ledger, scope, n)
    requires applied != [] ==>
      && |applied| == 1 && applied[0].origin.ByResolve? && Consistent(applied[0])
      && JustObserved(s.ledger, s'.ledger, applied[0])
      && (applied[0].step.Asks() ==> RowAt(s'.ledger, applied[0].scope, applied[0].n).queries < c.profile.maxQueries)
    ensures Inv(c, s')
  {
    forall p | p in s'.procs ensures PcOk(s'.ledger, s'.procs[p]) {
      PcOkKept(s.ledger, s'.ledger, s.procs[p]);
    }
    SubmitsKept(s, s');
    if applied != [] {
      assert applied == [applied[0]];
      StepCountAppend(s.steps, applied[0]);
      AsksAfterResolve(c, s, s', applied[0]);
      TerminalAfterResolve(s, s', applied[0]);
    } else {
      assert s'.steps == s.steps;
      LogsKept(c, s, s');
    }
  }

  /** A recorded observation, as the step it produced sees it. */
  ghost predicate JustObserved(before: Ledger, after: Ledger, x: AppliedStep) {
    && LedgerStep(before, after)
    && (forall sc, m :: HasRow(after, sc, m) <==> HasRow(before, sc, m))
    && (forall sc, m :: HasRow(before, sc, m) && !(sc == x.scope && m == x.n) ==> RowAt(after, sc, m) == RowAt(before, sc, m))
    && HasRow(before, x.scope, x.n)
    && RowAt(before, x.scope, x.n).finished && RowAt(after, x.scope, x.n).finished
    && RowAt(after, x.scope, x.n).queries == RowAt(before, x.scope, x.n).queries + 1
    && !RowAt(before, x.scope, x.n).finding.Terminal()
    && RowAt(after, x.scope, x.n).finding == x.finding
  }

  lemma AsksAfterResolve(c: Config, s: State, s': State, x: AppliedStep)
    requires c.profile.maxQueries > 0
    requires AsksOk(c, s) && JustObserved(s.ledger, s'.ledger, x) && s'.steps == s.steps + [x]
    requires x.step.Asks() ==> RowAt(s'.ledger, x.scope, x.n).queries < c.profile.maxQueries
    ensures AsksOk(c, s')
  {
    StepCountAppend(s.steps, x);
  }

  lemma TerminalAfterResolve(s: State, s': State, x: AppliedStep)
    requires TerminalOk(s) && JustObserved(s.ledger, s'.ledger, x) && s'.steps == s.steps + [x] && Consistent(x)
    ensures TerminalOk(s')
  {
    forall i | 0 <= i < |s.steps| && s.steps[i].finding.Terminal()
      ensures RowAt(s'.ledger, s.steps[i].scope, s.steps[i].n).finding.Terminal()
    {
      assert RowEvolves(RowAt(s.ledger, s.steps[i].scope, s.steps[i].n), RowAt(s'.ledger, s.steps[i].scope, s.steps[i].n));
    }
  }
}
