/** The protocol's promises over whole runs. */
module DispatchTheorems {
  import opened Ports
  import opened AttemptRows
  import opened AttemptLaws
  import opened NextSteps
  import opened Inboxes
  import opened DispatchProtocol
  import opened DispatchSafety

  lemma StepKeeps(c: Config, s: State, l: Label)
    requires Inv(c, s) && Enabled(c, s, l)
    ensures Inv(c, Next(c, s, l))
  {
    match l {
      case Tick(to) =>
        var s' := Next(c, s, l);
        assert ProcsOk(s') && SubmitsOk(s') && OutcomesOk(s') && MessagesOk(s') && AsksOk(c, s') && TerminalOk(s');
      case BeginTx(pid, at) => BeginTxKeeps(c, s, pid, at);
      case Call(pid) => CallKeeps(c, s, pid);
      case CloseRetryable(pid) => CloseRetryableKeeps(c, s, pid);
      case SettleTx(pid) => SettleTxKeeps(c, s, pid);
      case AbandonTx(pid, queryAvailable) => AbandonTxKeeps(c, s, pid, queryAvailable);
      case ResolveTx(caller, o, queryAvailable) => ResolveTxKeeps(c, s, caller, o, queryAvailable);
      case _ => QuietKeeps(c, s, l);
    }
  }

  lemma {:induction false} RunKeeps(c: Config, run: seq<State>, labels: seq<Label>, i: nat)
    requires c.profile.maxQueries > 0 && IsRun(c, run, labels) && i < |run|
    ensures Inv(c, run[i])
  {
    if i > 0 {
      RunKeeps(c, run, labels, i - 1);
      StepKeeps(c, run[i - 1], labels[i - 1]);
    }
  }

  /** Whatever the interleaving, redeliveries, sweeps and crashes: an attempt is
      called once and applied once, a message is dispatched once, and an attempt
      settled for good was applied, unless an existing inbox entry closed it. */
  lemma OncePerAttemptAndMessage(c: Config, run: seq<State>, labels: seq<Label>, i: nat, scope: Scope, n: int, key: InboxKey)
    requires c.profile.maxQueries > 0 && IsRun(c, run, labels) && i < |run|
    ensures var s := run[i];
      && SubmitCount(s.submits, scope, n) <= 1
      && StepCount(s.steps, OutcomeOfAttempt(scope, n)) <= 1
      && StepCount(s.steps, DispatchedUnder(key)) <= 1
      && (Settled?(s.ledger, scope, n) ==>
            StepCount(s.steps, OutcomeOfAttempt(scope, n)) == 1 || ClosedUnderEntry(s, scope, n))
      && (!Settled?(s.ledger, scope, n) ==> StepCount(s.steps, OutcomeOfAttempt(scope, n)) == 0)
  {
    RunKeeps(c, run, labels, i);
    var s := run[i];
    if ClosedCount(s.closed, scope, n) > 0 {
      CountedIsThere(s.closed, scope, n);
    }
  }

  ghost predicate ClosedUnderEntry(s: State, scope: Scope, n: int) {
    exists i :: 0 <= i < |s.closed| && s.closed[i].scope == scope && s.closed[i].n == n && s.closed[i].key in s.inbox
  }

  lemma {:induction false} CountedIsThere(closed: seq<ClosedAttempt>, scope: Scope, n: int)
    requires ClosedCount(closed, scope, n) > 0
    ensures exists i :: 0 <= i < |closed| && closed[i].scope == scope && closed[i].n == n
  {
    var x := closed[|closed| - 1];
    if !(x.scope == scope && x.n == n) {
      CountedIsThere(closed[..|closed| - 1], scope, n);
      var i :| 0 <= i < |closed| - 1 && closed[..|closed| - 1][i].scope == scope && closed[..|closed| - 1][i].n == n;
      assert closed[i].scope == scope;
    }
  }

  /** An attempt is closed unapplied only when its message's entry was there before. */
  lemma ClosedOnlyUnderAnEarlierEntry(c: Config, s: State, l: Label)
    requires Inv(c, s) && Enabled(c, s, l)
    ensures var s' := Next(c, s, l);
      && |s.closed| <= |s'.closed|
      && forall i :: |s.closed| <= i < |s'.closed| ==> s'.closed[i].key in s.inbox && s'.steps == s.steps
  {
    if l.SettleTx? {
      SettleEffect(c, s, l.pid);
    }
  }

  /** Outcomes, terminal findings and the numbering of attempts never change back. */
  lemma {:induction false} LedgerOnlyEvolves(c: Config, run: seq<State>, labels: seq<Label>, i: nat, j: nat)
    requires c.profile.maxQueries > 0 && IsRun(c, run, labels) && i <= j < |run|
    ensures LedgerOk(run[j].ledger) && LedgerEvolves(run[i].ledger, run[j].ledger)
    decreases j
  {
    if i < j {
      LedgerOnlyEvolves(c, run, labels, i, j - 1);
      RunKeeps(c, run, labels, j - 1);
      StepEvolvesFrom(c, run[i].ledger, run[j - 1], labels[j - 1]);
    } else {
      RunKeeps(c, run, labels, i);
      EvolvesRefl(run[i].ledger);
    }
  }

  lemma EvolvesRefl(ledger: Ledger)
    ensures LedgerEvolves(ledger, ledger)
  {
  }

  lemma StepEvolvesFrom(c: Config, origin: Ledger, s: State, l: Label)
    requires Inv(c, s) && Enabled(c, s, l) && LedgerEvolves(origin, s.ledger)
    ensures LedgerOk(Next(c, s, l).ledger) && LedgerEvolves(origin, Next(c, s, l).ledger)
  {
    assert LedgerOk(Next(c, s, l).ledger) by { StepKeeps(c, s, l); }
    StepEvolves(c, s, l);
    EvolvesTrans(origin, s.ledger, Next(c, s, l).ledger);
  }

  lemma SettleEvolves(c: Config, ledger: Ledger, inbox: InboxRows, req: Request, st: Settlement, now: Instant)
    requires LedgerOk(ledger)
    ensures var tx := SettleIn(c, ledger, inbox, req, st, now);
      LedgerEvolves(ledger, if tx.Some? then tx.value.ledger else ledger)
  {
    FinishKeeps(ledger, req.caller, OutcomeOf(req, st, now));
  }

  lemma StepEvolves(c: Config, s: State, l: Label)
    requires Inv(c, s) && Enabled(c, s, l)
    ensures LedgerEvolves(s.ledger, Next(c, s, l).ledger)
  {
    match l {
      case BeginTx(pid, at) =>
        var req := s.procs[pid].req;
        BeginMeaning(s.ledger, req.caller, req.key, req.receipt.message, at);
      case CloseRetryable(pid) =>
        FinishKeeps(s.ledger, s.procs[pid].req.caller, OutcomeOf(s.procs[pid].req, s.procs[pid].s, s.now));
      case SettleTx(pid) => SettleEvolves(c, s.ledger, s.inbox, s.procs[pid].req, s.procs[pid].s, s.now);
      case AbandonTx(pid, _) =>
        var a := s.procs[pid].attempt;
        FinishKeeps(s.ledger, OfTenant(a.scope.tenant), PresumedOutcome(a, s.now));
      case ResolveTx(caller, o, _) => ObserveKeeps(s.ledger, caller, o, s.now);
      case _ =>
    }
  }

  // --- A finished message is never sent again ---------------------------------------

  /** The message finished an attempt of the key with a class no resend follows. */
  predicate MessageDone(ledger: Ledger, scope: Scope, m: MessageID) {
    exists i :: 0 <= i < |RowsOf(ledger, scope)| && RowsOf(ledger, scope)[i].DoneFor(m)
  }

  /** The caller began an attempt of the key for the message and has not sent it yet. */
  predicate AboutToSend(pc: Pc, scope: Scope, m: MessageID) {
    pc.Began? && pc.attempt.scope == scope && pc.req.receipt.message == m
  }

  /** The callers that could still send the message were past Begin already. */
  ghost predicate OnlyEarlierCallers(s: State, s': State, scope: Scope, m: MessageID) {
    && |s.submits| <= |s'.submits|
    && (forall pid :: pid in s'.procs && AboutToSend(s'.procs[pid], scope, m) ==>
          pid in s.procs && AboutToSend(s.procs[pid], scope, m))
    && (forall k :: |s.submits| <= k < |s'.submits| && s'.submits[k].scope == scope && s'.submits[k].message == m ==>
          s'.submits[k].pid in s.procs && AboutToSend(s.procs[s'.submits[k].pid], scope, m))
  }

  lemma {:induction false} DoneMessageIsNotResubmitted(c: Config, run: seq<State>, labels: seq<Label>, i: nat, j: nat, scope: Scope, m: MessageID)
    requires c.profile.maxQueries > 0 && IsRun(c, run, labels) && i <= j < |run|
    requires MessageDone(run[i].ledger, scope, m)
    ensures MessageDone(run[j].ledger, scope, m) && OnlyEarlierCallers(run[i], run[j], scope, m)
    decreases j
  {
    if i < j {
      DoneMessageIsNotResubmitted(c, run, labels, i, j - 1, scope, m);
      RunKeeps(c, run, labels, j - 1);
      DoneMessageStep(c, run[i], run[j - 1], labels[j - 1], scope, m);
    }
  }

  lemma DoneMessageStep(c: Config, origin: State, s: State, l: Label, scope: Scope, m: MessageID)
    requires Inv(c, s) && Enabled(c, s, l)
    requires MessageDone(s.ledger, scope, m) && OnlyEarlierCallers(origin, s, scope, m)
    ensures MessageDone(Next(c, s, l).ledger, scope, m) && OnlyEarlierCallers(origin, Next(c, s, l), scope, m)
  {
    assert MessageDone(Next(c, s, l).ledger, scope, m) by {
      StepEvolves(c, s, l);
      DonePersists(s.ledger, Next(c, s, l).ledger, scope, m);
    }
    NoNewCaller(c, s, l, scope, m);
  }

  /** Begin never starts an attempt for a message that is done. */
  lemma NoNewCaller(c: Config, s: State, l: Label, scope: Scope, m: MessageID)
    requires LedgerOk(s.ledger) && Enabled(c, s, l) && MessageDone(s.ledger, scope, m)
    ensures var s' := Next(c, s, l);
      && (forall pid :: pid in s'.procs && AboutToSend(s'.procs[pid], scope, m) ==>
            pid in s.procs && AboutToSend(s.procs[pid], scope, m))
      && s.submits <= s'.submits
      && (forall k :: |s.submits| <= k < |s'.submits| ==>
            && s'.submits[k].pid in s.procs
            && AboutToSend(s.procs[s'.submits[k].pid], s'.submits[k].scope, s'.submits[k].message))
  {
    if l.BeginTx? {
      var req := s.procs[l.pid].req;
      BeginMeaning(s.ledger, req.caller, req.key, req.receipt.message, l.at);
    }
  }

  lemma DonePersists(before: Ledger, after: Ledger, scope: Scope, m: MessageID)
    requires LedgerEvolves(before, after) && MessageDone(before, scope, m)
    ensures MessageDone(after, scope, m)
  {
    var i :| 0 <= i < |RowsOf(before, scope)| && RowsOf(before, scope)[i].DoneFor(m);
    assert RowsEvolve(RowsOf(before, scope), RowsOf(after, scope));
    assert RowsOf(after, scope)[i].DoneFor(m);
  }

  // --- Questions to the partner are bounded -------------------------------------------

  /** Counting the outcome's step and every observation's, an attempt asks the
      partner at most as often as its profile allows. */
  lemma AsksWithinTheCeiling(c: Config, run: seq<State>, labels: seq<Label>, i: nat, scope: Scope, n: int)
    requires c.profile.maxQueries > 0 && IsRun(c, run, labels) && i < |run|
    ensures StepCount(run[i].steps, AskOfAttempt(scope, n)) <= c.profile.maxQueries
  {
    RunKeeps(c, run, labels, i);
  }

  /** Once a finding confirmed or failed an attempt, no later step touches it. */
  lemma NothingFollowsATerminalFinding(c: Config, run: seq<State>, labels: seq<Label>, i: nat, a: nat, b: nat)
    requires c.profile.maxQueries > 0 && IsRun(c, run, labels) && i < |run|
    requires a < b < |run[i].steps|
    requires run[i].steps[a].finding != FindingNone && (run[i].steps[a].step.StepConfirm? || run[i].steps[a].step.StepFail?)
    ensures !(run[i].steps[a].scope == run[i].steps[b].scope && run[i].steps[a].n == run[i].steps[b].n)
  {
    RunKeeps(c, run, labels, i);
    assert Consistent(run[i].steps[a]);
  }
}
