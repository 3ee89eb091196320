/** The external-command protocol as a step system: any number of dispatches,
    sweeps and resolutions interleave, and any of them may fail or crash between
    two of its transactions. Each step below is one transaction, one partner
    call, or one clock reading. */
module DispatchProtocol {
  import opened Ports
  import opened AttemptRows
  import opened NextSteps
  import opened ExternalProfiles
  import opened Inboxes

  /** Fixed by the composition root: the stale cut and the partner's profile. */
  datatype Config = Config(staleAfter: int, profile: Profile)

  /** One delivery of a message to Dispatch. */
  datatype Request = Request(receipt: Receipt, caller: Caller, key: OutboundKey, queryAvailable: bool)

  /** What a caller means to record about an attempt. `owned` says this call (or
      the dead owner it presumes for) must close it; `presumed`, that no reply came. */
  datatype Settlement = Settlement(
    attempt: Attempt, cls: ExternalClass, observation: Observation, owned: bool, presumed: bool)

  /** When the owner's partner call started and returned; the rest never called. */
  datatype Timing = NoCall | Called(since: Instant, replied: Instant)

  /** Where one caller stands between two of its steps. */
  datatype Pc =
    | Ready(req: Request)
    | Began(req: Request, attempt: Attempt)
    | Calling(req: Request, attempt: Attempt, since: Instant)
    | Closing(req: Request, s: Settlement, timing: Timing)
    | Resuming(req: Request, attempt: Attempt)
    | Settling(req: Request, s: Settlement, timing: Timing)
    | Abandoning(attempt: Attempt)
    | Returned

  datatype Origin = ByDispatch(key: InboxKey) | ByAbandon | ByResolve

  /** A committed Apply: which step, of which attempt, and what produced it. */
  datatype AppliedStep = AppliedStep(
    origin: Origin, scope: Scope, n: int, cls: ExternalClass, finding: Finding, step: Step)

  /** A call that left for the partner. */
  datatype Submission = Submission(pid: nat, scope: Scope, n: int, message: MessageID)

  /** An attempt closed without a step, under an inbox entry that already existed. */
  datatype ClosedAttempt = ClosedAttempt(scope: Scope, n: int, key: InboxKey)

  datatype State = State(
    now: Instant,
    ledger: Ledger,
    inbox: InboxRows,
    procs: map<nat, Pc>,
    submits: seq<Submission>,
    steps: seq<AppliedStep>,
    closed: seq<ClosedAttempt>)

  datatype Label =
    | Tick(to: Instant)
    | Arrive(pid: nat, req: Request)
    | BeginTx(pid: nat, at: Instant)
    | Call(pid: nat)
    | Reply(pid: nat, cls: ExternalClass, observation: Observation)
    | CloseRetryable(pid: nat)
    | Resume(pid: nat)
    | SettleTx(pid: nat)
    | Fail(pid: nat)
    | List(pid: nat, attempt: Attempt, cutoff: Instant)
    | AbandonTx(pid: nat, queryAvailable: bool)
    | ResolveTx(caller: Caller, observation: Observation, queryAvailable: bool)

  const EMPTY := State(0, map[], map[], map[], [], [], [])

  function OutcomeOf(req: Request, s: Settlement, at: Instant): AttemptOutcome {
    AttemptOutcome(req.key, s.attempt.n, s.cls, s.observation, at, s.presumed)
  }

  function PresumedOutcome(a: Attempt, at: Instant): AttemptOutcome {
    AttemptOutcome(a.scope.key, a.n, ClassUnknownSent, NO_OBSERVATION, at, true)
  }

  function MessageKey(r: Receipt): InboxKey {
    InboxKey(r.consumer, r.message)
  }

  /** Which caller may take which step, and what the environment may do. */
  ghost predicate Enabled(c: Config, s: State, l: Label) {
    match l
    case Tick(to) => s.now <= to
    case Arrive(pid, req) => pid !in s.procs && req.key != "" && req.receipt.expiresAt == 0
    case BeginTx(pid, at) => pid in s.procs && s.procs[pid].Ready? && at <= s.now
    case Call(pid) => pid in s.procs && s.procs[pid].Began?
    case Reply(pid, cls, _) => pid in s.procs && s.procs[pid].Calling?
    case CloseRetryable(pid) => pid in s.procs && s.procs[pid].Closing?
    case Resume(pid) => pid in s.procs && s.procs[pid].Resuming?
    case SettleTx(pid) => pid in s.procs && s.procs[pid].Settling?
    case Fail(pid) => pid in s.procs
    case List(pid, a, cutoff) =>
      && pid !in s.procs
      && cutoff <= s.now - c.staleAfter
      && 1 <= a.n <= |RowsOf(s.ledger, a.scope)|
      && a == AttemptOf(a.scope, a.n, RowsOf(s.ledger, a.scope)[a.n - 1])
      && !RowsOf(s.ledger, a.scope)[a.n - 1].finished
      && a.startedAt <= cutoff
    case AbandonTx(pid, _) => pid in s.procs && s.procs[pid].Abandoning?
    case ResolveTx(_, _, _) => true
  }

  /** Begin decides whether this delivery calls, resumes, or only settles. */
  function AfterBegin(req: Request, start: Result<AttemptStart, LedgerError>): Pc {
    match start
    case Err(_) => Returned
    case Ok(StartedAttempt(a)) => Began(req, a)
    case Ok(PendingAttempt(a)) => Resuming(req, a)
    case Ok(DoneAttempt(a, cls)) => Settling(req, Settlement(a, cls, NO_OBSERVATION, false, false), NoCall)
  }

  /** A zero class is uncertain; a retryable one is closed on its own, unsettled. */
  function AfterReply(req: Request, a: Attempt, cls: ExternalClass, o: Observation, timing: Timing): Pc {
    var s := Settlement(a, if cls == ClassNone then ClassUnknownAmbiguous else cls, o, true, false);
    if s.cls.Retryable() then Closing(req, s, timing) else Settling(req, s, timing)
  }

  /** The retryable close yields to a class recorded meanwhile that no resend follows. */
  function AfterClose(req: Request, s: Settlement, timing: Timing, r: Result<Finished, LedgerError>): Pc {
    if r.Ok? && r.value.result != FinishRecorded && !r.value.recorded.Retryable()
    then Settling(req, s.(cls := r.value.recorded), timing)
    else Returned
  }

  /** Everything the settlement's transaction writes, or nothing when it fails. */
  datatype Settled = Settled(ledger: Ledger, inbox: InboxRows, steps: seq<AppliedStep>, closed: seq<ClosedAttempt>)

  function StepOf(c: Config, req: Request, s: Settlement, key: InboxKey): AppliedStep {
    AppliedStep(ByDispatch(key), s.attempt.scope, s.attempt.n, s.cls, s.observation.finding,
                NextStep(s.cls, s.observation.finding, c.profile, req.queryAvailable, 0))
  }

  function SettleIn(c: Config, ledger: Ledger, inbox: InboxRows, req: Request, s: Settlement, now: Instant): Option<Settled> {
    match RegisterIn(inbox, req.receipt.consumer, false, req.caller, req.receipt)
    case Err(_) => None
    case Ok(FirstReception(key, hash, expiresAt)) =>
      var (ledger', r) := FinishIn(ledger, req.caller, OutcomeOf(req, s, now));
      if r.Err? then None
      else
        var row := CompletedRow(FirstReception(key, hash, expiresAt), Completion(StatusProcessed, "", []));
        Some(Settled(ledger', inbox[key := row],
                     if r.value.result == FinishRecorded then [StepOf(c, req, s, key)] else [], []))
    case Ok(_) =>
      if !s.owned then Some(Settled(ledger, inbox, [], []))
      else
        var (ledger', r) := FinishIn(ledger, req.caller, OutcomeOf(req, s, now));
        if r.Err? then None
        else Some(Settled(ledger', inbox, [],
                          if r.value.result == FinishRecorded
                          then [ClosedAttempt(s.attempt.scope, s.attempt.n, MessageKey(req.receipt))] else []))
  }

  function AbandonIn(c: Config, ledger: Ledger, a: Attempt, queryAvailable: bool, now: Instant): (Ledger, seq<AppliedStep>) {
    var (ledger', r) := FinishIn(ledger, OfTenant(a.scope.tenant), PresumedOutcome(a, now));
    if r.Ok? && r.value.result == FinishRecorded
    then (ledger', [AppliedStep(ByAbandon, a.scope, a.n, ClassUnknownSent, FindingNone,
                                NextStep(ClassUnknownSent, FindingNone, c.profile, queryAvailable, 0))])
    else (ledger', [])
  }

  function ResolveIn(c: Config, ledger: Ledger, caller: Caller, o: Observation, queryAvailable: bool, now: Instant): (Ledger, seq<AppliedStep>) {
    var (ledger', r) := ObserveIn(ledger, caller, o, now);
    if r.Ok? && r.value.result == ObserveRecorded && caller.OfTenant?
    then (ledger', [AppliedStep(ByResolve, Scope(caller.tenant, o.key), r.value.n, r.value.cls, o.finding,
                                NextStep(r.value.cls, o.finding, c.profile, queryAvailable, r.value.queriesDone))])
    else (ledger', [])
  }

  function Set(s: State, pid: nat, pc: Pc): State {
    s.(procs := s.procs[pid := pc])
  }

  ghost function Next(c: Config, s: State, l: Label): State
    requires Enabled(c, s, l)
  {
    match l
    case Tick(to) => s.(now := to)
    case Arrive(pid, req) => Set(s, pid, Ready(req))
    case BeginTx(pid, at) =>
      var req := s.procs[pid].req;
      var (ledger', start) := BeginIn(s.ledger, req.caller, req.key, req.receipt.message, at);
      Set(s.(ledger := ledger'), pid, AfterBegin(req, start))
    case Call(pid) =>
      var pc := s.procs[pid];
      Set(s.(submits := s.submits + [Submission(pid, pc.attempt.scope, pc.attempt.n, pc.req.receipt.message)]),
          pid, Calling(pc.req, pc.attempt, s.now))
    case Reply(pid, cls, o) =>
      var pc := s.procs[pid];
      Set(s, pid, AfterReply(pc.req, pc.attempt, cls, o, Called(pc.since, s.now)))
    case CloseRetryable(pid) =>
      var pc := s.procs[pid];
      var (ledger', r) := FinishIn(s.ledger, pc.req.caller, OutcomeOf(pc.req, pc.s, s.now));
      Set(s.(ledger := ledger'), pid, AfterClose(pc.req, pc.s, pc.timing, r))
    case Resume(pid) =>
      var pc := s.procs[pid];
      if s.now - pc.attempt.startedAt < c.staleAfter then Set(s, pid, Returned)
      else Set(s, pid, Settling(pc.req, Settlement(pc.attempt, ClassUnknownSent, NO_OBSERVATION, true, true), NoCall))
    case SettleTx(pid) =>
      var pc := s.procs[pid];
      (match SettleIn(c, s.ledger, s.inbox, pc.req, pc.s, s.now)
       case None => Set(s, pid, Returned)
       case Some(tx) =>
         Set(s.(ledger := tx.ledger, inbox := tx.inbox, steps := s.steps + tx.steps, closed := s.closed + tx.closed), pid, Returned))
    case Fail(pid) => Set(s, pid, Returned)
    case List(pid, a, _) => Set(s, pid, Abandoning(a))
    case AbandonTx(pid, queryAvailable) =>
      var (ledger', applied) := AbandonIn(c, s.ledger, s.procs[pid].attempt, queryAvailable, s.now);
      Set(s.(ledger := ledger', steps := s.steps + applied), pid, Returned)
    case ResolveTx(caller, o, queryAvailable) =>
      var (ledger', applied) := ResolveIn(c, s.ledger, caller, o, queryAvailable, s.now);
      s.(ledger := ledger', steps := s.steps + applied)
  }

  /** A run: a first state, and a label for each later one. */
  ghost predicate IsRun(c: Config, run: seq<State>, labels: seq<Label>) {
    && |run| == |labels| + 1
    && run[0] == EMPTY
    && forall i :: 0 <= i < |labels| ==> Enabled(c, run[i], labels[i]) && run[i + 1] == Next(c, run[i], labels[i])
  }
}
