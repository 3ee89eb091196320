/** Under a validated budget whose limits the owners respect, no call of a key
    starts over another one that is running or unsettled, and no live owner's
    attempt is ever presumed. */
module DispatchTiming {
  import opened Ports
  import opened AttemptRows
  import opened AttemptLaws
  import opened DispatchProtocol
  import opened DispatchSafety
  import opened DispatchTheorems
  import opened ExternalBudgets

  /** The composition root wires the budget's cut into both presumers. */
  ghost predicate Wired(b: Budget, c: Config) {
    Validate(b) == Fits && c.staleAfter == StaleAfter(b) && c.profile.maxQueries > 0
  }

  function OwnedAttempt(pc: Pc): Option<Attempt> {
    match pc
    case Began(_, a) => Some(a)
    case Calling(_, a, _) => Some(a)
    case Closing(_, s, _) => Some(s.attempt)
    case Settling(_, s, _) => if s.owned && !s.presumed then Some(s.attempt) else None
    case _ => None
  }

  /** The attempt this caller is about to close on behalf of an owner it takes for dead. */
  function PresumedAttempt(pc: Pc): Option<Attempt> {
    match pc
    case Settling(_, s, _) => if s.presumed then Some(s.attempt) else None
    case Abandoning(a) => Some(a)
    case _ => None
  }

  /** What the deployment assumes of each owner at this instant: the gap from Begin
      to the call below the margin, the call within the route limit, the settlement
      within its own. An owner past its limit has been cancelled, so it is gone. */
  ghost predicate Timely(b: Budget, s: State) {
    forall pid :: pid in s.procs ==>
      match s.procs[pid]
      case Began(_, a) => s.now - a.startedAt < b.margin
      case Calling(_, _, since) => s.now - since <= b.limit
      case Closing(_, _, timing) => timing.Called? ==> s.now - timing.replied <= b.settle
      case Settling(_, _, timing) => timing.Called? ==> s.now - timing.replied <= b.settle
      case _ => true
  }

  predicate CalledInTime(b: Budget, a: Attempt, timing: Timing) {
    timing.Called? && timing.since - a.startedAt < b.margin && timing.replied - timing.since <= b.limit
  }

  /** What is known of the instants an owner has passed through. */
  predicate OwnerTimes(b: Budget, pc: Pc) {
    match pc
    case Calling(_, a, since) => since - a.startedAt < b.margin
    case Closing(_, s, timing) => CalledInTime(b, s.attempt, timing)
    case Settling(_, s, timing) => s.owned && !s.presumed ==> CalledInTime(b, s.attempt, timing)
    case _ => true
  }

  ghost predicate LiveOk(b: Budget, ledger: Ledger, procs: map<nat, Pc>) {
    && (forall pid :: pid in procs ==> OwnerTimes(b, procs[pid]))
    && (forall pid :: pid in procs && OwnedAttempt(procs[pid]).Some? ==>
          var a := OwnedAttempt(procs[pid]).value;
          HasRow(ledger, a.scope, a.n) && !RowAt(ledger, a.scope, a.n).finished)
    && (forall p, q :: p in procs && q in procs && OwnedAttempt(procs[p]).Some? ==>
          PresumedAttempt(procs[q]) != OwnedAttempt(procs[p]))
  }

  /** An owner still within its limits is younger than the stale cut. */
  lemma LiveIsFresh(b: Budget, c: Config, s: State, pid: nat)
    requires Wired(b, c) && Timely(b, s) && pid in s.procs
    requires OwnerTimes(b, s.procs[pid]) && OwnedAttempt(s.procs[pid]).Some?
    ensures s.now - OwnedAttempt(s.procs[pid]).value.startedAt < c.staleAfter
  {
    StaleAfterIsTheSum(b);
    ValidateMeaning(b);
  }

  /** A step that finishes no live owner's row and moves one caller. */
  lemma LiveMoved(b: Budget, s: State, ledger: Ledger, pid: nat, pc: Pc)
    requires LiveOk(b, s.ledger, s.procs) && OwnerTimes(b, pc)
    requires forall scope, n :: HasRow(s.ledger, scope, n) && !RowAt(s.ledger, scope, n).finished ==> HasRow(ledger, scope, n)
    requires forall p :: p in s.procs && p != pid && OwnedAttempt(s.procs[p]).Some? ==>
      var a := OwnedAttempt(s.procs[p]).value;
      && (HasRow(ledger, a.scope, a.n) ==> !RowAt(ledger, a.scope, a.n).finished)
      && PresumedAttempt(pc) != Some(a)
    requires OwnedAttempt(pc).Some? ==>
      var a := OwnedAttempt(pc).value;
      && HasRow(ledger, a.scope, a.n) && !RowAt(ledger, a.scope, a.n).finished
      && PresumedAttempt(pc) != Some(a)
      && forall q :: q in s.procs ==> PresumedAttempt(s.procs[q]) != Some(a)
    ensures LiveOk(b, ledger, s.procs[pid := pc])
  {
  }

  /** An attempt somebody presumes has no live owner, so closing it ends no live call. */
  lemma PresumedHasNoOwner(b: Budget, s: State, pid: nat, p: nat)
    requires LiveOk(b, s.ledger, s.procs) && ProcsOk(s)
    requires pid in s.procs && p in s.procs && PresumedAttempt(s.procs[pid]).Some? && OwnedAttempt(s.procs[p]).Some?
    ensures var a, o := PresumedAttempt(s.procs[pid]).value, OwnedAttempt(s.procs[p]).value;
      !(a.scope == o.scope && a.n == o.n)
  {
    assert PcOk(s.ledger, s.procs[pid]) && PcOk(s.ledger, s.procs[p]);
  }

  lemma OneOwner(s: State, p: nat, q: nat)
    requires ProcsOk(s) && p in s.procs && q in s.procs && p != q
    requires OwnedAttempt(s.procs[p]).Some? && OwnedAttempt(s.procs[q]).Some?
    ensures var a, o := OwnedAttempt(s.procs[p]).value, OwnedAttempt(s.procs[q]).value;
      !(a.scope == o.scope && a.n == o.n)
  {
    var a, o := OwnedAttempt(s.procs[p]).value, OwnedAttempt(s.procs[q]).value;
    assert Owns(s.procs[p], a.scope, a.n) && Owns(s.procs[q], o.scope, o.n);
  }

  lemma LiveBegin(b: Budget, c: Config, s: State, pid: nat, at: Instant)
    requires Inv(c, s) && LiveOk(b, s.ledger, s.procs) && Enabled(c, s, BeginTx(pid, at))
    ensures var s' := Next(c, s, BeginTx(pid, at)); LiveOk(b, s'.ledger, s'.procs)
  {
    var s' := Next(c, s, BeginTx(pid, at));
    var req := s.procs[pid].req;
    BeginEffect(s.ledger, req.caller, req.key, req.receipt.message, at);
    var pc := s'.procs[pid];
    forall q | q in s.procs && PresumedAttempt(s.procs[q]).Some?
      ensures HasRow(s.ledger, PresumedAttempt(s.procs[q]).value.scope, PresumedAttempt(s.procs[q]).value.n)
    {
      assert PcOk(s.ledger, s.procs[q]);
    }
    LiveMoved(b, s, s'.ledger, pid, pc);
  }

  /** Finishing the row of an owner, or of nobody alive, ends no other live call. */
  lemma LiveFinish(b: Budget, s: State, ledger: Ledger, pid: nat, a: Attempt)
    requires LiveOk(b, s.ledger, s.procs) && ProcsOk(s) && pid in s.procs
    requires LedgerStep(s.ledger, ledger)
    requires forall sc, n :: HasRow(s.ledger, sc, n) && !(sc == a.scope && n == a.n) ==> RowAt(ledger, sc, n).finished == RowAt(s.ledger, sc, n).finished
    requires || (HasRow(s.ledger, a.scope, a.n) && RowAt(s.ledger, a.scope, a.n).finished)
             || OwnedAttempt(s.procs[pid]) == Some(a)
             || PresumedAttempt(s.procs[pid]) == Some(a)
    ensures LiveOk(b, ledger, s.procs[pid := Returned])
  {
    forall p | p in s.procs && p != pid && OwnedAttempt(s.procs[p]).Some?
      ensures var o := OwnedAttempt(s.procs[p]).value; !RowAt(ledger, o.scope, o.n).finished
    {
      var o := OwnedAttempt(s.procs[p]).value;
      if OwnedAttempt(s.procs[pid]) == Some(a) {
        OneOwner(s, pid, p);
      } else if PresumedAttempt(s.procs[pid]) == Some(a) {
        PresumedHasNoOwner(b, s, pid, p);
      }
    }
    LiveMoved(b, s, ledger, pid, Returned);
  }

  /** The owner's own close finds its row begun, so it is always recorded. */
  lemma LiveClose(b: Budget, c: Config, s: State, pid: nat)
    requires Inv(c, s) && LiveOk(b, s.ledger, s.procs) && Enabled(c, s, CloseRetryable(pid))
    ensures var s' := Next(c, s, CloseRetryable(pid)); LiveOk(b, s'.ledger, s'.procs)
  {
    var s' := Next(c, s, CloseRetryable(pid));
    var pc := s.procs[pid];
    assert PcOk(s.ledger, pc);
    FinishEffect(s.ledger, pc.req.caller, OutcomeOf(pc.req, pc.s, s.now));
    assert OwnedAttempt(pc) == Some(pc.s.attempt);
    LiveFinish(b, s, s'.ledger, pid, pc.s.attempt);
  }

  lemma LiveSettle(b: Budget, c: Config, s: State, pid: nat)
    requires Inv(c, s) && LiveOk(b, s.ledger, s.procs) && Enabled(c, s, SettleTx(pid))
    ensures var s' := Next(c, s, SettleTx(pid)); LiveOk(b, s'.ledger, s'.procs)
  {
    var s' := Next(c, s, SettleTx(pid));
    var pc := s.procs[pid];
    assert PcOk(s.ledger, pc);
    SettledLedger(c, s, pid);
    EvolvesRows(s.ledger, s.ledger);
    FinishEffect(s.ledger, pc.req.caller, OutcomeOf(pc.req, pc.s, s.now));
    LiveFinish(b, s, s'.ledger, pid, pc.s.attempt);
  }

  lemma SettledLedger(c: Config, s: State, pid: nat)
    requires Enabled(c, s, SettleTx(pid))
    ensures var s', pc := Next(c, s, SettleTx(pid)), s.procs[pid];
      && s'.procs == s.procs[pid := Returned]
      && (s'.ledger == s.ledger || s'.ledger == FinishIn(s.ledger, pc.req.caller, OutcomeOf(pc.req, pc.s, s.now)).0)
  {
  }

  lemma LiveAbandon(b: Budget, c: Config, s: State, pid: nat, queryAvailable: bool)
    requires Inv(c, s) && LiveOk(b, s.ledger, s.procs) && Enabled(c, s, AbandonTx(pid, queryAvailable))
    ensures var s' := Next(c, s, AbandonTx(pid, queryAvailable)); LiveOk(b, s'.ledger, s'.procs)
  {
    var s' := Next(c, s, AbandonTx(pid, queryAvailable));
    var a := s.procs[pid].attempt;
    assert PcOk(s.ledger, s.procs[pid]);
    FinishEffect(s.ledger, OfTenant(a.scope.tenant), PresumedOutcome(a, s.now));
    LiveFinish(b, s, s'.ledger, pid, a);
  }

  lemma LiveResolve(b: Budget, c: Config, s: State, l: Label)
    requires Inv(c, s) && LiveOk(b, s.ledger, s.procs) && l.ResolveTx?
    ensures var s' := Next(c, s, l); LiveOk(b, s'.ledger, s'.procs)
  {
    ObserveEffect(s.ledger, l.caller, l.observation, s.now);
    LiveUnfinished(b, s.ledger, Next(c, s, l).ledger, s.procs);
  }

  /** What finishes no row ends no live call. */
  lemma LiveUnfinished(b: Budget, ledger: Ledger, after: Ledger, procs: map<nat, Pc>)
    requires LiveOk(b, ledger, procs)
    requires forall sc, n :: HasRow(ledger, sc, n) ==> HasRow(after, sc, n) && RowAt(after, sc, n).finished == RowAt(ledger, sc, n).finished
    ensures LiveOk(b, after, procs)
  {
  }

  /** Neither resume nor the sweep takes an attempt whose owner is alive. */
  lemma NoLiveOwnerIsPresumed(b: Budget, c: Config, s: State, l: Label, p: nat)
    requires Wired(b, c) && Timely(b, s) && Inv(c, s) && LiveOk(b, s.ledger, s.procs) && Enabled(c, s, l)
    requires l.Resume? || l.List?
    requires p in s.procs && OwnedAttempt(s.procs[p]).Some?
    ensures PresumedAttempt(Next(c, s, l).procs[l.pid]) != OwnedAttempt(s.procs[p])
  {
    LiveIsFresh(b, c, s, p);
  }

  lemma LiveQuiet(b: Budget, c: Config, s: State, l: Label)
    requires Wired(b, c) && Timely(b, s) && Inv(c, s) && LiveOk(b, s.ledger, s.procs) && Enabled(c, s, l)
    requires l.Arrive? || l.Call? || l.Reply? || l.Resume? || l.Fail? || l.List?
    ensures var s' := Next(c, s, l); LiveOk(b, s'.ledger, s'.procs)
  {
    var s' := Next(c, s, l);
    if l.Resume? || l.List? {
      forall p | p in s.procs && OwnedAttempt(s.procs[p]).Some?
        ensures PresumedAttempt(s'.procs[l.pid]) != OwnedAttempt(s.procs[p])
      {
        NoLiveOwnerIsPresumed(b, c, s, l, p);
      }
    }
    LiveMoved(b, s, s.ledger, l.pid, s'.procs[l.pid]);
  }

  lemma LiveStep(b: Budget, c: Config, s: State, l: Label)
    requires Wired(b, c) && Timely(b, s) && Inv(c, s) && LiveOk(b, s.ledger, s.procs) && Enabled(c, s, l)
    ensures var s' := Next(c, s, l); LiveOk(b, s'.ledger, s'.procs)
  {
    match l {
      case Tick(_) =>
      case BeginTx(pid, at) => LiveBegin(b, c, s, pid, at);
      case CloseRetryable(pid) => LiveClose(b, c, s, pid);
      case SettleTx(pid) => LiveSettle(b, c, s, pid);
      case AbandonTx(pid, queryAvailable) => LiveAbandon(b, c, s, pid, queryAvailable);
      case ResolveTx(_, _, _) => LiveResolve(b, c, s, l);
      case _ => LiveQuiet(b, c, s, l);
    }
  }

  lemma {:induction false} LiveRun(b: Budget, c: Config, run: seq<State>, labels: seq<Label>, i: nat)
    requires Wired(b, c) && IsRun(c, run, labels) && i < |run|
    requires forall k :: 0 <= k < i ==> Timely(b, run[k])
    ensures Inv(c, run[i]) && LiveOk(b, run[i].ledger, run[i].procs)
  {
    RunKeeps(c, run, labels, i);
    if i > 0 {
      LiveRun(b, c, run, labels, i - 1);
      LiveStep(b, c, run[i - 1], labels[i - 1]);
    }
  }

  /** In every run in which owners keep their limits, the calls of one tenant and
      key never overlap: while one is begun, running or unsettled, nobody else
      owns an attempt of that key, so nobody else can call. */
  lemma CallsNeverOverlap(b: Budget, c: Config, run: seq<State>, labels: seq<Label>, i: nat, p: nat, q: nat)
    requires Wired(b, c) && IsRun(c, run, labels) && i < |run|
    requires forall k :: 0 <= k < i ==> Timely(b, run[k])
    requires p in run[i].procs && q in run[i].procs && p != q
    requires OwnedAttempt(run[i].procs[p]).Some? && OwnedAttempt(run[i].procs[q]).Some?
    ensures OwnedAttempt(run[i].procs[p]).value.scope != OwnedAttempt(run[i].procs[q]).value.scope
  {
    LiveRun(b, c, run, labels, i);
    var s := run[i];
    OneOwner(s, p, q);
    var a, o := OwnedAttempt(s.procs[p]).value, OwnedAttempt(s.procs[q]).value;
    RowsOkOf(s.ledger, a.scope);
  }

  /** ... and neither a redelivery nor the sweep presumes an attempt whose owner is alive. */
  lemma LiveOwnersAreNotPresumed(b: Budget, c: Config, run: seq<State>, labels: seq<Label>, i: nat, p: nat, q: nat)
    requires Wired(b, c) && IsRun(c, run, labels) && i < |run|
    requires forall k :: 0 <= k < i ==> Timely(b, run[k])
    requires p in run[i].procs && q in run[i].procs && OwnedAttempt(run[i].procs[p]).Some?
    ensures PresumedAttempt(run[i].procs[q]) != OwnedAttempt(run[i].procs[p])
  {
    LiveRun(b, c, run, labels, i);
  }
}
