/** Dispatch, Abandon and Resolve as the calls they are, over one store: each
    transaction works on copies and installs them only when it commits, and every
    call is a run of the protocol's steps. */
module DispatchCalls {
  import opened Ports
  import opened AttemptRows
  import opened MemoryLedgers
  import opened NextSteps
  import opened Inboxes
  import opened DispatchProtocol

  /** `labels` leads from `s` to `t`. */
  ghost predicate Leads(c: Config, s: State, labels: seq<Label>, t: State)
    decreases |labels|
  {
    if |labels| == 0 then s == t
    else Enabled(c, s, labels[0]) && Leads(c, Next(c, s, labels[0]), labels[1..], t)
  }

  lemma {:induction false} LeadsOn(c: Config, s: State, labels: seq<Label>, t: State, l: Label)
    requires Leads(c, s, labels, t) && Enabled(c, t, l)
    ensures Leads(c, s, labels + [l], Next(c, t, l))
    decreases |labels|
  {
    if |labels| == 0 {
      assert Leads(c, Next(c, s, l), [], Next(c, t, l));
      assert ([] + [l])[1..] == [];
    } else {
      LeadsOn(c, Next(c, s, labels[0]), labels[1..], t, l);
      assert (labels + [l])[1..] == labels[1..] + [l];
    }
  }

  /** The clock moves on, and then the step is taken. */
  ghost function StepAt(c: Config, s: State, to: Instant, l: Label): State
    requires s.now <= to && Enabled(c, s.(now := to), l)
  {
    Next(c, s.(now := to), l)
  }

  lemma LeadsAt(c: Config, s: State, labels: seq<Label>, t: State, to: Instant, l: Label)
    requires Leads(c, s, labels, t) && t.now <= to && Enabled(c, t.(now := to), l)
    ensures Leads(c, s, labels + [Tick(to), l], StepAt(c, t, to, l))
  {
    LeadsOn(c, s, labels, t, Tick(to));
    LeadsOn(c, s, labels + [Tick(to)], t.(now := to), l);
    assert labels + [Tick(to)] + [l] == labels + [Tick(to), l];
  }

  lemma {:induction false} LeadsTrans(c: Config, s: State, first: seq<Label>, t: State, second: seq<Label>, u: State)
    requires Leads(c, s, first, t) && Leads(c, t, second, u)
    ensures Leads(c, s, first + second, u)
    decreases |first|
  {
    if |first| == 0 {
      assert first + second == second;
    } else {
      LeadsTrans(c, Next(c, s, first[0]), first[1..], t, second, u);
      assert (first + second)[1..] == first[1..] + second;
    }
  }

  function DispositionOf(r: Reception): Disposition {
    match r
    case FirstReception(_, _, _) => R1D1
    case ProcessedReception(_) => R2
    case RejectedReception(_) => R3
    case CollisionReception => R4
  }

  /** The close to record: one, exactly when the ledger took the outcome. */
  function ClosedBy(req: Request, s: Settlement, r: Result<Finished, LedgerError>): seq<ClosedAttempt> {
    if r.Ok? && r.value.result == FinishRecorded then [ClosedAttempt(s.attempt.scope, s.attempt.n, MessageKey(req.receipt))] else []
  }

  /** The instants one delivery reads: for Begin, when Begin runs, for the call or the
      stale test, at the answer, for the close on its own, and for the settlement. */
  datatype Instants = Instants(read: Instant, begun: Instant, acted: Instant, replied: Instant, closed: Instant, settled: Instant)
  {
    predicate Ordered() {
      read <= begun <= acted <= replied <= closed <= settled
    }
  }

  /** A delivery that has something to settle goes on; any other is over. */
  function Awaiting(req: Request, settlement: Option<Settlement>, timing: Timing): Pc {
    match settlement
    case Some(st) => Settling(req, st, timing)
    case None => Returned
  }

  class ExternalStore {
    var ledger: Ledger
    var inbox: InboxRows
    var submits: seq<Submission>
    var steps: seq<AppliedStep>
    var closed: seq<ClosedAttempt>

    /** The store holds what the protocol state holds. */
    ghost predicate Holds(s: State)
      reads this
    {
      ledger == s.ledger && inbox == s.inbox && submits == s.submits && steps == s.steps && closed == s.closed
    }

    /** The attempt of a message already registered is closed on its own, without a step. */
    method CloseUnderEntry(req: Request, s: Settlement, now: Instant) returns (ok: bool)
      modifies this
      ensures inbox == old(inbox) && submits == old(submits) && steps == old(steps)
      ensures var (after, r) := FinishIn(old(ledger), req.caller, OutcomeOf(req, s, now));
        && ok == r.Ok?
        && ledger == (if ok then after else old(ledger))
        && closed == old(closed) + ClosedBy(req, s, r)
    {
      var rows := new MemoryLedger();
      rows.attempts := ledger;
      var finished := rows.Finish(req.caller, OutcomeOf(req, s, now));
      if finished.Err? {
        assert closed == closed + [];
        return false;
      }
      if finished.value.result == FinishRecorded {
        closed := closed + [ClosedAttempt(s.attempt.scope, s.attempt.n, InboxKey(req.receipt.consumer, req.receipt.message))];
      } else {
        assert closed == closed + [];
      }
      ledger := rows.attempts;
      return true;
    }

    /** The settlement's transaction: register, finish, apply and complete, or none of it. */
    method Settle(c: Config, req: Request, s: Settlement, now: Instant) returns (disposition: Option<Disposition>)
      modifies this
      ensures submits == old(submits)
      ensures match SettleIn(c, old(ledger), old(inbox), req, s, now)
        case None => disposition.None? && ledger == old(ledger) && inbox == old(inbox) && steps == old(steps) && closed == old(closed)
        case Some(tx) =>
          && ledger == tx.ledger && inbox == tx.inbox && steps == old(steps) + tx.steps && closed == old(closed) + tx.closed
          && var r := RegisterIn(old(inbox), req.receipt.consumer, false, req.caller, req.receipt);
             r.Ok? && disposition == Some(DispositionOf(r.value))
      ensures disposition.Some? ==> MessageKey(req.receipt) in inbox
    {
      var rows := new MemoryLedger();
      rows.attempts := ledger;
      var box := new TxInbox(inbox, req.receipt.consumer, false);
      var reception := box.Register(req.caller, req.receipt);
      if reception.Err? {
        return None;
      }
      match reception.value {
        case FirstReception(_, _, _) =>
          var pending := new TxPending(box, reception.value);
          var finished := rows.Finish(req.caller, OutcomeOf(req, s, now));
          if finished.Err? {
            return None;
          }
          var applied := [];
          if finished.value.result == FinishRecorded {
            applied := [AppliedStep(ByDispatch(reception.value.key), s.attempt.scope, s.attempt.n, s.cls, s.observation.finding,
                                    NextStep(s.cls, s.observation.finding, c.profile, req.queryAvailable, 0))];
          }
          var incomplete := pending.Complete(Completion(StatusProcessed, "", []));
          if incomplete.Some? {
            return None;
          }
          ledger, inbox, steps := rows.attempts, box.rows, steps + applied;
          assert closed == closed + [];
          return Some(R1D1);
        case _ =>
          assert steps == steps + [] && closed == closed + [];
          if s.owned {
            var ok := CloseUnderEntry(req, s, now);
            if !ok {
              return None;
            }
          }
          return Some(DispositionOf(reception.value));
      }
    }

    /** Begin, in a transaction of its own, at the instant read before it. */
    method BeginTransaction(c: Config, req: Request, read: Instant, pid: nat, ghost s: State)
      returns (start: Result<AttemptStart, LedgerError>, ghost t: State)
      requires Holds(s) && read <= s.now && pid in s.procs && s.procs[pid] == Ready(req)
      modifies this
      ensures t == Next(c, s, BeginTx(pid, read)) && Holds(t) && t.now == s.now
      ensures t.procs == s.procs[pid := AfterBegin(req, start)]
    {
      var rows := new MemoryLedger();
      rows.attempts := ledger;
      start := rows.Begin(req.caller, req.key, req.receipt.message, read);
      ledger := rows.attempts;
      t := Next(c, s, BeginTx(pid, read));
    }

    /** A retryable outcome's own close, in a transaction of its own; only a class
        recorded meanwhile goes on to settle. */
    method CloseTransaction(c: Config, req: Request, st: Settlement, now: Instant, pid: nat, ghost timing: Timing, ghost s: State)
      returns (settlement: Option<Settlement>, ghost t: State)
      requires Holds(s) && s.now == now && pid in s.procs && s.procs[pid] == Closing(req, st, timing)
      modifies this
      ensures t == Next(c, s, CloseRetryable(pid)) && Holds(t) && t.now == now
      ensures t.procs == s.procs[pid := Awaiting(req, settlement, timing)]
    {
      var rows := new MemoryLedger();
      rows.attempts := ledger;
      var finished := rows.Finish(req.caller, OutcomeOf(req, st, now));
      ledger := rows.attempts;
      t := Next(c, s, CloseRetryable(pid));
      if finished.Ok? && finished.value.result != FinishRecorded && !finished.value.recorded.Retryable() {
        return Some(st.(cls := finished.value.recorded)), t;
      }
      return None, t;
    }

    /** The call to the partner, outside any transaction, and what its answer leaves
        to settle; each reading of the clock is its own. */
    method Submit(c: Config, req: Request, a: Attempt, reply: (ExternalClass, Observation), at: Instants, pid: nat, ghost s: State)
      returns (settlement: Option<Settlement>, ghost labels: seq<Label>, ghost t: State)
      requires Holds(s) && s.now <= at.acted && at.Ordered() && pid in s.procs && s.procs[pid] == Began(req, a)
      modifies this
      ensures Holds(t) && Leads(c, s, labels, t) && t.now <= at.closed
      ensures t.procs == s.procs[pid := Awaiting(req, settlement, Called(at.acted, at.replied))]
    {
      submits := submits + [Submission(pid, a.scope, a.n, req.receipt.message)];
      labels, t := [], s;
      LeadsAt(c, s, labels, t, at.acted, Call(pid));
      labels, t := labels + [Tick(at.acted), Call(pid)], StepAt(c, t, at.acted, Call(pid));
      LeadsAt(c, s, labels, t, at.replied, Reply(pid, reply.0, reply.1));
      labels, t := labels + [Tick(at.replied), Reply(pid, reply.0, reply.1)], StepAt(c, t, at.replied, Reply(pid, reply.0, reply.1));
      var (cls, observation) := reply;
      if cls == ClassNone {
        cls := ClassUnknownAmbiguous;
      }
      var st := Settlement(a, cls, observation, true, false);
      if !cls.Retryable() {
        return Some(st), labels, t;
      }
      LeadsAt(c, s, labels, t, at.closed, CloseRetryable(pid));
      labels := labels + [Tick(at.closed), CloseRetryable(pid)];
      settlement, t := CloseTransaction(c, req, st, at.closed, pid, Called(at.acted, at.replied), t.(now := at.closed));
    }

    /** What a delivery settles after Begin: its own call's outcome, the presumption
        of an owner past its cut, the class already recorded, or nothing yet. */
    method Outcome(c: Config, req: Request, start: AttemptStart, reply: (ExternalClass, Observation), at: Instants, pid: nat, ghost s: State)
      returns (settlement: Option<Settlement>, ghost timing: Timing, ghost labels: seq<Label>, ghost t: State)
      requires Holds(s) && s.now <= at.acted && at.Ordered() && pid in s.procs && s.procs[pid] == AfterBegin(req, Ok(start))
      modifies this
      ensures Holds(t) && Leads(c, s, labels, t) && t.now <= at.closed
      ensures t.procs == s.procs[pid := Awaiting(req, settlement, timing)]
    {
      timing := NoCall;
      match start {
        case StartedAttempt(a) =>
          settlement, labels, t := Submit(c, req, a, reply, at, pid, s);
          timing := Called(at.acted, at.replied);
        case PendingAttempt(a) =>
          LeadsAt(c, s, [], s, at.acted, Resume(pid));
          labels, t := [] + [Tick(at.acted), Resume(pid)], StepAt(c, s, at.acted, Resume(pid));
          settlement := if at.acted - a.startedAt < c.staleAfter then None
                        else Some(Settlement(a, ClassUnknownSent, NO_OBSERVATION, true, true));
        case DoneAttempt(a, cls) =>
          t, labels := s, [];
          settlement := Some(Settlement(a, cls, NO_OBSERVATION, false, false));
      }
    }

    method SettleTransaction(c: Config, req: Request, st: Settlement, now: Instant, pid: nat, ghost timing: Timing, ghost s: State)
      returns (disposition: Option<Disposition>, ghost t: State)
      requires Holds(s) && s.now == now && pid in s.procs && s.procs[pid] == Settling(req, st, timing)
      modifies this
      ensures t == Next(c, s, SettleTx(pid)) && Holds(t) && t.procs == s.procs[pid := Returned]
      ensures disposition.Some? ==> MessageKey(req.receipt) in inbox
    {
      disposition := Settle(c, req, st, now);
      t := Next(c, s, SettleTx(pid));
    }

    /** What follows Begin, to the end of the delivery. */
    method Conclude(c: Config, req: Request, start: AttemptStart, reply: (ExternalClass, Observation), at: Instants, pid: nat, ghost s: State)
      returns (disposition: Option<Disposition>, ghost labels: seq<Label>, ghost t: State)
      requires Holds(s) && s.now <= at.acted && at.Ordered() && pid in s.procs && s.procs[pid] == AfterBegin(req, Ok(start))
      modifies this
      ensures Holds(t) && Leads(c, s, labels, t) && t.procs == s.procs[pid := Returned]
      ensures disposition.Some? ==> MessageKey(req.receipt) in inbox
    {
      var settlement;
      ghost var timing;
      settlement, timing, labels, t := Outcome(c, req, start, reply, at, pid, s);
      if settlement.None? {
        return None, labels, t;
      }
      LeadsAt(c, s, labels, t, at.settled, SettleTx(pid));
      labels := labels + [Tick(at.settled), SettleTx(pid)];
      disposition, t := SettleTransaction(c, req, settlement.value, at.settled, pid, timing, t.(now := at.settled));
    }

    /** One whole dispatch with no other caller in between, each of its readings of the
        clock later than or equal to the one before. `reply` is what the partner answers
        if it is called. */
    method Dispatch(c: Config, req: Request, reply: (ExternalClass, Observation), at: Instants, pid: nat, ghost s: State)
      returns (disposition: Option<Disposition>, ghost labels: seq<Label>, ghost t: State)
      requires Holds(s) && s.now <= at.read && at.Ordered() && Enabled(c, s, Arrive(pid, req))
      modifies this
      ensures Holds(t) && Leads(c, s, labels, t)
      ensures t.procs == s.procs[pid := Returned]
      ensures disposition.Some? ==> MessageKey(req.receipt) in inbox
    {
      LeadsAt(c, s, [], s, at.read, Arrive(pid, req));
      labels, t := [] + [Tick(at.read), Arrive(pid, req)], StepAt(c, s, at.read, Arrive(pid, req));
      LeadsAt(c, s, labels, t, at.begun, BeginTx(pid, at.read));
      labels := labels + [Tick(at.begun), BeginTx(pid, at.read)];
      var start;
      start, t := BeginTransaction(c, req, at.read, pid, t.(now := at.begun));
      if start.Err? {
        return None, labels, t;
      }
      ghost var more, u;
      disposition, more, u := Conclude(c, req, start.value, reply, at, pid, t);
      LeadsTrans(c, s, labels, t, more, u);
      labels, t := labels + more, u;
    }

    /** Closing a stale attempt on its dead owner's behalf. */
    method Abandon(c: Config, a: Attempt, queryAvailable: bool, now: Instant) returns (r: Result<Finished, LedgerError>)
      modifies this
      ensures ledger == AbandonIn(c, old(ledger), a, queryAvailable, now).0
      ensures steps == old(steps) + AbandonIn(c, old(ledger), a, queryAvailable, now).1
      ensures r == FinishIn(old(ledger), OfTenant(a.scope.tenant), PresumedOutcome(a, now)).1
      ensures inbox == old(inbox) && submits == old(submits) && closed == old(closed)
    {
      var rows := new MemoryLedger();
      rows.attempts := ledger;
      r := rows.Finish(OfTenant(a.scope.tenant), AttemptOutcome(a.scope.key, a.n, ClassUnknownSent, NO_OBSERVATION, now, true));
      if r.Err? || r.value.result != FinishRecorded {
        ledger := rows.attempts;
        assert steps == steps + [];
        return;
      }
      var step := NextStep(ClassUnknownSent, FindingNone, c.profile, queryAvailable, 0);
      ledger, steps := rows.attempts, steps + [AppliedStep(ByAbandon, a.scope, a.n, ClassUnknownSent, FindingNone, step)];
    }

    /** Recording one observation of the partner's state, and its step. */
    method Resolve(c: Config, caller: Caller, o: Observation, queryAvailable: bool, now: Instant) returns (r: Result<Observed, LedgerError>)
      modifies this
      ensures ledger == ResolveIn(c, old(ledger), caller, o, queryAvailable, now).0
      ensures steps == old(steps) + ResolveIn(c, old(ledger), caller, o, queryAvailable, now).1
      ensures r == ObserveIn(old(ledger), caller, o, now).1
      ensures inbox == old(inbox) && submits == old(submits) && closed == old(closed)
    {
      var rows := new MemoryLedger();
      rows.attempts := ledger;
      r := rows.Observe(caller, o, now);
      if r.Err? || r.value.result != ObserveRecorded {
        ledger := rows.attempts;
        assert steps == steps + [];
        return;
      }
      var step := NextStep(r.value.cls, o.finding, c.profile, queryAvailable, r.value.queriesDone);
      ledger := rows.attempts;
      steps := steps + [AppliedStep(ByResolve, Scope(caller.tenant, o.key), r.value.n, r.value.cls, o.finding, step)];
    }
  }
}
