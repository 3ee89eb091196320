/** The in-memory unit of work, lock by lock: any number of transactions and readers,
    each taking its own small steps, against the serial order of the commits. */
module UnitsOfWork {

  /** Where one call of Within stands. `Unlocking` still holds the transaction lock. */
  datatype Pc<D, W> =
    | Outside
    | Queued
    | Locked
    | Working(start: D, copy: D, writes: seq<W>)
    | Unlocking(ok: bool)

  datatype Transaction<W> = Transaction(pid: nat, writes: seq<W>)

  /** `order` and `observed` only record what happened: the commits in their order, and
      each reader's answer with how many commits came before it. */
  datatype State<D, W> = State(
    data: D,
    failNext: bool,
    withinCalls: nat,
    commits: nat,
    lock: set<nat>,
    pcs: map<nat, Pc<D, W>>,
    order: seq<Transaction<W>>,
    observed: seq<(nat, D)>)

  datatype Label<W> =
    | Enter(pid: nat, cancelled: bool)
    | Acquire(pid: nat)
    | Open(pid: nat, cancelled: bool)
    | Write(pid: nat, write: W)
    | Abort(pid: nat)
    | Commit(pid: nat)
    | Unlock(pid: nat)
    | ReadOutside
    | ArmFailure

  function PcOf<D, W>(s: State<D, W>, pid: nat): Pc<D, W> {
    if pid in s.pcs then s.pcs[pid] else Outside
  }

  function At<D, W>(s: State<D, W>, pid: nat, pc: Pc<D, W>): State<D, W> {
    s.(pcs := s.pcs[pid := pc])
  }

  ghost predicate Enabled<D, W>(s: State<D, W>, l: Label<W>) {
    match l
    case Enter(pid, _) => PcOf(s, pid).Outside?
    case Acquire(pid) => PcOf(s, pid).Queued? && s.lock == {}
    case Open(pid, _) => PcOf(s, pid).Locked?
    case Write(pid, _) => PcOf(s, pid).Working?
    case Abort(pid) => PcOf(s, pid).Working?
    case Commit(pid) => PcOf(s, pid).Working?
    case Unlock(pid) => PcOf(s, pid).Unlocking?
    case ReadOutside => true
    case ArmFailure => true
  }

  /** The context is checked before the wait and again under the lock; the copy is taken
      and installed whole; an armed failure is consumed by the commit it fails. */
  ghost function Next<D, W>(apply: (D, W) -> D, s: State<D, W>, l: Label<W>): State<D, W>
    requires Enabled(s, l)
  {
    match l
    case Enter(pid, cancelled) => if cancelled then s else At(s, pid, Queued)
    case Acquire(pid) => At(s, pid, Locked).(lock := {pid})
    case Open(pid, cancelled) =>
      if cancelled then At(s, pid, Unlocking(false))
      else At(s, pid, Working(s.data, s.data, [])).(withinCalls := s.withinCalls + 1)
    case Write(pid, write) =>
      var pc := PcOf(s, pid);
      At(s, pid, pc.(copy := apply(pc.copy, write), writes := pc.writes + [write]))
    case Abort(pid) => At(s, pid, Unlocking(false))
    case Commit(pid) =>
      var pc := PcOf(s, pid);
      if s.failNext then At(s, pid, Unlocking(false)).(failNext := false)
      else At(s, pid, Unlocking(true)).(data := pc.copy, commits := s.commits + 1,
                                        order := s.order + [Transaction(pid, pc.writes)])
    case Unlock(pid) => At(s, pid, Outside).(lock := {})
    case ReadOutside => s.(observed := s.observed + [(|s.order|, s.data)])
    case ArmFailure => s.(failNext := true)
  }

  /** One transaction as a single step on the data. */
  ghost function Atomically<D, W>(apply: (D, W) -> D, data: D, writes: seq<W>): D {
    if writes == [] then data
    else apply(Atomically(apply, data, writes[..|writes| - 1]), writes[|writes| - 1])
  }

  /** The serial execution of the committed transactions. */
  ghost function Serially<D, W>(apply: (D, W) -> D, data: D, order: seq<Transaction<W>>): D {
    if order == [] then data
    else Atomically(apply, Serially(apply, data, order[..|order| - 1]), order[|order| - 1].writes)
  }

  ghost predicate HoldsLock<D, W>(pc: Pc<D, W>) {
    pc.Locked? || pc.Working? || pc.Unlocking?
  }

  ghost predicate LockOk<D, W>(s: State<D, W>) {
    && |s.lock| <= 1
    && (forall pid :: pid in s.lock ==> pid in s.pcs)
    && (forall pid :: pid in s.pcs ==> (HoldsLock(s.pcs[pid]) <==> pid in s.lock))
  }

  ghost predicate CopyOk<D, W>(apply: (D, W) -> D, s: State<D, W>, pc: Pc<D, W>) {
    pc.Working? ==> pc.start == s.data && pc.copy == Atomically(apply, s.data, pc.writes)
  }

  ghost predicate CopiesOk<D, W>(apply: (D, W) -> D, s: State<D, W>) {
    forall pid :: pid in s.pcs ==> CopyOk(apply, s, s.pcs[pid])
  }

  ghost predicate ReadOk<D, W>(apply: (D, W) -> D, init: D, order: seq<Transaction<W>>, read: (nat, D)) {
    read.0 <= |order| && read.1 == Serially(apply, init, order[..read.0])
  }

  ghost predicate ReadsOk<D, W>(apply: (D, W) -> D, init: D, s: State<D, W>) {
    forall i :: 0 <= i < |s.observed| ==> ReadOk(apply, init, s.order, s.observed[i])
  }

  ghost predicate Inv<D, W>(apply: (D, W) -> D, init: D, s: State<D, W>) {
    && LockOk(s)
    && CopiesOk(apply, s)
    && ReadsOk(apply, init, s)
    && s.data == Serially(apply, init, s.order)
    && s.commits == |s.order|
  }

  lemma LockHeldByOne<D, W>(s: State<D, W>, p: nat, q: nat)
    requires LockOk(s) && p in s.pcs && q in s.pcs && HoldsLock(s.pcs[p]) && HoldsLock(s.pcs[q])
    ensures p == q
  {
    if p != q {
      assert s.lock >= {p, q};
      Subset({p, q}, s.lock);
    }
  }

  lemma {:induction false} Subset(a: set<nat>, b: set<nat>)
    requires a <= b
    ensures |a| <= |b|
  {
    if a != {} {
      var x :| x in a;
      Subset(a - {x}, b - {x});
    }
  }

  lemma LockStep<D, W>(apply: (D, W) -> D, s: State<D, W>, l: Label<W>)
    requires LockOk(s) && Enabled(s, l)
    ensures LockOk(Next(apply, s, l))
  {
    if l.Unlock? {
      forall pid | pid in s.pcs && pid != l.pid ensures !HoldsLock(s.pcs[pid]) {
        if HoldsLock(s.pcs[pid]) {
          LockHeldByOne(s, pid, l.pid);
        }
      }
    }
  }

  lemma WritesSnoc<D, W>(apply: (D, W) -> D, data: D, writes: seq<W>, w: W)
    ensures Atomically(apply, data, writes + [w]) == apply(Atomically(apply, data, writes), w)
  {
    assert (writes + [w])[..|writes|] == writes;
  }

  lemma CopiesStep<D, W>(apply: (D, W) -> D, s: State<D, W>, l: Label<W>)
    requires LockOk(s) && CopiesOk(apply, s) && Enabled(s, l)
    ensures CopiesOk(apply, Next(apply, s, l))
  {
    var t := Next(apply, s, l);
    forall pid | pid in t.pcs ensures CopyOk(apply, t, t.pcs[pid]) {
      if pid in s.pcs {
        assert CopyOk(apply, s, s.pcs[pid]);
        if l.Commit? && pid != l.pid && HoldsLock(s.pcs[pid]) {
          LockHeldByOne(s, pid, l.pid);
        }
        if l.Write? && pid == l.pid {
          WritesSnoc(apply, s.data, s.pcs[pid].writes, l.write);
        }
      }
    }
  }

  lemma CommitIsAtomic<D, W>(apply: (D, W) -> D, init: D, s: State<D, W>, pid: nat)
    requires Inv(apply, init, s) && PcOf(s, pid).Working? && !s.failNext
    ensures var t := Next(apply, s, Commit(pid));
      && t.data == Atomically(apply, s.data, PcOf(s, pid).writes)
      && t.data == Serially(apply, init, t.order)
  {
    var t := Next(apply, s, Commit(pid));
    assert CopyOk(apply, s, s.pcs[pid]);
    assert t.order[..|t.order| - 1] == s.order;
  }

  lemma ReadsStep<D, W>(apply: (D, W) -> D, init: D, s: State<D, W>, l: Label<W>)
    requires Inv(apply, init, s) && Enabled(s, l)
    ensures ReadsOk(apply, init, Next(apply, s, l))
  {
    var t := Next(apply, s, l);
    forall i | 0 <= i < |t.observed| ensures ReadOk(apply, init, t.order, t.observed[i]) {
      if i < |s.observed| {
        assert ReadOk(apply, init, s.order, s.observed[i]);
        assert t.order[..s.observed[i].0] == s.order[..s.observed[i].0];
      } else {
        assert s.order[..|s.order|] == s.order;
      }
    }
  }

  lemma StepKeeps<D, W>(apply: (D, W) -> D, init: D, s: State<D, W>, l: Label<W>)
    requires Inv(apply, init, s) && Enabled(s, l)
    ensures Inv(apply, init, Next(apply, s, l))
  {
    LockStep(apply, s, l);
    CopiesStep(apply, s, l);
    ReadsStep(apply, init, s, l);
    if l.Commit? && !s.failNext {
      CommitIsAtomic(apply, init, s, l.pid);
    }
  }

  ghost predicate IsRun<D, W>(apply: (D, W) -> D, states: seq<State<D, W>>, labels: seq<Label<W>>) {
    && |states| == |labels| + 1
    && forall i :: 0 <= i < |labels| ==> Enabled(states[i], labels[i]) && states[i + 1] == Next(apply, states[i], labels[i])
  }

  ghost function Start<D, W>(init: D): State<D, W> {
    State(init, false, 0, 0, {}, map[], [], [])
  }

  /** In every interleaving of transactions and readers, the store is what its committed
      transactions leave when each runs alone, in commit order; every reader saw the
      store between two of them; and an aborted, cancelled or failed one left nothing. */
  lemma {:induction false} RunIsSerial<D, W>(apply: (D, W) -> D, init: D, states: seq<State<D, W>>, labels: seq<Label<W>>, n: nat)
    requires IsRun(apply, states, labels) && states[0] == Start(init) && n <= |labels|
    ensures states[n].data == Serially(apply, init, states[n].order)
    ensures forall i :: 0 <= i < |states[n].observed| ==> ReadOk(apply, init, states[n].order, states[n].observed[i])
    ensures Inv(apply, init, states[n])
  {
    if n > 0 {
      RunIsSerial(apply, init, states, labels, n - 1);
      StepKeeps(apply, init, states[n - 1], labels[n - 1]);
    }
  }

  /** Only a commit that is not armed to fail changes the data, and it adds exactly its
      own transaction to the order. */
  lemma OnlyCommitsChangeTheData<D, W>(apply: (D, W) -> D, init: D, s: State<D, W>, l: Label<W>)
    requires Inv(apply, init, s) && Enabled(s, l)
    ensures var t := Next(apply, s, l);
      if l.Commit? && !s.failNext then
        t.order == s.order + [Transaction(l.pid, PcOf(s, l.pid).writes)] && t.data == Atomically(apply, s.data, PcOf(s, l.pid).writes)
      else t.order == s.order && t.data == s.data
  {
    if l.Commit? && !s.failNext {
      CommitIsAtomic(apply, init, s, l.pid);
    }
  }
}
