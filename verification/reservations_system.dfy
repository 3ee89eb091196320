/** The reservations consumer as a whole: one partition's log, any number of workers
    over it (a crashed or superseded one may still be running), the adapter's steps,
    the transactions, the quarantine, and the broker's committed offset. */
module ReservationsSystem {
  import opened Dispositions
  import opened Ports
  import opened ExternalProfiles
  import opened ExternalBudgets
  import opened OutcomeCodecs
  import opened Inboxes
  import opened IdempotentCommands
  import opened IdempotentLaws
  import opened MemoryTables
  import opened Reservations
  import opened ConsumerAdapters
  import opened KafkaCursors
  import opened PartitionWorkers
  import Worker = WorkerRuns

  /** What the handler reads of an admitted message, and the hash its receipt carries. */
  datatype Config = Config(
    worker: Worker.Config,
    setup: Setup,
    decode: seq<byte> -> Option<Envelope>,
    placed: seq<byte> -> Option<(OrderID, int64)>,
    hash: seq<byte> -> string,
    bound: string,
    reserving: Executor<Reserved>,
    cancelling: Executor<Freed>)

  /** Where the adapter stands with the delivery its worker handed it. */
  datatype Step = Idle | ToKeep(reason: Reason) | Done(g: Gesture)

  /** One worker's life on the partition: it reads from the offset that was committed
      when it was assigned. */
  datatype Session = Session(start: nat, run: Worker.State, step: Step)

  /** `sent` holds every offset a commit was ever requested for: the broker may apply
      any of them at any time, in any order, or never. */
  datatype State = State(
    log: seq<Record>,
    committed: nat,
    sent: set<nat>,
    sessions: map<nat, Session>,
    store: Store<Books>,
    kept: seq<Contained>)

  datatype Label =
    | Produce(record: Record)
    | Assign(sid: nat)
    | Crash(sid: nat)
    | Fetch(sid: nat)
    | Work(sid: nat, l: Worker.Label)
    | Look(sid: nat)
    | Handle(sid: nat, now: Instant, message: MessageID, commits: bool, reported: Option<Disposition>)
    | Keep(sid: nat, ok: bool)
    | Return(sid: nat)
    | CommitArrives(offset: nat)
    | ReserveCommand(reserve: Call<Books, Reserved>)
    | CancelCommand(cancel: Call<Books, Freed>)

  ghost const EMPTY := State([], 0, {}, map[], Store(map[], Books(map[], [])), [])

  // --- Steps --------------------------------------------------------------------------------

  ghost predicate Delivering(s: State, sid: nat) {
    && sid in s.sessions
    && s.sessions[sid].run.pc.InSink?
    && s.sessions[sid].start + s.sessions[sid].run.pc.i < |s.log|
  }

  ghost function RawOf(s: State, sid: nat): seq<byte>
    requires Delivering(s, sid)
  {
    s.log[s.sessions[sid].start + s.sessions[sid].run.pc.i].value
  }

  ghost function VerdictOf(c: Config, s: State, sid: nat): Verdict
    requires Delivering(s, sid)
  {
    Judged(c.setup, c.decode, RawOf(s, sid))
  }

  function CallerOf(e: Envelope): Caller {
    match e.tenant
    case None => PlatformChain
    case Some(tenant) => OfTenant(tenant)
  }

  function ReceiptOf(c: Config, e: Envelope, now: Instant): Receipt {
    Receipt(c.setup.name, e.id, c.hash(e.payload), now, 0)
  }

  /** The consumption's transaction; a payload the handler cannot read fails before it. */
  function ConsumeMessage(c: Config, s: Store<Books>, e: Envelope, now: Instant, message: MessageID): Result<(Store<Books>, Disposition), Fault> {
    match c.placed(e.payload)
    case None => Err(Declared(false))
    case Some((order, items)) =>
      ConsumeIn(s, c.bound, CallerOf(e), ReceiptOf(c, e, now), order, Reserve(items, now), message)
  }

  /** The store after the handler: its transaction committed, or nothing happened. */
  function StoreAfter(c: Config, s: Store<Books>, e: Envelope, now: Instant, message: MessageID, commits: bool): Store<Books> {
    match ConsumeMessage(c, s, e, now, message)
    case Err(_) => s
    case Ok(done) => if commits then done.0 else s
  }

  /** What the handler may answer: the disposition its transaction committed with, or
      a failure whatever happened, even after a commit; or no disposition at all. */
  ghost predicate MayReport(c: Config, s: Store<Books>, e: Envelope, now: Instant, message: MessageID, commits: bool, reported: Option<Disposition>) {
    || reported in {None, Some(R1D3), Some(R1D4)}
    || (commits && match ConsumeMessage(c, s, e, now, message)
        case Err(_) => false
        case Ok(done) => reported == Some(done.1))
  }

  function StepOf(e: Effect): Step {
    match e
    case DoAck => Done(Acked)
    case DoRelease => Done(Released)
    case DoNothing => Done(Undecided)
    case DoContain(reason) => ToKeep(reason)
  }

  /** The broker hands a worker the record after its last one. */
  ghost predicate CanFetch(log: seq<Record>, w: Session) {
    && w.start + |w.run.enqueued| < |log|
    && Worker.Enabled(w.run, Worker.Enqueue(log[w.start + |w.run.enqueued|]))
  }

  ghost function Fetched(c: Config, log: seq<Record>, w: Session): Session
    requires CanFetch(log, w)
  {
    w.(run := Worker.Next(c.worker, w.run, Worker.Enqueue(log[w.start + |w.run.enqueued|])))
  }

  ghost predicate Enabled(c: Config, s: State, l: Label) {
    match l
    case Produce(record) => |s.log| > 0 ==> s.log[|s.log| - 1].offset < record.offset
    case Assign(sid) => sid !in s.sessions
    case Crash(sid) => sid in s.sessions
    case Fetch(sid) => sid in s.sessions && CanFetch(s.log, s.sessions[sid])
    case Work(sid, wl) =>
      sid in s.sessions && !wl.Enqueue? && !wl.Return? && Worker.Enabled(s.sessions[sid].run, wl)
    case Look(sid) => Delivering(s, sid) && s.sessions[sid].step.Idle? && !VerdictOf(c, s, sid).Admit?
    case Handle(sid, now, message, commits, reported) =>
      && Delivering(s, sid) && s.sessions[sid].step.Idle? && VerdictOf(c, s, sid).Admit?
      && MayReport(c, s.store, VerdictOf(c, s, sid).envelope, now, message, commits, reported)
    case Keep(sid, _) => Delivering(s, sid) && s.sessions[sid].step.ToKeep?
    case Return(sid) => Delivering(s, sid) && s.sessions[sid].step.Done? && Worker.Enabled(s.sessions[sid].run, Worker.Return(s.sessions[sid].step.g))
    case CommitArrives(offset) => offset in s.sent
    case ReserveCommand(call) => c.reserving.bound == COMMAND_CONSUMER && IsReserve(call)
    case CancelCommand(call) => c.cancelling.bound == COMMAND_CONSUMER && IsCancel(call)
  }

  /** The commands of this context: each runs one decision. */
  ghost predicate IsReserve(call: Call<Books, Reserved>) {
    exists order: OrderID, items: int64, message: MessageID :: call.run == ReserveRun(call.caller, order, items, call.now, message)
  }

  ghost predicate IsCancel(call: Call<Books, Freed>) {
    exists order: OrderID, message: MessageID :: call.run == CancelRun(call.caller, order, call.now, message)
  }

  ghost function At(s: State, sid: nat, w: Session): State {
    s.(sessions := s.sessions[sid := w])
  }

  /** The commits a worker step requests, as offsets of the partition. */
  ghost function Requested(start: nat, before: Worker.State, after: Worker.State): set<nat> {
    if |after.commits| > |before.commits| then {start + after.commits[|after.commits| - 1]} else {}
  }

  ghost function WorkedOn(c: Config, w: Session, wl: Worker.Label): Session
    requires Worker.Enabled(w.run, wl)
  {
    var after := Worker.Next(c.worker, w.run, wl);
    w.(run := after, step := if after.pc == w.run.pc then w.step else Idle)
  }

  ghost function Worked(c: Config, s: State, sid: nat, wl: Worker.Label): State
    requires sid in s.sessions && Worker.Enabled(s.sessions[sid].run, wl)
  {
    var w := s.sessions[sid];
    At(s, sid, WorkedOn(c, w, wl)).(sent := s.sent + Requested(w.start, w.run, Worker.Next(c.worker, w.run, wl)))
  }

  ghost function Looked(c: Config, s: State, sid: nat): Step
    requires Delivering(s, sid)
  {
    match VerdictOf(c, s, sid)
    case Contain(reason) => ToKeep(reason)
    case Discard => Done(Acked)
    case _ => Done(Undecided)
  }

  ghost function Next(c: Config, s: State, l: Label): State
    requires Enabled(c, s, l)
  {
    match l
    case Produce(record) => s.(log := s.log + [record])
    case Assign(sid) => At(s, sid, Session(s.committed, Worker.FRESH, Idle))
    case Crash(sid) => s.(sessions := s.sessions - {sid})
    case Fetch(sid) => At(s, sid, Fetched(c, s.log, s.sessions[sid]))
    case Work(sid, wl) => Worked(c, s, sid, wl)
    case Look(sid) => At(s, sid, s.sessions[sid].(step := Looked(c, s, sid)))
    case Handle(sid, now, message, commits, reported) =>
      var w := s.sessions[sid];
      At(s, sid, w.(step := StepOf(EffectOf(c.setup.maxAttempts, w.run.pc.attempt, reported))))
        .(store := StoreAfter(c, s.store, VerdictOf(c, s, sid).envelope, now, message, commits))
    case Keep(sid, ok) =>
      var w := s.sessions[sid];
      if ok then At(s, sid, w.(step := Done(Acked))).(kept := s.kept + [Contained(c.setup.name, RawOf(s, sid), w.step.reason)])
      else At(s, sid, w.(step := Done(Undecided)))
    case Return(sid) => Worked(c, s, sid, Worker.Return(s.sessions[sid].step.g))
    case CommitArrives(offset) => s.(committed := offset)
    case ReserveCommand(call) => s.(store := ExecuteIn(c.reserving, s.store, call).0)
    case CancelCommand(call) => s.(store := ExecuteIn(c.cancelling, s.store, call).0)
  }

  // --- The invariant ----------------------------------------------------------------------------

  ghost predicate KeptByteForByte(kept: seq<Contained>, raw: seq<byte>) {
    exists i :: 0 <= i < |kept| && kept[i].raw == raw
  }

  /** The inbox holds this very message, under this very content, for good. */
  ghost predicate Registered(c: Config, s: Store<Books>, e: Envelope) {
    var key := InboxKey(c.bound, e.id);
    key in s.rows && s.rows[key].hash == c.hash(e.payload) && s.rows[key].expiresAt == 0
  }

  /** What became of one record of the log. */
  ghost predicate Settled(c: Config, s: Store<Books>, kept: seq<Contained>, raw: seq<byte>) {
    || KeptByteForByte(kept, raw)
    || Judged(c.setup, c.decode, raw).Discard?
    || (Judged(c.setup, c.decode, raw).Admit? && Registered(c, s, Judged(c.setup, c.decode, raw).envelope))
  }

  ghost predicate SettledUpTo(c: Config, s: State, n: nat) {
    n <= |s.log| && forall i :: 0 <= i < n ==> Settled(c, s.store, s.kept, s.log[i].value)
  }

  ghost predicate SessionOk(c: Config, s: State, w: Session) {
    Worker.Inv(c.worker, w.run) && OnLog(c, s, w)
  }

  /** The session reads the log from its start in order, and what it counts as
      acknowledged, or is about to, is settled there. */
  ghost predicate OnLog(c: Config, s: State, w: Session) {
    && w.start + |w.run.enqueued| <= |s.log|
    && w.run.enqueued == s.log[w.start..w.start + |w.run.enqueued|]
    && SettledUpTo(c, s, w.start + w.run.acks)
    && (!w.step.Idle? ==> w.run.pc.InSink?)
    && (w.step == Done(Acked) && w.run.pc.InSink? ==> SettledUpTo(c, s, w.start + w.run.acks + 1))
    && (w.run.pc.Judging? && w.run.pc.g == Acked ==> SettledUpTo(c, s, w.start + w.run.acks + 1))
  }

  ghost predicate SessionsOk(c: Config, s: State) {
    forall sid :: sid in s.sessions ==> SessionOk(c, s, s.sessions[sid])
  }

  ghost predicate LogOk(log: seq<Record>) {
    forall i, j :: 0 <= i < j < |log| ==> log[i].offset < log[j].offset
  }

  ghost predicate SentOk(c: Config, s: State) {
    forall offset :: offset in s.sent ==> SettledUpTo(c, s, offset)
  }

  /** Messages and commands never share an entry: their consumers differ. */
  ghost predicate Wired(c: Config) {
    c.worker.limit >= 1 && c.worker.capacity >= 1 && c.bound != COMMAND_CONSUMER
  }

  ghost predicate MessagesStay(c: Config, s: Store<Books>) {
    forall key :: key in s.rows && key.consumer == c.bound ==> s.rows[key].expiresAt == 0
  }

  /** Everything committed, requested or acknowledged is settled. */
  ghost predicate Progress(c: Config, s: State) {
    && SettledUpTo(c, s, s.committed)
    && SentOk(c, s)
    && SessionsOk(c, s)
  }

  ghost predicate Inv(c: Config, s: State) {
    && LogOk(s.log)
    && Progress(c, s)
    && MessagesStay(c, s.store)
    && BooksOk(s.store.data)
  }

  // --- What only grows -----------------------------------------------------------------------------

  /** No message's entry is lost or rewritten. */
  ghost predicate Grows(c: Config, s: Store<Books>, t: Store<Books>) {
    forall key :: key in s.rows && key.consumer == c.bound ==> key in t.rows && t.rows[key] == s.rows[key]
  }

  lemma SettledStays(c: Config, s: Store<Books>, kept: seq<Contained>, t: Store<Books>, kept': seq<Contained>, raw: seq<byte>)
    requires Settled(c, s, kept, raw) && Grows(c, s, t) && kept <= kept'
    ensures Settled(c, t, kept', raw)
  {
    if KeptByteForByte(kept, raw) {
      var i :| 0 <= i < |kept| && kept[i].raw == raw;
      assert kept'[i].raw == raw;
    }
  }

  ghost predicate Extends(c: Config, s: State, t: State) {
    s.log <= t.log && s.kept <= t.kept && Grows(c, s.store, t.store)
  }

  lemma SettledUpToStays(c: Config, s: State, t: State, n: nat)
    requires SettledUpTo(c, s, n) && Extends(c, s, t)
    ensures SettledUpTo(c, t, n)
  {
    forall i | 0 <= i < n ensures Settled(c, t.store, t.kept, t.log[i].value) {
      SettledStays(c, s.store, s.kept, t.store, t.kept, s.log[i].value);
    }
  }

  lemma SessionStays(c: Config, s: State, t: State, w: Session)
    requires SessionOk(c, s, w) && Extends(c, s, t)
    ensures SessionOk(c, t, w)
  {
    OnLogStays(c, s, t, w);
  }

  lemma OnLogStays(c: Config, s: State, t: State, w: Session)
    requires OnLog(c, s, w) && Extends(c, s, t)
    ensures OnLog(c, t, w)
  {
    SettledUpToStays(c, s, t, w.start + w.run.acks);
    if (w.step == Done(Acked) && w.run.pc.InSink?) || (w.run.pc.Judging? && w.run.pc.g == Acked) {
      SettledUpToStays(c, s, t, w.start + w.run.acks + 1);
    }
    assert s.log[w.start..w.start + |w.run.enqueued|] == t.log[w.start..w.start + |w.run.enqueued|];
  }

  /** A step that changes at most one session keeps the rest of the state sound. */
  lemma OthersStay(c: Config, s: State, t: State, sids: set<nat>)
    requires Progress(c, s) && Extends(c, s, t)
    requires t.committed == s.committed && t.sent == s.sent
    requires forall sid :: sid in t.sessions && sid !in sids ==> sid in s.sessions && t.sessions[sid] == s.sessions[sid]
    requires forall sid :: sid in t.sessions && sid in sids ==> SessionOk(c, t, t.sessions[sid])
    ensures Progress(c, t)
  {
    SettledUpToStays(c, s, t, s.committed);
    forall offset | offset in t.sent ensures SettledUpTo(c, t, offset) {
      SettledUpToStays(c, s, t, offset);
    }
    forall sid | sid in t.sessions ensures SessionOk(c, t, t.sessions[sid]) {
      if sid !in sids {
        SessionStays(c, s, t, s.sessions[sid]);
      }
    }
  }

  // --- The handler and the commands -------------------------------------------------------------------

  /** The consumption keeps every message's entry, adds its own, and keeps the books. */
  lemma ConsumeGrows(c: Config, s: Store<Books>, e: Envelope, now: Instant, message: MessageID)
    requires MessagesStay(c, s) && BooksOk(s.data) && ConsumeMessage(c, s, e, now, message).Ok?
    ensures var (t, done) := ConsumeMessage(c, s, e, now, message).value;
      && Grows(c, s, t) && MessagesStay(c, t) && BooksOk(t.data)
      && (done in {R1D1, R1D2, R2, R3} ==> Registered(c, t, e))
  {
    var (order, items) := c.placed(e.payload).value;
    var r := ReceiptOf(c, e, now);
    if RegisterIn(s.rows, c.bound, false, CallerOf(e), r).value.FirstReception? {
      DecisionKeepsBooks(s.data, CallerOf(e), order, Reserve(items, now), message);
    }
  }

  lemma HandleGrows(c: Config, s: Store<Books>, e: Envelope, now: Instant, message: MessageID, commits: bool, reported: Option<Disposition>)
    requires MessagesStay(c, s) && BooksOk(s.data) && MayReport(c, s, e, now, message, commits, reported)
    ensures var t := StoreAfter(c, s, e, now, message, commits);
      && Grows(c, s, t) && MessagesStay(c, t) && BooksOk(t.data)
      && (reported in {Some(R1D1), Some(R1D2), Some(R2), Some(R3)} ==> Registered(c, t, e))
  {
    if ConsumeMessage(c, s, e, now, message).Ok? {
      ConsumeGrows(c, s, e, now, message);
    }
  }

  lemma CommandGrows<R>(c: Config, x: Executor<R>, s: Store<Books>, call: Call<Books, R>)
    requires Wired(c) && x.bound == COMMAND_CONSUMER
    requires MessagesStay(c, s) && BooksOk(s.data)
    requires call.run(s.data).Some? ==> BooksOk(call.run(s.data).value.0)
    ensures var t := ExecuteIn(x, s, call).0; Grows(c, s, t) && MessagesStay(c, t) && BooksOk(t.data)
  {
    EffectsExactlyWhenFirst(x, s, call);
  }

  lemma ReserveKeepsBooks(b: Books, call: Call<Books, Reserved>)
    requires BooksOk(b) && IsReserve(call)
    ensures call.run(b).Some? ==> BooksOk(call.run(b).value.0)
  {
    var order: OrderID, items: int64, message: MessageID :| call.run == ReserveRun(call.caller, order, items, call.now, message);
    if DecideIn(b, call.caller, order, Reserve(items, call.now), message).Ok? {
      DecisionKeepsBooks(b, call.caller, order, Reserve(items, call.now), message);
    }
  }

  lemma CancelKeepsBooks(b: Books, call: Call<Books, Freed>)
    requires BooksOk(b) && IsCancel(call)
    ensures call.run(b).Some? ==> BooksOk(call.run(b).value.0)
  {
    var order: OrderID, message: MessageID :| call.run == CancelRun(call.caller, order, call.now, message);
    if DecideIn(b, call.caller, order, Cancel(call.now), message).Ok? {
      DecisionKeepsBooks(b, call.caller, order, Cancel(call.now), message);
    }
  }

  // --- Each step keeps the invariant ---------------------------------------------------------------------

  lemma ProduceKeeps(c: Config, s: State, record: Record)
    requires Inv(c, s) && Enabled(c, s, Produce(record))
    ensures Inv(c, Next(c, s, Produce(record)))
  {
    OthersStay(c, s, Next(c, s, Produce(record)), {});
  }

  lemma AssignKeeps(c: Config, s: State, sid: nat)
    requires Wired(c) && Inv(c, s) && Enabled(c, s, Assign(sid))
    ensures Inv(c, Next(c, s, Assign(sid)))
  {
    var t := Next(c, s, Assign(sid));
    FreshWorker(c.worker);
    SettledUpToStays(c, s, t, s.committed);
    OthersStay(c, s, t, {sid});
  }

  lemma FreshWorker(c: Worker.Config)
    requires c.limit >= 1 && c.capacity >= 1
    ensures Worker.Inv(c, Worker.FRESH)
  {
  }

  lemma CrashKeeps(c: Config, s: State, sid: nat)
    requires Inv(c, s) && Enabled(c, s, Crash(sid))
    ensures Inv(c, Next(c, s, Crash(sid)))
  {
    OthersStay(c, s, Next(c, s, Crash(sid)), {});
  }

  lemma FetchedWorker(c: Worker.Config, run: Worker.State, record: Record)
    requires Worker.Inv(c, run) && Worker.Enabled(run, Worker.Enqueue(record))
    ensures var after := Worker.Next(c, run, Worker.Enqueue(record));
      && Worker.Inv(c, after)
      && after.enqueued == run.enqueued + [record]
      && after.acks == run.acks && after.pc == run.pc
  {
    Worker.StepKeeps(c, run, Worker.Enqueue(record));
  }

  lemma FetchedSession(c: Config, s: State, w: Session, run: Worker.State)
    requires OnLog(c, s, w) && w.start + |w.run.enqueued| < |s.log|
    requires run.enqueued == w.run.enqueued + [s.log[w.start + |w.run.enqueued|]]
    requires run.acks == w.run.acks && run.pc == w.run.pc
    ensures OnLog(c, s, w.(run := run))
  {
  }

  lemma FetchedIsOk(c: Config, s: State, w: Session)
    requires SessionOk(c, s, w) && CanFetch(s.log, w)
    ensures SessionOk(c, s, Fetched(c, s.log, w))
  {
    FetchedWorker(c.worker, w.run, s.log[w.start + |w.run.enqueued|]);
    FetchedSession(c, s, w, Fetched(c, s.log, w).run);
  }

  lemma FetchKeeps(c: Config, s: State, sid: nat)
    requires Inv(c, s) && Enabled(c, s, Fetch(sid))
    ensures Inv(c, Next(c, s, Fetch(sid)))
  {
    var w := Fetched(c, s.log, s.sessions[sid]);
    FetchedIsOk(c, s, s.sessions[sid]);
    SessionStays(c, s, At(s, sid, w), w);
    OthersStay(c, s, At(s, sid, w), {sid});
  }

  /** Only a judged acknowledgement adds to the acknowledged records, and only a taken
      prefix, never longer than them, is requested. */
  lemma WorkerSteps(c: Worker.Config, run: Worker.State, l: Worker.Label)
    requires Worker.Inv(c, run) && Worker.Enabled(run, l) && !l.Enqueue?
    ensures var after := Worker.Next(c, run, l);
      && Worker.Inv(c, after)
      && after.enqueued == run.enqueued
      && after.acks == run.acks + (if l.Judge? && run.pc.g == Acked then 1 else 0)
      && (after.pc.InSink? ==> l.Deliver? || after.pc == run.pc)
      && (after.pc.Judging? ==> !l.Judge? && (after.pc == run.pc || (l.Return? && after.pc.g == l.g)))
      && (after.pc == run.pc ==> after.acks == run.acks)
      && (|after.commits| > |run.commits| ==> after.commits[|after.commits| - 1] <= after.acks)
  {
    Worker.StepKeeps(c, run, l);
    if l.Commit? || l.FinalCommit? {
      CommitSteps(c, run, l);
    }
  }

  lemma CommitSteps(c: Worker.Config, run: Worker.State, l: Worker.Label)
    requires Worker.CursorOk(run) && Worker.Enabled(run, l) && (l.Commit? || l.FinalCommit?)
    ensures var after := Worker.Next(c, run, l);
      && after.enqueued == run.enqueued && after.acks == run.acks
      && !after.pc.InSink? && !after.pc.Judging?
      && (|after.commits| > |run.commits| ==> after.commits[|after.commits| - 1] == after.acks)
  {
    Worker.TakePrefixIs(run, false);
    Worker.TakePrefixIs(run.(w := ResumeFetchSection(run.w).0), true);
  }

  lemma WorkedSession(c: Config, s: State, w: Session, l: Worker.Label)
    requires SessionOk(c, s, w) && Worker.Enabled(w.run, l) && !l.Enqueue?
    requires l.Return? ==> w.step == Done(l.g)
    ensures SessionOk(c, s, WorkedOn(c, w, l))
    ensures forall offset :: offset in Requested(w.start, w.run, Worker.Next(c.worker, w.run, l)) ==> SettledUpTo(c, s, offset)
  {
    WorkerSteps(c.worker, w.run, l);
    AckedSettled(c, s, w, Worker.Next(c.worker, w.run, l), l);
  }

  /** The worker's own rule carried to the log. */
  lemma AckedSettled(c: Config, s: State, w: Session, after: Worker.State, l: Worker.Label)
    requires OnLog(c, s, w) && (l.Return? ==> w.step == Done(l.g))
    requires after.enqueued == w.run.enqueued
    requires after.acks == w.run.acks + (if l.Judge? && w.run.pc.Judging? && w.run.pc.g == Acked then 1 else 0)
    requires l.Return? ==> w.run.pc.InSink?
    requires after.pc.Judging? ==> !l.Judge? && (after.pc == w.run.pc || (l.Return? && after.pc.g == l.g))
    requires after.pc.InSink? ==> l.Deliver? || after.pc == w.run.pc
    requires after.pc == w.run.pc ==> after.acks == w.run.acks
    requires |after.commits| > |w.run.commits| ==> after.commits[|after.commits| - 1] <= after.acks
    ensures OnLog(c, s, w.(run := after, step := if after.pc == w.run.pc then w.step else Idle))
    ensures forall offset :: offset in Requested(w.start, w.run, after) ==> SettledUpTo(c, s, offset)
  {
    if |after.commits| > |w.run.commits| {
      SettledBelow(c, s, w.start + after.acks, w.start + after.commits[|after.commits| - 1]);
    }
  }

  lemma SettledBelow(c: Config, s: State, n: nat, m: nat)
    requires SettledUpTo(c, s, n) && m <= n
    ensures SettledUpTo(c, s, m)
  {
  }

  lemma WorkKeeps(c: Config, s: State, sid: nat, l: Worker.Label)
    requires Inv(c, s) && sid in s.sessions && Worker.Enabled(s.sessions[sid].run, l) && !l.Enqueue?
    requires l.Return? ==> s.sessions[sid].step == Done(l.g)
    ensures Inv(c, Worked(c, s, sid, l))
  {
    var t := Worked(c, s, sid, l);
    WorkedSession(c, s, s.sessions[sid], l);
    forall offset | offset in t.sent ensures SettledUpTo(c, t, offset) {
      SettledUpToStays(c, s, t, offset);
    }
    forall id | id in t.sessions ensures SessionOk(c, t, t.sessions[id]) {
      SessionStays(c, s, t, t.sessions[id]);
    }
    SettledUpToStays(c, s, t, s.committed);
  }

  /** What the adapter decides becomes the session's step; an acknowledgement has to
      rest on a settled record. */
  lemma StepTaken(c: Config, s: State, t: State, sid: nat, step: Step)
    requires Progress(c, s) && Delivering(s, sid) && Extends(c, s, t)
    requires t.committed == s.committed && t.sent == s.sent
    requires t.sessions == s.sessions[sid := s.sessions[sid].(step := step)]
    requires step == Done(Acked) ==> Settled(c, t.store, t.kept, RawOf(s, sid))
    ensures Progress(c, t)
  {
    DeliveringOnLog(c, s, sid);
    SteppedOnLog(c, s, t, s.sessions[sid], step);
    OthersOnLog(c, s, t, sid, step);
  }

  lemma SteppedOnLog(c: Config, s: State, t: State, w: Session, step: Step)
    requires OnLog(c, s, w) && Extends(c, s, t)
    requires w.run.pc.InSink? && w.run.pc.i == w.run.acks && w.start + w.run.acks < |s.log|
    requires step == Done(Acked) ==> Settled(c, t.store, t.kept, s.log[w.start + w.run.acks].value)
    ensures OnLog(c, t, w.(step := step))
  {
    OnLogStays(c, s, t, w);
    assert t.log[w.start + w.run.acks] == s.log[w.start + w.run.acks];
    Stepped(c, t, w, step);
  }

  lemma DeliveringOnLog(c: Config, s: State, sid: nat)
    requires SessionsOk(c, s) && sid in s.sessions && s.sessions[sid].run.pc.InSink?
    ensures OnLog(c, s, s.sessions[sid]) && s.sessions[sid].run.pc.i == s.sessions[sid].run.acks
  {
    assert SessionOk(c, s, s.sessions[sid]);
  }

  lemma OthersOnLog(c: Config, s: State, t: State, sid: nat, step: Step)
    requires Progress(c, s) && Extends(c, s, t) && sid in s.sessions
    requires t.committed == s.committed && t.sent == s.sent
    requires t.sessions == s.sessions[sid := s.sessions[sid].(step := step)]
    requires OnLog(c, t, s.sessions[sid].(step := step))
    ensures Progress(c, t)
  {
    assert SessionOk(c, s, s.sessions[sid]);
    OthersStay(c, s, t, {sid});
  }

  lemma Stepped(c: Config, s: State, w: Session, step: Step)
    requires OnLog(c, s, w) && w.run.pc.InSink? && w.start + w.run.acks < |s.log|
    requires step == Done(Acked) ==> Settled(c, s.store, s.kept, s.log[w.start + w.run.acks].value)
    ensures OnLog(c, s, w.(step := step))
  {
    if step == Done(Acked) {
      NextSettled(c, s, w.start + w.run.acks);
    }
  }

  lemma NextSettled(c: Config, s: State, n: nat)
    requires SettledUpTo(c, s, n) && n < |s.log| && Settled(c, s.store, s.kept, s.log[n].value)
    ensures SettledUpTo(c, s, n + 1)
  {
  }

  lemma LookKeeps(c: Config, s: State, sid: nat)
    requires Inv(c, s) && Enabled(c, s, Look(sid))
    ensures Inv(c, Next(c, s, Look(sid)))
  {
    StepTaken(c, s, Next(c, s, Look(sid)), sid, Looked(c, s, sid));
  }

  lemma HandleKeeps(c: Config, s: State, sid: nat, now: Instant, message: MessageID, commits: bool, reported: Option<Disposition>)
    requires Inv(c, s) && Enabled(c, s, Handle(sid, now, message, commits, reported))
    ensures Inv(c, Next(c, s, Handle(sid, now, message, commits, reported)))
  {
    var e := VerdictOf(c, s, sid).envelope;
    HandleGrows(c, s.store, e, now, message, commits, reported);
    StepTaken(c, s, Next(c, s, Handle(sid, now, message, commits, reported)), sid,
              StepOf(EffectOf(c.setup.maxAttempts, s.sessions[sid].run.pc.attempt, reported)));
  }

  lemma KeepKeeps(c: Config, s: State, sid: nat, ok: bool)
    requires Inv(c, s) && Enabled(c, s, Keep(sid, ok))
    ensures Inv(c, Next(c, s, Keep(sid, ok)))
  {
    var t := Next(c, s, Keep(sid, ok));
    if ok {
      assert t.kept[|s.kept|].raw == RawOf(s, sid);
    }
    StepTaken(c, s, t, sid, if ok then Done(Acked) else Done(Undecided));
  }

  lemma CommandKeeps(c: Config, s: State, l: Label)
    requires Wired(c) && Inv(c, s) && Enabled(c, s, l) && (l.ReserveCommand? || l.CancelCommand?)
    ensures Inv(c, Next(c, s, l))
  {
    if l.ReserveCommand? {
      ReserveKeepsBooks(s.store.data, l.reserve);
      CommandGrows(c, c.reserving, s.store, l.reserve);
    } else {
      CancelKeepsBooks(s.store.data, l.cancel);
      CommandGrows(c, c.cancelling, s.store, l.cancel);
    }
    OthersStay(c, s, Next(c, s, l), {});
  }

  lemma StepKeeps(c: Config, s: State, l: Label)
    requires Wired(c) && Inv(c, s) && Enabled(c, s, l)
    ensures Inv(c, Next(c, s, l))
  {
    match l {
      case Produce(record) => ProduceKeeps(c, s, record);
      case Assign(sid) => AssignKeeps(c, s, sid);
      case Crash(sid) => CrashKeeps(c, s, sid);
      case Fetch(sid) => FetchKeeps(c, s, sid);
      case Work(sid, wl) => WorkKeeps(c, s, sid, wl);
      case Look(sid) => LookKeeps(c, s, sid);
      case Handle(sid, now, message, commits, reported) => HandleKeeps(c, s, sid, now, message, commits, reported);
      case Keep(sid, ok) => KeepKeeps(c, s, sid, ok);
      case Return(sid) => WorkKeeps(c, s, sid, Worker.Return(s.sessions[sid].step.g));
      case CommitArrives(offset) =>
      case _ => CommandKeeps(c, s, l);
    }
  }

  // --- Whole runs ---------------------------------------------------------------------------------------------

  ghost predicate IsRun(c: Config, run: seq<State>, labels: seq<Label>) {
    && |run| == |labels| + 1
    && run[0] == EMPTY
    && forall i :: 0 <= i < |labels| ==> Enabled(c, run[i], labels[i]) && run[i + 1] == Next(c, run[i], labels[i])
  }

  lemma {:induction false} RunKeeps(c: Config, run: seq<State>, labels: seq<Label>, n: nat)
    requires Wired(c) && IsRun(c, run, labels) && n < |run|
    ensures Inv(c, run[n])
  {
    if n > 0 {
      RunKeeps(c, run, labels, n - 1);
      StepKeeps(c, run[n - 1], labels[n - 1]);
    }
  }

  /** Nothing below the committed offset is lost: whatever the crashes, rebalances,
      overlapping workers, failed commits and late commit requests, each such record is
      registered in the inbox under its own content, kept byte for byte, or of a type
      the channel carries and the consumer leaves out. */
  lemma NothingCommittedIsLost(c: Config, run: seq<State>, labels: seq<Label>, n: nat, i: nat)
    requires Wired(c) && IsRun(c, run, labels) && n < |run| && i < run[n].committed
    ensures i < |run[n].log| && Settled(c, run[n].store, run[n].kept, run[n].log[i].value)
  {
    RunKeeps(c, run, labels, n);
  }

  /** No effect is applied twice: each tenant's order is decided at most once, by a
      message or by a command, and the outbox tells that decision exactly once. */
  lemma NoEffectIsAppliedTwice(c: Config, run: seq<State>, labels: seq<Label>, n: nat, key: RowKey)
    requires Wired(c) && IsRun(c, run, labels) && n < |run|
    ensures KeyOk(run[n].store.data, key)
    ensures |EntriesOf(run[n].store.data.outbox, key)| == VersionAt(run[n].store.data.rows, key) <= 1
  {
    RunKeeps(c, run, labels, n);
    assert KeyOk(run[n].store.data, key);
  }

  /** What is settled stays settled, and what was registered or decided is never rewritten. */
  lemma StepOnlyAdds(c: Config, s: State, l: Label)
    requires Wired(c) && Inv(c, s) && Enabled(c, s, l)
    ensures Extends(c, s, Next(c, s, l))
    ensures forall key :: key in s.store.data.rows ==>
      key in Next(c, s, l).store.data.rows && Next(c, s, l).store.data.rows[key] == s.store.data.rows[key]
    ensures s.store.data.outbox <= Next(c, s, l).store.data.outbox
  {
    match l {
      case Handle(sid, now, message, commits, reported) =>
        var e := VerdictOf(c, s, sid).envelope;
        HandleGrows(c, s.store, e, now, message, commits, reported);
        ConsumeDecides(c, s.store, e, now, message);
      case ReserveCommand(call) =>
        ReserveKeepsBooks(s.store.data, call);
        CommandGrows(c, c.reserving, s.store, call);
        ReserveDecides(s.store.data, call);
        EffectsExactlyWhenFirst(c.reserving, s.store, call);
      case CancelCommand(call) =>
        CancelKeepsBooks(s.store.data, call);
        CommandGrows(c, c.cancelling, s.store, call);
        CancelDecides(s.store.data, call);
        EffectsExactlyWhenFirst(c.cancelling, s.store, call);
      case _ =>
    }
  }

  ghost predicate OnlyAdds(b: Books, after: Books) {
    && (forall key :: key in b.rows ==> key in after.rows && after.rows[key] == b.rows[key])
    && b.outbox <= after.outbox
  }

  lemma ConsumeDecides(c: Config, s: Store<Books>, e: Envelope, now: Instant, message: MessageID)
    requires BooksOk(s.data)
    ensures ConsumeMessage(c, s, e, now, message).Ok? ==> OnlyAdds(s.data, ConsumeMessage(c, s, e, now, message).value.0.data)
  {
    if c.placed(e.payload).Some? {
      var (order, items) := c.placed(e.payload).value;
      if DecideIn(s.data, CallerOf(e), order, Reserve(items, now), message).Ok? {
        DecisionKeepsBooks(s.data, CallerOf(e), order, Reserve(items, now), message);
      }
    }
  }

  lemma ReserveDecides(b: Books, call: Call<Books, Reserved>)
    requires BooksOk(b) && IsReserve(call)
    ensures call.run(b).Some? ==> OnlyAdds(b, call.run(b).value.0)
  {
    var order: OrderID, items: int64, message: MessageID :| call.run == ReserveRun(call.caller, order, items, call.now, message);
    if DecideIn(b, call.caller, order, Reserve(items, call.now), message).Ok? {
      DecisionKeepsBooks(b, call.caller, order, Reserve(items, call.now), message);
    }
  }

  lemma CancelDecides(b: Books, call: Call<Books, Freed>)
    requires BooksOk(b) && IsCancel(call)
    ensures call.run(b).Some? ==> OnlyAdds(b, call.run(b).value.0)
  {
    var order: OrderID, message: MessageID :| call.run == CancelRun(call.caller, order, call.now, message);
    if DecideIn(b, call.caller, order, Cancel(call.now), message).Ok? {
      DecisionKeepsBooks(b, call.caller, order, Cancel(call.now), message);
    }
  }
}
