/** The run of one partition worker: the poll loop enqueues, the worker takes,
    retries and commits, and a rebalance may revoke it at any point. */
module WorkerRuns {
  import opened Ports
  import opened KafkaCursors
  import opened PartitionWorkers

  /** The channel's attempt limit and the queue's capacity; both positive. */
  datatype Config = Config(limit: int, capacity: int)

  /** Where the worker stands, by its position in enqueue order and attempt. */
  datatype Pc =
    | Waiting
    | Taken(i: nat)
    | Trying(i: nat, attempt: nat)
    | InSink(i: nat, attempt: nat)
    | Judging(i: nat, attempt: nat, g: Gesture)
    | Marked(i: nat)
    | Backoff(i: nat, attempt: nat)
    | Left

  /** One delivery to the sink; `g` is what it ended with, once it returned. */
  datatype Delivery = Delivery(i: nat, attempt: nat, g: Option<Gesture>)

  /** `popped` counts the records whose commit was taken; `commits` lists each
      prefix length taken, and `final` says the revocation took its own. */
  datatype State = State(
    w: Worker,
    pc: Pc,
    cancelled: bool,
    final: bool,
    enqueued: seq<Record>,
    taken: nat,
    tracked: nat,
    acks: nat,
    sunk: seq<Delivery>,
    popped: nat,
    commits: seq<nat>)

  datatype Label =
    | Enqueue(record: Record)
    | Revoke
    | Cancel
    | Take
    | Track
    | Deliver
    | Return(g: Gesture)
    | Judge
    | Commit
    | Wake
    | Leave
    | FinalCommit

  const FRESH := State(NEW_WORKER, Waiting, false, false, [], 0, 0, 0, [], 0, [])

  /** Which steps are open; the bounds on positions hold in every run. */
  predicate Enabled(s: State, l: Label) {
    match l
    // The broker delivers a partition in offset order, and a revoked worker is out of the map.
    case Enqueue(record) =>
      !s.w.revoked && (|s.enqueued| > 0 ==> s.enqueued[|s.enqueued| - 1].offset < record.offset)
    case Revoke => !s.w.revoked
    // A revocation cancels the worker, and so does the end of the consumer before it.
    case Cancel => !s.cancelled
    case Take => s.pc.Waiting? && !s.w.stalled && |s.w.queue| > 0
    case Track => s.pc.Taken? && s.pc.i < |s.enqueued|
    case Deliver => s.pc.Trying?
    case Return(_) => s.pc.InSink? && |s.sunk| > 0
    case Judge => s.pc.Judging? && s.pc.i < |s.enqueued|
    case Commit => s.pc.Marked?
    case Wake => s.pc.Backoff?
    // A cancelled worker leaves from wherever it looks at its context.
    case Leave => s.cancelled && (s.pc.Waiting? || s.pc.Trying? || s.pc.Judging? || s.pc.Backoff?)
    case FinalCommit => s.pc.Left? && s.w.revoked && !s.final
  }

  /** A taken prefix, as one past the position of its last record. */
  function TakePrefix(s: State, final: bool): State {
    var (w, record) := CommitSection(s.w, final);
    if record.None? then s.(w := w)
    else
      var n := s.popped + |s.w.tracked| - |w.tracked|;
      s.(w := w, popped := n, commits := s.commits + [n])
  }

  /** What the worker does with the gesture of one attempt. */
  function Judged(c: Config, s: State): State
    requires s.pc.Judging? && s.pc.i < |s.enqueued|
  {
    match s.pc.g
    case Acked =>
      s.(w := s.w.(tracked := MarkIn(s.w.tracked, s.enqueued[s.pc.i].offset)), acks := s.acks + 1, pc := Marked(s.pc.i))
    case Undecided => s.(w := StallSection(s.w).0, pc := Waiting)
    case Released =>
      if s.pc.attempt >= c.limit then s.(w := StallSection(s.w).0, pc := Waiting)
      else s.(w := PauseForBackoffSection(s.w).0, pc := Backoff(s.pc.i, s.pc.attempt))
  }

  function Next(c: Config, s: State, l: Label): State
    requires Enabled(s, l)
  {
    match l
    case Enqueue(record) =>
      s.(w := EnqueueSection(s.w, record, c.capacity).0, enqueued := s.enqueued + [record])
    case Revoke => s.(w := s.w.(revoked := true))
    case Cancel => s.(cancelled := true)
    case Take => s.(w := NextSection(s.w, c.capacity).0, taken := s.taken + 1, pc := Taken(s.taken))
    case Track =>
      s.(w := s.w.(tracked := s.w.tracked + [Tracked(s.enqueued[s.pc.i], false)]), tracked := s.tracked + 1, pc := Trying(s.pc.i, 1))
    case Deliver =>
      s.(sunk := s.sunk + [Delivery(s.pc.i, s.pc.attempt, None)], pc := InSink(s.pc.i, s.pc.attempt))
    case Return(g) =>
      var last := |s.sunk| - 1;
      s.(sunk := s.sunk[last := s.sunk[last].(g := Some(g))], pc := Judging(s.pc.i, s.pc.attempt, g))
    case Judge => Judged(c, s)
    case Commit => TakePrefix(s, false).(pc := Waiting)
    case Wake => s.(w := ResumeAfterBackoffSection(s.w, c.capacity).0, pc := Trying(s.pc.i, s.pc.attempt + 1))
    case Leave =>
      s.(w := if s.pc.Backoff? then ResumeAfterBackoffSection(s.w, c.capacity).0 else s.w, pc := Left)
    case FinalCommit =>
      var resumed := s.(w := ResumeFetchSection(s.w).0);
      TakePrefix(resumed, true).(final := true)
  }

  // --- The invariant -------------------------------------------------------------------------

  /** Each delivery follows the one before: a released record again while below
      the limit, or the next record once this one was acknowledged. */
  predicate Follows(a: Delivery, b: Delivery, limit: int) {
    || (b.i == a.i && b.attempt == a.attempt + 1 && a.g == Some(Released) && a.attempt < limit)
    || (b.i == a.i + 1 && b.attempt == 1 && a.g == Some(Acked))
  }

  ghost predicate InOrder(sunk: seq<Delivery>, limit: int) {
    && (|sunk| > 0 ==> sunk[0].i == 0 && sunk[0].attempt == 1)
    && (forall j {:trigger sunk[j]} :: 0 <= j < |sunk| - 1 ==> Follows(sunk[j], sunk[j + 1], limit))
  }

  ghost predicate Offsets(enqueued: seq<Record>) {
    forall i, j :: 0 <= i < j < |enqueued| ==> enqueued[i].offset < enqueued[j].offset
  }

  /** The cursor holds the tracked records past the popped ones, the first `acks` acknowledged. */
  ghost predicate CursorHolds(enqueued: seq<Record>, cursor: seq<Tracked>, popped: nat, acks: nat, tracked: nat, taken: nat) {
    && popped <= acks <= tracked <= acks + 1
    && tracked <= taken <= |enqueued|
    && |cursor| == tracked - popped
    && forall j :: 0 <= j < |cursor| ==> cursor[j] == Tracked(enqueued[popped + j], popped + j < acks)
  }

  ghost predicate CursorOk(s: State) {
    CursorHolds(s.enqueued, s.w.tracked, s.popped, s.acks, s.tracked, s.taken)
  }

  /** What waits is what was enqueued and not taken. */
  ghost predicate QueueHolds(queue: seq<Record>, enqueued: seq<Record>, taken: nat) {
    taken <= |enqueued| && queue == enqueued[taken..]
  }

  /** Every prefix taken was given up by the cursor, and each is longer than the one before. */
  ghost predicate CommitsHold(commits: seq<nat>, popped: nat) {
    && (forall j :: 0 <= j < |commits| ==> 0 < commits[j] <= popped)
    && (forall j, k :: 0 <= j < k < |commits| ==> commits[j] < commits[k])
  }

  predicate LastIs(sunk: seq<Delivery>, i: nat, attempt: nat, g: Option<Gesture>) {
    |sunk| > 0 && sunk[|sunk| - 1] == Delivery(i, attempt, g)
  }

  /** Record `i` is the next one to deliver: the one before it was acknowledged last. */
  predicate NextUp(sunk: seq<Delivery>, i: nat) {
    if i == 0 then sunk == []
    else |sunk| > 0 && sunk[|sunk| - 1].i == i - 1 && sunk[|sunk| - 1].g == Some(Acked)
  }

  /** How many records are taken, tracked and acknowledged where the worker stands. */
  predicate CountsOk(s: State) {
    match s.pc
    case Waiting => s.tracked == s.taken && (s.w.stalled || s.acks == s.taken)
    case Taken(i) => i + 1 == s.taken && s.tracked == i && s.acks == i && !s.w.stalled
    case Marked(i) => i + 1 == s.taken && s.tracked == s.taken && s.acks == s.taken && !s.w.stalled
    case Left => true
    case _ => s.pc.i + 1 == s.taken && s.tracked == s.taken && s.acks == s.pc.i && !s.w.stalled
  }

  /** What the last delivery is where the worker stands. */
  predicate SinkOk(c: Config, s: State) {
    match s.pc
    case Waiting => s.w.stalled || NextUp(s.sunk, s.taken)
    case Taken(i) => NextUp(s.sunk, i)
    case Trying(i, attempt) =>
      1 <= attempt <= c.limit && (if attempt == 1 then NextUp(s.sunk, i) else LastIs(s.sunk, i, attempt - 1, Some(Released)))
    case InSink(i, attempt) => 1 <= attempt <= c.limit && LastIs(s.sunk, i, attempt, None)
    case Judging(i, attempt, g) => 1 <= attempt <= c.limit && LastIs(s.sunk, i, attempt, Some(g))
    case Marked(i) => NextUp(s.sunk, i + 1)
    case Backoff(i, attempt) => 1 <= attempt < c.limit && LastIs(s.sunk, i, attempt, Some(Released))
    case Left => s.cancelled
  }

  ghost predicate LogOk(c: Config, sunk: seq<Delivery>) {
    && InOrder(sunk, c.limit)
    && forall j {:trigger sunk[j]} :: 0 <= j < |sunk| ==> 1 <= sunk[j].attempt <= c.limit
  }

  /** The sink ended some delivery of the record with an acknowledgement. */
  ghost predicate AckedInSink(sunk: seq<Delivery>, i: nat) {
    exists j :: 0 <= j < |sunk| && sunk[j].i == i && sunk[j].g == Some(Acked)
  }

  /** What the worker counts as acknowledged, the sink acknowledged. */
  ghost predicate AcksHold(sunk: seq<Delivery>, acks: nat) {
    forall i: nat :: i < acks ==> AckedInSink(sunk, i)
  }

  ghost predicate FlagsOk(s: State) {
    && (s.final ==> s.pc.Left?)
    && (s.w.stalled && !s.final ==> s.w.paused)
  }

  /** The fetch is paused while the queue is full, and past a stall or a backoff only
      while half of the capacity is queued. */
  predicate PauseOk(c: Config, s: State) {
    && (|s.w.queue| >= c.capacity && !s.final ==> s.w.paused)
    && (s.w.paused && !s.w.stalled && !s.pc.Backoff? ==> |s.w.queue| >= c.capacity / 2)
  }

  ghost predicate Inv(c: Config, s: State) {
    && c.limit >= 1 && c.capacity >= 1
    && Offsets(s.enqueued)
    && CursorOk(s)
    && QueueHolds(s.w.queue, s.enqueued, s.taken)
    && CommitsHold(s.commits, s.popped)
    && CountsOk(s)
    && SinkOk(c, s)
    && LogOk(c, s.sunk)
    && AcksHold(s.sunk, s.acks)
    && FlagsOk(s)
    && PauseOk(c, s)
  }

  // --- The cursor under the worker's discipline --------------------------------------------------

  lemma {:induction false} MarkOnly(tracked: seq<Tracked>, j: nat)
    requires j < |tracked|
    requires forall k :: 0 <= k < |tracked| && k != j ==> tracked[k].record.offset != tracked[j].record.offset
    ensures MarkIn(tracked, tracked[j].record.offset) == tracked[j := tracked[j].(acked := true)]
  {
    if j > 0 {
      MarkOnly(tracked[1..], j - 1);
      assert tracked == [tracked[0]] + tracked[1..];
    }
  }

  lemma {:induction false} PrefixIs(tracked: seq<Tracked>, n: nat)
    requires n <= |tracked|
    requires forall k :: 0 <= k < |tracked| ==> (tracked[k].acked <==> k < n)
    ensures AckedPrefix(tracked) == n
  {
    if |tracked| > 0 && n > 0 {
      PrefixIs(tracked[1..], n - 1);
    }
  }

  lemma CursorPopped(enqueued: seq<Record>, cursor: seq<Tracked>, popped: nat, acks: nat, tracked: nat, taken: nat)
    requires CursorHolds(enqueued, cursor, popped, acks, tracked, taken)
    ensures AckedPrefix(cursor) == acks - popped
    ensures CursorHolds(enqueued, cursor[acks - popped..], acks, acks, tracked, taken)
  {
    AckedAre(enqueued, cursor, popped, acks, tracked, taken);
    PrefixIs(cursor, acks - popped);
    CursorDropped(enqueued, cursor, popped, acks, tracked, taken);
  }

  lemma AckedAre(enqueued: seq<Record>, cursor: seq<Tracked>, popped: nat, acks: nat, tracked: nat, taken: nat)
    requires CursorHolds(enqueued, cursor, popped, acks, tracked, taken)
    ensures forall k :: 0 <= k < |cursor| ==> (cursor[k].acked <==> k < acks - popped)
  {
  }

  lemma CursorDropped(enqueued: seq<Record>, cursor: seq<Tracked>, popped: nat, acks: nat, tracked: nat, taken: nat)
    requires CursorHolds(enqueued, cursor, popped, acks, tracked, taken)
    ensures CursorHolds(enqueued, cursor[acks - popped..], acks, acks, tracked, taken)
  {
    var n, rest := acks - popped, cursor[acks - popped..];
    forall j | 0 <= j < |rest| ensures rest[j] == Tracked(enqueued[acks + j], acks + j < acks) {
      assert rest[j] == cursor[n + j];
    }
  }

  lemma AcksDelivered(sunk: seq<Delivery>, acks: nat, d: Delivery)
    requires AcksHold(sunk, acks)
    ensures AcksHold(sunk + [d], acks)
  {
    forall i: nat | i < acks ensures AckedInSink(sunk + [d], i) {
      assert AckedInSink(sunk, i);
      var j :| 0 <= j < |sunk| && sunk[j].i == i && sunk[j].g == Some(Acked);
      assert (sunk + [d])[j] == sunk[j];
    }
  }

  /** A return fills in the running delivery, which no acknowledgement rests on. */
  lemma AcksReturned(sunk: seq<Delivery>, acks: nat, i: nat, attempt: nat, g: Gesture)
    requires AcksHold(sunk, acks) && LastIs(sunk, i, attempt, None)
    ensures AcksHold(sunk[|sunk| - 1 := Delivery(i, attempt, Some(g))], acks)
  {
    var after := sunk[|sunk| - 1 := Delivery(i, attempt, Some(g))];
    forall r: nat | r < acks ensures AckedInSink(after, r) {
      assert AckedInSink(sunk, r);
      var j :| 0 <= j < |sunk| && sunk[j].i == r && sunk[j].g == Some(Acked);
      assert after[j] == sunk[j];
    }
  }

  lemma AcksJudged(sunk: seq<Delivery>, acks: nat, attempt: nat)
    requires AcksHold(sunk, acks) && LastIs(sunk, acks, attempt, Some(Acked))
    ensures AcksHold(sunk, acks + 1)
  {
    assert sunk[|sunk| - 1].i == acks;
  }

  lemma CommitsGrow(commits: seq<nat>, popped: nat, n: nat)
    requires CommitsHold(commits, popped) && popped < n
    ensures CommitsHold(commits + [n], n)
  {
  }

  ghost function Popped(s: State, final: bool): State
    requires s.popped <= s.acks && s.acks - s.popped <= |s.w.tracked|
  {
    var n := s.acks - s.popped;
    if n == 0 || (s.w.revoked && !final) then s
    else s.(w := s.w.(tracked := s.w.tracked[n..]), popped := s.acks, commits := s.commits + [s.acks])
  }

  lemma PrefixTaken(s: State, final: bool)
    requires s.popped <= s.acks && AckedPrefix(s.w.tracked) == s.acks - s.popped
    ensures TakePrefix(s, final) == Popped(s, final)
  {
  }

  /** A take pops exactly the acknowledged prefix, and only through the gate. */
  lemma TakePrefixIs(s: State, final: bool)
    requires CursorOk(s)
    ensures TakePrefix(s, final) == Popped(s, final)
  {
    CursorPopped(s.enqueued, s.w.tracked, s.popped, s.acks, s.tracked, s.taken);
    PrefixTaken(s, final);
  }

  lemma CommitKeeps(c: Config, s: State)
    requires Inv(c, s) && Enabled(s, Commit)
    ensures Inv(c, Next(c, s, Commit))
  {
    TakePrefixIs(s, false);
    CursorPopped(s.enqueued, s.w.tracked, s.popped, s.acks, s.tracked, s.taken);
    if s.popped < s.acks {
      CommitsGrow(s.commits, s.popped, s.acks);
    }
  }

  lemma FinalCommitKeeps(c: Config, s: State)
    requires Inv(c, s) && Enabled(s, FinalCommit)
    ensures Inv(c, Next(c, s, FinalCommit))
  {
    TakePrefixIs(s.(w := ResumeFetchSection(s.w).0), true);
    CursorPopped(s.enqueued, s.w.tracked, s.popped, s.acks, s.tracked, s.taken);
    if s.popped < s.acks {
      CommitsGrow(s.commits, s.popped, s.acks);
    }
  }

  lemma CursorMarked(enqueued: seq<Record>, cursor: seq<Tracked>, popped: nat, acks: nat, tracked: nat, taken: nat)
    requires Offsets(enqueued) && CursorHolds(enqueued, cursor, popped, acks, tracked, taken) && acks < tracked
    ensures CursorHolds(enqueued, MarkIn(cursor, enqueued[acks].offset), popped, acks + 1, tracked, taken)
  {
    var last := |cursor| - 1;
    assert cursor[last].record == enqueued[acks];
    MarkOnly(cursor, last);
  }

  lemma CursorTracked(enqueued: seq<Record>, cursor: seq<Tracked>, popped: nat, acks: nat, taken: nat)
    requires CursorHolds(enqueued, cursor, popped, acks, acks, taken) && acks < taken
    ensures CursorHolds(enqueued, cursor + [Tracked(enqueued[acks], false)], popped, acks, acks + 1, taken)
  {
  }

  lemma DeliveredInOrder(c: Config, sunk: seq<Delivery>, i: nat, attempt: nat)
    requires LogOk(c, sunk) && 1 <= attempt <= c.limit
    requires if attempt == 1 then NextUp(sunk, i) else LastIs(sunk, i, attempt - 1, Some(Released))
    ensures LogOk(c, sunk + [Delivery(i, attempt, None)])
  {
    var sunk' := sunk + [Delivery(i, attempt, None)];
    forall j {:trigger sunk'[j]} | 0 <= j < |sunk'| - 1 ensures Follows(sunk'[j], sunk'[j + 1], c.limit) {
      if j < |sunk| - 1 {
        assert Follows(sunk[j], sunk[j + 1], c.limit);
      }
    }
  }

  /** A running delivery's return leaves the order as it was. */
  lemma ReturnedInOrder(c: Config, sunk: seq<Delivery>, i: nat, attempt: nat, g: Gesture)
    requires LogOk(c, sunk) && LastIs(sunk, i, attempt, None)
    ensures LogOk(c, sunk[|sunk| - 1 := Delivery(i, attempt, Some(g))])
  {
    var sunk' := sunk[|sunk| - 1 := Delivery(i, attempt, Some(g))];
    forall j {:trigger sunk'[j]} | 0 <= j < |sunk'| - 1 ensures Follows(sunk'[j], sunk'[j + 1], c.limit) {
      assert Follows(sunk[j], sunk[j + 1], c.limit);
    }
  }

  // --- Each step keeps it ---------------------------------------------------------------------------

  lemma CursorEnqueued(enqueued: seq<Record>, cursor: seq<Tracked>, popped: nat, acks: nat, tracked: nat, taken: nat, record: Record)
    requires CursorHolds(enqueued, cursor, popped, acks, tracked, taken)
    ensures CursorHolds(enqueued + [record], cursor, popped, acks, tracked, taken)
  {
  }

  lemma OffsetsEnqueued(enqueued: seq<Record>, record: Record)
    requires Offsets(enqueued) && (|enqueued| > 0 ==> enqueued[|enqueued| - 1].offset < record.offset)
    ensures Offsets(enqueued + [record])
  {
    var after := enqueued + [record];
    forall i, j | 0 <= i < j < |after| ensures after[i].offset < after[j].offset {
      if j == |enqueued| && i < j - 1 {
        assert enqueued[i].offset < enqueued[j - 1].offset;
      }
    }
  }

  lemma QueueEnqueued(queue: seq<Record>, enqueued: seq<Record>, taken: nat, record: Record)
    requires QueueHolds(queue, enqueued, taken)
    ensures QueueHolds(queue + [record], enqueued + [record], taken)
  {
    assert (enqueued + [record])[taken..] == enqueued[taken..] + [record];
  }

  lemma QueueTaken(queue: seq<Record>, enqueued: seq<Record>, taken: nat)
    requires QueueHolds(queue, enqueued, taken) && |queue| > 0
    ensures QueueHolds(queue[1..], enqueued, taken + 1)
  {
  }

  lemma CursorTaken(enqueued: seq<Record>, cursor: seq<Tracked>, popped: nat, acks: nat, tracked: nat, taken: nat)
    requires CursorHolds(enqueued, cursor, popped, acks, tracked, taken) && taken < |enqueued|
    ensures CursorHolds(enqueued, cursor, popped, acks, tracked, taken + 1)
  {
  }

  lemma EnqueueKeeps(c: Config, s: State, record: Record)
    requires Inv(c, s) && Enabled(s, Enqueue(record))
    ensures Inv(c, Next(c, s, Enqueue(record)))
  {
    CursorEnqueued(s.enqueued, s.w.tracked, s.popped, s.acks, s.tracked, s.taken, record);
    OffsetsEnqueued(s.enqueued, record);
    QueueEnqueued(s.w.queue, s.enqueued, s.taken, record);
  }

  lemma AckedKeeps(c: Config, s: State)
    requires Inv(c, s) && Enabled(s, Judge) && s.pc.g.Acked?
    ensures Inv(c, Judged(c, s))
  {
    CursorMarked(s.enqueued, s.w.tracked, s.popped, s.acks, s.tracked, s.taken);
    AcksJudged(s.sunk, s.acks, s.pc.attempt);
  }

  lemma StallKeeps(c: Config, s: State)
    requires Inv(c, s) && s.pc.Judging?
    ensures Inv(c, s.(w := StallSection(s.w).0, pc := Waiting))
  {
  }

  lemma BackoffKeeps(c: Config, s: State)
    requires Inv(c, s) && s.pc.Judging? && s.pc.g.Released? && s.pc.attempt < c.limit
    ensures Inv(c, s.(w := PauseForBackoffSection(s.w).0, pc := Backoff(s.pc.i, s.pc.attempt)))
  {
  }

  lemma JudgeKeeps(c: Config, s: State)
    requires Inv(c, s) && Enabled(s, Judge)
    ensures Inv(c, Judged(c, s))
  {
    if s.pc.g.Acked? {
      AckedKeeps(c, s);
    } else if s.pc.g.Undecided? || s.pc.attempt >= c.limit {
      StallKeeps(c, s);
    } else {
      BackoffKeeps(c, s);
    }
  }

  lemma SinkKeeps(c: Config, s: State, l: Label)
    requires Inv(c, s) && Enabled(s, l) && (l.Track? || l.Deliver? || l.Return?)
    ensures Inv(c, Next(c, s, l))
  {
    match l {
      case Track => CursorTracked(s.enqueued, s.w.tracked, s.popped, s.acks, s.taken);
      case Deliver =>
        DeliveredInOrder(c, s.sunk, s.pc.i, s.pc.attempt);
        AcksDelivered(s.sunk, s.acks, Delivery(s.pc.i, s.pc.attempt, None));
      case Return(g) =>
        ReturnedInOrder(c, s.sunk, s.pc.i, s.pc.attempt, g);
        AcksReturned(s.sunk, s.acks, s.pc.i, s.pc.attempt, g);
    }
  }

  lemma TakeKeeps(c: Config, s: State)
    requires Inv(c, s) && Enabled(s, Take)
    ensures Inv(c, Next(c, s, Take))
  {
    QueueTaken(s.w.queue, s.enqueued, s.taken);
    CursorTaken(s.enqueued, s.w.tracked, s.popped, s.acks, s.tracked, s.taken);
  }

  lemma QuietKeeps(c: Config, s: State, l: Label)
    requires Inv(c, s) && Enabled(s, l) && (l.Revoke? || l.Cancel? || l.Wake? || l.Leave?)
    ensures Inv(c, Next(c, s, l))
  {
  }

  lemma StepKeeps(c: Config, s: State, l: Label)
    requires Inv(c, s) && Enabled(s, l)
    ensures Inv(c, Next(c, s, l))
  {
    match l {
      case Enqueue(record) => EnqueueKeeps(c, s, record);
      case Judge => JudgeKeeps(c, s);
      case Commit => CommitKeeps(c, s);
      case FinalCommit => FinalCommitKeeps(c, s);
      case Take => TakeKeeps(c, s);
      case Track => SinkKeeps(c, s, l);
      case Deliver => SinkKeeps(c, s, l);
      case Return(_) => SinkKeeps(c, s, l);
      case _ => QuietKeeps(c, s, l);
    }
  }

  // --- Whole runs -------------------------------------------------------------------------------------

  ghost predicate IsRun(c: Config, run: seq<State>, labels: seq<Label>) {
    && |run| == |labels| + 1
    && run[0] == FRESH
    && forall i :: 0 <= i < |labels| ==>
         Enabled(run[i], labels[i]) && run[i + 1] == Next(c, run[i], labels[i])
  }

  lemma {:induction false} RunKeeps(c: Config, run: seq<State>, labels: seq<Label>, i: nat)
    requires c.limit >= 1 && c.capacity >= 1 && IsRun(c, run, labels) && i < |run|
    ensures Inv(c, run[i])
  {
    if i > 0 {
      RunKeeps(c, run, labels, i - 1);
      StepKeeps(c, run[i - 1], labels[i - 1]);
    }
  }

  /** The sink sees records in the order they were enqueued, each with attempts
      1, 2, ... up to the limit, and the next only after this one was acknowledged. */
  lemma SinkSeesRecordsInOrder(c: Config, run: seq<State>, labels: seq<Label>, i: nat, j: nat)
    requires c.limit >= 1 && c.capacity >= 1 && IsRun(c, run, labels) && i < |run| && j < |run[i].sunk|
    ensures var sunk := run[i].sunk;
      && sunk[j].i < |run[i].enqueued| && 1 <= sunk[j].attempt <= c.limit
      && (j == 0 ==> sunk[j].i == 0 && sunk[j].attempt == 1)
      && (j > 0 ==> Follows(sunk[j - 1], sunk[j], c.limit))
  {
    RunKeeps(c, run, labels, i);
    DeliveredIsEnqueued(c, run, labels, i);
    if j > 0 {
      assert Follows(run[i].sunk[j - 1], run[i].sunk[j - 1 + 1], c.limit);
    }
  }

  ghost predicate SunkBelow(sunk: seq<Delivery>, n: nat) {
    forall j :: 0 <= j < |sunk| ==> sunk[j].i < n
  }

  lemma DeliveredStep(c: Config, s: State, l: Label)
    requires CursorOk(s) && CountsOk(s) && SinkOk(c, s) && Enabled(s, l) && SunkBelow(s.sunk, |s.enqueued|)
    ensures SunkBelow(Next(c, s, l).sunk, |Next(c, s, l).enqueued|)
  {
    if l.Commit? {
      TakePrefixIs(s, false);
    } else if l.FinalCommit? {
      TakePrefixIs(s.(w := ResumeFetchSection(s.w).0), true);
    }
  }

  lemma {:induction false} DeliveredIsEnqueued(c: Config, run: seq<State>, labels: seq<Label>, i: nat)
    requires c.limit >= 1 && c.capacity >= 1 && IsRun(c, run, labels) && i < |run|
    ensures SunkBelow(run[i].sunk, |run[i].enqueued|)
  {
    if i > 0 {
      RunKeeps(c, run, labels, i - 1);
      DeliveredIsEnqueued(c, run, labels, i - 1);
      DeliveredStep(c, run[i - 1], labels[i - 1]);
    }
  }

  /** Every record under a commit was acknowledged by the sink, and every commit covers
      more than the one before it. */
  lemma CommitsAreAcknowledgedPrefixes(c: Config, run: seq<State>, labels: seq<Label>, i: nat)
    requires c.limit >= 1 && c.capacity >= 1 && IsRun(c, run, labels) && i < |run|
    ensures forall k :: 0 <= k < |run[i].commits| ==> 0 < run[i].commits[k] <= run[i].acks <= |run[i].enqueued|
    ensures forall k, r: nat :: 0 <= k < |run[i].commits| && r < run[i].commits[k] ==> AckedInSink(run[i].sunk, r)
    ensures forall j, k :: 0 <= j < k < |run[i].commits| ==> run[i].commits[j] < run[i].commits[k]
  {
    RunKeeps(c, run, labels, i);
  }

  /** Once revoked, no step but the revocation's own takes another prefix, and
      that one only after the worker left. */
  lemma RevokedTakesNoPrefix(c: Config, s: State, l: Label)
    requires Inv(c, s) && Enabled(s, l) && s.w.revoked
    ensures Next(c, s, l).commits != s.commits ==> l.FinalCommit? && s.pc.Left? && !s.final
    ensures l.FinalCommit? ==> Next(c, s, l).final && Next(c, s, l).popped == s.acks
  {
    if l.Commit? {
      TakePrefixIs(s, false);
    }
    if l.FinalCommit? {
      TakePrefixIs(s.(w := ResumeFetchSection(s.w).0), true);
    }
  }

  /** A stalled worker delivers nothing more and stays paused until the revocation
      hands the partition over. */
  lemma StalledStaysPaused(c: Config, s: State, l: Label)
    requires Inv(c, s) && Enabled(s, l) && s.w.stalled
    ensures Next(c, s, l).w.stalled && Next(c, s, l).sunk == s.sunk && Next(c, s, l).taken == s.taken
    ensures !Next(c, s, l).final ==> Next(c, s, l).w.paused
  {
    StepKeeps(c, s, l);
  }

  /** The worker waits for a record with the fetch paused, nothing queued, nothing
      stalled, and nothing that would take the partition from it. */
  predicate Starved(s: State) {
    s.pc.Waiting? && s.w.paused && !s.w.stalled && s.w.queue == [] && !s.w.revoked && !s.cancelled
  }

  /** Back-pressure: a full queue keeps the fetch paused until the partition is handed
      over, and past a stall or a backoff a pause stands only on half a capacity queued. */
  lemma PauseFollowsLoad(c: Config, run: seq<State>, labels: seq<Label>, i: nat)
    requires c.limit >= 1 && c.capacity >= 1 && IsRun(c, run, labels) && i < |run|
    ensures |run[i].w.queue| >= c.capacity && !run[i].final ==> run[i].w.paused
    ensures run[i].w.paused && !run[i].w.stalled && !run[i].pc.Backoff? ==> |run[i].w.queue| >= c.capacity / 2
  {
    RunKeeps(c, run, labels, i);
  }

  /** A starved worker has no step of its own left: only a record, which the paused fetch
      does not bring, or the end of its assignment can follow. */
  lemma StarvedForGood(s: State, l: Label)
    requires Starved(s) && Enabled(s, l)
    ensures l.Enqueue? || l.Revoke? || l.Cancel?
  {
  }

  /** The worker acknowledges and commits the first record it was given. */
  function FirstRecord(c: Config, record: Record): (run: seq<State>)
    requires c.limit >= 1 && c.capacity == 1
    ensures |run| == 8
  {
    var s1 := Next(c, FRESH, Enqueue(record));
    var s2 := Next(c, s1, Take);
    var s3 := Next(c, s2, Track);
    var s4 := Next(c, s3, Deliver);
    var s5 := Next(c, s4, Return(Acked));
    var s6 := Next(c, s5, Judge);
    [FRESH, s1, s2, s3, s4, s5, s6, Next(c, s6, Commit)]
  }

  lemma OneRecordStarvesCapacityOne(c: Config, record: Record)
    requires c.limit >= 1 && c.capacity == 1
    ensures IsRun(c, FirstRecord(c, record), [Enqueue(record), Take, Track, Deliver, Return(Acked), Judge, Commit])
    ensures Starved(FirstRecord(c, record)[7])
  {
    var run := FirstRecord(c, record);
    assert run[6].w.paused && run[6].w.queue == [];
    TakenLeavesTheRest(run[6], false);
  }

  lemma TakenLeavesTheRest(s: State, final: bool)
    ensures var t := TakePrefix(s, final);
      t.w.paused == s.w.paused && t.w.queue == s.w.queue && t.w.stalled == s.w.stalled && t.w.revoked == s.w.revoked && t.cancelled == s.cancelled
  {
  }

  /** Some run starves the partition, for good, exactly when the declared capacity is one. */
  lemma StarvesExactlyWhenCapacityIsOne(c: Config)
    requires c.limit >= 1 && c.capacity >= 1
    ensures (exists run, labels, i :: IsRun(c, run, labels) && 0 <= i < |run| && Starved(run[i])) <==> c.capacity == 1
  {
    if c.capacity == 1 {
      OneRecordStarvesCapacityOne(c, Record(0, []));
    } else {
      forall run, labels, i | IsRun(c, run, labels) && 0 <= i < |run| ensures !Starved(run[i]) {
        PauseFollowsLoad(c, run, labels, i);
      }
    }
  }
}
