/** One worker of one partition: the contiguous-commit cursor, the sections its
    lock protects, and the run of the poll loop, the worker and the rebalance
    callback over them. */
module KafkaCursors {
  import opened Ports
  import opened ExternalProfiles

  datatype Record = Record(offset: int, value: seq<byte>)

  datatype Tracked = Tracked(record: Record, acked: bool)

  function MarkIn(tracked: seq<Tracked>, offset: int): seq<Tracked> {
    if |tracked| == 0 then []
    else if tracked[0].record.offset == offset then [tracked[0].(acked := true)] + tracked[1..]
    else [tracked[0]] + MarkIn(tracked[1..], offset)
  }

  /** One record looked at: it is the marked one, or the mark lies further on. */
  lemma MarkSplit(tracked: seq<Tracked>, i: nat, offset: int)
    requires i < |tracked|
    ensures tracked[..i] + MarkIn(tracked[i..], offset)
         == if tracked[i].record.offset == offset then tracked[i := tracked[i].(acked := true)]
            else tracked[..i + 1] + MarkIn(tracked[i + 1..], offset)
  {
    assert tracked[i..][1..] == tracked[i + 1..];
    assert tracked[..i] + [tracked[i]] == tracked[..i + 1];
  }

  /** How many records stand acknowledged at the head. */
  function AckedPrefix(tracked: seq<Tracked>): (n: nat)
    ensures n <= |tracked|
    ensures forall i :: 0 <= i < n ==> tracked[i].acked
    ensures n < |tracked| ==> !tracked[n].acked
  {
    if |tracked| > 0 && tracked[0].acked then 1 + AckedPrefix(tracked[1..]) else 0
  }

  /** The last record of the acknowledged prefix, and what stays tracked. */
  function NextContiguousIn(tracked: seq<Tracked>): (Option<Record>, seq<Tracked>) {
    var n := AckedPrefix(tracked);
    if n == 0 then (None, tracked) else (Some(tracked[n - 1].record), tracked[n..])
  }

  class Cursor {
    var tracked: seq<Tracked>

    constructor ()
      ensures tracked == []
    {
      tracked := [];
    }

    method Track(record: Record)
      modifies this
      ensures tracked == old(tracked) + [Tracked(record, false)]
    {
      tracked := tracked + [Tracked(record, false)];
    }

    /** The first record at the offset; an unknown offset is ignored. */
    method Mark(offset: int)
      modifies this
      ensures tracked == MarkIn(old(tracked), offset)
    {
      ghost var was := tracked;
      var i := 0;
      assert was[..0] + MarkIn(was[0..], offset) == MarkIn(was, offset);
      while i < |tracked|
        invariant 0 <= i <= |tracked| && tracked == was
        invariant MarkIn(was, offset) == was[..i] + MarkIn(was[i..], offset)
      {
        MarkSplit(was, i, offset);
        if tracked[i].record.offset == offset {
          tracked := tracked[i := tracked[i].(acked := true)];
          return;
        }
        i := i + 1;
      }
      assert was[..i] + [] == was;
    }

    method NextContiguous() returns (last: Option<Record>)
      modifies this
      ensures (last, tracked) == NextContiguousIn(old(tracked))
    {
      last := None;
      var n := 0;
      while n < |tracked| && tracked[n].acked
        invariant 0 <= n <= |tracked| && tracked == old(tracked)
        invariant AckedPrefix(tracked) == n + AckedPrefix(tracked[n..])
        invariant last == if n == 0 then None else Some(tracked[n - 1].record)
      {
        assert tracked[n..][1..] == tracked[n + 1..];
        last := Some(tracked[n].record);
        n := n + 1;
      }
      if n == 0 {
        return None;
      }
      tracked := tracked[n..];
    }
  }
}

module PartitionWorkers {
  import opened Ports
  import opened KafkaCursors

  /** What one delivery's acknowledger ends with. */
  datatype Gesture = Undecided | Acked | Released

  /** The fields the worker's lock protects. */
  datatype Worker = Worker(queue: seq<Record>, paused: bool, stalled: bool, revoked: bool, tracked: seq<Tracked>)

  const NEW_WORKER := Worker([], false, false, false, [])

  // --- The locked sections ---------------------------------------------------------------

  /** Appends, and pauses the fetch at the declared capacity. */
  function EnqueueSection(w: Worker, record: Record, capacity: int): (Worker, bool) {
    var queue := w.queue + [record];
    var pause := !w.paused && |queue| >= capacity;
    (w.(queue := queue, paused := w.paused || pause), pause)
  }

  /** Takes the head unless stalled; resumes below half the capacity. */
  function NextSection(w: Worker, capacity: int): (Worker, Option<Record>, bool) {
    if w.stalled || |w.queue| == 0 then (w, None, false)
    else
      var queue := w.queue[1..];
      var resume := w.paused && !w.stalled && |queue| < capacity / 2;
      (w.(queue := queue, paused := w.paused && !resume), Some(w.queue[0]), resume)
  }

  function StallSection(w: Worker): (Worker, bool) {
    (w.(stalled := true, paused := true), !w.paused)
  }

  function PauseForBackoffSection(w: Worker): (Worker, bool) {
    (w.(paused := true), !w.paused)
  }

  function ResumeAfterBackoffSection(w: Worker, capacity: int): (Worker, bool) {
    var resume := w.paused && !w.stalled && |w.queue| < capacity;
    (w.(paused := w.paused && !resume), resume)
  }

  function ResumeFetchSection(w: Worker): (Worker, bool) {
    (w.(paused := false), w.paused)
  }

  /** The commit gate: a revoked worker takes no prefix, the revocation takes the last. */
  function CommitSection(w: Worker, final: bool): (Worker, Option<Record>) {
    if w.revoked && !final then (w, None)
    else
      var (record, tracked) := NextContiguousIn(w.tracked);
      (w.(tracked := tracked), record)
  }

  class Acknowledger {
    var gesture: Gesture

    constructor ()
      ensures gesture == Undecided
    {
      gesture := Undecided;
    }

    /** The first gesture is terminal; a second one is refused. */
    method Decide(g: Gesture) returns (refused: bool)
      requires g != Undecided
      modifies this
      ensures refused == (old(gesture) != Undecided)
      ensures gesture == if refused then old(gesture) else g
    {
      if gesture != Undecided {
        return true;
      }
      gesture := g;
      return false;
    }
  }

  /** The worker's fields, updated in place by each section. */
  class PartitionWorker {
    var queue: seq<Record>
    var paused: bool
    var stalled: bool
    var revoked: bool
    const cursor: Cursor
    const capacity: int

    ghost function Value(): Worker
      reads this, cursor
    {
      Worker(queue, paused, stalled, revoked, cursor.tracked)
    }

    constructor (capacity: int)
      ensures Value() == NEW_WORKER && this.capacity == capacity && fresh(cursor)
    {
      this.capacity := capacity;
      queue, paused, stalled, revoked := [], false, false, false;
      cursor := new Cursor();
    }

    method Enqueue(record: Record) returns (pause: bool)
      modifies this
      ensures (Value(), pause) == EnqueueSection(old(Value()), record, capacity)
    {
      queue := queue + [record];
      pause := !paused && |queue| >= capacity;
      if pause {
        paused := true;
      }
    }

    method Next() returns (record: Option<Record>, resume: bool)
      modifies this
      ensures (Value(), record, resume) == NextSection(old(Value()), capacity)
    {
      resume := false;
      if stalled || |queue| == 0 {
        return None, false;
      }
      record := Some(queue[0]);
      queue := queue[1..];
      if paused && !stalled && |queue| < capacity / 2 {
        paused := false;
        resume := true;
      }
    }

    method MarkRevoked()
      modifies this
      ensures Value() == old(Value()).(revoked := true)
    {
      revoked := true;
    }

    method Stall() returns (pause: bool)
      modifies this
      ensures (Value(), pause) == StallSection(old(Value()))
    {
      stalled := true;
      pause := !paused;
      paused := true;
    }

    method PauseForBackoff() returns (pause: bool)
      modifies this
      ensures (Value(), pause) == PauseForBackoffSection(old(Value()))
    {
      pause := !paused;
      paused := true;
    }

    method ResumeAfterBackoff() returns (resume: bool)
      modifies this
      ensures (Value(), resume) == ResumeAfterBackoffSection(old(Value()), capacity)
    {
      resume := paused && !stalled && |queue| < capacity;
      if resume {
        paused := false;
      }
    }

    method ResumeFetch() returns (resume: bool)
      modifies this
      ensures (Value(), resume) == ResumeFetchSection(old(Value()))
    {
      resume := paused;
      paused := false;
    }

    method TakePrefix(final: bool) returns (record: Option<Record>)
      modifies cursor
      ensures (Value(), record) == CommitSection(old(Value()), final)
    {
      if revoked && !final {
        return None;
      }
      record := cursor.NextContiguous();
    }
  }

  /** A drained partition lifts its own pause exactly when its declared capacity
      is at least two: half of one is zero, and no queue is shorter than that. */
  lemma DrainedPartitionResumesExactlyWhen(w: Worker, capacity: int)
    requires capacity > 0 && |w.queue| == 1 && w.paused && !w.stalled
    ensures NextSection(w, capacity).2 <==> capacity >= 2
  {
  }

  /** With a capacity of one, the first record pauses the fetch and taking it does
      not resume it: nothing is queued, nothing is stalled, and the pause stays. */
  lemma CapacityOneStarves(record: Record)
    ensures var (queued, pause) := EnqueueSection(NEW_WORKER, record, 1);
      var (drained, taken, resume) := NextSection(queued, 1);
      pause && taken == Some(record) && !resume && drained.paused && !drained.stalled && drained.queue == []
  {
  }
}
