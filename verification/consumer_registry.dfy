/** The consumer's registry of partition workers: created on first sight, released on
    a rebalance, and kept aside while a released one has not left. */
module ConsumerRegistries {
  import opened Ports
  import opened ExternalBudgets

  datatype Partition = Partition(topic: string, number: int)

  // --- The declared times ---------------------------------------------------------------------

  datatype Times = Times(processing: int64, rebalance: int64, grace: int64)

  datatype TimesError = TimesFit | ProcessingDeadline | RebalanceTimeout | RevokeGrace | GraceDoesNotFit

  function ValidateTimes(t: Times): TimesError {
    if t.processing <= 0 then ProcessingDeadline
    else if t.rebalance <= 0 || t.processing >= t.rebalance then RebalanceTimeout
    else if t.grace <= 0 then RevokeGrace
    else if t.grace >= Wrap(t.rebalance - t.processing) then GraceDoesNotFit
    else TimesFit
  }

  /** Accepted times leave room, inside one rebalance, for a delivery begun just before
      the revocation and for the wait after it; no difference wraps on the way. */
  lemma ValidateTimesMeaning(t: Times)
    ensures ValidateTimes(t) == TimesFit <==>
      t.processing > 0 && t.grace > 0 && t.processing + t.grace < t.rebalance
  {
  }

  // --- The registry ------------------------------------------------------------------------------

  /** `made` gives each worker ever created its partition, `live` those still running;
      `leaving` are the workers a shutdown took out and still waits for. */
  datatype State = State(
    workers: map<Partition, nat>,
    stuck: map<Partition, nat>,
    leaving: map<Partition, nat>,
    next: nat,
    made: map<nat, Partition>,
    live: set<nat>)

  const EMPTY := State(map[], map[], map[], 0, map[], {})

  /** First sight creates; a partition whose released worker is stuck gets none. */
  function SeeIn(s: State, p: Partition): (State, Option<nat>) {
    if p in s.stuck then (s, None)
    else if p in s.workers then (s, Some(s.workers[p]))
    else
      (s.(workers := s.workers[p := s.next], next := s.next + 1, made := s.made[s.next := p], live := s.live + {s.next}),
       Some(s.next))
  }

  /** The workers of a map that are still running, kept aside. */
  function Stayed(taken: map<Partition, nat>, live: set<nat>): map<Partition, nat> {
    map p | p in taken && taken[p] in live :: taken[p]
  }

  function TakenOf(s: State, gone: set<Partition>): map<Partition, nat> {
    map p | p in s.workers && p in gone :: s.workers[p]
  }

  /** `left` are the workers that ended by the end of the wait. */
  function ReleaseIn(s: State, gone: set<Partition>, left: set<nat>): State {
    s.(workers := s.workers - gone, stuck := s.stuck + Stayed(TakenOf(s, gone), s.live - left), live := s.live - left)
  }

  /** A shutdown first takes every worker out, and settles them after its wait. */
  function StopBeginIn(s: State): State {
    s.(workers := map[], leaving := s.workers)
  }

  function StopEndIn(s: State, left: set<nat>): State {
    s.(stuck := s.stuck + Stayed(s.leaving, s.live - left), leaving := map[], live := s.live - left)
  }

  /** A rebalance callback is one step, since the client serializes them and none runs
      during a poll; but one may run between the two steps of a shutdown. */
  datatype Label =
    | See(p: Partition)
    | Release(gone: set<Partition>, left: set<nat>)
    | StopBegin
    | StopEnd(left: set<nat>)
    | Exit(wid: nat)

  predicate Enabled(s: State, l: Label) {
    l.StopBegin? ==> s.leaving == map[]
  }

  function Next(s: State, l: Label): State {
    match l
    case See(p) => SeeIn(s, p).0
    case Release(gone, left) => ReleaseIn(s, gone, left)
    case StopBegin => StopBeginIn(s)
    case StopEnd(left) => StopEndIn(s, left)
    case Exit(wid) => s.(live := s.live - {wid})
  }

  ghost predicate RegisteredOk(s: State, m: map<Partition, nat>) {
    forall p :: p in m ==> m[p] in s.made && s.made[m[p]] == p
  }

  predicate Holds(m: map<Partition, nat>, p: Partition, wid: nat) {
    p in m && m[p] == wid
  }

  ghost predicate LiveOk(s: State, wid: nat) {
    && wid in s.made
    && var p := s.made[wid]; Holds(s.workers, p, wid) || Holds(s.stuck, p, wid) || Holds(s.leaving, p, wid)
  }

  /** The shutdown still waits for a running worker of the partition. */
  predicate Awaited(s: State, p: Partition) {
    p in s.leaving && s.leaving[p] in s.live
  }

  ghost predicate Inv(s: State) {
    && RegisteredOk(s, s.workers)
    && RegisteredOk(s, s.stuck)
    && RegisteredOk(s, s.leaving)
    && s.workers.Keys !! s.stuck.Keys
    && (forall wid :: wid in s.made ==> wid < s.next)
    && (forall wid :: wid in s.live ==> LiveOk(s, wid))
    && (forall p :: Awaited(s, p) ==> p !in s.workers && p !in s.stuck)
  }

  ghost predicate SamePartition(s: State, a: nat, b: nat) {
    a in s.live && b in s.live && a in s.made && b in s.made && s.made[a] == s.made[b]
  }

  ghost predicate OneEach(s: State) {
    forall a, b :: SamePartition(s, a, b) ==> a == b
  }

  /** A partition is assigned while the shutdown still waits for its running worker. */
  predicate Overlaps(s: State, l: Label) {
    l.See? && l.p !in s.workers && l.p !in s.stuck && Awaited(s, l.p)
  }

  lemma SeeKeeps(s: State, p: Partition)
    requires Inv(s) && !Overlaps(s, See(p))
    ensures Inv(SeeIn(s, p).0)
  {
    var t := SeeIn(s, p).0;
    forall wid | wid in t.live ensures LiveOk(t, wid) {
      assert wid in s.live ==> LiveOk(s, wid);
    }
    forall q | Awaited(t, q) ensures q !in t.workers && q !in t.stuck {
      assert s.leaving[q] in s.made;
      assert Awaited(s, q);
    }
  }

  lemma ReleaseKeeps(s: State, gone: set<Partition>, left: set<nat>)
    requires Inv(s)
    ensures Inv(ReleaseIn(s, gone, left))
  {
    var t := ReleaseIn(s, gone, left);
    forall wid | wid in t.live ensures LiveOk(t, wid) {
      assert LiveOk(s, wid);
    }
    forall q | Awaited(t, q) ensures q !in t.workers && q !in t.stuck {
      assert Awaited(s, q);
    }
  }

  lemma StopBeginKeeps(s: State)
    requires Inv(s) && s.leaving == map[]
    ensures Inv(StopBeginIn(s))
  {
    var t := StopBeginIn(s);
    forall wid | wid in t.live ensures LiveOk(t, wid) {
      assert LiveOk(s, wid);
    }
  }

  lemma StopEndKeeps(s: State, left: set<nat>)
    requires Inv(s)
    ensures Inv(StopEndIn(s, left))
  {
    var t := StopEndIn(s, left);
    forall p | p in Stayed(s.leaving, s.live - left) ensures Awaited(s, p) {
    }
    forall wid | wid in t.live ensures LiveOk(t, wid) {
      assert LiveOk(s, wid);
      assert Holds(s.stuck, s.made[wid], wid) ==> !Awaited(s, s.made[wid]);
    }
  }

  lemma ExitKeeps(s: State, wid: nat)
    requires Inv(s)
    ensures Inv(s.(live := s.live - {wid}))
  {
    var t := s.(live := s.live - {wid});
    forall w | w in t.live ensures LiveOk(t, w) {
      assert LiveOk(s, w);
    }
    forall q | Awaited(t, q) ensures q !in t.workers && q !in t.stuck {
      assert Awaited(s, q);
    }
  }

  lemma StepKeeps(s: State, l: Label)
    requires Inv(s) && Enabled(s, l) && !Overlaps(s, l)
    ensures Inv(Next(s, l))
  {
    match l {
      case See(p) => SeeKeeps(s, p);
      case Release(gone, left) => ReleaseKeeps(s, gone, left);
      case StopBegin => StopBeginKeeps(s);
      case StopEnd(left) => StopEndKeeps(s, left);
      case Exit(wid) => ExitKeeps(s, wid);
    }
  }

  lemma InvMeansOneEach(s: State)
    requires Inv(s)
    ensures OneEach(s)
  {
    forall a, b | SamePartition(s, a, b) ensures a == b {
      assert LiveOk(s, a) && LiveOk(s, b);
      assert Holds(s.leaving, s.made[a], a) ==> Awaited(s, s.made[a]);
      assert Holds(s.leaving, s.made[b], b) ==> Awaited(s, s.made[b]);
    }
  }

  /** A step gives a partition a second running worker exactly when it assigns it while
      a shutdown waits for the first. */
  lemma SecondWorkerExactlyWhen(s: State, l: Label)
    requires Inv(s) && Enabled(s, l)
    ensures !OneEach(Next(s, l)) <==> Overlaps(s, l)
  {
    var t := Next(s, l);
    if Overlaps(s, l) {
      assert t.live == s.live + {s.next} && t.made == s.made[s.next := l.p];
      assert SamePartition(t, s.leaving[l.p], s.next);
    } else {
      StepKeeps(s, l);
      InvMeansOneEach(t);
    }
  }

  ghost predicate IsRun(run: seq<State>, labels: seq<Label>) {
    && |run| == |labels| + 1
    && run[0] == EMPTY
    && forall i :: 0 <= i < |labels| ==> Enabled(run[i], labels[i]) && run[i + 1] == Next(run[i], labels[i])
  }

  lemma {:induction false} RunKeeps(run: seq<State>, labels: seq<Label>, n: nat)
    requires IsRun(run, labels) && n < |run|
    requires forall i :: 0 <= i < n ==> !Overlaps(run[i], labels[i])
    ensures Inv(run[n])
  {
    if n > 0 {
      RunKeeps(run, labels, n - 1);
      StepKeeps(run[n - 1], labels[n - 1]);
    }
  }

  /** A partition never has two running workers, whatever is assigned, revoked, lost and
      assigned again, and whenever each worker ends; a run breaks this first exactly at an
      assignment that overlaps a shutdown. */
  lemma OneWorkerPerPartition(run: seq<State>, labels: seq<Label>, n: nat)
    requires IsRun(run, labels) && n < |labels|
    requires forall i :: 0 <= i < n ==> !Overlaps(run[i], labels[i])
    ensures OneEach(run[n])
    ensures OneEach(run[n + 1]) <==> !Overlaps(run[n], labels[n])
  {
    RunKeeps(run, labels, n);
    InvMeansOneEach(run[n]);
    SecondWorkerExactlyWhen(run[n], labels[n]);
  }

  /** Such a run: the shutdown takes the worker out, and the partition is assigned again
      before it left. */
  lemma ShutdownMayOverlapAnAssignment(p: Partition)
    ensures var s := Next(Next(EMPTY, See(p)), StopBegin);
      Overlaps(s, See(p)) && !OneEach(Next(s, See(p)))
  {
    var one := Next(EMPTY, See(p));
    StepKeeps(EMPTY, See(p));
    StepKeeps(one, StopBegin);
    SecondWorkerExactlyWhen(Next(one, StopBegin), See(p));
  }

  /** A partition is refused exactly when a released worker of it did not leave in time,
      and such a partition is never served again by this process. */
  lemma RefusedExactlyWhenStuck(s: State, p: Partition, l: Label)
    requires Inv(s) && Enabled(s, l)
    ensures SeeIn(s, p).1 == None <==> p in s.stuck
    ensures p in s.stuck ==> p in Next(s, l).stuck && Next(s, l).stuck[p] == s.stuck[p]
  {
  }

  // --- The consumer --------------------------------------------------------------------------------

  /** When each worker ends, if it does. */
  type Exits = nat -> Option<Instant>

  predicate EndedBy(exits: Exits, wid: nat, at: Instant) {
    exits(wid).Some? && exits(wid).value <= at
  }

  /** The workers that stayed are the taken ones still live after the wait. */
  lemma StayedAreLive(s: State, taken: map<Partition, nat>, ended: seq<nat>, stayed: seq<nat>,
                      exits: Exits, start: Instant, end: Instant)
    requires start <= end
    requires forall w :: w in s.made ==> (w in s.live <==> !EndedBy(exits, w, start))
    requires forall p :: p in taken ==> taken[p] in s.made && (taken[p] in ended || taken[p] in stayed)
    requires forall w :: w in ended ==> EndedBy(exits, w, end)
    requires forall w :: w in stayed ==> !EndedBy(exits, w, end)
    ensures (map p | p in taken && taken[p] in stayed :: taken[p]) == Stayed(taken, s.live - EndedLive(s.live, exits, end))
  {
    forall p | p in taken ensures taken[p] in stayed <==> taken[p] in s.live - EndedLive(s.live, exits, end) {
    }
  }

  function EndedLive(live: set<nat>, exits: Exits, end: Instant): set<nat> {
    set w | w in live && EndedBy(exits, w, end)
  }

  class Consumer {
    var workers: map<Partition, nat>
    var stuck: map<Partition, nat>
    var next: nat
    ghost var leaving: map<Partition, nat>
    ghost var made: map<nat, Partition>
    ghost var live: set<nat>

    ghost function Value(): State
      reads this
    {
      State(workers, stuck, leaving, next, made, live)
    }

    constructor ()
      ensures Value() == EMPTY
    {
      workers, stuck, next := map[], map[], 0;
      leaving, made, live := map[], map[], {};
    }

    method Worker(p: Partition) returns (w: Option<nat>)
      modifies this
      ensures (Value(), w) == SeeIn(old(Value()), p)
    {
      if p in stuck {
        return None;
      }
      if p in workers {
        return Some(workers[p]);
      }
      w := Some(next);
      workers, made, live := workers[p := next], made[next := p], live + {next};
      next := next + 1;
    }

    /** One grace for all of them: the wait moves on as each ends, and once it expires
        each remaining one is only looked at. */
    method AwaitLeave(ws: seq<nat>, exits: Exits, start: Instant, grace: nat) returns (left: seq<nat>, stayed: seq<nat>, end: Instant)
      ensures end >= start
      ensures forall w :: w in ws ==> w in left || w in stayed
      ensures forall w :: w in left ==> w in ws && EndedBy(exits, w, end)
      ensures forall w :: w in stayed ==> w in ws && !EndedBy(exits, w, end)
      ensures stayed != [] ==> end == start + grace
    {
      left, stayed, end := [], [], start;
      var expired := false;
      for i := 0 to |ws|
        invariant start <= end <= start + grace && (expired ==> end == start + grace) && (stayed != [] ==> expired)
        invariant forall k :: 0 <= k < i ==> ws[k] in left || ws[k] in stayed
        invariant forall w :: w in left ==> w in ws && EndedBy(exits, w, end)
        invariant forall w :: w in stayed ==> w in ws && !EndedBy(exits, w, start + grace)
      {
        var w := ws[i];
        if !expired {
          if EndedBy(exits, w, start + grace) {
            end := if exits(w).value > end then exits(w).value else end;
            left := left + [w];
            continue;
          }
          end, expired := start + grace, true;
        }
        if EndedBy(exits, w, end) {
          left := left + [w];
        } else {
          stayed := stayed + [w];
        }
      }
    }

    static method Workers(taken: map<Partition, nat>) returns (ws: seq<nat>)
      ensures forall p :: p in taken ==> taken[p] in ws
      ensures forall w :: w in ws ==> w in taken.Values
    {
      ws := [];
      var pending := taken.Keys;
      while pending != {}
        invariant pending <= taken.Keys
        invariant forall p :: p in taken && p !in pending ==> taken[p] in ws
        invariant forall w :: w in ws ==> w in taken.Values
      {
        var p :| p in pending;
        pending := pending - {p};
        ws := ws + [taken[p]];
      }
    }

    /** Waits for workers taken out of the map, and keeps aside those that stayed; the
        workers of other partitions may end meanwhile. */
    method Settle(taken: map<Partition, nat>, exits: Exits, start: Instant, grace: nat) returns (end: Instant, ghost left: set<nat>)
      requires forall w :: w in made ==> (w in live <==> !EndedBy(exits, w, start))
      requires forall p :: p in taken ==> taken[p] in made
      modifies this`stuck, this`live
      ensures left == EndedLive(old(live), exits, end)
      ensures live == old(live) - left
      ensures stuck == old(stuck) + Stayed(taken, live)
      ensures end >= start && (Stayed(taken, live) != map[] ==> end == start + grace)
    {
      ghost var was := Value();
      var ws := Workers(taken);
      var ended, stayed;
      ended, stayed, end := AwaitLeave(ws, exits, start, grace);
      left := EndedLive(live, exits, end);
      StayedAreLive(was, taken, ended, stayed, exits, start, end);
      stuck := stuck + (map p | p in taken && taken[p] in stayed :: taken[p]);
      live := live - left;
    }

    /** Takes the partitions out and settles their workers under one grace. */
    method Release(gone: seq<Partition>, exits: Exits, start: Instant, grace: nat) returns (end: Instant, ghost left: set<nat>)
      requires Inv(Value())
      requires forall w :: w in made ==> (w in live <==> !EndedBy(exits, w, start))
      modifies this
      ensures Value() == ReleaseIn(old(Value()), (set p | p in gone), left)
      ensures left == EndedLive(old(live), exits, end)
      ensures Inv(Value())
    {
      ghost var was := Value();
      var taken := map p | p in workers && p in gone :: workers[p];
      workers := workers - (set p | p in gone);
      end, left := Settle(taken, exits, start, grace);
      assert taken == TakenOf(was, set p | p in gone);
      StepKeeps(was, Label.Release((set p | p in gone), left));
    }

    /** A shutdown with no callback in between: takes every worker out and settles them. */
    method StopAll(exits: Exits, start: Instant, grace: nat) returns (end: Instant, ghost left: set<nat>)
      requires Inv(Value()) && leaving == map[]
      requires forall w :: w in made ==> (w in live <==> !EndedBy(exits, w, start))
      modifies this
      ensures Value() == StopEndIn(StopBeginIn(old(Value())), left)
      ensures left == EndedLive(old(live), exits, end)
      ensures Inv(Value()) && workers == map[]
    {
      ghost var was := Value();
      var taken := workers;
      workers := map[];
      end, left := Settle(taken, exits, start, grace);
      StepKeeps(was, StopBegin);
      StepKeeps(StopBeginIn(was), StopEnd(left));
    }
  }
}
