/** The declared budget of one external call and the stale cut it yields. Durations
    are int64 nanoseconds, so every sum and difference below wraps as Go's does. */
module ExternalBudgets {

  const MAX_INT64: int := 0x7FFF_FFFF_FFFF_FFFF
  const TWO_64: int := 0x1_0000_0000_0000_0000
  const MIN_EXTERNAL_MARGIN: int := 1_000_000_000

  type int64 = x: int | -0x8000_0000_0000_0000 <= x <= 0x7FFF_FFFF_FFFF_FFFF

  /** The int64 an unbounded result wraps to. */
  function Wrap(x: int): (w: int64)
    ensures -MAX_INT64 - 1 <= x <= MAX_INT64 ==> w == x
  {
    (x + MAX_INT64 + 1) % TWO_64 - MAX_INT64 - 1
  }

  datatype Budget = Budget(limit: int64, settle: int64, processing: int64, margin: int64)

  datatype BudgetError = RouteLimit | Settle | Processing | MarginBelowMinimum | DoesNotFit | StaleCutOverflows | Fits

  /** The first refusal that applies, in the declared order. */
  function Validate(b: Budget): BudgetError {
    if b.limit <= 0 then RouteLimit
    else if b.settle <= 0 then Settle
    else if b.processing <= 0 then Processing
    else if b.margin < MIN_EXTERNAL_MARGIN then MarginBelowMinimum
    else if b.limit >= b.processing || b.settle >= Wrap(b.processing - b.limit) then DoesNotFit
    else if b.margin > Wrap(Wrap(MAX_INT64 - b.limit) - b.settle) then StaleCutOverflows
    else Fits
  }

  function StaleAfter(b: Budget): int64 {
    if b.margin > Wrap(Wrap(MAX_INT64 - b.limit) - b.settle) then MAX_INT64
    else Wrap(Wrap(b.limit + b.settle) + b.margin)
  }

  /** A budget is accepted exactly when its parts are positive, the call and its
      settlement fit the processing deadline, and the stale cut is an int64. */
  lemma ValidateMeaning(b: Budget)
    ensures Validate(b) == Fits <==>
      && b.limit > 0 && b.settle > 0 && b.processing > 0 && b.margin >= MIN_EXTERNAL_MARGIN
      && b.limit + b.settle < b.processing
      && b.limit + b.settle + b.margin <= MAX_INT64
  {
  }

  /** An accepted budget's cut is the exact sum: nothing wrapped on the way. */
  lemma StaleAfterIsTheSum(b: Budget)
    requires Validate(b) == Fits
    ensures StaleAfter(b) == b.limit + b.settle + b.margin
  {
    ValidateMeaning(b);
  }

  /** Positive parts whose sum overflows saturate instead of wrapping into the past. */
  lemma StaleAfterSaturates(b: Budget)
    requires b.limit > 0 && b.settle > 0 && b.margin > 0 && b.limit + b.settle <= MAX_INT64
    ensures StaleAfter(b) == (if b.limit + b.settle + b.margin <= MAX_INT64 then b.limit + b.settle + b.margin else MAX_INT64)
  {
  }

  /** Dispatch's test on a begun attempt it found. */
  predicate ResumePresumes(now: int64, startedAt: int64, staleAfter: int64) {
    Wrap(now - startedAt) >= staleAfter
  }

  /** The sweep's test: started at or before the cycle's cutoff. */
  predicate SweepLists(now: int64, startedAt: int64, staleAfter: int64) {
    startedAt <= Wrap(now - staleAfter)
  }

  predicate Fits64(x: int) {
    -MAX_INT64 - 1 <= x <= MAX_INT64
  }

  /** Resume and the sweep use the same cut exactly when the attempt's age and the
      sweep's cutoff both stay in int64 or both leave it: one of them wrapping alone
      sends the two tests opposite ways. Neither wrapping, the cut is the age itself. */
  lemma SameCutExactlyWhen(now: int64, startedAt: int64, staleAfter: int64)
    requires staleAfter > 0
    ensures (ResumePresumes(now, startedAt, staleAfter) <==> SweepLists(now, startedAt, staleAfter))
       <==> (Fits64(now - startedAt) <==> Fits64(now - staleAfter))
    ensures Fits64(now - startedAt) && Fits64(now - staleAfter) ==>
      (ResumePresumes(now, startedAt, staleAfter) <==> now - startedAt >= staleAfter)
  {
    assert Fits64(Wrap(now - startedAt)) && Fits64(Wrap(now - staleAfter));
  }

  /** With a clock past 1970 only an age beyond int64 separates them, so no attempt
      started since 1970 does. */
  lemma SameCutSinceTheEpoch(now: int64, startedAt: int64, staleAfter: int64)
    requires now >= 0 && staleAfter > 0
    ensures (ResumePresumes(now, startedAt, staleAfter) <==> SweepLists(now, startedAt, staleAfter))
       <==> now - startedAt <= MAX_INT64
    ensures startedAt >= 0 ==> (SweepLists(now, startedAt, staleAfter) <==> now - startedAt >= staleAfter)
  {
    SameCutExactlyWhen(now, startedAt, staleAfter);
  }

  /** Each test can be the one that wraps: the age of an attempt too old, and the cutoff
      of a clock too far back. */
  lemma CutsDiffer()
    ensures !ResumePresumes(MAX_INT64, -2, 1) && SweepLists(MAX_INT64, -2, 1)
    ensures !ResumePresumes(-MAX_INT64, -MAX_INT64, 3) && SweepLists(-MAX_INT64, -MAX_INT64, 3)
  {
    SameCutExactlyWhen(MAX_INT64, -2, 1);
    SameCutExactlyWhen(-MAX_INT64, -MAX_INT64, 3);
  }
}
