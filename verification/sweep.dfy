/** One cycle of the sweep: cursor pages over a ledger that changes while it is walked. */
module Sweeps {
  import opened Ports
  import opened AttemptRows
  import opened AttemptLaws
  import opened StalePages
  import opened MemoryLedgers

  ghost predicate NewRowsLater(before: Ledger, after: Ledger, cutoff: Instant) {
    forall scope, i :: |RowsOf(before, scope)| <= i < |RowsOf(after, scope)| ==> RowsOf(after, scope)[i].startedAt > cutoff
  }

  /** The ledger at each listing of the cycle: rows may finish and new ones may
      begin in between, the new ones after the cutoff the cycle fixed. */
  ghost predicate Concurrent(at: nat -> Ledger, cutoff: Instant) {
    && (forall k: nat :: LedgerOk(at(k)))
    && (forall k: nat :: LedgerEvolves(at(k), at(k + 1)))
    && (forall k: nat :: NewRowsLater(at(k), at(k + 1), cutoff))
  }

  /** What a page reports: how many were seen and closed, and where to resume. */
  datatype Page = Page(seen: nat, swept: nat, next: Cursor)

  function CountClosed(page: seq<Attempt>, closes: Attempt -> bool): nat {
    if |page| == 0 then 0 else CountClosed(page[..|page| - 1], closes) + (if closes(page[|page| - 1]) then 1 else 0)
  }

  /** How far a page gets: to its end, or to where its context is found cancelled. */
  function Reached(listed: seq<Attempt>, cancelled: Option<nat>): nat {
    if cancelled.Some? && cancelled.value < |listed| then cancelled.value else |listed|
  }

  /** A failed listing reports nothing; a failed close does not stop the page, nor hold
      the cursor back; a cancelled context stops it before the next attempt. */
  method SweepStale(listing: Option<seq<Attempt>>, after: Cursor, closes: Attempt -> bool, cancelled: Option<nat>) returns (page: Page)
    ensures listing == None ==> page == Page(0, 0, START)
    ensures listing.Some? ==>
      var seen := listing.value[..Reached(listing.value, cancelled)];
      && page.seen == |seen|
      && page.swept == CountClosed(seen, closes)
      && page.next == if |seen| == 0 then after else CursorOf(seen[|seen| - 1])
  {
    if listing == None {
      return Page(0, 0, START);
    }
    var attempts := listing.value;
    page := Page(0, 0, after);
    for i := 0 to |attempts|
      invariant i <= Reached(attempts, cancelled)
      invariant page.seen == i
      invariant page.swept == CountClosed(attempts[..i], closes)
      invariant page.next == if i == 0 then after else CursorOf(attempts[i - 1])
    {
      if cancelled == Some(i) {
        return;
      }
      var attempt := attempts[i];
      page := page.(seen := page.seen + 1, next := CursorOf(attempt));
      assert attempts[..i + 1][..i] == attempts[..i];
      if closes(attempt) {
        page := page.(swept := page.swept + 1);
      }
    }
    assert attempts[..|attempts|] == attempts;
  }

  /** What is stale later in the cycle was stale before: rows only finish, and the
      new ones start too late. */
  lemma StaleShrinks(at: nat -> Ledger, cutoff: Instant, after: Cursor, k: nat)
    requires Concurrent(at, cutoff)
    ensures StaleSet(at(k + 1), cutoff, after) <= StaleSet(at(k), cutoff, after)
  {
    forall a | a in StaleSet(at(k + 1), cutoff, after) ensures a in StaleSet(at(k), cutoff, after) {
      var rows, rows' := RowsOf(at(k), a.scope), RowsOf(at(k + 1), a.scope);
      assert RowsEvolve(rows, rows');
      var i := a.n - 1;
      assert 0 <= i < |rows'| && StaleRow(rows'[i], cutoff, after, a);
      assert i < |rows|;
      assert RowEvolves(rows[i], rows'[i]);
      assert a == AttemptOf(a.scope, i + 1, rows[i]);
    }
  }

  /** Past the cursor of a page, exactly what the page did not list remains. */
  lemma PastThePage(ledger: Ledger, cutoff: Instant, after: Cursor, listed: seq<Attempt>, limit: nat, a: Attempt)
    requires IsPage(listed, StaleSet(ledger, cutoff, after), limit) && |listed| > 0
    requires a in StaleSet(ledger, cutoff, START)
    ensures var next := CursorOf(listed[|listed| - 1]);
      && next != START && (after == START || CompareCursor(next, after) > 0)
      && (CompareCursor(CursorOf(a), next) > 0 <==> a in StaleSet(ledger, cutoff, after) && a !in listed)
      && (a in StaleSet(ledger, cutoff, next) <==> CompareCursor(CursorOf(a), next) > 0)
  {
    var last := listed[|listed| - 1];
    var next := CursorOf(last);
    assert last in listed;
    assert last in StaleSet(ledger, cutoff, after);
    CursorAntisymmetric(CursorOf(a), next);
    CursorAntisymmetric(next, after);
    CursorAntisymmetric(CursorOf(a), after);
    CursorAntisymmetric(next, next);
    assert forall i :: 0 <= i < |listed| ==> CompareCursor(CursorOf(listed[i]), next) <= 0 by {
      assert forall i :: 0 <= i < |listed| - 1 ==> Precedes(listed[i], last);
    }
    if CompareCursor(CursorOf(a), next) > 0 {
      if after != START {
        CursorTransitive(after, next, CursorOf(a));
        CursorAntisymmetric(after, CursorOf(a));
      }
    }
  }

  /** The set of what is still ahead shrinks with every full page. */
  lemma NextPageIsSmaller(at: nat -> Ledger, cutoff: Instant, after: Cursor, listed: seq<Attempt>, limit: nat, k: nat)
    requires Concurrent(at, cutoff) && IsPage(listed, StaleSet(at(k), cutoff, after), limit) && |listed| > 0
    ensures StaleSet(at(k + 1), cutoff, CursorOf(listed[|listed| - 1])) < StaleSet(at(k), cutoff, after)
  {
    var last := listed[|listed| - 1];
    assert last in listed;
    StaleShrinks(at, cutoff, CursorOf(last), k);
    forall a | a in StaleSet(at(k), cutoff, CursorOf(last)) ensures a in StaleSet(at(k), cutoff, after) && a != last {
      assert a in StaleSet(at(k), cutoff, START);
      PastThePage(at(k), cutoff, after, listed, limit, a);
      CursorAntisymmetric(CursorOf(last), CursorOf(last));
    }
  }

  /** Nothing behind the cursor is left to visit. */
  ghost predicate VisitedUpTo(visited: seq<Attempt>, stale: set<Attempt>, after: Cursor) {
    forall a :: a in stale && !(after == START || CompareCursor(CursorOf(a), after) > 0) ==> a in visited
  }

  ghost predicate WasStale(at: nat -> Ledger, cutoff: Instant, a: Attempt, listings: nat) {
    exists k: nat :: k < listings && a in StaleSet(at(k), cutoff, START)
  }

  /** Each visited attempt was stale at one of the listings. */
  ghost predicate WereStale(at: nat -> Ledger, cutoff: Instant, visited: seq<Attempt>, listings: nat) {
    forall a :: a in visited ==> WasStale(at, cutoff, a, listings)
  }

  lemma StillWereStale(at: nat -> Ledger, cutoff: Instant, visited: seq<Attempt>, seen: seq<Attempt>, k: nat)
    requires WereStale(at, cutoff, visited, k)
    requires forall a :: a in seen ==> a in StaleSet(at(k), cutoff, START)
    ensures WereStale(at, cutoff, visited + seen, k + 1)
  {
    forall a | a in visited + seen ensures WasStale(at, cutoff, a, k + 1) {
      if a in visited {
        assert WasStale(at, cutoff, a, k);
      }
    }
  }

  /** What was visited up to the cursor still is when the ledger moved on. */
  lemma StillVisited(at: nat -> Ledger, cutoff: Instant, visited: seq<Attempt>, after: Cursor, k: nat)
    requires Concurrent(at, cutoff) && VisitedUpTo(visited, StaleSet(at(k), cutoff, START), after)
    ensures VisitedUpTo(visited, StaleSet(at(k + 1), cutoff, START), after)
  {
    StaleShrinks(at, cutoff, START, k);
  }

  /** What befalls the k-th page: whether its listing fails, at which attempt its context
      is found cancelled, if it is by the page's end, and which closes succeed. */
  datatype Luck = Luck(fails: nat -> bool, cancelled: nat -> Option<nat>, closes: (nat, Attempt) -> bool)

  /** The cycle over every page. Each attempt is visited at most once and in cursor order,
      none behind the last one is skipped, and no row but a stale one is visited; and
      when no listing fails and nothing cancels the cycle, every attempt still begun at
      the last listing was visited, whichever closes failed. */
  method SweepCycle(at: nat -> Ledger, cutoff: Instant, batch: nat, luck: Luck)
    returns (visited: seq<Attempt>, listings: nat)
    requires batch >= 1 && Concurrent(at, cutoff)
    ensures listings >= 1
    ensures Ascending(visited)
    ensures WereStale(at, cutoff, visited, listings)
    ensures visited != [] ==> VisitedUpTo(visited, StaleSet(at(listings - 1), cutoff, START), CursorOf(visited[|visited| - 1]))
    ensures (forall k: nat :: k < listings ==> !luck.fails(k) && luck.cancelled(k) == None) ==>
      forall a :: a in StaleSet(at(listings - 1), cutoff, START) ==> a in visited
  {
    visited := [];
    var k := 0;
    var after := START;
    while true
      invariant Underway(at, cutoff, visited, after, k)
      decreases StaleSet(at(k), cutoff, after)
    {
      listings := k + 1;
      var page, seen := VisitPage(at(k), cutoff, after, batch, luck.fails(k), a => luck.closes(k, a), luck.cancelled(k), visited);
      if page.seen < batch || page.next == after || luck.cancelled(k).Some? {
        LastPage(at, cutoff, visited, seen, after, k, batch, !luck.fails(k) && luck.cancelled(k) == None);
        return visited + seen, listings;
      }
      PageTurns(at, cutoff, visited, seen, after, k, batch, !luck.fails(k) && luck.cancelled(k) == None);
      visited := visited + seen;
      after := page.next;
      k := k + 1;
    }
  }

  /** The visit before the k-th listing. */
  ghost predicate Underway(at: nat -> Ledger, cutoff: Instant, visited: seq<Attempt>, after: Cursor, k: nat) {
    && Ascending(visited)
    && WereStale(at, cutoff, visited, k)
    && BehindCursor(visited, after)
    && VisitedUpTo(visited, StaleSet(at(k), cutoff, START), after)
  }

  lemma PageTurns(at: nat -> Ledger, cutoff: Instant, visited: seq<Attempt>, seen: seq<Attempt>, after: Cursor, k: nat, batch: nat, whole: bool)
    requires batch >= 1 && Concurrent(at, cutoff) && Underway(at, cutoff, visited, after, k) && |seen| >= batch
    requires PageDone(visited, seen, at(k), cutoff, after, batch, whole)
    ensures var next := CursorOf(seen[|seen| - 1]);
      && Underway(at, cutoff, visited + seen, next, k + 1)
      && StaleSet(at(k + 1), cutoff, next) < StaleSet(at(k), cutoff, after)
  {
    StillWereStale(at, cutoff, visited, seen, k);
    NextPageIsSmaller(at, cutoff, after, seen, batch, k);
    StillVisited(at, cutoff, visited + seen, CursorOf(seen[|seen| - 1]), k);
  }

  lemma LastPage(at: nat -> Ledger, cutoff: Instant, visited: seq<Attempt>, seen: seq<Attempt>, after: Cursor, k: nat, batch: nat, whole: bool)
    requires batch >= 1 && Concurrent(at, cutoff) && Underway(at, cutoff, visited, after, k)
    requires PageDone(visited, seen, at(k), cutoff, after, batch, whole)
    ensures var all := visited + seen;
      && Ascending(all)
      && WereStale(at, cutoff, all, k + 1)
      && (all != [] ==> VisitedUpTo(all, StaleSet(at(k), cutoff, START), CursorOf(all[|all| - 1])))
      && (whole && |seen| < batch ==> forall a :: a in StaleSet(at(k), cutoff, START) ==> a in all)
  {
    StillWereStale(at, cutoff, visited, seen, k);
  }

  /** What a page leaves once it saw `seen`: the visit goes on in order and completely up
      to its new cursor, and a short page that saw all it listed was the last one. */
  ghost predicate PageDone(visited: seq<Attempt>, seen: seq<Attempt>, ledger: Ledger, cutoff: Instant, after: Cursor, batch: nat, whole: bool) {
    && Ascending(visited + seen)
    && (forall a :: a in seen ==> a in StaleSet(ledger, cutoff, START))
    && (|seen| == 0 ==> visited + seen == visited)
    && (|seen| > 0 ==>
      var next := CursorOf(seen[|seen| - 1]);
      next != after && BehindCursor(visited + seen, next) && VisitedUpTo(visited + seen, StaleSet(ledger, cutoff, START), next))
    && (|seen| >= batch ==> IsPage(seen, StaleSet(ledger, cutoff, after), batch))
    && (whole && |seen| < batch ==> forall a :: a in StaleSet(ledger, cutoff, START) ==> a in visited + seen)
  }

  /** One page of the cycle: listed, seen as far as its context lets it, and closed. */
  method VisitPage(ledger: Ledger, cutoff: Instant, after: Cursor, batch: nat, fails: bool, closes: Attempt -> bool,
                   cancelled: Option<nat>, ghost visited: seq<Attempt>)
    returns (page: Page, seen: seq<Attempt>)
    requires batch >= 1 && Ascending(visited) && BehindCursor(visited, after)
    requires VisitedUpTo(visited, StaleSet(ledger, cutoff, START), after)
    ensures page.seen == |seen| && (|seen| > 0 ==> page.next == CursorOf(seen[|seen| - 1]))
    ensures PageDone(visited, seen, ledger, cutoff, after, batch, !fails && cancelled == None)
  {
    var listing := ListPage(ledger, cutoff, after, batch, fails);
    page := SweepStale(listing, after, closes, cancelled);
    if listing == None {
      assert visited + [] == visited;
      return page, [];
    }
    var n := Reached(listing.value, cancelled);
    seen := listing.value[..n];
    Visits(visited, ledger, cutoff, after, listing.value, n, batch, !fails && cancelled == None);
  }

  method ListPage(ledger: Ledger, cutoff: Instant, after: Cursor, batch: nat, fails: bool) returns (listing: Option<seq<Attempt>>)
    requires batch >= 1
    ensures listing == None <==> fails
    ensures listing.Some? ==> IsPage(listing.value, StaleSet(ledger, cutoff, after), batch)
  {
    if fails {
      return None;
    }
    var store := new MemoryLedger();
    store.attempts := ledger;
    var listed := store.Stale(cutoff, after, batch);
    return Some(listed.value);
  }

  /** What was seen of a page is the shorter page. */
  lemma PrefixIsPage(listed: seq<Attempt>, all: set<Attempt>, limit: nat, n: nat)
    requires IsPage(listed, all, limit) && n <= |listed|
    ensures n < |listed| ==> IsPage(listed[..n], all, n)
  {
    if n < |listed| {
      forall a | a in all && a !in listed[..n] ensures forall b :: b in listed[..n] ==> Precedes(b, a) {
        if a in listed {
          var i :| 0 <= i < |listed| && listed[i] == a;
          assert forall j :: 0 <= j < n ==> listed[..n][j] == listed[j];
        }
      }
    }
  }

  ghost predicate BehindCursor(visited: seq<Attempt>, after: Cursor) {
    && after == (if visited == [] then START else CursorOf(visited[|visited| - 1]))
    && (visited != [] ==> after != START)
    && forall a :: a in visited ==> after == CursorOf(a) || CompareCursor(CursorOf(a), after) < 0
  }

  lemma Visits(visited: seq<Attempt>, ledger: Ledger, cutoff: Instant, after: Cursor, listed: seq<Attempt>, n: nat, batch: nat, whole: bool)
    requires batch >= 1 && n <= |listed| && (whole ==> n == |listed|)
    requires Ascending(visited) && BehindCursor(visited, after)
    requires IsPage(listed, StaleSet(ledger, cutoff, after), batch)
    requires VisitedUpTo(visited, StaleSet(ledger, cutoff, START), after)
    ensures PageDone(visited, listed[..n], ledger, cutoff, after, batch, whole)
  {
    var seen := listed[..n];
    if n == |listed| {
      assert seen == listed;
      VisitsSeen(visited, ledger, cutoff, after, seen, batch);
    } else if n > 0 {
      PrefixIsPage(listed, StaleSet(ledger, cutoff, after), batch, n);
      VisitsSeen(visited, ledger, cutoff, after, seen, n);
    } else {
      assert visited + seen == visited;
    }
  }

  lemma VisitsSeen(visited: seq<Attempt>, ledger: Ledger, cutoff: Instant, after: Cursor, seen: seq<Attempt>, limit: nat)
    requires limit >= 1 && Ascending(visited) && BehindCursor(visited, after)
    requires IsPage(seen, StaleSet(ledger, cutoff, after), limit)
    requires VisitedUpTo(visited, StaleSet(ledger, cutoff, START), after)
    ensures Ascending(visited + seen)
    ensures forall a :: a in seen ==> a in StaleSet(ledger, cutoff, START)
    ensures |seen| < limit ==> forall a :: a in StaleSet(ledger, cutoff, START) ==> a in visited + seen
    ensures |seen| > 0 ==>
      var next := CursorOf(seen[|seen| - 1]);
      next != after && BehindCursor(visited + seen, next) && VisitedUpTo(visited + seen, StaleSet(ledger, cutoff, START), next)
    ensures |seen| == 0 ==> visited + seen == visited
  {
    Extends(visited, ledger, cutoff, after, seen, limit);
    if |seen| == 0 {
      assert visited + seen == visited;
    }
  }

  /** Adding a page keeps the visit ordered and complete up to its cursor. */
  lemma Extends(visited: seq<Attempt>, ledger: Ledger, cutoff: Instant, after: Cursor, listed: seq<Attempt>, limit: nat)
    requires limit >= 1 && Ascending(visited) && IsPage(listed, StaleSet(ledger, cutoff, after), limit)
    requires after == START ==> visited == []
    requires forall a :: a in visited ==> after == CursorOf(a) || CompareCursor(CursorOf(a), after) < 0
    requires VisitedUpTo(visited, StaleSet(ledger, cutoff, START), after)
    ensures Ascending(visited + listed)
    ensures forall a :: a in listed ==> a in StaleSet(ledger, cutoff, START)
    ensures |listed| < limit ==> forall a :: a in StaleSet(ledger, cutoff, START) ==> a in visited + listed
    ensures |listed| > 0 ==>
      var next := CursorOf(listed[|listed| - 1]);
      && next != START && next != after
      && (forall a :: a in visited + listed ==> next == CursorOf(a) || CompareCursor(CursorOf(a), next) < 0)
      && VisitedUpTo(visited + listed, StaleSet(ledger, cutoff, START), next)
  {
    forall i, j | 0 <= i < |visited| && 0 <= j < |listed| ensures Precedes(visited[i], listed[j]) {
      assert visited[i] in visited && listed[j] in listed;
      assert listed[j] in StaleSet(ledger, cutoff, after);
      CursorAntisymmetric(after, CursorOf(listed[j]));
      if after != CursorOf(visited[i]) {
        CursorTransitive(CursorOf(visited[i]), after, CursorOf(listed[j]));
      }
    }
    forall a | a in listed ensures a in StaleSet(ledger, cutoff, START) {
      assert a in StaleSet(ledger, cutoff, after);
    }
    forall a | a in StaleSet(ledger, cutoff, START) ensures a in visited || a in StaleSet(ledger, cutoff, after) {
    }
    if |listed| > 0 {
      var last := listed[|listed| - 1];
      var next := CursorOf(last);
      assert last in listed;
      PastThePage(ledger, cutoff, after, listed, limit, last);
      CursorAntisymmetric(next, after);
      forall a | a in visited + listed ensures next == CursorOf(a) || CompareCursor(CursorOf(a), next) < 0 {
        var i :| 0 <= i < |visited + listed| && (visited + listed)[i] == a;
        if i < |visited| {
          assert Precedes(visited[i], last);
        }
      }
      forall a | a in StaleSet(ledger, cutoff, START) && !(CompareCursor(CursorOf(a), next) > 0) ensures a in visited + listed {
        PastThePage(ledger, cutoff, after, listed, limit, a);
      }
    }
  }

  /** An attempt stale at the start is visited unless it finished during the cycle. */
  lemma {:induction false} StillStaleOrFinished(at: nat -> Ledger, cutoff: Instant, a: Attempt, k: nat)
    requires Concurrent(at, cutoff) && a in StaleSet(at(0), cutoff, START)
    ensures a.n <= |RowsOf(at(k), a.scope)| && a.n >= 1
    ensures a in StaleSet(at(k), cutoff, START) <==> !RowsOf(at(k), a.scope)[a.n - 1].finished
    ensures a == AttemptOf(a.scope, a.n, RowsOf(at(k), a.scope)[a.n - 1])
  {
    if k > 0 {
      StillStaleOrFinished(at, cutoff, a, k - 1);
      assert RowsEvolve(RowsOf(at(k - 1), a.scope), RowsOf(at(k - 1 + 1), a.scope));
      assert RowEvolves(RowsOf(at(k - 1), a.scope)[a.n - 1], RowsOf(at(k), a.scope)[a.n - 1]);
    }
  }
}
