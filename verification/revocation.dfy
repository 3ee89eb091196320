/** Session revocation: the store that keeps the greatest event per key, the feed that
    applies events to it, and the poll that rereads the provider's window. */
module Revocations {
  import opened Ports

  /** The zero time of the events' clock, in nanoseconds since 1970. */
  const ZERO_TIME: Instant := -62135596800_000_000_000

  datatype Kind = KindSession | KindSubject

  datatype EventKind = SessionEnded | SubjectRevoked | OtherKind

  datatype SessionEvent = SessionEvent(
    id: string, kind: EventKind, issuer: string, subject: string, session: string, occurredAt: Instant)

  datatype Revocation = Revocation(kind: Kind, key: string, occurredAt: Instant, expiresAt: Instant)

  datatype SessionRef = SessionRef(id: string, subject: string, issuedAt: Instant)

  datatype Entry = Entry(revokedAt: Instant, expiresAt: Instant)

  type Entries = map<string, Entry>

  datatype Index = Index(sessions: Entries, subjects: Entries)

  datatype EventOutcome = Applied | Duplicate | Expired | Invalid | ForeignIssuer

  /** `keep` is how long an entry outlives its event. */
  datatype FeedConfig = FeedConfig(issuer: string, keep: nat)

  const EMPTY := Index(map[], map[])

  // --- The store ---------------------------------------------------------------------------

  predicate Live(e: Entry, now: Instant) {
    now < e.expiresAt
  }

  function Forgotten(entries: Entries, now: Instant): Entries {
    map k | k in entries && Live(entries[k], now) :: entries[k]
  }

  /** The greatest event wins; the expiry never moves back. */
  function KeepGreatest(entries: Entries, key: string, occurredAt: Instant, expiresAt: Instant): (Entries, bool) {
    if key in entries && occurredAt <= entries[key].revokedAt then (entries, false)
    else
      var expiry := if key in entries && entries[key].expiresAt > expiresAt then entries[key].expiresAt else expiresAt;
      (entries[key := Entry(occurredAt, expiry)], true)
  }

  function RevokeIn(s: Index, r: Revocation, now: Instant): (Index, bool) {
    var kept := Index(Forgotten(s.sessions, now), Forgotten(s.subjects, now));
    if r.expiresAt <= now then (kept, false)
    else if r.kind.KindSession? then
      var (entries, changed) := KeepGreatest(kept.sessions, r.key, r.occurredAt, r.expiresAt);
      (kept.(sessions := entries), changed)
    else
      var (entries, changed) := KeepGreatest(kept.subjects, r.key, r.occurredAt, r.expiresAt);
      (kept.(subjects := entries), changed)
  }

  function RevokedIn(s: Index, ref: SessionRef, now: Instant): Option<Kind> {
    if ref.id != "" && ref.id in s.sessions && Live(s.sessions[ref.id], now) then Some(KindSession)
    else if ref.subject in s.subjects && Live(s.subjects[ref.subject], now) && ref.issuedAt <= s.subjects[ref.subject].revokedAt
    then Some(KindSubject)
    else None
  }

  class MemoryStore {
    var sessions: Entries
    var subjects: Entries

    function Value(): Index
      reads this
    {
      Index(sessions, subjects)
    }

    constructor ()
      ensures Value() == EMPTY
    {
      sessions, subjects := map[], map[];
    }

    method Revoked(ref: SessionRef, now: Instant) returns (kind: Option<Kind>)
      ensures kind == RevokedIn(Value(), ref, now)
    {
      if ref.id != "" {
        if ref.id in sessions && Live(sessions[ref.id], now) {
          return Some(KindSession);
        }
      }
      if ref.subject in subjects && Live(subjects[ref.subject], now) && !(ref.issuedAt > subjects[ref.subject].revokedAt) {
        return Some(KindSubject);
      }
      return None;
    }

    method Revoke(r: Revocation, now: Instant) returns (changed: bool)
      modifies this
      ensures (Value(), changed) == RevokeIn(old(Value()), r, now)
    {
      sessions := ForgetExpired(sessions, now);
      subjects := ForgetExpired(subjects, now);
      if r.expiresAt <= now {
        return false;
      }
      if r.kind.KindSession? {
        sessions, changed := Keep(sessions, r);
      } else {
        subjects, changed := Keep(subjects, r);
      }
    }

    static method ForgetExpired(entries: Entries, now: Instant) returns (kept: Entries)
      ensures kept == Forgotten(entries, now)
    {
      kept := entries;
      var pending := entries.Keys;
      while pending != {}
        invariant pending <= entries.Keys
        invariant kept == map k | k in entries && (k in pending || Live(entries[k], now)) :: entries[k]
      {
        var k :| k in pending;
        pending := pending - {k};
        if !Live(entries[k], now) {
          kept := kept - {k};
        }
      }
    }

    static method Keep(entries: Entries, r: Revocation) returns (kept: Entries, changed: bool)
      ensures (kept, changed) == KeepGreatest(entries, r.key, r.occurredAt, r.expiresAt)
    {
      var found := r.key in entries;
      if found && !(r.occurredAt > entries[r.key].revokedAt) {
        return entries, false;
      }
      var expiry := r.expiresAt;
      if found && entries[r.key].expiresAt > expiry {
        expiry := entries[r.key].expiresAt;
      }
      return entries[r.key := Entry(r.occurredAt, expiry)], true;
    }
  }

  // --- The feed -------------------------------------------------------------------------------

  function KeyOf(e: SessionEvent): string {
    if e.kind.SessionEnded? then e.session else e.subject
  }

  function KindOf(e: SessionEvent): Kind {
    if e.kind.SessionEnded? then KindSession else KindSubject
  }

  predicate Complete(e: SessionEvent) {
    e.id != "" && e.issuer != "" && e.occurredAt != ZERO_TIME && !e.kind.OtherKind? && KeyOf(e) != ""
  }

  predicate Valid(f: FeedConfig, e: SessionEvent) {
    Complete(e) && e.issuer == f.issuer
  }

  /** `checked` and `recorded` are the two readings of the clock an application makes. */
  function ApplyIn(f: FeedConfig, s: Index, e: SessionEvent, checked: Instant, recorded: Instant): (Index, EventOutcome) {
    if !Complete(e) then (s, Invalid)
    else if e.issuer != f.issuer then (s, ForeignIssuer)
    else if e.occurredAt + f.keep <= checked then (s, Expired)
    else
      var (after, changed) := RevokeIn(s, Revocation(KindOf(e), KeyOf(e), e.occurredAt, e.occurredAt + f.keep), recorded);
      (after, if changed then Applied else Duplicate)
  }

  // --- The index against the raw log --------------------------------------------------------------

  /** The raw log's answer: any logged event of the session's, then any of the
      subject's that is not older than the token, as long as it is still kept. */
  ghost predicate Denies(f: FeedConfig, e: SessionEvent, kind: Kind, key: string, now: Instant) {
    KindOf(e) == kind && KeyOf(e) == key && now < e.occurredAt + f.keep
  }

  ghost predicate DeniesToken(f: FeedConfig, e: SessionEvent, ref: SessionRef, now: Instant) {
    Denies(f, e, KindSubject, ref.subject, now) && ref.issuedAt <= e.occurredAt
  }

  ghost function Scan(f: FeedConfig, log: set<SessionEvent>, ref: SessionRef, now: Instant): Option<Kind> {
    if ref.id != "" && exists e :: e in log && Denies(f, e, KindSession, ref.id, now) then Some(KindSession)
    else if exists e :: e in log && DeniesToken(f, e, ref, now) then Some(KindSubject)
    else None
  }

  ghost function EntriesFor(s: Index, kind: Kind): Entries {
    if kind.KindSession? then s.sessions else s.subjects
  }

  /** Each entry is a logged event, and no kept logged event is greater. */
  ghost predicate EntriesOk(f: FeedConfig, entries: Entries, kind: Kind, log: set<SessionEvent>, now: Instant) {
    && (forall k :: k in entries ==> Backed(f, entries[k], kind, log, k))
    && (forall e :: e in log && KindOf(e) == kind ==> Covered(f, entries, e, now))
  }

  ghost predicate Backed(f: FeedConfig, entry: Entry, kind: Kind, log: set<SessionEvent>, key: string) {
    entry.expiresAt == entry.revokedAt + f.keep && Witnessed(log, kind, key, entry.revokedAt)
  }

  ghost predicate Covered(f: FeedConfig, entries: Entries, e: SessionEvent, now: Instant) {
    now < e.occurredAt + f.keep ==> KeyOf(e) in entries && e.occurredAt <= entries[KeyOf(e)].revokedAt
  }

  ghost predicate Witnessed(log: set<SessionEvent>, kind: Kind, key: string, at: Instant) {
    exists e :: e in log && KindOf(e) == kind && KeyOf(e) == key && e.occurredAt == at
  }

  ghost function LoggedWith(f: FeedConfig, log: set<SessionEvent>, e: SessionEvent): set<SessionEvent> {
    if Valid(f, e) then log + {e} else log
  }

  ghost predicate AllValid(f: FeedConfig, log: set<SessionEvent>) {
    forall e :: e in log ==> Valid(f, e)
  }

  ghost predicate Inv(f: FeedConfig, s: Index, log: set<SessionEvent>, now: Instant) {
    && AllValid(f, log)
    && EntriesOk(f, s.sessions, KindSession, log, now)
    && EntriesOk(f, s.subjects, KindSubject, log, now)
  }

  lemma EntriesLater(f: FeedConfig, entries: Entries, kind: Kind, log: set<SessionEvent>, now: Instant, later: Instant)
    requires EntriesOk(f, entries, kind, log, now) && now <= later
    ensures EntriesOk(f, entries, kind, log, later)
  {
    forall e | e in log && KindOf(e) == kind ensures Covered(f, entries, e, later) {
      assert Covered(f, entries, e, now);
    }
  }

  lemma EntriesForgotten(f: FeedConfig, entries: Entries, kind: Kind, log: set<SessionEvent>, now: Instant, later: Instant)
    requires EntriesOk(f, entries, kind, log, now) && now <= later
    ensures EntriesOk(f, Forgotten(entries, later), kind, log, later)
  {
    forall e | e in log && KindOf(e) == kind ensures Covered(f, Forgotten(entries, later), e, later) {
      assert Covered(f, entries, e, now);
      if later < e.occurredAt + f.keep {
        assert Backed(f, entries[KeyOf(e)], kind, log, KeyOf(e));
      }
    }
  }

  lemma BackedStays(f: FeedConfig, entry: Entry, kind: Kind, log: set<SessionEvent>, key: string, e: SessionEvent)
    requires Backed(f, entry, kind, log, key)
    ensures Backed(f, entry, kind, log + {e}, key)
  {
    var w :| w in log && KindOf(w) == kind && KeyOf(w) == key && w.occurredAt == entry.revokedAt;
    assert w in log + {e};
  }

  lemma EntriesLogged(f: FeedConfig, entries: Entries, kind: Kind, log: set<SessionEvent>, now: Instant, e: SessionEvent)
    requires EntriesOk(f, entries, kind, log, now) && KindOf(e) == kind
    ensures EntriesOk(f, KeepGreatest(entries, KeyOf(e), e.occurredAt, e.occurredAt + f.keep).0, kind, log + {e}, now)
  {
    var after := KeepGreatest(entries, KeyOf(e), e.occurredAt, e.occurredAt + f.keep).0;
    forall k | k in after ensures Backed(f, after[k], kind, log + {e}, k) {
      if k in entries {
        BackedStays(f, entries[k], kind, log, k, e);
      }
      assert e in log + {e};
    }
    forall w | w in log + {e} && KindOf(w) == kind ensures Covered(f, after, w, now) {
      if w in log {
        assert Covered(f, entries, w, now);
      }
    }
  }

  /** Another kind's event, or one already past its keep, changes no answer here. */
  lemma EntriesUntouched(f: FeedConfig, entries: Entries, kind: Kind, log: set<SessionEvent>, now: Instant, e: SessionEvent)
    requires EntriesOk(f, entries, kind, log, now) && (KindOf(e) != kind || e.occurredAt + f.keep <= now)
    ensures EntriesOk(f, entries, kind, log + {e}, now)
  {
    forall k | k in entries ensures Backed(f, entries[k], kind, log + {e}, k) {
      BackedStays(f, entries[k], kind, log, k, e);
    }
  }

  /** What a valid event does to the entries of one kind. */
  function EntriesAfter(f: FeedConfig, entries: Entries, kind: Kind, e: SessionEvent, now: Instant): Entries {
    var kept := Forgotten(entries, now);
    if KindOf(e) != kind || e.occurredAt + f.keep <= now then kept
    else KeepGreatest(kept, KeyOf(e), e.occurredAt, e.occurredAt + f.keep).0
  }

  lemma EntriesAfterOk(f: FeedConfig, entries: Entries, kind: Kind, log: set<SessionEvent>, at: Instant, e: SessionEvent, now: Instant)
    requires EntriesOk(f, entries, kind, log, at) && at <= now
    ensures EntriesOk(f, EntriesAfter(f, entries, kind, e, now), kind, log + {e}, now)
  {
    EntriesForgotten(f, entries, kind, log, at, now);
    if KindOf(e) != kind || e.occurredAt + f.keep <= now {
      EntriesUntouched(f, Forgotten(entries, now), kind, log, now, e);
    } else {
      EntriesLogged(f, Forgotten(entries, now), kind, log, now, e);
    }
  }

  lemma RevokeIs(f: FeedConfig, s: Index, e: SessionEvent, now: Instant)
    ensures RevokeIn(s, Revocation(KindOf(e), KeyOf(e), e.occurredAt, e.occurredAt + f.keep), now).0
         == Index(EntriesAfter(f, s.sessions, KindSession, e, now), EntriesAfter(f, s.subjects, KindSubject, e, now))
  {
  }

  lemma RevokeKeeps(f: FeedConfig, s: Index, log: set<SessionEvent>, at: Instant, e: SessionEvent, now: Instant)
    requires Inv(f, s, log, at) && Valid(f, e) && at <= now
    ensures Inv(f, RevokeIn(s, Revocation(KindOf(e), KeyOf(e), e.occurredAt, e.occurredAt + f.keep), now).0, log + {e}, now)
  {
    RevokeIs(f, s, e, now);
    EntriesAfterOk(f, s.sessions, KindSession, log, at, e, now);
    EntriesAfterOk(f, s.subjects, KindSubject, log, at, e, now);
  }

  lemma ExpiredKeeps(f: FeedConfig, s: Index, log: set<SessionEvent>, at: Instant, e: SessionEvent, now: Instant)
    requires Inv(f, s, log, at) && at <= now && Valid(f, e) && e.occurredAt + f.keep <= now
    ensures Inv(f, s, log + {e}, now)
  {
    EntriesLater(f, s.sessions, KindSession, log, at, now);
    EntriesLater(f, s.subjects, KindSubject, log, at, now);
    EntriesUntouched(f, s.sessions, KindSession, log, now, e);
    EntriesUntouched(f, s.subjects, KindSubject, log, now, e);
  }

  lemma RefusedKeeps(f: FeedConfig, s: Index, log: set<SessionEvent>, at: Instant, now: Instant)
    requires Inv(f, s, log, at) && at <= now
    ensures Inv(f, s, log, now)
  {
    EntriesLater(f, s.sessions, KindSession, log, at, now);
    EntriesLater(f, s.subjects, KindSubject, log, at, now);
  }

  /** Applying an event, at whatever two instants, keeps the index of the log that now
      holds it too; a refused event is not logged and changes nothing. */
  lemma ApplyKeeps(f: FeedConfig, s: Index, log: set<SessionEvent>, at: Instant, e: SessionEvent, checked: Instant, recorded: Instant)
    requires Inv(f, s, log, at) && at <= checked <= recorded
    ensures Inv(f, ApplyIn(f, s, e, checked, recorded).0, LoggedWith(f, log, e), recorded)
  {
    var after := ApplyIn(f, s, e, checked, recorded).0;
    if !Valid(f, e) {
      assert after == s;
      RefusedKeeps(f, s, log, at, recorded);
    } else if e.occurredAt + f.keep <= checked {
      assert after == s;
      ExpiredKeeps(f, s, log, at, e, recorded);
    } else {
      assert after == RevokeIn(s, Revocation(KindOf(e), KeyOf(e), e.occurredAt, e.occurredAt + f.keep), recorded).0;
      RevokeKeeps(f, s, log, at, e, recorded);
    }
    assert Inv(f, after, LoggedWith(f, log, e), recorded);
  }

  /** The index answers what a scan of the raw log answers. */
  lemma IndexAgrees(f: FeedConfig, s: Index, log: set<SessionEvent>, at: Instant, ref: SessionRef, now: Instant)
    requires Inv(f, s, log, at) && at <= now
    ensures RevokedIn(s, ref, now) == Scan(f, log, ref, now)
  {
    EntriesLater(f, s.sessions, KindSession, log, at, now);
    EntriesLater(f, s.subjects, KindSubject, log, at, now);
    if ref.id != "" && ref.id in s.sessions && Live(s.sessions[ref.id], now) {
      var e :| e in log && KindOf(e) == KindSession && KeyOf(e) == ref.id && e.occurredAt == s.sessions[ref.id].revokedAt;
      assert Denies(f, e, KindSession, ref.id, now);
    }
    if ref.subject in s.subjects && Live(s.subjects[ref.subject], now) && ref.issuedAt <= s.subjects[ref.subject].revokedAt {
      var e :| e in log && KindOf(e) == KindSubject && KeyOf(e) == ref.subject && e.occurredAt == s.subjects[ref.subject].revokedAt;
      assert DeniesToken(f, e, ref, now);
    }
  }

  // --- Runs of the feed ---------------------------------------------------------------------------------

  /** One application: its event and the instants its clock read. */
  datatype Application = Application(event: SessionEvent, checked: Instant, recorded: Instant)

  ghost predicate Chronological(start: Instant, apps: seq<Application>)
    decreases |apps|
  {
    apps != [] ==> start <= apps[0].checked <= apps[0].recorded && Chronological(apps[0].recorded, apps[1..])
  }

  function AppliedAll(f: FeedConfig, s: Index, apps: seq<Application>): Index
    decreases |apps|
  {
    if apps == [] then s else AppliedAll(f, ApplyIn(f, s, apps[0].event, apps[0].checked, apps[0].recorded).0, apps[1..])
  }

  /** The valid events among those applied. */
  ghost function Logged(f: FeedConfig, apps: seq<Application>): set<SessionEvent> {
    set a | a in apps && Valid(f, a.event) :: a.event
  }

  function End(start: Instant, apps: seq<Application>): Instant {
    if apps == [] then start else apps[|apps| - 1].recorded
  }

  lemma {:induction false} RunKeeps(f: FeedConfig, s: Index, log: set<SessionEvent>, start: Instant, apps: seq<Application>)
    requires Inv(f, s, log, start) && Chronological(start, apps)
    ensures Inv(f, AppliedAll(f, s, apps), log + Logged(f, apps), End(start, apps))
    decreases |apps|
  {
    if apps == [] {
      assert log + Logged(f, apps) == log;
    } else {
      var a, rest := apps[0], apps[1..];
      var log' := LoggedWith(f, log, a.event);
      ApplyKeeps(f, s, log, start, a.event, a.checked, a.recorded);
      RunKeeps(f, ApplyIn(f, s, a.event, a.checked, a.recorded).0, log', a.recorded, rest);
      assert forall b :: b in apps <==> b == a || b in rest;
      assert log' + Logged(f, rest) == log + Logged(f, apps);
    }
  }

  /** After any run of the feed, whatever the order, the duplicates and the expiries, a
      token is denied exactly when some valid event of the raw log denies it. */
  lemma AnswersMatchTheRawLog(f: FeedConfig, apps: seq<Application>, start: Instant, ref: SessionRef, now: Instant)
    requires Chronological(start, apps) && End(start, apps) <= now
    ensures RevokedIn(AppliedAll(f, EMPTY, apps), ref, now) == Scan(f, Logged(f, apps), ref, now)
  {
    RunKeeps(f, EMPTY, {}, start, apps);
    assert {} + Logged(f, apps) == Logged(f, apps);
    IndexAgrees(f, AppliedAll(f, EMPTY, apps), Logged(f, apps), End(start, apps), ref, now);
  }

  /** An event is new exactly when it is valid, still kept at both readings, and no
      logged event of its key occurred at the same instant or later. */
  lemma AppliedExactlyWhen(f: FeedConfig, s: Index, log: set<SessionEvent>, at: Instant, e: SessionEvent, checked: Instant, recorded: Instant)
    requires Inv(f, s, log, at) && at <= checked <= recorded
    ensures ApplyIn(f, s, e, checked, recorded).1 == Applied <==>
      && Valid(f, e) && recorded < e.occurredAt + f.keep
      && forall w :: w in log && KindOf(w) == KindOf(e) && KeyOf(w) == KeyOf(e) ==> w.occurredAt < e.occurredAt
  {
    EntriesForgotten(f, s.sessions, KindSession, log, at, recorded);
    EntriesForgotten(f, s.subjects, KindSubject, log, at, recorded);
    if Valid(f, e) && recorded < e.occurredAt + f.keep {
      var entries := Forgotten(EntriesFor(s, KindOf(e)), recorded);
      if KeyOf(e) in entries && e.occurredAt <= entries[KeyOf(e)].revokedAt {
        var w :| w in log && KindOf(w) == KindOf(e) && KeyOf(w) == KeyOf(e) && w.occurredAt == entries[KeyOf(e)].revokedAt;
      }
    }
  }

  // --- The poll ----------------------------------------------------------------------------------------------

  const MILLISECOND := 1_000_000
  const MAX_POLLING_PAGES := 1000

  /** Whole milliseconds since 1970, rounded down as UnixMilli does. */
  function Millis(at: Instant): int {
    at / MILLISECOND
  }

  predicate InWindow(e: SessionEvent, from: Instant, to: Instant) {
    Millis(from) <= Millis(e.occurredAt) <= Millis(to)
  }

  class Clock {
    var now: Instant

    constructor (now: Instant)
      ensures this.now == now
    {
      this.now := now;
    }

    /** A later reading never goes back. */
    method Now() returns (at: Instant)
      modifies this
      ensures at == now && now >= old(now)
    {
      var elapsed: int :| elapsed >= 0;
      now := now + elapsed;
      at := now;
    }
  }

  class Feed {
    const config: FeedConfig
    const store: MemoryStore
    const clock: Clock

    constructor (config: FeedConfig, store: MemoryStore, clock: Clock)
      ensures this.config == config && this.store == store && this.clock == clock
    {
      this.config, this.store, this.clock := config, store, clock;
    }

    method Apply(e: SessionEvent) returns (outcome: EventOutcome, ghost checked: Instant, ghost recorded: Instant)
      modifies store, clock
      ensures old(clock.now) <= checked <= recorded == clock.now
      ensures (store.Value(), outcome) == ApplyIn(config, old(store.Value()), e, checked, recorded)
    {
      checked, recorded := clock.now, clock.now;
      if !Complete(e) {
        return Invalid, checked, recorded;
      }
      if e.issuer != config.issuer {
        return ForeignIssuer, checked, recorded;
      }
      var before := clock.Now();
      checked, recorded := before, before;
      if e.occurredAt + config.keep <= before {
        return Expired, checked, recorded;
      }
      var now := clock.Now();
      recorded := now;
      var changed := store.Revoke(Revocation(KindOf(e), KeyOf(e), e.occurredAt, e.occurredAt + config.keep), now);
      return if changed then Applied else Duplicate, checked, recorded;
    }
  }

  /** The recognized events of a provider's list. */
  ghost function Recognized(f: FeedConfig, list: seq<Option<SessionEvent>>): set<SessionEvent> {
    set o | o in list && o.Some? && Valid(f, o.value) :: o.value
  }

  /** The store indexes a log at the clock's instant. */
  ghost predicate Indexes(feed: Feed, log: set<SessionEvent>)
    reads feed.store, feed.clock
  {
    Inv(feed.config, feed.store.Value(), log, feed.clock.now)
  }

  /** One event of a page; what the adapter did not recognize is skipped. */
  method ApplyOne(feed: Feed, event: Option<SessionEvent>, ghost log: set<SessionEvent>) returns (ghost logged: set<SessionEvent>)
    requires Indexes(feed, log)
    modifies feed.store, feed.clock
    ensures feed.clock.now >= old(feed.clock.now)
    ensures logged == (if event.Some? then LoggedWith(feed.config, log, event.value) else log)
    ensures Indexes(feed, logged)
  {
    logged := log;
    if event.Some? {
      ghost var was, at := feed.store.Value(), feed.clock.now;
      ghost var checked, recorded;
      var outcome;
      outcome, checked, recorded := feed.Apply(event.value);
      ApplyKeeps(feed.config, was, log, at, event.value, checked, recorded);
      logged := LoggedWith(feed.config, log, event.value);
    }
  }

  method ApplyPage(feed: Feed, window: seq<Option<SessionEvent>>, first: nat, last: nat, ghost log: set<SessionEvent>)
    returns (ghost logged: set<SessionEvent>)
    requires first <= last <= |window| && Indexes(feed, log + Recognized(feed.config, window[..first]))
    modifies feed.store, feed.clock
    ensures feed.clock.now >= old(feed.clock.now)
    ensures logged == log + Recognized(feed.config, window[..last])
    ensures Indexes(feed, logged)
  {
    logged := log + Recognized(feed.config, window[..first]);
    for i := first to last
      invariant feed.clock.now >= old(feed.clock.now)
      invariant logged == log + Recognized(feed.config, window[..i])
      invariant Indexes(feed, logged)
    {
      RecognizedSnoc(feed.config, window, i);
      logged := ApplyOne(feed, window[i], logged);
    }
  }

  /** Every page up to the short one is within the limit, and none of them fails. */
  ghost predicate Readable(window: seq<Option<SessionEvent>>, pageSize: nat, fails: nat -> bool) {
    |window| < MAX_POLLING_PAGES * pageSize && forall page: nat :: page * pageSize <= |window| ==> !fails(page)
  }

  /** One source's window, read page by page until a short one or a failed fetch. */
  method PollSource(feed: Feed, window: seq<Option<SessionEvent>>, pageSize: nat, fails: nat -> bool, ghost log: set<SessionEvent>)
    returns (complete: bool, ghost logged: set<SessionEvent>)
    requires pageSize > 0 && Indexes(feed, log)
    modifies feed.store, feed.clock
    ensures complete <==> Readable(window, pageSize, fails)
    ensures feed.clock.now >= old(feed.clock.now)
    ensures Indexes(feed, logged)
    ensures complete ==> logged == log + Recognized(feed.config, window)
  {
    var first := 0;
    logged := log;
    assert logged == log + Recognized(feed.config, window[..0]);
    for page := 0 to MAX_POLLING_PAGES
      invariant first == page * pageSize <= |window|
      invariant forall p: nat :: p < page ==> !fails(p)
      invariant feed.clock.now >= old(feed.clock.now)
      invariant logged == log + Recognized(feed.config, window[..first])
      invariant Indexes(feed, logged)
    {
      if fails(page) {
        return false, logged;
      }
      var last := if first + pageSize <= |window| then first + pageSize else |window|;
      logged := ApplyPage(feed, window, first, last, log);
      PageFits(page, pageSize);
      if last - first < pageSize {
        assert window[..last] == window;
        LaterPagesAreBeyond(page, pageSize, |window|);
        return true, logged;
      }
      first := last;
    }
    return false, logged;
  }

  lemma LaterPagesAreBeyond(page: nat, pageSize: nat, length: nat)
    requires length < (page + 1) * pageSize
    ensures forall p: nat :: p * pageSize <= length ==> p <= page
  {
    forall p: nat | p * pageSize <= length ensures p <= page {
      if p > page {
        PagesGrow(page + 1, p, pageSize);
      }
    }
  }

  lemma PagesGrow(p: nat, q: nat, pageSize: nat)
    requires p <= q
    ensures p * pageSize <= q * pageSize
  {
    assert q * pageSize == p * pageSize + (q - p) * pageSize;
  }

  /** The provider's answer to one source's query over a window. */
  type Source = (Instant, Instant) -> seq<Option<SessionEvent>>

  /** A cycle: both sources over the same window, the second one even when the first
      exceeded its pages or failed. */
  method Poll(feed: Feed, admin: Source, user: Source, pageSize: nat, adminFails: nat -> bool, userFails: nat -> bool, ghost log: set<SessionEvent>)
    returns (complete: bool, ghost from: Instant, ghost to: Instant)
    requires pageSize > 0 && Indexes(feed, log)
    modifies feed.store, feed.clock
    ensures old(feed.clock.now) <= to <= feed.clock.now && from == to - feed.config.keep
    ensures complete <==> Readable(admin(from, to), pageSize, adminFails) && Readable(user(from, to), pageSize, userFails)
    ensures complete ==>
      Indexes(feed, log + Recognized(feed.config, admin(from, to)) + Recognized(feed.config, user(from, to)))
  {
    ghost var at := feed.clock.now;
    var now := feed.clock.Now();
    from, to := now - feed.config.keep, now;
    RefusedKeeps(feed.config, feed.store.Value(), log, at, now);
    var one, two;
    ghost var logged;
    one, logged := PollSource(feed, admin(now - feed.config.keep, now), pageSize, adminFails, log);
    two, logged := PollSource(feed, user(now - feed.config.keep, now), pageSize, userFails, logged);
    return one && two, from, to;
  }

  /** A short page is met before the limit exactly when the window fits it. */
  lemma PageFits(page: nat, pageSize: nat)
    requires page < MAX_POLLING_PAGES
    ensures page * pageSize + pageSize == (page + 1) * pageSize <= MAX_POLLING_PAGES * pageSize
  {
    var left: nat := MAX_POLLING_PAGES - (page + 1);
    assert left * pageSize >= 0;
    assert (page + 1) * pageSize + left * pageSize == MAX_POLLING_PAGES * pageSize;
  }

  lemma RecognizedSnoc(f: FeedConfig, window: seq<Option<SessionEvent>>, i: nat)
    requires i < |window|
    ensures Recognized(f, window[..i + 1]) == Recognized(f, window[..i])
      + (if window[i].Some? && Valid(f, window[i].value) then {window[i].value} else {})
  {
    assert window[..i + 1] == window[..i] + [window[i]];
  }

  ghost function WindowOf(provider: set<SessionEvent>, from: Instant, to: Instant): set<SessionEvent> {
    set e | e in provider && InWindow(e, from, to)
  }

  /** The provider's log up to an instant, at the resolution its queries have. */
  ghost function KnownBy(provider: set<SessionEvent>, to: Instant): set<SessionEvent> {
    set e | e in provider && Millis(e.occurredAt) <= Millis(to)
  }

  /** The two sources together list exactly the provider's events of a window. */
  ghost predicate Reports(f: FeedConfig, provider: set<SessionEvent>, admin: Source, user: Source) {
    && AllValid(f, provider)
    && forall from: Instant, to: Instant :: Recognized(f, admin(from, to)) + Recognized(f, user(from, to)) == WindowOf(provider, from, to)
  }

  /** What the window leaves out of the past no longer denies any token, so an index of
      the window answers for the whole log. */
  lemma WindowAnswersForTheLog(f: FeedConfig, s: Index, provider: set<SessionEvent>, to: Instant, at: Instant, ref: SessionRef, now: Instant)
    requires to <= at <= now && Inv(f, s, WindowOf(provider, to - f.keep, to), at)
    ensures RevokedIn(s, ref, now) == Scan(f, KnownBy(provider, to), ref, now)
  {
    var window, known := WindowOf(provider, to - f.keep, to), KnownBy(provider, to);
    IndexAgrees(f, s, window, at, ref, now);
    assert window <= known;
    assert forall e, kind, key :: e in known && Denies(f, e, kind, key, now) ==> e in window;
    assert forall e :: e in known && DeniesToken(f, e, ref, now) ==> e in window;
  }

  /** After the entries were lost: a complete poll over an empty store answers, for every
      token and from then on, what a scan of the provider's whole log answers. */
  method PollRestoresTheAnswer(f: FeedConfig, clock: Clock, admin: Source, user: Source, pageSize: nat,
                               adminFails: nat -> bool, userFails: nat -> bool, ghost provider: set<SessionEvent>)
    returns (store: MemoryStore, complete: bool, ghost from: Instant, ghost to: Instant)
    requires pageSize > 0 && Reports(f, provider, admin, user)
    modifies clock
    ensures fresh(store) && old(clock.now) <= to <= clock.now && from == to - f.keep
    ensures complete <==> Readable(admin(from, to), pageSize, adminFails) && Readable(user(from, to), pageSize, userFails)
    ensures complete ==>
      forall ref, now :: clock.now <= now ==> RevokedIn(store.Value(), ref, now) == Scan(f, KnownBy(provider, to), ref, now)
  {
    store := new MemoryStore();
    var feed := new Feed(f, store, clock);
    EmptyIndexes(f, clock.now);
    complete, from, to := Poll(feed, admin, user, pageSize, adminFails, userFails, {});
    if complete {
      assert {} + Recognized(f, admin(from, to)) + Recognized(f, user(from, to)) == WindowOf(provider, from, to);
      forall ref, now | clock.now <= now
        ensures RevokedIn(store.Value(), ref, now) == Scan(f, KnownBy(provider, to), ref, now)
      {
        WindowAnswersForTheLog(f, store.Value(), provider, to, clock.now, ref, now);
      }
    }
  }

  lemma EmptyIndexes(f: FeedConfig, now: Instant)
    ensures Inv(f, EMPTY, {}, now)
  {
  }
}
