/** The reservations context: one aggregate decided once, its row, its outbox entry,
    and the two ways a decision arrives. */
module Reservations {
  import opened Dispositions
  import opened Ports
  import opened ExternalProfiles
  import opened ExternalBudgets
  import opened Varints
  import opened OutcomeCodecs
  import opened Inboxes
  import opened IdempotentCommands
  import opened MemoryTables

  type OrderID = Bytes

  datatype Life = Pending | Confirmed | Cancelled

  datatype Snapshot = Snapshot(order: OrderID, items: int64, status: Life)

  datatype Decision = Reserve(items: int64, at: Instant) | Cancel(at: Instant)

  datatype Event = ReservationConfirmed(order: OrderID, items: int64, at: Instant) | ReservationCancelled(order: OrderID, at: Instant)

  datatype Reserved = ReservedResponse(order: OrderID, items: int64)

  datatype Freed = CancelledResponse(order: OrderID)

  /** An outbox entry: the aggregate it tells of, at the version its row was written at.
      The tenant is the one its transaction ran for. */
  datatype Entry = Entry(message: MessageID, tenant: TenantID, order: OrderID, version: nat, event: Event)

  datatype Books = Books(rows: Rows<Snapshot>, outbox: seq<Entry>)

  function Latin(s: string): seq<byte> {
    seq(|s|, i requires 0 <= i < |s| => s[i] as int % 256)
  }

  function TextOf(b: seq<byte>): string {
    seq(|b|, i requires 0 <= i < |b| => b[i] as char)
  }

  const OPERATION_RESERVE: Bytes := Latin("reservations.Reserve")
  const OPERATION_CANCEL: Bytes := Latin("reservations.Cancel")
  const COMMAND_CONSUMER := "reservations.commands"

  const NOTHING_TO_RESERVE := Rejection(Latin("reservations/nothing-to-reserve"), Latin("nothing to reserve"), [])
  const ALREADY_RESERVED := Rejection(Latin("reservations/already-reserved"), Latin("reservation is already confirmed"), [])
  const ALREADY_CANCELLED := Rejection(Latin("reservations/already-canceled"), Latin("reservation is already canceled"), [])
  const RESERVATION_CANCELLED := Rejection(Latin("reservations/reservation-canceled"), Latin("reservation is canceled"), [])

  // --- The aggregate ------------------------------------------------------------------------

  function Decided(s: Snapshot, d: Decision): Result<(Snapshot, Event), Rejection> {
    match d
    case Reserve(items, at) =>
      if items <= 0 then Err(NOTHING_TO_RESERVE)
      else if s.status.Confirmed? then Err(ALREADY_RESERVED)
      else if s.status.Cancelled? then Err(RESERVATION_CANCELLED)
      else Ok((s.(status := Confirmed, items := items), ReservationConfirmed(s.order, items, at)))
    case Cancel(at) =>
      if s.status.Confirmed? then Err(ALREADY_RESERVED)
      else if s.status.Cancelled? then Err(ALREADY_CANCELLED)
      else Ok((s.(status := Life.Cancelled), ReservationCancelled(s.order, at)))
  }

  class Reservation {
    const order: OrderID
    var items: int64
    var status: Life

    function State(): Snapshot
      reads this
    {
      Snapshot(order, items, status)
    }

    constructor (s: Snapshot)
      ensures State() == s
    {
      order, items, status := s.order, s.items, s.status;
    }

    /** Decides over a copy: a refusal leaves the reservation untouched. */
    method Decide(d: Decision) returns (decided: Result<Event, Rejection>)
      modifies this
      ensures match Decided(old(State()), d)
        case Err(r) => decided == Err(r) && State() == old(State())
        case Ok(made) => decided == Ok(made.1) && State() == made.0
    {
      var next := new Reservation(State());
      match d
      case Reserve(wanted, at) =>
        if wanted <= 0 {
          return Err(NOTHING_TO_RESERVE);
        }
        if next.status == Confirmed {
          return Err(ALREADY_RESERVED);
        }
        if next.status == Life.Cancelled {
          return Err(RESERVATION_CANCELLED);
        }
        next.status, next.items := Confirmed, wanted;
        items, status := next.items, next.status;
        return Ok(ReservationConfirmed(next.order, next.items, at));
      case Cancel(at) =>
        if next.status == Confirmed {
          return Err(ALREADY_RESERVED);
        }
        if next.status == Life.Cancelled {
          return Err(ALREADY_CANCELLED);
        }
        next.status := Life.Cancelled;
        items, status := next.items, next.status;
        return Ok(ReservationCancelled(next.order, at));
    }
  }

  // --- One decision in a transaction ----------------------------------------------------------

  function Stored(rows: Rows<Snapshot>, key: RowKey, order: OrderID): Snapshot {
    if key in rows then rows[key].snapshot else Snapshot(order, 0, Pending)
  }

  /** Load or start, decide, save at the version read, and one entry for the event; a
      refusal writes nothing and is no error. */
  function DecideIn(b: Books, caller: Caller, order: OrderID, d: Decision, message: MessageID): Result<(Books, Option<Rejection>), StoreError> {
    match ScopedKey(caller, order)
    case Err(e) => Err(e)
    case Ok(key) =>
      match Decided(Stored(b.rows, key, order), d)
      case Err(rejection) => Ok((b, Some(rejection)))
      case Ok(made) =>
        var version := VersionAt(b.rows, key) + 1;
        Ok((Books(b.rows[key := Row(made.0, version)],
                  b.outbox + [Entry(message, key.tenant, order, version, made.1)]), None))
  }

  class TxOutbox {
    var entries: seq<Entry>

    constructor (entries: seq<Entry>)
      ensures this.entries == entries
    {
      this.entries := entries;
    }

    method Enqueue(e: Entry)
      modifies this
      ensures entries == old(entries) + [e]
    {
      entries := entries + [e];
    }
  }

  method DecideOver(table: TxTable<Snapshot>, outbox: TxOutbox, caller: Caller, order: OrderID, d: Decision, message: MessageID)
    returns (done: Result<Option<Rejection>, StoreError>)
    requires Named(table.rows) && table.unique == []
    modifies table, outbox
    ensures match DecideIn(Books(old(table.rows), old(outbox.entries)), caller, order, d, message)
      case Err(e) => done == Err(e) && table.rows == old(table.rows) && outbox.entries == old(outbox.entries)
      case Ok(made) => done == Ok(made.1) && Books(table.rows, outbox.entries) == made.0
  {
    var loaded := table.Load(caller, order);
    var stored, version := Snapshot(order, 0, Pending), 0;
    match loaded {
      case Ok(row) => stored, version := row.snapshot, row.version;
      case Err(e) =>
        if e != NotFound && !e.CrossTenantAccess? {
          return Err(e);
        }
    }
    var aggregate := new Reservation(stored);
    var decided := aggregate.Decide(d);
    if decided.Err? {
      return Ok(Some(decided.error));
    }
    var key := RowKey(caller.tenant, order);
    var failed := table.SaveAs(key, aggregate.State(), version);
    assert failed == None;
    outbox.Enqueue(Entry(message, caller.tenant, order, version + 1, decided.value));
    return Ok(None);
  }

  // --- A delivered message ------------------------------------------------------------------------

  /** One transaction of the consumption: the reception is the only branch point, and
      only a first reception reaches the aggregate. No error of the memory store carries
      a classification of its own. */
  function ConsumeIn(s: Store<Books>, bound: string, caller: Caller, r: Receipt, order: OrderID, d: Decision, message: MessageID)
    : Result<(Store<Books>, Disposition), Fault> {
    match RegisterIn(s.rows, bound, false, caller, r)
    case Err(_) => Err(PLAIN)
    case Ok(ProcessedReception(_)) => Ok((s, R2))
    case Ok(RejectedReception(_)) => Ok((s, R3))
    case Ok(CollisionReception) => Ok((s, R4))
    case Ok(FirstReception(key, hash, expiresAt)) =>
      match DecideIn(s.data, caller, order, d, message)
      case Err(_) => Err(PLAIN)
      case Ok((books, refused)) =>
        var completion := match refused
          case None => Completion(StatusProcessed, "", [])
          case Some(rejection) => Completion(StatusRejected, TextOf(rejection.code), []);
        Ok((Store(s.rows[key := CompletedRow(FirstReception(key, hash, expiresAt), completion)], books),
            if refused == None then R1D1 else R1D2))
  }

  method ConsumeFirst(table: TxTable<Snapshot>, outbox: TxOutbox, pending: TxPending, caller: Caller, order: OrderID, d: Decision, message: MessageID)
    returns (disposition: Result<Disposition, Fault>)
    requires Named(table.rows) && table.unique == [] && pending.Valid() && !pending.completed
    modifies table, outbox, pending`completed, pending.inbox`rows
    ensures match DecideIn(Books(old(table.rows), old(outbox.entries)), caller, order, d, message)
      case Err(_) => disposition == Err(PLAIN)
      case Ok((books, refused)) =>
        && disposition == Ok(if refused == None then R1D1 else R1D2)
        && Books(table.rows, outbox.entries) == books
        && pending.inbox.rows == old(pending.inbox.rows)[pending.first.key := CompletedRow(pending.first,
             match refused
             case None => Completion(StatusProcessed, "", [])
             case Some(rejection) => Completion(StatusRejected, TextOf(rejection.code), []))]
  {
    var done := DecideOver(table, outbox, caller, order, d, message);
    if done.Err? {
      return Err(PLAIN);
    }
    match done.value
    case Some(rejection) =>
      var failed := pending.Complete(Completion(StatusRejected, TextOf(rejection.code), []));
      assert failed == None;
      return Ok(R1D2);
    case None =>
      var failed := pending.Complete(Completion(StatusProcessed, "", []));
      assert failed == None;
      return Ok(R1D1);
  }

  /** The first failure on the way, if any: the refusal, the transaction's, the commit's. */
  function FaultOf<T>(within: Result<T, Fault>, unauthorized: Option<Fault>, commitFails: Option<Fault>): Option<Fault> {
    if unauthorized.Some? then unauthorized
    else match within
      case Err(f) => Some(f)
      case Ok(_) => commitFails
  }

  /** The store the messages are consumed into. */
  class ReservationStore {
    var rows: InboxRows
    var books: Books

    ghost predicate Valid()
      reads this
    {
      Named(books.rows)
    }

    constructor ()
      ensures Valid() && rows == map[] && books == Books(map[], [])
    {
      rows, books := map[], Books(map[], []);
    }

    /** Authorized first, then one transaction; a refusal, a failure inside it or of its
        commit is classified and leaves the store as it was. */
    method ConsumeOrderPlaced(bound: string, caller: Caller, r: Receipt, order: OrderID, d: Decision, message: MessageID,
                              unauthorized: Option<Fault>, commitFails: Option<Fault>)
      returns (disposition: Disposition, fault: Option<Fault>)
      requires Valid() && (caller.OfTenant? ==> caller.tenant != "")
      modifies this
      ensures Valid()
      ensures fault == FaultOf(ConsumeIn(Store(old(rows), old(books)), bound, caller, r, order, d, message), unauthorized, commitFails)
      ensures fault.Some? ==> disposition == Classify(fault.value) && rows == old(rows) && books == old(books)
      ensures fault == None ==>
        Ok((Store(rows, books), disposition)) == ConsumeIn(Store(old(rows), old(books)), bound, caller, r, order, d, message)
    {
      if unauthorized.Some? {
        return Classify(unauthorized.value), unauthorized;
      }
      var within := ConsumeWithin(bound, caller, r, order, d, message);
      if within.0.Err? {
        return Classify(within.0.error), Some(within.0.error);
      }
      if commitFails.Some? {
        return Classify(commitFails.value), commitFails;
      }
      rows, books := within.1.rows, within.1.data;
      return within.0.value, None;
    }

    /** The body of the transaction, on its working copies. */
    method ConsumeWithin(bound: string, caller: Caller, r: Receipt, order: OrderID, d: Decision, message: MessageID)
      returns (within: (Result<Disposition, Fault>, Store<Books>))
      requires Valid() && (caller.OfTenant? ==> caller.tenant != "")
      ensures match ConsumeIn(Store(rows, books), bound, caller, r, order, d, message)
        case Err(f) => within.0 == Err(f)
        case Ok(done) => within == (Ok(done.1), done.0) && Named(done.0.data.rows)
    {
      var inbox := new TxInbox(rows, bound, false);
      var registered := inbox.Register(caller, r);
      if registered.Err? {
        return (Err(PLAIN), Store(rows, books));
      }
      var table := new TxTable<Snapshot>(books.rows, []);
      var outbox := new TxOutbox(books.outbox);
      var reception := registered.value;
      var disposition: Result<Disposition, Fault>;
      match reception {
        case ProcessedReception(_) => disposition := Ok(R2);
        case RejectedReception(_) => disposition := Ok(R3);
        case CollisionReception => disposition := Ok(R4);
        case FirstReception(_, _, _) =>
          var pending := new TxPending(inbox, reception);
          disposition := ConsumeFirst(table, outbox, pending, caller, order, d, message);
      }
      return (disposition, Store(inbox.rows, Books(table.rows, outbox.entries)));
    }
  }

  // --- A synchronous command ------------------------------------------------------------------------

  function ReserveRun(caller: Caller, order: OrderID, items: int64, at: Instant, message: MessageID): Books -> Option<(Books, Outcome<Reserved>)> {
    (b: Books) => match DecideIn(b, caller, order, Reserve(items, at), message)
      case Err(_) => None
      case Ok((after, Some(rejection))) => Some((after, Rejected(rejection)))
      case Ok((after, None)) => Some((after, Accepted(ReservedResponse(order, items))))
  }

  function CancelRun(caller: Caller, order: OrderID, at: Instant, message: MessageID): Books -> Option<(Books, Outcome<Freed>)> {
    (b: Books) => match DecideIn(b, caller, order, Cancel(at), message)
      case Err(_) => None
      case Ok((after, Some(rejection))) => Some((after, Rejected(rejection)))
      case Ok((after, None)) => Some((after, Accepted(CancelledResponse(order))))
  }

  function ReservedCodec(): Codec<Reserved> {
    Codec(
      (r: Reserved) => TextBytes(r.order) + Varint(r.items),
      (d: Unread) =>
        var (order, d1) := ReadText(d);
        var (items, d2) := ReadInt(d1);
        (ReservedResponse(order, items), d2))
  }

  function CancelledCodec(): Codec<Freed> {
    Codec(
      (r: Freed) => TextBytes(r.order),
      (d: Unread) =>
        var (order, d1) := ReadText(d);
        (CancelledResponse(order), d1))
  }

  /** Both operations keep their answers losslessly. */
  lemma CodecsRoundTrip()
    ensures RoundTrips(ReservedCodec()) && RoundTrips(CancelledCodec())
  {
    forall r: Reserved ensures ReservedCodec().decode(Unread(ReservedCodec().encode(r), false)) == (r, Unread([], false)) {
      TextRoundTrip(r.order, Varint(r.items));
      IntRoundTrip(r.items, []);
      assert Varint(r.items) + [] == Varint(r.items);
    }
    forall r: Freed ensures CancelledCodec().decode(Unread(CancelledCodec().encode(r), false)) == (r, Unread([], false)) {
      TextRoundTrip(r.order, []);
      assert TextBytes(r.order) + [] == TextBytes(r.order);
    }
  }

  // --- What every decision keeps ------------------------------------------------------------------------

  function EntriesOf(outbox: seq<Entry>, key: RowKey): seq<Entry> {
    if outbox == [] then []
    else
      var last := outbox[|outbox| - 1];
      EntriesOf(outbox[..|outbox| - 1], key) + (if RowKey(last.tenant, last.order) == key then [last] else [])
  }

  predicate Describes(e: Event, s: Snapshot) {
    match e
    case ReservationConfirmed(order, items, _) => s == Snapshot(order, items, Confirmed) && items > 0
    case ReservationCancelled(order, _) => s.order == order && s.status == Life.Cancelled
  }

  /** A decided reservation stands at version 1 with exactly one entry, the one that
      tells its state; an undecided one has no row and no entry. */
  ghost predicate KeyOk(b: Books, key: RowKey) {
    var entries := EntriesOf(b.outbox, key);
    if key in b.rows then
      && b.rows[key].version == 1
      && |entries| == 1
      && entries[0].version == 1
      && Describes(entries[0].event, b.rows[key].snapshot)
      && b.rows[key].snapshot.order == key.id
    else entries == []
  }

  ghost predicate BooksOk(b: Books) {
    forall key :: KeyOk(b, key)
  }

  lemma EntriesSnoc(outbox: seq<Entry>, e: Entry, key: RowKey)
    ensures EntriesOf(outbox + [e], key) == EntriesOf(outbox, key) + (if RowKey(e.tenant, e.order) == key then [e] else [])
  {
    assert (outbox + [e])[..|outbox|] == outbox;
  }

  /** Every decision, by command or by message, keeps the books; and a row once written
      is never written again: the first decision wins. */
  lemma DecisionKeepsBooks(b: Books, caller: Caller, order: OrderID, d: Decision, message: MessageID)
    requires BooksOk(b) && DecideIn(b, caller, order, d, message).Ok?
    ensures var (after, refused) := DecideIn(b, caller, order, d, message).value;
      && BooksOk(after)
      && (forall key :: key in b.rows ==> key in after.rows && after.rows[key] == b.rows[key])
      && b.outbox <= after.outbox
      && (refused.Some? <==> after == b)
  {
    var (after, refused) := DecideIn(b, caller, order, d, message).value;
    var decided := ScopedKey(caller, order).value;
    assert KeyOk(b, decided);
    if refused == None {
      assert decided !in b.rows;
      forall key ensures KeyOk(after, key) {
        assert KeyOk(b, key);
        EntriesSnoc(b.outbox, after.outbox[|b.outbox|], key);
      }
    }
  }

  /** What a decision makes of an order nobody decided. */
  function FirstSnapshot(order: OrderID, d: Decision): Snapshot {
    match d
    case Reserve(items, _) => Snapshot(order, items, Confirmed)
    case Cancel(_) => Snapshot(order, 0, Life.Cancelled)
  }

  function FirstEvent(order: OrderID, d: Decision): Event {
    match d
    case Reserve(items, at) => ReservationConfirmed(order, items, at)
    case Cancel(at) => ReservationCancelled(order, at)
  }

  /** Nobody decided the order yet, and the decision asks for something. */
  ghost predicate Decides(b: Books, key: RowKey, d: Decision) {
    key !in b.rows && (d.Reserve? ==> d.items > 0)
  }

  /** A decision is accepted exactly when it is the order's first and asks for something;
      then it writes the row at version 1 and the one entry that tells it, and a refused
      one writes nothing. Only a tenant's chain decides at all. */
  lemma FirstDecisionWins(b: Books, caller: Caller, order: OrderID, d: Decision, message: MessageID)
    requires BooksOk(b)
    ensures var r := DecideIn(b, caller, order, d, message);
      && (r.Ok? <==> caller.OfTenant?)
      && (r.Ok? ==>
        var (after, refused) := r.value;
        var key := RowKey(caller.tenant, order);
        && (refused == None <==> Decides(b, key, d))
        && after == if refused == None
                    then Books(b.rows[key := Row(FirstSnapshot(order, d), 1)],
                               b.outbox + [Entry(message, caller.tenant, order, 1, FirstEvent(order, d))])
                    else b)
  {
    if caller.OfTenant? {
      assert KeyOk(b, RowKey(caller.tenant, order));
    }
  }

  /** The dispositions of a consumption, each exactly when, with what each leaves: only a
      first reception of an order nobody decided touches the books, and a first reception
      refused by the domain is registered as rejected. */
  lemma ConsumptionMeaning(s: Store<Books>, bound: string, tenant: TenantID, r: Receipt, order: OrderID, d: Decision, message: MessageID)
    requires BooksOk(s.data) && bound != "" && r.consumer == bound
    ensures var key, orderKey := InboxKey(bound, r.message), RowKey(tenant, order);
      var first := !InForce(s.rows, key, r.receivedAt);
      var done := ConsumeIn(s, bound, OfTenant(tenant), r, order, d, message);
      && done.Ok?
      && (done.value.1 == R1D1 <==> first && Decides(s.data, orderKey, d))
      && (done.value.1 == R1D2 <==> first && !Decides(s.data, orderKey, d))
      && (done.value.1 == R4 <==> !first && s.rows[key].hash != r.hash)
      && (done.value.1 == R2 <==> !first && s.rows[key].hash == r.hash && s.rows[key].status == StatusProcessed)
      && done.value.1 !in {R1D3, R1D4}
      && (!first ==> done.value.0 == s)
      && (first ==>
        && key in done.value.0.rows
        && done.value.0.rows == s.rows[key := done.value.0.rows[key]]
        && done.value.0.rows[key].hash == r.hash && done.value.0.rows[key].expiresAt == r.expiresAt
        && done.value.0.rows[key].status == (if done.value.1 == R1D1 then StatusProcessed else StatusRejected))
      && (done.value.1 == R1D2 ==> done.value.0.data == s.data)
      && (done.value.1 == R1D1 ==>
        done.value.0.data == Books(s.data.rows[orderKey := Row(FirstSnapshot(order, d), 1)],
                                   s.data.outbox + [Entry(message, tenant, order, 1, FirstEvent(order, d))]))
  {
    FirstDecisionWins(s.data, OfTenant(tenant), order, d, message);
  }
}
