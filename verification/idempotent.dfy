/** Idempotent commands over the in-memory store: one transaction claims the key,
    runs or replays, and commits whole or not at all. */
module IdempotentCommands {
  import opened Ports
  import opened ExternalProfiles
  import opened ExternalBudgets
  import opened Varints
  import opened Fingerprints
  import opened OutcomeCodecs
  import opened Inboxes

  const DEADLINE_MARGIN: int64 := 100_000_000

  /** Fixed once per context. `bound` is the consumer the resource set's inbox was
      opened for, `consumer` the one the executor names in its receipts. */
  datatype Executor<!R> = Executor(
    bound: string,
    consumer: string,
    retention: int64,
    digest: Option<seq<byte> -> Digest>,
    codec: Bytes -> Codec<R>)

  /** One call: what its carrier holds, what its clock read, and what its Run does to
      the business data of the open transaction. `busy` says the inbox gave up waiting
      for a concurrent command on the key, which the in-memory one never does. */
  datatype Call<!D, !R> = Call(
    authorized: bool,
    cancelled: bool,
    key: Option<string>,
    caller: Caller,
    operation: Bytes,
    fields: Option<seq<Field>>,
    now: int64,
    busy: bool,
    run: D -> Option<(D, Outcome<R>)>,
    commitFails: bool)

  datatype CommandError =
    | Unauthorized
    | Cancelled
    | KeyAbsent
    | KeyInvalid
    | ContextAbsent
    | IncompleteCommand
    | InboxRefused(inbox: InboxError)
    | InFlight
    | RunFailed
    | StoredUnreadable(codec: CodecError)
    | Mismatch
    | CommitFailed

  datatype Answer<R> = Answer(outcome: Outcome<R>, replayed: bool)

  datatype Store<D> = Store(rows: InboxRows, data: D)

  datatype Worked<D, R> = Worked(store: Store<D>, answer: Answer<R>)

  predicate KeyChar(c: char) {
    'A' <= c <= 'Z' || 'a' <= c <= 'z' || '0' <= c <= '9' || c == '.' || c == '_' || c == '-'
  }

  predicate ValidKey(key: string) {
    1 <= |key| <= 128 && forall i :: 0 <= i < |key| ==> KeyChar(key[i])
  }

  const HEX := "0123456789abcdef"

  function Hex(bytes: seq<byte>): (s: string)
    ensures |s| == 2 * |bytes|
  {
    if bytes == [] then [] else [HEX[bytes[0] / 16], HEX[bytes[0] % 16]] + Hex(bytes[1..])
  }

  /** The bytes a command is compared by. */
  function Identity(operation: Bytes, fields: seq<Field>): seq<byte> {
    EncodeFields([Text(operation)] + fields)
  }

  function HashOf(digest: seq<byte> -> Digest, operation: Bytes, fields: seq<Field>): string {
    Hex(digest(Identity(operation, fields)))
  }

  /** The checks before the inbox, in their order. */
  function Claim<D, R>(x: Executor<R>, c: Call<D, R>): Result<Receipt, CommandError> {
    if c.key == None || c.key == Some("") then Err(KeyAbsent)
    else if !ValidKey(c.key.value) then Err(KeyInvalid)
    else if c.caller.NoExecution? then Err(ContextAbsent)
    else if c.fields == None || x.digest.None? then Err(IncompleteCommand)
    else Ok(Receipt(x.consumer, c.key.value, HashOf(x.digest.value, c.operation, c.fields.value), c.now, Wrap(c.now + x.retention)))
  }

  function StatusOf<R>(outcome: Outcome<R>): Status {
    if outcome.Rejected? then StatusRejected else StatusProcessed
  }

  function Replayed<D, R>(x: Executor<R>, s: Store<D>, operation: Bytes, stored: seq<byte>): Result<Worked<D, R>, CommandError> {
    match Decoded(x.codec(operation), stored)
    case Ok(outcome) => Ok(Worked(s, Answer(outcome, true)))
    case Err(e) => Err(StoredUnreadable(e))
  }

  function CompletionOf<R>(x: Executor<R>, operation: Bytes, outcome: Outcome<R>): Completion {
    Completion(StatusOf(outcome), "", Encoded(x.codec(operation), outcome))
  }

  /** The body of the transaction, on its working copy. */
  function RunIn<D, R>(x: Executor<R>, s: Store<D>, c: Call<D, R>): Result<Worked<D, R>, CommandError> {
    match Claim(x, c)
    case Err(e) => Err(e)
    case Ok(receipt) =>
      match RegisterIn(s.rows, x.bound, true, c.caller, receipt)
      case Err(e) => Err(InboxRefused(e))
      case Ok(reception) => if c.busy then Err(InFlight) else Received(x, s, c, reception)
  }

  /** What each reception leads to, as Match branches. */
  function Received<D, R>(x: Executor<R>, s: Store<D>, c: Call<D, R>, reception: Reception): Result<Worked<D, R>, CommandError> {
    match reception
    case CollisionReception => Err(Mismatch)
    case ProcessedReception(stored) => Replayed(x, s, c.operation, stored)
    case RejectedReception(stored) => Replayed(x, s, c.operation, stored)
    case FirstReception(key, hash, expiresAt) =>
      match c.run(s.data)
      case None => Err(RunFailed)
      case Some(ran) =>
        Ok(Worked(Store(s.rows[key := CompletedRow(FirstReception(key, hash, expiresAt), CompletionOf(x, c.operation, ran.1))], ran.0),
                  Answer(ran.1, false)))
  }

  /** The whole command: an error anywhere leaves the store as it was. */
  function ExecuteIn<D, R>(x: Executor<R>, s: Store<D>, c: Call<D, R>): (Store<D>, Result<Answer<R>, CommandError>) {
    if !c.authorized then (s, Err(Unauthorized))
    else if c.cancelled then (s, Err(Cancelled))
    else match RunIn(x, s, c)
      case Err(e) => (s, Err(e))
      case Ok(worked) => if c.commitFails then (s, Err(CommitFailed)) else (worked.store, Ok(worked.answer))
  }

  /** Called inside the transaction: `inbox` is its working copy of the entries,
      `data` the business rows. A caller drops both when an error comes back. */
  method RunIdempotent<D, R>(x: Executor<R>, inbox: TxInbox, data: D, c: Call<D, R>)
    returns (answer: Result<Answer<R>, CommandError>, after: D)
    requires inbox.consumer == x.bound && inbox.commands
    modifies inbox
    ensures match RunIn(x, Store(old(inbox.rows), data), c)
      case Err(e) => answer == Err(e)
      case Ok(worked) => answer == Ok(worked.answer) && Store(inbox.rows, after) == worked.store
  {
    after := data;
    if c.key == None || c.key == Some("") {
      return Err(KeyAbsent), data;
    }
    if !ValidKey(c.key.value) {
      return Err(KeyInvalid), data;
    }
    if c.caller.NoExecution? {
      return Err(ContextAbsent), data;
    }
    if c.fields == None || x.digest.None? {
      return Err(IncompleteCommand), data;
    }
    var hash := HashOf(x.digest.value, c.operation, c.fields.value);
    var registered := inbox.Register(c.caller, Receipt(x.consumer, c.key.value, hash, c.now, Wrap(c.now + x.retention)));
    if registered.Err? {
      return Err(InboxRefused(registered.error)), data;
    }
    if c.busy {
      return Err(InFlight), data;
    }
    var reception := registered.value;
    match reception
    case CollisionReception =>
      answer := Err(Mismatch);
    case ProcessedReception(stored) =>
      answer := Replay(x, c.operation, stored);
    case RejectedReception(stored) =>
      answer := Replay(x, c.operation, stored);
    case FirstReception(_, _, _) =>
      var pending := new TxPending(inbox, reception);
      var ran := c.run(data);
      if ran == None {
        return Err(RunFailed), data;
      }
      var (written, outcome) := ran.value;
      var encoded := EncodeOutcome(x.codec(c.operation), outcome);
      var refused := pending.Complete(Completion(StatusOf(outcome), "", encoded));
      assert refused == None;
      after := written;
      answer := Ok(Answer(outcome, false));
  }

  method Replay<R>(x: Executor<R>, operation: Bytes, stored: seq<byte>) returns (answer: Result<Answer<R>, CommandError>)
    ensures answer == match Decoded(x.codec(operation), stored)
      case Ok(outcome) => Ok(Answer(outcome, true))
      case Err(e) => Err(StoredUnreadable(e))
  {
    var outcome := DecodeOutcome(x.codec(operation), stored);
    match outcome
    case Ok(o) => return Ok(Answer(o, true));
    case Err(e) => return Err(StoredUnreadable(e));
  }

  /** The store of a context's commands, and the executor's path through it. */
  class CommandStore<D> {
    var rows: InboxRows
    var data: D

    function Contents(): Store<D>
      reads this
    {
      Store(rows, data)
    }

    constructor (data: D)
      ensures Contents() == Store(map[], data)
    {
      rows := map[];
      this.data := data;
    }

    method Execute<R>(x: Executor<R>, c: Call<D, R>) returns (answer: Result<Answer<R>, CommandError>)
      modifies this
      ensures (Contents(), answer) == ExecuteIn(x, old(Contents()), c)
    {
      if !c.authorized {
        return Err(Unauthorized);
      }
      if c.cancelled {
        return Err(Cancelled);
      }
      var inbox := new TxInbox(rows, x.bound, true);
      var written: D;
      answer, written := RunIdempotent(x, inbox, data, c);
      if answer.Err? {
        return;
      }
      if c.commitFails {
        return Err(CommitFailed);
      }
      rows, data := inbox.rows, written;
    }
  }

  function Max(a: int64, b: int64): int64 {
    if a >= b then a else b
  }

  function Min(a: int64, b: int64): int64 {
    if a <= b then a else b
  }

  function WaitUntil(now: int64, wait: int64, deadline: int64): int64 {
    Max(Min(Wrap(now + wait), Wrap(deadline - DEADLINE_MARGIN)), now)
  }

  /** The wait never starts in the past, and never spends the margin the command
      itself needs, unless that margin is already gone. */
  lemma WaitUntilLeavesTheMargin(now: int64, wait: int64, deadline: int64)
    requires now >= 0 && wait >= 0 && deadline >= 0
    ensures WaitUntil(now, wait, deadline) >= now
    ensures WaitUntil(now, wait, deadline) > now ==>
      WaitUntil(now, wait, deadline) <= deadline - DEADLINE_MARGIN && WaitUntil(now, wait, deadline) <= now + wait
    ensures deadline - DEADLINE_MARGIN > now && wait > 0 && now + wait <= MAX_INT64 ==> WaitUntil(now, wait, deadline) > now
  {
  }
}
