/** The deduplication boundary: what a receipt meets, and how a first reception
    is completed inside the open transaction. */
module Inboxes {
  import opened Ports
  import opened ExternalProfiles

  datatype Status = StatusInvalid | StatusProcessed | StatusRejected

  datatype InboxKey = InboxKey(consumer: string, id: string)

  datatype InboxRow = InboxRow(
    hash: string, status: Status, lastError: string, outcome: seq<byte>, expiresAt: Instant)

  type InboxRows = map<InboxKey, InboxRow>

  /** Only a command sets an expiry; a message's is 0 and never lapses. */
  datatype Receipt = Receipt(
    consumer: string, message: MessageID, hash: string, receivedAt: Instant, expiresAt: Instant)

  datatype Completion = Completion(status: Status, lastError: string, outcome: seq<byte>)

  datatype InboxError =
    | ConsumerRequired
    | ConsumerMismatch
    | CommandExpiryRequired
    | InboxContextRequired
    | InboxTenantUnresolved
    | AlreadyCompleted
    | InvalidCompletion
    | PendingNotCompleted

  /** The four receptions: first, or a replay of what the same content left, or a collision. */
  datatype Reception =
    | FirstReception(key: InboxKey, hash: string, expiresAt: Instant)
    | ProcessedReception(stored: seq<byte>)
    | RejectedReception(stored: seq<byte>)
    | CollisionReception

  predicate Expired(row: InboxRow, at: Instant) {
    row.expiresAt != 0 && row.expiresAt <= at
  }

  /** A command's identifier is scoped to the caller's tenant. */
  function CommandID(tenant: TenantID, key: string): string {
    tenant + "/" + key
  }

  function KeyFor(bound: string, commands: bool, caller: Caller, r: Receipt): Result<InboxKey, InboxError> {
    if bound == "" || r.consumer == "" then Err(ConsumerRequired)
    else if r.consumer != bound then Err(ConsumerMismatch)
    else if !commands then Ok(InboxKey(bound, r.message))
    else if r.expiresAt <= r.receivedAt then Err(CommandExpiryRequired)
    else match caller
      case NoExecution => Err(InboxContextRequired)
      case PlatformChain => Err(InboxTenantUnresolved)
      case OfTenant(tenant) => Ok(InboxKey(bound, CommandID(tenant, r.message)))
  }

  /** What stands under a key at an instant: nothing, or an entry still in force. */
  predicate InForce(rows: InboxRows, key: InboxKey, at: Instant) {
    key in rows && !Expired(rows[key], at)
  }

  function Receive(rows: InboxRows, key: InboxKey, r: Receipt): Reception {
    if !InForce(rows, key, r.receivedAt) then FirstReception(key, r.hash, r.expiresAt)
    else if rows[key].hash != r.hash then CollisionReception
    else if rows[key].status == StatusProcessed then ProcessedReception(rows[key].outcome)
    else RejectedReception(rows[key].outcome)
  }

  function RegisterIn(rows: InboxRows, bound: string, commands: bool, caller: Caller, r: Receipt): Result<Reception, InboxError> {
    match KeyFor(bound, commands, caller, r)
    case Err(e) => Err(e)
    case Ok(key) => Ok(Receive(rows, key, r))
  }

  function CompletedRow(first: Reception, c: Completion): InboxRow
    requires first.FirstReception?
  {
    InboxRow(first.hash, c.status, c.lastError, c.outcome, first.expiresAt)
  }

  /** The inbox of one open transaction, bound to one consumer. */
  class TxInbox {
    var rows: InboxRows
    const consumer: string
    const commands: bool

    constructor (rows: InboxRows, consumer: string, commands: bool)
      ensures this.rows == rows && this.consumer == consumer && this.commands == commands
    {
      this.rows := rows;
      this.consumer := consumer;
      this.commands := commands;
    }

    method Register(caller: Caller, r: Receipt) returns (reception: Result<Reception, InboxError>)
      ensures reception == RegisterIn(rows, consumer, commands, caller, r)
    {
      if consumer == "" || r.consumer == "" {
        return Err(ConsumerRequired);
      }
      if r.consumer != consumer {
        return Err(ConsumerMismatch);
      }
      var id := r.message;
      if commands {
        if r.expiresAt <= r.receivedAt {
          return Err(CommandExpiryRequired);
        }
        if caller.NoExecution? {
          return Err(InboxContextRequired);
        }
        if caller.PlatformChain? {
          return Err(InboxTenantUnresolved);
        }
        id := caller.tenant + "/" + r.message;
      }
      var key := InboxKey(consumer, id);
      if key in rows && !Expired(rows[key], r.receivedAt) {
        var existing := rows[key];
        if existing.hash != r.hash {
          return Ok(CollisionReception);
        }
        if existing.status == StatusProcessed {
          return Ok(ProcessedReception(existing.outcome));
        }
        return Ok(RejectedReception(existing.outcome));
      }
      return Ok(FirstReception(key, r.hash, r.expiresAt));
    }
  }

  /** The write half of a first reception: completed once, or not at all. */
  class TxPending {
    const inbox: TxInbox
    const first: Reception
    var completed: bool

    ghost predicate Valid() {
      first.FirstReception?
    }

    constructor (inbox: TxInbox, first: Reception)
      requires first.FirstReception?
      ensures this.inbox == inbox && this.first == first && !completed && Valid()
    {
      this.inbox := inbox;
      this.first := first;
      completed := false;
    }

    method Complete(c: Completion) returns (error: Option<InboxError>)
      requires Valid()
      modifies this`completed, inbox`rows
      ensures error == (if old(completed) then Some(AlreadyCompleted)
                        else if c.status == StatusInvalid then Some(InvalidCompletion)
                        else None)
      ensures completed == (old(completed) || error == None)
      ensures inbox.rows == if error == None then old(inbox.rows)[first.key := CompletedRow(first, c)] else old(inbox.rows)
    {
      if completed {
        return Some(AlreadyCompleted);
      }
      if c.status == StatusInvalid {
        return Some(InvalidCompletion);
      }
      inbox.rows := inbox.rows[first.key := InboxRow(first.hash, c.status, c.lastError, c.outcome, first.expiresAt)];
      completed := true;
      return None;
    }
  }

  /** A tenant and a key without a slash are read back from the scoped identifier. */
  lemma CommandIDInjective(t1: TenantID, k1: string, t2: TenantID, k2: string)
    requires '/' !in k1 && '/' !in k2
    requires CommandID(t1, k1) == CommandID(t2, k2)
    ensures t1 == t2 && k1 == k2
  {
    var id := CommandID(t1, k1);
    assert id == t1 + (['/'] + k1) && id == t2 + (['/'] + k2);
    assert id[|t1|] == '/' && forall i :: |t1| < i < |id| ==> id[i] == k1[i - |t1| - 1] && id[i] != '/';
    assert id[|t2|] == '/' && forall i :: |t2| < i < |id| ==> id[i] == k2[i - |t2| - 1] && id[i] != '/';
    assert |t1| == |t2|;
    assert t1 == id[..|t1|] && t2 == id[..|t1|];
    assert k1 == id[|t1| + 1..] && k2 == id[|t1| + 1..];
  }

  /** Without the key pattern that excludes the slash, scoping would not separate tenants. */
  lemma CommandIDNeedsThePattern()
    ensures CommandID("a", "b/c") == CommandID("a/b", "c")
  {
    assert CommandID("a", "b/c") == "a/b/c" == CommandID("a/b", "c");
  }

  /** Receptions are exclusive and exhaustive, each exactly when. */
  lemma ReceptionMeaning(rows: InboxRows, key: InboxKey, r: Receipt)
    ensures var got := Receive(rows, key, r);
      && (got.FirstReception? <==> key !in rows || Expired(rows[key], r.receivedAt))
      && (got.CollisionReception? <==> InForce(rows, key, r.receivedAt) && rows[key].hash != r.hash)
      && (got.ProcessedReception? || got.RejectedReception? ==>
            InForce(rows, key, r.receivedAt) && rows[key].hash == r.hash && got.stored == rows[key].outcome)
  {
  }
}
