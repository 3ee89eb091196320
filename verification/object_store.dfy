/** The in-memory object store: scoped keys over one shared bucket, dated retention,
    legal hold, and the clock read before the bucket's lock is taken. */
module ObjectStores {
  import opened Ports
  import opened ExternalProfiles
  import opened ExternalBudgets
  import opened Decimals
  import opened TextSplit

  const RETENTION_RESOLUTION: int := 1_000_000_000
  const VERSION_WIDTH := 6

  datatype Mode = Compliance | Governance | UnknownMode

  datatype Retention = Retention(mode: Mode, until: int64)

  datatype ScopeKind = TenantScope | PlatformScope

  /** A span is a positive duration; no ceiling refuses every retention. */
  datatype Declaration = Declaration(scope: ScopeKind, ceiling: Option<int64>)

  datatype Address = Address(physical: string, version: string)

  datatype Stored = Stored(body: seq<byte>, storedAt: int64, retention: Option<Retention>, hold: bool)

  datatype Bucket = Bucket(versions: map<Address, Stored>, issued: nat)

  datatype Op =
    | Put(key: string, body: seq<byte>, sum: string, retention: Option<Retention>)
    | Retain(key: string, version: string, to: Retention)
    | SetLegalHold(key: string, version: string, on: bool, reason: string)
    | Purge(key: string, version: string)

  datatype ObjectError =
    | VersionRequired
    | KeyInvalid
    | ContextDone
    | ExecutionRequired
    | ScopeMismatch
    | ObjectTenantUnresolved
    | Integrity
    | CeilingUndeclared
    | ModeUnknown
    | RetentionUnbounded
    | AboveCeiling
    | ObjectNotFound
    | RetentionModeChange
    | RetentionNotExtended
    | HoldReasonRequired
    | ObjectLocked

  datatype Answer = PutAs(version: string) | Info(info: Stored) | Held(on: bool) | Purged(retainedUntil: int64)

  /** One call: the store it is made on, its carrier, whether its context is done before
      the call and when its turn on the lock comes, and the instant its clock read. */
  datatype Request = Request(store: Declaration, caller: Caller, done: bool, doneAtLock: bool, now: int64, op: Op)

  const EMPTY := Bucket(map[], 0)

  // --- Keys and addresses --------------------------------------------------------------------

  predicate ValidKey(key: string) {
    key != "" && key[0] != '/' && "." !in Split(key, '/') && ".." !in Split(key, '/')
  }

  function Physical(r: Request, key: string): Result<string, ObjectError> {
    if r.done then Err(ContextDone)
    else match r.caller
      case NoExecution => Err(ExecutionRequired)
      case PlatformChain =>
        if r.store.scope.PlatformScope? then Ok("platform/" + key) else Err(ObjectTenantUnresolved)
      case OfTenant(tenant) =>
        if r.store.scope.PlatformScope? then Err(ScopeMismatch)
        else if '/' in tenant then Err(ObjectTenantUnresolved)
        else Ok("tenant/" + tenant + "/" + key)
  }

  function Locate(r: Request, key: string, version: string): Result<Address, ObjectError> {
    if version == "" then Err(VersionRequired)
    else if !ValidKey(key) then Err(KeyInvalid)
    else match Physical(r, key)
      case Err(e) => Err(e)
      case Ok(physical) => Ok(Address(physical, version))
  }

  function VersionName(n: nat): string {
    "v-" + Padded(VERSION_WIDTH, n)
  }

  // --- Retention ---------------------------------------------------------------------------------

  /** The fraction is dropped toward zero, as Go's remainder does. */
  function WholeSeconds(r: Retention): Retention {
    var u: int := r.until;
    r.(until := if u >= 0 then u - u % RETENTION_RESOLUTION else u + (-u) % RETENTION_RESOLUTION)
  }

  /** The ceiling from an instant, or nothing when the sum leaves int64. */
  function CeilingAt(span: int64, at: int64): Option<int64> {
    var sum := Wrap(at + span);
    if (span > 0 && sum < at) || (span < 0 && sum > at) then None else Some(sum)
  }

  function CheckRetention(d: Declaration, now: int64, r: Retention): Option<ObjectError> {
    if d.ceiling == None then Some(CeilingUndeclared)
    else if r.mode.UnknownMode? then Some(ModeUnknown)
    else if r.until <= now then Some(RetentionUnbounded)
    else match CeilingAt(d.ceiling.value, now)
      case None => None
      case Some(ceiling) => if r.until > ceiling then Some(AboveCeiling) else None
  }

  /** Extending, or promoting on a date no earlier; a lapsed retention takes any. */
  function Replaceable(current: Option<Retention>, to: Retention, now: int64): Option<ObjectError> {
    if current == None || current.value.until <= now then None
    else
      var c := current.value;
      if c.mode.Compliance? && to.mode.Governance? then Some(RetentionModeChange)
      else if to.until < c.until || (to.until == c.until && !(c.mode.Governance? && to.mode.Compliance?)) then Some(RetentionNotExtended)
      else None
  }

  // --- Operations ------------------------------------------------------------------------------------

  function PutIn(sha: seq<byte> -> string, b: Bucket, r: Request): (Bucket, Result<Answer, ObjectError>)
    requires r.op.Put?
  {
    if !ValidKey(r.op.key) then (b, Err(KeyInvalid))
    else match Physical(r, r.op.key)
      case Err(e) => (b, Err(e))
      case Ok(physical) =>
        if r.op.sum != sha(r.op.body) then (b, Err(Integrity))
        else
          var dated := match r.op.retention case None => None case Some(asked) => Some(WholeSeconds(asked));
          if dated.Some? && CheckRetention(r.store, r.now, dated.value).Some? then
            (b, Err(CheckRetention(r.store, r.now, dated.value).value))
          else if r.doneAtLock then (b, Err(ContextDone))
          else
            var version := VersionName(b.issued + 1);
            (Bucket(b.versions[Address(physical, version) := Stored(r.op.body, r.now, dated, false)], b.issued + 1),
             Ok(PutAs(version)))
  }

  function RetainIn(b: Bucket, r: Request): (Bucket, Result<Answer, ObjectError>)
    requires r.op.Retain?
  {
    match Locate(r, r.op.key, r.op.version)
    case Err(e) => (b, Err(e))
    case Ok(at) =>
      var to := WholeSeconds(r.op.to);
      if CheckRetention(r.store, r.now, to).Some? then (b, Err(CheckRetention(r.store, r.now, to).value))
      else if r.doneAtLock then (b, Err(ContextDone))
      else if at !in b.versions then (b, Err(ObjectNotFound))
      else match Replaceable(b.versions[at].retention, to, r.now)
        case Some(e) => (b, Err(e))
        case None =>
          var after := b.versions[at].(retention := Some(to));
          (b.(versions := b.versions[at := after]), Ok(Info(after)))
  }

  function HoldIn(b: Bucket, r: Request): (Bucket, Result<Answer, ObjectError>)
    requires r.op.SetLegalHold?
  {
    match Locate(r, r.op.key, r.op.version)
    case Err(e) => (b, Err(e))
    case Ok(at) =>
      if r.op.on && r.op.reason == "" then (b, Err(HoldReasonRequired))
      else if r.doneAtLock then (b, Err(ContextDone))
      else if at !in b.versions then (b, Err(ObjectNotFound))
      else (b.(versions := b.versions[at := b.versions[at].(hold := r.op.on)]), Ok(Held(r.op.on)))
  }

  function PurgeIn(b: Bucket, r: Request): (Bucket, Result<Answer, ObjectError>)
    requires r.op.Purge?
  {
    match Locate(r, r.op.key, r.op.version)
    case Err(e) => (b, Err(e))
    case Ok(at) =>
      if r.doneAtLock then (b, Err(ContextDone))
      else if at !in b.versions then (b, Err(ObjectNotFound))
      else
        var stored := b.versions[at];
        if stored.hold then (b, Err(ObjectLocked))
        else if stored.retention.Some? && stored.retention.value.until > r.now then (b, Err(ObjectLocked))
        else (b.(versions := b.versions - {at}),
              Ok(Purged(if stored.retention.Some? then stored.retention.value.until else 0)))
  }

  function Perform(sha: seq<byte> -> string, b: Bucket, r: Request): (Bucket, Result<Answer, ObjectError>) {
    match r.op
    case Put(_, _, _, _) => PutIn(sha, b, r)
    case Retain(_, _, _) => RetainIn(b, r)
    case SetLegalHold(_, _, _, _) => HoldIn(b, r)
    case Purge(_, _) => PurgeIn(b, r)
  }

  // --- The store, updating its bucket in place -------------------------------------------------------

  class ObjectBucket {
    var versions: map<Address, Stored>
    var issued: nat

    function Value(): Bucket
      reads this
    {
      Bucket(versions, issued)
    }

    constructor ()
      ensures Value() == EMPTY
    {
      versions, issued := map[], 0;
    }
  }

  class ObjectStore {
    const bucket: ObjectBucket
    const decl: Declaration
    const sha: seq<byte> -> string

    constructor (bucket: ObjectBucket, decl: Declaration, sha: seq<byte> -> string)
      ensures this.bucket == bucket && this.decl == decl && this.sha == sha
    {
      this.bucket, this.decl, this.sha := bucket, decl, sha;
    }

    method Put(r: Request) returns (answer: Result<Answer, ObjectError>)
      requires r.op.Put? && r.store == decl
      modifies bucket
      ensures (bucket.Value(), answer) == PutIn(sha, old(bucket.Value()), r)
    {
      if !ValidKey(r.op.key) {
        return Err(KeyInvalid);
      }
      var physical := Physical(r, r.op.key);
      if physical.Err? {
        return Err(physical.error);
      }
      if r.op.sum != sha(r.op.body) {
        return Err(Integrity);
      }
      var retention: Option<Retention> := None;
      if r.op.retention.Some? {
        var dated := WholeSeconds(r.op.retention.value);
        var refused := CheckRetention(decl, r.now, dated);
        if refused.Some? {
          return Err(refused.value);
        }
        retention := Some(dated);
      }
      if r.doneAtLock {
        return Err(ContextDone);
      }
      bucket.issued := bucket.issued + 1;
      var version := VersionName(bucket.issued);
      bucket.versions := bucket.versions[Address(physical.value, version) := Stored(r.op.body, r.now, retention, false)];
      return Ok(PutAs(version));
    }

    method Retain(r: Request) returns (answer: Result<Answer, ObjectError>)
      requires r.op.Retain? && r.store == decl
      modifies bucket
      ensures (bucket.Value(), answer) == RetainIn(old(bucket.Value()), r)
    {
      var located := Locate(r, r.op.key, r.op.version);
      if located.Err? {
        return Err(located.error);
      }
      var to := WholeSeconds(r.op.to);
      var refused := CheckRetention(decl, r.now, to);
      if refused.Some? {
        return Err(refused.value);
      }
      if r.doneAtLock {
        return Err(ContextDone);
      }
      if located.value !in bucket.versions {
        return Err(ObjectNotFound);
      }
      var stored := bucket.versions[located.value];
      if stored.retention.Some? && stored.retention.value.until > r.now {
        var current := stored.retention.value;
        if current.mode.Compliance? && to.mode.Governance? {
          return Err(RetentionModeChange);
        }
        var promoted := current.mode.Governance? && to.mode.Compliance?;
        if to.until < current.until || (to.until == current.until && !promoted) {
          return Err(RetentionNotExtended);
        }
      }
      bucket.versions := bucket.versions[located.value := stored.(retention := Some(to))];
      return Ok(Info(stored.(retention := Some(to))));
    }

    method SetLegalHold(r: Request) returns (answer: Result<Answer, ObjectError>)
      requires r.op.SetLegalHold? && r.store == decl
      modifies bucket
      ensures (bucket.Value(), answer) == HoldIn(old(bucket.Value()), r)
    {
      var located := Locate(r, r.op.key, r.op.version);
      if located.Err? {
        return Err(located.error);
      }
      if r.op.on && r.op.reason == "" {
        return Err(HoldReasonRequired);
      }
      if r.doneAtLock {
        return Err(ContextDone);
      }
      if located.value !in bucket.versions {
        return Err(ObjectNotFound);
      }
      bucket.versions := bucket.versions[located.value := bucket.versions[located.value].(hold := r.op.on)];
      return Ok(Held(r.op.on));
    }

    method Purge(r: Request) returns (answer: Result<Answer, ObjectError>)
      requires r.op.Purge? && r.store == decl
      modifies bucket
      ensures (bucket.Value(), answer) == PurgeIn(old(bucket.Value()), r)
    {
      var located := Locate(r, r.op.key, r.op.version);
      if located.Err? {
        return Err(located.error);
      }
      if r.doneAtLock {
        return Err(ContextDone);
      }
      if located.value !in bucket.versions {
        return Err(ObjectNotFound);
      }
      var stored := bucket.versions[located.value];
      if stored.hold {
        return Err(ObjectLocked);
      }
      var retainedUntil: int64 := 0;
      if stored.retention.Some? {
        if stored.retention.value.until > r.now {
          return Err(ObjectLocked);
        }
        retainedUntil := stored.retention.value.until;
      }
      bucket.versions := bucket.versions - {located.value};
      return Ok(Purged(retainedUntil));
    }
  }
}

/** What the bucket keeps over every run of operations by stores of any scope. */
module ObjectRetention {
  import opened Ports
  import opened ExternalProfiles
  import opened ExternalBudgets
  import opened Decimals
  import opened ObjectStores

  /** A declared span is positive; a date is accepted exactly when it is dated in the
      future and ends by the instant plus the span, summed without wrapping. */
  lemma RetentionAcceptedExactlyWhen(d: Declaration, now: int64, r: Retention)
    requires d.ceiling.Some? ==> d.ceiling.value > 0
    ensures CheckRetention(d, now, r) == None <==>
      d.ceiling.Some? && !r.mode.UnknownMode? && now < r.until <= now + d.ceiling.value
  {
  }

  /** The fraction is dropped, never a whole second, and always toward 1970. */
  lemma WholeSecondsTruncates(r: Retention)
    ensures var w := WholeSeconds(r);
      && w.mode == r.mode
      && w.until % RETENTION_RESOLUTION == 0
      && (r.until >= 0 ==> w.until <= r.until < w.until + RETENTION_RESOLUTION)
      && (r.until <= 0 ==> w.until - RETENTION_RESOLUTION < r.until <= w.until)
  {
    if r.until < 0 {
      var u: int := r.until;
      var q: int := (-u) / RETENTION_RESOLUTION;
      assert WholeSeconds(r).until == -q * RETENTION_RESOLUTION;
    }
  }

  /** The version a call addresses, when it reaches the bucket at all. */
  ghost function Target(b: Bucket, r: Request): Option<Address> {
    match r.op
    case Put(key, _, _, _) =>
      (match Physical(r, key) case Ok(p) => Some(Address(p, VersionName(b.issued + 1))) case Err(_) => None)
    case Retain(key, version, _) => (match Locate(r, key, version) case Ok(at) => Some(at) case Err(_) => None)
    case SetLegalHold(key, version, _, _) => (match Locate(r, key, version) case Ok(at) => Some(at) case Err(_) => None)
    case Purge(key, version) => (match Locate(r, key, version) case Ok(at) => Some(at) case Err(_) => None)
  }

  /** Every version in the bucket was issued by it. */
  ghost predicate Issued(b: Bucket, at: Address) {
    exists n: nat :: 1 <= n <= b.issued && at.version == VersionName(n)
  }

  ghost predicate Inv(b: Bucket) {
    forall at :: at in b.versions ==> Issued(b, at)
  }

  lemma VersionNamesDiffer(m: nat, n: nat)
    requires VersionName(m) == VersionName(n)
    ensures m == n
  {
    assert Padded(VERSION_WIDTH, m) == VersionName(m)[2..] == VersionName(n)[2..] == Padded(VERSION_WIDTH, n);
    PaddedInjective(VERSION_WIDTH, m, n);
  }

  lemma NextVersionIsFresh(b: Bucket, physical: string)
    requires Inv(b)
    ensures Address(physical, VersionName(b.issued + 1)) !in b.versions
  {
    var at := Address(physical, VersionName(b.issued + 1));
    if at in b.versions {
      assert Issued(b, at);
      var n: nat :| 1 <= n <= b.issued && at.version == VersionName(n);
      VersionNamesDiffer(n, b.issued + 1);
    }
  }

  lemma StepKeeps(sha: seq<byte> -> string, b: Bucket, r: Request)
    requires Inv(b)
    ensures Inv(Perform(sha, b, r).0)
  {
    var t := Perform(sha, b, r).0;
    forall at | at in t.versions ensures Issued(t, at) {
      if at in b.versions {
        assert Issued(b, at);
        var n: nat :| 1 <= n <= b.issued && at.version == VersionName(n);
        assert n <= t.issued;
      } else {
        assert at.version == VersionName(t.issued);
      }
    }
  }

  /** A call touches no version but the one it addresses, and a refused one none. */
  lemma OnlyTheTargetChanges(sha: seq<byte> -> string, b: Bucket, r: Request, at: Address)
    requires Inv(b) && Target(b, r) != Some(at)
    ensures var t := Perform(sha, b, r).0;
      (at in t.versions <==> at in b.versions) && (at in b.versions ==> t.versions[at] == b.versions[at])
  {
  }

  // --- Isolation --------------------------------------------------------------------------------------

  ghost predicate SlashFree(t: TenantID) {
    '/' !in t
  }

  lemma TenantAddressesDiffer(t1: TenantID, k1: string, t2: TenantID, k2: string)
    requires SlashFree(t1) && SlashFree(t2)
    requires "tenant/" + t1 + "/" + k1 == "tenant/" + t2 + "/" + k2
    ensures t1 == t2 && k1 == k2
  {
    var a, b := t1 + "/" + k1, t2 + "/" + k2;
    assert "tenant/" + a == "tenant/" + t1 + "/" + k1 == "tenant/" + b;
    assert a == ("tenant/" + a)[7..] == b;
    assert a[|t1|] == '/' && forall i :: 0 <= i < |t1| ==> a[i] == t1[i] && a[i] != '/';
    assert b[|t2|] == '/' && forall i :: 0 <= i < |t2| ==> b[i] == t2[i] && b[i] != '/';
    assert |t1| == |t2|;
    assert t1 == a[..|t1|] && t2 == b[..|t1|];
    assert k1 == a[|t1| + 1..] && k2 == b[|t1| + 1..];
  }

  /** One physical key has one scope, one tenant and one logical key: whatever tenant
      names and keys hold, no call of another tenant or scope resolves to it. */
  lemma PhysicalKeysAreScoped(r1: Request, k1: string, r2: Request, k2: string)
    requires Physical(r1, k1).Ok? && Physical(r2, k2).Ok?
    ensures Physical(r1, k1) == Physical(r2, k2) <==>
      r1.store.scope == r2.store.scope && r1.caller == r2.caller && k1 == k2
  {
    var p1, p2 := Physical(r1, k1).value, Physical(r2, k2).value;
    assert p1[0] == (if r1.store.scope.PlatformScope? then 'p' else 't');
    assert p2[0] == (if r2.store.scope.PlatformScope? then 'p' else 't');
    if p1 == p2 {
      if r1.store.scope.PlatformScope? {
        assert k1 == p1[9..] && k2 == p2[9..];
      } else {
        TenantAddressesDiffer(r1.caller.tenant, k1, r2.caller.tenant, k2);
      }
    }
  }

  /** A version written for one caller is out of every other caller's reach. */
  lemma NoOtherScopeReaches(sha: seq<byte> -> string, b: Bucket, owner: Request, key: string, version: string, r: Request)
    requires Inv(b) && Physical(owner, key).Ok?
    requires r.store.scope != owner.store.scope || r.caller != owner.caller
    ensures var at := Address(Physical(owner, key).value, version); var t := Perform(sha, b, r).0;
      (at in t.versions <==> at in b.versions) && (at in b.versions ==> t.versions[at] == b.versions[at])
  {
    var at := Address(Physical(owner, key).value, version);
    if Physical(r, r.op.key).Ok? {
      PhysicalKeysAreScoped(owner, key, r, r.op.key);
    }
    OnlyTheTargetChanges(sha, b, r, at);
  }

  // --- Retention over runs --------------------------------------------------------------------------------

  /** What a live retention promises of a version. */
  ghost predicate Protected(s: Stored, body: seq<byte>, mode: Mode, until: int) {
    && s.body == body
    && s.retention.Some?
    && s.retention.value.until >= until
    && (mode.Compliance? ==> s.retention.value.mode.Compliance?)
  }

  ghost predicate KnownMode(s: Stored) {
    s.retention.Some? ==> !s.retention.value.mode.UnknownMode?
  }

  ghost predicate KnownModes(b: Bucket) {
    forall at :: at in b.versions ==> KnownMode(b.versions[at])
  }

  lemma KnownModesStay(sha: seq<byte> -> string, b: Bucket, r: Request)
    requires KnownModes(b)
    ensures KnownModes(Perform(sha, b, r).0)
  {
  }

  /** One operation while the retention lasts: its instant may be stale, never ahead. */
  lemma ProtectionStays(sha: seq<byte> -> string, b: Bucket, r: Request, at: Address, body: seq<byte>, mode: Mode, until: int)
    requires Inv(b) && KnownModes(b) && at in b.versions && Protected(b.versions[at], body, mode, until) && r.now < until
    ensures var t := Perform(sha, b, r).0; at in t.versions && Protected(t.versions[at], body, mode, until)
  {
    if r.op.Put? && Physical(r, r.op.key).Ok? {
      NextVersionIsFresh(b, Physical(r, r.op.key).value);
    }
    if Target(b, r) != Some(at) {
      OnlyTheTargetChanges(sha, b, r, at);
    }
  }

  /** The bucket's runs: each operation acts at a time no earlier than its own reading. */
  ghost predicate IsRun(sha: seq<byte> -> string, run: seq<Bucket>, calls: seq<Request>, times: seq<int>) {
    && |run| == |calls| + 1 && |times| == |calls|
    && run[0] == EMPTY
    && (forall i :: 0 <= i < |calls| ==> run[i + 1] == Perform(sha, run[i], calls[i]).0 && calls[i].now <= times[i])
    && forall i, j :: 0 <= i < j < |times| ==> times[i] <= times[j]
  }

  lemma {:induction false} RunKeeps(sha: seq<byte> -> string, run: seq<Bucket>, calls: seq<Request>, times: seq<int>, n: nat)
    requires IsRun(sha, run, calls, times) && n < |run|
    ensures Inv(run[n]) && KnownModes(run[n])
  {
    if n > 0 {
      RunKeeps(sha, run, calls, times, n - 1);
      StepKeeps(sha, run[n - 1], calls[n - 1]);
      KnownModesStay(sha, run[n - 1], calls[n - 1]);
    }
  }

  /** A version retained until U is there with the same body until U, its date never
      moved earlier and its COMPLIANCE never downgraded, whatever anyone calls. */
  lemma {:induction false} RetainedUntilItsDate(sha: seq<byte> -> string, run: seq<Bucket>, calls: seq<Request>, times: seq<int>,
                                                i: nat, j: nat, at: Address)
    requires IsRun(sha, run, calls, times) && i <= j < |run|
    requires at in run[i].versions && run[i].versions[at].retention.Some?
    requires forall k :: i <= k < j ==> times[k] < run[i].versions[at].retention.value.until
    ensures at in run[j].versions
    ensures Protected(run[j].versions[at], run[i].versions[at].body, run[i].versions[at].retention.value.mode, run[i].versions[at].retention.value.until)
  {
    if i < j {
      RetainedUntilItsDate(sha, run, calls, times, i, j - 1, at);
      RunKeeps(sha, run, calls, times, j - 1);
      var s := run[i].versions[at];
      assert calls[j - 1].now <= times[j - 1] < s.retention.value.until;
      ProtectionStays(sha, run[j - 1], calls[j - 1], at, s.body, s.retention.value.mode, s.retention.value.until);
    }
  }

  /** A held version outlives every operation, and only a release of its own hold, by a
      call that resolves to it, takes the hold off. */
  lemma HeldIsNeverPurged(sha: seq<byte> -> string, b: Bucket, r: Request, at: Address)
    requires Inv(b) && at in b.versions && b.versions[at].hold
    ensures var t := Perform(sha, b, r).0;
      && at in t.versions && t.versions[at].body == b.versions[at].body
      && (!t.versions[at].hold ==> r.op.SetLegalHold? && !r.op.on && Target(b, r) == Some(at))
  {
    if r.op.Put? && Physical(r, r.op.key).Ok? {
      NextVersionIsFresh(b, Physical(r, r.op.key).value);
    }
    if Target(b, r) != Some(at) {
      OnlyTheTargetChanges(sha, b, r, at);
    }
  }

  /** A call that takes the hold off a version. */
  ghost predicate Releases(b: Bucket, r: Request, at: Address) {
    r.op.SetLegalHold? && !r.op.on && Target(b, r) == Some(at)
  }

  /** From any state of a run to any later one, a held version is there with its body and
      its hold, as long as nobody released it in between. */
  lemma {:induction false} HeldThroughRun(sha: seq<byte> -> string, run: seq<Bucket>, calls: seq<Request>, times: seq<int>,
                                          i: nat, j: nat, at: Address)
    requires IsRun(sha, run, calls, times) && i <= j < |run|
    requires at in run[i].versions && run[i].versions[at].hold
    requires forall k :: i <= k < j ==> !Releases(run[k], calls[k], at)
    ensures at in run[j].versions && run[j].versions[at].hold && run[j].versions[at].body == run[i].versions[at].body
  {
    if i < j {
      HeldThroughRun(sha, run, calls, times, i, j - 1, at);
      RunKeeps(sha, run, calls, times, j - 1);
      assert !Releases(run[j - 1], calls[j - 1], at);
      HeldIsNeverPurged(sha, run[j - 1], calls[j - 1], at);
    }
  }

  /** A version leaves the bucket exactly by a purge that resolves to it, not held and
      with no retention past the purge's reading of the clock. */
  lemma PurgedExactlyWhen(sha: seq<byte> -> string, b: Bucket, r: Request, at: Address)
    requires Inv(b) && at in b.versions
    ensures at !in Perform(sha, b, r).0.versions <==>
      && r.op.Purge? && Target(b, r) == Some(at) && !r.doneAtLock
      && !b.versions[at].hold
      && (b.versions[at].retention.Some? ==> b.versions[at].retention.value.until <= r.now)
  {
    if Target(b, r) != Some(at) {
      OnlyTheTargetChanges(sha, b, r, at);
    }
  }

  /** A put that answers a version stored, under an address nothing had, the body whose
      sum was declared, the date asked for without its fraction, and no hold. */
  lemma PutIsFoundAgain(sha: seq<byte> -> string, b: Bucket, r: Request)
    requires Inv(b) && r.op.Put? && Perform(sha, b, r).1.Ok?
    ensures var (t, answer) := Perform(sha, b, r);
      && answer.value.PutAs?
      && var at := Address(Physical(r, r.op.key).value, answer.value.version);
      && at !in b.versions && at in t.versions
      && t.versions[at].body == r.op.body && sha(r.op.body) == r.op.sum
      && !t.versions[at].hold && t.versions[at].storedAt == r.now
      && (t.versions[at].retention.Some? <==> r.op.retention.Some?)
      && (r.op.retention.Some? ==>
        && t.versions[at].retention == Some(WholeSeconds(r.op.retention.value))
        && CheckRetention(r.store, r.now, WholeSeconds(r.op.retention.value)) == None)
  {
    NextVersionIsFresh(b, Physical(r, r.op.key).value);
  }

  /** A new date is taken exactly when the store may set it and the version's own has
      lapsed or is extended, or promoted on a date no earlier, and never downgraded. */
  lemma RetainedExactlyWhen(sha: seq<byte> -> string, b: Bucket, r: Request)
    requires Inv(b) && KnownModes(b) && r.op.Retain?
    requires Locate(r, r.op.key, r.op.version).Ok? && Locate(r, r.op.key, r.op.version).value in b.versions && !r.doneAtLock
    ensures var at := Locate(r, r.op.key, r.op.version).value;
      var to, current := WholeSeconds(r.op.to), b.versions[at].retention;
      var (t, answer) := Perform(sha, b, r);
      && (answer.Ok? <==>
        && CheckRetention(r.store, r.now, to) == None
        && (|| current == None
            || current.value.until <= r.now
            || (current.value.until < to.until && !(current.value.mode.Compliance? && to.mode.Governance?))
            || (current.value.until == to.until && current.value.mode.Governance? && to.mode.Compliance?)))
      && (answer.Ok? ==> t.versions == b.versions[at := b.versions[at].(retention := Some(to))])
      && (answer.Err? ==> t == b)
  {
    assert KnownMode(b.versions[Locate(r, r.op.key, r.op.version).value]);
  }

  /** A hold answered is the hold set, and a refused one changes nothing. */
  lemma HoldIsSet(sha: seq<byte> -> string, b: Bucket, r: Request)
    requires r.op.SetLegalHold?
    ensures var (t, answer) := Perform(sha, b, r);
      && (answer.Ok? ==>
        && Target(b, r).Some? && Target(b, r).value in b.versions
        && (r.op.on ==> r.op.reason != "")
        && t.versions == b.versions[Target(b, r).value := b.versions[Target(b, r).value].(hold := r.op.on)])
      && (answer.Err? ==> t == b)
  {
  }
}
