/** One logical table inside an open transaction: tenant-scoped rows, optimistic
    versions, unique constraints, and the outbox written beside them. */
module MemoryTables {
  import opened Ports
  import opened ExternalProfiles
  import opened OutcomeCodecs
  import opened TextOrder

  datatype RowKey = RowKey(tenant: TenantID, id: seq<byte>)

  datatype Row<S> = Row(snapshot: S, version: nat)

  type Rows<S> = map<RowKey, Row<S>>

  /** `columns` yields the constrained columns, or nothing when one of them is NULL. */
  datatype Unique<!S> = Unique(name: string, columns: S -> Option<seq<string>>, rejection: Rejection)

  datatype StoreError =
    | ContextRequired
    | TenantUnresolved
    | NotFound
    | CrossTenantAccess(id: seq<byte>, contextTenant: TenantID, dataTenant: TenantID)
    | VersionConflict
    | UniqueViolation(constraint: string, refusal: Option<Rejection>)

  function ScopedKey(caller: Caller, id: seq<byte>): Result<RowKey, StoreError> {
    match caller
    case NoExecution => Err(ContextRequired)
    case PlatformChain => Err(StoreError.TenantUnresolved)
    case OfTenant(tenant) => Ok(RowKey(tenant, id))
  }

  /** An execution context never carries an empty tenant. */
  ghost predicate Named<S>(rows: Rows<S>) {
    forall k :: k in rows ==> k.tenant != ""
  }

  ghost predicate Elsewhere<S>(rows: Rows<S>, key: RowKey, tenant: TenantID) {
    tenant != key.tenant && RowKey(tenant, key.id) in rows
  }

  ghost predicate Clash<S>(u: Unique<S>, rows: Rows<S>, key: RowKey, state: S, other: RowKey) {
    && other in rows && other.tenant == key.tenant && other.id != key.id
    && u.columns(state).Some? && u.columns(rows[other].snapshot) == u.columns(state)
  }

  /** Writing `state` under `key` would break the constraint. */
  ghost predicate Breaks<S>(u: Unique<S>, rows: Rows<S>, key: RowKey, state: S) {
    exists other :: Clash(u, rows, key, state, other)
  }

  ghost predicate IsFirstBroken<S>(unique: seq<Unique<S>>, rows: Rows<S>, key: RowKey, state: S, i: int) {
    && 0 <= i < |unique|
    && Breaks(unique[i], rows, key, state)
    && forall j :: 0 <= j < i ==> !Breaks(unique[j], rows, key, state)
  }

  ghost predicate SameColumns<S>(u: Unique<S>, rows: Rows<S>, a: RowKey, b: RowKey)
    requires a in rows && b in rows
  {
    u.columns(rows[a].snapshot).Some? && u.columns(rows[a].snapshot) == u.columns(rows[b].snapshot)
  }

  /** No two rows of a tenant share the columns of any constraint. */
  ghost predicate AllUnique<S>(unique: seq<Unique<S>>, rows: Rows<S>) {
    forall u <- unique, a, b :: a in rows && b in rows && a.tenant == b.tenant && a != b ==> !SameColumns(u, rows, a, b)
  }

  /** The declared rejection is offered only while the transaction wrote nothing. */
  function Reported<S>(u: Unique<S>, writes: nat): StoreError {
    UniqueViolation(u.name, if writes == 0 then Some(u.rejection) else None)
  }

  function VersionAt<S>(rows: Rows<S>, key: RowKey): nat {
    if key in rows then rows[key].version else 0
  }

  lemma LowerStaysLowest(lowest: TenantID, lower: TenantID)
    requires CompareText(lower, lowest) < 0
    ensures forall t :: CompareText(lowest, t) <= 0 ==> CompareText(lower, t) <= 0
  {
    forall t | CompareText(lowest, t) <= 0 ensures CompareText(lower, t) <= 0 {
      TextTransitive(lower, lowest, t);
    }
  }

  class TxTable<S> {
    var rows: Rows<S>
    var writes: nat
    const unique: seq<Unique<S>>

    constructor (rows: Rows<S>, unique: seq<Unique<S>>)
      ensures this.rows == rows && writes == 0 && this.unique == unique
    {
      this.rows := rows;
      this.unique := unique;
      writes := 0;
    }

    method Load(caller: Caller, id: seq<byte>) returns (loaded: Result<Row<S>, StoreError>)
      requires Named(rows)
      ensures caller.NoExecution? ==> loaded == Err(ContextRequired)
      ensures caller.PlatformChain? ==> loaded == Err(StoreError.TenantUnresolved)
      ensures caller.OfTenant? ==>
        var key := RowKey(caller.tenant, id);
        match loaded
        case Ok(row) => key in rows && row == rows[key]
        case Err(NotFound) => key !in rows && forall t :: !Elsewhere(rows, key, t)
        case Err(CrossTenantAccess(i, ours, theirs)) =>
          && key !in rows && i == id && ours == caller.tenant
          && Elsewhere(rows, key, theirs)
          && forall t :: Elsewhere(rows, key, t) ==> CompareText(theirs, t) <= 0
        case Err(_) => false
    {
      var scoped := ScopedKey(caller, id);
      if scoped.Err? {
        return Err(scoped.error);
      }
      if scoped.value in rows {
        return Ok(rows[scoped.value]);
      }
      var missed := Miss(scoped.value);
      return Err(missed);
    }

    /** The report names the lowest tenant that holds the identifier, so it does not
        depend on the order the rows are walked in. */
    method Miss(key: RowKey) returns (error: StoreError)
      requires Named(rows) && key !in rows
      ensures error == NotFound <==> forall t :: !Elsewhere(rows, key, t)
      ensures error != NotFound ==>
        && error.CrossTenantAccess? && error.id == key.id && error.contextTenant == key.tenant
        && Elsewhere(rows, key, error.dataTenant)
        && forall t :: Elsewhere(rows, key, t) ==> CompareText(error.dataTenant, t) <= 0
    {
      var owner: TenantID := "";
      var left := rows.Keys;
      while left != {}
        invariant left <= rows.Keys
        invariant owner != "" ==> Elsewhere(rows, key, owner)
        invariant forall t :: Elsewhere(rows, key, t) && RowKey(t, key.id) !in left ==>
          owner != "" && CompareText(owner, t) <= 0
      {
        var other :| other in left;
        left := left - {other};
        if other.id == key.id && other.tenant != key.tenant {
          assert other == RowKey(other.tenant, key.id);
          TextAntisymmetric(owner, other.tenant);
          TextAntisymmetric(other.tenant, other.tenant);
          if owner == "" || CompareText(other.tenant, owner) < 0 {
            if owner != "" {
              LowerStaysLowest(owner, other.tenant);
            }
            owner := other.tenant;
          }
        }
      }
      if owner == "" {
        return NotFound;
      }
      return CrossTenantAccess(key.id, key.tenant, owner);
    }

    /** The first declared constraint the write would break. */
    method Violation(key: RowKey, state: S) returns (broken: Option<StoreError>)
      ensures broken == None <==> forall u <- unique :: !Breaks(u, rows, key, state)
      ensures broken.Some? ==>
        exists i :: IsFirstBroken(unique, rows, key, state, i) && broken.value == Reported(unique[i], writes)
    {
      for i := 0 to |unique|
        invariant forall j :: 0 <= j < i ==> !Breaks(unique[j], rows, key, state)
      {
        var clashes := Clashes(unique[i], key, state);
        if clashes {
          assert IsFirstBroken(unique, rows, key, state, i);
          return Some(Reported(unique[i], writes));
        }
      }
      return None;
    }

    method Clashes(u: Unique<S>, key: RowKey, state: S) returns (clashes: bool)
      ensures clashes <==> Breaks(u, rows, key, state)
    {
      if u.columns(state).None? {
        return false;
      }
      var left := rows.Keys;
      while left != {}
        invariant left <= rows.Keys
        invariant forall other :: Clash(u, rows, key, state, other) ==> other in left
      {
        var other :| other in left;
        if other.tenant == key.tenant && other.id != key.id && u.columns(rows[other].snapshot) == u.columns(state) {
          assert Clash(u, rows, key, state, other);
          return true;
        }
        left := left - {other};
      }
      return false;
    }

    method SaveAs(key: RowKey, state: S, expected: nat) returns (error: Option<StoreError>)
      modifies this
      ensures old(VersionAt(rows, key)) != expected ==> error == Some(VersionConflict)
      ensures old(VersionAt(rows, key)) == expected ==>
        (error == None <==> forall u <- unique :: !Breaks(u, old(rows), key, state))
      ensures old(VersionAt(rows, key)) == expected && error.Some? ==>
        error.value.UniqueViolation? && (error.value.refusal.Some? <==> old(writes) == 0)
      ensures error == None ==> rows == old(rows)[key := Row(state, expected + 1)] && writes == old(writes) + 1
      ensures error.Some? ==> rows == old(rows) && writes == old(writes)
    {
      var current := 0;
      if key in rows {
        current := rows[key].version;
      }
      if current != expected {
        return Some(VersionConflict);
      }
      var broken := Violation(key, state);
      if broken.Some? {
        return broken;
      }
      rows := rows[key := Row(state, expected + 1)];
      writes := writes + 1;
      return None;
    }
  }

  /** A write keeps every constraint exactly when it breaks none: checking the one row
      against its tenant is enough. */
  lemma SaveKeepsUniqueExactlyWhen<S>(unique: seq<Unique<S>>, rows: Rows<S>, key: RowKey, row: Row<S>)
    requires AllUnique(unique, rows)
    ensures AllUnique(unique, rows[key := row]) <==> forall u <- unique :: !Breaks(u, rows, key, row.snapshot)
  {
    var after := rows[key := row];
    if AllUnique(unique, after) {
      forall u <- unique ensures !Breaks(u, rows, key, row.snapshot) {
        forall other ensures !Clash(u, rows, key, row.snapshot, other) {
          if Clash(u, rows, key, row.snapshot, other) {
            assert SameColumns(u, after, key, other);
          }
        }
      }
    }
    if forall u <- unique :: !Breaks(u, rows, key, row.snapshot) {
      forall u <- unique, a, b | a in after && b in after && a.tenant == b.tenant && a != b
        ensures !SameColumns(u, after, a, b)
      {
        assert !Clash(u, rows, key, row.snapshot, a) && !Clash(u, rows, key, row.snapshot, b);
        assert a in rows && b in rows ==> !SameColumns(u, rows, a, b);
      }
    }
  }
}
