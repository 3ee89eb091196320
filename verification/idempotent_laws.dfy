/** What a registered command guarantees over every run that follows it. */
module IdempotentLaws {
  import opened Ports
  import opened ExternalProfiles
  import opened ExternalBudgets
  import opened Varints
  import opened Fingerprints
  import opened OutcomeCodecs
  import opened Inboxes
  import opened IdempotentCommands

  /** The command that registered an entry, what it answered, and when the entry lapses. */
  datatype Kept<R> = Kept(key: InboxKey, operation: Bytes, fields: seq<Field>, outcome: Outcome<R>, expiresAt: int)

  /** The call passes every check before the entries are read. */
  ghost predicate Reaches<D, R>(x: Executor<R>, c: Call<D, R>) {
    && c.authorized && !c.cancelled && !c.busy
    && Claim(x, c).Ok?
    && KeyFor(x.bound, true, c.caller, Claim(x, c).value).Ok?
  }

  ghost function KeyOfCall<D, R>(x: Executor<R>, c: Call<D, R>): InboxKey
    requires Reaches(x, c)
  {
    KeyFor(x.bound, true, c.caller, Claim(x, c).value).value
  }

  ghost predicate OnKey<D, R>(x: Executor<R>, c: Call<D, R>, key: InboxKey) {
    Reaches(x, c) && KeyOfCall(x, c) == key
  }

  ghost function RowOf<R>(x: Executor<R>, k: Kept<R>): InboxRow
    requires x.digest.Some?
  {
    InboxRow(HashOf(x.digest.value, k.operation, k.fields), StatusOf(k.outcome), "",
             Encoded(x.codec(k.operation), k.outcome), k.expiresAt)
  }

  ghost predicate Keeps<D, R>(x: Executor<R>, s: Store<D>, k: Kept<R>) {
    x.digest.Some? && k.key in s.rows && s.rows[k.key] == RowOf(x, k)
  }

  ghost predicate Lapsed<R>(k: Kept<R>, at: int) {
    k.expiresAt != 0 && k.expiresAt <= at
  }

  ghost predicate SameCommand<D, R>(c: Call<D, R>, k: Kept<R>) {
    c.operation == k.operation && c.fields == Some(k.fields)
  }

  /** The digest does not collide on these two commands. */
  ghost predicate Distinguishes<D, R>(x: Executor<R>, c: Call<D, R>, k: Kept<R>)
    requires x.digest.Some? && c.fields.Some?
  {
    var a, b := Identity(c.operation, c.fields.value), Identity(k.operation, k.fields);
    x.digest.value(a) == x.digest.value(b) ==> a == b
  }

  ghost predicate Storable<R>(outcome: Outcome<R>) {
    outcome.Accepted? || |outcome.rejection.details| <= MAX_DETAILS_COUNT
  }

  /** What an entry in force answers: the first outcome to the same command, a
      mismatch to any other. */
  ghost function Expected<D, R>(c: Call<D, R>, k: Kept<R>): Result<Answer<R>, CommandError> {
    if !SameCommand(c, k) then Err(Mismatch)
    else if !Storable(k.outcome) then Err(StoredUnreadable(TooManyDetails))
    else if c.commitFails then Err(CommitFailed)
    else Ok(Answer(k.outcome, true))
  }

  lemma {:induction false} HexInjective(a: seq<byte>, b: seq<byte>)
    requires Hex(a) == Hex(b)
    ensures a == b
    decreases |a|
  {
    if a != [] && b != [] {
      var s, t := Hex(a), Hex(b);
      assert s == [HEX[a[0] / 16], HEX[a[0] % 16]] + Hex(a[1..]);
      assert t == [HEX[b[0] / 16], HEX[b[0] % 16]] + Hex(b[1..]);
      SameDigit(a[0] / 16, b[0] / 16, s[0]);
      SameDigit(a[0] % 16, b[0] % 16, s[1]);
      assert Hex(a[1..]) == s[2..] == t[2..] == Hex(b[1..]);
      HexInjective(a[1..], b[1..]);
      assert a == [a[0]] + a[1..] && b == [b[0]] + b[1..];
    }
  }

  lemma SameDigit(i: nat, j: nat, digit: char)
    requires i < 16 && j < 16 && HEX[i] == digit == HEX[j]
    ensures i == j
  {
  }

  /** Equal hashes are equal commands, as long as the digest tells them apart. */
  lemma SameHashExactlyWhen<D, R>(x: Executor<R>, c: Call<D, R>, k: Kept<R>)
    requires x.digest.Some? && c.fields.Some? && Distinguishes(x, c, k)
    ensures HashOf(x.digest.value, c.operation, c.fields.value) == HashOf(x.digest.value, k.operation, k.fields)
       <==> SameCommand(c, k)
  {
    var a, b := Identity(c.operation, c.fields.value), Identity(k.operation, k.fields);
    if Hex(x.digest.value(a)) == Hex(x.digest.value(b)) {
      HexInjective(x.digest.value(a), x.digest.value(b));
      UnderInjective(c.operation, c.fields.value, k.operation, k.fields);
    }
  }

  /** What a call needs to reach the entries, and the entry it then meets. */
  lemma ReachesExactlyWhen<D, R>(x: Executor<R>, c: Call<D, R>)
    ensures Reaches(x, c) <==>
      && c.authorized && !c.cancelled && !c.busy
      && c.key.Some? && ValidKey(c.key.value)
      && c.caller.OfTenant? && c.fields.Some? && x.digest.Some?
      && x.bound != "" && x.consumer == x.bound
      && Wrap(c.now + x.retention) > c.now
    ensures Reaches(x, c) ==> KeyOfCall(x, c) == InboxKey(x.bound, c.caller.tenant + "/" + c.key.value)
  {
  }

  /** Two calls meet the same entry exactly when their tenant and their key are the same. */
  lemma EntriesAreScoped<D, R>(x: Executor<R>, c: Call<D, R>, d: Call<D, R>)
    requires Reaches(x, c) && Reaches(x, d)
    ensures KeyOfCall(x, c) == KeyOfCall(x, d) <==> c.caller == d.caller && c.key == d.key
  {
    var k1, k2 := c.key.value, d.key.value;
    assert forall i :: 0 <= i < |k1| ==> KeyChar(k1[i]);
    assert forall i :: 0 <= i < |k2| ==> KeyChar(k2[i]);
    if KeyOfCall(x, c) == KeyOfCall(x, d) {
      CommandIDInjective(c.caller.tenant, k1, d.caller.tenant, k2);
    }
  }

  lemma StoredIsDecoded<R(!new)>(codec: Codec<R>, outcome: Outcome<R>)
    requires RoundTrips(codec)
    ensures Decoded(codec, Encoded(codec, outcome)) == if Storable(outcome) then Ok(outcome) else Err(TooManyDetails)
  {
    if outcome.Rejected? {
      RejectedIsDecoded(codec, outcome.rejection);
      RejectionRoundTrip<R>(outcome.rejection);
    } else {
      AcceptedIsDecoded(codec, outcome.response);
    }
  }

  /** An entry in force answers every call on its key, runs nothing, and the store
      is left exactly as it was. */
  lemma EntryAnswers<D, R(!new)>(x: Executor<R>, s: Store<D>, k: Kept<R>, c: Call<D, R>)
    requires Keeps(x, s, k) && OnKey(x, c, k.key) && !Lapsed(k, c.now)
    requires RoundTrips(x.codec(k.operation)) && Distinguishes(x, c, k)
    ensures ExecuteIn(x, s, c) == (s, Expected(c, k))
  {
    SameHashExactlyWhen(x, c, k);
    StoredIsDecoded(x.codec(k.operation), k.outcome);
  }

  /** A call on another key, or stopped before the entries, leaves the entry. */
  lemma EntryStays<D, R>(x: Executor<R>, s: Store<D>, k: Kept<R>, c: Call<D, R>)
    requires Keeps(x, s, k) && !OnKey(x, c, k.key)
    ensures Keeps(x, ExecuteIn(x, s, c).0, k)
  {
  }

  ghost predicate RunsFirst<D, R>(x: Executor<R>, s: Store<D>, c: Call<D, R>) {
    && Reaches(x, c)
    && !InForce(s.rows, KeyOfCall(x, c), c.now)
    && c.run(s.data).Some?
    && !c.commitFails
  }

  ghost function KeptBy<D, R>(x: Executor<R>, s: Store<D>, c: Call<D, R>): Kept<R>
    requires RunsFirst(x, s, c)
  {
    Kept(KeyOfCall(x, c), c.operation, c.fields.value, c.run(s.data).value.1, Wrap(c.now + x.retention))
  }

  /** A first call commits its effects and its entry together; every other call
      leaves the store as it was, whatever it answers. */
  lemma EffectsExactlyWhenFirst<D, R>(x: Executor<R>, s: Store<D>, c: Call<D, R>)
    ensures var (after, answer) := ExecuteIn(x, s, c);
      && (RunsFirst(x, s, c) ==>
        && answer == Ok(Answer(c.run(s.data).value.1, false))
        && Keeps(x, after, KeptBy(x, s, c))
        && after == Store(s.rows[KeyOfCall(x, c) := RowOf(x, KeptBy(x, s, c))], c.run(s.data).value.0))
      && (!RunsFirst(x, s, c) ==> after == s && (answer.Ok? ==> answer.value.replayed))
  {
  }

  ghost function After<D, R>(x: Executor<R>, s: Store<D>, calls: seq<Call<D, R>>): Store<D>
    decreases |calls|
  {
    if calls == [] then s else After(x, ExecuteIn(x, s, calls[0]).0, calls[1..])
  }

  ghost function Answers<D, R>(x: Executor<R>, s: Store<D>, calls: seq<Call<D, R>>): (answers: seq<Result<Answer<R>, CommandError>>)
    ensures |answers| == |calls|
    decreases |calls|
  {
    if calls == [] then []
    else
      var (after, answer) := ExecuteIn(x, s, calls[0]);
      [answer] + Answers(x, after, calls[1..])
  }

  /** The calls of a run that do not address an entry. */
  ghost function Elsewhere<D, R>(x: Executor<R>, calls: seq<Call<D, R>>, key: InboxKey): seq<Call<D, R>> {
    if calls == [] then []
    else (if OnKey(x, calls[0], key) then [] else [calls[0]]) + Elsewhere(x, calls[1..], key)
  }

  ghost predicate InForceFor<D, R>(x: Executor<R>, k: Kept<R>, c: Call<D, R>) {
    OnKey(x, c, k.key) ==> x.digest.Some? && c.fields.Some? && !Lapsed(k, c.now) && Distinguishes(x, c, k)
  }

  /** While an entry is in force, a run leaves what it would leave without the calls
      on its key, the entry is still there, and each of those calls was answered by it. */
  lemma {:induction false} EntryHoldsThroughRun<D, R(!new)>(x: Executor<R>, s: Store<D>, k: Kept<R>, calls: seq<Call<D, R>>)
    requires Keeps(x, s, k) && RoundTrips(x.codec(k.operation))
    requires forall c <- calls :: InForceFor(x, k, c)
    ensures Keeps(x, After(x, s, calls), k)
    ensures After(x, s, calls) == After(x, s, Elsewhere(x, calls, k.key))
    ensures forall i :: 0 <= i < |calls| && OnKey(x, calls[i], k.key) ==> Answers(x, s, calls)[i] == Expected(calls[i], k)
    decreases |calls|
  {
    if calls != [] {
      var c, rest := calls[0], calls[1..];
      var next := ExecuteIn(x, s, c).0;
      assert InForceFor(x, k, c);
      if OnKey(x, c, k.key) {
        EntryAnswers(x, s, k, c);
        assert Elsewhere(x, calls, k.key) == Elsewhere(x, rest, k.key);
      } else {
        EntryStays(x, s, k, c);
        assert Elsewhere(x, calls, k.key)[1..] == Elsewhere(x, rest, k.key);
      }
      EntryHoldsThroughRun(x, next, k, rest);
      forall i | 0 <= i < |calls| && OnKey(x, calls[i], k.key)
        ensures Answers(x, s, calls)[i] == Expected(calls[i], k)
      {
        if i > 0 {
          assert calls[i] == rest[i - 1];
        }
      }
    }
  }

  /** One effect per key and retention: after a first call, however many calls follow
      on its tenant and key before the entry lapses, the store is what the first call
      and the calls elsewhere make it. */
  lemma OneEffectPerEntry<D, R(!new)>(x: Executor<R>, s: Store<D>, first: Call<D, R>, calls: seq<Call<D, R>>)
    requires RunsFirst(x, s, first)
    requires RoundTrips(x.codec(first.operation))
    requires forall c <- calls :: InForceFor(x, KeptBy(x, s, first), c)
    ensures After(x, s, [first] + calls) == After(x, ExecuteIn(x, s, first).0, Elsewhere(x, calls, KeyOfCall(x, first)))
    ensures Answers(x, s, [first] + calls)[0] == Ok(Answer(KeptBy(x, s, first).outcome, false))
    ensures forall i :: 0 <= i < |calls| && OnKey(x, calls[i], KeyOfCall(x, first)) ==>
      Answers(x, s, [first] + calls)[i + 1] == Expected(calls[i], KeptBy(x, s, first))
  {
    EffectsExactlyWhenFirst(x, s, first);
    EntryHoldsThroughRun(x, ExecuteIn(x, s, first).0, KeptBy(x, s, first), calls);
    AfterFirst(x, s, first, calls);
    AnswersShift(ExecuteIn(x, s, first).1, Answers(x, ExecuteIn(x, s, first).0, calls));
  }

  lemma AnswersShift<R>(first: Result<Answer<R>, CommandError>, rest: seq<Result<Answer<R>, CommandError>>)
    ensures ([first] + rest)[0] == first
    ensures forall i {:trigger rest[i]} :: 0 <= i < |rest| ==> ([first] + rest)[i + 1] == rest[i]
  {
  }

  lemma AfterFirst<D, R>(x: Executor<R>, s: Store<D>, first: Call<D, R>, calls: seq<Call<D, R>>)
    ensures After(x, s, [first] + calls) == After(x, ExecuteIn(x, s, first).0, calls)
    ensures Answers(x, s, [first] + calls) == [ExecuteIn(x, s, first).1] + Answers(x, ExecuteIn(x, s, first).0, calls)
  {
    assert ([first] + calls)[1..] == calls;
  }
}
