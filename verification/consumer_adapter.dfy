/** The consumer adapter: what one delivery meets before the handler, and the broker
    gesture each disposition becomes. */
module ConsumerAdapters {
  import opened Ports
  import opened ExternalProfiles
  import opened PartitionWorkers

  /** A decoded message. `contextual` says its attributes make an execution context. */
  datatype Envelope = Envelope(
    id: MessageID,
    source: string,
    wireType: string,
    payload: seq<byte>,
    tenant: Option<TenantID>,
    contextual: bool)

  /** The declarations of one consumer; a collaborator counts only as present or absent. */
  datatype Setup = Setup(
    name: string,
    handler: bool,
    containment: bool,
    clock: bool,
    timeout: int,
    transportDeclared: bool,
    sources: seq<string>,
    locale: string,
    accepts: seq<string>,
    carries: seq<string>,
    maxAttempts: int)

  datatype SetupError =
    | Complete
    | Missing(what: string)
    | OutsideChannel(wireType: string)

  datatype Reason =
    | InvalidEnvelope
    | UntrustedBoundary
    | UndeclaredType
    | TerminalFailure
    | Collision
    | AttemptsExhausted

  datatype Contained = Contained(consumer: string, raw: seq<byte>, reason: Reason)

  /** What a delivery meets before any handler. */
  datatype Verdict = Incomplete | Contain(reason: Reason) | Discard | Admit(envelope: Envelope)

  /** What follows the handler. */
  datatype Effect = DoAck | DoRelease | DoContain(reason: Reason) | DoNothing

  function MissingOf(s: Setup): string {
    if s.name == "" then "name"
    else if !s.handler then "handler"
    else if !s.containment then "containment"
    else if !s.clock then "clock"
    else if s.timeout <= 0 then "timeout"
    else if !s.transportDeclared || |s.sources| == 0 then "boundary"
    else if s.locale == "" then "locale"
    else if |s.accepts| == 0 then "accepts"
    else if |s.carries| == 0 then "carries"
    else ""
  }

  /** Every declaration present, and a subscription without repeats inside the channel. */
  ghost predicate ValidSetup(s: Setup) {
    && s.name != "" && s.handler && s.containment && s.clock && s.timeout > 0
    && s.transportDeclared && |s.sources| > 0 && s.locale != "" && |s.accepts| > 0 && |s.carries| > 0
    && (forall i :: 0 <= i < |s.accepts| ==> s.accepts[i] in s.carries)
    && (forall i, j :: 0 <= i < j < |s.accepts| ==> s.accepts[i] != s.accepts[j])
  }

  /** The subscription's entry `i` is foreign to the channel, or repeats an earlier one. */
  predicate Outside(s: Setup, i: int) {
    0 <= i < |s.accepts| && (s.accepts[i] !in s.carries || s.accepts[i] in s.accepts[..i])
  }

  method Validate(s: Setup) returns (error: SetupError)
    ensures error.Complete? <==> ValidSetup(s)
    ensures error.OutsideChannel? ==> exists i :: Outside(s, i) && s.accepts[i] == error.wireType
  {
    if MissingOf(s) != "" {
      return Missing(MissingOf(s));
    }
    for i := 0 to |s.accepts|
      invariant forall k :: 0 <= k < i ==> s.accepts[k] in s.carries
      invariant forall k, l :: 0 <= k < l < i ==> s.accepts[k] != s.accepts[l]
    {
      if Outside(s, i) {
        return OutsideChannel(s.accepts[i]);
      }
      forall k | 0 <= k < i ensures s.accepts[k] != s.accepts[i] {
        assert s.accepts[..i][k] == s.accepts[k];
      }
    }
    return Complete;
  }

  ghost function Judged(s: Setup, decode: seq<byte> -> Option<Envelope>, raw: seq<byte>): Verdict {
    if !ValidSetup(s) then Incomplete
    else match decode(raw)
      case None => Contain(InvalidEnvelope)
      case Some(e) =>
        if e.source !in s.sources then Contain(UntrustedBoundary)
        else if e.wireType !in s.carries then Contain(UndeclaredType)
        else if e.wireType !in s.accepts then Discard
        else if !e.contextual then Contain(InvalidEnvelope)
        else Admit(e)
  }

  /** No disposition stands for a value outside the seven. */
  function EffectOf(maxAttempts: int, attempt: int, d: Option<Disposition>): Effect {
    match d
    case None => DoNothing
    case Some(R1D1) => DoAck
    case Some(R1D2) => DoAck
    case Some(R2) => DoAck
    case Some(R3) => DoAck
    case Some(R1D3) => if maxAttempts > 0 && attempt >= maxAttempts then DoContain(AttemptsExhausted) else DoRelease
    case Some(R1D4) => DoContain(TerminalFailure)
    case Some(R4) => DoContain(Collision)
  }

  /** Where contained messages are kept; a write that fails keeps nothing. */
  class Quarantine {
    var kept: seq<Contained>
    var failing: bool

    constructor (failing: bool)
      ensures kept == [] && this.failing == failing
    {
      kept := [];
      this.failing := failing;
    }

    method Keep(item: Contained) returns (ok: bool)
      modifies this`kept
      ensures ok == !failing
      ensures kept == if ok then old(kept) + [item] else old(kept)
    {
      if failing {
        return false;
      }
      kept := kept + [item];
      return true;
    }
  }

  /** Kept first and confirmed only then: what could not be kept is never acknowledged. */
  method ContainMessage(s: Setup, raw: seq<byte>, reason: Reason, quarantine: Quarantine, ack: Acknowledger)
    requires ack.gesture == Undecided
    modifies quarantine`kept, ack
    ensures ack.gesture == (if quarantine.failing then Undecided else Acked)
    ensures quarantine.kept == if quarantine.failing then old(quarantine.kept) else old(quarantine.kept) + [Contained(s.name, raw, reason)]
  {
    var ok := quarantine.Keep(Contained(s.name, raw, reason));
    if ok {
      var _ := ack.Decide(Acked);
    }
  }

  /** One delivery. `handled` is what the handler answers if it is reached. */
  method Consume(s: Setup, decode: seq<byte> -> Option<Envelope>, raw: seq<byte>, attempt: int,
                 handled: Option<Disposition>, quarantine: Quarantine, ack: Acknowledger)
    returns (reached: bool)
    requires ack.gesture == Undecided
    modifies quarantine`kept, ack
    ensures reached <==> Judged(s, decode, raw).Admit?
    ensures (ack.gesture, quarantine.kept) == After(s, Judged(s, decode, raw), raw, attempt, handled, quarantine.failing, old(quarantine.kept))
  {
    reached := false;
    var complete := Validate(s);
    if complete != Complete {
      return;
    }
    var decoded := decode(raw);
    if decoded == None {
      ContainMessage(s, raw, InvalidEnvelope, quarantine, ack);
      return;
    }
    var e := decoded.value;
    if e.source !in s.sources {
      ContainMessage(s, raw, UntrustedBoundary, quarantine, ack);
      return;
    }
    if e.wireType !in s.carries {
      ContainMessage(s, raw, UndeclaredType, quarantine, ack);
      return;
    }
    if e.wireType !in s.accepts {
      var _ := ack.Decide(Acked);
      return;
    }
    if !e.contextual {
      ContainMessage(s, raw, InvalidEnvelope, quarantine, ack);
      return;
    }
    reached := true;
    match handled {
      case None =>
      case Some(R1D3) =>
        if s.maxAttempts > 0 && attempt >= s.maxAttempts {
          ContainMessage(s, raw, AttemptsExhausted, quarantine, ack);
        } else {
          var _ := ack.Decide(Released);
        }
      case Some(R1D4) => ContainMessage(s, raw, TerminalFailure, quarantine, ack);
      case Some(R4) => ContainMessage(s, raw, Collision, quarantine, ack);
      case Some(_) => var _ := ack.Decide(Acked);
    }
  }

  function EffectIn(e: Effect, s: Setup, raw: seq<byte>, failing: bool, kept: seq<Contained>): (Gesture, seq<Contained>) {
    match e
    case DoAck => (Acked, kept)
    case DoRelease => (Released, kept)
    case DoNothing => (Undecided, kept)
    case DoContain(reason) => if failing then (Undecided, kept) else (Acked, kept + [Contained(s.name, raw, reason)])
  }

  /** The gesture a delivery ends with, and what the quarantine then holds. */
  function After(s: Setup, v: Verdict, raw: seq<byte>, attempt: int, handled: Option<Disposition>, failing: bool, kept: seq<Contained>)
    : (Gesture, seq<Contained>) {
    match v
    case Incomplete => (Undecided, kept)
    case Contain(reason) => EffectIn(DoContain(reason), s, raw, failing, kept)
    case Discard => (Acked, kept)
    case Admit(_) => EffectIn(EffectOf(s.maxAttempts, attempt, handled), s, raw, failing, kept)
  }

  /** An acknowledged delivery was handled to an end, kept byte for byte by this very
      delivery, or of a type the channel carries and the consumer leaves out; and
      nothing else is acknowledged. */
  lemma AcknowledgedExactlyWhen(s: Setup, decode: seq<byte> -> Option<Envelope>, raw: seq<byte>, attempt: int,
                                handled: Option<Disposition>, failing: bool, kept: seq<Contained>)
    ensures var v := Judged(s, decode, raw); var (gesture, after) := After(s, v, raw, attempt, handled, failing, kept);
      && (gesture == Acked <==>
            || v.Discard?
            || (v.Admit? && handled in {Some(R1D1), Some(R1D2), Some(R2), Some(R3)})
            || (exists reason :: after == kept + [Contained(s.name, raw, reason)]))
      && (after != kept ==> gesture == Acked)
  {
    var v := Judged(s, decode, raw);
    var (gesture, after) := After(s, v, raw, attempt, handled, failing, kept);
    forall reason ensures kept != kept + [Contained(s.name, raw, reason)] {
      assert |kept + [Contained(s.name, raw, reason)]| == |kept| + 1;
    }
    if v.Contain? {
      assert !failing ==> after == kept + [Contained(s.name, raw, v.reason)];
    } else if v.Admit? && EffectOf(s.maxAttempts, attempt, handled).DoContain? {
      assert !failing ==> after == kept + [Contained(s.name, raw, EffectOf(s.maxAttempts, attempt, handled).reason)];
    }
  }

  /** A delivery goes back to the broker exactly for a transient failure below the limit,
      and what is kept carries the reason of its refusal or of its disposition. */
  lemma ReleasedAndKeptExactlyWhen(s: Setup, decode: seq<byte> -> Option<Envelope>, raw: seq<byte>, attempt: int,
                                   handled: Option<Disposition>, failing: bool, kept: seq<Contained>)
    ensures var v := Judged(s, decode, raw); var (gesture, after) := After(s, v, raw, attempt, handled, failing, kept);
      var exhausted := s.maxAttempts > 0 && attempt >= s.maxAttempts;
      && (gesture == Released <==> v.Admit? && handled == Some(R1D3) && !exhausted)
      && (forall reason :: !failing && after == kept + [Contained(s.name, raw, reason)] <==>
            !failing && (v == Contain(reason) ||
              (v.Admit? && ((reason == TerminalFailure && handled == Some(R1D4))
                         || (reason == Collision && handled == Some(R4))
                         || (reason == AttemptsExhausted && handled == Some(R1D3) && exhausted)))))
  {
    forall reason, other ensures kept != kept + [Contained(s.name, raw, reason)]
      && (kept + [Contained(s.name, raw, reason)] == kept + [Contained(s.name, raw, other)] ==> reason == other)
    {
      var a, b := kept + [Contained(s.name, raw, reason)], kept + [Contained(s.name, raw, other)];
      assert |a| == |kept| + 1 && a[|kept|] == Contained(s.name, raw, reason) && b[|kept|] == Contained(s.name, raw, other);
    }
  }
}
