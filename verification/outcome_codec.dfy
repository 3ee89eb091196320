/** The stored answer of a command: the encoder, the sticky-error decoder, and the
    record they write and read. */
module OutcomeCodecs {
  import opened Ports
  import opened ExternalProfiles
  import opened ExternalBudgets
  import opened Varints

  const OUTCOME_VERSION: byte := 0x01
  const BRANCH_ACCEPTED: byte := 0x61
  const BRANCH_REJECTED: byte := 0x72
  const MAX_DETAILS_COUNT := 1024

  datatype Detail = Detail(key: Bytes, value: Bytes)

  type Details = s: seq<Detail> | |s| < 0x1_0000_0000_0000_0000

  datatype Rejection = Rejection(code: Bytes, message: Bytes, details: Details)

  datatype Outcome<R> = Accepted(response: R) | Rejected(rejection: Rejection)

  datatype CodecError = UnknownVersion | UnknownBranch | TooManyDetails | Malformed | TrailingBytes

  /** What a decoder has left, and whether a read of it already failed. */
  datatype Unread = Unread(buf: seq<byte>, failed: bool)

  /** One operation's response: the bytes it appends, and how they are read. */
  datatype Codec<!R> = Codec(encode: R -> seq<byte>, decode: Unread -> (R, Unread))

  ghost predicate RoundTrips<R(!new)>(codec: Codec<R>) {
    forall r: R :: codec.decode(Unread(codec.encode(r), false)) == (r, Unread([], false))
  }

  function TextBytes(s: Bytes): seq<byte> {
    Uvarint(|s|) + s
  }

  function ReadUInt(d: Unread): (uint64, Unread) {
    if d.failed then (0, d)
    else
      var (v, n) := ReadUvarint(d.buf);
      ReadBounds(d.buf);
      if n <= 0 then (0, d.(failed := true)) else (v, d.(buf := d.buf[n..]))
  }

  function ReadInt(d: Unread): (int64, Unread) {
    var (z, after) := ReadUInt(d);
    if after.failed then (0, after) else (Unzigzag(z), after)
  }

  function ReadText(d: Unread): (Bytes, Unread) {
    var (n, after) := ReadUInt(d);
    if after.failed then ([], after)
    else if n > |after.buf| then ([], after.(failed := true))
    else (after.buf[..n], after.(buf := after.buf[n..]))
  }

  function ReadDetail(d: Unread): (Detail, Unread) {
    var (key, d1) := ReadText(d);
    var (value, d2) := ReadText(d1);
    (Detail(key, value), d2)
  }

  function ReadDetails(d: Unread, count: nat): (r: (seq<Detail>, Unread))
    ensures |r.0| == count
    decreases count
  {
    if count == 0 then ([], d)
    else
      var (first, after) := ReadDetail(d);
      var (rest, end) := ReadDetails(after, count - 1);
      ([first] + rest, end)
  }

  function DetailBytes(detail: Detail): seq<byte> {
    TextBytes(detail.key) + TextBytes(detail.value)
  }

  function DetailsBytes(details: seq<Detail>): seq<byte> {
    if details == [] then [] else DetailBytes(details[0]) + DetailsBytes(details[1..])
  }

  function RejectionBytes(r: Rejection): seq<byte> {
    TextBytes(r.code) + (TextBytes(r.message) + (Uvarint(|r.details|) + DetailsBytes(r.details)))
  }

  function Encoded<R>(codec: Codec<R>, outcome: Outcome<R>): seq<byte> {
    match outcome
    case Accepted(response) => [OUTCOME_VERSION, BRANCH_ACCEPTED] + codec.encode(response)
    case Rejected(rejection) => [OUTCOME_VERSION, BRANCH_REJECTED] + RejectionBytes(rejection)
  }

  function Whole<R>(outcome: Outcome<R>, end: Unread): Result<Outcome<R>, CodecError> {
    if end.failed then Err(Malformed) else if end.buf != [] then Err(TrailingBytes) else Ok(outcome)
  }

  function DecodedRejection<R>(d: Unread): Result<Outcome<R>, CodecError> {
    var (code, d1) := ReadText(d);
    var (message, d2) := ReadText(d1);
    var (count, d3) := ReadUInt(d2);
    if count > MAX_DETAILS_COUNT then Err(TooManyDetails)
    else
      var (details, end) := ReadDetails(d3, count);
      Whole(Rejected(Rejection(code, message, details)), end)
  }

  function Decoded<R>(codec: Codec<R>, stored: seq<byte>): Result<Outcome<R>, CodecError> {
    if |stored| < 2 || stored[0] != OUTCOME_VERSION then Err(UnknownVersion)
    else if stored[1] == BRANCH_ACCEPTED then
      var (response, end) := codec.decode(Unread(stored[2..], false));
      Whole(Accepted(response), end)
    else if stored[1] == BRANCH_REJECTED then DecodedRejection(Unread(stored[2..], false))
    else Err(UnknownBranch)
  }

  class Encoder {
    var buf: seq<byte>

    constructor (start: seq<byte>)
      ensures buf == start
    {
      buf := start;
    }

    method String(value: Bytes)
      modifies this
      ensures buf == old(buf) + TextBytes(value)
    {
      buf := AppendUvarint(buf, |value|);
      buf := buf + value;
    }

    method Int(value: int64)
      modifies this
      ensures buf == old(buf) + Varint(value)
    {
      buf := AppendVarint(buf, value);
    }

    method UInt(value: uint64)
      modifies this
      ensures buf == old(buf) + Uvarint(value)
    {
      buf := AppendUvarint(buf, value);
    }
  }

  class Decoder {
    var buf: seq<byte>
    var failed: bool

    function State(): Unread
      reads this
    {
      Unread(buf, failed)
    }

    constructor (buf: seq<byte>)
      ensures State() == Unread(buf, false)
    {
      this.buf := buf;
      failed := false;
    }

    method String() returns (value: Bytes)
      modifies this
      ensures (value, State()) == ReadText(old(State()))
    {
      var n := UInt();
      if failed {
        return [];
      }
      if n > |buf| {
        failed := true;
        return [];
      }
      value := buf[..n];
      buf := buf[n..];
    }

    method Int() returns (value: int64)
      modifies this
      ensures (value, State()) == ReadInt(old(State()))
    {
      if failed {
        return 0;
      }
      var n: int;
      value, n := ReadVarint(buf);
      ReadBounds(buf);
      if n <= 0 {
        failed := true;
        return 0;
      }
      buf := buf[n..];
    }

    method UInt() returns (value: uint64)
      modifies this
      ensures (value, State()) == ReadUInt(old(State()))
    {
      if failed {
        return 0;
      }
      var n: int;
      value, n := ReadUvarintLoop(buf);
      ReadBounds(buf);
      if n <= 0 {
        failed := true;
        return 0;
      }
      buf := buf[n..];
    }
  }

  /** The refusing branch of the record. */
  method EncodeRejection(e: Encoder, r: Rejection)
    modifies e
    ensures e.buf == old(e.buf) + RejectionBytes(r)
  {
    e.String(r.code);
    e.String(r.message);
    e.UInt(|r.details|);
    SumIsAssociative(old(e.buf), TextBytes(r.code), TextBytes(r.message), Uvarint(|r.details|));
    ghost var head := e.buf;
    EncodeDetails(e, r.details);
    assert RejectionBytes(r)
        == TextBytes(r.code) + (TextBytes(r.message) + Uvarint(|r.details|)) + DetailsBytes(r.details);
  }

  method EncodeDetails(e: Encoder, details: Details)
    modifies e
    ensures e.buf == old(e.buf) + DetailsBytes(details)
  {
    for i := 0 to |details|
      invariant e.buf == old(e.buf) + DetailsBytes(details[..i])
    {
      e.String(details[i].key);
      e.String(details[i].value);
      DetailsBytesSnoc(details[..i], details[i]);
      assert details[..i + 1] == details[..i] + [details[i]];
      SumIsAssociative(old(e.buf), DetailsBytes(details[..i]), TextBytes(details[i].key), TextBytes(details[i].value));
    }
    assert details[..|details|] == details;
  }

  method EncodeOutcome<R>(codec: Codec<R>, outcome: Outcome<R>) returns (bytes: seq<byte>)
    ensures bytes == Encoded(codec, outcome)
  {
    var e := new Encoder([OUTCOME_VERSION]);
    if outcome.Rejected? {
      e.buf := e.buf + [BRANCH_REJECTED];
      EncodeRejection(e, outcome.rejection);
      return e.buf;
    }
    return e.buf + [BRANCH_ACCEPTED] + codec.encode(outcome.response);
  }

  method DecodeDetails(d: Decoder, count: nat) returns (details: seq<Detail>)
    modifies d
    ensures (details, d.State()) == ReadDetails(old(d.State()), count)
  {
    details := [];
    ghost var (all, last) := ReadDetails(d.State(), count);
    assert [] + all == all;
    for i := 0 to count
      invariant (all, last) == (var (rest, end) := ReadDetails(d.State(), count - i); (details + rest, end))
    {
      var key := d.String();
      var value := d.String();
      ghost var was := details;
      details := details + [Detail(key, value)];
      ghost var (rest, end) := ReadDetails(d.State(), count - i - 1);
      assert was + ([Detail(key, value)] + rest) == details + rest;
    }
    assert details + [] == details;
  }

  /** The refusing branch of a record; what follows it is the caller's check. */
  method DecodeRejection(d: Decoder) returns (r: Option<Rejection>)
    modifies d
    ensures (var (code, d1) := ReadText(old(d.State()));
             var (message, d2) := ReadText(d1);
             var (count, d3) := ReadUInt(d2);
             if count > MAX_DETAILS_COUNT then r == None && d.State() == d3
             else
               var (details, end) := ReadDetails(d3, count);
               r == Some(Rejection(code, message, details)) && d.State() == end)
  {
    var code := d.String();
    var message := d.String();
    var count := d.UInt();
    if count > MAX_DETAILS_COUNT {
      return None;
    }
    var details := DecodeDetails(d, count);
    return Some(Rejection(code, message, details));
  }

  method DecodeOutcome<R>(codec: Codec<R>, stored: seq<byte>) returns (outcome: Result<Outcome<R>, CodecError>)
    ensures outcome == Decoded(codec, stored)
  {
    if |stored| < 2 || stored[0] != OUTCOME_VERSION {
      return Err(UnknownVersion);
    }
    var d := new Decoder(stored[2..]);
    var read: Outcome<R>;
    if stored[1] == BRANCH_ACCEPTED {
      var (response, after) := codec.decode(d.State());
      d.buf, d.failed := after.buf, after.failed;
      read := Accepted(response);
    } else if stored[1] == BRANCH_REJECTED {
      var rejection := DecodeRejection(d);
      if rejection == None {
        return Err(TooManyDetails);
      }
      read := Rejected(rejection.value);
    } else {
      return Err(UnknownBranch);
    }
    if d.failed {
      return Err(Malformed);
    }
    if |d.buf| != 0 {
      return Err(TrailingBytes);
    }
    return Ok(read);
  }

  lemma SumIsAssociative(a: seq<byte>, b: seq<byte>, c: seq<byte>, d: seq<byte>)
    ensures a + b + c + d == a + (b + (c + d))
  {
  }

  lemma {:induction false} DetailsBytesSnoc(details: seq<Detail>, d: Detail)
    ensures DetailsBytes(details + [d]) == DetailsBytes(details) + DetailBytes(d)
  {
    if details == [] {
      assert (details + [d])[1..] == [];
    } else {
      assert (details + [d])[1..] == details[1..] + [d];
      DetailsBytesSnoc(details[1..], d);
    }
  }

  /** What a read consumes lies inside the buffer, and its value fits 64 bits. */
  lemma ReadBounds(buf: seq<byte>)
    ensures var (v, n) := ReadUvarint(buf); n <= |buf| && v < TWO_64
  {
    ReadFromBounds(buf, 0, 0);
  }

  lemma {:induction false} ReadFromBounds(buf: seq<byte>, i: nat, value: nat)
    requires i <= MAX_VARINT_LEN && value < Pow128(i)
    ensures var (v, n) := ReadFrom(buf, i, value); n <= |buf| && v < TWO_64
    decreases |buf| - i
  {
    if i < |buf| && !(i == MAX_VARINT_LEN || (i == MAX_VARINT_LEN - 1 && buf[i] > 1)) {
      NextFits(value, buf[i] % 0x80, i);
      if buf[i] >= 0x80 {
        ReadFromBounds(buf, i + 1, value + (buf[i] - 0x80) * Pow128(i));
      }
    }
  }

  lemma UIntRoundTrip(v: uint64, suffix: seq<byte>)
    ensures ReadUInt(Unread(Uvarint(v) + suffix, false)) == (v, Unread(suffix, false))
  {
    UvarintRoundTrip(v, suffix);
    assert (Uvarint(v) + suffix)[|Uvarint(v)|..] == suffix;
  }

  /** Every signed integer is read back, whatever follows it. */
  lemma IntRoundTrip(v: int64, suffix: seq<byte>)
    ensures ReadInt(Unread(Varint(v) + suffix, false)) == (v, Unread(suffix, false))
  {
    UIntRoundTrip(Zigzag(v), suffix);
    UnzigzagZigzag(v);
  }

  /** Every string is read back, whatever follows it. */
  lemma TextRoundTrip(s: Bytes, suffix: seq<byte>)
    ensures ReadText(Unread(TextBytes(s) + suffix, false)) == (s, Unread(suffix, false))
  {
    assert TextBytes(s) + suffix == Uvarint(|s|) + (s + suffix);
    UIntRoundTrip(|s|, s + suffix);
    assert (s + suffix)[..|s|] == s && (s + suffix)[|s|..] == suffix;
  }

  lemma {:induction false} DetailsRoundTrip(details: seq<Detail>, suffix: seq<byte>)
    ensures ReadDetails(Unread(DetailsBytes(details) + suffix, false), |details|) == (details, Unread(suffix, false))
  {
    if details == [] {
      assert DetailsBytes(details) + suffix == suffix;
    } else {
      var first, tail := details[0], DetailsBytes(details[1..]) + suffix;
      assert DetailsBytes(details) + suffix == TextBytes(first.key) + (TextBytes(first.value) + tail);
      TextRoundTrip(first.key, TextBytes(first.value) + tail);
      TextRoundTrip(first.value, tail);
      DetailsRoundTrip(details[1..], suffix);
      assert details == [first] + details[1..];
    }
  }

  lemma RejectionRoundTrip<R>(r: Rejection)
    ensures DecodedRejection<R>(Unread(RejectionBytes(r), false))
         == if |r.details| <= MAX_DETAILS_COUNT then Ok(Rejected(r)) else Err(TooManyDetails)
  {
    TextRoundTrip(r.code, TextBytes(r.message) + (Uvarint(|r.details|) + DetailsBytes(r.details)));
    TextRoundTrip(r.message, Uvarint(|r.details|) + DetailsBytes(r.details));
    UIntRoundTrip(|r.details|, DetailsBytes(r.details));
    DetailsRoundTrip(r.details, []);
    assert DetailsBytes(r.details) + [] == DetailsBytes(r.details);
  }

  lemma AcceptedIsDecoded<R(!new)>(codec: Codec<R>, response: R)
    requires RoundTrips(codec)
    ensures Decoded(codec, Encoded(codec, Accepted(response))) == Ok(Accepted(response))
  {
    assert Encoded(codec, Accepted(response))[2..] == codec.encode(response);
  }

  lemma RejectedIsDecoded<R>(codec: Codec<R>, r: Rejection)
    ensures Decoded(codec, Encoded(codec, Rejected(r))) == DecodedRejection(Unread(RejectionBytes(r), false))
  {
    RejectedPayload(codec, RejectionBytes(r));
  }

  lemma RejectedPayload<R>(codec: Codec<R>, payload: seq<byte>)
    ensures Decoded(codec, [OUTCOME_VERSION, BRANCH_REJECTED] + payload) == DecodedRejection(Unread(payload, false))
  {
    assert ([OUTCOME_VERSION, BRANCH_REJECTED] + payload)[2..] == payload;
  }

  /** A stored outcome is read back as it was, exactly when it is accepted or carries
      no more details than a record may: past that it is stored but unreadable. */
  lemma OutcomeRoundTrip<R(!new)>(codec: Codec<R>, outcome: Outcome<R>)
    requires RoundTrips(codec)
    ensures Decoded(codec, Encoded(codec, outcome)) == Ok(outcome)
       <==> outcome.Accepted? || |outcome.rejection.details| <= MAX_DETAILS_COUNT
  {
    match outcome
    case Accepted(response) => AcceptedIsDecoded(codec, response);
    case Rejected(rejection) =>
      RejectedIsDecoded(codec, rejection);
      RejectionRoundTrip<R>(rejection);
  }

  /** A failed read sticks: whatever is read next, the record is refused at the end. */
  lemma {:induction false} FailureSticks(d: Unread, count: nat)
    requires d.failed
    ensures ReadText(d).1 == d && ReadUInt(d).1 == d && ReadInt(d).1 == d && ReadDetails(d, count).1 == d
  {
    if count > 0 {
      FailureSticks(d, count - 1);
    }
  }
}
