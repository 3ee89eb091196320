/** Module release tags: parsing, printing, the order between versions, and the
    greatest release of a directory. */
module SemVers {
  import opened Ports
  import opened ExternalBudgets
  import opened Decimals
  import opened TextOrder
  import opened TextSplit

  const INITIAL_VERSION := "v0.1.0"

  datatype Version = Version(major: nat, minor: nat, patch: nat, pre: seq<string>)

  predicate IsNumeral(s: string) {
    s != "" && AllDigits(s)
  }

  /** The number a numeral spells, when an int holds it. */
  function Numeric(s: string): Option<nat> {
    if IsNumeral(s) && ValueOf(s) <= MAX_INT64 then Some(ValueOf(s)) else None
  }

  predicate LeadingZero(s: string) {
    |s| > 1 && s[0] == '0'
  }

  predicate IdChar(c: char) {
    IsDigit(c) || 'a' <= c <= 'z' || 'A' <= c <= 'Z' || c == '-'
  }

  predicate ValidId(id: string) {
    && id != ""
    && (forall i :: 0 <= i < |id| ==> IdChar(id[i]))
    && !(Numeric(id).Some? && LeadingZero(id))
  }

  predicate CoreNumeral(s: string) {
    Numeric(s).Some? && !LeadingZero(s)
  }

  predicate WellFormed(v: Version) {
    && v.major <= MAX_INT64 && v.minor <= MAX_INT64 && v.patch <= MAX_INT64
    && forall id <- v.pre :: ValidId(id)
  }

  // --- Parsing and printing ---------------------------------------------------------------------

  function CoreText(v: Version): string {
    Join([Decimal(v.major), Decimal(v.minor), Decimal(v.patch)], '.')
  }

  function Printed(v: Version): string {
    "v" + CoreText(v) + (if v.pre == [] then "" else "-" + Join(v.pre, '.'))
  }

  function Parsed(s: string): Option<Version> {
    if s == "" || s[0] != 'v' then None
    else
      var (nucleus, pre) := Cut(s[1..], '-');
      var parts := Split(nucleus, '.');
      if |parts| != 3 || !CoreNumeral(parts[0]) || !CoreNumeral(parts[1]) || !CoreNumeral(parts[2]) then None
      else
        var ids := if pre.Some? then Split(pre.value, '.') else [];
        if !(forall id <- ids :: ValidId(id)) then None
        else Some(Version(ValueOf(parts[0]), ValueOf(parts[1]), ValueOf(parts[2]), ids))
  }

  method ParseRelease(s: string) returns (parsed: Option<Version>)
    ensures parsed == Parsed(s)
  {
    if s == "" || s[0] != 'v' {
      return None;
    }
    var (nucleus, pre) := Cut(s[1..], '-');
    var parts := Split(nucleus, '.');
    if |parts| != 3 {
      return None;
    }
    var core := ParseCore(parts);
    if core == None {
      return None;
    }
    if pre == None {
      return Some(Version(core.value[0], core.value[1], core.value[2], []));
    }
    var ids := Split(pre.value, '.');
    var valid := ValidateIds(ids);
    return if valid then Some(Version(core.value[0], core.value[1], core.value[2], ids)) else None;
  }

  method ParseCore(parts: seq<string>) returns (core: Option<seq<nat>>)
    requires |parts| == 3
    ensures core.Some? <==> CoreNumeral(parts[0]) && CoreNumeral(parts[1]) && CoreNumeral(parts[2])
    ensures core.Some? ==> core.value == [ValueOf(parts[0]), ValueOf(parts[1]), ValueOf(parts[2])]
  {
    var read: seq<nat> := [];
    for i := 0 to 3
      invariant |read| == i
      invariant forall k :: 0 <= k < i ==> CoreNumeral(parts[k]) && read[k] == ValueOf(parts[k])
    {
      var n := Numeric(parts[i]);
      if n == None || (|parts[i]| > 1 && parts[i][0] == '0') {
        assert !CoreNumeral(parts[i]);
        return None;
      }
      read := read + [n.value];
    }
    return Some(read);
  }

  method ValidateIds(ids: seq<string>) returns (valid: bool)
    ensures valid <==> forall id <- ids :: ValidId(id)
  {
    for i := 0 to |ids|
      invariant forall k :: 0 <= k < i ==> ValidId(ids[k])
    {
      if !ValidId(ids[i]) {
        return false;
      }
    }
    return true;
  }

  lemma DecimalIsCore(n: nat)
    requires n <= MAX_INT64
    ensures CoreNumeral(Decimal(n)) && ValueOf(Decimal(n)) == n
    ensures '.' !in Decimal(n) && '-' !in Decimal(n)
  {
    DecimalIsRead(n);
  }

  lemma IdHasNoDot(id: string)
    requires ValidId(id)
    ensures '.' !in id
  {
  }

  lemma JoinOfThree(a: string, b: string, c: string)
    ensures Join([a, b, c], '.') == a + ['.'] + (b + ['.'] + c)
  {
    assert [a, b, c][1..] == [b, c] && [b, c][1..] == [c];
    assert Join([c], '.') == c;
    assert Join([b, c], '.') == b + ['.'] + c;
  }

  lemma CoreIsRead(v: Version)
    requires WellFormed(v)
    ensures '-' !in CoreText(v)
    ensures var parts := Split(CoreText(v), '.');
      && parts == [Decimal(v.major), Decimal(v.minor), Decimal(v.patch)]
      && CoreNumeral(parts[0]) && CoreNumeral(parts[1]) && CoreNumeral(parts[2])
      && ValueOf(parts[0]) == v.major && ValueOf(parts[1]) == v.minor && ValueOf(parts[2]) == v.patch
  {
    DecimalIsCore(v.major);
    DecimalIsCore(v.minor);
    DecimalIsCore(v.patch);
    JoinOfThree(Decimal(v.major), Decimal(v.minor), Decimal(v.patch));
    SplitJoin([Decimal(v.major), Decimal(v.minor), Decimal(v.patch)], '.');
  }

  lemma IdsAreRead(ids: seq<string>)
    requires ids != [] && forall id <- ids :: ValidId(id)
    ensures Split(Join(ids, '.'), '.') == ids
  {
    forall id <- ids ensures '.' !in id {
      IdHasNoDot(id);
    }
    SplitJoin(ids, '.');
  }

  lemma CutOfPrint(v: Version)
    requires '-' !in CoreText(v)
    ensures Printed(v) != "" && Printed(v)[0] == 'v'
    ensures Cut(Printed(v)[1..], '-') == (CoreText(v), if v.pre == [] then None else Some(Join(v.pre, '.')))
  {
    var nucleus := CoreText(v);
    if v.pre == [] {
      assert Printed(v)[1..] == nucleus;
      CutIs(nucleus, "", '-');
    } else {
      assert Printed(v)[1..] == nucleus + ['-'] + Join(v.pre, '.');
      CutIs(nucleus, Join(v.pre, '.'), '-');
    }
  }

  /** Parsing inverts printing on every well-formed version. */
  lemma ParseInvertsPrint(v: Version)
    requires WellFormed(v)
    ensures Parsed(Printed(v)) == Some(v)
  {
    CoreIsRead(v);
    CutOfPrint(v);
    if v.pre != [] {
      IdsAreRead(v.pre);
    }
  }

  /** Printing inverts parsing on every accepted string: what is accepted is canonical. */
  lemma PrintInvertsParse(s: string)
    requires Parsed(s).Some?
    ensures WellFormed(Parsed(s).value) && Printed(Parsed(s).value) == s
  {
    var (nucleus, pre) := Cut(s[1..], '-');
    var parts := Split(nucleus, '.');
    CoreIsPrinted(nucleus, parts);
    if pre.Some? {
      JoinSplit(pre.value, '.');
    }
    TextRejoined(s, nucleus, pre);
  }

  lemma TextRejoined(s: string, nucleus: string, pre: Option<string>)
    requires s != "" && s[0] == 'v' && (nucleus, pre) == Cut(s[1..], '-')
    ensures s == "v" + nucleus + (if pre == None then "" else "-" + pre.value)
  {
    assert s == "v" + s[1..];
  }

  lemma CoreIsPrinted(nucleus: string, parts: seq<string>)
    requires parts == Split(nucleus, '.') && |parts| == 3
    requires CoreNumeral(parts[0]) && CoreNumeral(parts[1]) && CoreNumeral(parts[2])
    ensures Join([Decimal(ValueOf(parts[0])), Decimal(ValueOf(parts[1])), Decimal(ValueOf(parts[2]))], '.') == nucleus
  {
    JoinSplit(nucleus, '.');
    ReadIsDecimal(parts[0]);
    ReadIsDecimal(parts[1]);
    ReadIsDecimal(parts[2]);
    assert parts == [parts[0], parts[1], parts[2]];
  }

  // --- The order --------------------------------------------------------------------------------------

  function CompareId(a: string, b: string): int {
    var na, nb := Numeric(a), Numeric(b);
    if na.Some? && nb.Some? then na.value - nb.value
    else if na.Some? then -1
    else if nb.Some? then 1
    else CompareText(a, b)
  }

  function CompareIds(a: seq<string>, b: seq<string>): int {
    if a == [] || b == [] then |a| - |b|
    else
      var c := CompareId(a[0], b[0]);
      if c != 0 then c else CompareIds(a[1..], b[1..])
  }

  function CompareCore(v: Version, w: Version): int {
    if v.major != w.major then CompareInt(v.major, w.major)
    else if v.minor != w.minor then CompareInt(v.minor, w.minor)
    else CompareInt(v.patch, w.patch)
  }

  function Compared(v: Version, w: Version): int {
    if CompareCore(v, w) != 0 then CompareCore(v, w) else CompareIds(v.pre, w.pre)
  }

  method Compare(v: Version, w: Version) returns (c: int)
    ensures c == Compared(v, w)
  {
    c := CompareCore(v, w);
    if c != 0 {
      return;
    }
    var n := if |v.pre| < |w.pre| then |v.pre| else |w.pre|;
    assert v.pre[0..] == v.pre && w.pre[0..] == w.pre;
    for i := 0 to n
      invariant CompareIds(v.pre, w.pre) == CompareIds(v.pre[i..], w.pre[i..])
    {
      c := CompareId(v.pre[i], w.pre[i]);
      if c != 0 {
        return;
      }
      assert v.pre[i..][1..] == v.pre[i + 1..] && w.pre[i..][1..] == w.pre[i + 1..];
    }
    return |v.pre| - |w.pre|;
  }

  lemma CompareIdAntisymmetric(a: string, b: string)
    requires ValidId(a) && ValidId(b)
    ensures CompareId(a, b) == -CompareId(b, a)
    ensures CompareId(a, b) == 0 <==> a == b
  {
    TextAntisymmetric(a, b);
    if Numeric(a).Some? && Numeric(b).Some? && Numeric(a) == Numeric(b) {
      ReadIsDecimal(a);
      ReadIsDecimal(b);
    }
  }

  lemma CompareIdTransitive(a: string, b: string, c: string)
    requires CompareId(a, b) <= 0 && CompareId(b, c) <= 0
    ensures CompareId(a, c) <= 0
    ensures CompareId(a, b) < 0 || CompareId(b, c) < 0 ==> CompareId(a, c) < 0
  {
    if Numeric(a).None? && Numeric(b).None? && Numeric(c).None? {
      TextTransitive(a, b, c);
    }
  }

  lemma {:induction false} CompareIdsAntisymmetric(a: seq<string>, b: seq<string>)
    requires (forall id <- a :: ValidId(id)) && (forall id <- b :: ValidId(id))
    ensures CompareIds(a, b) == -CompareIds(b, a)
    ensures CompareIds(a, b) == 0 <==> a == b
    decreases |a|
  {
    if a != [] && b != [] {
      CompareIdAntisymmetric(a[0], b[0]);
      CompareIdsAntisymmetric(a[1..], b[1..]);
      assert a == [a[0]] + a[1..] && b == [b[0]] + b[1..];
    }
  }

  lemma {:induction false} CompareIdsTransitive(a: seq<string>, b: seq<string>, c: seq<string>)
    requires (forall id <- a :: ValidId(id)) && (forall id <- b :: ValidId(id)) && (forall id <- c :: ValidId(id))
    requires CompareIds(a, b) <= 0 && CompareIds(b, c) <= 0
    ensures CompareIds(a, c) <= 0
    decreases |a|
  {
    if a != [] && b != [] && c != [] {
      CompareIdAntisymmetric(a[0], b[0]);
      CompareIdAntisymmetric(b[0], c[0]);
      CompareIdAntisymmetric(a[0], c[0]);
      CompareIdTransitive(a[0], b[0], c[0]);
      if a[0] == b[0] && b[0] == c[0] {
        CompareIdsTransitive(a[1..], b[1..], c[1..]);
      }
    }
  }

  /** A total order on every well-formed version, huge numerals included. */
  lemma CompareIsTotalOrder(u: Version, v: Version, w: Version)
    requires WellFormed(u) && WellFormed(v) && WellFormed(w)
    ensures Compared(u, v) == -Compared(v, u)
    ensures Compared(u, v) == 0 <==> u == v
    ensures Compared(u, v) <= 0 && Compared(v, w) <= 0 ==> Compared(u, w) <= 0
  {
    CompareIdsAntisymmetric(u.pre, v.pre);
    if Compared(u, v) <= 0 && Compared(v, w) <= 0 && CompareCore(u, v) == 0 && CompareCore(v, w) == 0 {
      CompareIdsTransitive(u.pre, v.pre, w.pre);
    }
  }

  // --- Section 11 of Semantic Versioning 2.0.0 ------------------------------------------------------------

  function Sign(c: int): int {
    if c < 0 then -1 else if c > 0 then 1 else 0
  }

  /** Numerals compare by their value, whatever their length; a numeral comes before
      any other identifier; the others compare in ASCII order. */
  function PrecedenceOfIds(a: string, b: string): int {
    if IsNumeral(a) && IsNumeral(b) then CompareInt(ValueOf(a), ValueOf(b))
    else if IsNumeral(a) then -1
    else if IsNumeral(b) then 1
    else CompareText(a, b)
  }

  function PrecedenceOfPre(a: seq<string>, b: seq<string>): int {
    if a == [] && b == [] then 0
    else if a == [] then -1
    else if b == [] then 1
    else if PrecedenceOfIds(a[0], b[0]) != 0 then PrecedenceOfIds(a[0], b[0])
    else PrecedenceOfPre(a[1..], b[1..])
  }

  /** A pre-release comes before its release. */
  function Precedence(v: Version, w: Version): int {
    if CompareCore(v, w) != 0 then CompareCore(v, w)
    else if v.pre == [] && w.pre == [] then 0
    else if v.pre == [] then 1
    else if w.pre == [] then -1
    else PrecedenceOfPre(v.pre, w.pre)
  }

  /** A numeral no int holds. */
  predicate Huge(id: string) {
    IsNumeral(id) && Numeric(id).None?
  }

  predicate SameKind(v: Version, w: Version) {
    (v.pre == []) == (w.pre == [])
  }

  lemma {:induction false} PreAgrees(a: seq<string>, b: seq<string>)
    requires (forall id <- a :: ValidId(id) && !Huge(id)) && (forall id <- b :: ValidId(id) && !Huge(id))
    ensures Sign(CompareIds(a, b)) == PrecedenceOfPre(a, b)
    decreases |a|
  {
    if a != [] && b != [] {
      CompareIdAntisymmetric(a[0], b[0]);
      PreAgrees(a[1..], b[1..]);
    }
  }

  /** Between versions of the same kind, whose numeric identifiers an int holds, the
      order is the precedence of section 11. */
  lemma AgreesWithPrecedence(v: Version, w: Version)
    requires WellFormed(v) && WellFormed(w) && SameKind(v, w)
    requires (forall id <- v.pre :: !Huge(id)) && (forall id <- w.pre :: !Huge(id))
    ensures Sign(Compared(v, w)) == Precedence(v, w)
  {
    PreAgrees(v.pre, w.pre);
  }

  function Pow10(n: nat): (p: nat)
    ensures p >= 1
  {
    if n == 0 then 1 else 10 * Pow10(n - 1)
  }

  lemma {:induction false} ValueBounds(s: string)
    requires AllDigits(s)
    ensures ValueOf(s) < Pow10(|s|)
    ensures s != "" && s[0] != '0' ==> ValueOf(s) >= Pow10(|s| - 1)
  {
    if |s| == 1 {
      assert s[..0] == "";
    } else if s != "" {
      ValueBounds(s[..|s| - 1]);
    }
  }

  lemma {:induction false} Pow10Monotone(a: nat, b: nat)
    requires a <= b
    ensures Pow10(a) <= Pow10(b)
    decreases b
  {
    if a < b {
      Pow10Monotone(a, b - 1);
    }
  }

  /** A longer numeral without a leading zero is greater. */
  lemma LongerIsGreater(a: string, b: string)
    requires AllDigits(a) && AllDigits(b) && |a| < |b| && b[0] != '0'
    ensures ValueOf(a) < ValueOf(b)
  {
    ValueBounds(a);
    ValueBounds(b);
    Pow10Monotone(|a|, |b| - 1);
  }

  lemma {:induction false} TextOfSnoc(a: string, b: string, x: char, y: char)
    requires |a| == |b|
    ensures CompareText(a + [x], b + [y]) == if CompareText(a, b) != 0 then CompareText(a, b) else CompareInt(x as int, y as int)
    decreases |a|
  {
    if a != "" {
      assert (a + [x])[1..] == a[1..] + [x] && (b + [y])[1..] == b[1..] + [y];
      TextOfSnoc(a[1..], b[1..], x, y);
    }
  }

  /** Numerals of one length compare as text does. */
  lemma {:induction false} SameLengthComparesAsText(a: string, b: string)
    requires AllDigits(a) && AllDigits(b) && |a| == |b|
    ensures CompareText(a, b) == CompareInt(ValueOf(a), ValueOf(b))
  {
    if a != "" {
      var n := |a| - 1;
      SameLengthComparesAsText(a[..n], b[..n]);
      TextOfSnoc(a[..n], b[..n], a[n], b[n]);
      assert a == a[..n] + [a[n]] && b == b[..n] + [b[n]];
    }
  }

  /** A numeral without its leading zeros. */
  function Stripped(s: string): (t: string)
    requires AllDigits(s)
    ensures AllDigits(t) && |t| <= |s| && (t != "" ==> t[0] != '0')
  {
    if s != "" && s[0] == '0' then Stripped(s[1..]) else s
  }

  lemma {:induction false} StrippedHasTheValue(s: string)
    requires AllDigits(s)
    ensures ValueOf(Stripped(s)) == ValueOf(s)
  {
    if s != "" && s[0] == '0' {
      StrippedHasTheValue(s[1..]);
      LeadingZerosAddNothing("0", s[1..]);
      assert s == "0" + s[1..];
    }
  }

  /** The order of two numerals read off their digits: length first, then the text. */
  function NumeralOrder(a: string, b: string): int
    requires AllDigits(a) && AllDigits(b)
  {
    var s, t := Stripped(a), Stripped(b);
    if |s| != |t| then CompareInt(|s|, |t|) else CompareText(s, t)
  }

  lemma NumeralOrderIsByValue(a: string, b: string)
    requires AllDigits(a) && AllDigits(b)
    ensures NumeralOrder(a, b) == CompareInt(ValueOf(a), ValueOf(b))
  {
    var s, t := Stripped(a), Stripped(b);
    StrippedHasTheValue(a);
    StrippedHasTheValue(b);
    if |s| < |t| {
      LongerIsGreater(s, t);
    } else if |t| < |s| {
      LongerIsGreater(t, s);
    } else {
      SameLengthComparesAsText(s, t);
    }
  }

  /** The pairs whose order the int limit upsets: two huge numerals whose digits order
      them against the text, or a huge numeral against a word the text puts before it. */
  predicate Upset(a: string, b: string) {
    || (Huge(a) && Huge(b) && NumeralOrder(a, b) != CompareText(a, b))
    || (Huge(a) && !IsNumeral(b) && CompareText(a, b) > 0)
    || (Huge(b) && !IsNumeral(a) && CompareText(a, b) < 0)
  }

  /** The order of two accepted identifiers is the precedence of section 11 exactly
      outside those pairs. */
  lemma IdsAgreeExactlyWhen(a: string, b: string)
    requires ValidId(a) && ValidId(b)
    ensures Sign(CompareId(a, b)) == PrecedenceOfIds(a, b) <==> !Upset(a, b)
  {
    TextAntisymmetric(a, b);
    if IsNumeral(a) && IsNumeral(b) {
      NumeralOrderIsByValue(a, b);
    }
  }

  /** Two numerals that spell one number differently, which only leading zeros do. */
  predicate SameNumber(a: string, b: string) {
    a != b && IsNumeral(a) && IsNumeral(b) && NumeralOrder(a, b) == 0
  }

  /** The first identifiers that differ decide: an upset pair, or two spellings of one
      number, which section 11 passes over and the text does not. */
  ghost predicate UpsetPre(a: seq<string>, b: seq<string>)
    decreases |a|
  {
    && a != [] && b != []
    && if a[0] == b[0] then UpsetPre(a[1..], b[1..])
       else if SameNumber(a[0], b[0]) then Sign(CompareId(a[0], b[0])) != PrecedenceOfPre(a[1..], b[1..])
       else Upset(a[0], b[0])
  }

  lemma {:induction false} PreAgreesExactlyWhen(a: seq<string>, b: seq<string>)
    requires (forall id <- a :: ValidId(id)) && (forall id <- b :: ValidId(id))
    ensures Sign(CompareIds(a, b)) == PrecedenceOfPre(a, b) <==> !UpsetPre(a, b)
    decreases |a|
  {
    if a != [] && b != [] {
      CompareIdAntisymmetric(a[0], b[0]);
      IdsAgreeExactlyWhen(a[0], b[0]);
      if IsNumeral(a[0]) && IsNumeral(b[0]) {
        NumeralOrderIsByValue(a[0], b[0]);
      }
      TextAntisymmetric(a[0], b[0]);
      PreAgreesExactlyWhen(a[1..], b[1..]);
    }
  }

  ghost predicate UpsetVersions(v: Version, w: Version) {
    CompareCore(v, w) == 0 && UpsetPre(v.pre, w.pre)
  }

  /** Two accepted versions of one kind are ordered as section 11 asks exactly when no
      upset pair decides between their pre-release identifiers. */
  lemma VersionsAgreeExactlyWhen(v: Version, w: Version)
    requires WellFormed(v) && WellFormed(w) && SameKind(v, w)
    ensures Sign(Compared(v, w)) == Precedence(v, w) <==> !UpsetVersions(v, w)
  {
    PreAgreesExactlyWhen(v.pre, w.pre);
  }

  /** No upset pair decides anything where every numeric identifier fits an int. */
  lemma {:induction false} FittingIsNotUpset(a: seq<string>, b: seq<string>)
    requires (forall id <- a :: ValidId(id) && !Huge(id)) && (forall id <- b :: ValidId(id) && !Huge(id))
    ensures !UpsetPre(a, b)
    decreases |a|
  {
    PreAgreesExactlyWhen(a, b);
    PreAgrees(a, b);
  }

  lemma TenToTheNineteen()
    ensures Pow10(19) > MAX_INT64
  {
    assert Pow10(2) == 100;
    assert Pow10(4) == 10_000;
    assert Pow10(6) == 1_000_000;
    assert Pow10(8) == 100_000_000;
    assert Pow10(10) == 10_000_000_000;
    assert Pow10(12) == 1_000_000_000_000;
    assert Pow10(14) == 100_000_000_000_000;
    assert Pow10(16) == 10_000_000_000_000_000;
    assert Pow10(18) == 1_000_000_000_000_000_000;
  }

  lemma LongNumeralsAreHuge(s: string)
    requires AllDigits(s) && |s| >= 20 && s[0] != '0'
    ensures Huge(s)
  {
    TenToTheNineteen();
    ValueBounds(s);
    Pow10Monotone(19, |s| - 1);
  }

  /** Section 9 forbids a leading zero in a numeric identifier; parsing lets one through
      exactly in a numeral no int holds, which it takes for a word. */
  lemma LeadingZeroPassesExactlyWhenHuge(id: string)
    requires IsNumeral(id) && LeadingZero(id)
    ensures ValidId(id) <==> Huge(id)
  {
  }

  /** The pieces of a tag: the core's, and the identifiers after the first hyphen. */
  datatype Pieces = Pieces(core: seq<string>, ids: seq<string>)

  function PiecesOf(s: string): Option<Pieces> {
    if s == "" || s[0] != 'v' then None
    else
      var (nucleus, pre) := Cut(s[1..], '-');
      Some(Pieces(Split(nucleus, '.'), if pre.Some? then Split(pre.value, '.') else []))
  }

  predicate SpelledId(id: string) {
    id != "" && forall i :: 0 <= i < |id| ==> IdChar(id[i])
  }

  /** A version of sections 2 and 9 under its "v", without build metadata, except that
      numeric identifiers may lead with zeros. */
  predicate Spelled(s: string) {
    match PiecesOf(s)
    case None => false
    case Some(p) =>
      && |p.core| == 3
      && (forall part <- p.core :: IsNumeral(part) && !LeadingZero(part))
      && (forall id <- p.ids :: SpelledId(id))
  }

  predicate CoreFits(s: string)
    requires Spelled(s)
  {
    forall part <- PiecesOf(s).value.core :: Numeric(part).Some?
  }

  predicate LeadsWithZero(id: string) {
    IsNumeral(id) && LeadingZero(id)
  }

  /** A version of Semantic Versioning 2.0.0. */
  predicate SemVerText(s: string) {
    Spelled(s) && forall id <- PiecesOf(s).value.ids :: !LeadsWithZero(id)
  }

  /** What is accepted is spelled as a version whose core an int holds, and whose
      numeric identifiers with a leading zero are all huge; and nothing else is. */
  lemma AcceptedExactlyWhen(s: string)
    ensures Parsed(s).Some? <==>
      Spelled(s) && CoreFits(s) && forall id <- PiecesOf(s).value.ids :: LeadsWithZero(id) ==> Huge(id)
  {
    if s != "" && s[0] == 'v' {
      var p := PiecesOf(s).value;
      IdsSpelled(p.ids);
      if |p.core| == 3 {
        CoreSpelled(p.core);
      }
    }
  }

  lemma CoreSpelled(core: seq<string>)
    requires |core| == 3
    ensures CoreNumeral(core[0]) && CoreNumeral(core[1]) && CoreNumeral(core[2]) <==>
      (forall part <- core :: IsNumeral(part) && !LeadingZero(part)) && (forall part <- core :: Numeric(part).Some?)
  {
    assert core == [core[0], core[1], core[2]];
  }

  lemma IdsSpelled(ids: seq<string>)
    ensures (forall id <- ids :: ValidId(id)) <==>
      (forall id <- ids :: SpelledId(id)) && (forall id <- ids :: LeadsWithZero(id) ==> Huge(id))
  {
    forall id <- ids ensures ValidId(id) <==> SpelledId(id) && (LeadsWithZero(id) ==> Huge(id)) {
    }
  }

  /** Against the specification: a version is refused exactly for a core number no int
      holds, and an accepted string is no version exactly for a leading zero, which then
      stands in a huge numeral. */
  lemma AcceptedAgainstTheSpecification(s: string)
    ensures SemVerText(s) ==> (Parsed(s).Some? <==> CoreFits(s))
    ensures Parsed(s).Some? ==>
      (!SemVerText(s) <==> exists id <- PiecesOf(s).value.ids :: LeadsWithZero(id) && Huge(id))
  {
    AcceptedExactlyWhen(s);
  }

  /** Such a string: the leading zero passes. */
  lemma LeadingZeroOfHugeNumeralIsAccepted()
    ensures var id := "0" + "90000000000000000000"; ValidId(id) && LeadsWithZero(id)
  {
    var digits := "90000000000000000000";
    LongNumeralsAreHuge(digits);
    LeadingZerosAddNothing("0", digits);
    assert ValueOf("0" + digits) > MAX_INT64;
    LeadingZeroPassesExactlyWhenHuge("0" + digits);
  }

  /** Two identifiers the order takes the other way round. */
  lemma HugeNumeralsUpsetTheOrder()
    ensures var a, b := "90000000000000000000", "100000000000000000000";
      ValidId(a) && ValidId(b) && CompareId(a, b) > 0 && PrecedenceOfIds(a, b) < 0
  {
    var a, b := "90000000000000000000", "100000000000000000000";
    LongNumeralsAreHuge(a);
    LongNumeralsAreHuge(b);
    LongerIsGreater(a, b);
    assert a[0] == '9' && b[0] == '1';
  }

  // --- The greatest release of a directory -------------------------------------------------------------------

  /** A release of the directory among the tags. */
  predicate Tagged(tags: seq<string>, dir: string, v: Version) {
    WellFormed(v) && dir + "/" + Printed(v) in tags
  }

  ghost predicate Greatest(tags: seq<string>, dir: string, v: Version) {
    && Tagged(tags, dir, v)
    && forall w :: Tagged(tags, dir, w) && SameKind(v, w) ==> Compared(w, v) <= 0
  }

  function Best(found: Option<Version>, v: Version): Option<Version> {
    if found == None || Compared(v, found.value) > 0 then Some(v) else found
  }

  /** What a walk over the first tags leaves as the greatest of one kind. */
  ghost predicate BestOf(tags: seq<string>, dir: string, stable: bool, found: Option<Version>) {
    && (found.Some? ==> Tagged(tags, dir, found.value) && (found.value.pre == []) == stable)
    && forall w :: Tagged(tags, dir, w) && (w.pre == []) == stable ==> found.Some? && Compared(w, found.value) <= 0
  }

  /** What one tag says: the release it names, if any. */
  ghost function Named(tag: string, dir: string): Option<Version> {
    if dir + "/" <= tag then Parsed(tag[|dir| + 1..]) else None
  }

  lemma NamedExactlyWhen(tag: string, dir: string, v: Version)
    ensures Named(tag, dir) == Some(v) <==> WellFormed(v) && tag == dir + "/" + Printed(v)
  {
    TagText(tag, dir, Printed(v));
    if WellFormed(v) {
      ParseInvertsPrint(v);
    }
    if Named(tag, dir) == Some(v) {
      PrintInvertsParse(tag[|dir| + 1..]);
    }
  }

  lemma TagText(tag: string, dir: string, text: string)
    ensures tag == dir + "/" + text <==> dir + "/" <= tag && tag[|dir| + 1..] == text
  {
    var prefix := dir + "/";
    if prefix <= tag {
      assert tag == prefix + tag[|prefix|..];
    }
    if tag == prefix + text {
      assert tag[|prefix|..] == text;
    }
  }

  lemma TaggedSnoc(tags: seq<string>, tag: string, dir: string, v: Version)
    ensures Tagged(tags + [tag], dir, v) <==> Tagged(tags, dir, v) || Named(tag, dir) == Some(v)
  {
    NamedExactlyWhen(tag, dir, v);
  }

  /** A tag that names nothing of the kind leaves its greatest as it was. */
  lemma OtherKind(tags: seq<string>, tag: string, dir: string, stable: bool, found: Option<Version>)
    requires BestOf(tags, dir, stable, found)
    requires Named(tag, dir).Some? ==> (Named(tag, dir).value.pre == []) != stable
    ensures BestOf(tags + [tag], dir, stable, found)
  {
    forall w ensures Tagged(tags + [tag], dir, w) <==> Tagged(tags, dir, w) || Named(tag, dir) == Some(w) {
      TaggedSnoc(tags, tag, dir, w);
    }
  }

  /** A release of the kind replaces a smaller one. */
  lemma BestGrows(tags: seq<string>, tag: string, dir: string, stable: bool, found: Option<Version>, v: Version)
    requires BestOf(tags, dir, stable, found)
    requires Named(tag, dir) == Some(v) && (v.pre == []) == stable
    ensures BestOf(tags + [tag], dir, stable, Best(found, v))
  {
    NamedExactlyWhen(tag, dir, v);
    forall w ensures Tagged(tags + [tag], dir, w) <==> Tagged(tags, dir, w) || w == v {
      TaggedSnoc(tags, tag, dir, w);
    }
    forall w | Tagged(tags + [tag], dir, w) && (w.pre == []) == stable ensures Compared(w, Best(found, v).value) <= 0 {
      CompareIsTotalOrder(v, v, v);
      if found.Some? {
        CompareIsTotalOrder(w, found.value, v);
        CompareIsTotalOrder(found.value, v, v);
      }
    }
  }

  method GreatestRelease(tags: seq<string>, dir: string) returns (release: string)
    ensures (exists v :: Tagged(tags, dir, v) && v.pre == []) ==>
      exists v :: Greatest(tags, dir, v) && v.pre == [] && release == Printed(v)
    ensures (forall v :: Tagged(tags, dir, v) ==> v.pre != []) && (exists v :: Tagged(tags, dir, v)) ==>
      exists v :: Greatest(tags, dir, v) && release == Printed(v)
    ensures (forall v :: !Tagged(tags, dir, v)) ==> release == INITIAL_VERSION
  {
    var stable: Option<Version>, pre: Option<Version> := None, None;
    for i := 0 to |tags|
      invariant BestOf(tags[..i], dir, true, stable)
      invariant BestOf(tags[..i], dir, false, pre)
    {
      var prefix := dir + "/";
      assert tags[..i + 1] == tags[..i] + [tags[i]];
      if prefix <= tags[i] {
        var parsed := ParseRelease(tags[i][|prefix|..]);
        if parsed.Some? {
          if parsed.value.pre == [] {
            BestGrows(tags[..i], tags[i], dir, true, stable, parsed.value);
            OtherKind(tags[..i], tags[i], dir, false, pre);
            stable := Best(stable, parsed.value);
          } else {
            BestGrows(tags[..i], tags[i], dir, false, pre, parsed.value);
            OtherKind(tags[..i], tags[i], dir, true, stable);
            pre := Best(pre, parsed.value);
          }
          continue;
        }
      }
      OtherKind(tags[..i], tags[i], dir, true, stable);
      OtherKind(tags[..i], tags[i], dir, false, pre);
    }
    assert tags[..|tags|] == tags;
    if stable.Some? {
      assert Greatest(tags, dir, stable.value);
      return Printed(stable.value);
    }
    if pre.Some? {
      assert Greatest(tags, dir, pre.value);
      return Printed(pre.value);
    }
    return INITIAL_VERSION;
  }

  /** The answer does not depend on the order or the repetition of the tags: a kind has
      one greatest release. */
  lemma GreatestIsUnique(tags: seq<string>, more: seq<string>, dir: string, v: Version, w: Version)
    requires forall tag :: tag in tags <==> tag in more
    requires Greatest(tags, dir, v) && Greatest(more, dir, w) && SameKind(v, w)
    ensures v == w
  {
    CompareIsTotalOrder(v, w, v);
    assert Tagged(tags, dir, w) && Tagged(more, dir, v);
  }

  /** A later version by section 11 that the order puts before. */
  ghost predicate Overtakes(w: Version, v: Version) {
    UpsetVersions(w, v) && Precedence(w, v) != 0
  }

  /** The answer is the greatest of its kind by section 11 exactly when no release of
      that kind overtakes it through an upset pair. */
  lemma GreatestBySection11ExactlyWhen(tags: seq<string>, dir: string, v: Version)
    requires Greatest(tags, dir, v)
    ensures (forall w :: Tagged(tags, dir, w) && SameKind(v, w) ==> Precedence(w, v) <= 0)
       <==> (forall w :: Tagged(tags, dir, w) && SameKind(v, w) ==> !Overtakes(w, v))
  {
    forall w | Tagged(tags, dir, w) && SameKind(v, w) ensures Precedence(w, v) <= 0 <==> !Overtakes(w, v) {
      VersionsAgreeExactlyWhen(w, v);
      CompareIsTotalOrder(w, v, v);
      PrecedenceIsASign(w, v);
      if w == v {
        NotUpsetWithItself(v.pre);
      }
    }
  }

  lemma {:induction false} NotUpsetWithItself(a: seq<string>)
    ensures !UpsetPre(a, a)
  {
    if a != [] {
      NotUpsetWithItself(a[1..]);
    }
  }

  lemma {:induction false} PreIsASign(a: seq<string>, b: seq<string>)
    ensures -1 <= PrecedenceOfPre(a, b) <= 1
    decreases |a|
  {
    if a != [] && b != [] {
      PreIsASign(a[1..], b[1..]);
    }
  }

  lemma PrecedenceIsASign(v: Version, w: Version)
    ensures -1 <= Precedence(v, w) <= 1
  {
    PreIsASign(v.pre, w.pre);
  }

  predicate HasNoHuge(v: Version) {
    forall id <- v.pre :: !Huge(id)
  }

  /** In a directory whose tags keep their numeric identifiers within an int, the answer
      is the greatest of its kind by section 11. */
  lemma GreatestBySection11(tags: seq<string>, dir: string, v: Version)
    requires Greatest(tags, dir, v)
    requires forall w :: Tagged(tags, dir, w) ==> HasNoHuge(w)
    ensures forall w :: Tagged(tags, dir, w) && SameKind(v, w) ==> Precedence(w, v) <= 0
  {
    forall w | Tagged(tags, dir, w) && SameKind(v, w) ensures !Overtakes(w, v) {
      assert HasNoHuge(w) && HasNoHuge(v);
      FittingIsNotUpset(w.pre, v.pre);
    }
    GreatestBySection11ExactlyWhen(tags, dir, v);
  }
}
