/** The `Range` header of the admin download handler (src/admin.rs) and the read it leads to. */
module RangeHeader {
  import opened Basics
  import opened Manifest
  import opened ReadPlanning

  // ---- numerals ------------------------------------------------------------

  predicate IsDigit(c: char) { '0' <= c <= '9' }

  /** `1*DIGIT`. */
  predicate Digits(s: string) {
    s != "" && forall i :: 0 <= i < |s| ==> IsDigit(s[i])
  }

  function Decimal(s: string): nat
    requires forall i :: 0 <= i < |s| ==> IsDigit(s[i])
  {
    if s == "" then 0
    else
      assert IsDigit(s[|s| - 1]);
      10 * Decimal(s[..|s| - 1]) + (s[|s| - 1] as int - '0' as int)
  }

  /** `str::parse::<u64>`: one leading '+' is allowed, values past u64::MAX are not. */
  function ParseU64(s: string): Option<nat> {
    var digits := if s != "" && s[0] == '+' then s[1..] else s;
    if Digits(digits) && Decimal(digits) <= U64_MAX then Some(Decimal(digits)) else None
  }

  // ---- parse_content_range -------------------------------------------------

  const UNIT: string := "bytes="

  function IndexOf(s: string, c: char): (i: nat)
    ensures i <= |s| && (i < |s| ==> s[i] == c) && forall j :: 0 <= j < i ==> s[j] != c
  {
    if s == "" then 0 else if s[0] == c then 0 else 1 + IndexOf(s[1..], c)
  }

  datatype Parsed = Whole | Part(start: nat, end: nat) | Unsatisfiable

  function ParseBounds(startText: string, endText: string, length: nat): Option<(nat, nat)> {
    if startText == "" then
      var suffix := ParseU64(endText);
      if suffix.None? then None else Some((length - Min(suffix.value, length), length))
    else
      var start := ParseU64(startText);
      if start.None? then None
      else if endText == "" then Some((start.value, length))
      else
        var last := ParseU64(endText);
        if last.None? then None
        else Some((start.value, Min(if last.value == U64_MAX then U64_MAX else last.value + 1, length)))
  }

  function Judge(bounds: Option<(nat, nat)>, length: nat): Parsed {
    if bounds.None? || bounds.value.0 >= bounds.value.1 || bounds.value.0 >= length then Unsatisfiable
    else Part(bounds.value.0, bounds.value.1)
  }

  function ParseContentRange(header: Option<string>, length: U64): (r: Parsed)
    ensures r.Part? ==> r.start < r.end <= length
    ensures r.Whole? <==> header.None?
    ensures header.Some? && !("bytes=" <= header.value) ==> r.Unsatisfiable?
  {
    if header.None? then Whole
    else if !(UNIT <= header.value) then Unsatisfiable
    else
      var value := header.value[|UNIT|..];
      var dash := IndexOf(value, '-');
      if dash == |value| || length == 0 then Unsatisfiable
      else Judge(ParseBounds(value[..dash], value[dash + 1..], length), length)
  }

  // ---- section 14.1.2 of RFC 9110 ------------------------------------------

  /** suffix-range: the last n bytes, all of them when the representation is shorter. */
  predicate IsSuffixRange(value: string, d: string, length: nat, start: nat, end: nat) {
    Digits(d) && value == UNIT + "-" + d && Decimal(d) > 0 && length > 0
    && start == length - Min(Decimal(d), length) && end == length
  }

  /** int-range without last-pos: from first-pos to the end. */
  predicate IsOpenRange(value: string, a: string, length: nat, start: nat, end: nat) {
    Digits(a) && value == UNIT + a + "-" && start == Decimal(a) < length && end == length
  }

  /** int-range: last-pos is inclusive, not before first-pos, and clamped to the representation. */
  predicate IsClosedRange(value: string, a: string, b: string, length: nat, start: nat, end: nat) {
    Digits(a) && Digits(b) && value == UNIT + a + "-" + b && Decimal(a) <= Decimal(b)
    && start == Decimal(a) < length && end == Min(Decimal(b) + 1, length)
  }

  /** The field value is a single satisfiable byte range and selects the bytes [start, end). */
  ghost predicate Denotes(value: string, length: nat, start: nat, end: nat) {
    || (exists d :: IsSuffixRange(value, d, length, start, end))
    || (exists a :: IsOpenRange(value, a, length, start, end))
    || (exists a, b :: IsClosedRange(value, a, b, length, start, end))
  }

  // ---- the parser against the RFC ------------------------------------------

  lemma SplitAtDash(value: string, a: string, b: string)
    requires Digits(a) || a == ""
    requires value == UNIT + a + "-" + b
    ensures UNIT <= value && IndexOf(value[|UNIT|..], '-') == |a|
    ensures value[|UNIT|..][..|a|] == a && value[|UNIT|..][|a| + 1..] == b
  {
    var rest := value[|UNIT|..];
    assert rest == a + "-" + b;
    assert rest[|a|] == '-';
    assert forall j :: 0 <= j < |a| ==> rest[j] == a[j];
  }

  lemma ParseSplit(a: string, b: string, length: U64)
    requires Digits(a) || a == ""
    ensures ParseContentRange(Some(UNIT + a + "-" + b), length) ==
      if length == 0 then Unsatisfiable else Judge(ParseBounds(a, b, length), length)
  {
    SplitAtDash(UNIT + a + "-" + b, a, b);
  }

  lemma ParseDigits(s: string)
    requires Digits(s)
    ensures ParseU64(s) == if Decimal(s) <= U64_MAX then Some(Decimal(s)) else None
  {
  }

  /** `bytes=-N` is read as the RFC says, exactly while N fits a u64. */
  lemma SuffixForm(d: string, length: U64)
    requires Digits(d)
    ensures ParseContentRange(Some(UNIT + "-" + d), length) ==
      if Decimal(d) <= U64_MAX && Decimal(d) > 0 && length > 0
      then Part(length - Min(Decimal(d), length), length)
      else Unsatisfiable
  {
  }

  lemma OpenForm(a: string, length: U64)
    requires Digits(a)
    ensures ParseContentRange(Some(UNIT + a + "-"), length) ==
      if Decimal(a) <= U64_MAX && Decimal(a) < length then Part(Decimal(a), length) else Unsatisfiable
  {
    assert UNIT + a + "-" == UNIT + a + "-" + "";
    ParseSplit(a, "", length);
    ParseDigits(a);
  }

  lemma ClosedForm(a: string, b: string, length: U64)
    requires Digits(a) && Digits(b)
    ensures ParseContentRange(Some(UNIT + a + "-" + b), length) ==
      if Decimal(b) <= U64_MAX && Decimal(a) <= Decimal(b) && Decimal(a) < length
      then Part(Decimal(a), Min(Decimal(b) + 1, length)) else Unsatisfiable
  {
    ParseSplit(a, b, length);
    if length > 0 {
      ClosedBounds(a, b, length);
    }
  }

  lemma ClosedBounds(a: string, b: string, length: U64)
    requires Digits(a) && Digits(b) && length > 0
    ensures Judge(ParseBounds(a, b, length), length) ==
      if Decimal(b) <= U64_MAX && Decimal(a) <= Decimal(b) && Decimal(a) < length
      then Part(Decimal(a), Min(Decimal(b) + 1, length)) else Unsatisfiable
  {
  }

  lemma CutAt(s: string, at: nat)
    requires at < |s| && s[at] == '-'
    ensures s == s[..at] + "-" + s[at + 1..]
  {
  }

  lemma Reassembled(value: string, rest: string, a: string, b: string)
    requires UNIT <= value && rest == value[|UNIT|..] && rest == a + "-" + b
    ensures value == UNIT + a + "-" + b
  {
  }

  lemma AcceptedBounds(value: string, length: U64) returns (rest: string, dash: nat)
    requires ParseContentRange(Some(value), length).Part?
    ensures UNIT <= value && rest == value[|UNIT|..] && dash < |rest| && rest[dash] == '-' && length > 0
    ensures var r := ParseContentRange(Some(value), length);
      ParseBounds(rest[..dash], rest[dash + 1..], length) == Some((r.start, r.end)) && r.start < r.end
        && r.start < length
  {
    rest := value[|UNIT|..];
    dash := IndexOf(rest, '-');
  }

  lemma AcceptedSplits(value: string, length: U64) returns (a: string, b: string)
    requires ParseContentRange(Some(value), length).Part?
    ensures value == UNIT + a + "-" + b && length > 0
    ensures var r := ParseContentRange(Some(value), length);
      ParseBounds(a, b, length) == Some((r.start, r.end)) && r.start < r.end && r.start < length
  {
    var rest, dash := AcceptedBounds(value, length);
    a, b := rest[..dash], rest[dash + 1..];
    CutAt(rest, dash);
    Reassembled(value, rest, a, b);
  }

  lemma PlusFreeDigits(s: string)
    requires ParseU64(s).Some? && '+' !in s
    ensures Digits(s) && Decimal(s) == ParseU64(s).value
  {
  }

  lemma DenotedHasNoPlus(value: string, length: nat, start: nat, end: nat)
    requires Denotes(value, length, start, end)
    ensures '+' !in value
  {
  }

  lemma PlusFreeIsDenoted(value: string, length: U64)
    requires ParseContentRange(Some(value), length).Part? && '+' !in value
    ensures var r := ParseContentRange(Some(value), length); Denotes(value, length, r.start, r.end)
  {
    var r := ParseContentRange(Some(value), length);
    var a, b := AcceptedSplits(value, length);
    assert forall c :: c in a || c in b ==> c in value;
    if a == "" {
      PlusFreeDigits(b);
      assert value == UNIT + "-" + b;
      assert IsSuffixRange(value, b, length, r.start, r.end);
    } else if b == "" {
      PlusFreeDigits(a);
      assert value == UNIT + a + "-";
      assert IsOpenRange(value, a, length, r.start, r.end);
    } else {
      PlusFreeDigits(a);
      PlusFreeDigits(b);
      assert IsClosedRange(value, a, b, length, r.start, r.end);
    }
  }

  /**
   Every accepted range without a '+' sign selects the bytes the RFC assigns to it; an accepted
   value with a sign (which `str::parse` tolerates) is no byte range of the RFC at all.
   */
  lemma AcceptedExactlyAsRfc(value: string, length: U64)
    requires ParseContentRange(Some(value), length).Part?
    ensures var r := ParseContentRange(Some(value), length); Denotes(value, length, r.start, r.end) <==> '+' !in value
  {
    var r := ParseContentRange(Some(value), length);
    if '+' !in value {
      PlusFreeIsDenoted(value, length);
    } else if Denotes(value, length, r.start, r.end) {
      DenotedHasNoPlus(value, length, r.start, r.end);
    }
  }

  lemma SuffixIsNeverMisread(value: string, d: string, length: U64, start: nat, end: nat)
    requires IsSuffixRange(value, d, length, start, end)
    ensures ParseContentRange(Some(value), length) in {Part(start, end), Unsatisfiable}
  {
  }

  lemma OpenIsNeverMisread(value: string, a: string, length: U64, start: nat, end: nat)
    requires IsOpenRange(value, a, length, start, end)
    ensures ParseContentRange(Some(value), length) in {Part(start, end), Unsatisfiable}
  {
    OpenForm(a, length);
  }

  lemma ClosedIsNeverMisread(value: string, a: string, b: string, length: U64, start: nat, end: nat)
    requires IsClosedRange(value, a, b, length, start, end)
    ensures ParseContentRange(Some(value), length) in {Part(start, end), Unsatisfiable}
  {
    ClosedForm(a, b, length);
  }

  /** A range the RFC defines is never answered with other bytes. */
  lemma DenotedIsNeverMisread(value: string, length: U64, start: nat, end: nat)
    requires Denotes(value, length, start, end)
    ensures ParseContentRange(Some(value), length) in {Part(start, end), Unsatisfiable}
  {
    if d :| IsSuffixRange(value, d, length, start, end) {
      SuffixIsNeverMisread(value, d, length, start, end);
    } else if a :| IsOpenRange(value, a, length, start, end) {
      OpenIsNeverMisread(value, a, length, start, end);
    } else {
      var a, b :| IsClosedRange(value, a, b, length, start, end);
      ClosedIsNeverMisread(value, a, b, length, start, end);
    }
  }

  /** The sign is accepted although the grammar has none. */
  lemma SignIsAccepted(length: U64)
    requires length > 0
    ensures ParseContentRange(Some("bytes=+0-"), length) == Part(0, length)
    ensures !Denotes("bytes=+0-", length, 0, length)
  {
    var value := "bytes=+0-";
    var rest := value[|UNIT|..];
    assert rest == "+0-";
    assert rest[0] == '+' && rest[1] == '0' && rest[2] == '-';
    assert IndexOf(rest, '-') == 2;
    assert rest[..2] == "+0" && rest[3..] == "";
    assert "+0"[1..] == "0" && Decimal("0") == 0;
    assert ParseU64("+0") == Some(0);
    AcceptedExactlyAsRfc(value, length);
    assert value[6] == '+';
  }

  // ---- what is accepted, exactly -------------------------------------------

  /** A numeral as `u64::from_str` takes it: digits, perhaps signed, of a value that fits. */
  predicate Reads(s: string, n: nat) {
    n <= U64_MAX
    && ((Digits(s) && Decimal(s) == n) || (s != "" && s[0] == '+' && Digits(s[1..]) && Decimal(s[1..]) == n))
  }

  /** The bytes [start, end) that the texts around the first dash select. */
  ghost predicate BoundsSelect(a: string, b: string, length: nat, start: nat, end: nat) {
    && start < end && start < length
    && (a == "" ==> end == length && exists n: nat :: Reads(b, n) && start == length - Min(n, length))
    && (a != "" ==> Reads(a, start))
    && (a != "" && b == "" ==> end == length)
    && (a != "" && b != "" ==> exists n: nat :: Reads(b, n) && end == Min(n + 1, length))
  }

  ghost predicate Selects(value: string, length: nat, start: nat, end: nat) {
    exists a, b :: value == "bytes=" + a + "-" + b && '-' !in a && BoundsSelect(a, b, length, start, end)
  }

  lemma ReadsExactly(s: string, n: nat)
    ensures ParseU64(s) == Some(n) <==> Reads(s, n)
  {
  }

  lemma BoundsExactly(a: string, b: string, length: U64, start: nat, end: nat)
    requires length > 0
    ensures Judge(ParseBounds(a, b, length), length) == Part(start, end) <==> BoundsSelect(a, b, length, start, end)
  {
    forall s, n: nat
      ensures ParseU64(s) == Some(n) <==> Reads(s, n)
    {
      ReadsExactly(s, n);
    }
  }

  lemma SplitsOnce(value: string, a: string, b: string)
    requires value == "bytes=" + a + "-" + b && '-' !in a
    ensures UNIT <= value && IndexOf(value[|UNIT|..], '-') == |a|
    ensures value[|UNIT|..][..|a|] == a && value[|UNIT|..][|a| + 1..] == b
  {
    var rest := value[|UNIT|..];
    assert rest == a + "-" + b && rest[|a|] == '-';
    assert forall j :: 0 <= j < |a| ==> rest[j] == a[j];
  }

  /** The header selects exactly these bytes; anything else is not satisfiable. */
  lemma ParsesExactly(value: string, length: U64, start: nat, end: nat)
    ensures ParseContentRange(Some(value), length) == Part(start, end) <==> Selects(value, length, start, end)
  {
    if ParseContentRange(Some(value), length) == Part(start, end) {
      var rest, dash := AcceptedBounds(value, length);
      var a, b := rest[..dash], rest[dash + 1..];
      CutAt(rest, dash);
      Reassembled(value, rest, a, b);
      BoundsExactly(a, b, length, start, end);
      assert value == "bytes=" + a + "-" + b && '-' !in a;
    }
    if Selects(value, length, start, end) {
      var a, b :| value == "bytes=" + a + "-" + b && '-' !in a && BoundsSelect(a, b, length, start, end);
      SplitsOnce(value, a, b);
      BoundsExactly(a, b, length, start, end);
    }
  }

  function Digit(d: nat): char
    requires d < 10
  {
    "0123456789"[d]
  }

  /** The decimal numeral of a number, as it is printed. */
  function Print(n: nat): string {
    if n < 10 then [Digit(n)] else Print(n / 10) + [Digit(n % 10)]
  }

  /** Reading is the inverse of printing. */
  lemma {:induction false} DecimalOfPrint(n: nat)
    ensures Digits(Print(n)) && Decimal(Print(n)) == n
    decreases n
  {
    if n >= 10 {
      DecimalOfPrint(n / 10);
      assert Print(n)[..|Print(n)| - 1] == Print(n / 10);
    } else {
      assert Print(n)[..0] == "";
    }
  }

  // ---- handle_content ------------------------------------------------------

  datatype Response = NotSatisfiable | Answer(partial: bool, contentLength: nat, spans: seq<Span>)

  /** Whatever the payloads are, the spans read the bytes [start, end) of the object. */
  ghost predicate ReadsRange(m: ObjectManifest, spans: seq<Span>, start: nat, end: nat) {
    && SpanLengths(spans) == end - start && (start < end ==> NonEmpty(spans))
    && forall store: Payloads :: Stored(store, m.chunks, m.id) && |m.chunks| <= U32_MAX + 1 ==>
         && end <= |Content(store, m.chunks, m.id)| && AllReadable(store, m, spans)
         && ReadSpans(store, m, spans) == Content(store, m.chunks, m.id)[start..end]
  }

  lemma PlannedReadsRange(m: ObjectManifest, start: U64, end: U64)
    requires WellFormed(m) && start <= end <= m.contentLength
    ensures ReadsRange(m, Overlapping(m.chunks, start, end), start, end)
  {
    SpanLengthsCoverRange(m, start, end);
    forall store: Payloads | Stored(store, m.chunks, m.id) && |m.chunks| <= U32_MAX + 1
      ensures end <= |Content(store, m.chunks, m.id)| && AllReadable(store, m, Overlapping(m.chunks, start, end))
      ensures ReadSpans(store, m, Overlapping(m.chunks, start, end)) == Content(store, m.chunks, m.id)[start..end]
    {
      RangeReadIsSlice(store, m, start, end);
    }
  }

  /** The handler from header to declared length and planned spans. */
  method Plan(header: Option<string>, m: ObjectManifest) returns (r: Response)
    ensures r.NotSatisfiable? <==> ParseContentRange(header, m.contentLength).Unsatisfiable? || !EndsFit(m.chunks)
    ensures r.Answer? ==>
      var p := ParseContentRange(header, m.contentLength);
      r == if p.Part? then Answer(true, p.end - p.start, Overlapping(m.chunks, p.start, p.end))
           else Answer(false, m.contentLength, Overlapping(m.chunks, 0, m.contentLength))
  {
    var parsed := ParseContentRange(header, m.contentLength);
    if parsed.Unsatisfiable? {
      return NotSatisfiable;
    }
    var start: U64, end: U64 := 0, m.contentLength;
    if parsed.Part? {
      start, end := parsed.start, parsed.end;
    }
    var spans := PlanRead(m, start, end);
    if spans.None? {
      return NotSatisfiable;
    }
    return Answer(parsed.Part?, end - start, spans.value);
  }

  /**
   Without a header the whole object is answered; a header is answered with exactly the bytes it
   selects, as partial content, and with 416 when it selects none.
   */
  method HandleContent(header: Option<string>, m: ObjectManifest) returns (r: Response)
    ensures WellFormed(m) && header.None? ==>
      r.Answer? && !r.partial && r.contentLength == m.contentLength && ReadsRange(m, r.spans, 0, m.contentLength)
    ensures WellFormed(m) && header.Some? ==>
      (r.Answer? <==> exists start: nat, end: nat :: Selects(header.value, m.contentLength, start, end))
    ensures WellFormed(m) && header.Some? ==>
      forall start: nat, end: nat :: Selects(header.value, m.contentLength, start, end) ==>
        r.Answer? && r.partial && r.contentLength == end - start && ReadsRange(m, r.spans, start, end)
    ensures !EndsFit(m.chunks) ==> r.NotSatisfiable?
  {
    r := Plan(header, m);
    if WellFormed(m) {
      WellFormedEndsFit(m);
      AnswersExactly(header, m);
    }
  }

  /** What the parsed header selects, and what its plan reads. */
  lemma AnswersExactly(header: Option<string>, m: ObjectManifest)
    requires WellFormed(m)
    ensures var p := ParseContentRange(header, m.contentLength);
      && (header.None? ==> p.Whole? && ReadsRange(m, Overlapping(m.chunks, 0, m.contentLength), 0, m.contentLength))
      && (header.Some? ==> !p.Whole?)
      && (p.Part? ==> ReadsRange(m, Overlapping(m.chunks, p.start, p.end), p.start, p.end))
      && (header.Some? ==> forall start: nat, end: nat ::
            p == Part(start, end) <==> Selects(header.value, m.contentLength, start, end))
  {
    var p := ParseContentRange(header, m.contentLength);
    PlannedReadsRange(m, 0, m.contentLength);
    if p.Part? {
      PlannedReadsRange(m, p.start, p.end);
    }
    if header.Some? {
      forall start: nat, end: nat
        ensures p == Part(start, end) <==> Selects(header.value, m.contentLength, start, end)
      {
        ParsesExactly(header.value, m.contentLength, start, end);
      }
    }
  }

  /** The planned spans of an accepted RFC range read exactly the bytes the RFC selects. */
  lemma AcceptedRangeReads(value: string, m: ObjectManifest, store: Payloads)
    requires WellFormed(m) && |m.chunks| <= U32_MAX + 1 && Stored(store, m.chunks, m.id)
    requires ParseContentRange(Some(value), m.contentLength).Part? && '+' !in value
    ensures var r := ParseContentRange(Some(value), m.contentLength);
      var spans := Overlapping(m.chunks, r.start, r.end);
      && Denotes(value, m.contentLength, r.start, r.end) && AllReadable(store, m, spans)
      && ReadSpans(store, m, spans) == Content(store, m.chunks, m.id)[r.start..r.end]
  {
    var r := ParseContentRange(Some(value), m.contentLength);
    PlusFreeIsDenoted(value, m.contentLength);
    RangeReadIsSlice(store, m, r.start, r.end);
  }
}
