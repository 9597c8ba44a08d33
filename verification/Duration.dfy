/**
 Configuration durations such as `1d12h`: a hand-written scanner over 64-bit arithmetic, proved
 against the sum that the text stands for.
 */
module Duration {
  import opened Wrappers
  import opened GoStrings

  newtype Int64 = x: int | -0x8000_0000_0000_0000 <= x <= 0x7FFF_FFFF_FFFF_FFFF

  const MAX: Int64 := 0x7FFF_FFFF_FFFF_FFFF

  const MIN: Int64 := -0x8000_0000_0000_0000

  const SECOND: nat := 1_000_000_000

  datatype DurationError = EmptyValue | MissingUnit | Malformed | UnknownUnit | OutOfRange

  /** Nanoseconds in a unit. */
  function UnitOf(c: char): Option<nat> {
    match c
    case 'd' => Some(86_400_000_000_000)
    case 'h' => Some(3_600_000_000_000)
    case 'm' => Some(60_000_000_000)
    case 's' => Some(1_000_000_000)
    case _ => None
  }

  // --- normalisation -----------------------------------------------------------------------

  predicate IsSpace(c: char) {
    || c in "\t\n\U{0b}\U{0c}\r "
    || c in ['\U{85}', '\U{a0}', '\U{1680}', '\U{2028}', '\U{2029}', '\U{202f}', '\U{205f}', '\U{3000}']
    || '\U{2000}' <= c <= '\U{200a}'
  }

  function TrimLeft(s: string): string {
    if s != "" && IsSpace(s[0]) then TrimLeft(s[1..]) else s
  }

  function TrimRight(s: string): string {
    if s != "" && IsSpace(s[|s| - 1]) then TrimRight(s[..|s| - 1]) else s
  }

  function Normalized(value: string): string {
    LowerCase(TrimRight(TrimLeft(value)))
  }

  // --- what a text stands for --------------------------------------------------------------

  datatype Part = Part(digits: string, unit: char) {
    predicate Valid() {
      digits != "" && AllDigits(digits) && UnitOf(unit).Some?
    }

    function Nanoseconds(): nat
      requires Valid()
    {
      Value(digits) * UnitOf(unit).value
    }
  }

  predicate AllValid(parts: seq<Part>) {
    forall p :: p in parts ==> p.Valid()
  }

  function Text(parts: seq<Part>): string {
    if parts == [] then "" else parts[0].digits + [parts[0].unit] + Text(parts[1..])
  }

  function Total(parts: seq<Part>): nat
    requires AllValid(parts)
  {
    if parts == [] then 0 else parts[0].Nanoseconds() + Total(parts[1..])
  }

  /** The text is a bare number of `bareUnit`s, or a non-empty row of parts, worth n exactly. */
  ghost predicate Denotes(text: string, bareUnit: int, n: int) {
    || (text != "" && AllDigits(text) && bareUnit != 0 && n == Value(text) * bareUnit)
    || (exists parts :: parts != [] && AllValid(parts) && Text(parts) == text && n == Total(parts))
  }

  /** The text denotes n, and n is at most 2^63-1. A bare number of negative units counts as out of
      range, except for no units of the smallest negative one. */
  ghost predicate InRange(text: string, bareUnit: int, n: int) {
    && Denotes(text, bareUnit, n) && n <= 9_223_372_036_854_775_807
    && (AllDigits(text) ==> bareUnit > 0 || (bareUnit == MIN as int && n == 0))
  }

  ghost predicate Readable(text: string, bareUnit: int) {
    exists n :: InRange(text, bareUnit, n)
  }

  /** The parts of a text, read from left to right, if it has any such reading. */
  function Parts(text: string): Option<seq<Part>>
    decreases |text|
  {
    if text == "" then Some([])
    else
      var n := DigitsEnd(text);
      if n == 0 || n == |text| || UnitOf(text[n]).None? then None
      else
        var rest := Parts(text[n + 1..]);
        if rest.None? then None else Some([Part(text[..n], text[n])] + rest.value)
  }

  lemma UnitIsNoDigit(c: char)
    ensures UnitOf(c).Some? ==> !IsDigit(c)
  {
  }

  lemma PartsOfPart(p: Part, rest: string)
    requires p.Valid()
    ensures Parts(p.digits + [p.unit] + rest) == if Parts(rest).None? then None else Some([p] + Parts(rest).value)
  {
    var text, n := p.digits + [p.unit] + rest, |p.digits|;
    UnitIsNoDigit(p.unit);
    assert text[..n] == p.digits && text[n] == p.unit && text[n + 1..] == rest;
    DigitsEndIs(text, n);
  }

  /** Reading a row of parts gives back exactly those parts, so no text has two readings. */
  lemma {:induction false} PartsOfText(parts: seq<Part>)
    requires AllValid(parts)
    ensures Parts(Text(parts)) == Some(parts)
  {
    if parts != [] {
      assert parts[0] in parts;
      PartsOfText(parts[1..]);
      PartsOfPart(parts[0], Text(parts[1..]));
      assert parts == [parts[0]] + parts[1..];
    }
  }

  lemma {:induction false} TextOfParts(text: string)
    requires Parts(text).Some?
    ensures AllValid(Parts(text).value) && Text(Parts(text).value) == text
    ensures text != "" ==> Parts(text).value != []
    decreases |text|
  {
    if text != "" {
      var p, rest := HeadOf(text);
      TextOfParts(rest);
      assert Parts(text).value[1..] == Parts(rest).value;
    }
  }

  /** A text with a unit in it denotes the total of its one reading, and nothing else. */
  lemma ReadingIsMeaning(text: string, bareUnit: int, n: int)
    requires text != "" && !AllDigits(text)
    ensures Parts(text).Some? ==> AllValid(Parts(text).value)
    ensures Denotes(text, bareUnit, n) <==> Parts(text).Some? && Total(Parts(text).value) == n
  {
    if Parts(text).Some? {
      TextOfParts(text);
    }
    forall parts: seq<Part> | AllValid(parts) && Text(parts) == text ensures Parts(text) == Some(parts) {
      PartsOfText(parts);
    }
  }

  /** Bare digits have no reading as parts. */
  lemma BareIsMeaning(text: string, bareUnit: int, n: int)
    requires text != "" && AllDigits(text)
    ensures Denotes(text, bareUnit, n) <==> bareUnit != 0 && n == Value(text) * bareUnit
  {
    DigitsEndIs(text, |text|);
    forall parts: seq<Part> | parts != [] && AllValid(parts) && Text(parts) == text ensures false {
      PartsOfText(parts);
    }
  }

  lemma {:induction false} TotalOfBoth(a: seq<Part>, b: seq<Part>)
    requires AllValid(a) && AllValid(b)
    ensures AllValid(a + b) && Total(a + b) == Total(a) + Total(b)
  {
    if a == [] {
      assert a + b == b;
    } else {
      assert (a + b)[1..] == a[1..] + b;
      TotalOfBoth(a[1..], b);
    }
  }

  lemma HeadOf(text: string) returns (p: Part, rest: string)
    requires Parts(text).Some? && text != ""
    ensures p.Valid() && text == p.digits + [p.unit] + rest && |rest| < |text|
    ensures Parts(rest).Some? && Parts(text).value == [p] + Parts(rest).value
  {
    var n := DigitsEnd(text);
    p, rest := Part(text[..n], text[n]), text[n + 1..];
    assert text == text[..n] + [text[n]] + text[n + 1..];
  }

  lemma {:induction false} TextOfBoth(a: seq<Part>, b: seq<Part>)
    ensures Text(a + b) == Text(a) + Text(b)
  {
    if a == [] {
      assert a + b == b;
    } else {
      assert (a + b)[1..] == a[1..] + b;
      TextOfBoth(a[1..], b);
    }
  }

  /** Durations written with units add up when they are written one after the other. */
  lemma DurationsAddUp(a: string, b: string, m: int, n: int)
    requires Denotes(a, 0, m) && Denotes(b, 0, n)
    ensures Denotes(a + b, 0, m + n)
  {
    var first: seq<Part> :| first != [] && AllValid(first) && Text(first) == a && m == Total(first);
    var second: seq<Part> :| second != [] && AllValid(second) && Text(second) == b && n == Total(second);
    TextOfBoth(first, second);
    TotalOfBoth(first, second);
  }

  lemma {:induction false} TotalIsWholeSeconds(parts: seq<Part>)
    requires AllValid(parts)
    ensures Total(parts) % SECOND == 0
  {
    if parts != [] {
      TotalIsWholeSeconds(parts[1..]);
      assert parts[0] in parts;
      MultipleStays(Value(parts[0].digits), UnitOf(parts[0].unit).value, Total(parts[1..]));
    }
  }

  lemma MultipleStays(v: nat, unit: nat, rest: nat)
    requires unit % SECOND == 0 && rest % SECOND == 0
    ensures (v * unit + rest) % SECOND == 0
  {
    var s := SECOND;
    var k, r := unit / s, rest / s;
    assert v * unit == (v * k) * s;
    assert v * unit + rest == (v * k + r) * s;
  }

  /** Where a unit is compulsory, as for token lifetimes, a positive duration is a second or more. */
  lemma PositiveMeansASecond(text: string, n: int)
    requires text != "" && Denotes(text, 0, n) && n > 0
    ensures n >= SECOND
  {
    if AllDigits(text) {
      BareIsMeaning(text, 0, n);
    } else {
      ReadingIsMeaning(text, 0, n);
      TotalIsWholeSeconds(Parts(text).value);
    }
  }

  // --- the units, on the texts -------------------------------------------------------------

  function Count(n: nat, unit: char): string {
    Itoa(n) + [unit]
  }

  lemma CountReads(n: nat, unit: char)
    requires UnitOf(unit).Some?
    ensures Count(n, unit) != "" && !AllDigits(Count(n, unit))
    ensures Parts(Count(n, unit)) == Some([Part(Itoa(n), unit)]) && Part(Itoa(n), unit).Valid()
  {
    ItoaRoundTrip(n);
    UnitIsNoDigit(unit);
    var p := Part(Itoa(n), unit);
    assert [p][1..] == [] && Text([p]) == Itoa(n) + [unit] + Text([]);
    assert Text([p]) == Count(n, unit);
    PartsOfText([p]);
    assert !IsDigit(Count(n, unit)[|Itoa(n)|]);
  }

  lemma TotalOfOne(p: Part)
    requires p.Valid()
    ensures Total([p]) == p.Nanoseconds()
  {
    assert Total([]) == 0;
  }

  lemma CountDenotes(n: nat, unit: char, v: int)
    requires UnitOf(unit).Some?
    ensures Denotes(Count(n, unit), 0, v) <==> v == n * UnitOf(unit).value
  {
    CountReads(n, unit);
    TotalOfOne(Part(Itoa(n), unit));
    ReadingIsMeaning(Count(n, unit), 0, v);
    ItoaRoundTrip(n);
  }

  /** A second is a thousand million nanoseconds, and a number of seconds that many of them. */
  lemma SecondsAre(n: nat, v: int)
    ensures Denotes(Itoa(n) + "s", 0, v) <==> v == n * 1_000_000_000
  {
    CountDenotes(n, 's', v);
  }

  /** A minute is sixty seconds, an hour sixty minutes and a day twenty-four hours. */
  lemma UnitsAre(n: nat, v: int)
    ensures Denotes(Itoa(n) + "m", 0, v) <==> Denotes(Itoa(60 * n) + "s", 0, v)
    ensures Denotes(Itoa(n) + "h", 0, v) <==> Denotes(Itoa(60 * n) + "m", 0, v)
    ensures Denotes(Itoa(n) + "d", 0, v) <==> Denotes(Itoa(24 * n) + "h", 0, v)
  {
    CountDenotes(n, 'm', v);
    CountDenotes(60 * n, 's', v);
    CountDenotes(n, 'h', v);
    CountDenotes(60 * n, 'm', v);
    CountDenotes(n, 'd', v);
    CountDenotes(24 * n, 'h', v);
  }

  /** There are no other units. */
  lemma NoOtherUnits(digits: string, c: char)
    requires digits != "" && AllDigits(digits) && !IsDigit(c) && c !in "dhms"
    ensures forall v :: !Denotes(digits + [c], 0, v)
  {
    var text := digits + [c];
    assert text[..|digits|] == digits && text[|digits|] == c;
    DigitsEndIs(text, |digits|);
    forall v ensures !Denotes(text, 0, v) {
      ReadingIsMeaning(text, 0, v);
    }
  }

  predicate Blank(s: string) {
    forall i :: 0 <= i < |s| ==> s[i] in "\t\n\U{0b}\U{0c}\r "
  }

  lemma {:induction false} TrimsLeft(blank: string, text: string)
    requires Blank(blank) && (text == "" || !IsSpace(text[0]))
    ensures TrimLeft(blank + text) == text
  {
    if blank == "" {
      assert blank + text == text;
    } else {
      assert (blank + text)[1..] == blank[1..] + text;
      TrimsLeft(blank[1..], text);
    }
  }

  lemma {:induction false} TrimsRight(text: string, blank: string)
    requires Blank(blank) && (text == "" || !IsSpace(text[|text| - 1]))
    ensures TrimRight(text + blank) == text
  {
    if blank == "" {
      assert text + blank == text;
    } else {
      var whole, front := text + blank, blank[..|blank| - 1];
      assert whole[..|whole| - 1] == text + front && whole[|whole| - 1] == blank[|blank| - 1];
      TrimsRight(text, front);
    }
  }

  /** Blanks around a text and the case of its letters do not matter. */
  lemma NormalizedMeans(before: string, text: string, after: string)
    requires Blank(before) && Blank(after)
    requires text != "" && !IsSpace(text[0]) && !IsSpace(text[|text| - 1])
    ensures Normalized(before + text + after) == LowerCase(text)
  {
    assert before + text + after == before + (text + after);
    TrimsLeft(before, text + after);
    TrimsRight(text, after);
  }

  // --- the parser --------------------------------------------------------------------------

  lemma RangeTest(n: nat, unit: nat)
    requires unit > 0
    ensures n > MAX as int / unit <==> n * unit > MAX as int
    ensures n > MAX as int ==> n > MAX as int / unit
  {
    var q := MAX as int / unit;
    assert q * unit <= MAX as int < q * unit + unit;
    if n > q {
      assert n * unit >= (q + 1) * unit;
    } else {
      assert n * unit <= q * unit;
    }
  }

  /** Go's division, which truncates. */
  function MaxOver(unit: Int64): Int64
    requires unit != 0
  {
    if unit > 0 then MAX / unit else if unit == MIN then 0 else -(MAX / -unit)
  }

  method MultiplyDuration(digits: string, unit: Int64) returns (r: Result<Int64, DurationError>)
    requires digits != "" && AllDigits(digits) && unit != 0
    ensures unit > 0 ==> var n := Value(digits) * unit as int;
      r == if n <= MAX as int then Success(n as Int64) else Failure(OutOfRange)
    ensures unit < 0 ==> r == if unit == MIN && Value(digits) == 0 then Success(0) else Failure(OutOfRange)
    ensures r.Success? ==> r.value >= 0
  {
    var n := ParseDigits(digits);
    ghost var v, u := Value(digits), unit as int;
    if unit > 0 {
      RangeTest(v, u);
    } else if unit > MIN {
      RangeTest(0, -u);
    }
    if n.None? || n.value as Int64 > MaxOver(unit) {
      return Failure(OutOfRange);
    }
    assert 0 <= v * u <= MAX as int;
    return Success(n.value as Int64 * unit);
  }

  lemma BeyondRange(done: seq<Part>, p: Part, rest: seq<Part>)
    requires AllValid(done) && p.Valid() && AllValid(rest) && Total(done) + p.Nanoseconds() > MAX as int
    ensures AllValid(done + [p] + rest) && Total(done + [p] + rest) > MAX as int
  {
    TotalOfBoth(done, [p]);
    TotalOfBoth(done + [p], rest);
  }

  /** The parts not yet read come after the parts already read. */
  ghost predicate ReadUpTo(text: string, done: seq<Part>, rest: string) {
    AllValid(done) && Parts(text) == if Parts(rest).None? then None else Some(done + Parts(rest).value)
  }

  method LeadingDigits(rest: string) returns (digitsEnd: nat)
    ensures digitsEnd == DigitsEnd(rest)
  {
    digitsEnd := 0;
    while digitsEnd < |rest| && IsDigit(rest[digitsEnd])
      invariant digitsEnd <= |rest| && AllDigits(rest[..digitsEnd])
    {
      digitsEnd := digitsEnd + 1;
    }
    DigitsEndIs(rest, digitsEnd);
  }

  method AddPart(total: Int64, digits: string, unit: Int64) returns (r: Result<Int64, DurationError>)
    requires total >= 0 && digits != "" && AllDigits(digits) && unit > 0
    ensures r.Success? <==> total as int + Value(digits) * unit as int <= MAX as int
    ensures r.Success? ==> r.value as int == total as int + Value(digits) * unit as int
  {
    var part := MultiplyDuration(digits, unit);
    if part.Failure? {
      return Failure(OutOfRange);
    }
    assert 0 <= part.value;
    if total > MAX - part.value {
      return Failure(OutOfRange);
    }
    return Success(total + part.value);
  }

  /** The scanner on a text that is not bare digits: 64-bit sums, no overflow anywhere. */
  method ScanParts(text: string) returns (r: Result<Int64, DurationError>)
    requires text != ""
    ensures Parts(text).Some? ==> AllValid(Parts(text).value)
    ensures r.Success? <==> Parts(text).Some? && Total(Parts(text).value) <= MAX as int
    ensures r.Success? ==> r.value as int == Total(Parts(text).value)
    ensures r.Failure? ==> r.error.Malformed? || r.error.UnknownUnit? || r.error.OutOfRange?
  {
    if Parts(text).Some? {
      TextOfParts(text);
    }
    var total: Int64 := 0;
    var rest := text;
    ghost var done: seq<Part> := [];
    assert Parts(text).Some? ==> done + Parts(text).value == Parts(text).value;
    while rest != ""
      invariant ReadUpTo(text, done, rest)
      invariant total as int == Total(done)
      decreases |rest|
    {
      var digitsEnd := LeadingDigits(rest);
      if digitsEnd == 0 || digitsEnd == |rest| {
        return Failure(Malformed);
      }
      var unit := UnitOf(rest[digitsEnd]);
      if unit.None? {
        return Failure(UnknownUnit);
      }
      ghost var p, tail := Part(rest[..digitsEnd], rest[digitsEnd]), rest[digitsEnd + 1..];
      assert rest == p.digits + [p.unit] + tail;
      NextPart(text, done, rest, p, tail);
      if Parts(text).Some? && Total(done) + p.Nanoseconds() > MAX as int {
        NeverComesBack(text, done, p, tail);
      }
      var sum := AddPart(total, rest[..digitsEnd], unit.value as Int64);
      if sum.Failure? {
        return Failure(OutOfRange);
      }
      total := sum.value;
      rest := rest[digitsEnd + 1..];
      TotalOfBoth(done, [p]);
      done := done + [p];
    }
    assert done + [] == done;
    return Success(total);
  }

  lemma NextPart(text: string, done: seq<Part>, rest: string, p: Part, tail: string)
    requires ReadUpTo(text, done, rest) && p.Valid() && rest == p.digits + [p.unit] + tail
    ensures ReadUpTo(text, done + [p], tail)
  {
    PartsOfPart(p, tail);
    if Parts(tail).Some? {
      assert done + ([p] + Parts(tail).value) == done + [p] + Parts(tail).value;
    }
  }

  /** Once the parts read so far exceed the range, so does the whole text. */
  lemma NeverComesBack(text: string, done: seq<Part>, p: Part, tail: string)
    requires ReadUpTo(text, done + [p], tail) && AllValid(done) && p.Valid()
    requires Total(done) + p.Nanoseconds() > MAX as int && Parts(text).Some?
    ensures AllValid(Parts(text).value) && Total(Parts(text).value) > MAX as int
  {
    TextOfParts(tail);
    BeyondRange(done, p, Parts(tail).value);
  }

  /** Success exactly when the text denotes an amount that fits 64 bits, and then that amount. */
  method ParseDuration(value: string, bareUnit: Int64) returns (r: Result<Int64, DurationError>)
    ensures r.Success? <==> Readable(Normalized(value), bareUnit as int)
    ensures r.Success? ==> Denotes(Normalized(value), bareUnit as int, r.value as int)
    ensures Normalized(value) == "" <==> r == Failure(EmptyValue)
    ensures Normalized(value) != "" && AllDigits(Normalized(value)) && bareUnit == 0 <==> r == Failure(MissingUnit)
  {
    var normalized := Normalized(value);
    if normalized == "" {
      assert forall parts :: parts != [] ==> Text(parts) != "";
      return Failure(EmptyValue);
    }
    if AllDigits(normalized) {
      BareAmount(normalized, bareUnit as int);
      if bareUnit == 0 {
        return Failure(MissingUnit);
      }
      ghost var worth := Value(normalized) * bareUnit as int;
      assert InRange(normalized, bareUnit as int, worth) <==>
        (bareUnit > 0 && worth <= MAX as int) || (bareUnit == MIN && Value(normalized) == 0);
      r := MultiplyDuration(normalized, bareUnit);
      return;
    }
    ReadAmount(normalized, bareUnit as int);
    r := ScanParts(normalized);
    assert Parts(normalized).Some? ==> var n := Total(Parts(normalized).value);
      InRange(normalized, bareUnit as int, n) <==> n <= MAX as int;
  }

  lemma BareAmount(text: string, bareUnit: int)
    requires text != "" && AllDigits(text)
    ensures forall n :: Denotes(text, bareUnit, n) <==> bareUnit != 0 && n == Value(text) * bareUnit
  {
    forall n ensures Denotes(text, bareUnit, n) <==> bareUnit != 0 && n == Value(text) * bareUnit {
      BareIsMeaning(text, bareUnit, n);
    }
  }

  lemma ReadAmount(text: string, bareUnit: int)
    requires text != "" && !AllDigits(text)
    ensures Parts(text).Some? ==> AllValid(Parts(text).value)
    ensures forall n :: Denotes(text, bareUnit, n) <==> Parts(text).Some? && Total(Parts(text).value) == n
  {
    ReadingIsMeaning(text, bareUnit, 0);
    forall n ensures Denotes(text, bareUnit, n) <==> Parts(text).Some? && Total(Parts(text).value) == n {
      ReadingIsMeaning(text, bareUnit, n);
    }
  }
}
