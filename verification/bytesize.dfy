/** Byte sizes with IEC suffixes: printing and parsing (internal/config/bytesize.go). */
module ByteSizes {
  import opened Options

  const MAX_INT64: int := 0x7fff_ffff_ffff_ffff
  const TWO_64: int := 0x1_0000_0000_0000_0000

  /** What a 64-bit signed integer holds after an operation with this mathematical result. */
  function Wrap64(v: int): int {
    var m := v % TWO_64;
    if m > MAX_INT64 then m - TWO_64 else m
  }

  datatype Unit = Unit(suffix: string, multiplier: nat)

  const IEC: seq<Unit> := [
    Unit("TiB", 0x100_0000_0000), Unit("GiB", 0x4000_0000), Unit("MiB", 0x10_0000), Unit("KiB", 0x400)]

  const UNITS: seq<Unit> := IEC + [Unit("B", 1), Unit("", 1)]

  // ---------- Decimal numbers ----------

  predicate IsDigit(c: char) {
    '0' <= c <= '9'
  }

  function Digit(c: char): nat
    requires IsDigit(c)
  {
    c as int - '0' as int
  }

  predicate Numeral(s: string) {
    s != "" && forall c :: c in s ==> IsDigit(c)
  }

  function Value(s: string): nat
    requires forall c :: c in s ==> IsDigit(c)
  {
    if s == "" then 0
    else
      assert s[|s| - 1] in s;
      Value(s[..|s| - 1]) * 10 + Digit(s[|s| - 1])
  }

  /** strconv.FormatInt for a number that is not negative. */
  function Decimal(n: nat): (s: string)
    ensures Numeral(s)
  {
    var digit := ('0' as int + n % 10) as char;
    if n < 10 then [digit] else Decimal(n / 10) + [digit]
  }

  lemma {:induction false} ValueOfDecimal(n: nat)
    ensures Value(Decimal(n)) == n
    decreases n
  {
    var s := Decimal(n);
    if n >= 10 {
      ValueOfDecimal(n / 10);
      assert s[..|s| - 1] == Decimal(n / 10);
    } else {
      assert s[..0] == "";
    }
  }

  /** strconv.ParseInt(s, 10, 64): an optional sign, digits, and the range of the type. */
  function ParseInt(s: string): Option<int> {
    var digits := if s != "" && (s[0] == '+' || s[0] == '-') then s[1..] else s;
    if !Numeral(digits) then None
    else
      var magnitude: int := Value(digits);
      var v := if s[0] == '-' then -magnitude else magnitude;
      if -MAX_INT64 - 1 <= v <= MAX_INT64 then Some(v) else None
  }

  // ---------- Printing ----------

  /** `String`: the largest unit that divides the value. */
  function Print(b: nat): string {
    PrintWith(b, IEC)
  }

  function PrintWith(b: nat, units: seq<Unit>): string {
    if units == [] then Decimal(b)
    else if units[0].multiplier > 0 && b >= units[0].multiplier && b % units[0].multiplier == 0 then
      Decimal(b / units[0].multiplier) + units[0].suffix
    else PrintWith(b, units[1..])
  }

  predicate Into(u: Unit, b: nat) {
    u.multiplier > 0 && b % u.multiplier == 0
  }

  /** Of these units, the largest that divides the value. */
  ghost predicate Largest(u: Unit, b: nat, units: seq<Unit>) {
    u in units && Into(u, b) && forall v :: v in units && Into(v, b) ==> v.multiplier <= u.multiplier
  }

  ghost predicate Descending(units: seq<Unit>) {
    && (forall i :: 0 <= i < |units| ==> units[i].multiplier > 0)
    && (forall i, j :: 0 <= i < j < |units| ==> units[i].multiplier > units[j].multiplier)
  }

  lemma Fits(u: Unit, b: nat)
    requires b > 0 && u.multiplier > 0
    ensures Into(u, b) <==> b >= u.multiplier && b % u.multiplier == 0
  {
  }

  lemma {:induction false} PrintsUnit(b: nat, units: seq<Unit>) returns (u: Option<Unit>)
    requires b > 0 && Descending(units)
    ensures u.Some? ==> Largest(u.value, b, units) && PrintWith(b, units) == Decimal(b / u.value.multiplier) + u.value.suffix
    ensures u.None? ==> (forall v :: v in units ==> !Into(v, b)) && PrintWith(b, units) == Decimal(b)
  {
    if units == [] {
      return None;
    }
    var first, rest := units[0], units[1..];
    Fits(first, b);
    hide Into, Decimal;
    assert units == [first] + rest;
    if Into(first, b) {
      u := Some(first);
    } else {
      u := PrintsUnit(b, rest);
    }
  }

  /** The unit that is printed is the largest that divides the value, and there is none if none divides it. */
  lemma PrintsLargest(b: nat)
    requires b > 0
    ensures
      if exists u :: u in IEC && b % u.multiplier == 0
      then exists u :: Largest(u, b, IEC) && Print(b) == Decimal(b / u.multiplier) + u.suffix
      else Print(b) == Decimal(b)
  {
    assert Descending(IEC);
    var u := PrintsUnit(b, IEC);
  }

  // ---------- Parsing ----------

  /** unicode.IsSpace. */
  predicate IsSpace(c: char) {
    || c == ' ' || '\U{9}' <= c <= '\U{d}' || c == '\U{85}' || c == '\U{a0}' || c == '\U{1680}'
    || '\U{2000}' <= c <= '\U{200a}' || c == '\U{2028}' || c == '\U{2029}' || c == '\U{202f}' || c == '\U{205f}'
    || c == '\U{3000}'
  }

  function TrimLeft(s: string): string {
    if s != "" && IsSpace(s[0]) then TrimLeft(s[1..]) else s
  }

  function TrimSpace(s: string): string {
    TrimRight(TrimLeft(s))
  }

  function TrimRight(s: string): string {
    if s != "" && IsSpace(s[|s| - 1]) then TrimRight(s[..|s| - 1]) else s
  }

  predicate HasSuffix(s: string, suffix: string) {
    |suffix| <= |s| && s[|s| - |suffix|..] == suffix
  }

  /** `ParseByteSize`: the first unit whose suffix ends the text and leaves something before it decides. */
  function Parse(raw: string): Option<int> {
    ParseWith(TrimSpace(raw), UNITS)
  }

  function ParseWith(text: string, units: seq<Unit>): Option<int> {
    if units == [] then None
    else if !HasSuffix(text, units[0].suffix) || |text| == |units[0].suffix| then ParseWith(text, units[1..])
    else ParseNumber(text[..|text| - |units[0].suffix|], units[0].multiplier)
  }

  /** The number, refused when its product with the multiplier would not fit; the product itself is
      64-bit arithmetic. */
  function ParseNumber(numeric: string, multiplier: nat): Option<int> {
    var parsed := ParseInt(numeric);
    if parsed.None? then None
    else
      var value := parsed.value;
      if value < 0 || (multiplier != 0 && value > MAX_INT64 / multiplier) then None
      else Some(Wrap64(value * multiplier))
  }

  // ---------- What parsing accepts, and what it gives ----------

  lemma FitsIff(value: nat, multiplier: nat)
    requires multiplier > 0
    ensures value <= MAX_INT64 / multiplier <==> value * multiplier <= MAX_INT64
  {
    var q := MAX_INT64 / multiplier;
    assert MAX_INT64 == q * multiplier + MAX_INT64 % multiplier;
    if value <= q {
      assert value * multiplier <= q * multiplier;
    } else {
      assert value * multiplier >= (q + 1) * multiplier == q * multiplier + multiplier;
    }
  }

  /** A number is accepted exactly when its product fits, and then the product is exact: the 64-bit
      multiplication never wraps around. */
  lemma NumberIff(numeric: string, multiplier: nat)
    requires multiplier > 0
    ensures var parsed := ParseInt(numeric);
      ParseNumber(numeric, multiplier) ==
        if parsed.Some? && 0 <= parsed.value && parsed.value * multiplier <= MAX_INT64
        then Some(parsed.value * multiplier) else None
  {
    var parsed := ParseInt(numeric);
    if parsed.Some? && parsed.value >= 0 {
      FitsIff(parsed.value, multiplier);
      assert parsed.value * multiplier >= 0;
    }
  }

  /** Whatever text is accepted, the result is the exact product of a number in it with the multiplier
      of its unit, and it is a non-negative 64-bit number. */
  lemma AcceptedIsExact(raw: string)
    requires Parse(raw).Some?
    ensures 0 <= Parse(raw).value <= MAX_INT64
    ensures exists u, numeric :: u in UNITS && Means(TrimSpace(raw), u, numeric, Parse(raw).value)
  {
    var u, numeric := AcceptedWith(TrimSpace(raw), UNITS);
    assert u in UNITS && Means(TrimSpace(raw), u, numeric, Parse(raw).value);
  }

  /** The text is a number and the suffix of a unit, and `v` is their product. */
  predicate Means(text: string, u: Unit, numeric: string, v: int) {
    text == numeric + u.suffix && ParseInt(numeric).Some? && v == ParseInt(numeric).value * u.multiplier
  }

  lemma {:induction false} AcceptedWith(text: string, units: seq<Unit>) returns (u: Unit, numeric: string)
    requires ParseWith(text, units).Some? && forall u :: u in units ==> u.multiplier > 0
    ensures u in units && text == numeric + u.suffix && ParseInt(numeric).Some?
    ensures ParseWith(text, units).value == ParseInt(numeric).value * u.multiplier
    ensures 0 <= ParseWith(text, units).value <= MAX_INT64
    decreases |units|
  {
    u := units[0];
    if !HasSuffix(text, u.suffix) || |text| == |u.suffix| {
      u, numeric := AcceptedWith(text, units[1..]);
    } else {
      numeric := text[..|text| - |u.suffix|];
      NumberIff(numeric, u.multiplier);
      assert text == numeric + u.suffix;
    }
  }

  // ---------- Round trip ----------

  lemma NumeralParses(digits: string)
    requires Numeral(digits)
    ensures ParseInt(digits) == if Value(digits) <= MAX_INT64 then Some(Value(digits)) else None
  {
    assert digits[0] in digits;
  }

  lemma NumeralTrims(digits: string, suffix: string)
    requires Numeral(digits) && suffix in {"TiB", "GiB", "MiB", "KiB", "B", ""}
    ensures TrimSpace(digits + suffix) == digits + suffix
  {
    var s := digits + suffix;
    assert s[0] == digits[0] && digits[0] in digits;
    if suffix == "" {
      assert s[|s| - 1] == digits[|digits| - 1] && digits[|digits| - 1] in digits;
    } else {
      assert s[|s| - 1] == 'B';
    }
  }

  /** A numeral with the suffix of a unit means that many units, and is refused exactly when that is
      more than a 64-bit number holds. */
  lemma NumeralWithUnit(digits: string, u: Unit)
    requires Numeral(digits) && u in UNITS
    ensures Parse(digits + u.suffix) ==
      if Value(digits) * u.multiplier <= MAX_INT64 then Some(Value(digits) * u.multiplier) else None
  {
    NumeralTrims(digits, u.suffix);
    NumeralParses(digits);
    NumberIff(digits, u.multiplier);
    FindsUnit(digits, u);
    assert Value(digits) * u.multiplier >= Value(digits);
  }

  lemma FindsUnit(digits: string, u: Unit)
    requires Numeral(digits) && u in UNITS
    ensures ParseWith(digits + u.suffix, UNITS) == ParseNumber(digits, u.multiplier)
  {
    var text := digits + u.suffix;
    var i :| 0 <= i < |UNITS| && UNITS[i] == u;
    forall j | 0 <= j < i
      ensures !HasSuffix(text, UNITS[j].suffix)
    {
      NotSuffix(digits, i, j);
    }
    SkipsTo(text, UNITS, i);
    assert HasSuffix(text, u.suffix) && text[..|text| - |u.suffix|] == digits;
  }

  lemma {:induction false} SkipsTo(text: string, units: seq<Unit>, i: nat)
    requires i < |units| && forall j :: 0 <= j < i ==> !HasSuffix(text, units[j].suffix)
    ensures ParseWith(text, units) == ParseWith(text, units[i..])
    decreases i
  {
    if i > 0 {
      SkipsTo(text, units[1..], i - 1);
      assert units[1..][i - 1..] == units[i..];
    } else {
      assert units[0..] == units;
    }
  }

  lemma NotSuffix(digits: string, i: nat, j: nat)
    requires Numeral(digits) && j < i < |UNITS|
    ensures !HasSuffix(digits + UNITS[i].suffix, UNITS[j].suffix)
  {
    var text, suffix := digits + UNITS[i].suffix, UNITS[j].suffix;
    if i < 4 {
      assert text[|text| - 3] == UNITS[i].suffix[0];
      Differs(text, suffix, 0);
    } else {
      assert IsDigit(digits[|digits| - 1]) by {
        assert digits[|digits| - 1] in digits;
      }
      assert text[|digits| - 1] == digits[|digits| - 1];
      Differs(text, suffix, if i == 4 then 1 else |suffix| - 1);
    }
  }

  lemma Differs(text: string, suffix: string, k: nat)
    requires k < |suffix| && (|suffix| <= |text| ==> text[|text| - |suffix| + k] != suffix[k])
    ensures !HasSuffix(text, suffix)
  {
    if |suffix| <= |text| {
      assert text[|text| - |suffix|..][k] == text[|text| - |suffix| + k];
    }
  }

  lemma {:induction false} PrintedWith(b: nat, units: seq<Unit>)
    requires forall u :: u in units ==> u in UNITS
    ensures exists n: nat, u :: u in UNITS && PrintWith(b, units) == Decimal(n) + u.suffix && n * u.multiplier == b
    decreases |units|
  {
    if units == [] {
      assert Unit("", 1) == UNITS[5];
      assert PrintWith(b, units) == Decimal(b) + Unit("", 1).suffix && b * Unit("", 1).multiplier == b;
    } else if units[0].multiplier > 0 && b >= units[0].multiplier && b % units[0].multiplier == 0 {
      var n := b / units[0].multiplier;
      assert n * units[0].multiplier == b;
      assert PrintWith(b, units) == Decimal(n) + units[0].suffix;
    } else {
      PrintedWith(b, units[1..]);
    }
  }

  /** For every byte count there is, parsing the printed form gives it back. */
  lemma PrintThenParse(b: nat)
    requires b <= MAX_INT64
    ensures Parse(Print(b)) == Some(b)
  {
    assert forall i :: 0 <= i < |IEC| ==> IEC[i] == UNITS[i];
    PrintedWith(b, IEC);
    var n: nat, u :| u in UNITS && PrintWith(b, IEC) == Decimal(n) + u.suffix && n * u.multiplier == b;
    ValueOfDecimal(n);
    NumeralWithUnit(Decimal(n), u);
  }
}
