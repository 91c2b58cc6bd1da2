/** Fixed-point wire numbers: integers in units of one hundred-millionth, their canonical decimal strings, and the
    two ways a decimal is turned back into units. */
module Decimals {
  import opened Outcomes

  const PRECISION: nat := 8
  const UNIT: nat := 100000000

  function Pow10(k: nat): (p: nat)
    ensures p > 0
  {
    if k == 0 then 1 else 10 * Pow10(k - 1)
  }

  lemma {:induction false} Pow10Adds(a: nat, b: nat)
    ensures Pow10(a + b) == Pow10(a) * Pow10(b)
  {
    if a > 0 {
      Pow10Adds(a - 1, b);
    }
  }

  lemma UnitIsPow10()
    ensures Pow10(PRECISION) == UNIT
  {
  }

  // ----------------------------------------------------------------- digits

  predicate IsDigit(c: char) {
    '0' <= c <= '9'
  }

  function DigitChar(d: nat): (c: char)
    requires d < 10
    ensures IsDigit(c) && DigitValue(c) == d
  {
    ('0' as int + d) as char
  }

  function DigitValue(c: char): (d: nat)
    requires IsDigit(c)
    ensures d < 10
  {
    c as int - '0' as int
  }

  predicate AllDigits(s: string) {
    forall c :: c in s ==> IsDigit(c)
  }

  function ValueOf(s: string): nat
    requires AllDigits(s)
  {
    if s == "" then 0 else ValueOf(s[..|s| - 1]) * 10 + DigitValue(s[|s| - 1])
  }

  /** The plain decimal spelling of `n`. */
  function DigitsOf(n: nat): (s: string)
    ensures s != "" && AllDigits(s) && (s[0] == '0' ==> s == "0")
    ensures n > 0 ==> s[0] != '0'
  {
    if n < 10 then [DigitChar(n)] else DigitsOf(n / 10) + [DigitChar(n % 10)]
  }

  /** `n` in exactly `k` digits, padded with zeros on the left. */
  function Fixed(n: nat, k: nat): (s: string)
    ensures |s| == k && AllDigits(s)
  {
    if k == 0 then "" else Fixed(n / 10, k - 1) + [DigitChar(n % 10)]
  }

  function TrimZeros(s: string): (t: string)
    ensures |t| <= |s| && t == s[..|t|]
    ensures t != "" ==> t[|t| - 1] != '0'
  {
    if s != "" && s[|s| - 1] == '0' then TrimZeros(s[..|s| - 1]) else s
  }

  lemma {:induction false} DigitsValue(n: nat)
    ensures ValueOf(DigitsOf(n)) == n
  {
    if n < 10 {
      assert [DigitChar(n)][..0] == "";
    } else {
      DigitsValue(n / 10);
      var front := DigitsOf(n / 10);
      assert (front + [DigitChar(n % 10)])[..|front|] == front;
    }
  }

  lemma {:induction false} FixedValue(n: nat, k: nat)
    requires n < Pow10(k)
    ensures ValueOf(Fixed(n, k)) == n
  {
    if k > 0 {
      FixedValue(n / 10, k - 1);
      var front := Fixed(n / 10, k - 1);
      assert (front + [DigitChar(n % 10)])[..|front|] == front;
    }
  }

  lemma TenMore(v: nat, p: nat)
    ensures v * p * 10 == v * (10 * p)
  {
  }

  lemma {:induction false} TrimValue(s: string)
    requires AllDigits(s)
    ensures AllDigits(TrimZeros(s))
    ensures ValueOf(s) == ValueOf(TrimZeros(s)) * Pow10(|s| - |TrimZeros(s)|)
  {
    if s != "" && s[|s| - 1] == '0' {
      var front := s[..|s| - 1];
      TrimValue(front);
      var k := |front| - |TrimZeros(front)|;
      assert |s| - |TrimZeros(s)| == k + 1;
      assert ValueOf(s) == ValueOf(front) * 10;
      TenMore(ValueOf(TrimZeros(front)), Pow10(k));
    } else {
      assert TrimZeros(s) == s && Pow10(0) == 1;
    }
  }

  // ---------------------------------------------------------------- printer

  /** The decimal string of `v` units. */
  function Print(v: nat): string {
    var whole, fraction := v / UNIT, v % UNIT;
    DigitsOf(whole) + if fraction == 0 then "" else "." + TrimZeros(Fixed(fraction, PRECISION))
  }

  /** A decimal string splits at its one point, or is all whole. */
  datatype Split = Split(whole: string, fraction: Option<string>)

  function SplitPoint(s: string): (r: Split)
    ensures s == r.whole + if r.fraction.Some? then "." + r.fraction.value else ""
    ensures '.' !in r.whole
  {
    if s == "" then Split("", None)
    else if s[0] == '.' then
      assert s == "." + s[1..];
      Split("", Some(s[1..]))
    else
      var rest := SplitPoint(s[1..]);
      assert s == [s[0]] + s[1..];
      Split([s[0]] + rest.whole, rest.fraction)
  }

  lemma {:induction false} SplitIsUnique(whole: string, fraction: string)
    requires '.' !in whole
    ensures SplitPoint(whole + "." + fraction) == Split(whole, Some(fraction))
    ensures SplitPoint(whole) == Split(whole, None)
  {
    var s := whole + "." + fraction;
    if whole == "" {
      assert s == "." + fraction && s[1..] == fraction;
    } else {
      assert s[1..] == whole[1..] + "." + fraction;
      SplitIsUnique(whole[1..], fraction);
      assert whole == [whole[0]] + whole[1..];
    }
  }

  /** The exact value of a decimal string, or None when it is not one. */
  function Parse(s: string): Option<real> {
    var parts := SplitPoint(s);
    if parts.whole == "" || !AllDigits(parts.whole) then None
    else if parts.fraction == None then Some(ValueOf(parts.whole) as real)
    else if parts.fraction.value == "" || !AllDigits(parts.fraction.value) then None
    else Some(ValueOf(parts.whole) as real + ValueOf(parts.fraction.value) as real / Pow10(|parts.fraction.value|) as real)
  }

  /** No superfluous zero on either side, and no point without digits after it. */
  predicate Canonical(s: string) {
    var parts := SplitPoint(s);
    && parts.whole != "" && AllDigits(parts.whole) && (parts.whole[0] == '0' ==> parts.whole == "0")
    && (parts.fraction.Some? ==>
          parts.fraction.value != "" && AllDigits(parts.fraction.value)
          && parts.fraction.value[|parts.fraction.value| - 1] != '0')
  }

  /** The units that `v` stands for. */
  function Decimal(v: int): real {
    v as real / UNIT as real
  }

  lemma NoPoint(s: string)
    requires AllDigits(s)
    ensures '.' !in s
  {
  }

  lemma TrimmedFraction(fraction: nat)
    requires 0 < fraction < UNIT
    ensures
      var t := TrimZeros(Fixed(fraction, PRECISION));
      && t != "" && AllDigits(t) && |t| <= PRECISION
      && ValueOf(t) * Pow10(PRECISION - |t|) == fraction
  {
    UnitIsPow10();
    FixedValue(fraction, PRECISION);
    TrimValue(Fixed(fraction, PRECISION));
  }

  lemma ScaleDown(value: nat, k: nat, fraction: nat)
    requires k <= PRECISION && value * Pow10(PRECISION - k) == fraction
    ensures value as real / Pow10(k) as real == fraction as real / UNIT as real
  {
    UnitIsPow10();
    Pow10Adds(PRECISION - k, k);
    var low, high := Pow10(k), Pow10(PRECISION - k);
    assert UNIT == high * low;
    assert fraction as real == value as real * high as real;
    assert UNIT as real == high as real * low as real;
    RatioCancels(value as real, high as real, low as real);
  }

  lemma RatioCancels(v: real, h: real, l: real)
    requires h > 0.0 && l > 0.0
    ensures (v * h) / (h * l) == v / l
  {
  }

  lemma DecimalSplits(v: nat)
    ensures Decimal(v) == (v / UNIT) as real + (v % UNIT) as real / UNIT as real
  {
  }

  /** The parts of a printed string. */
  lemma PrintedParts(v: nat)
    ensures v % UNIT == 0 ==> SplitPoint(Print(v)) == Split(DigitsOf(v / UNIT), None)
    ensures v % UNIT != 0 ==>
      SplitPoint(Print(v)) == Split(DigitsOf(v / UNIT), Some(TrimZeros(Fixed(v % UNIT, PRECISION))))
  {
    hide DigitsOf, TrimZeros, Fixed, SplitPoint;
    NoPoint(DigitsOf(v / UNIT));
    SplitIsUnique(DigitsOf(v / UNIT), TrimZeros(Fixed(v % UNIT, PRECISION)));
    assert DigitsOf(v / UNIT) + "" == DigitsOf(v / UNIT);
    var t := TrimZeros(Fixed(v % UNIT, PRECISION));
    assert DigitsOf(v / UNIT) + ("." + t) == DigitsOf(v / UNIT) + "." + t;
  }

  /** The printed string parses back to exactly the printed value, and is canonical. */
  lemma PrintRoundTrips(v: nat)
    ensures Parse(Print(v)) == Some(Decimal(v))
    ensures Canonical(Print(v))
  {
    hide DigitsOf, TrimZeros, Fixed, SplitPoint, Print, Pow10, Decimal;
    PrintedParts(v);
    DecimalSplits(v);
    DigitsValue(v / UNIT);
    if v % UNIT != 0 {
      var t := TrimZeros(Fixed(v % UNIT, PRECISION));
      TrimmedFraction(v % UNIT);
      ScaleDown(ValueOf(t), |t|, v % UNIT);
    }
  }

  /** Different units print differently. */
  lemma PrintIsInjective(a: nat, b: nat)
    requires Print(a) == Print(b)
    ensures a == b
  {
    PrintRoundTrips(a);
    PrintRoundTrips(b);
    assert a as real == Decimal(a) * UNIT as real;
    assert b as real == Decimal(b) * UNIT as real;
  }

  // ------------------------------------------------------------ back to units

  /** `_exact_evedex_integer`: a positive decimal that is a whole number of units. */
  function ExactUnits(x: real): Outcome<int> {
    var scaled := x * UNIT as real;
    if x <= 0.0 || scaled.Floor as real != scaled then Raised else Done(scaled.Floor)
  }

  function Truncated(x: real): int {
    if x >= 0.0 then x.Floor else -((-x).Floor)
  }

  function HalfUp(x: real): int {
    if x >= 0.0 then (x + 0.5).Floor else -((-x + 0.5).Floor)
  }

  /** `to_eth_number`. */
  function ToUnits(x: real, roundDown: bool): int {
    var scaled := x * UNIT as real;
    if roundDown then Truncated(scaled) else HalfUp(scaled)
  }

  function Distance(a: real, b: real): real {
    if a < b then b - a else a - b
  }

  /** Rounding is within half a unit with ties away from zero, truncation within one unit and towards zero: for all inputs. */
  lemma RoundingBounds(x: real)
    ensures var scaled := x * UNIT as real;
            && Distance(ToUnits(x, false) as real, scaled) <= 0.5
            && (Distance(ToUnits(x, false) as real, scaled) == 0.5 ==>
                  Distance(ToUnits(x, false) as real, 0.0) > Distance(scaled, 0.0))
            && Distance(ToUnits(x, true) as real, scaled) < 1.0
            && Distance(ToUnits(x, true) as real, 0.0) <= Distance(scaled, 0.0)
  {
  }

  /** Exactly the whole numbers of units convert exactly, and then all three conversions agree. */
  lemma ExactUnitsMeaning(x: real)
    ensures ExactUnits(x).Done? <==> exists v: int :: v > 0 && x == Decimal(v)
    ensures ExactUnits(x).Done? ==>
      && ExactUnits(x).value > 0 && Decimal(ExactUnits(x).value) == x
      && ToUnits(x, false) == ExactUnits(x).value == ToUnits(x, true)
  {
  }

  /** What the printer writes, the reader takes back: units to string to decimal to the same units. */
  lemma UnitsSurviveTheWire(v: nat)
    ensures Parse(Print(v)).Some?
    ensures v > 0 ==> ExactUnits(Parse(Print(v)).value) == Done(v)
    ensures ToUnits(Parse(Print(v)).value, false) == v == ToUnits(Parse(Print(v)).value, true)
  {
    PrintRoundTrips(v);
    var x := Decimal(v);
    assert x * UNIT as real == v as real;
  }

  // -------------------------------------------------------------- wire body

  datatype Field = QUANTITY | LIMIT_PRICE | STOP_PRICE | CASH_QUANTITY | PRICE | TIME_IN_FORCE | SIGNATURE | Plain(name: nat)

  datatype Value = Units(units: int) | Text(text: string)

  const NUMERIC: seq<Field> := [QUANTITY, LIMIT_PRICE, STOP_PRICE, CASH_QUANTITY, PRICE]

  /** The numeric field may be sent: an unsigned integer of units. */
  predicate Sendable(message: map<Field, Value>, f: Field) {
    f in message ==> message[f].Units? && message[f].units >= 0
  }

  /** What a signed message asks for. Only the first five have a reviewed wire form. */
  datatype Operation = LimitOrder | MarketOrder | StopLimitOrder | PositionClose | TakeProfitStopLoss | Unreviewed

  /** `production_wire_body`: every numeric field becomes the decimal string that means the same, nothing else changes
      but the fixed dispatch policy and the signature. */
  method WireBody(operation: Operation, message: map<Field, Value>, signature: string)
    returns (r: Outcome<map<Field, Value>>)
    ensures r.Done? <==> operation != Unreviewed && forall f :: f in NUMERIC ==> Sendable(message, f)
    ensures r.Done? ==>
      && (forall f :: f in NUMERIC && f in message ==>
            f in r.value && r.value[f].Text? && Canonical(r.value[f].text)
            && Parse(r.value[f].text) == Some(Decimal(message[f].units)))
      && (forall f :: f in message && f !in NUMERIC && f != SIGNATURE && (operation.LimitOrder? ==> f != TIME_IN_FORCE) ==>
            f in r.value && r.value[f] == message[f])
      && (forall f :: f in r.value ==> f in message || f == SIGNATURE || (operation.LimitOrder? && f == TIME_IN_FORCE))
      && SIGNATURE in r.value && r.value[SIGNATURE] == Text(signature)
      && (operation.LimitOrder? ==> TIME_IN_FORCE in r.value && r.value[TIME_IN_FORCE] == Text("IOC"))
  {
    hide Print, Parse, Canonical, Decimal;
    if operation == Unreviewed { return Raised; }
    var body := message;
    for i := 0 to |NUMERIC|
      invariant body.Keys == message.Keys
      invariant forall f :: f in NUMERIC[..i] ==> Sendable(message, f)
      invariant forall f :: f in message ==> body[f] == if f in NUMERIC[..i] then Text(Print(message[f].units)) else message[f]
    {
      var f := NUMERIC[i];
      assert NUMERIC[..i + 1] == NUMERIC[..i] + [f] && f in NUMERIC;
      assert f !in NUMERIC[..i];
      if f !in message { continue; }
      if !Sendable(message, f) { return Raised; }
      body := body[f := Text(Print(message[f].units))];
    }
    assert NUMERIC[..|NUMERIC|] == NUMERIC;
    AllPrinted(message);
    if operation.LimitOrder? { body := body[TIME_IN_FORCE := Text("IOC")]; }
    return Done(body[SIGNATURE := Text(signature)]);
  }

  lemma AllPrinted(message: map<Field, Value>)
    ensures forall f :: f in message && message[f].Units? && message[f].units >= 0 ==>
      Canonical(Print(message[f].units)) && Parse(Print(message[f].units)) == Some(Decimal(message[f].units))
  {
    hide Print, Parse, Canonical, Decimal;
    forall f | f in message && message[f].Units? && message[f].units >= 0
      ensures Canonical(Print(message[f].units)) && Parse(Print(message[f].units)) == Some(Decimal(message[f].units))
    {
      PrintRoundTrips(message[f].units);
    }
  }
}
