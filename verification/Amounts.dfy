/** Exact real quantities and prices with the tolerances the engine compares them under. */
module Amounts {
  import opened Outcomes

  const REL_TOL := 0.000000001
  const ABS_TOL := 0.000000000001

  function Max(a: real, b: real): real {
    if a < b then b else a
  }

  function Min(a: real, b: real): real {
    if a < b then a else b
  }

  function Magnitude(a: real): real {
    if a < 0.0 then -a else a
  }

  /** `math.isclose` with the engine's relative tolerance. */
  predicate Close(a: real, b: real, abs: real) {
    Magnitude(a - b) <= Max(REL_TOL * Max(Magnitude(a), Magnitude(b)), abs)
  }

  /** Two amounts are close when they differ by no more than a billionth of either of them, or by the absolute slack. */
  lemma CloseMeans(a: real, b: real, abs: real)
    requires a >= 0.0 && b >= 0.0 && abs >= 0.0
    ensures Close(a, b, abs) <==>
      var distance := if a < b then b - a else a - b;
      1000000000.0 * distance <= a || 1000000000.0 * distance <= b || distance <= abs
  {
  }

  /** The slack is the larger of a trillionth and a billionth of the amount. */
  lemma ToleranceMeans(x: real, d: real)
    ensures d <= Tolerance(x) <==> 1000000000000.0 * d <= 1.0 || 1000000000.0 * d <= x
  {
  }

  /** The slack allowed around a quantity or price of size `x`. */
  function Tolerance(x: real): (t: real)
    ensures t > 0.0
  {
    Max(ABS_TOL, x * REL_TOL)
  }

  /** A numeric field of a venue record before it is checked. */
  datatype Num = Missing | Malformed | Number(value: real)

  /** A field that must be present, finite and non-negative. */
  function Required(n: Num): (r: Outcome<real>)
    ensures r.Done? ==> n == Number(r.value) && r.value >= 0.0
  {
    if n.Number? && n.value >= 0.0 then Done(n.value) else Raised
  }

  /** A field whose absence reads as zero. */
  function Defaulted(n: Num): (r: Outcome<real>)
    ensures r.Done? ==> r.value >= 0.0
  {
    if n.Missing? then Done(0.0) else Required(n)
  }

  function Positive(n: Num): (r: Outcome<real>)
    ensures r.Done? ==> n == Number(r.value) && r.value > 0.0
  {
    var x :- Defaulted(n);
    if x > 0.0 then Done(x) else Raised
  }

  function PositiveOptional(n: Num): (r: Outcome<Option<real>>)
    ensures r.Done? && r.value.Some? ==> n == Number(r.value.value) && r.value.value > 0.0
  {
    var x :- Defaulted(n);
    Done(if x > 0.0 then Some(x) else None)
  }
}
