/** The least tradeable quantity at a price, and why one accepted quantity is right at every price in between. */
module MinimumQuantity {
  import opened Outcomes
  import opened Amounts

  datatype Side = LONG | SHORT

  /** The venue's rule for one instrument; every field is positive where it is used. */
  datatype Rule = Rule(
    lotSize: real,
    multiplier: real,
    priceIncrement: real,
    quantityIncrement: real,
    minQuantity: real,
    maxQuantity: real,
    minVolume: real,
    minPrice: real,
    maxPrice: real)

  predicate PositiveRule(r: Rule) {
    && r.lotSize > 0.0 && r.multiplier > 0.0 && r.priceIncrement > 0.0 && r.quantityIncrement > 0.0
    && r.minQuantity > 0.0 && r.maxQuantity > 0.0 && r.minVolume > 0.0 && r.minPrice > 0.0 && r.maxPrice > 0.0
  }

  function Ceiling(x: real): (n: int)
    ensures x <= n as real < x + 1.0
  {
    -((-x).Floor)
  }

  predicate Quantized(x: real, increment: real)
    requires increment > 0.0
  {
    (x / increment).Floor as real == x / increment
  }

  /** The smallest multiple of the increment whose value at this price reaches the minimum volume. */
  function VolumeQuantity(r: Rule, price: real): real
    requires PositiveRule(r) && price > 0.0
  {
    Ceiling(r.minVolume / price / r.quantityIncrement) as real * r.quantityIncrement
  }

  /** `max(min_quantity, ceil(min_volume / price / increment) * increment)`. */
  function EffectiveMinimum(r: Rule, price: real): real
    requires PositiveRule(r) && price > 0.0
  {
    Max(r.minQuantity, VolumeQuantity(r, price))
  }

  predicate MeetsMinima(r: Rule, price: real, quantity: real) {
    quantity >= r.minQuantity && quantity * price >= r.minVolume
  }

  lemma DivideMultiply(x: real, y: real)
    requires y > 0.0
    ensures x / y * y == x
  {
  }

  lemma MultiplyMonotone(a: real, b: real, c: real)
    requires a <= b && c > 0.0
    ensures a * c <= b * c
  {
  }

  /** A multiple reaches the minimum volume exactly when it reaches the volume quantity. */
  lemma VolumeThreshold(r: Rule, price: real, n: int)
    requires PositiveRule(r) && price > 0.0
    ensures n as real * r.quantityIncrement * price >= r.minVolume <==> n as real * r.quantityIncrement >= VolumeQuantity(r, price)
  {
    var step := r.quantityIncrement;
    var need := r.minVolume / price / step;
    DivideMultiply(r.minVolume, price);
    DivideMultiply(r.minVolume / price, step);
    assert need * step * price == r.minVolume;
    if n as real >= need {
      MultiplyMonotone(need, n as real, step);
      MultiplyMonotone(need * step, n as real * step, price);
      assert n >= Ceiling(need);
      MultiplyMonotone(Ceiling(need) as real, n as real, step);
    } else {
      assert n + 1 <= Ceiling(need);
      MultiplyMonotone(n as real + 1.0, Ceiling(need) as real, step);
      assert (n as real + 1.0) * step == n as real * step + step;
      StrictProduct(n as real, need, step);
      StrictProduct(n as real * step, need * step, price);
    }
  }

  lemma StrictProduct(a: real, b: real, c: real)
    requires a < b && c > 0.0
    ensures a * c < b * c
  {
  }

  function Multiple(n: int, step: real): real {
    n as real * step
  }

  lemma QuantizedMultiple(x: real, step: real)
    requires step > 0.0
    ensures Quantized(x, step) <==> exists n: int :: x == Multiple(n, step)
  {
    if Quantized(x, step) {
      DivideMultiply(x, step);
      assert x == Multiple((x / step).Floor, step);
    }
    if exists n: int :: x == Multiple(n, step) {
      var n: int :| x == Multiple(n, step);
      assert x / step == n as real;
    }
  }

  /** The effective minimum is a multiple of the increment, meets both minima, and no smaller multiple does. */
  lemma EffectiveMinimumIsLeast(r: Rule, price: real, quantity: real)
    requires PositiveRule(r) && price > 0.0 && Quantized(r.minQuantity, r.quantityIncrement)
    ensures Quantized(EffectiveMinimum(r, price), r.quantityIncrement) && MeetsMinima(r, price, EffectiveMinimum(r, price))
    ensures Quantized(quantity, r.quantityIncrement) ==>
      (MeetsMinima(r, price, quantity) <==> quantity >= EffectiveMinimum(r, price))
  {
    hide Quantized, VolumeQuantity, MeetsMinima;
    VolumeIsMultiple(r, price);
    QuantizedMultiple(VolumeQuantity(r, price), r.quantityIncrement);
    MultipleMeets(r, price, EffectiveMinimum(r, price));
    if Quantized(quantity, r.quantityIncrement) {
      MultipleMeets(r, price, quantity);
    }
  }

  /** A multiple meets both minima exactly when it reaches both thresholds. */
  lemma MultipleMeets(r: Rule, price: real, quantity: real)
    requires PositiveRule(r) && price > 0.0 && Quantized(quantity, r.quantityIncrement)
    ensures MeetsMinima(r, price, quantity) <==> quantity >= r.minQuantity && quantity >= VolumeQuantity(r, price)
  {
    hide Quantized, VolumeQuantity;
    QuantizedMultiple(quantity, r.quantityIncrement);
    var n: int :| quantity == Multiple(n, r.quantityIncrement);
    VolumeThreshold(r, price, n);
  }

  lemma VolumeIsMultiple(r: Rule, price: real)
    requires PositiveRule(r) && price > 0.0
    ensures exists n: int :: VolumeQuantity(r, price) == Multiple(n, r.quantityIncrement)
  {
    var n := Ceiling(r.minVolume / price / r.quantityIncrement);
    assert VolumeQuantity(r, price) == Multiple(n, r.quantityIncrement);
  }

  /** A higher price never needs a larger quantity. */
  lemma MinimumFallsWithPrice(r: Rule, low: real, high: real)
    requires PositiveRule(r) && 0.0 < low <= high
    ensures EffectiveMinimum(r, high) <= EffectiveMinimum(r, low)
  {
    var step := r.quantityIncrement;
    QuotientFalls(r.minVolume, low, high);
    QuotientRises(r.minVolume / high, r.minVolume / low, step);
    assert Ceiling(r.minVolume / high / step) <= Ceiling(r.minVolume / low / step);
    MultiplyMonotone(Ceiling(r.minVolume / high / step) as real, Ceiling(r.minVolume / low / step) as real, step);
  }

  lemma QuotientFalls(v: real, low: real, high: real)
    requires v > 0.0 && 0.0 < low <= high
    ensures v / high <= v / low
  {
  }

  lemma QuotientRises(a: real, b: real, c: real)
    requires a <= b && c > 0.0
    ensures a / c <= b / c
  {
  }

  // --------------------------------------------------------- the two checks

  datatype Level = Level(price: real, quantity: real)

  predicate PositiveLevels(levels: seq<Level>) {
    levels != [] && forall l :: l in levels ==> l.price > 0.0 && l.quantity > 0.0
  }

  function Lowest(levels: seq<Level>): (p: real)
    requires levels != []
    ensures (exists l :: l in levels && l.price == p) && forall l :: l in levels ==> p <= l.price
  {
    if |levels| == 1 then levels[0].price
    else
      assert levels == [levels[0]] + levels[1..];
      Min(Lowest(levels[1..]), levels[0].price)
  }

  function Highest(levels: seq<Level>): (p: real)
    requires levels != []
    ensures (exists l :: l in levels && l.price == p) && forall l :: l in levels ==> l.price <= p
  {
    if |levels| == 1 then levels[0].price
    else
      assert levels == [levels[0]] + levels[1..];
      Max(Highest(levels[1..]), levels[0].price)
  }

  /** The value that can trade at the cap or better. */
  function Depth(levels: seq<Level>, side: Side, cap: real): real {
    if levels == [] then 0.0
    else
      (if (if side == LONG then levels[0].price <= cap else levels[0].price >= cap)
       then levels[0].price * levels[0].quantity else 0.0) + Depth(levels[1..], side, cap)
  }

  /** The level trades at the cap or better. */
  predicate AtCap(l: Level, side: Side, cap: real) {
    (side == LONG && l.price <= cap) || (side == SHORT && cap <= l.price)
  }

  /** The depth is the sum of the values of the levels that trade at the cap or better: nothing else adds to it. */
  lemma {:induction false} DepthAdds(a: seq<Level>, b: seq<Level>, side: Side, cap: real)
    ensures Depth(a + b, side, cap) == Depth(a, side, cap) + Depth(b, side, cap)
    ensures forall l: Level :: Depth([l], side, cap) == if AtCap(l, side, cap) then l.price * l.quantity else 0.0
    ensures Depth([], side, cap) == 0.0
  {
    if a == [] {
      assert a + b == b;
    } else {
      assert (a + b)[0] == a[0] && (a + b)[1..] == a[1..] + b;
      DepthAdds(a[1..], b, side, cap);
    }
  }

  /** A worse cap never finds less depth. */
  lemma {:induction false} DepthGrows(levels: seq<Level>, side: Side, cap: real, worse: real)
    requires forall l :: l in levels ==> l.price > 0.0 && l.quantity > 0.0
    requires if side == LONG then cap <= worse else worse <= cap
    ensures 0.0 <= Depth(levels, side, cap) <= Depth(levels, side, worse)
  {
    if levels != [] {
      ProductPositive(levels[0].price, levels[0].quantity);
      DepthGrows(levels[1..], side, cap, worse);
    }
  }

  lemma DepthFirst(levels: seq<Level>, side: Side, cap: real)
    requires levels != []
    ensures Depth(levels, side, cap)
         == (if AtCap(levels[0], side, cap) then levels[0].price * levels[0].quantity else 0.0) + Depth(levels[1..], side, cap)
  {
  }

  /** There is depth at the cap exactly when some level trades there. */
  lemma {:induction false} DepthIsMarketable(levels: seq<Level>, side: Side, cap: real)
    requires forall l :: l in levels ==> l.price > 0.0 && l.quantity > 0.0
    ensures Depth(levels, side, cap) > 0.0 <==> exists l :: l in levels && AtCap(l, side, cap)
  {
    if levels != [] {
      var first := levels[0];
      assert levels == [first] + levels[1..];
      ProductPositive(first.price, first.quantity);
      DepthGrows(levels[1..], side, cap, cap);
      DepthIsMarketable(levels[1..], side, cap);
      DepthFirst(levels, side, cap);
      hide Depth;
    }
  }

  lemma ProductPositive(a: real, b: real)
    requires a > 0.0 && b > 0.0
    ensures a * b > 0.0
  {
  }

  predicate PriceAdmits(r: Rule, p: real)
    requires PositiveRule(r)
  {
    r.minPrice <= p <= r.maxPrice && Quantized(p, r.priceIncrement)
  }

  /** The instrument rule admits the decision's quantity, cap, stop and target. */
  predicate RuleAdmits(r: Rule, quantity: real, cap: real, stop: real, target: real) {
    && PositiveRule(r) && r.lotSize == 1.0 && r.multiplier == 1.0
    && r.minPrice < r.maxPrice && r.minQuantity <= r.maxQuantity
    && Quantized(r.minPrice, r.priceIncrement) && Quantized(r.maxPrice, r.priceIncrement)
    && PriceAdmits(r, cap) && PriceAdmits(r, stop) && PriceAdmits(r, target)
    && Quantized(r.minQuantity, r.quantityIncrement)
    && quantity == EffectiveMinimum(r, cap) && Quantized(quantity, r.quantityIncrement)
    && quantity <= r.maxQuantity
  }

  function Marketable(asks: seq<Level>, bids: seq<Level>, side: Side): real
    requires asks != [] && bids != []
  {
    if side == LONG then Lowest(asks) else Highest(bids)
  }

  /** The live book admits the decision: marketable at the cap, deep enough, and the same minimum applies. */
  predicate BookAdmits(r: Rule, asks: seq<Level>, bids: seq<Level>, side: Side, cap: real, quantity: real, required: real) {
    && PositiveRule(r) && PositiveLevels(asks) && PositiveLevels(bids)
    && Highest(bids) < Lowest(asks)
    && (if side == LONG then Lowest(asks) <= cap else cap <= Highest(bids))
    && Depth(if side == LONG then asks else bids, side, cap) >= required
    && quantity == EffectiveMinimum(r, Marketable(asks, bids, side))
  }

  /** A quantity admitted by both checks is the least tradeable quantity at every price between the live price and
      the cap, whatever price in that range the order fills at. */
  lemma AdmittedAtEveryPriceBetween(r: Rule, asks: seq<Level>, bids: seq<Level>, side: Side, cap: real, stop: real,
                                    target: real, quantity: real, required: real, price: real, other: real)
    requires RuleAdmits(r, quantity, cap, stop, target) && BookAdmits(r, asks, bids, side, cap, quantity, required)
    requires Min(cap, Marketable(asks, bids, side)) <= price <= Max(cap, Marketable(asks, bids, side))
    ensures price > 0.0 && quantity == EffectiveMinimum(r, price)
    ensures MeetsMinima(r, price, quantity) && quantity <= r.maxQuantity
    ensures Quantized(other, r.quantityIncrement) && other < quantity ==> !MeetsMinima(r, price, other)
  {
    hide EffectiveMinimum, Quantized, MeetsMinima;
    var live := Marketable(asks, bids, side);
    MinimumFallsWithPrice(r, Min(cap, live), price);
    MinimumFallsWithPrice(r, price, Max(cap, live));
    EffectiveMinimumIsLeast(r, price, quantity);
    EffectiveMinimumIsLeast(r, price, other);
  }
}
