/** The loss a staged exit is budgeted for, and what it bounds. */
module ExitRisk {
  import opened Outcomes
  import opened Amounts
  import opened Decimals

  datatype Side = BUY | SELL
  datatype Role = STOP_LOSS | TAKE_PROFIT | TIMEOUT_EXIT | EMERGENCY_EXIT

  /** The verified price facts of one exit; `side` is the side of the open position. */
  datatype Evidence = Evidence(
    side: Side,
    positionEntry: real,
    reference: real,
    executable: real,
    feeRate: real,
    slippageRate: real)

  predicate Verified(e: Evidence) {
    && e.positionEntry > 0.0 && e.reference > 0.0 && e.executable > 0.0
    && 0.0 <= e.feeRate < 1.0 && 0.0 <= e.slippageRate < 1.0
  }

  /** What the effect and the approved decision contribute. */
  datatype Exit = Exit(role: Role, approvedQuantity: real, approvedEntry: real, closeQuantity: real, trigger: real)

  /** The quantity budgeted: the whole approval for a protection, the close's own otherwise. */
  function BudgetedQuantity(x: Exit): Outcome<int> {
    ExactUnits(if x.role in {STOP_LOSS, TAKE_PROFIT} then x.approvedQuantity else x.closeQuantity)
  }

  function ChosenEntry(e: Evidence, x: Exit): real {
    if e.side == BUY then Max(e.positionEntry, x.approvedEntry) else Min(e.positionEntry, x.approvedEntry)
  }

  function BaseExit(e: Evidence, x: Exit): real {
    if x.role != STOP_LOSS then e.executable
    else if e.side == BUY then Min(x.trigger, e.executable) else Max(x.trigger, e.executable)
  }

  function AdverseFill(e: Evidence, x: Exit): real {
    var base := BaseExit(e, x);
    if e.side == BUY then base - base * e.slippageRate else base + base * e.slippageRate
  }

  /** `_worst_case_loss`. */
  function WorstCaseLoss(e: Evidence, x: Exit): Outcome<real> {
    var units :- BudgetedQuantity(x);
    if (if e.side == BUY then e.executable > e.reference else e.executable < e.reference) then Raised
    else
      var entry, fill := ChosenEntry(e, x), AdverseFill(e, x);
      var loss := Max(if e.side == BUY then entry - fill else fill - entry, 0.0);
      Done(Decimal(units) * (loss + fill * e.feeRate))
  }

  /** What really is lost by closing `quantity` entered at `entry` and filled at `fill`: price loss plus exit fee. */
  function RealLoss(side: Side, quantity: real, entry: real, fill: real, feeRate: real): real {
    quantity * (if side == BUY then entry - fill else fill - entry) + quantity * (fill * feeRate)
  }

  predicate NoWorseEntry(side: Side, entry: real, chosen: real) {
    if side == BUY then entry <= chosen else entry >= chosen
  }

  predicate NoWorseFill(side: Side, fill: real, adverse: real) {
    if side == BUY then fill >= adverse else fill <= adverse
  }

  lemma Product(a: real, b: real, c: real)
    requires a <= b && c >= 0.0
    ensures a * c <= b * c && c * a <= c * b
  {
  }

  /** Of a larger amount, a rate below one leaves more. */
  lemma KeptMore(a: real, b: real, rate: real)
    requires a <= b && rate < 1.0
    ensures a - a * rate <= b - b * rate
  {
    var keep := 1.0 - rate;
    Product(a, b, keep);
    var p, q := a * keep, b * keep;
    assert p <= q;
    assert p == a - a * rate;
    assert q == b - b * rate;
  }

  /** Loss and fee of one unit are bounded by those of one budgeted unit; for a long exit this needs a fee below one. */
  lemma UnitLossBounded(side: Side, entry: real, fill: real, chosen: real, adverse: real, feeRate: real)
    requires 0.0 <= feeRate < 1.0 && NoWorseEntry(side, entry, chosen) && NoWorseFill(side, fill, adverse)
    ensures (if side == BUY then entry - fill else fill - entry) + fill * feeRate
         <= Max(if side == BUY then chosen - adverse else adverse - chosen, 0.0) + adverse * feeRate
  {
    var paid, budgeted := fill * feeRate, adverse * feeRate;
    if side == BUY {
      KeptMore(adverse, fill, feeRate);
      assert adverse - budgeted <= fill - paid;
    } else {
      Product(fill, adverse, feeRate);
      assert paid <= budgeted;
    }
  }

  // ------------------------------------------- outcomes the evidence allows

  /** The quantity the exit may close: all that was approved under a protection, what was asked of a close. */
  function ClosableQuantity(x: Exit): real {
    if x.role in {STOP_LOSS, TAKE_PROFIT} then x.approvedQuantity else x.closeQuantity
  }

  /** The position was really entered no worse than on record, or no worse than the decision approved. */
  predicate PlausibleEntry(e: Evidence, x: Exit, entry: real) {
    match e.side
    case BUY => entry <= e.positionEntry || entry <= x.approvedEntry
    case SELL => entry >= e.positionEntry || entry >= x.approvedEntry
  }

  /** The fill is no worse than `price` after the verified slippage. */
  predicate SlippedFrom(e: Evidence, price: real, fill: real) {
    match e.side
    case BUY => fill >= price - price * e.slippageRate
    case SELL => fill <= price + price * e.slippageRate
  }

  /** An exit fills at the executable quote or, if it is a stop, at its trigger, each with slippage. */
  predicate PlausibleFill(e: Evidence, x: Exit, fill: real) {
    SlippedFrom(e, e.executable, fill) || (x.role == STOP_LOSS && SlippedFrom(e, x.trigger, fill))
  }

  predicate NoProfit(side: Side, entry: real, fill: real) {
    match side
    case BUY => fill <= entry
    case SELL => fill >= entry
  }

  /** The exit can be budgeted exactly when its quantity is a positive whole number of units and the executable bound
      is on the closing side's conservative side of the reference. */
  lemma BudgetedExactly(e: Evidence, x: Exit)
    ensures WorstCaseLoss(e, x).Done? <==>
      && (exists units: int :: units > 0 && ClosableQuantity(x) == Decimal(units))
      && match e.side { case BUY => e.executable <= e.reference case SELL => e.executable >= e.reference }
    ensures WorstCaseLoss(e, x).Done? ==> Decimal(BudgetedQuantity(x).value) == ClosableQuantity(x) > 0.0
  {
    ExactUnitsMeaning(ClosableQuantity(x));
    hide ExactUnits;
    assert BudgetedQuantity(x) == ExactUnits(ClosableQuantity(x));
  }

  function Slipped(e: Evidence, price: real): real {
    if e.side == BUY then price - price * e.slippageRate else price + price * e.slippageRate
  }

  lemma SlippageKeepsOrder(e: Evidence, a: real, b: real)
    requires Verified(e) && a <= b
    ensures Slipped(e, a) <= Slipped(e, b)
  {
    KeptMore(a, b, e.slippageRate);
    Product(a, b, e.slippageRate);
  }

  /** The chosen entry and the adverse fill are the worst that the evidence allows, and are themselves allowed. */
  lemma ChosenIsWorst(e: Evidence, x: Exit, entry: real, fill: real)
    requires Verified(e)
    ensures PlausibleEntry(e, x, entry) <==> NoWorseEntry(e.side, entry, ChosenEntry(e, x))
    ensures PlausibleFill(e, x, fill) <==> NoWorseFill(e.side, fill, AdverseFill(e, x))
  {
    assert AdverseFill(e, x) == Slipped(e, BaseExit(e, x));
    assert forall price :: SlippedFrom(e, price, fill) <==> NoWorseFill(e.side, fill, Slipped(e, price));
    SlippageKeepsOrder(e, Min(x.trigger, e.executable), Max(x.trigger, e.executable));
    hide Slipped, SlippedFrom, AdverseFill;
  }

  /** The budget bounds the real loss of every outcome the evidence allows: any part of the closable quantity, an entry
      no worse than one of the two on record, a fill no worse than one of the prices the exit may fill at. */
  lemma BudgetBoundsRealLoss(e: Evidence, x: Exit, quantity: real, entry: real, fill: real)
    requires Verified(e) && x.trigger > 0.0 && WorstCaseLoss(e, x).Done?
    requires 0.0 <= quantity <= ClosableQuantity(x) && PlausibleEntry(e, x, entry) && PlausibleFill(e, x, fill)
    ensures RealLoss(e.side, quantity, entry, fill, e.feeRate) <= WorstCaseLoss(e, x).value
  {
    BudgetedExactly(e, x);
    ChosenIsWorst(e, x, entry, fill);
    AdverseFillPositive(e, x);
    hide AdverseFill, BaseExit, ChosenEntry, BudgetedQuantity, Decimal, ExactUnits, PlausibleFill, PlausibleEntry, RealLoss;
    LossWithin(e.side, quantity, ClosableQuantity(x), entry, fill, ChosenEntry(e, x), AdverseFill(e, x), e.feeRate);
  }

  /** The same over bare amounts. */
  lemma LossWithin(side: Side, quantity: real, budget: real, entry: real, fill: real, chosen: real, adverse: real,
                   feeRate: real)
    requires 0.0 <= quantity <= budget && 0.0 <= feeRate < 1.0 && adverse > 0.0
    requires NoWorseEntry(side, entry, chosen) && NoWorseFill(side, fill, adverse)
    ensures RealLoss(side, quantity, entry, fill, feeRate)
         <= budget * (Max(if side == BUY then chosen - adverse else adverse - chosen, 0.0) + adverse * feeRate)
  {
    var price := if side == BUY then entry - fill else fill - entry;
    var paid := fill * feeRate;
    var bound := Max(if side == BUY then chosen - adverse else adverse - chosen, 0.0) + adverse * feeRate;
    UnitLossBounded(side, entry, fill, chosen, adverse, feeRate);
    NotNegative(adverse, feeRate);
    hide NoWorseEntry, NoWorseFill;
    BoundedProduct(quantity, budget, price + paid, bound);
    Distributes(quantity, price, paid);
  }

  /** Closing everything as the evidence allows costs the whole budget in some outcome exactly when some outcome is no
      profit: nothing is budgeted that could not be lost. */
  lemma BudgetIsAttained(e: Evidence, x: Exit)
    requires Verified(e) && x.trigger > 0.0 && WorstCaseLoss(e, x).Done?
    ensures
      (exists entry, fill :: PlausibleEntry(e, x, entry) && PlausibleFill(e, x, fill)
         && RealLoss(e.side, ClosableQuantity(x), entry, fill, e.feeRate) == WorstCaseLoss(e, x).value)
      <==>
      (exists entry, fill :: PlausibleEntry(e, x, entry) && PlausibleFill(e, x, fill) && NoProfit(e.side, entry, fill))
  {
    BudgetedExactly(e, x);
    hide BudgetedQuantity, Decimal, ExactUnits, PlausibleFill, PlausibleEntry, ChosenEntry, AdverseFill, BaseExit, ClosableQuantity;
    var chosen, adverse := ChosenEntry(e, x), AdverseFill(e, x);
    ChosenIsWorst(e, x, chosen, adverse);
    if NoProfit(e.side, chosen, adverse) {
      Distributes(ClosableQuantity(x), if e.side == BUY then chosen - adverse else adverse - chosen, adverse * e.feeRate);
    } else {
      forall entry, fill | PlausibleEntry(e, x, entry) && PlausibleFill(e, x, fill)
        ensures !NoProfit(e.side, entry, fill)
        ensures RealLoss(e.side, ClosableQuantity(x), entry, fill, e.feeRate) < WorstCaseLoss(e, x).value
      {
        ChosenIsWorst(e, x, entry, fill);
        ProfitStaysBelow(e, x, entry, fill);
      }
    }
  }

  /** Where the worst outcome is a profit, every outcome stays strictly below the budget. */
  lemma ProfitStaysBelow(e: Evidence, x: Exit, entry: real, fill: real)
    requires Verified(e) && x.trigger > 0.0 && WorstCaseLoss(e, x).Done?
    requires NoWorseEntry(e.side, entry, ChosenEntry(e, x)) && NoWorseFill(e.side, fill, AdverseFill(e, x))
    requires !NoProfit(e.side, ChosenEntry(e, x), AdverseFill(e, x))
    ensures RealLoss(e.side, ClosableQuantity(x), entry, fill, e.feeRate) < WorstCaseLoss(e, x).value
  {
    BudgetedExactly(e, x);
    hide BudgetedQuantity, Decimal, ExactUnits, ChosenEntry, AdverseFill, BaseExit, ClosableQuantity;
    var adverse := AdverseFill(e, x);
    var q, price, paid := ClosableQuantity(x), if e.side == BUY then entry - fill else fill - entry, fill * e.feeRate;
    Distributes(q, price, paid);
    if e.side == BUY {
      KeptMore(adverse, fill, e.feeRate);
    } else {
      Product(fill, adverse, e.feeRate);
    }
    assert price + paid < adverse * e.feeRate;
    StrictProduct(price + paid, adverse * e.feeRate, q);
  }

  lemma NotNegative(a: real, b: real)
    requires a >= 0.0 && b >= 0.0
    ensures a * b >= 0.0
  {
  }

  lemma StrictProduct(a: real, b: real, c: real)
    requires a < b && c > 0.0
    ensures c * a < c * b
  {
  }

  lemma BoundedProduct(q: real, budget: real, unit: real, bound: real)
    requires 0.0 <= q <= budget && unit <= bound && bound >= 0.0
    ensures q * unit <= budget * bound
  {
  }

  lemma Distributes(q: real, a: real, b: real)
    ensures q * a + q * b == q * (a + b)
  {
  }

  lemma AdverseFillPositive(e: Evidence, x: Exit)
    requires Verified(e) && x.trigger > 0.0
    ensures AdverseFill(e, x) > 0.0
  {
    var base := BaseExit(e, x);
    assert base > 0.0;
    if e.side == BUY {
      Strict(base, 1.0 - e.slippageRate);
      assert base * (1.0 - e.slippageRate) == base - base * e.slippageRate;
    } else {
      Product(0.0, base, e.slippageRate);
    }
  }

  lemma Strict(a: real, b: real)
    requires a > 0.0 && b > 0.0
    ensures a * b > 0.0
  {
  }

  /** A protection is budgeted for the whole approval, so any later partial fill stays inside the envelope. */
  lemma ProtectionBudgetsTheApproval(e: Evidence, x: Exit)
    requires x.role in {STOP_LOSS, TAKE_PROFIT} && WorstCaseLoss(e, x).Done?
    ensures Decimal(BudgetedQuantity(x).value) == x.approvedQuantity > 0.0
  {
    BudgetedExactly(e, x);
  }

  const PROFIT := Evidence(BUY, 100.0, 200.0, 200.0, 0.5, 0.0)
  const CLOSING := Exit(TIMEOUT_EXIT, 1.0, 100.0, 1.0, 1.0)

  /** More slippage does not always mean a larger budget: on a profitable long exit it only lowers the fee. */
  lemma SlippageIsNotMonotone()
    ensures WorstCaseLoss(PROFIT, CLOSING) == Done(100.0)
    ensures WorstCaseLoss(PROFIT.(slippageRate := 0.25), CLOSING) == Done(75.0)
  {
  }

}
