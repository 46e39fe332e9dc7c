/**
 * The breakeven box calculator: the highest bid for one outcome that keeps the average YES
 * cost plus the average NO cost at or below an effective target, the breakeven target minus
 * a safety margin.
 */
module Breakeven {
  import opened Rounding
  import opened Models

  /** `BreakevenCalculator(breakeven_target, safety_margin)`; nothing changes after construction. */
  datatype Calculator = Calculator(breakevenTarget: real, safetyMargin: real)

  /** The calculator with the configured defaults. */
  const DefaultCalculator := Calculator(0.99, 0.005)

  /** `effective_target` */
  function EffectiveTarget(c: Calculator): real
  {
    c.breakevenTarget - c.safetyMargin
  }

  /** The range every positive maximum bid is clamped to. */
  const MinBid := 0.01
  const MaxBid := 0.99

  /** `max(0.01, min(0.99, x))` */
  function ClampBid(x: real): (r: real)
    ensures MinBid <= r <= MaxBid
    ensures MinBid <= x <= MaxBid ==> r == x
    ensures x < MinBid ==> r == MinBid
    ensures x > MaxBid ==> r == MaxBid
  {
    var capped := if MaxBid < x then MaxBid else x;
    if MinBid > capped then MinBid else capped
  }

  /**
   * The price solving `(spend + price * newQty) / (qty + newQty) + avgOther == target`:
   * the bound before clamping.
   */
  function UnclampedBid(target: real, spend: real, qty: real, avgOther: real, newQty: real): real
    requires newQty != 0.0
  {
    ((target - avgOther) * (qty + newQty) - spend) / newQty
  }

  /**
   * `_calc_max_yes_bid` (and, with the other leg's figures, `_calc_max_no_bid`): 0.0 when
   * the other leg's average already uses up the target, otherwise the clamped bound.
   */
  function MaxLegBid(c: Calculator, spend: real, qty: real, avgOther: real, newQty: real): (r: real)
    requires EffectiveTarget(c) - avgOther > 0.0 ==> newQty != 0.0
    ensures EffectiveTarget(c) - avgOther <= 0.0 ==> r == 0.0
    ensures EffectiveTarget(c) - avgOther > 0.0 ==>
      r == ClampBid(UnclampedBid(EffectiveTarget(c), spend, qty, avgOther, newQty))
  {
    var maxAvg := EffectiveTarget(c) - avgOther;
    if maxAvg <= 0.0 then 0.0
    else
      var newTotalQty := qty + newQty;
      var maxTotalSpend := maxAvg * newTotalQty;
      var maxNewSpend := maxTotalSpend - spend;
      assert maxNewSpend / newQty == UnclampedBid(EffectiveTarget(c), spend, qty, avgOther, newQty);
      ClampBid(maxNewSpend / newQty)
  }

  /** `calculate_max_bid`: 0.0 for a quantity that is not positive, else the bid leg's bound. */
  function CalculateMaxBid(
    c: Calculator, outcome: Outcome,
    spendYes: real, qtyYes: real, avgNo: real,
    spendNo: real, qtyNo: real, avgYes: real,
    newQty: real): (r: real)
    ensures newQty <= 0.0 ==> r == 0.0
    ensures r == 0.0 || MinBid <= r <= MaxBid
    ensures newQty > 0.0 && outcome == Yes ==> r == MaxLegBid(c, spendYes, qtyYes, avgNo, newQty)
    ensures newQty > 0.0 && outcome == No ==> r == MaxLegBid(c, spendNo, qtyNo, avgYes, newQty)
  {
    if newQty <= 0.0 then 0.0
    else if outcome == Yes then MaxLegBid(c, spendYes, qtyYes, avgNo, newQty)
    else MaxLegBid(c, spendNo, qtyNo, avgYes, newQty)
  }

  /** The NO bound is the YES bound with the two legs' figures exchanged. */
  lemma MaxBidSymmetric(
    c: Calculator, spendYes: real, qtyYes: real, avgNo: real,
    spendNo: real, qtyNo: real, avgYes: real, newQty: real)
    ensures CalculateMaxBid(c, No, spendYes, qtyYes, avgNo, spendNo, qtyNo, avgYes, newQty)
         == CalculateMaxBid(c, Yes, spendNo, qtyNo, avgYes, spendYes, qtyYes, avgNo, newQty)
  {
  }

  /** The leg's new average after buying `newQty` more at `price`. */
  function NewAverage(spend: real, qty: real, price: real, newQty: real): real
    requires qty + newQty != 0.0
  {
    (spend + price * newQty) / (qty + newQty)
  }

  /** `x <= u` scaled up by a positive factor and back. */
  lemma ScaleLe(x: real, u: real, n: real)
    requires n > 0.0
    ensures x <= u <==> x * n <= u * n
  {
    if x <= u {
      MultiplyLe(x, u, n);
    } else {
      MultiplyLe(u, x, n);
      assert u * n != x * n;
    }
  }

  lemma DivideLeIff(a: real, b: real, q: real)
    requires q > 0.0
    ensures a / q <= b <==> a <= b * q
  {
    ScaleLe(a / q, b, q);
  }

  /**
   * The algebra behind the bound, in both directions: with positive quantities, a price is at
   * most the unclamped bound exactly when buying at it keeps the new average plus the other
   * leg at or below the target.
   */
  lemma UnclampedBidExact(target: real, spend: real, qty: real, avgOther: real, newQty: real, p: real)
    requires newQty > 0.0 && qty + newQty > 0.0
    ensures p <= UnclampedBid(target, spend, qty, avgOther, newQty)
        <==> NewAverage(spend, qty, p, newQty) + avgOther <= target
  {
    var m, q := target - avgOther, qty + newQty;
    var u := UnclampedBid(target, spend, qty, avgOther, newQty);
    assert u == (m * q - spend) / newQty;
    ScaleLe(p, u, newQty);
    assert u * newQty == m * q - spend;
    DivideLeIff(spend + p * newQty, m, q);
  }

  /**
   * Soundness of the maximum bid: when the unclamped bound is at least the 0.01 floor, every
   * price at or below the returned bid keeps the projected box at or below the effective target.
   */
  lemma {:induction false} MaxBidSound(c: Calculator, spend: real, qty: real, avgOther: real, newQty: real, p: real)
    requires newQty > 0.0 && qty + newQty > 0.0
    requires EffectiveTarget(c) - avgOther > 0.0
    requires UnclampedBid(EffectiveTarget(c), spend, qty, avgOther, newQty) >= MinBid
    requires p <= MaxLegBid(c, spend, qty, avgOther, newQty)
    ensures NewAverage(spend, qty, p, newQty) + avgOther <= EffectiveTarget(c)
  {
    UnclampedBidExact(EffectiveTarget(c), spend, qty, avgOther, newQty, p);
  }

  /**
   * When no clamp applies, the returned bid is exactly the highest safe price: a price is
   * safe if and only if it does not exceed the bid.
   */
  lemma {:induction false} MaxBidTight(c: Calculator, spend: real, qty: real, avgOther: real, newQty: real, p: real)
    requires newQty > 0.0 && qty + newQty > 0.0
    requires EffectiveTarget(c) - avgOther > 0.0
    requires MinBid <= UnclampedBid(EffectiveTarget(c), spend, qty, avgOther, newQty) <= MaxBid
    ensures p <= MaxLegBid(c, spend, qty, avgOther, newQty)
        <==> NewAverage(spend, qty, p, newQty) + avgOther <= EffectiveTarget(c)
  {
    UnclampedBidExact(EffectiveTarget(c), spend, qty, avgOther, newQty, p);
  }

  /** Why the floor is a premise: below it, bidding the returned 0.01 breaks the target. */
  lemma {:induction false} MinBidFloorUnsafe(c: Calculator, spend: real, qty: real, avgOther: real, newQty: real)
    requires newQty > 0.0 && qty + newQty > 0.0
    requires EffectiveTarget(c) - avgOther > 0.0
    requires UnclampedBid(EffectiveTarget(c), spend, qty, avgOther, newQty) < MinBid
    ensures MaxLegBid(c, spend, qty, avgOther, newQty) == MinBid
    ensures NewAverage(spend, qty, MinBid, newQty) + avgOther > EffectiveTarget(c)
  {
    UnclampedBidExact(EffectiveTarget(c), spend, qty, avgOther, newQty, MinBid);
  }

  /** `is_bid_valid`: the bid does not exceed `calculate_max_bid` on the same figures. */
  predicate IsBidValid(
    c: Calculator, outcome: Outcome, bidPrice: real, newQty: real,
    spendYes: real, qtyYes: real, avgNo: real,
    spendNo: real, qtyNo: real, avgYes: real)
  {
    bidPrice <= CalculateMaxBid(c, outcome, spendYes, qtyYes, avgNo, spendNo, qtyNo, avgYes, newQty)
  }

  /** A bid for a non-positive quantity is valid exactly when its price is not positive. */
  lemma IsBidValidNoQuantity(
    c: Calculator, outcome: Outcome, bidPrice: real, newQty: real,
    spendYes: real, qtyYes: real, avgNo: real, spendNo: real, qtyNo: real, avgYes: real)
    requires newQty <= 0.0
    ensures IsBidValid(c, outcome, bidPrice, newQty, spendYes, qtyYes, avgNo, spendNo, qtyNo, avgYes)
        <==> bidPrice <= 0.0
  {
  }

  /** `calculate_projected_box_cost`: the box cost after a fill on the bid leg. */
  function ProjectedBoxCost(
    outcome: Outcome, bidPrice: real, newQty: real,
    spendYes: real, qtyYes: real, spendNo: real, qtyNo: real): real
  {
    if outcome == Yes then
      var newSpendYes := spendYes + bidPrice * newQty;
      var newQtyYes := qtyYes + newQty;
      var newAvgYes := if newQtyYes > 0.0 then newSpendYes / newQtyYes else 0.0;
      var newAvgNo := if qtyNo > 0.0 then spendNo / qtyNo else 0.0;
      newAvgYes + newAvgNo
    else
      var newSpendNo := spendNo + bidPrice * newQty;
      var newQtyNo := qtyNo + newQty;
      var newAvgNo := if newQtyNo > 0.0 then newSpendNo / newQtyNo else 0.0;
      var newAvgYes := if qtyYes > 0.0 then spendYes / qtyYes else 0.0;
      newAvgYes + newAvgNo
  }

  /** The projection is the box cost of the market position after `add_fill` on the bid leg. */
  lemma ProjectedBoxCostIsBoxCost(m: MarketPosition, outcome: Outcome, bidPrice: real, newQty: real)
    ensures ProjectedBoxCost(outcome, bidPrice, newQty, m.yes.totalCost, m.yes.quantity, m.no.totalCost, m.no.quantity)
         == BoxCost(if outcome == Yes then m.(yes := AddFill(m.yes, newQty, bidPrice))
                    else m.(no := AddFill(m.no, newQty, bidPrice)))
  {
  }

  /**
   * Validity and projection agree: a bid that `is_bid_valid` accepts, priced from a market's
   * own average costs, keeps the projected box at or below the effective target (as long as
   * the 0.01 floor did not raise the bound).
   */
  lemma {:induction false} ValidBidKeepsBox(c: Calculator, m: MarketPosition, outcome: Outcome, bidPrice: real, newQty: real)
    requires newQty > 0.0 && m.yes.quantity >= 0.0 && m.no.quantity >= 0.0
    requires IsBidValid(c, outcome, bidPrice, newQty,
      m.yes.totalCost, m.yes.quantity, AvgCost(m.no), m.no.totalCost, m.no.quantity, AvgCost(m.yes))
    requires var own, other := (if outcome == Yes then m.yes else m.no), (if outcome == Yes then m.no else m.yes);
      EffectiveTarget(c) - AvgCost(other) > 0.0
      && UnclampedBid(EffectiveTarget(c), own.totalCost, own.quantity, AvgCost(other), newQty) >= MinBid
    ensures ProjectedBoxCost(outcome, bidPrice, newQty, m.yes.totalCost, m.yes.quantity, m.no.totalCost, m.no.quantity)
         <= EffectiveTarget(c)
  {
    if outcome == Yes {
      MaxBidSound(c, m.yes.totalCost, m.yes.quantity, AvgCost(m.no), newQty, bidPrice);
    } else {
      MaxBidSound(c, m.no.totalCost, m.no.quantity, AvgCost(m.yes), newQty, bidPrice);
    }
  }

  /** `get_profit_margin`: what a box returns at resolution, per YES/NO share pair. */
  function ProfitMargin(avgYes: real, avgNo: real): real
  {
    1.0 - (avgYes + avgNo)
  }

  /** A box is profitable exactly when it costs less than the $1 it pays out, and keeping it
   * at the effective target leaves at least one minus that target as margin. */
  lemma ProfitMarginSign(c: Calculator, avgYes: real, avgNo: real)
    ensures ProfitMargin(avgYes, avgNo) > 0.0 <==> avgYes + avgNo < 1.0
    ensures avgYes + avgNo <= EffectiveTarget(c) ==> ProfitMargin(avgYes, avgNo) >= 1.0 - EffectiveTarget(c)
  {
  }

  /** The values the calculator's tests pin, at the default target 0.99 and margin 0.005. */
  lemma DefaultCalculatorExamples()
    ensures EffectiveTarget(DefaultCalculator) == 0.985
    ensures CalculateMaxBid(DefaultCalculator, Yes, 0.0, 0.0, 0.0, 0.0, 0.0, 0.0, 10.0) == 0.985
    ensures CalculateMaxBid(DefaultCalculator, Yes, 0.0, 0.0, 0.5, 0.0, 0.0, 0.0, 10.0) == 0.485
    ensures CalculateMaxBid(DefaultCalculator, No, 0.0, 0.0, 0.0, 0.0, 0.0, 0.45, 10.0) == 0.535
    ensures CalculateMaxBid(DefaultCalculator, Yes, 4.0, 10.0, 0.5, 0.0, 0.0, 0.4, 5.0) == 0.655
    ensures CalculateMaxBid(DefaultCalculator, Yes, 0.0, 0.0, 0.99, 0.0, 0.0, 0.0, 10.0) == 0.0
    ensures CalculateMaxBid(DefaultCalculator, Yes, 0.0, 0.0, 0.0, 0.0, 0.0, 0.0, 0.0) == 0.0
    ensures IsBidValid(DefaultCalculator, Yes, 0.40, 10.0, 0.0, 0.0, 0.5, 0.0, 0.0, 0.0)
    ensures !IsBidValid(DefaultCalculator, Yes, 0.60, 10.0, 0.0, 0.0, 0.5, 0.0, 0.0, 0.0)
    ensures ProjectedBoxCost(Yes, 0.40, 10.0, 0.0, 0.0, 5.0, 10.0) == 0.9
    ensures ProfitMargin(0.4, 0.5) == 0.1 && ProfitMargin(0.5, 0.5) == 0.0 && ProfitMargin(0.6, 0.5) == -0.1
  {
  }
}
