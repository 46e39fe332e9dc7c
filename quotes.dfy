/**
 * The quote generator, which prices one passive bid per outcome from the best bid, the
 * inventory skew and the breakeven bound, and the batch builder that collects quotes for
 * one bulk submission.
 */
module Quotes {
  import opened Wrappers
  import opened Rounding
  import opened Models
  import opened Settings
  import opened Inventory

  lemma ReciprocalThreshold(a: real, b: real, t: real)
    requires a > 0.0 && b > 0.0 && t > 0.0
    ensures b / a > t <==> a / b < 1.0 / t
  {
    assert b / a > t <==> b > t * a;
    assert a / b < 1.0 / t <==> a * t < b by {
      assert a / b * (b * t) == a * t;
      assert 1.0 / t * (b * t) == b;
      assert b * t > 0.0;
    }
  }

  lemma OneNotBelowReciprocal(t: real)
    requires t >= 1.0
    ensures !(1.0 < 1.0 / t)
  {
  }

  /**
   * `_get_skew_adjustments`: move YES back and NO up when the ratio exceeds the threshold,
   * the other way when it is below the threshold's reciprocal, and stay put otherwise.
   */
  function SkewAdjustments(threshold: real, ratio: Ratio): (r: (int, int))
    requires threshold == 0.0 ==> Greater(ratio, threshold)
    ensures r.1 == -r.0 && -1 <= r.0 <= 1
    ensures r.0 < 0 <==> Greater(ratio, threshold)
    ensures r.0 > 0 <==> !Greater(ratio, threshold) && Less(ratio, 1.0 / threshold)
  {
    if Greater(ratio, threshold) then (-1, 1)
    else if Less(ratio, 1.0 / threshold) then (1, -1)
    else (0, 0)
  }

  /**
   * The inventory tracker's direction agrees with the generator's adjustments computed from
   * the same market's quantities, for a positive threshold and quantities that are not
   * negative, unknown markets included.
   */
  lemma {:induction false} TrackerMatchesGenerator(t: InventoryTracker, conditionId: string)
    requires t.skewThreshold > 0.0
    requires conditionId in t.positions ==>
      t.positions[conditionId].yes.quantity >= 0.0 && t.positions[conditionId].no.quantity >= 0.0
    ensures t.GetAdjustmentDirection(conditionId)
         == SkewAdjustments(t.skewThreshold, QuantityRatio(t.GetYesQuantity(conditionId), t.GetNoQuantity(conditionId)))
  {
    var th := t.skewThreshold;
    if conditionId in t.positions {
      var m := t.positions[conditionId];
      var a, b := m.yes.quantity, m.no.quantity;
      if a > 0.0 && b > 0.0 {
        ReciprocalThreshold(a, b, th);
      } else if a == 0.0 && b > 0.0 {
        assert QuantityRatio(a, b) == Finite(0.0);
        assert 0.0 < 1.0 / th;
      } else if b == 0.0 && a <= 0.0 {
        if th >= 1.0 {
          OneNotBelowReciprocal(th);
        }
      }
    } else if th >= 1.0 {
      OneNotBelowReciprocal(th);
    }
  }

  /**
   * The price aimed at before snapping: the best bid itself for a positive adjustment, one
   * tick behind it for none, and one more tick behind per unit of negative adjustment.
   */
  function TargetPrice(bestBid: real, tick: real, adjustment: int): (r: real)
    ensures adjustment > 0 ==> r == bestBid
    ensures adjustment <= 0 ==> r == bestBid - (1 - adjustment) as real * tick
  {
    var basePrice := bestBid - tick;
    if adjustment > 0 then bestBid
    else if adjustment < 0 then basePrice + adjustment as real * tick
    else basePrice
  }

  /** The target snapped to the tick grid, snapped breakeven bound instead if it is higher. */
  function QuotePrice(tick: real, bestBid: real, adjustment: int, maxPrice: real): (r: real)
    requires tick != 0.0
    ensures RoundToTick(r, tick) == r
  {
    var target := TargetPrice(bestBid, tick, adjustment);
    var snapped := RoundToTick(target, tick);
    if snapped > maxPrice then
      RoundToTickIdempotent(maxPrice, tick);
      RoundToTick(maxPrice, tick)
    else
      RoundToTickIdempotent(target, tick);
      snapped
  }

  /** `_generate_single_quote` */
  function GenerateSingleQuote(
    cfg: TradingConfig, tokenId: string, outcome: Outcome,
    book: Option<OrderBook>, adjustment: int, maxPrice: real): (r: Option<Quote>)
    requires cfg.tickSize != 0.0
    ensures book.None? || BestBid(book.value).None? ==> r.None?
    ensures book.Some? && BestBid(book.value).Some? ==>
      var qp := QuotePrice(cfg.tickSize, BestBid(book.value).value, adjustment, maxPrice);
      && (r.Some? <==> cfg.minPrice <= qp <= cfg.maxPrice && qp > 0.0)
      && (r.Some? ==> r.value == Quote(tokenId, outcome, Buy, Round4(qp), cfg.baseQuoteSize, None))
  {
    if book.None? then None
    else
      var bestBid := BestBid(book.value);
      if bestBid.None? then None
      else
        var quotePrice := QuotePrice(cfg.tickSize, bestBid.value, adjustment, maxPrice);
        if quotePrice < cfg.minPrice || quotePrice > cfg.maxPrice then None
        else if quotePrice <= 0.0 then None
        else Some(Quote(tokenId, outcome, Buy, Round4(quotePrice), cfg.baseQuoteSize, None))
  }

  lemma TargetNotAboveBestBid(bestBid: real, tick: real, adjustment: int)
    requires tick > 0.0
    ensures TargetPrice(bestBid, tick, adjustment) <= bestBid
  {
    if adjustment <= 0 {
      assert (1 - adjustment) as real >= 1.0;
      MultiplyLe(0.0, (1 - adjustment) as real, tick);
    }
  }

  /**
   * The quote is passive: with a positive tick and a best bid on the tick grid, the price
   * never exceeds the best bid, whatever the adjustment and the breakeven bound.
   */
  lemma {:induction false} QuoteNotAboveBestBid(tick: real, k: int, adjustment: int, maxPrice: real)
    requires tick > 0.0
    ensures QuotePrice(tick, k as real * tick, adjustment, maxPrice) <= k as real * tick
  {
    var bestBid := k as real * tick;
    var target := TargetPrice(bestBid, tick, adjustment);
    TargetNotAboveBestBid(bestBid, tick, adjustment);
    RoundToTickMonotone(target, bestBid, tick);
    RoundToTickOnGrid(k, tick);
    var n := RoundHalfEven(target / tick);
    var snapped := RoundToTick(target, tick);
    assert snapped == n as real * tick;
    if snapped > maxPrice {
      RoundToTickMonotone(maxPrice, snapped, tick);
      RoundToTickOnGrid(n, tick);
    }
  }

  /**
   * The breakeven clamp snaps the bound to the grid, so the price can pass the bound, but by
   * at most half a tick.
   */
  lemma QuoteNearBreakevenBound(tick: real, bestBid: real, adjustment: int, maxPrice: real)
    requires tick > 0.0
    ensures var qp := QuotePrice(tick, bestBid, adjustment, maxPrice);
      qp <= maxPrice || qp == RoundToTick(maxPrice, tick)
    ensures QuotePrice(tick, bestBid, adjustment, maxPrice) <= maxPrice + tick / 2.0
  {
    RoundToTickError(maxPrice, tick);
  }

  /**
   * A returned quote's stored price, rounded to four decimals, stays inside the configured
   * range when the range's ends have at most four decimals, and so is positive for a positive
   * lower end.
   */
  lemma {:induction false} QuotePriceInRange(
    cfg: TradingConfig, tokenId: string, outcome: Outcome,
    book: Option<OrderBook>, adjustment: int, maxPrice: real, lo: int, hi: int)
    requires cfg.tickSize != 0.0
    requires cfg.minPrice == lo as real / 10000.0 && cfg.maxPrice == hi as real / 10000.0
    requires GenerateSingleQuote(cfg, tokenId, outcome, book, adjustment, maxPrice).Some?
    ensures var q := GenerateSingleQuote(cfg, tokenId, outcome, book, adjustment, maxPrice).value;
      cfg.minPrice <= q.price <= cfg.maxPrice && q.side == Buy && q.size == cfg.baseQuoteSize
  {
    var qp := QuotePrice(cfg.tickSize, BestBid(book.value).value, adjustment, maxPrice);
    RoundAtMonotone(cfg.minPrice, qp, 10000.0);
    RoundAtMonotone(qp, cfg.maxPrice, 10000.0);
    RoundAtExact(lo, 10000.0);
    RoundAtExact(hi, 10000.0);
  }

  /** A quote, or none, as a list of at most one. */
  function OptionToSeq(q: Option<Quote>): (r: seq<Quote>)
    ensures |r| <= 1
    ensures q.Some? ==> r == [q.value]
    ensures q.None? ==> r == []
  {
    if q.Some? then [q.value] else []
  }

  /** `generate_quotes`: the YES quote, if any, followed by the NO quote, if any. */
  function GenerateQuotes(
    cfg: TradingConfig, conditionId: string, yesTokenId: string, noTokenId: string,
    yesBook: Option<OrderBook>, noBook: Option<OrderBook>,
    yesQty: real, noQty: real, maxYesBid: real, maxNoBid: real): (r: seq<Quote>)
    requires cfg.tickSize != 0.0
    requires cfg.skewThreshold == 0.0 ==> Greater(QuantityRatio(yesQty, noQty), cfg.skewThreshold)
    ensures |r| <= 2
    ensures forall i :: 0 <= i < |r| ==> r[i].side == Buy && r[i].size == cfg.baseQuoteSize && !IsActive(r[i])
    ensures forall i :: 0 <= i < |r| ==> (r[i].outcome == Yes <==> r[i].tokenId == yesTokenId) || yesTokenId == noTokenId
    ensures |r| == 2 ==> r[0].outcome == Yes && r[1].outcome == No
    ensures var adjustments := SkewAdjustments(cfg.skewThreshold, QuantityRatio(yesQty, noQty));
      r == OptionToSeq(GenerateSingleQuote(cfg, yesTokenId, Yes, yesBook, adjustments.0, maxYesBid))
         + OptionToSeq(GenerateSingleQuote(cfg, noTokenId, No, noBook, adjustments.1, maxNoBid))
  {
    var adjustments := SkewAdjustments(cfg.skewThreshold, QuantityRatio(yesQty, noQty));
    var yesQuote := GenerateSingleQuote(cfg, yesTokenId, Yes, yesBook, adjustments.0, maxYesBid);
    var noQuote := GenerateSingleQuote(cfg, noTokenId, No, noBook, adjustments.1, maxNoBid);
    OptionToSeq(yesQuote) + OptionToSeq(noQuote)
  }

  /** The smallest size worth quoting after a resize. */
  const MinViableSize := 0.1

  /**
   * `adjust_size_for_position_limit`: no quote once the limit is reached, the quote as it is
   * when it fits, and otherwise the quote resized to the remaining capacity at two decimals,
   * or none when that is below the minimum viable size.
   */
  function AdjustSizeForPositionLimit(q: Quote, currentPositionValue: real, maxPosition: real): (r: Option<Quote>)
    ensures maxPosition - currentPositionValue <= 0.0 ==> r.None?
    ensures r.Some? ==> r.value == q.(size := r.value.size)
    ensures maxPosition - currentPositionValue > 0.0 && q.price * q.size <= maxPosition - currentPositionValue ==> r == Some(q)
    ensures var remaining := maxPosition - currentPositionValue;
      remaining > 0.0 && q.price * q.size > remaining ==>
        q.price != 0.0
        && (r.Some? <==> Round2(remaining / q.price) >= MinViableSize)
        && (r.Some? ==> r.value.size == Round2(remaining / q.price))
  {
    var remainingCapacity := maxPosition - currentPositionValue;
    if remainingCapacity <= 0.0 then None
    else
      var quoteValue := q.price * q.size;
      if quoteValue > remainingCapacity then
        var newSize := Round2(remainingCapacity / q.price);
        if newSize < MinViableSize then None
        else Some(q.(size := newSize))
      else Some(q)
  }

  /**
   * A resized quote at a positive price fits the remaining capacity up to the two-decimal
   * rounding of its size (half a cent of shares), and is never larger than the quote was by
   * more than that rounding.
   */
  lemma ResizedQuoteFits(q: Quote, currentPositionValue: real, maxPosition: real)
    requires q.price > 0.0
    requires AdjustSizeForPositionLimit(q, currentPositionValue, maxPosition).Some?
    ensures var r := AdjustSizeForPositionLimit(q, currentPositionValue, maxPosition).value;
      var remaining := maxPosition - currentPositionValue;
      && q.price * r.size <= remaining + q.price * 0.005
      && r.size <= q.size + 0.005
      && (r.size == q.size || r.size >= MinViableSize)
  {
    ResizedQuoteWithinCapacity(q, currentPositionValue, maxPosition);
    ResizedQuoteNotLarger(q, currentPositionValue, maxPosition);
  }

  lemma ResizedQuoteWithinCapacity(q: Quote, currentPositionValue: real, maxPosition: real)
    requires q.price > 0.0
    requires AdjustSizeForPositionLimit(q, currentPositionValue, maxPosition).Some?
    ensures q.price * AdjustSizeForPositionLimit(q, currentPositionValue, maxPosition).value.size
      <= maxPosition - currentPositionValue + q.price * 0.005
  {
    var remaining := maxPosition - currentPositionValue;
    var r := AdjustSizeForPositionLimit(q, currentPositionValue, maxPosition).value;
    if q.price * q.size > remaining {
      assert r.size == Round2(remaining / q.price);
      ResizeBound(q.price, q.size, remaining, r.size);
    }
  }

  lemma ResizedQuoteNotLarger(q: Quote, currentPositionValue: real, maxPosition: real)
    requires q.price > 0.0
    requires AdjustSizeForPositionLimit(q, currentPositionValue, maxPosition).Some?
    ensures var r := AdjustSizeForPositionLimit(q, currentPositionValue, maxPosition).value;
      r.size <= q.size + 0.005 && (r.size == q.size || r.size >= MinViableSize)
  {
    var remaining := maxPosition - currentPositionValue;
    var r := AdjustSizeForPositionLimit(q, currentPositionValue, maxPosition).value;
    if q.price * q.size > remaining {
      assert r.size == Round2(remaining / q.price);
      ResizeBound(q.price, q.size, remaining, r.size);
    }
  }

  lemma ResizeBound(price: real, size: real, remaining: real, newSize: real)
    requires price > 0.0 && price * size > remaining
    requires newSize == Round2(remaining / price)
    ensures price * newSize <= remaining + price * 0.005
    ensures newSize <= size + 0.005
  {
    RoundAtError(remaining / price, 100.0);
    var x := remaining / price;
    MultiplyLe(newSize, x + 0.005, price);
    assert x * price == remaining;
    assert x < size by {
      if x >= size {
        MultiplyLe(size, x, price);
      }
    }
  }

  /** `BatchQuoteBuilder`: a buffer of at most `max_batch_size` quotes. */
  class BatchQuoteBuilder {
    var quotes: seq<Quote>
    const maxBatchSize: int

    /** `BatchQuoteBuilder(max_batch_size)`: empty. */
    constructor(maxBatchSize: int)
      ensures this.maxBatchSize == maxBatchSize && quotes == []
    {
      this.maxBatchSize := maxBatchSize;
      quotes := [];
    }

    /** How many of `n` offered quotes fit in the buffer now. */
    function Room(n: nat): (k: nat)
      reads this
      ensures k <= n
      ensures |quotes| + k <= maxBatchSize || k == 0
      ensures k < n ==> |quotes| + k >= maxBatchSize
    {
      if maxBatchSize - |quotes| <= 0 then 0
      else if maxBatchSize - |quotes| >= n then n
      else maxBatchSize - |quotes|
    }

    /** `add_quotes`: the earliest offered quotes, in order, until the buffer is full. */
    method AddQuotes(qs: seq<Quote>)
      modifies this
      ensures quotes == old(quotes) + qs[..old(Room(|qs|))]
      ensures |quotes| <= maxBatchSize || quotes == old(quotes)
      ensures old(|quotes|) + |qs| >= maxBatchSize ==> IsFull()
    {
      ghost var room := Room(|qs|);
      ghost var start := quotes;
      for i := 0 to |qs|
        invariant i <= room ==> quotes == start + qs[..i]
        invariant i > room ==> quotes == start + qs[..room]
      {
        if |quotes| < maxBatchSize {
          quotes := quotes + [qs[i]];
        }
      }
    }

    /** `build`: hands over the buffered quotes and starts a new, empty batch. */
    method Build() returns (batch: seq<Quote>)
      modifies this
      ensures batch == old(quotes) && quotes == []
    {
      batch := quotes;
      quotes := [];
    }

    /** `is_full` */
    predicate IsFull()
      reads this
    {
      |quotes| >= maxBatchSize
    }

    /** `is_empty` */
    predicate IsEmpty()
      reads this
    {
      |quotes| == 0
    }

    /** `size` */
    function Size(): (n: nat)
      reads this
      ensures n == |quotes|
    {
      |quotes|
    }

    /** The buffer can be full and empty at once only when the limit is not positive. */
    lemma FullAndEmpty()
      ensures IsFull() && IsEmpty() <==> quotes == [] && maxBatchSize <= 0
    {
    }
  }
}
