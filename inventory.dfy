/**
 * The inventory tracker: the bot's positions by market condition id, updated by its own buy
 * fills, and the skew classification that steers the quotes.
 */
module Inventory {
  import opened Wrappers
  import opened Models
  import opened MapSums
  import opened IsoTime

  /** What recording `fill` does to the positions: a buy adds to the fill's leg of its market. */
  function PositionsAfterFill(ps: map<string, MarketPosition>, conditionId: string, fill: Fill): map<string, MarketPosition>
  {
    if conditionId !in ps || fill.side != Buy then ps
    else
      var m := ps[conditionId];
      if fill.outcome == Yes then ps[conditionId := m.(yes := AddFill(m.yes, fill.size, fill.price))]
      else ps[conditionId := m.(no := AddFill(m.no, fill.size, fill.price))]
  }

  /** A fill for an unknown market, or a sell, leaves every position as it was. */
  lemma FillIgnored(ps: map<string, MarketPosition>, conditionId: string, fill: Fill)
    requires conditionId !in ps || fill.side == Sell
    ensures PositionsAfterFill(ps, conditionId, fill) == ps
  {
  }

  /**
   * A buy fill for a known market adds its size and cost to its own leg only: the other leg,
   * the market's id and every other market are unchanged.
   */
  lemma FillRecorded(ps: map<string, MarketPosition>, conditionId: string, fill: Fill)
    requires conditionId in ps && fill.side == Buy
    ensures var after := PositionsAfterFill(ps, conditionId, fill);
      var m, n := ps[conditionId], after[conditionId];
      && after.Keys == ps.Keys
      && (forall c :: c in ps && c != conditionId ==> after[c] == ps[c])
      && n.conditionId == m.conditionId
      && (fill.outcome == Yes ==> n.yes == AddFill(m.yes, fill.size, fill.price) && n.no == m.no)
      && (fill.outcome == No ==> n.no == AddFill(m.no, fill.size, fill.price) && n.yes == m.yes)
  {
  }

  /** Total spend across all markets. */
  ghost function AllSpent(ps: map<string, MarketPosition>): real
  {
    SumValues(ps, TotalSpent)
  }

  /** A recorded buy raises the total spend across all markets by the fill's notional. */
  lemma FillRaisesAllSpent(ps: map<string, MarketPosition>, conditionId: string, fill: Fill)
    requires conditionId in ps && fill.side == Buy
    ensures AllSpent(PositionsAfterFill(ps, conditionId, fill)) == AllSpent(ps) + Notional(fill)
  {
    var m := ps[conditionId];
    var n := PositionsAfterFill(ps, conditionId, fill)[conditionId];
    SumValuesUpdate(ps, TotalSpent, conditionId, n);
    TotalSpentAddFill(m, fill.size, fill.price);
  }

  /**
   * `_log_skew` computes `1 / skew_threshold` unless the ratio already exceeds the threshold,
   * so a threshold of 0 raises ZeroDivisionError for every ratio that is not above 0.
   */
  predicate SkewLogRaises(m: MarketPosition, threshold: real)
  {
    threshold == 0.0 && !Greater(SkewRatio(m), threshold)
  }

  /**
   * Without negative holdings, the logging raises exactly when the threshold is 0 and only
   * NO shares are held: a first NO buy on a fresh market is such a case.
   */
  lemma SkewLogRaisesExactly(m: MarketPosition, threshold: real)
    requires m.yes.quantity >= 0.0 && m.no.quantity >= 0.0
    ensures SkewLogRaises(m, threshold) <==> threshold == 0.0 && m.yes.quantity == 0.0 && m.no.quantity > 0.0
  {
    var y, n := m.yes.quantity, m.no.quantity;
    if n > 0.0 {
      var r := SkewRatio(m).value;
      assert r * n == y;
    }
  }

  class InventoryTracker {
    var positions: map<string, MarketPosition>
    const skewThreshold: real

    /** `InventoryTracker(skew_threshold)`: no markets yet. */
    constructor(skewThreshold: real)
      ensures this.positions == map[] && this.skewThreshold == skewThreshold
    {
      this.positions := map[];
      this.skewThreshold := skewThreshold;
    }

    /** `get_or_create_position`: an empty position is inserted only for a new id. */
    method GetOrCreatePosition(conditionId: string, yesTokenId: string, noTokenId: string) returns (m: MarketPosition)
      modifies this
      ensures conditionId in old(positions) ==> positions == old(positions) && m == positions[conditionId]
      ensures conditionId !in old(positions) ==>
        m == EmptyMarketPosition(conditionId, yesTokenId, noTokenId)
        && positions == old(positions)[conditionId := m]
      ensures m.conditionId == conditionId || conditionId in old(positions)
    {
      if conditionId !in positions {
        positions := positions[conditionId := EmptyMarketPosition(conditionId, yesTokenId, noTokenId)];
      }
      m := positions[conditionId];
    }

    /** `get_position` */
    function GetPosition(conditionId: string): (r: Option<MarketPosition>)
      reads this
      ensures r.Some? <==> conditionId in positions
      ensures r.Some? ==> r.value == positions[conditionId]
    {
      if conditionId in positions then Some(positions[conditionId]) else None
    }

    /**
     * `record_fill`. `zeroDivision` reports the ZeroDivisionError that `_log_skew` raises after
     * a recorded fill; the position has been updated by then.
     */
    method RecordFill(conditionId: string, fill: Fill) returns (zeroDivision: bool)
      modifies this
      ensures positions == PositionsAfterFill(old(positions), conditionId, fill)
      ensures zeroDivision <==>
        conditionId in old(positions) && fill.side == Buy && SkewLogRaises(positions[conditionId], skewThreshold)
    {
      zeroDivision := false;
      var position := GetPosition(conditionId);
      if position.None? {
        return;
      }
      if fill.side != Buy {
        return;
      }
      var m := position.value;
      if fill.outcome == Yes {
        positions := positions[conditionId := m.(yes := AddFill(m.yes, fill.size, fill.price))];
      } else {
        positions := positions[conditionId := m.(no := AddFill(m.no, fill.size, fill.price))];
      }
      zeroDivision := SkewLogRaises(positions[conditionId], skewThreshold);
    }

    /** `get_skew_ratio`: 1.0 for a market the tracker does not know. */
    function GetSkewRatio(conditionId: string): (r: Ratio)
      reads this
      ensures conditionId !in positions ==> r == Finite(1.0)
      ensures conditionId in positions ==> r == SkewRatio(positions[conditionId])
    {
      match GetPosition(conditionId)
      case Some(m) => SkewRatio(m)
      case None => Finite(1.0)
    }

    /** `is_yes_heavy`: the YES-per-NO ratio is above the threshold, infinity included. */
    predicate IsYesHeavy(conditionId: string): (b: bool)
      reads this
      ensures conditionId in positions && positions[conditionId].no.quantity == 0.0 && positions[conditionId].yes.quantity > 0.0 ==> b
      ensures conditionId in positions && positions[conditionId].no.quantity > 0.0 ==>
        (b <==> positions[conditionId].yes.quantity > skewThreshold * positions[conditionId].no.quantity)
    {
      Greater(GetSkewRatio(conditionId), skewThreshold)
    }

    /** `is_no_heavy`: never for an unknown market. */
    predicate IsNoHeavy(conditionId: string): (b: bool)
      reads this
      ensures conditionId !in positions ==> !b
      ensures conditionId in positions ==> (b <==> Greater(InverseSkewRatio(positions[conditionId]), skewThreshold))
    {
      match GetPosition(conditionId)
      case Some(m) => Greater(InverseSkewRatio(m), skewThreshold)
      case None => false
    }

    /** `get_adjustment_direction`: (YES ticks, NO ticks). */
    function GetAdjustmentDirection(conditionId: string): (r: (int, int))
      reads this
      ensures r == (-1, 1) <==> IsYesHeavy(conditionId)
      ensures r == (1, -1) <==> !IsYesHeavy(conditionId) && IsNoHeavy(conditionId)
      ensures r == (0, 0) <==> !IsYesHeavy(conditionId) && !IsNoHeavy(conditionId)
    {
      if IsYesHeavy(conditionId) then (-1, 1)
      else if IsNoHeavy(conditionId) then (1, -1)
      else (0, 0)
    }

    /**
     * An unknown market is treated as balanced, 1.0 to 1.0: it is never NO-heavy, and it is
     * YES-heavy only under a threshold below 1.
     */
    lemma UnknownMarketSkew(conditionId: string)
      requires conditionId !in positions
      ensures !IsNoHeavy(conditionId)
      ensures IsYesHeavy(conditionId) <==> skewThreshold < 1.0
      ensures GetAdjustmentDirection(conditionId) == if skewThreshold < 1.0 then (-1, 1) else (0, 0)
    {
    }

    /**
     * With a threshold of at least 1 and no negative holdings, a market is never YES-heavy
     * and NO-heavy at once, so `get_adjustment_direction`'s order of tests does not matter.
     */
    lemma HeavyExclusive(conditionId: string)
      requires skewThreshold >= 1.0
      requires conditionId in positions ==> positions[conditionId].yes.quantity >= 0.0 && positions[conditionId].no.quantity >= 0.0
      ensures !(IsYesHeavy(conditionId) && IsNoHeavy(conditionId))
    {
      if conditionId in positions {
        NotBothHeavy(positions[conditionId], skewThreshold);
      }
    }

    /** `get_yes_quantity`: 0.0 for an unknown market. */
    function GetYesQuantity(conditionId: string): (r: real)
      reads this
      ensures conditionId !in positions ==> r == 0.0
      ensures conditionId in positions ==> r == positions[conditionId].yes.quantity
    {
      match GetPosition(conditionId)
      case Some(m) => m.yes.quantity
      case None => 0.0
    }

    /** `get_no_quantity`: 0.0 for an unknown market. */
    function GetNoQuantity(conditionId: string): (r: real)
      reads this
      ensures conditionId !in positions ==> r == 0.0
      ensures conditionId in positions ==> r == positions[conditionId].no.quantity
    {
      match GetPosition(conditionId)
      case Some(m) => m.no.quantity
      case None => 0.0
    }

    /** `get_yes_avg_cost`: 0.0 for an unknown market. */
    function GetYesAvgCost(conditionId: string): (r: real)
      reads this
      ensures conditionId !in positions ==> r == 0.0
      ensures conditionId in positions ==> r == AvgCost(positions[conditionId].yes)
    {
      match GetPosition(conditionId)
      case Some(m) => AvgCost(m.yes)
      case None => 0.0
    }

    /** `get_no_avg_cost`: 0.0 for an unknown market. */
    function GetNoAvgCost(conditionId: string): (r: real)
      reads this
      ensures conditionId !in positions ==> r == 0.0
      ensures conditionId in positions ==> r == AvgCost(positions[conditionId].no)
    {
      match GetPosition(conditionId)
      case Some(m) => AvgCost(m.no)
      case None => 0.0
    }

    /** `get_box_cost`: 0.0 for an unknown market. */
    function GetBoxCost(conditionId: string): (r: real)
      reads this
      ensures r == GetYesAvgCost(conditionId) + GetNoAvgCost(conditionId)
    {
      match GetPosition(conditionId)
      case Some(m) => BoxCost(m)
      case None => 0.0
    }

    /** `get_total_spent`: 0.0 for an unknown market. */
    function GetTotalSpent(conditionId: string): (r: real)
      reads this
      ensures conditionId !in positions ==> r == 0.0
      ensures conditionId in positions ==>
        r == positions[conditionId].yes.totalCost + positions[conditionId].no.totalCost
    {
      match GetPosition(conditionId)
      case Some(m) => TotalSpent(m)
      case None => 0.0
    }

    /** `get_all_spent`: the markets' spends added up one market at a time. */
    method GetAllSpent() returns (total: real)
      ensures total == AllSpent(positions)
    {
      total := 0.0;
      var rest := positions;
      while rest != map[]
        invariant forall c :: c in rest ==> c in positions && rest[c] == positions[c]
        invariant total + AllSpent(rest) == AllSpent(positions)
        decreases |rest.Keys|
      {
        var c :| c in rest;
        SumValuesRemove(rest, TotalSpent, c);
        total := total + TotalSpent(rest[c]);
        assert (rest - {c}).Keys == rest.Keys - {c};
        rest := rest - {c};
      }
    }

    /** `load_from_positions`: the loaded map replaces the tracked one. */
    method LoadFromPositions(ps: map<string, MarketPosition>)
      modifies this
      ensures positions == ps
    {
      positions := ps;
    }

    /** `export_positions` */
    method ExportPositions() returns (ps: map<string, MarketPosition>)
      ensures ps == positions
    {
      ps := positions;
    }
  }

  /** The tracker's tests: with a 1.2 threshold, 15 YES against 10 NO is YES-heavy. */
  method SkewExample() returns (ratio: Ratio, yesHeavy: bool, noHeavy: bool, direction: (int, int))
    ensures ratio == Finite(1.5) && yesHeavy && !noHeavy && direction == (-1, 1)
  {
    var t := new InventoryTracker(1.2);
    var m := t.GetOrCreatePosition("test_market", "yes_token", "no_token");
    assert t.GetSkewRatio("test_market") == Finite(1.0);
    var raisedYes := t.RecordFill("test_market", Fill("o1", "yes_token", Yes, Buy, 0.40, 15.0, DateTimeFields(DateFields(2024, 1, 1), 0, 0, 0, 0), true));
    var raisedNo := t.RecordFill("test_market", Fill("o2", "no_token", No, Buy, 0.50, 10.0, DateTimeFields(DateFields(2024, 1, 1), 0, 0, 0, 0), true));
    ratio := t.GetSkewRatio("test_market");
    yesHeavy, noHeavy := t.IsYesHeavy("test_market"), t.IsNoHeavy("test_market");
    direction := t.GetAdjustmentDirection("test_market");
  }
}
