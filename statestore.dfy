/**
 * The state manager's in-memory bookkeeping: the bounded fill log, the running maker volume
 * and the wholesale updates of positions and rebates. Writing and reading the state file is
 * not modelled; `BotState.to_dict` / `from_dict` are in `Models`.
 */
module StateStore {
  import opened Rounding
  import opened IsoTime
  import opened Models

  /** `record_fill` on a state: append, keep the newest 1000, and count maker notional. */
  function StateAfterFill(s: BotState, fill: Fill): BotState
  {
    s.(fills := LastN(s.fills + [fill], MaxSavedFills),
       totalMakerVolume := s.totalMakerVolume + (if fill.maker then Notional(fill) else 0.0))
  }

  /** The log never grows past 1000 fills, and the new fill is always its last entry. */
  lemma FillLogBounded(s: BotState, fill: Fill)
    ensures |StateAfterFill(s, fill).fills| <= MaxSavedFills
    ensures |s.fills| < MaxSavedFills ==> StateAfterFill(s, fill).fills == s.fills + [fill]
    ensures |s.fills| >= MaxSavedFills ==> |StateAfterFill(s, fill).fills| == MaxSavedFills
    ensures StateAfterFill(s, fill).fills[|StateAfterFill(s, fill).fills| - 1] == fill
  {
  }

  /** Only the oldest fills are dropped: what is kept is the newest part of the log, in order. */
  lemma FillLogKeepsNewest(s: BotState, fill: Fill)
    ensures exists k :: 0 <= k <= |s.fills| && StateAfterFill(s, fill).fills == s.fills[k..] + [fill]
  {
    var all := s.fills + [fill];
    var r := StateAfterFill(s, fill).fills;
    var k := |all| - |r|;
    assert r == all[k..];
    assert all[k..] == s.fills[k..] + [fill];
  }

  /** Maker volume grows by the fill's notional exactly when the fill was a maker fill. */
  lemma FillVolume(s: BotState, fill: Fill)
    ensures fill.maker ==> StateAfterFill(s, fill).totalMakerVolume == s.totalMakerVolume + Notional(fill)
    ensures !fill.maker ==> StateAfterFill(s, fill).totalMakerVolume == s.totalMakerVolume
    ensures fill.price >= 0.0 && fill.size >= 0.0 ==> StateAfterFill(s, fill).totalMakerVolume >= s.totalMakerVolume
  {
    if fill.maker && fill.price >= 0.0 && fill.size >= 0.0 {
      MultiplyLe(0.0, fill.price, fill.size);
    }
  }

  /** Recording a fill touches only the log and the maker volume. */
  lemma FillLeavesRest(s: BotState, fill: Fill)
    ensures StateAfterFill(s, fill).positions == s.positions
    ensures StateAfterFill(s, fill).openOrders == s.openOrders
    ensures StateAfterFill(s, fill).totalRebatesEstimate == s.totalRebatesEstimate
    ensures StateAfterFill(s, fill).lastUpdated == s.lastUpdated
  {
  }

  /**
   * A state whose log is within bounds is saved and loaded back with every fill it holds:
   * the truncation in `to_dict` never loses a fill `record_fill` kept.
   */
  lemma {:induction false} SavedLogComplete(s: BotState, fill: Fill, now: DateTime)
    requires |s.fills| <= MaxSavedFills
    ensures BotStateFromJson(BotStateToJson(StateAfterFill(s, fill)), now).Success?
    ensures BotStateFromJson(BotStateToJson(StateAfterFill(s, fill)), now).value.fills == StateAfterFill(s, fill).fills
  {
    var t := StateAfterFill(s, fill);
    FillLogBounded(s, fill);
    BotStateRoundTrip(t, now);
    assert LastN(t.fills, MaxSavedFills) == t.fills;
  }

  class StateManager {
    var state: BotState

    /** `StateManager(config)`: a fresh `BotState()`, stamped with the clock's `now`. */
    constructor(now: DateTime)
      ensures state == NewBotState(now)
    {
      state := NewBotState(now);
    }

    /** `update_positions`: the positions map is replaced wholesale. */
    method UpdatePositions(positions: map<string, MarketPosition>)
      modifies this
      ensures state == old(state).(positions := positions)
    {
      state := state.(positions := positions);
    }

    /** `record_fill` */
    method RecordFill(fill: Fill)
      modifies this
      ensures state == StateAfterFill(old(state), fill)
      ensures |old(state).fills| <= MaxSavedFills ==> |state.fills| <= MaxSavedFills
    {
      var fills := state.fills + [fill];
      if |fills| > MaxSavedFills {
        fills := fills[|fills| - MaxSavedFills..];
      }
      var volume := state.totalMakerVolume;
      if fill.maker {
        volume := volume + Notional(fill);
      }
      state := state.(fills := fills, totalMakerVolume := volume);
      FillLogBounded(old(state), fill);
    }

    /** `update_rebates`: the rebate estimate is overwritten. */
    method UpdateRebates(estimatedRebates: real)
      modifies this
      ensures state == old(state).(totalRebatesEstimate := estimatedRebates)
    {
      state := state.(totalRebatesEstimate := estimatedRebates);
    }

    /** `get_positions` */
    function GetPositions(): (r: map<string, MarketPosition>)
      reads this
      ensures r == state.positions
    {
      state.positions
    }

    /** `get_fills` */
    function GetFills(): (r: seq<Fill>)
      reads this
      ensures r == state.fills
    {
      state.fills
    }

    /** `get_total_maker_volume` */
    function GetTotalMakerVolume(): (r: real)
      reads this
      ensures r == state.totalMakerVolume
    {
      state.totalMakerVolume
    }

    /** `clear_state`, without the backup of the file: a fresh `BotState()`. */
    method ClearState(now: DateTime)
      modifies this
      ensures state == NewBotState(now)
    {
      state := NewBotState(now);
    }
  }
}
