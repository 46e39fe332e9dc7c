# Polymarket maker bot: a verified model of its trading core

This project models, in Dafny, the decision and bookkeeping logic of a market-making bot
for Polymarket's binary YES/NO markets. The bot quotes passive bids on both outcomes of a
market. It tries to buy a "box" (one YES share plus one NO share) for less than the 1 USDC
the pair pays out, and it collects maker rebates along the way. Several components are modelled:

- **Value types** (`models.dfy`). A position's running cost basis, a market's two legs with
  their skew ratio, box cost and total spend, an L2 order book with its best prices,
  midpoint, spread and level lookup, quotes, fills, and the persisted bot state.
  Each has its dictionary encoding (`to_dict` / `from_dict`) and round-trip lemmas.
- **Breakeven calculator** (`breakeven.dfy`). The closed-form highest bid that keeps the
  average YES cost plus the average NO cost at or under the effective target. It also
  validates a bid, projects the box cost and computes the profit margin.
- **Inventory tracker** (`inventory.dfy`). A class holding the map from condition id to
  market position. It records buy fills on the right leg and classifies a market as
  YES-heavy or NO-heavy against the skew threshold.
- **Quote generator** (`quotes.dfy`). It prices one passive bid from the best bid, a skew
  adjustment and the breakeven clamp, and trims a quote's size to a position limit. It
  also has the bounded batch builder as a class.
- **Order-book manager** (`orderbooks.dfy`, `levels.dfy`). Books are replaced from
  `book` snapshots and edited by `price_change` messages. The level list is kept sorted:
  bids descending, asks ascending. The file also holds the reconnect back-off step.
- **Rebate tracker** (`rebates.dfy`). Per-day maker volume and estimated rebates, plus
  running totals, with export and load. `mapsums.dfy` sums a map's values for the
  invariant that the totals equal the per-day sums.
- **State manager** (`statestore.dfy`). The bounded fill log (the newest 1000 fills), the
  maker-volume total and the wholesale updates of positions and rebates.
- **Market filter** (`marketfilter.dfy`). The market filter’s constructor normalises the
  targets and builds the asset and timeframe patterns. It decides which markets are
  eligible, filters a market list in order, and normalises the timeframe text a question
  matched.

Support modules:

- `wrappers.dfy`: `Option`, `Result` and the Python exceptions a parse can raise.
- `json.dfy`: dictionaries as JSON-like values, with typed field access.
- `text.dfy`: the string operations Python provides (`upper`, `lower`, `replace`, `join`,
  `endswith`, `re.escape`).
- `rounding.dfy`: `round` with ties to even, on exact reals.
- `isotime.dfy`: `isoformat` / `fromisoformat` for dates and datetimes.
- `mapkeys.dfy`: dictionary comprehensions.
- `settings.dfy`: the configuration defaults the components use.

Prices and sizes are `real`. Ambient time (`datetime.utcnow()`, `date.today()`) is passed in
as a `now` or `today` parameter. The regex engine is a parameter
`search: (Regex, string) -> Option<string>` returning group 1 of the first match, but the
pattern text handed to it is built exactly.

## Model

| member | source | states |
|---|---|---|
| Models.ParseSide | polymarket/models.py:8-12 | a side string decodes only from the enum's value; anything else is a ValueError (Side(...)) |
| Models.ParseSideValue | polymarket/models.py:8-12 | decoding a side's value gives that side back |
| Models.ParseOutcome | polymarket/models.py:14-18 | an outcome string decodes only from the enum's value; anything else is a ValueError |
| Models.ParseOutcomeValue | polymarket/models.py:14-18 | decoding an outcome's value gives that outcome back |
| Models.IsInPriceRange | polymarket/models.py:38-41 | in range only for a non-empty range, and exactly when it holds both the lower and the higher of the two outcome prices |
| Models.MakeLevel | polymarket/models.py:50-52 | an order-book level's price and size are within half a unit of the fourth decimal of the values given |
| Models.MakeLevelExact | polymarket/models.py:50-52 | values that already have four decimals are stored unchanged |
| Models.BestBid | polymarket/models.py:63-66 | present exactly when there are bids, and then the first bid's price |
| Models.BestAsk | polymarket/models.py:68-71 | present exactly when there are asks, and then the first ask's price |
| Models.BestBidSize | polymarket/models.py:73-76 | the first bid's size, 0.0 for an empty side |
| Models.BestAskSize | polymarket/models.py:78-81 | the first ask's size, 0.0 for an empty side |
| Models.MidpointSpreadDefined | polymarket/models.py:83-95 | the midpoint and the spread are defined exactly when both sides are non-empty |
| Models.MidpointSpreadRecover | polymarket/models.py:83-95 | best bid = midpoint − spread/2 and best ask = midpoint + spread/2; an uncrossed book has a non-negative spread and a midpoint between bid and ask |
| Models.GetLevel | polymarket/models.py:97-100 | BUY indexes the bids, SELL the asks; an index inside the list gives that level, one past the end gives None, a negative index counts from the end (Python indexing), and one below −len raises IndexError |
| Models.AvgCost | polymarket/models.py:111-114 | with positive quantity, the average times the quantity is the total cost; otherwise exactly 0.0 |
| Models.AddFill | polymarket/models.py:116-119 | quantity grows by qty, total cost by qty·price; the token and outcome stay |
| Models.AddFillCommutes | polymarket/models.py:116-119 | the order of two fills does not matter |
| Models.AddFillAverageBetween | polymarket/models.py:111-119 | after a buy on a held position the average cost lies between the old average and the fill price |
| Models.AddFillToEmpty | polymarket/models.py:111-119 | the first fill of an empty position sets the average cost to its price |
| Models.PositionFromJson | polymarket/models.py:130-138 | a non-dictionary is a TypeError, a missing token_id a KeyError |
| Models.PositionRoundTrip | polymarket/models.py:121-138 | from_dict(to_dict(p)) reproduces every field of a position |
| Models.QuantityRatio | polymarket/models.py:148-160 | infinite exactly when the divisor is 0 and the dividend positive; 1.0 when both are non-positive with a 0 divisor; otherwise the quotient |
| Models.SkewRatioCases | polymarket/models.py:148-153 | NO quantity 0 with YES > 0 gives infinity, NO 0 with YES ≤ 0 gives 1.0, otherwise yes/no |
| Models.InverseSkewIsMirror | polymarket/models.py:155-160 | the inverse skew ratio is the skew ratio of the market with its legs swapped |
| Models.SkewRatiosReciprocal | polymarket/models.py:148-160 | when both quantities are non-zero, skew ratio × inverse skew ratio = 1 |
| Models.NotBothHeavy | polymarket/inventory_tracker.py:74-84 | with a threshold of at least 1 and no negative holdings, the ratio and the inverse ratio never both exceed it |
| Models.BoxCostOfLegs | polymarket/models.py:162-165 | the box cost is the YES average plus the NO average; a leg with no quantity adds 0; swapping the legs keeps it |
| Models.TotalSpentAddFill | polymarket/models.py:167-170 | a fill on either leg raises the total spent by exactly qty·price |
| Models.MarketPositionFromJson | polymarket/models.py:181-187 | a non-dictionary is a TypeError |
| Models.MarketPositionRoundTrip | polymarket/models.py:172-187 | from_dict(to_dict(m)) reproduces both legs and the ids |
| Models.IsActive | polymarket/models.py:201-202 | a quote is active exactly when it carries an order id; freshly generated quotes never do (see Quotes.GenerateQuotes) |
| Models.OrderArgsDecode | polymarket/models.py:204-211 | the order arguments hold exactly token_id, price, size and side, and decode back to the quote's values |
| Models.NotionalPositive | polymarket/models.py:226-229 | a fill with positive price and size has positive notional |
| Models.ParseTimestamp | polymarket/models.py:254 | a timestamp must be a string, parsed by fromisoformat |
| Models.FillFromJson | polymarket/models.py:244-256 | a non-dictionary is a TypeError |
| Models.FillFieldsDecode | polymarket/models.py:244-256 | a dictionary holding a fill's seven encoded fields decodes to that fill, with maker defaulting to True when absent |
| Models.FillRoundTrip | polymarket/models.py:231-256 | from_dict(to_dict(f)) reproduces every field of a fill |
| Models.DropMakerField | polymarket/models.py:231-242 | the encoding without its maker key is the fill's other seven fields |
| Models.FillMakerDefault | polymarket/models.py:253 | a fill dictionary without maker decodes as a maker fill |
| Models.LastN | polymarket/models.py:274 | `s[-n:]`: the last min(n, len) elements, as a suffix of s |
| Models.FillsToJson | polymarket/models.py:274 | one encoded fill per fill, in order |
| Models.FillsFromJson | polymarket/models.py:286 | succeeds exactly when every entry decodes, keeping order and length |
| Models.PositionsFromJson | polymarket/models.py:284 | succeeds exactly when every value decodes as a market position; the keys are kept |
| Models.PositionsFieldOr | polymarket/models.py:284 | a missing positions key gives an empty map |
| Models.FillsFieldOr | polymarket/models.py:286 | a missing fills key, an empty dictionary or an empty string gives an empty log; a list is decoded entry by entry; any other value fails |
| Models.TimestampFieldOr | polymarket/models.py:289 | a missing last_updated is the current time |
| Models.BotStateFromJson | polymarket/models.py:280-290 | open orders always empty; missing positions, fills and totals become empty or 0.0 and a missing timestamp is now; present totals are the stored numbers and a present timestamp the one parsed |
| Models.PositionsRoundTrip | polymarket/models.py:269-290 | the positions dictionary decodes back to the same map |
| Models.FillsRoundTrip | polymarket/models.py:231-256 | an encoded fill list decodes back to the same list |
| Models.BotStateRoundTrip | polymarket/models.py:269-290 | from_dict(to_dict(s)) gives s with open orders emptied and only the last 1000 fills |
| Models.BotStateFromEmpty | polymarket/models.py:259-290 | an empty dictionary decodes to a fresh BotState |
| Breakeven.ClampBid | polymarket/breakeven_calculator.py:103-104 | the result is in [0.01, 0.99] and equals x when x already is |
| Breakeven.MaxLegBid | polymarket/breakeven_calculator.py:71-151 | 0.0 when the target minus the other leg's average is ≤ 0, else the clamped closed-form bound |
| Breakeven.CalculateMaxBid | polymarket/breakeven_calculator.py:32-69 | 0.0 for a non-positive quantity; always 0.0 or in [0.01, 0.99]; YES uses the YES leg against the NO average and NO the reverse |
| Breakeven.MaxBidSymmetric | polymarket/breakeven_calculator.py:62-151 | the NO bid is the YES bid with the legs' arguments swapped |
| Breakeven.UnclampedBidExact | polymarket/breakeven_calculator.py:79-101 | p ≤ the unclamped bound exactly when the new average plus the other average is ≤ the target |
| Breakeven.MaxBidSound | polymarket/breakeven_calculator.py:79-104 | when the unclamped bound is at least 0.01, any price up to the returned bid keeps the box at or under the effective target |
| Breakeven.MaxBidTight | polymarket/breakeven_calculator.py:79-104 | with the bound inside [0.01, 0.99], a price is at or under the returned bid exactly when it keeps the box within the target |
| Breakeven.MinBidFloorUnsafe | polymarket/breakeven_calculator.py:103-104 | when the bound is below 0.01, the floor 0.01 is returned even though it breaks the target |
| Breakeven.IsBidValidNoQuantity | polymarket/breakeven_calculator.py:168-186 | with no new quantity, a bid is valid exactly when it is ≤ 0 |
| Breakeven.ProjectedBoxCostIsBoxCost | polymarket/breakeven_calculator.py:188-212 | the projected box cost is the box cost of the position after the fill |
| Breakeven.ValidBidKeepsBox | polymarket/breakeven_calculator.py:168-212 | a valid bid with a floor-safe bound keeps the projected box cost at or under the target |
| Breakeven.ProfitMarginSign | polymarket/breakeven_calculator.py:214-226 | the margin is positive exactly when the box costs under 1; a box within the target earns at least 1 − target |
| Breakeven.DefaultCalculatorExamples | polymarket/tests/test_breakeven.py:17-215 | the test file's expected values hold for the default calculator |
| Inventory.FillIgnored | polymarket/inventory_tracker.py:43-50 | a fill for an unknown market or a SELL fill changes nothing |
| Inventory.FillRecorded | polymarket/inventory_tracker.py:52-65 | a BUY fill adds to the leg of its outcome; the other leg and other markets stay |
| Inventory.FillRaisesAllSpent | polymarket/inventory_tracker.py:41-67 | a recorded fill raises the total spent across markets by its notional |
| Inventory.InventoryTracker.constructor | polymarket/inventory_tracker.py:18-20 | no positions, the given threshold |
| Inventory.InventoryTracker.GetOrCreatePosition | polymarket/inventory_tracker.py:22-35 | an existing position is returned unchanged; an absent id gets a zero position inserted |
| Inventory.InventoryTracker.GetPosition | polymarket/inventory_tracker.py:37-39 | the stored position, or None |
| Inventory.InventoryTracker.RecordFill | polymarket/inventory_tracker.py:41-67 | the new positions are the old ones after the fill (see FillIgnored / FillRecorded); ZeroDivisionError is reported exactly when a fill was recorded and the skew logging then divides by a zero threshold |
| Inventory.SkewLogRaisesExactly | polymarket/inventory_tracker.py:135-146 | without negative holdings, the skew logging raises exactly when the threshold is 0 and only NO shares are held |
| Inventory.InventoryTracker.GetSkewRatio | polymarket/inventory_tracker.py:69-72 | 1.0 for an unknown market, else the market's skew ratio |
| Inventory.InventoryTracker.GetAdjustmentDirection | polymarket/inventory_tracker.py:74-99 | (−1, 1) exactly when YES-heavy, (1, −1) exactly when NO-heavy and not YES-heavy, (0, 0) exactly when neither |
| Inventory.InventoryTracker.UnknownMarketSkew | polymarket/inventory_tracker.py:69-84 | an unknown market is never NO-heavy, and is YES-heavy only under a threshold below 1 |
| Inventory.InventoryTracker.IsYesHeavy | polymarket/inventory_tracker.py:74-77 | YES-heavy whenever only YES is held; with NO held, exactly when YES exceeds threshold × NO |
| Inventory.InventoryTracker.IsNoHeavy | polymarket/inventory_tracker.py:79-84 | never for an unknown market; for a known one, exactly when the inverse ratio exceeds the threshold |
| Inventory.InventoryTracker.HeavyExclusive | polymarket/inventory_tracker.py:74-99 | with a threshold of at least 1 and no negative holdings, no market is YES-heavy and NO-heavy at once |
| Inventory.SkewExample | polymarket/tests/test_inventory_skew.py:85-132 | after 15 YES and 10 NO under a 1.2 threshold: ratio 1.5, YES-heavy, not NO-heavy, direction (−1, 1) |
| Inventory.InventoryTracker.GetYesQuantity | polymarket/inventory_tracker.py:101-104 | the YES quantity, 0.0 for an unknown market |
| Inventory.InventoryTracker.GetNoQuantity | polymarket/inventory_tracker.py:106-109 | the NO quantity, 0.0 for an unknown market |
| Inventory.InventoryTracker.GetYesAvgCost | polymarket/inventory_tracker.py:111-114 | the YES average cost, 0.0 for an unknown market |
| Inventory.InventoryTracker.GetNoAvgCost | polymarket/inventory_tracker.py:116-119 | the NO average cost, 0.0 for an unknown market |
| Inventory.InventoryTracker.GetBoxCost | polymarket/inventory_tracker.py:121-124 | the sum of the two average-cost getters |
| Inventory.InventoryTracker.GetTotalSpent | polymarket/inventory_tracker.py:126-129 | the two legs' total costs summed, 0.0 for an unknown market |
| Inventory.InventoryTracker.GetAllSpent | polymarket/inventory_tracker.py:131-133 | the loop's total is the sum of the spend over all tracked markets |
| Inventory.InventoryTracker.LoadFromPositions | polymarket/inventory_tracker.py:153-156 | the positions are replaced by the given map |
| Inventory.InventoryTracker.ExportPositions | polymarket/inventory_tracker.py:158-160 | the stored positions |
| Quotes.ReciprocalThreshold | polymarket/quote_generator.py:148-164 | for positive quantities, "no/yes above the threshold" is "yes/no below its reciprocal" |
| Quotes.SkewAdjustments | polymarket/quote_generator.py:148-164 | the two adjustments are negations in {−1, 0, 1}; YES is lowered exactly when the ratio exceeds the threshold, raised exactly when it does not but is below 1/threshold |
| Quotes.TrackerMatchesGenerator | polymarket/quote_generator.py:142-164 | for non-negative quantities, the generator's adjustments agree with the inventory tracker's direction |
| Quotes.TargetPrice | polymarket/quote_generator.py:99-109 | the best bid for a positive adjustment, else (1 − adj) ticks below it |
| Quotes.GenerateSingleQuote | polymarket/quote_generator.py:78-140 | None without a book or best bid; otherwise a quote exists exactly when the rounded, clamped price is positive and inside the configured range, and then it is a BUY for the base size |
| Quotes.TargetNotAboveBestBid | polymarket/quote_generator.py:99-109 | the target never rises above the best bid |
| Quotes.QuoteNotAboveBestBid | polymarket/quote_generator.py:99-120 | a best bid on the tick grid is never exceeded by the quote price |
| Quotes.QuotePrice | polymarket/quote_generator.py:98-120 | the quote price is on the tick grid: snapping it to the tick again leaves it unchanged |
| Quotes.QuoteNearBreakevenBound | polymarket/quote_generator.py:112-120 | the price is at or under the breakeven bound, or the bound snapped to the tick, so at most half a tick above it |
| Quotes.QuotePriceInRange | polymarket/quote_generator.py:123-140 | a returned quote's price is inside [min_price, max_price], side BUY, base size |
| Quotes.GenerateQuotes | polymarket/quote_generator.py:29-76 | at most two BUY quotes of the base size, none of them active, YES before NO, each the single quote of its outcome |
| Quotes.AdjustSizeForPositionLimit | polymarket/quote_generator.py:186-220 | None when no room remains; the quote unchanged when it fits; otherwise only the size changes, to round(remaining/price, 2), and None when that is below 0.1 |
| Quotes.ResizedQuoteFits | polymarket/quote_generator.py:186-220 | a resized quote costs at most the remaining room plus the rounding, and is never larger than the original beyond rounding |
| Quotes.BatchQuoteBuilder.constructor | polymarket/quote_generator.py:228-230 | an empty buffer with the given capacity |
| Quotes.BatchQuoteBuilder.Room | polymarket/quote_generator.py:232-236 | no more than the n offered; the buffer never passes max_batch_size unless the room is 0; fewer than n only when the buffer is then full |
| Quotes.BatchQuoteBuilder.AddQuotes | polymarket/quote_generator.py:232-236 | the earliest quotes that fit are appended in order, the buffer never exceeds capacity, and it is full when the quotes did not all fit |
| Quotes.BatchQuoteBuilder.Build | polymarket/quote_generator.py:238-242 | returns the buffer and leaves the builder empty |
| Quotes.BatchQuoteBuilder.Size | polymarket/quote_generator.py:252-254 | the number of buffered quotes |
| Quotes.BatchQuoteBuilder.FullAndEmpty | polymarket/quote_generator.py:244-250 | a builder is both full and empty only with capacity ≤ 0 |
| Levels.InsertSorted | polymarket/websocket_manager.py:342-348 | inserting into a sorted level list keeps it sorted |
| Levels.InsertMultiset | polymarket/websocket_manager.py:342-348 | inserting adds exactly one level |
| Levels.SortLevelsSorted | polymarket/websocket_manager.py:282-283 | sorting by price gives descending bids or ascending asks |
| Levels.SortLevelsPermutes | polymarket/websocket_manager.py:282-283 | sorting is a permutation |
| Levels.SortLevelsOfSorted | polymarket/websocket_manager.py:347-348 | re-sorting a sorted list changes nothing |
| Levels.FindLevel | polymarket/websocket_manager.py:331-332 | the first level within 0.0001 of the price, or None when there is none |
| Levels.UpdateLevel | polymarket/websocket_manager.py:320-348 | the search-and-edit loop over the side computes the specified edit: drop the level at size 0, replace its size, or add it and re-sort |
| Levels.MatchedLevelEdit | polymarket/websocket_manager.py:331-337 | a matching level is removed when size ≤ 0, else only its size changes; every other level stays in place |
| Levels.UnmatchedLevelEdit | polymarket/websocket_manager.py:340-348 | without a match, size > 0 adds exactly the new level and leaves the list sorted; size ≤ 0 leaves it unchanged |
| Levels.UnmatchedInsertSlots | polymarket/websocket_manager.py:340-348 | on a sorted list, append-then-sort is an insertion at the level's place |
| Levels.UpdatedLevelsSorted | polymarket/websocket_manager.py:320-348 | an edit keeps a sorted list sorted |
| OrderBooks.OrElse | polymarket/websocket_manager.py:250 | Python's `a or b`: an absent or empty a falls through to b |
| OrderBooks.TokenOf | polymarket/websocket_manager.py:268-270 | the token is asset_id or market, and never empty |
| OrderBooks.MakeLevels | polymarket/websocket_manager.py:272-279 | one rounded level per entry, in order |
| OrderBooks.SnapshotBookSorted | polymarket/websocket_manager.py:272-289 | a snapshot book has bids descending and asks ascending, with exactly the message's levels |
| OrderBooks.SnapshotEffect | polymarket/websocket_manager.py:264-291 | no token leaves all books unchanged; otherwise only that token's book is replaced, sorted, with the message's levels and timestamp |
| OrderBooks.ApplyChangeSides | polymarket/websocket_manager.py:308-316 | a change edits at most one side and keeps the token and timestamp |
| OrderBooks.ApplyChangesSorted | polymarket/websocket_manager.py:308-316 | changes keep a sorted book sorted |
| OrderBooks.PriceChangeSorted | polymarket/websocket_manager.py:293-318 | if every book is sorted before a price change, every book is sorted after it |
| OrderBooks.PriceChangeEffect | polymarket/websocket_manager.py:293-318 | an unknown token gets an empty book before the changes apply; other books stay |
| OrderBooks.OrderBookManager.constructor | polymarket/websocket_manager.py:242-246 | no books, and the sortedness invariant holds |
| OrderBooks.OrderBookManager.HandleMessage | polymarket/websocket_manager.py:248-262 | book messages go to the snapshot handler, price_change to the change handler, anything else changes nothing; sortedness is kept |
| OrderBooks.OrderBookManager.HandleBookSnapshot | polymarket/websocket_manager.py:264-291 | the books become the snapshot result, and sortedness is kept |
| OrderBooks.OrderBookManager.HandlePriceChange | polymarket/websocket_manager.py:293-318 | the loop applies the changes in order, stamps the book, and keeps sortedness |
| OrderBooks.OrderBookManager.GetOrderbook | polymarket/websocket_manager.py:350-352 | the stored book, or None |
| OrderBooks.OrderBookManager.GetBestBid | polymarket/websocket_manager.py:354-357 | present exactly when the token has a book with bids; then its first bid price, and in a valid manager no bid is higher |
| OrderBooks.OrderBookManager.GetBestAsk | polymarket/websocket_manager.py:359-362 | present exactly when the token has a book with asks; then its first ask price, and in a valid manager no ask is lower |
| OrderBooks.OrderBookManager.GetMidpoint | polymarket/websocket_manager.py:364-367 | present exactly when both sides of the token's book are non-empty; then the mean of best bid and best ask |
| OrderBooks.NextDelay | polymarket/websocket_manager.py:172-175 | the next delay is at most both the maximum and the multiplied delay, and equals one of them |
| OrderBooks.NextDelayGrows | polymarket/websocket_manager.py:172-175 | with multiplier ≥ 1, a delay already within the maximum never decreases |
| OrderBooks.DelayAfterClosedForm | polymarket/websocket_manager.py:150-175 | after n failures the delay is min(base·multiplierⁿ, max) |
| OrderBooks.DefaultBackoff | polymarket/config.py:62-64 | with the default settings the delays run 2, 4, 8, 16, then stay at 30 |
| Rebates.DailyFromJson | polymarket/rebate_tracker.py:26-33 | a non-dictionary is a TypeError, a missing date a KeyError; on success the date is the one spelled and the volume, rebate and fill count are the stored numbers |
| Rebates.DailyRoundTrip | polymarket/rebate_tracker.py:18-33 | from_dict(to_dict(s)) reproduces a day's stats |
| Rebates.DailyMapFromJson | polymarket/rebate_tracker.py:156-159 | succeeds exactly when every key is a date and every value a day's stats; each key's date maps to its decoded stats |
| Rebates.DailyMapRoundTrip | polymarket/rebate_tracker.py:139-159 | the exported per-day map loads back to the same map |
| Rebates.DailyAfterFillSums | polymarket/rebate_tracker.py:69-82 | a maker fill raises the sum of daily volumes by its amount and of daily rebates by amount·rate |
| Rebates.DailyAfterFillKeeps | polymarket/rebate_tracker.py:69-82 | each entry still carries its own date, and rebates stay at the rate |
| Rebates.FillKeepsConsistent | polymarket/rebate_tracker.py:69-82 | the totals still equal the per-day sums after a fill |
| Rebates.SortedDaysOrdered | polymarket/rebate_tracker.py:109-114 | the summary's days are in ascending date order |
| Rebates.SortedStatsComplete | polymarket/rebate_tracker.py:109-114 | every day's stats appear in the summary |
| Rebates.SortedStatsFromTable | polymarket/rebate_tracker.py:109-114 | the summary lists only stored days |
| Rebates.SortedStatsSorted | polymarket/rebate_tracker.py:109-114 | the summary's stats are in ascending date order |
| Rebates.DailySummaryDecodes | polymarket/rebate_tracker.py:109-114 | each summary entry is the dictionary of the stats at that position |
| Rebates.DailySummary | polymarket/rebate_tracker.py:109-114 | one entry per stored day |
| Rebates.RebateTracker.GetDailySummary | polymarket/rebate_tracker.py:109-114 | one entry per stored day, each reading back as the stats at that position in date order |
| Rebates.SnapshotFromJson | polymarket/rebate_tracker.py:151-164 | a non-dictionary fails; on success the rate is the stored basis points over 10000 (default 10 bps), the totals the stored numbers (default 0.0), the days those the table decodes to (default none) |
| Rebates.SnapshotFromEmpty | polymarket/rebate_tracker.py:151-155 | an empty state gives the default rate of 10 bps and zero totals |
| Rebates.SnapshotRoundTrip | polymarket/rebate_tracker.py:139-164 | an exported state loads back its rate, totals and daily stats |
| Rebates.DefaultRate | polymarket/rebate_tracker.py:44-52 | 10 bps is a rate of 0.001 |
| Rebates.RebateTracker.constructor | polymarket/rebate_tracker.py:44-55 | rate = bps/10000, no days, zero totals, and the totals-equal-sums invariant |
| Rebates.RebateTracker.RecordFill | polymarket/rebate_tracker.py:57-88 | a taker fill changes nothing; a maker fill updates today's entry and both totals, leaves the rate, and keeps the invariant |
| Rebates.RebateTracker.GetTodayStats | polymarket/rebate_tracker.py:90-95 | today's entry, or empty stats for today that are not stored |
| Rebates.RebateTracker.GetStatsForDate | polymarket/rebate_tracker.py:97-99 | the day's entry, or None |
| Rebates.RebateTracker.GetTotalVolume | polymarket/rebate_tracker.py:101-103 | under the invariant, the sum of the daily volumes |
| Rebates.RebateTracker.GetTotalRebates | polymarket/rebate_tracker.py:105-107 | under the invariant, the sum of the daily rebates, which is rate × total volume |
| Rebates.RebateTracker.ExportState | polymarket/rebate_tracker.py:139-149 | the export decodes to the tracker's rate, totals and days |
| Rebates.RebateTracker.LoadState | polymarket/rebate_tracker.py:151-164 | a well-formed state sets the rate and totals and merges the days over the existing ones; a malformed one reports its error |
| Rebates.RebateTracker.MergeDailyStats | polymarket/rebate_tracker.py:156-159 | the loop inserts every loaded day over the existing entries, and nothing else changes |
| StateStore.FillLogBounded | polymarket/state_manager.py:140-146 | the fill becomes the last entry; the log never exceeds 1000, and below the bound nothing is dropped |
| StateStore.FillLogKeepsNewest | polymarket/state_manager.py:140-146 | only the oldest fills are dropped |
| StateStore.FillVolume | polymarket/state_manager.py:148-150 | maker volume grows by the notional exactly for maker fills, and never shrinks for non-negative fills |
| StateStore.FillLeavesRest | polymarket/state_manager.py:140-150 | recording a fill touches only the log and the maker volume |
| StateStore.SavedLogComplete | polymarket/state_manager.py:140-146 | the truncation when saving never loses a fill that recording kept |
| StateStore.StateManager.constructor | polymarket/state_manager.py:23-29 | a fresh BotState |
| StateStore.StateManager.UpdatePositions | polymarket/state_manager.py:136-138 | positions replaced wholesale, nothing else changed |
| StateStore.StateManager.RecordFill | polymarket/state_manager.py:140-150 | the state after the fill, and the bound on the log is kept |
| StateStore.StateManager.UpdateRebates | polymarket/state_manager.py:152-154 | the rebate estimate is set, nothing else changed |
| StateStore.StateManager.GetPositions | polymarket/state_manager.py:156-158 | the state's positions |
| StateStore.StateManager.GetFills | polymarket/state_manager.py:160-162 | the state's fill log |
| StateStore.StateManager.GetTotalMakerVolume | polymarket/state_manager.py:164-166 | the state's maker volume |
| StateStore.StateManager.ClearState | polymarket/state_manager.py:168-170 | a fresh BotState: no positions, no fills, zero totals |
| MarketFilters.AssetPattern | polymarket/market_filter.py:36-39 | a case-insensitive, word-bounded alternation of the escaped assets; for plain names, of the names themselves |
| MarketFilters.TimeframeAlternative | polymarket/market_filter.py:44-51 | exactly the timeframes ending in m or h yield an alternative: the number, optional spaces, then the unit's spellings |
| MarketFilters.TimeframeAlternativesExact | polymarket/market_filter.py:44-51 | every m/h timeframe contributes its alternative, nothing else does, and other suffixes are skipped |
| MarketFilters.TimeframeAlternativesAppend | polymarket/market_filter.py:44-51 | the alternatives are built one timeframe at a time, in order |
| MarketFilters.BuildTimeframePattern | polymarket/market_filter.py:41-54 | the loop builds the case-insensitive group of all alternatives |
| MarketFilters.EmptyTimeframePattern | polymarket/market_filter.py:41-54 | with no m/h timeframe the pattern is the empty group |
| MarketFilters.NormalizeTimeframeClean | polymarket/market_filter.py:118-124 | the normalised timeframe has no spaces and no upper-case letters |
| MarketFilters.NormalizeSpelling | polymarket/market_filter.py:118-124 | a number, spaces and a minute spelling give number+"m"; an hour spelling gives number+"h" |
| MarketFilters.MarketFilter.constructor | polymarket/market_filter.py:18-34 | assets upper-cased, timeframes lower-cased, prices kept, patterns built from the targets |
| MarketFilters.MarketFilter.IsEligible | polymarket/market_filter.py:56-101 | false for inactive markets; otherwise asset match ∧ timeframe match ∧ both prices inside the inclusive range |
| MarketFilters.MarketFilter.FilterMarkets | polymarket/market_filter.py:103-107 | exactly the eligible markets of the input are kept |
| MarketFilters.MarketFilter.FilterMarketsSubsequence | polymarket/market_filter.py:103-107 | the kept markets are a sub-sequence of the input, in its order |
| MarketFilters.MarketFilter.FilterMarketsAppend | polymarket/market_filter.py:103-107 | filtering distributes over concatenation |
| MarketFilters.MarketFilter.FilterMarketsIdempotent | polymarket/market_filter.py:103-107 | filtering twice is filtering once |
| MarketFilters.MarketFilter.FilterMarketsKeepsEligible | polymarket/market_filter.py:103-107 | a list of eligible markets is kept whole |
| MarketFilters.MarketFilter.ExtractAsset | polymarket/market_filter.py:109-112 | present exactly when the asset pattern matches, and upper-case |
| MarketFilters.MarketFilter.ExtractTargetAsset | polymarket/market_filter.py:109-112 | a match of a target asset in any letter case extracts that target |
| MarketFilters.MarketFilter.ExtractTimeframe | polymarket/market_filter.py:114-125 | None when the timeframe pattern does not match, else the matched text normalised |
| MarketFilters.MarketFilter.ExtractConfiguredTimeframe | polymarket/market_filter.py:114-125 | a question that spells a configured timeframe with spaces and any unit spelling extracts that timeframe |

## Left out

- Floating point: prices, sizes and totals are exact reals, so no float error is modelled. `round` is round-half-even on those exact values. `pytest.approx` tolerances become exact equalities in `Breakeven.DefaultCalculatorExamples`.
- The regex engine: `re.search` is the `search` parameter, so what a pattern matches is not modelled. Only the pattern text and the use of group 1 are. When no timeframe ends in m or h, Python compiles the empty group "()", which matches everywhere; the model builds the same text.
- Case conversion (`upper`, `lower`) is modelled for ASCII letters only.
- `fromisoformat` is modelled for the canonical forms `isoformat` writes (dates `YYYY-MM-DD`; datetimes with or without microseconds, no offset). Other ISO spellings are rejected.
- Models.PositionFromJson: a field of the wrong JSON type is a TypeError, whereas Python would accept it and fail later or coerce it.
- Models.MarketPositionFromJson: same stricter field typing as PositionFromJson.
- Models.FillFromJson: same stricter field typing; an unknown side or outcome is a ValueError, as in Python.
- Models.PositionsFromJson: any bad entry yields one fixed ValueError rather than the exception Python would raise for that entry.
- Rebates.DailyMapFromJson: any bad key or entry yields one fixed error rather than the exception Python would raise for that entry.
- Rebates.RebateTracker.LoadState: on a malformed state the model changes nothing. Python has by then already set the rate and totals and merged the earlier days.
- Rebates.SortedStats: Python sorts the entries by each entry's own `date` field with a stable sort. After `load_state` an entry's `date` need not equal its key, so two entries can share a date; the model orders by date but leaves the order between such ties unspecified, where Python keeps insertion order.
- Levels.UpdateLevel: works on a sequence value and returns the new side, where Python pops, assigns, appends and sorts the book's list in place; the book manager stores the returned side back into the book.
- Quotes.SkewAdjustments: a skew threshold of 0 makes Python divide by zero in `1 / self.skew_threshold` (quote_generator.py line 159) and raise ZeroDivisionError whenever the ratio does not exceed it; the model requires that case away instead of modelling the exception.
- Quotes.QuotePrice: a tick size of 0 makes Python raise ZeroDivisionError in the rounding (quote_generator.py line 112); the model requires a non-zero tick instead.
- Quotes.GenerateSingleQuote: inherits the non-zero tick requirement of Quotes.QuotePrice in place of Python's ZeroDivisionError.
- Quotes.GenerateQuotes: inherits both requirements above (non-zero tick, and a threshold of 0 only when the ratio exceeds it) in place of Python's ZeroDivisionError.
- Models.BotStateFromJson: the totals must be JSON floats, whereas Python's `data.get` accepts any stored value, an integer included.
- Rebates.DailyFromJson: maker_volume and estimated_rebate must be JSON floats and fill_count a JSON integer; Python stores whatever value is there.
- Rebates.SnapshotFromJson: the rate and totals must be JSON floats; Python's `state.get` accepts any value, an integer included.
- Python object aliasing: a caller mutating the `MarketPosition` returned by `get_or_create_position`, or a `Quote` passed to `adjust_size_for_position_limit`, affects the stored object in Python. The model returns values, so those are separate.
- Models.AddFill and Quotes.AdjustSizeForPositionLimit return new values instead of mutating their argument in place.
- Malformed WebSocket messages (non-numeric price strings, non-list `bids`) are outside the model: messages arrive already parsed into `Message`.
- I/O and concurrency: the WebSocket connection, receive, heartbeat and send loops, asyncio tasks and locks, `StateManager.start` / `stop` / `save` / `load` / `_periodic_save`, and the backup rename in `clear_state`.
- Logging throughout, `RebateTracker.print_summary`, `QuoteGenerator._log_quotes` and the inventory tracker's skew logging: text output only. The one exception the skew logging can raise, ZeroDivisionError in `1 / self.skew_threshold` (inventory_tracker.py line 145) for a threshold of 0, is modelled: `Inventory.InventoryTracker.RecordFill` reports it after updating the position, as Python does.
- `main.py` (orchestration and exchange calls), `debug_markets.py` (an exploration script), and `config.py` beyond the default values used here.
- `MarketInfo.token_id` is a property that takes an argument, so it cannot be called as written; it is not modelled.
- `min_liquidity` is stored by the market filter but never read by the eligibility check; the model stores it too.
