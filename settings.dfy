/** The trading and reconnection parameters the modelled components are built from. */
module Settings {

  datatype TradingConfig = TradingConfig(
    targetAssets: seq<string>,
    targetTimeframes: seq<string>,
    minPrice: real,
    maxPrice: real,
    maxPositionUsdc: real,
    maxPositionPerMarket: real,
    tickSize: real,
    baseQuoteSize: real,
    breakevenTarget: real,
    safetyMargin: real,
    skewThreshold: real,
    batchSize: int)

  /** `TradingConfig()` with the position limits at their fallback values of 100 and 50. */
  const DefaultTrading := TradingConfig(
    ["BTC", "ETH", "SOL"], ["15m", "1h"], 0.20, 0.80, 100.0, 50.0,
    0.01, 5.0, 0.99, 0.005, 1.2, 10)

  datatype WebSocketConfig = WebSocketConfig(
    reconnectBaseDelay: real,
    reconnectMaxDelay: real,
    reconnectMultiplier: real)

  const DefaultWebSocket := WebSocketConfig(1.0, 30.0, 2.0)
}
