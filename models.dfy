/**
 * The bot's data model: order sides and outcomes, markets, L2 order books, positions with a
 * running cost basis, combined YES/NO market positions, quotes, fills and the persisted bot
 * state, together with their dictionary encodings.
 */
module Models {
  import opened Wrappers
  import opened Rounding
  import opened IsoTime
  import opened Json
  import opened MapKeys

  datatype Side = Buy | Sell

  datatype Outcome = Yes | No

  /** `side.value` */
  function SideValue(s: Side): string
  {
    match s
    case Buy => "BUY"
    case Sell => "SELL"
  }

  /** `Side(v)`: a ValueError for anything that is not a member's value. */
  function ParseSide(v: Json): (r: Result<Side>)
    ensures r.Success? ==> v == JStr(SideValue(r.value))
    ensures r.Failure? ==> r.error.ValueError?
  {
    if v == JStr("BUY") then Success(Buy)
    else if v == JStr("SELL") then Success(Sell)
    else Failure(ValueError("not a valid Side"))
  }

  /** `outcome.value` */
  function OutcomeValue(o: Outcome): string
  {
    match o
    case Yes => "YES"
    case No => "NO"
  }

  /** `Outcome(v)` */
  function ParseOutcome(v: Json): (r: Result<Outcome>)
    ensures r.Success? ==> v == JStr(OutcomeValue(r.value))
    ensures r.Failure? ==> r.error.ValueError?
  {
    if v == JStr("YES") then Success(Yes)
    else if v == JStr("NO") then Success(No)
    else Failure(ValueError("not a valid Outcome"))
  }

  lemma ParseSideValue(s: Side)
    ensures ParseSide(JStr(SideValue(s))) == Success(s)
  {
  }

  lemma ParseOutcomeValue(o: Outcome)
    ensures ParseOutcome(JStr(OutcomeValue(o))) == Success(o)
  {
  }

  // ---------------------------------------------------------------- markets

  datatype MarketInfo = MarketInfo(
    conditionId: string,
    question: string,
    yesTokenId: string,
    noTokenId: string,
    minTickSize: real,
    active: bool,
    yesPrice: real,
    noPrice: real)

  /** `MarketInfo.is_in_price_range`: both outcome prices inside the closed range. */
  predicate IsInPriceRange(m: MarketInfo, minPrice: real, maxPrice: real): (b: bool)
    ensures b ==> minPrice <= maxPrice
    ensures b <==> (&& minPrice <= (if m.yesPrice <= m.noPrice then m.yesPrice else m.noPrice)
                    && (if m.yesPrice <= m.noPrice then m.noPrice else m.yesPrice) <= maxPrice)
  {
    minPrice <= m.yesPrice <= maxPrice && minPrice <= m.noPrice <= maxPrice
  }

  // ---------------------------------------------------------------- order books

  datatype Level = Level(price: real, size: real)

  /** `OrderBookLevel(price, size)`: `__post_init__` keeps both at four decimals. */
  function MakeLevel(price: real, size: real): (l: Level)
    ensures price - 0.00005 <= l.price <= price + 0.00005
    ensures size - 0.00005 <= l.size <= size + 0.00005
  {
    RoundAtError(price, 10000.0);
    RoundAtError(size, 10000.0);
    Level(Round4(price), Round4(size))
  }

  /** A level whose price and size already have four decimals is stored unchanged. */
  lemma MakeLevelExact(p: int, s: int)
    ensures MakeLevel(p as real / 10000.0, s as real / 10000.0) == Level(p as real / 10000.0, s as real / 10000.0)
  {
    RoundAtExact(p, 10000.0);
    RoundAtExact(s, 10000.0);
  }

  datatype OrderBook = OrderBook(tokenId: string, bids: seq<Level>, asks: seq<Level>, timestamp: DateTime)

  /** `best_bid`: the first bid's price, if there is a bid. */
  function BestBid(b: OrderBook): (r: Option<real>)
    ensures r.Some? <==> |b.bids| > 0
    ensures r.Some? ==> r.value == b.bids[0].price
  {
    if |b.bids| > 0 then Some(b.bids[0].price) else None
  }

  /** `best_ask`: the first ask's price, if there is an ask. */
  function BestAsk(b: OrderBook): (r: Option<real>)
    ensures r.Some? <==> |b.asks| > 0
    ensures r.Some? ==> r.value == b.asks[0].price
  {
    if |b.asks| > 0 then Some(b.asks[0].price) else None
  }

  /** `best_bid_size`: 0.0 on an empty side. */
  function BestBidSize(b: OrderBook): (r: real)
    ensures |b.bids| == 0 ==> r == 0.0
    ensures |b.bids| > 0 ==> r == b.bids[0].size
  {
    if |b.bids| > 0 then b.bids[0].size else 0.0
  }

  /** `best_ask_size`: 0.0 on an empty side. */
  function BestAskSize(b: OrderBook): (r: real)
    ensures |b.asks| == 0 ==> r == 0.0
    ensures |b.asks| > 0 ==> r == b.asks[0].size
  {
    if |b.asks| > 0 then b.asks[0].size else 0.0
  }

  function Midpoint(b: OrderBook): Option<real>
  {
    if BestBid(b).Some? && BestAsk(b).Some? then Some((BestBid(b).value + BestAsk(b).value) / 2.0) else None
  }

  function Spread(b: OrderBook): Option<real>
  {
    if BestBid(b).Some? && BestAsk(b).Some? then Some(BestAsk(b).value - BestBid(b).value) else None
  }

  /** Midpoint and spread exist exactly when both sides of the book do. */
  lemma MidpointSpreadDefined(b: OrderBook)
    ensures Midpoint(b).Some? <==> |b.bids| > 0 && |b.asks| > 0
    ensures Spread(b).Some? <==> |b.bids| > 0 && |b.asks| > 0
  {
  }

  /**
   * Midpoint and spread together recover the best bid and ask, and on a book that is not
   * crossed the spread is not negative and the midpoint lies between the two.
   */
  lemma MidpointSpreadRecover(b: OrderBook)
    requires |b.bids| > 0 && |b.asks| > 0
    ensures BestBid(b).value == Midpoint(b).value - Spread(b).value / 2.0
    ensures BestAsk(b).value == Midpoint(b).value + Spread(b).value / 2.0
    ensures b.bids[0].price <= b.asks[0].price ==>
      Spread(b).value >= 0.0 && b.bids[0].price <= Midpoint(b).value <= b.asks[0].price
  {
  }

  /**
   * `get_level(side, level)`: bids for BUY, asks for SELL, indexed as a Python list, so a
   * negative level counts from the end, and one below `-len` raises IndexError.
   */
  function GetLevel(b: OrderBook, side: Side, level: int): (r: Result<Option<Level>>)
    ensures var book := if side == Buy then b.bids else b.asks;
      && (0 <= level < |book| ==> r == Success(Some(book[level])))
      && (level >= |book| ==> r == Success(None))
      && (-|book| <= level < 0 ==> r == Success(Some(book[|book| + level])))
      && (level < -|book| ==> r == Failure(IndexError(level)))
  {
    var book := if side == Buy then b.bids else b.asks;
    if level >= |book| then Success(None)
    else if level >= 0 then Success(Some(book[level]))
    else if level >= -|book| then Success(Some(book[|book| + level]))
    else Failure(IndexError(level))
  }

  // ---------------------------------------------------------------- positions

  datatype Position = Position(tokenId: string, outcome: Outcome, quantity: real, totalCost: real)

  /** A fresh position: `Position(token_id, outcome)` with zero quantity and cost. */
  function EmptyPosition(tokenId: string, outcome: Outcome): Position
  {
    Position(tokenId, outcome, 0.0, 0.0)
  }

  /** `avg_cost`: cost per share, and exactly 0.0 for a position holding nothing. */
  function AvgCost(p: Position): (r: real)
    ensures p.quantity > 0.0 ==> r * p.quantity == p.totalCost
    ensures p.quantity <= 0.0 ==> r == 0.0
  {
    if p.quantity > 0.0 then p.totalCost / p.quantity else 0.0
  }

  /** `add_fill(qty, price)`: the fill's cost joins the total and its shares join the quantity. */
  function AddFill(p: Position, qty: real, price: real): (q: Position)
    ensures q.tokenId == p.tokenId && q.outcome == p.outcome
    ensures q.quantity - p.quantity == qty
    ensures q.totalCost - p.totalCost == qty * price
  {
    p.(totalCost := p.totalCost + qty * price, quantity := p.quantity + qty)
  }

  /** The order fills arrive in does not matter to a position. */
  lemma AddFillCommutes(p: Position, a: real, x: real, b: real, y: real)
    ensures AddFill(AddFill(p, a, x), b, y) == AddFill(AddFill(p, b, y), a, x)
  {
  }

  lemma WeightedAverageBetween(c: real, q: real, a: real, x: real, avg: real, r: real)
    requires q > 0.0 && a > 0.0 && avg * q == c && r * (q + a) == c + a * x
    ensures avg <= x ==> avg <= r <= x
    ensures x <= avg ==> x <= r <= avg
  {
    if avg <= x {
      MultiplyLe(avg, x, a);
      assert avg * (q + a) <= r * (q + a);
      assert x * (q + a) >= r * (q + a);
    } else {
      MultiplyLe(x, avg, a);
      assert x * (q + a) <= r * (q + a);
      assert avg * (q + a) >= r * (q + a);
    }
  }

  /** Buying more at price x moves the average cost toward x without passing it. */
  lemma AddFillAverageBetween(p: Position, qty: real, price: real)
    requires p.quantity > 0.0 && qty > 0.0
    ensures AvgCost(p) <= price ==> AvgCost(p) <= AvgCost(AddFill(p, qty, price)) <= price
    ensures price <= AvgCost(p) ==> price <= AvgCost(AddFill(p, qty, price)) <= AvgCost(p)
  {
    var q := AddFill(p, qty, price);
    WeightedAverageBetween(p.totalCost, p.quantity, qty, price, AvgCost(p), AvgCost(q));
  }

  /** The first buy into an empty position sets the average cost to the fill price. */
  lemma AddFillToEmpty(p: Position, qty: real, price: real)
    requires p.quantity == 0.0 && p.totalCost == 0.0 && qty > 0.0
    ensures AvgCost(AddFill(p, qty, price)) == price
  {
  }

  /** `Position.to_dict` */
  function PositionToJson(p: Position): Json
  {
    JObj(map[
      "token_id" := JStr(p.tokenId),
      "outcome" := JStr(OutcomeValue(p.outcome)),
      "quantity" := JNum(p.quantity),
      "total_cost" := JNum(p.totalCost)])
  }

  /** `Position.from_dict` */
  function PositionFromJson(j: Json): (r: Result<Position>)
    ensures !j.JObj? ==> r.Failure? && r.error.TypeError?
    ensures j.JObj? && "token_id" !in j.fields ==> r == Failure(KeyError("token_id"))
  {
    if !j.JObj? then Failure(TypeError("position"))
    else
      var d := j.fields;
      match StrField(d, "token_id")
      case Failure(e) => Failure(e)
      case Success(tokenId) =>
        match Field(d, "outcome")
        case Failure(e) => Failure(e)
        case Success(ov) =>
          match ParseOutcome(ov)
          case Failure(e) => Failure(e)
          case Success(outcome) =>
            match NumField(d, "quantity")
            case Failure(e) => Failure(e)
            case Success(quantity) =>
              match NumField(d, "total_cost")
              case Failure(e) => Failure(e)
              case Success(totalCost) => Success(Position(tokenId, outcome, quantity, totalCost))
  }

  lemma PositionRoundTrip(p: Position)
    ensures PositionFromJson(PositionToJson(p)) == Success(p)
  {
    ParseOutcomeValue(p.outcome);
  }

  // ---------------------------------------------------------------- market positions

  /** A YES/NO quantity ratio; `float("inf")` is `Infinite`. */
  datatype Ratio = Finite(value: real) | Infinite

  /** `ratio > threshold` as Python compares floats: infinity exceeds every finite number. */
  predicate Greater(r: Ratio, threshold: real)
  {
    r.Infinite? || r.value > threshold
  }

  /** `ratio < bound`: infinity is below nothing. */
  predicate Less(r: Ratio, bound: real)
  {
    r.Finite? && r.value < bound
  }

  datatype MarketPosition = MarketPosition(conditionId: string, yes: Position, no: Position)

  /** A market with both legs empty. */
  function EmptyMarketPosition(conditionId: string, yesTokenId: string, noTokenId: string): MarketPosition
  {
    MarketPosition(conditionId, EmptyPosition(yesTokenId, Yes), EmptyPosition(noTokenId, No))
  }

  /** The ratio of `a` shares to `b` shares, as both skew properties compute it. */
  function QuantityRatio(a: real, b: real): (r: Ratio)
    ensures r.Infinite? <==> b == 0.0 && a > 0.0
    ensures b == 0.0 && a <= 0.0 ==> r == Finite(1.0)
    ensures b != 0.0 ==> r.Finite? && r.value * b == a
  {
    if b == 0.0 then (if a > 0.0 then Infinite else Finite(1.0)) else Finite(a / b)
  }

  /** `skew_ratio`: YES shares per NO share. */
  function SkewRatio(m: MarketPosition): Ratio
  {
    QuantityRatio(m.yes.quantity, m.no.quantity)
  }

  /** `inverse_skew_ratio`: NO shares per YES share. */
  function InverseSkewRatio(m: MarketPosition): Ratio
  {
    QuantityRatio(m.no.quantity, m.yes.quantity)
  }

  /** More than one share per share means more shares. */
  lemma ScaledAbove(a: real, n: real)
    requires a > 1.0 && n > 0.0
    ensures a * n > n
  {
    assert a * n - n == (a - 1.0) * n;
  }

  /** A multiplier that shrinks a positive amount is below one. */
  lemma ScaledBelow(b: real, y: real, n: real)
    requires y > 0.0 && b * y == n && n < y
    ensures b < 1.0
  {
    if b >= 1.0 {
      assert b * y - y == (b - 1.0) * y;
    }
  }

  /**
   * Neither ratio can exceed a threshold of 1 or more while the other does: that would need
   * more YES than NO shares and more NO than YES shares at once.
   */
  lemma NotBothHeavy(m: MarketPosition, threshold: real)
    requires threshold >= 1.0
    requires m.yes.quantity >= 0.0 && m.no.quantity >= 0.0
    ensures !(Greater(SkewRatio(m), threshold) && Greater(InverseSkewRatio(m), threshold))
  {
    var y, n := m.yes.quantity, m.no.quantity;
    if y > 0.0 && n > 0.0 && Greater(SkewRatio(m), threshold) {
      var a, b := SkewRatio(m).value, InverseSkewRatio(m).value;
      assert a * n == y && b * y == n;
      ScaledAbove(a, n);
      ScaledBelow(b, y, n);
    }
  }

  /** The legs of a market position, exchanged. */
  function Mirror(m: MarketPosition): MarketPosition
  {
    MarketPosition(m.conditionId, m.no, m.yes)
  }

  /**
   * The skew ratio's three cases: infinite when only YES is held, 1.0 when NO is zero and YES
   * is not positive, and YES over NO otherwise.
   */
  lemma SkewRatioCases(m: MarketPosition)
    ensures m.no.quantity == 0.0 && m.yes.quantity > 0.0 ==> SkewRatio(m) == Infinite
    ensures m.no.quantity == 0.0 && m.yes.quantity <= 0.0 ==> SkewRatio(m) == Finite(1.0)
    ensures m.no.quantity != 0.0 ==> SkewRatio(m) == Finite(m.yes.quantity / m.no.quantity)
  {
  }

  /** The inverse ratio is the ratio of the mirrored market. */
  lemma InverseSkewIsMirror(m: MarketPosition)
    ensures InverseSkewRatio(m) == SkewRatio(Mirror(m))
    ensures InverseSkewRatio(Mirror(m)) == SkewRatio(m)
  {
  }

  /** With both legs held, the ratio and the inverse ratio are reciprocals. */
  lemma SkewRatiosReciprocal(m: MarketPosition)
    requires m.yes.quantity != 0.0 && m.no.quantity != 0.0
    ensures SkewRatio(m).value * InverseSkewRatio(m).value == 1.0
  {
    var a, b := m.yes.quantity, m.no.quantity;
    assert SkewRatio(m).value == a / b;
    assert InverseSkewRatio(m).value == b / a;
    assert (a / b) * (b / a) == (a * b) / (a * b);
  }

  /** `box_cost`: one YES share plus one NO share at the current average costs. */
  function BoxCost(m: MarketPosition): real
  {
    AvgCost(m.yes) + AvgCost(m.no)
  }

  /** `total_usdc_spent` */
  function TotalSpent(m: MarketPosition): real
  {
    m.yes.totalCost + m.no.totalCost
  }

  /** Box cost reads the two average costs, each 0.0 for an empty leg. */
  lemma BoxCostOfLegs(m: MarketPosition)
    ensures m.yes.quantity > 0.0 && m.no.quantity > 0.0 ==>
      BoxCost(m) == m.yes.totalCost / m.yes.quantity + m.no.totalCost / m.no.quantity
    ensures m.yes.quantity <= 0.0 ==> BoxCost(m) == AvgCost(m.no)
    ensures m.no.quantity <= 0.0 ==> BoxCost(m) == AvgCost(m.yes)
    ensures BoxCost(Mirror(m)) == BoxCost(m)
  {
  }

  /** A fill on either leg raises the market's total spend by exactly the fill's cost. */
  lemma TotalSpentAddFill(m: MarketPosition, qty: real, price: real)
    ensures TotalSpent(m.(yes := AddFill(m.yes, qty, price))) == TotalSpent(m) + qty * price
    ensures TotalSpent(m.(no := AddFill(m.no, qty, price))) == TotalSpent(m) + qty * price
  {
  }

  /** `MarketPosition.to_dict` */
  function MarketPositionToJson(m: MarketPosition): Json
  {
    JObj(map[
      "condition_id" := JStr(m.conditionId),
      "yes_position" := PositionToJson(m.yes),
      "no_position" := PositionToJson(m.no)])
  }

  /** `MarketPosition.from_dict` */
  function MarketPositionFromJson(j: Json): (r: Result<MarketPosition>)
    ensures !j.JObj? ==> r.Failure? && r.error.TypeError?
  {
    if !j.JObj? then Failure(TypeError("market position"))
    else
      var d := j.fields;
      match StrField(d, "condition_id")
      case Failure(e) => Failure(e)
      case Success(conditionId) =>
        match Field(d, "yes_position")
        case Failure(e) => Failure(e)
        case Success(yj) =>
          match PositionFromJson(yj)
          case Failure(e) => Failure(e)
          case Success(yes) =>
            match Field(d, "no_position")
            case Failure(e) => Failure(e)
            case Success(nj) =>
              match PositionFromJson(nj)
              case Failure(e) => Failure(e)
              case Success(no) => Success(MarketPosition(conditionId, yes, no))
  }

  lemma MarketPositionRoundTrip(m: MarketPosition)
    ensures MarketPositionFromJson(MarketPositionToJson(m)) == Success(m)
  {
    PositionRoundTrip(m.yes);
    PositionRoundTrip(m.no);
  }

  // ---------------------------------------------------------------- quotes and fills

  datatype Quote = Quote(tokenId: string, outcome: Outcome, side: Side, price: real, size: real, orderId: Option<string>)

  /** `is_active`: the quote has been placed and carries an order id. */
  predicate IsActive(q: Quote)
  {
    q.orderId.Some?
  }

  /** `to_order_args`: the fields the exchange client needs. */
  function ToOrderArgs(q: Quote): Json
  {
    JObj(map[
      "token_id" := JStr(q.tokenId),
      "price" := JNum(q.price),
      "size" := JNum(q.size),
      "side" := JStr(SideValue(q.side))])
  }

  /** The order arguments carry exactly the quote's token, price, size and side, and decode back to them. */
  lemma OrderArgsDecode(q: Quote)
    ensures ToOrderArgs(q).fields.Keys == {"token_id", "price", "size", "side"}
    ensures StrField(ToOrderArgs(q).fields, "token_id") == Success(q.tokenId)
    ensures NumField(ToOrderArgs(q).fields, "price") == Success(q.price)
    ensures NumField(ToOrderArgs(q).fields, "size") == Success(q.size)
    ensures ParseSide(ToOrderArgs(q).fields["side"]) == Success(q.side)
  {
    ParseSideValue(q.side);
  }

  datatype Fill = Fill(
    orderId: string,
    tokenId: string,
    outcome: Outcome,
    side: Side,
    price: real,
    size: real,
    timestamp: DateTime,
    maker: bool)

  /** `notional`: the USDC value of the fill. */
  function Notional(f: Fill): real
  {
    f.price * f.size
  }

  /** A fill of positive size at a positive price moves a positive amount of USDC. */
  lemma NotionalPositive(f: Fill)
    requires f.price > 0.0 && f.size > 0.0
    ensures Notional(f) > 0.0
  {
  }

  /** `Fill.to_dict` */
  function FillToJson(f: Fill): Json
  {
    JObj(map[
      "order_id" := JStr(f.orderId),
      "token_id" := JStr(f.tokenId),
      "outcome" := JStr(OutcomeValue(f.outcome)),
      "side" := JStr(SideValue(f.side)),
      "price" := JNum(f.price),
      "size" := JNum(f.size),
      "timestamp" := JStr(FormatDateTime(f.timestamp)),
      "maker" := JBool(f.maker)])
  }

  /** `datetime.fromisoformat(v)`: a TypeError for anything but a string. */
  function ParseTimestamp(v: Json): (r: Result<DateTime>)
    ensures !v.JStr? ==> r.Failure? && r.error.TypeError?
    ensures v.JStr? ==> r == ParseDateTime(v.s)
  {
    if v.JStr? then ParseDateTime(v.s) else Failure(TypeError("fromisoformat: argument must be str"))
  }

  /** `Fill.from_dict`: `maker` is optional and defaults to True. */
  function FillFromJson(j: Json): (r: Result<Fill>)
    ensures !j.JObj? ==> r.Failure? && r.error.TypeError?
  {
    if !j.JObj? then Failure(TypeError("fill"))
    else
      var d := j.fields;
      match StrField(d, "order_id")
      case Failure(e) => Failure(e)
      case Success(orderId) =>
        match StrField(d, "token_id")
        case Failure(e) => Failure(e)
        case Success(tokenId) =>
          match Field(d, "outcome")
          case Failure(e) => Failure(e)
          case Success(ov) =>
            match ParseOutcome(ov)
            case Failure(e) => Failure(e)
            case Success(outcome) =>
              match Field(d, "side")
              case Failure(e) => Failure(e)
              case Success(sv) =>
                match ParseSide(sv)
                case Failure(e) => Failure(e)
                case Success(side) =>
                  match NumField(d, "price")
                  case Failure(e) => Failure(e)
                  case Success(price) =>
                    match NumField(d, "size")
                    case Failure(e) => Failure(e)
                    case Success(size) =>
                      match Field(d, "timestamp")
                      case Failure(e) => Failure(e)
                      case Success(tv) =>
                        match ParseTimestamp(tv)
                        case Failure(e) => Failure(e)
                        case Success(timestamp) =>
                          match BoolFieldOr(d, "maker", true)
                          case Failure(e) => Failure(e)
                          case Success(maker) =>
                            Success(Fill(orderId, tokenId, outcome, side, price, size, timestamp, maker))
  }

  /** A dictionary holding a fill's encoded fields decodes to that fill, whatever else it holds. */
  lemma FillFieldsDecode(d: map<string, Json>, f: Fill)
    requires "order_id" in d && d["order_id"] == JStr(f.orderId)
    requires "token_id" in d && d["token_id"] == JStr(f.tokenId)
    requires "outcome" in d && d["outcome"] == JStr(OutcomeValue(f.outcome))
    requires "side" in d && d["side"] == JStr(SideValue(f.side))
    requires "price" in d && d["price"] == JNum(f.price)
    requires "size" in d && d["size"] == JNum(f.size)
    requires "timestamp" in d && d["timestamp"] == JStr(FormatDateTime(f.timestamp))
    requires "maker" in d ==> d["maker"] == JBool(f.maker)
    ensures FillFromJson(JObj(d)) == Success(f.(maker := if "maker" in d then f.maker else true))
  {
    assert StrField(d, "order_id") == Success(f.orderId);
    assert StrField(d, "token_id") == Success(f.tokenId);
    ParseOutcomeValue(f.outcome);
    ParseSideValue(f.side);
    assert NumField(d, "price") == Success(f.price);
    assert NumField(d, "size") == Success(f.size);
    ParseFormatDateTime(f.timestamp);
    assert ParseTimestamp(d["timestamp"]) == Success(f.timestamp);
    assert BoolFieldOr(d, "maker", true) == Success(if "maker" in d then f.maker else true);
  }

  lemma FillRoundTrip(f: Fill)
    ensures FillFromJson(FillToJson(f)) == Success(f)
  {
    FillFieldsDecode(FillToJson(f).fields, f);
  }

  /** `Fill.to_dict` without its `maker` entry: what a state file written before that key existed holds. */
  function FillFieldsWithoutMaker(f: Fill): map<string, Json>
  {
    map[
      "order_id" := JStr(f.orderId),
      "token_id" := JStr(f.tokenId),
      "outcome" := JStr(OutcomeValue(f.outcome)),
      "side" := JStr(SideValue(f.side)),
      "price" := JNum(f.price),
      "size" := JNum(f.size),
      "timestamp" := JStr(FormatDateTime(f.timestamp))]
  }

  lemma DropMakerField(f: Fill)
    ensures FillToJson(f).fields - {"maker"} == FillFieldsWithoutMaker(f)
  {
  }

  /** An encoded fill with its `maker` key removed decodes as a maker fill. */
  lemma FillMakerDefault(f: Fill)
    ensures FillFromJson(JObj(FillToJson(f).fields - {"maker"})) == Success(f.(maker := true))
  {
    DropMakerField(f);
    FillFieldsDecode(FillFieldsWithoutMaker(f), f);
  }

  // ---------------------------------------------------------------- bot state

  datatype BotState = BotState(
    positions: map<string, MarketPosition>,
    openOrders: map<string, Quote>,
    fills: seq<Fill>,
    totalMakerVolume: real,
    totalRebatesEstimate: real,
    lastUpdated: DateTime)

  /** `BotState()`: nothing held, nothing filled, zero totals, stamped `now`. */
  function NewBotState(now: DateTime): BotState
  {
    BotState(map[], map[], [], 0.0, 0.0, now)
  }

  /** The number of fills the persisted state keeps. */
  const MaxSavedFills := 1000

  /** `s[-n:]`: the last n elements, or all of them when there are fewer. */
  function LastN<T>(s: seq<T>, n: nat): (r: seq<T>)
    ensures |r| == if |s| <= n then |s| else n
    ensures r == s[|s| - |r|..]
  {
    if |s| <= n then s else s[|s| - n..]
  }

  function FillsToJson(fs: seq<Fill>): (r: seq<Json>)
    ensures |r| == |fs|
    ensures forall i :: 0 <= i < |fs| ==> r[i] == FillToJson(fs[i])
  {
    seq(|fs|, i requires 0 <= i < |fs| => FillToJson(fs[i]))
  }

  /** `[Fill.from_dict(f) for f in items]`: the first failing element's error, in list order. */
  function FillsFromJson(items: seq<Json>): (r: Result<seq<Fill>>)
    ensures r.Success? <==> forall i :: 0 <= i < |items| ==> FillFromJson(items[i]).Success?
    ensures r.Success? ==>
      (|r.value| == |items| && forall i :: 0 <= i < |items| ==> r.value[i] == FillFromJson(items[i]).value)
  {
    if |items| == 0 then Success([])
    else
      match FillFromJson(items[0])
      case Failure(e) => Failure(e)
      case Success(f) =>
        match FillsFromJson(items[1..])
        case Failure(e) =>
          assert forall i :: 1 <= i < |items| ==> items[i] == items[1..][i - 1];
          Failure(e)
        case Success(fs) => Success([f] + fs)
  }

  function PositionsToJson(ps: map<string, MarketPosition>): Json
  {
    JObj(MapValues(ps, MarketPositionToJson))
  }

  /** `{k: MarketPosition.from_dict(v) for k, v in positions.items()}` */
  function PositionsFromJson(j: Json): (r: Result<map<string, MarketPosition>>)
    ensures !j.JObj? ==> r.Failure?
    ensures j.JObj? ==> (r.Success? <==> forall k :: k in j.fields ==> MarketPositionFromJson(j.fields[k]).Success?)
    ensures r.Success? ==> j.JObj? && r.value.Keys == j.fields.Keys
    ensures r.Success? ==> forall k :: k in r.value ==> r.value[k] == MarketPositionFromJson(j.fields[k]).value
  {
    if !j.JObj? then Failure(TypeError("positions"))
    else TryValues(j.fields, MarketPositionFromJson, ValueError("positions"))
  }

  /** `BotState.to_dict`: open orders as order arguments, and only the last 1000 fills. */
  function BotStateToJson(s: BotState): Json
  {
    JObj(map[
      "positions" := PositionsToJson(s.positions),
      "open_orders" := JObj(map k | k in s.openOrders :: ToOrderArgs(s.openOrders[k])),
      "fills" := JArr(FillsToJson(LastN(s.fills, MaxSavedFills))),
      "total_maker_volume" := JNum(s.totalMakerVolume),
      "total_rebates_estimate" := JNum(s.totalRebatesEstimate),
      "last_updated" := JStr(FormatDateTime(s.lastUpdated))])
  }

  /** `data.get("positions", {})`, decoded. */
  function PositionsFieldOr(d: map<string, Json>): (r: Result<map<string, MarketPosition>>)
    ensures "positions" !in d ==> r == Success(map[])
    ensures "positions" in d ==> r == PositionsFromJson(d["positions"])
  {
    if "positions" in d then PositionsFromJson(d["positions"]) else Success(map[])
  }

  /**
   * `data.get("fills", [])`, decoded. The comprehension iterates whatever is stored: an empty
   * dictionary or string yields no fills, while the keys of a non-empty dictionary and the
   * characters of a non-empty string are not dictionaries, and other values are not iterable.
   */
  function FillsFieldOr(d: map<string, Json>): (r: Result<seq<Fill>>)
    ensures "fills" !in d ==> r == Success([])
    ensures "fills" in d && d["fills"].JArr? ==> r == FillsFromJson(d["fills"].items)
    ensures "fills" in d && (d["fills"] == JObj(map[]) || d["fills"] == JStr("")) ==> r == Success([])
    ensures "fills" in d && !d["fills"].JArr? && d["fills"] != JObj(map[]) && d["fills"] != JStr("") ==> r.Failure?
  {
    if "fills" !in d then Success([])
    else if d["fills"].JArr? then FillsFromJson(d["fills"].items)
    else if d["fills"] == JObj(map[]) || d["fills"] == JStr("") then Success([])
    else Failure(TypeError("fills"))
  }

  /** `datetime.fromisoformat(data["last_updated"]) if "last_updated" in data else now` */
  function TimestampFieldOr(d: map<string, Json>, now: DateTime): (r: Result<DateTime>)
    ensures "last_updated" !in d ==> r == Success(now)
    ensures "last_updated" in d ==> r == ParseTimestamp(d["last_updated"])
  {
    if "last_updated" in d then ParseTimestamp(d["last_updated"]) else Success(now)
  }

  /**
   * `BotState.from_dict`: every key is optional; open orders are never restored, and a state
   * without `last_updated` is stamped `now`.
   */
  function BotStateFromJson(j: Json, now: DateTime): (r: Result<BotState>)
    ensures r.Success? ==> r.value.openOrders == map[]
    ensures r.Success? ==> j.JObj? && ("positions" !in j.fields ==> r.value.positions == map[])
    ensures r.Success? ==> j.JObj? && ("fills" !in j.fields ==> r.value.fills == [])
    ensures r.Success? ==> j.JObj? && ("total_maker_volume" !in j.fields ==> r.value.totalMakerVolume == 0.0)
    ensures r.Success? ==> j.JObj? && ("total_rebates_estimate" !in j.fields ==> r.value.totalRebatesEstimate == 0.0)
    ensures r.Success? ==> j.JObj? && ("last_updated" !in j.fields ==> r.value.lastUpdated == now)
    ensures r.Success? ==> ("total_maker_volume" in j.fields ==> j.fields["total_maker_volume"] == JNum(r.value.totalMakerVolume))
    ensures r.Success? ==> ("total_rebates_estimate" in j.fields ==> j.fields["total_rebates_estimate"] == JNum(r.value.totalRebatesEstimate))
    ensures r.Success? ==> ("last_updated" in j.fields ==> ParseTimestamp(j.fields["last_updated"]) == Success(r.value.lastUpdated))
  {
    if !j.JObj? then Failure(TypeError("state"))
    else
      var d := j.fields;
      match PositionsFieldOr(d)
      case Failure(e) => Failure(e)
      case Success(positions) =>
        match FillsFieldOr(d)
        case Failure(e) => Failure(e)
        case Success(fills) =>
          match NumFieldOr(d, "total_maker_volume", 0.0)
          case Failure(e) => Failure(e)
          case Success(volume) =>
            match NumFieldOr(d, "total_rebates_estimate", 0.0)
            case Failure(e) => Failure(e)
            case Success(rebates) =>
              match TimestampFieldOr(d, now)
              case Failure(e) => Failure(e)
              case Success(lastUpdated) =>
                Success(BotState(positions, map[], fills, volume, rebates, lastUpdated))
  }

  lemma PositionsRoundTrip(ps: map<string, MarketPosition>)
    ensures PositionsFromJson(PositionsToJson(ps)) == Success(ps)
  {
    forall k | k in ps
      ensures MarketPositionFromJson(MarketPositionToJson(ps[k])) == Success(ps[k])
    {
      MarketPositionRoundTrip(ps[k]);
    }
    TryValuesInverse(ps, MarketPositionToJson, MarketPositionFromJson, ValueError("positions"));
  }

  lemma FillsRoundTrip(fs: seq<Fill>)
    ensures FillsFromJson(FillsToJson(fs)) == Success(fs)
  {
    var items := FillsToJson(fs);
    forall i | 0 <= i < |items|
      ensures FillFromJson(items[i]) == Success(fs[i])
    {
      FillRoundTrip(fs[i]);
    }
    assert FillsFromJson(items).value == fs;
  }

  /**
   * Saving and reloading a state gives back everything except the open orders, which are
   * dropped, and the fills older than the last 1000.
   */
  lemma EncodedPositionsField(s: BotState)
    ensures PositionsFieldOr(BotStateToJson(s).fields) == Success(s.positions)
  {
    var d := BotStateToJson(s).fields;
    assert "positions" in d && d["positions"] == PositionsToJson(s.positions);
    PositionsRoundTrip(s.positions);
  }

  lemma EncodedFillsField(s: BotState)
    ensures FillsFieldOr(BotStateToJson(s).fields) == Success(LastN(s.fills, MaxSavedFills))
  {
    var d := BotStateToJson(s).fields;
    assert "fills" in d && d["fills"] == JArr(FillsToJson(LastN(s.fills, MaxSavedFills)));
    FillsRoundTrip(LastN(s.fills, MaxSavedFills));
  }

  lemma EncodedTimestampField(s: BotState, now: DateTime)
    ensures TimestampFieldOr(BotStateToJson(s).fields, now) == Success(s.lastUpdated)
  {
    ParseFormatDateTime(s.lastUpdated);
  }

  lemma EncodedTotalsFields(s: BotState)
    ensures NumFieldOr(BotStateToJson(s).fields, "total_maker_volume", 0.0) == Success(s.totalMakerVolume)
    ensures NumFieldOr(BotStateToJson(s).fields, "total_rebates_estimate", 0.0) == Success(s.totalRebatesEstimate)
  {
  }

  lemma BotStateRoundTrip(s: BotState, now: DateTime)
    ensures BotStateFromJson(BotStateToJson(s), now)
         == Success(s.(openOrders := map[], fills := LastN(s.fills, MaxSavedFills)))
  {
    EncodedPositionsField(s);
    EncodedFillsField(s);
    EncodedTimestampField(s, now);
    EncodedTotalsFields(s);
  }

  /** An empty dictionary decodes to a fresh state. */
  lemma BotStateFromEmpty(now: DateTime)
    ensures BotStateFromJson(JObj(map[]), now) == Success(NewBotState(now))
  {
  }
}
