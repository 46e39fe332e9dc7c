/**
 * The order-book manager: per-token L2 books kept from the market channel's `book`
 * snapshots and `price_change` updates, and the reconnect back-off of the WebSocket client.
 */
module OrderBooks {
  import opened Wrappers
  import opened Text
  import opened IsoTime
  import opened Models
  import opened Levels
  import opened Rounding

  /** A level of a snapshot, its price and size already read as numbers. */
  datatype RawLevel = RawLevel(price: real, size: real)

  /** An entry of `changes`; an absent `price` or `size` reads as 0. */
  datatype Change = Change(side: Option<string>, price: Option<real>, size: Option<real>)

  /**
   * A market-channel message, with the keys the manager reads; an absent `bids`, `asks` or
   * `changes` key is an empty list.
   */
  datatype Message = Message(
    msgType: Option<string>,
    eventType: Option<string>,
    assetId: Option<string>,
    market: Option<string>,
    bids: seq<RawLevel>,
    asks: seq<RawLevel>,
    changes: seq<Change>)

  /** Python's `a or b` on two optional strings: an absent or empty `a` falls through to `b`. */
  function OrElse(a: Option<string>, b: Option<string>): (r: Option<string>)
    ensures a.Some? && a.value != "" ==> r == a
    ensures (a.None? || a.value == "") ==> r == b
  {
    if a.Some? && a.value != "" then a else b
  }

  /** `message.get("type") or message.get("event_type")` */
  function MessageType(m: Message): Option<string>
  {
    OrElse(m.msgType, m.eventType)
  }

  /** `message.get("asset_id") or message.get("market")`, and `None` when that is empty. */
  function TokenOf(m: Message): (r: Option<string>)
    ensures r.Some? ==> r.value != ""
    ensures r.Some? ==> r == m.assetId || r == m.market
  {
    var t := OrElse(m.assetId, m.market);
    if t.Some? && t.value != "" then t else None
  }

  /** The snapshot's levels as `OrderBookLevel`s, rounded, in the order they arrived. */
  function MakeLevels(raw: seq<RawLevel>): (r: seq<Level>)
    ensures |r| == |raw|
    ensures forall i :: 0 <= i < |raw| ==> r[i] == MakeLevel(raw[i].price, raw[i].size)
  {
    seq(|raw|, i requires 0 <= i < |raw| => MakeLevel(raw[i].price, raw[i].size))
  }

  /** The book a snapshot describes: bids sorted by descending, asks by ascending price. */
  function SnapshotBook(tokenId: string, m: Message, now: DateTime): OrderBook
  {
    OrderBook(tokenId, SortLevels(MakeLevels(m.bids), false), SortLevels(MakeLevels(m.asks), true), now)
  }

  /** Bids descending and asks ascending. */
  predicate BookSorted(b: OrderBook)
  {
    Sorted(b.bids, false) && Sorted(b.asks, true)
  }

  /** A snapshot book is sorted and holds exactly the snapshot's levels on each side. */
  lemma SnapshotBookSorted(tokenId: string, m: Message, now: DateTime)
    ensures BookSorted(SnapshotBook(tokenId, m, now))
    ensures multiset(SnapshotBook(tokenId, m, now).bids) == multiset(MakeLevels(m.bids))
    ensures multiset(SnapshotBook(tokenId, m, now).asks) == multiset(MakeLevels(m.asks))
  {
    SortLevelsSorted(MakeLevels(m.bids), false);
    SortLevelsSorted(MakeLevels(m.asks), true);
    SortLevelsPermutes(MakeLevels(m.bids), false);
    SortLevelsPermutes(MakeLevels(m.asks), true);
  }

  function OrZero(x: Option<real>): real
  {
    if x.Some? then x.value else 0.0
  }

  /** One change: BUY edits the bids, SELL the asks (in any letter case), anything else nothing. */
  function ApplyChange(b: OrderBook, c: Change): OrderBook
  {
    var side := Upper(if c.side.Some? then c.side.value else "");
    if side == "BUY" then b.(bids := UpdatedLevels(b.bids, OrZero(c.price), OrZero(c.size), false))
    else if side == "SELL" then b.(asks := UpdatedLevels(b.asks, OrZero(c.price), OrZero(c.size), true))
    else b
  }

  /** The changes of one message, applied in order. */
  function ApplyChanges(b: OrderBook, cs: seq<Change>): OrderBook
  {
    if cs == [] then b else ApplyChange(ApplyChanges(b, cs[..|cs| - 1]), cs[|cs| - 1])
  }

  /** A change never alters the token or the timestamp of a book, and touches one side only. */
  lemma ApplyChangeSides(b: OrderBook, c: Change)
    ensures var r := ApplyChange(b, c);
      && r.tokenId == b.tokenId && r.timestamp == b.timestamp
      && (r.bids == b.bids || r.asks == b.asks)
  {
  }

  /** Price changes keep bids descending and asks ascending. */
  lemma {:induction false} ApplyChangesSorted(b: OrderBook, cs: seq<Change>)
    requires BookSorted(b)
    ensures BookSorted(ApplyChanges(b, cs))
  {
    if cs != [] {
      ApplyChangesSorted(b, cs[..|cs| - 1]);
      var p := ApplyChanges(b, cs[..|cs| - 1]);
      var c := cs[|cs| - 1];
      UpdatedLevelsSorted(p.bids, OrZero(c.price), OrZero(c.size), false);
      UpdatedLevelsSorted(p.asks, OrZero(c.price), OrZero(c.size), true);
    }
  }

  lemma ApplyChangesStep(b: OrderBook, cs: seq<Change>, k: int)
    requires 0 <= k < |cs|
    ensures ApplyChanges(b, cs[..k + 1]) == ApplyChange(ApplyChanges(b, cs[..k]), cs[k])
  {
    assert cs[..k + 1][..k] == cs[..k];
  }

  /** A price change keeps every book of the manager sorted. */
  lemma PriceChangeSorted(books: map<string, OrderBook>, m: Message, now: DateTime)
    requires forall t :: t in books ==> BookSorted(books[t])
    ensures forall t :: t in PriceChangeResult(books, m, now) ==> BookSorted(PriceChangeResult(books, m, now)[t])
  {
    if TokenOf(m).Some? {
      var t := TokenOf(m).value;
      var start := if t in books then books[t] else EmptyBook(t, now);
      ApplyChangesSorted(start, m.changes);
    }
  }

  /** `OrderBook(token_id=token_id)`: no levels. */
  function EmptyBook(tokenId: string, now: DateTime): OrderBook
  {
    OrderBook(tokenId, [], [], now)
  }

  class OrderBookManager {
    var orderbooks: map<string, OrderBook>

    /** Every kept book is sorted on both sides. */
    predicate Valid()
      reads this
    {
      forall t :: t in orderbooks ==> BookSorted(orderbooks[t])
    }

    /** `OrderBookManager()`: no books. */
    constructor()
      ensures orderbooks == map[] && Valid()
    {
      orderbooks := map[];
    }

    /** `handle_message`: snapshots and price changes update the books; every other type is ignored. */
    method HandleMessage(m: Message, now: DateTime)
      modifies this
      ensures MessageType(m) == Some("book") ==> orderbooks == SnapshotResult(old(orderbooks), m, now)
      ensures MessageType(m) == Some("price_change") ==> orderbooks == PriceChangeResult(old(orderbooks), m, now)
      ensures MessageType(m) != Some("book") && MessageType(m) != Some("price_change") ==> orderbooks == old(orderbooks)
      ensures old(Valid()) ==> Valid()
    {
      var msgType := MessageType(m);
      if msgType == Some("book") {
        HandleBookSnapshot(m, now);
      } else if msgType == Some("price_change") {
        HandlePriceChange(m, now);
      }
    }

    /** `_handle_book_snapshot` */
    method HandleBookSnapshot(m: Message, now: DateTime)
      modifies this
      ensures orderbooks == SnapshotResult(old(orderbooks), m, now)
      ensures old(Valid()) ==> Valid()
    {
      var tokenId := TokenOf(m);
      if tokenId.None? {
        return;
      }
      var bids := MakeLevels(m.bids);
      var asks := MakeLevels(m.asks);
      bids := SortLevels(bids, false);
      asks := SortLevels(asks, true);
      orderbooks := orderbooks[tokenId.value := OrderBook(tokenId.value, bids, asks, now)];
      SnapshotBookSorted(tokenId.value, m, now);
    }

    /** `_handle_price_change`: each change in turn, then the book is stamped `now`. */
    method HandlePriceChange(m: Message, now: DateTime)
      modifies this
      ensures orderbooks == PriceChangeResult(old(orderbooks), m, now)
      ensures old(Valid()) ==> Valid()
    {
      var tokenId := TokenOf(m);
      if tokenId.None? {
        return;
      }
      var t := tokenId.value;
      if t !in orderbooks {
        orderbooks := orderbooks[t := EmptyBook(t, now)];
      }
      var book := orderbooks[t];
      ghost var start := book;
      ghost var before := orderbooks;
      for k := 0 to |m.changes|
        invariant orderbooks == before
        invariant book == ApplyChanges(start, m.changes[..k])
      {
        var change := m.changes[k];
        var side := Upper(if change.side.Some? then change.side.value else "");
        var price := OrZero(change.price);
        var size := OrZero(change.size);
        ghost var previous := book;
        if side == "BUY" {
          var bids := UpdateLevel(book.bids, price, size, false);
          book := book.(bids := bids);
        } else if side == "SELL" {
          var asks := UpdateLevel(book.asks, price, size, true);
          book := book.(asks := asks);
        }
        assert book == ApplyChange(previous, change);
        ApplyChangesStep(start, m.changes, k);
      }
      assert m.changes[..|m.changes|] == m.changes;
      assert start == if t in old(orderbooks) then old(orderbooks)[t] else EmptyBook(t, now);
      book := book.(timestamp := now);
      orderbooks := orderbooks[t := book];
      assert orderbooks == old(orderbooks)[t := book];
      if old(Valid()) {
        PriceChangeSorted(old(orderbooks), m, now);
      }
    }

    /** `get_orderbook` */
    function GetOrderbook(tokenId: string): (r: Option<OrderBook>)
      reads this
      ensures r.Some? <==> tokenId in orderbooks
      ensures r.Some? ==> r.value == orderbooks[tokenId]
    {
      if tokenId in orderbooks then Some(orderbooks[tokenId]) else None
    }

    /** `get_best_bid`: None for an unknown token or an empty bid side. */
    function GetBestBid(tokenId: string): (r: Option<real>)
      reads this
      ensures r.Some? <==> tokenId in orderbooks && |orderbooks[tokenId].bids| > 0
      ensures r.Some? ==> r.value == orderbooks[tokenId].bids[0].price
      ensures Valid() && r.Some? ==>
        forall i :: 0 <= i < |orderbooks[tokenId].bids| ==> orderbooks[tokenId].bids[i].price <= r.value
    {
      match GetOrderbook(tokenId)
      case Some(b) => BestBid(b)
      case None => None
    }

    /** `get_best_ask`: None for an unknown token or an empty ask side. */
    function GetBestAsk(tokenId: string): (r: Option<real>)
      reads this
      ensures r.Some? <==> tokenId in orderbooks && |orderbooks[tokenId].asks| > 0
      ensures r.Some? ==> r.value == orderbooks[tokenId].asks[0].price
      ensures Valid() && r.Some? ==>
        forall i :: 0 <= i < |orderbooks[tokenId].asks| ==> orderbooks[tokenId].asks[i].price >= r.value
    {
      match GetOrderbook(tokenId)
      case Some(b) => BestAsk(b)
      case None => None
    }

    /** `get_midpoint`: None unless the token's book has both sides. */
    function GetMidpoint(tokenId: string): (r: Option<real>)
      reads this
      ensures r.Some? <==> tokenId in orderbooks && |orderbooks[tokenId].bids| > 0 && |orderbooks[tokenId].asks| > 0
      ensures r.Some? ==> r.value == (orderbooks[tokenId].bids[0].price + orderbooks[tokenId].asks[0].price) / 2.0
    {
      match GetOrderbook(tokenId)
      case Some(b) => Midpoint(b)
      case None => None
    }
  }

  /**
   * The books after a snapshot: unchanged without a token, otherwise that token's book
   * replaced and nothing else changed.
   */
  function SnapshotResult(books: map<string, OrderBook>, m: Message, now: DateTime): map<string, OrderBook>
  {
    match TokenOf(m)
    case None => books
    case Some(t) => books[t := SnapshotBook(t, m, now)]
  }

  /**
   * The books after a price change: unchanged without a token, otherwise that token's book
   * (a new, empty one if there was none) with the changes applied and stamped `now`.
   */
  function PriceChangeResult(books: map<string, OrderBook>, m: Message, now: DateTime): map<string, OrderBook>
  {
    match TokenOf(m)
    case None => books
    case Some(t) =>
      var start := if t in books then books[t] else EmptyBook(t, now);
      books[t := ApplyChanges(start, m.changes).(timestamp := now)]
  }

  /** A price change for an unknown token starts from an empty book, and other books stay. */
  lemma PriceChangeEffect(books: map<string, OrderBook>, m: Message, now: DateTime)
    requires TokenOf(m).Some?
    ensures var t, r := TokenOf(m).value, PriceChangeResult(books, m, now);
      && r.Keys == books.Keys + {t}
      && (forall u :: u in books && u != t ==> r[u] == books[u])
      && r[t].tokenId == (if t in books then books[t].tokenId else t)
      && (t !in books ==> r[t] == ApplyChanges(EmptyBook(t, now), m.changes).(timestamp := now))
  {
    var t := TokenOf(m).value;
    var start := if t in books then books[t] else EmptyBook(t, now);
    ApplyChangesToken(start, m.changes);
  }

  /**
   * A snapshot without a token changes nothing; otherwise only that token's book is replaced,
   * by one sorted on both sides that holds exactly the snapshot's levels.
   */
  lemma SnapshotEffect(books: map<string, OrderBook>, m: Message, now: DateTime)
    ensures TokenOf(m).None? ==> SnapshotResult(books, m, now) == books
    ensures TokenOf(m).Some? ==>
      var t, r := TokenOf(m).value, SnapshotResult(books, m, now);
      && r.Keys == books.Keys + {t}
      && (forall u :: u in books && u != t ==> r[u] == books[u])
      && r[t].tokenId == t && r[t].timestamp == now
      && BookSorted(r[t])
      && multiset(r[t].bids) == multiset(MakeLevels(m.bids))
      && multiset(r[t].asks) == multiset(MakeLevels(m.asks))
  {
    if TokenOf(m).Some? {
      SnapshotBookSorted(TokenOf(m).value, m, now);
    }
  }

  lemma {:induction false} ApplyChangesToken(b: OrderBook, cs: seq<Change>)
    ensures ApplyChanges(b, cs).tokenId == b.tokenId
  {
    if cs != [] {
      ApplyChangesToken(b, cs[..|cs| - 1]);
    }
  }

  /** The back-off step after a failed connection: `min(delay * multiplier, max_delay)`. */
  function NextDelay(delay: real, multiplier: real, maxDelay: real): (r: real)
    ensures r <= maxDelay && r <= delay * multiplier
    ensures r == delay * multiplier || r == maxDelay
  {
    if delay * multiplier <= maxDelay then delay * multiplier else maxDelay
  }

  /** With a multiplier of at least 1, a delay within the cap never shrinks. */
  lemma NextDelayGrows(delay: real, multiplier: real, maxDelay: real)
    requires multiplier >= 1.0 && 0.0 <= delay <= maxDelay
    ensures delay <= NextDelay(delay, multiplier, maxDelay)
  {
    assert delay * multiplier - delay == delay * (multiplier - 1.0);
    assert delay * (multiplier - 1.0) >= 0.0;
  }

  function Power(x: real, n: nat): real
  {
    if n == 0 then 1.0 else x * Power(x, n - 1)
  }

  /** The delay after `n` consecutive failures, starting from the base delay. */
  function DelayAfter(base: real, multiplier: real, maxDelay: real, n: nat): real
  {
    if n == 0 then base else NextDelay(DelayAfter(base, multiplier, maxDelay, n - 1), multiplier, maxDelay)
  }

  /** Capping before or after a step gives the same delay. */
  lemma CapThenStep(x: real, multiplier: real, maxDelay: real)
    requires x >= 0.0 && multiplier >= 1.0 && maxDelay >= 0.0
    ensures NextDelay(if x <= maxDelay then x else maxDelay, multiplier, maxDelay)
         == if x * multiplier <= maxDelay then x * multiplier else maxDelay
  {
    assert x * multiplier - x == x * (multiplier - 1.0);
    assert maxDelay * multiplier - maxDelay == maxDelay * (multiplier - 1.0);
  }

  /**
   * Exponential back-off: after `n` failures the delay is the base times the multiplier to
   * the n, capped at the maximum.
   */
  lemma DelayAfterClosedForm(base: real, multiplier: real, maxDelay: real, n: nat)
    requires n >= 1 && 0.0 <= base && multiplier >= 1.0 && maxDelay >= 0.0
    ensures DelayAfter(base, multiplier, maxDelay, n) ==
      (if base * Power(multiplier, n) <= maxDelay then base * Power(multiplier, n) else maxDelay)
  {
    DelayAfterGrown(base, multiplier, maxDelay, n);
    GrownIsPower(base, multiplier, n);
  }

  /** The uncapped delay after `n` steps: `n` multiplications of the base. */
  function Grown(base: real, multiplier: real, n: nat): real
  {
    if n == 0 then base else Grown(base, multiplier, n - 1) * multiplier
  }

  /** `n` multiplications of the base are the base times the n-th power. */
  lemma {:induction false} GrownIsPower(base: real, multiplier: real, n: nat)
    ensures Grown(base, multiplier, n) == base * Power(multiplier, n)
  {
    if n > 0 {
      GrownIsPower(base, multiplier, n - 1);
      PowerStep(base, multiplier, n);
    }
  }

  lemma {:induction false} GrownNonNegative(base: real, multiplier: real, n: nat)
    requires 0.0 <= base && multiplier >= 1.0
    ensures Grown(base, multiplier, n) >= 0.0
  {
    if n > 0 {
      GrownNonNegative(base, multiplier, n - 1);
      MultiplyLe(0.0, Grown(base, multiplier, n - 1), multiplier);
    }
  }

  /** The delay after `n` failures is the uncapped delay, capped. */
  lemma {:induction false} DelayAfterGrown(base: real, multiplier: real, maxDelay: real, n: nat)
    requires n >= 1 && 0.0 <= base && multiplier >= 1.0 && maxDelay >= 0.0
    ensures DelayAfter(base, multiplier, maxDelay, n) ==
      (if Grown(base, multiplier, n) <= maxDelay then Grown(base, multiplier, n) else maxDelay)
  {
    if n == 1 {
      DelayOnce(base, multiplier, maxDelay);
    } else {
      DelayAfterGrown(base, multiplier, maxDelay, n - 1);
      GrownNonNegative(base, multiplier, n - 1);
      DelayStep(base, multiplier, maxDelay, n, Grown(base, multiplier, n - 1), Grown(base, multiplier, n));
    }
  }

  /** One more failure takes a capped delay `x` to the capped `y = x × multiplier`. */
  lemma DelayStep(base: real, multiplier: real, maxDelay: real, n: nat, x: real, y: real)
    requires n >= 1 && x >= 0.0 && multiplier >= 1.0 && maxDelay >= 0.0 && y == x * multiplier
    requires DelayAfter(base, multiplier, maxDelay, n - 1) == (if x <= maxDelay then x else maxDelay)
    ensures DelayAfter(base, multiplier, maxDelay, n) == (if y <= maxDelay then y else maxDelay)
  {
    CapThenStep(x, multiplier, maxDelay);
  }

  /** The first failure multiplies the base delay once, capped. */
  lemma DelayOnce(base: real, multiplier: real, maxDelay: real)
    ensures DelayAfter(base, multiplier, maxDelay, 1) ==
      (if Grown(base, multiplier, 1) <= maxDelay then Grown(base, multiplier, 1) else maxDelay)
  {
    assert Grown(base, multiplier, 1) == base * multiplier;
    assert DelayAfter(base, multiplier, maxDelay, 1) == NextDelay(base, multiplier, maxDelay);
  }

  lemma PowerStep(base: real, x: real, n: nat)
    requires n >= 1
    ensures base * Power(x, n) == base * Power(x, n - 1) * x
  {
    var p := Power(x, n - 1);
    assert Power(x, n) == x * p;
  }

  /** The configured back-off from 1 s, doubling, capped at 30 s: 1, 2, 4, 8, 16, 30, 30. */
  lemma DefaultBackoff()
    ensures DelayAfter(1.0, 2.0, 30.0, 1) == 2.0
    ensures DelayAfter(1.0, 2.0, 30.0, 4) == 16.0
    ensures DelayAfter(1.0, 2.0, 30.0, 5) == 30.0
    ensures DelayAfter(1.0, 2.0, 30.0, 6) == 30.0
  {
  }
}
