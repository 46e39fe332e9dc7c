/**
 * The price levels of one side of an L2 book: bids kept in descending price order, asks in
 * ascending order, with Python's stable `list.sort` and the incremental `_update_level` edit.
 */
module Levels {
  import opened Wrappers
  import opened Rounding
  import opened Models

  /** `x` sorts strictly ahead of `y`: a lower price for asks, a higher one for bids. */
  predicate Ahead(x: Level, y: Level, ascending: bool)
  {
    if ascending then x.price < y.price else x.price > y.price
  }

  /** `x` may come before `y` in a sorted side. */
  predicate InOrder(x: Level, y: Level, ascending: bool)
  {
    if ascending then x.price <= y.price else x.price >= y.price
  }

  predicate Sorted(s: seq<Level>, ascending: bool)
  {
    forall i, j :: 0 <= i < j < |s| ==> InOrder(s[i], s[j], ascending)
  }

  /** Insert `x` after every level it does not sort strictly ahead of, keeping ties in order. */
  function Insert(s: seq<Level>, x: Level, ascending: bool): seq<Level>
  {
    if s == [] then [x]
    else if Ahead(x, s[0], ascending) then [x] + s
    else [s[0]] + Insert(s[1..], x, ascending)
  }

  /**
   * `levels.sort(key=price)` (ascending) or `levels.sort(key=price, reverse=True)`: a stable
   * sort, so levels of equal price keep their relative order.
   */
  function SortLevels(s: seq<Level>, ascending: bool): seq<Level>
  {
    if s == [] then [] else Insert(SortLevels(s[..|s| - 1], ascending), s[|s| - 1], ascending)
  }

  lemma {:induction false} InsertMultiset(s: seq<Level>, x: Level, ascending: bool)
    ensures multiset(Insert(s, x, ascending)) == multiset(s) + multiset{x}
  {
    if s != [] && !Ahead(x, s[0], ascending) {
      InsertMultiset(s[1..], x, ascending);
      assert s == [s[0]] + s[1..];
    }
  }

  lemma {:induction false} InsertSorted(s: seq<Level>, x: Level, ascending: bool)
    requires Sorted(s, ascending)
    ensures Sorted(Insert(s, x, ascending), ascending)
  {
    if s != [] && !Ahead(x, s[0], ascending) {
      InsertSorted(s[1..], x, ascending);
      InsertMultiset(s[1..], x, ascending);
      var t := Insert(s[1..], x, ascending);
      forall j | 0 <= j < |t|
        ensures InOrder(s[0], t[j], ascending)
      {
        assert t[j] in multiset(t);
        assert t[j] in multiset(s[1..]) || t[j] == x;
        if t[j] != x {
          var k :| 0 <= k < |s[1..]| && s[1..][k] == t[j];
          assert s[k + 1] == t[j];
        }
      }
    }
  }

  /** The sort yields a sorted side. */
  lemma {:induction false} SortLevelsSorted(s: seq<Level>, ascending: bool)
    ensures Sorted(SortLevels(s, ascending), ascending)
  {
    if s != [] {
      SortLevelsSorted(s[..|s| - 1], ascending);
      InsertSorted(SortLevels(s[..|s| - 1], ascending), s[|s| - 1], ascending);
    }
  }

  /** The sort neither loses nor invents a level. */
  lemma {:induction false} SortLevelsPermutes(s: seq<Level>, ascending: bool)
    ensures multiset(SortLevels(s, ascending)) == multiset(s)
  {
    if s != [] {
      SortLevelsPermutes(s[..|s| - 1], ascending);
      InsertMultiset(SortLevels(s[..|s| - 1], ascending), s[|s| - 1], ascending);
      assert s == s[..|s| - 1] + [s[|s| - 1]];
    }
  }

  lemma {:induction false} InsertAtEnd(s: seq<Level>, x: Level, ascending: bool)
    requires forall i :: 0 <= i < |s| ==> InOrder(s[i], x, ascending)
    ensures Insert(s, x, ascending) == s + [x]
  {
    if s != [] {
      InsertAtEnd(s[1..], x, ascending);
      assert s == [s[0]] + s[1..];
    }
  }

  /** A side that is already sorted is left exactly as it is, ties included. */
  lemma {:induction false} SortLevelsOfSorted(s: seq<Level>, ascending: bool)
    requires Sorted(s, ascending)
    ensures SortLevels(s, ascending) == s
  {
    if s != [] {
      var init := s[..|s| - 1];
      SortLevelsOfSorted(init, ascending);
      InsertAtEnd(init, s[|s| - 1], ascending);
      assert s == init + [s[|s| - 1]];
    }
  }

  /** The price tolerance `_update_level` matches levels with. */
  const PriceTolerance := 0.0001

  /** `abs(level_price - price) < 0.0001` */
  predicate Near(levelPrice: real, price: real)
  {
    (if levelPrice >= price then levelPrice - price else price - levelPrice) < PriceTolerance
  }

  /** The first level from index `i` on whose price is near `price`. */
  function FindLevel(levels: seq<Level>, price: real, i: nat): (r: Option<nat>)
    requires i <= |levels|
    ensures r.Some? ==> i <= r.value < |levels| && Near(levels[r.value].price, price)
    ensures r.Some? ==> forall j :: i <= j < r.value ==> !Near(levels[j].price, price)
    ensures r.None? ==> forall j :: i <= j < |levels| ==> !Near(levels[j].price, price)
    decreases |levels| - i
  {
    if i == |levels| then None
    else if Near(levels[i].price, price) then Some(i)
    else FindLevel(levels, price, i + 1)
  }

  /**
   * What `_update_level` makes of a side: the first level near `price` is removed for a size
   * that is not positive and otherwise takes the new size, unrounded; with no such level, a
   * positive size adds a new, rounded level and re-sorts.
   */
  function UpdatedLevels(levels: seq<Level>, price: real, size: real, ascending: bool): seq<Level>
  {
    match FindLevel(levels, price, 0)
    case Some(i) =>
      if size <= 0.0 then levels[..i] + levels[i + 1..] else levels[i := levels[i].(size := size)]
    case None =>
      if size > 0.0 then SortLevels(levels + [MakeLevel(price, size)], ascending) else levels
  }

  /** `_update_level(levels, price, size, ascending)`: the search loop, then the edit. */
  method UpdateLevel(levels: seq<Level>, price: real, size: real, ascending: bool) returns (r: seq<Level>)
    ensures r == UpdatedLevels(levels, price, size, ascending)
  {
    var i := 0;
    while i < |levels|
      invariant 0 <= i <= |levels|
      invariant FindLevel(levels, price, 0) == FindLevel(levels, price, i)
    {
      if Near(levels[i].price, price) {
        if size <= 0.0 {
          r := levels[..i] + levels[i + 1..];
        } else {
          r := levels[i := levels[i].(size := size)];
        }
        return;
      }
      i := i + 1;
    }
    if size > 0.0 {
      var newLevel := MakeLevel(price, size);
      r := SortLevels(levels + [newLevel], ascending);
    } else {
      r := levels;
    }
  }

  /**
   * An edit at a matching level: removal drops exactly that level, an update changes only its
   * size, and every other level stays where it was.
   */
  lemma MatchedLevelEdit(levels: seq<Level>, price: real, size: real, ascending: bool)
    requires FindLevel(levels, price, 0).Some?
    ensures var i, r := FindLevel(levels, price, 0).value, UpdatedLevels(levels, price, size, ascending);
      && (size <= 0.0 ==> |r| == |levels| - 1 && r[..i] == levels[..i] && r[i..] == levels[i + 1..])
      && (size > 0.0 ==>
            |r| == |levels| && r[i] == Level(levels[i].price, size)
            && forall j :: 0 <= j < |levels| && j != i ==> r[j] == levels[j])
  {
  }

  /**
   * With no matching level, a positive size adds one level (rounded to four decimals) to the
   * side's contents and the side comes out sorted; any other size changes nothing.
   */
  lemma UnmatchedLevelEdit(levels: seq<Level>, price: real, size: real, ascending: bool)
    requires FindLevel(levels, price, 0).None?
    ensures var r := UpdatedLevels(levels, price, size, ascending);
      && (size > 0.0 ==> multiset(r) == multiset(levels) + multiset{MakeLevel(price, size)} && Sorted(r, ascending))
      && (size <= 0.0 ==> r == levels)
  {
    if size > 0.0 {
      SortLevelsPermutes(levels + [MakeLevel(price, size)], ascending);
      SortLevelsSorted(levels + [MakeLevel(price, size)], ascending);
    }
  }

  /** Inserting into a sorted side is the same as slotting the new level into place. */
  lemma UnmatchedInsertSlots(levels: seq<Level>, price: real, size: real, ascending: bool)
    requires Sorted(levels, ascending) && FindLevel(levels, price, 0).None? && size > 0.0
    ensures UpdatedLevels(levels, price, size, ascending) == Insert(levels, MakeLevel(price, size), ascending)
  {
    var s := levels + [MakeLevel(price, size)];
    assert s[..|s| - 1] == levels;
    SortLevelsOfSorted(levels, ascending);
  }

  /** Every edit keeps a sorted side sorted. */
  lemma {:induction false} UpdatedLevelsSorted(levels: seq<Level>, price: real, size: real, ascending: bool)
    requires Sorted(levels, ascending)
    ensures Sorted(UpdatedLevels(levels, price, size, ascending), ascending)
  {
    match FindLevel(levels, price, 0)
    case Some(i) =>
      if size <= 0.0 {
        var r := levels[..i] + levels[i + 1..];
        forall a, b | 0 <= a < b < |r|
          ensures InOrder(r[a], r[b], ascending)
        {
          var a', b' := if a < i then a else a + 1, if b < i then b else b + 1;
          assert r[a] == levels[a'] && r[b] == levels[b'];
        }
      }
    case None =>
      if size > 0.0 {
        SortLevelsSorted(levels + [MakeLevel(price, size)], ascending);
      }
  }
}
