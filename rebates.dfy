/**
 * The rebate tracker: maker volume and the estimated maker rebate, per calendar day and in
 * total. The clock (`date.today()`) is a parameter.
 */
module Rebates {
  import opened Wrappers
  import opened IsoTime
  import opened Json
  import opened MapSums
  import opened MapKeys

  /** Default rebate rate, in basis points of maker volume. */
  const DefaultRateBps: real := 10.0

  // ---------------------------------------------------------------- one day

  datatype DailyRebateStats = DailyRebateStats(date: Date, makerVolume: real, estimatedRebate: real, fillCount: int)

  /** `DailyRebateStats(date=d)`: a day with nothing recorded yet. */
  function EmptyDay(d: Date): DailyRebateStats
  {
    DailyRebateStats(d, 0.0, 0.0, 0)
  }

  /** The rebate estimated for a maker volume at a rate (a fraction, not basis points). */
  function RebateAt(volume: real, rate: real): real { volume * rate }

  function MakerVolumeOf(s: DailyRebateStats): real { s.makerVolume }

  function RebateOf(s: DailyRebateStats): real { s.estimatedRebate }

  /** `DailyRebateStats.to_dict` */
  function DailyToJson(s: DailyRebateStats): Json
  {
    JObj(map[
      "date" := JStr(FormatDate(s.date)),
      "maker_volume" := JNum(s.makerVolume),
      "estimated_rebate" := JNum(s.estimatedRebate),
      "fill_count" := JInt(s.fillCount)])
  }

  /** `DailyRebateStats.from_dict` */
  function DailyFromJson(j: Json): (r: Result<DailyRebateStats>)
    ensures !j.JObj? ==> r.Failure? && r.error.TypeError?
    ensures j.JObj? && "date" !in j.fields ==> r == Failure(KeyError("date"))
    ensures r.Success? ==> j.JObj? && j.fields["date"] == JStr(FormatDate(r.value.date))
    ensures r.Success? ==>
      && j.JObj? && "maker_volume" in j.fields && "estimated_rebate" in j.fields && "fill_count" in j.fields
      && j.fields["maker_volume"] == JNum(r.value.makerVolume)
      && j.fields["estimated_rebate"] == JNum(r.value.estimatedRebate)
      && j.fields["fill_count"] == JInt(r.value.fillCount)
  {
    if !j.JObj? then Failure(TypeError("daily stats"))
    else
      var d := j.fields;
      match StrField(d, "date")
      case Failure(e) => Failure(e)
      case Success(ds) =>
        match ParseDate(ds)
        case Failure(e) => Failure(e)
        case Success(date) =>
          FormatParsedDate(ds);
          match NumField(d, "maker_volume")
          case Failure(e) => Failure(e)
          case Success(volume) =>
            match NumField(d, "estimated_rebate")
            case Failure(e) => Failure(e)
            case Success(rebate) =>
              match IntField(d, "fill_count")
              case Failure(e) => Failure(e)
              case Success(count) => Success(DailyRebateStats(date, volume, rebate, count))
  }

  lemma DailyRoundTrip(s: DailyRebateStats)
    ensures DailyFromJson(DailyToJson(s)) == Success(s)
  {
    ParseFormatDate(s.date);
  }

  // ---------------------------------------------------------------- the per-day table

  /** `d.isoformat()` names each date with its own string. */
  lemma FormatDateInjective(ks: set<Date>)
    ensures InjectiveOn(ks, FormatDate)
  {
    forall a, b | a in ks && b in ks && FormatDate(a) == FormatDate(b)
      ensures a == b
    {
      ParseFormatDate(a);
      ParseFormatDate(b);
    }
  }

  /** A key of `daily_stats` that `date.fromisoformat` accepts. */
  predicate IsDateKey(s: string)
  {
    ParseDate(s).Success?
  }

  /** The date a key names (only consulted for keys that are dates). */
  function DateOfKey(s: string): Date
  {
    match ParseDate(s)
    case Success(d) => d
    case Failure(_) => DateFields(1, 1, 1)
  }

  lemma DateOfKeyInjective(ks: set<string>)
    requires forall k :: k in ks ==> IsDateKey(k)
    ensures InjectiveOn(ks, DateOfKey)
  {
    forall a, b | a in ks && b in ks && DateOfKey(a) == DateOfKey(b)
      ensures a == b
    {
      ParseDateInjective(a, b);
    }
  }

  /** `{d.isoformat(): s.to_dict() for d, s in daily_stats.items()}` */
  function DailyMapToJson(daily: map<Date, DailyRebateStats>): Json
  {
    FormatDateInjective(daily.Keys);
    JObj(MapValues(Rekey(daily, FormatDate), DailyToJson))
  }

  /**
   * Each entry of `daily_stats`: the key through `date.fromisoformat` and the value through
   * `DailyRebateStats.from_dict`; any entry that fails makes the whole load fail.
   */
  function DailyMapFromJson(j: Json): (r: Result<map<Date, DailyRebateStats>>)
    ensures !j.JObj? ==> r.Failure?
    ensures j.JObj? ==> (r.Success? <==> forall k :: k in j.fields ==> IsDateKey(k) && DailyFromJson(j.fields[k]).Success?)
    ensures r.Success? ==> j.JObj? && forall k :: k in j.fields ==> DateOfKey(k) in r.value && r.value[DateOfKey(k)] == DailyFromJson(j.fields[k]).value
    ensures r.Success? ==> forall d :: d in r.value ==> exists k :: k in j.fields && DateOfKey(k) == d
  {
    if !j.JObj? then Failure(TypeError("daily_stats"))
    else if !(forall k :: k in j.fields ==> IsDateKey(k)) then Failure(ValueError("Invalid isoformat string"))
    else
      match TryValues(j.fields, DailyFromJson, ValueError("daily_stats"))
      case Failure(e) => Failure(e)
      case Success(days) =>
        DateOfKeyInjective(days.Keys);
        Success(Rekey(days, DateOfKey))
  }

  lemma DailyMapRoundTrip(daily: map<Date, DailyRebateStats>)
    ensures DailyMapFromJson(DailyMapToJson(daily)) == Success(daily)
  {
    FormatDateInjective(daily.Keys);
    var named := Rekey(daily, FormatDate);
    forall k | k in named
      ensures IsDateKey(k) && DailyFromJson(DailyToJson(named[k])) == Success(named[k])
    {
      var d :| d in daily && FormatDate(d) == k;
      ParseFormatDate(d);
      DailyRoundTrip(named[k]);
    }
    TryValuesInverse(named, DailyToJson, DailyFromJson, ValueError("daily_stats"));
    forall d | d in daily
      ensures DateOfKey(FormatDate(d)) == d
    {
      ParseFormatDate(d);
    }
    RekeyInverse(daily, FormatDate, DateOfKey);
  }

  /** `record_fill` on the day table: today's entry, created if absent, gains the fill. */
  function DailyAfterFill(daily: map<Date, DailyRebateStats>, today: Date, amount: real, rate: real): map<Date, DailyRebateStats>
  {
    var s := if today in daily then daily[today] else EmptyDay(today);
    daily[today := s.(makerVolume := s.makerVolume + amount,
                      estimatedRebate := s.estimatedRebate + RebateAt(amount, rate),
                      fillCount := s.fillCount + 1)]
  }

  /** A fill adds its amount to the summed volume and its rebate to the summed rebates. */
  lemma DailyAfterFillSums(daily: map<Date, DailyRebateStats>, today: Date, amount: real, rate: real)
    ensures SumValues(DailyAfterFill(daily, today, amount, rate), MakerVolumeOf) == SumValues(daily, MakerVolumeOf) + amount
    ensures SumValues(DailyAfterFill(daily, today, amount, rate), RebateOf) == SumValues(daily, RebateOf) + RebateAt(amount, rate)
  {
    var after := DailyAfterFill(daily, today, amount, rate);
    if today in daily {
      SumValuesUpdate(daily, MakerVolumeOf, today, after[today]);
      SumValuesUpdate(daily, RebateOf, today, after[today]);
    } else {
      SumValuesInsert(daily, MakerVolumeOf, today, after[today]);
      SumValuesInsert(daily, RebateOf, today, after[today]);
    }
  }

  /** Every entry is filed under its own date. */
  predicate KeysMatch(daily: map<Date, DailyRebateStats>)
  {
    forall d :: d in daily ==> daily[d].date == d
  }

  /** Every day's rebate is its volume at the given rate. */
  predicate RebatesAtRate(daily: map<Date, DailyRebateStats>, rate: real)
  {
    forall d :: d in daily ==> daily[d].estimatedRebate == RebateAt(daily[d].makerVolume, rate)
  }

  lemma DailyAfterFillKeeps(daily: map<Date, DailyRebateStats>, today: Date, amount: real, rate: real)
    ensures KeysMatch(daily) ==> KeysMatch(DailyAfterFill(daily, today, amount, rate))
    ensures RebatesAtRate(daily, rate) ==> RebatesAtRate(DailyAfterFill(daily, today, amount, rate), rate)
  {
    var after := DailyAfterFill(daily, today, amount, rate);
    if RebatesAtRate(daily, rate) {
      var s := if today in daily then daily[today] else EmptyDay(today);
      RateStep(s.estimatedRebate, s.makerVolume, amount, rate);
    }
  }

  /** A rebate that is the volume at a rate stays so when an amount and its rebate are added. */
  lemma RateStep(rebate: real, volume: real, amount: real, rate: real)
    requires rebate == RebateAt(volume, rate)
    ensures rebate + RebateAt(amount, rate) == RebateAt(volume + amount, rate)
  {
  }

  /**
   * The totals are the sums over the day table, every entry is filed under its date, and
   * both every day's rebate and the total rebate are the volume at the rate.
   */
  ghost predicate TrackerConsistent(rate: real, daily: map<Date, DailyRebateStats>, volume: real, rebates: real)
  {
    && volume == SumValues(daily, MakerVolumeOf)
    && rebates == SumValues(daily, RebateOf)
    && rebates == RebateAt(volume, rate)
    && KeysMatch(daily)
    && RebatesAtRate(daily, rate)
  }

  /** A maker fill keeps the tracker consistent. */
  lemma FillKeepsConsistent(rate: real, daily: map<Date, DailyRebateStats>, volume: real, rebates: real, today: Date, amount: real)
    requires TrackerConsistent(rate, daily, volume, rebates)
    ensures TrackerConsistent(rate, DailyAfterFill(daily, today, amount, rate), volume + amount, rebates + RebateAt(amount, rate))
  {
    DailyAfterFillSums(daily, today, amount, rate);
    DailyAfterFillKeeps(daily, today, amount, rate);
    RateStep(rebates, volume, amount, rate);
  }

  // ---------------------------------------------------------------- the daily summary

  predicate IsEarliest(m: map<Date, DailyRebateStats>, k: Date)
    requires k in m
  {
    forall j :: j in m ==> DateKey(m[k].date) <= DateKey(m[j].date)
  }

  lemma {:induction false} EarliestExists(m: map<Date, DailyRebateStats>)
    requires m != map[]
    ensures exists k :: k in m && IsEarliest(m, k)
    decreases |m|
  {
    var a :| a in m;
    var rest := m - {a};
    assert forall j :: j in m ==> j == a || (j in rest && rest[j] == m[j]);
    if rest == map[] {
      assert IsEarliest(m, a);
    } else {
      assert |rest| < |m| by {
        assert rest.Keys == m.Keys - {a};
      }
      EarliestExists(rest);
      var b :| b in rest && IsEarliest(rest, b);
      if DateKey(m[a].date) <= DateKey(m[b].date) {
        assert IsEarliest(m, a);
      } else {
        assert IsEarliest(m, b);
      }
    }
  }

  /**
   * The dates of the table in the order `sorted(daily_stats.values(), key=lambda x: x.date)`
   * visits their entries: the date of the earliest entry first.
   */
  ghost function SortedDays(m: map<Date, DailyRebateStats>): (ks: seq<Date>)
    ensures |ks| == |m|
    ensures forall i :: 0 <= i < |ks| ==> ks[i] in m
    decreases |m|
  {
    if m == map[] then []
    else
      EarliestExists(m);
      var k :| k in m && IsEarliest(m, k);
      var rest := m - {k};
      assert rest.Keys == m.Keys - {k};
      [k] + SortedDays(rest)
  }

  /** Every date of the table is listed, once. */
  lemma {:induction false} SortedDaysMembers(m: map<Date, DailyRebateStats>)
    ensures forall d :: d in m ==> d in SortedDays(m)
    ensures forall i, j :: 0 <= i < j < |SortedDays(m)| ==> SortedDays(m)[i] != SortedDays(m)[j]
    decreases |m|
  {
    if m != map[] {
      var ks := SortedDays(m);
      var k := ks[0];
      var rest := m - {k};
      assert |rest| < |m| by { assert rest.Keys == m.Keys - {k}; }
      SortedDaysMembers(rest);
      assert ks == [k] + SortedDays(rest);
    }
  }

  /** `ks` lists dates of `m` by ascending entry date. */
  predicate OrderedBy(m: map<Date, DailyRebateStats>, ks: seq<Date>)
  {
    forall i, j :: 0 <= i < j < |ks| && ks[i] in m && ks[j] in m ==> DateKey(m[ks[i]].date) <= DateKey(m[ks[j]].date)
  }

  lemma ConsOrdered(m: map<Date, DailyRebateStats>, k: Date, tail: seq<Date>)
    requires k in m && IsEarliest(m, k)
    requires forall i :: 0 <= i < |tail| ==> tail[i] in m - {k}
    requires OrderedBy(m - {k}, tail)
    ensures OrderedBy(m, [k] + tail)
  {
    var ks := [k] + tail;
    var rest := m - {k};
    forall i, j | 0 <= i < j < |ks| && ks[i] in m && ks[j] in m
      ensures DateKey(m[ks[i]].date) <= DateKey(m[ks[j]].date)
    {
      var y := tail[j - 1];
      assert rest[y] == m[y];
      if i > 0 {
        var x := tail[i - 1];
        assert rest[x] == m[x];
      }
    }
  }

  /** The dates come in ascending order of their entries' dates. */
  lemma {:induction false} SortedDaysOrdered(m: map<Date, DailyRebateStats>)
    ensures OrderedBy(m, SortedDays(m))
    decreases |m|
  {
    if m != map[] {
      var ks := SortedDays(m);
      var k := ks[0];
      var rest := m - {k};
      assert |rest| < |m| by { assert rest.Keys == m.Keys - {k}; }
      SortedDaysOrdered(rest);
      assert ks == [k] + SortedDays(rest);
      assert IsEarliest(m, k);
      ConsOrdered(m, k, SortedDays(rest));
    }
  }

  /** `sorted(daily_stats.values(), key=lambda x: x.date)` */
  ghost function SortedStats(m: map<Date, DailyRebateStats>): (r: seq<DailyRebateStats>)
    ensures |r| == |m|
  {
    var ks := SortedDays(m);
    seq(|ks|, i requires 0 <= i < |ks| => m[ks[i]])
  }

  /** `get_daily_summary` on a table: the sorted entries, each through `to_dict`. */
  ghost function DailySummary(m: map<Date, DailyRebateStats>): (r: seq<Json>)
    ensures |r| == |m|
  {
    var st := SortedStats(m);
    seq(|st|, i requires 0 <= i < |st| => DailyToJson(st[i]))
  }

  /** Each summary entry reads back as the sorted entry it was written from. */
  lemma DailySummaryDecodes(m: map<Date, DailyRebateStats>)
    ensures forall i :: 0 <= i < |DailySummary(m)| ==> DailyFromJson(DailySummary(m)[i]) == Success(SortedStats(m)[i])
  {
    var st := SortedStats(m);
    forall i | 0 <= i < |st|
      ensures DailyFromJson(DailySummary(m)[i]) == Success(st[i])
    {
      DailyRoundTrip(st[i]);
    }
  }

  /** The sorted entries are the table's entries, each once. */
  lemma SortedStatsFromTable(m: map<Date, DailyRebateStats>)
    ensures forall i :: 0 <= i < |SortedStats(m)| ==> exists d :: d in m && SortedStats(m)[i] == m[d]
  {
    var ks := SortedDays(m);
    var r := SortedStats(m);
    forall i | 0 <= i < |r|
      ensures exists d :: d in m && r[i] == m[d]
    {
      assert r[i] == m[ks[i]];
    }
  }

  lemma SortedStatsComplete(m: map<Date, DailyRebateStats>)
    ensures forall d :: d in m ==> exists i :: 0 <= i < |SortedStats(m)| && SortedStats(m)[i] == m[d]
  {
    var ks := SortedDays(m);
    var r := SortedStats(m);
    assert forall d :: d in m ==> exists i :: 0 <= i < |r| && r[i] == m[d] by {
      SortedDaysMembers(m);
      forall d | d in m
        ensures exists i :: 0 <= i < |r| && r[i] == m[d]
      {
        var i :| 0 <= i < |ks| && ks[i] == d;
        assert r[i] == m[d];
      }
    }
  }

  /** The sorted entries come in ascending order of date. */
  lemma SortedStatsSorted(m: map<Date, DailyRebateStats>)
    ensures forall i, j :: 0 <= i < j < |SortedStats(m)| ==> DateKey(SortedStats(m)[i].date) <= DateKey(SortedStats(m)[j].date)
  {
    var ks := SortedDays(m);
    var r := SortedStats(m);
    SortedDaysOrdered(m);
    forall i, j | 0 <= i < j < |r|
      ensures DateKey(r[i].date) <= DateKey(r[j].date)
    {
      assert r[i] == m[ks[i]] && r[j] == m[ks[j]];
    }
  }

  // ---------------------------------------------------------------- persisted state

  /** What `load_state` reads: the rate (as a fraction), the totals and the day table. */
  datatype RebateSnapshot = RebateSnapshot(rate: real, totalVolume: real, totalRebates: real, daily: map<Date, DailyRebateStats>)

  /** `export_state` */
  function SnapshotToJson(s: RebateSnapshot): Json
  {
    JObj(map[
      "rebate_rate_bps" := JNum(s.rate * 10000.0),
      "total_maker_volume" := JNum(s.totalVolume),
      "total_estimated_rebates" := JNum(s.totalRebates),
      "daily_stats" := DailyMapToJson(s.daily)])
  }

  /** `state.get("daily_stats", {})`, each entry parsed. */
  function DailyFieldOr(d: map<string, Json>): (r: Result<map<Date, DailyRebateStats>>)
    ensures "daily_stats" !in d ==> r == Success(map[])
    ensures "daily_stats" in d ==> r == DailyMapFromJson(d["daily_stats"])
  {
    if "daily_stats" in d then DailyMapFromJson(d["daily_stats"]) else Success(map[])
  }

  /** The values `load_state` reads; a missing key takes the constructor's default. */
  function SnapshotFromJson(j: Json): (r: Result<RebateSnapshot>)
    ensures !j.JObj? ==> r.Failure?
    ensures r.Success? ==> j.JObj?
    ensures r.Success? ==> ("rebate_rate_bps" in j.fields ==> j.fields["rebate_rate_bps"] == JNum(r.value.rate * 10000.0))
    ensures r.Success? ==> ("rebate_rate_bps" !in j.fields ==> r.value.rate == DefaultRateBps / 10000.0)
    ensures r.Success? ==> ("total_maker_volume" in j.fields ==> j.fields["total_maker_volume"] == JNum(r.value.totalVolume))
    ensures r.Success? ==> ("total_maker_volume" !in j.fields ==> r.value.totalVolume == 0.0)
    ensures r.Success? ==> ("total_estimated_rebates" in j.fields ==> j.fields["total_estimated_rebates"] == JNum(r.value.totalRebates))
    ensures r.Success? ==> ("total_estimated_rebates" !in j.fields ==> r.value.totalRebates == 0.0)
    ensures r.Success? ==> ("daily_stats" in j.fields ==> DailyMapFromJson(j.fields["daily_stats"]) == Success(r.value.daily))
    ensures r.Success? ==> ("daily_stats" !in j.fields ==> r.value.daily == map[])
  {
    if !j.JObj? then Failure(TypeError("state"))
    else
      var d := j.fields;
      match NumFieldOr(d, "rebate_rate_bps", DefaultRateBps)
      case Failure(e) => Failure(e)
      case Success(bps) =>
        match NumFieldOr(d, "total_maker_volume", 0.0)
        case Failure(e) => Failure(e)
        case Success(volume) =>
          match NumFieldOr(d, "total_estimated_rebates", 0.0)
          case Failure(e) => Failure(e)
          case Success(rebates) =>
            match DailyFieldOr(d)
            case Failure(e) => Failure(e)
            case Success(days) => Success(RebateSnapshot(bps / 10000.0, volume, rebates, days))
  }

  /** An empty state loads as a fresh tracker with the default rate. */
  lemma SnapshotFromEmpty()
    ensures SnapshotFromJson(JObj(map[])) == Success(RebateSnapshot(DefaultRateBps / 10000.0, 0.0, 0.0, map[]))
  {
  }

  lemma EncodedDailyField(s: RebateSnapshot)
    ensures DailyFieldOr(SnapshotToJson(s).fields) == Success(s.daily)
  {
    DailyMapRoundTrip(s.daily);
  }

  lemma EncodedNumberFields(s: RebateSnapshot)
    ensures NumFieldOr(SnapshotToJson(s).fields, "rebate_rate_bps", DefaultRateBps) == Success(s.rate * 10000.0)
    ensures NumFieldOr(SnapshotToJson(s).fields, "total_maker_volume", 0.0) == Success(s.totalVolume)
    ensures NumFieldOr(SnapshotToJson(s).fields, "total_estimated_rebates", 0.0) == Success(s.totalRebates)
  {
  }

  /** Exporting and loading back gives the same rate, totals and day table. */
  lemma SnapshotRoundTrip(s: RebateSnapshot)
    ensures SnapshotFromJson(SnapshotToJson(s)) == Success(s)
  {
    EncodedDailyField(s);
    EncodedNumberFields(s);
    assert (s.rate * 10000.0) / 10000.0 == s.rate;
  }

  // ---------------------------------------------------------------- the tracker

  class RebateTracker {
    var rebateRate: real
    var dailyStats: map<Date, DailyRebateStats>
    var totalMakerVolume: real
    var totalEstimatedRebates: real

    /** See `TrackerConsistent`. */
    ghost predicate Consistent()
      reads this
    {
      TrackerConsistent(rebateRate, dailyStats, totalMakerVolume, totalEstimatedRebates)
    }

    /** `RebateTracker(rebate_rate_bps)`: the rate is converted from basis points. */
    constructor(rebateRateBps: real)
      ensures rebateRate == rebateRateBps / 10000.0
      ensures dailyStats == map[] && totalMakerVolume == 0.0 && totalEstimatedRebates == 0.0
      ensures Consistent()
    {
      rebateRate := rebateRateBps / 10000.0;
      dailyStats := map[];
      totalMakerVolume := 0.0;
      totalEstimatedRebates := 0.0;
    }

    /** `record_fill`: a taker fill changes nothing; a maker fill is added to today and to the totals. */
    method RecordFill(fillAmount: real, isMaker: bool, today: Date)
      modifies this
      ensures !isMaker ==> unchanged(this)
      ensures isMaker ==> dailyStats == DailyAfterFill(old(dailyStats), today, fillAmount, rebateRate)
      ensures isMaker ==> totalMakerVolume == old(totalMakerVolume) + fillAmount
      ensures isMaker ==> totalEstimatedRebates == old(totalEstimatedRebates) + RebateAt(fillAmount, rebateRate)
      ensures rebateRate == old(rebateRate)
      ensures old(Consistent()) ==> Consistent()
    {
      if !isMaker {
        return;
      }
      ghost var before, volumeBefore, rebatesBefore := dailyStats, totalMakerVolume, totalEstimatedRebates;
      var stats := if today in dailyStats then dailyStats[today] else EmptyDay(today);
      var rebateAmount := RebateAt(fillAmount, rebateRate);
      stats := stats.(makerVolume := stats.makerVolume + fillAmount,
                      estimatedRebate := stats.estimatedRebate + rebateAmount,
                      fillCount := stats.fillCount + 1);
      ghost var s0 := if today in before then before[today] else EmptyDay(today);
      assert stats.makerVolume == s0.makerVolume + fillAmount;
      assert stats.estimatedRebate == s0.estimatedRebate + RebateAt(fillAmount, rebateRate);
      assert before[today := stats] == DailyAfterFill(before, today, fillAmount, rebateRate);
      dailyStats := dailyStats[today := stats];
      totalMakerVolume := totalMakerVolume + fillAmount;
      totalEstimatedRebates := totalEstimatedRebates + rebateAmount;
      if TrackerConsistent(rebateRate, before, volumeBefore, rebatesBefore) {
        FillKeepsConsistent(rebateRate, before, volumeBefore, rebatesBefore, today, fillAmount);
      }
    }

    /** `get_today_stats`: today's entry, or an empty one that is not stored. */
    function GetTodayStats(today: Date): (r: DailyRebateStats)
      reads this
      ensures r.date == today || (today in dailyStats && r == dailyStats[today])
      ensures today !in dailyStats ==> r == EmptyDay(today)
      ensures today in dailyStats ==> r == dailyStats[today]
    {
      if today !in dailyStats then EmptyDay(today) else dailyStats[today]
    }

    /** `get_stats_for_date` */
    function GetStatsForDate(d: Date): (r: Option<DailyRebateStats>)
      reads this
      ensures r.Some? <==> d in dailyStats
      ensures r.Some? ==> r.value == dailyStats[d]
    {
      if d in dailyStats then Some(dailyStats[d]) else None
    }

    /** `get_total_volume`: on a consistent tracker, the sum of the daily volumes. */
    function GetTotalVolume(): (r: real)
      reads this
      ensures Consistent() ==> r == SumValues(dailyStats, MakerVolumeOf)
    {
      totalMakerVolume
    }

    /** `get_total_rebates`: on a consistent tracker, the sum of the daily rebates. */
    function GetTotalRebates(): (r: real)
      reads this
      ensures Consistent() ==> r == SumValues(dailyStats, RebateOf)
      ensures Consistent() ==> r == RebateAt(GetTotalVolume(), rebateRate)
    {
      totalEstimatedRebates
    }

    /** `get_daily_summary` */
    ghost function GetDailySummary(): (r: seq<Json>)
      reads this
      ensures |r| == |dailyStats|
      ensures forall i :: 0 <= i < |r| ==> DailyFromJson(r[i]) == Success(SortedStats(dailyStats)[i])
    {
      DailySummaryDecodes(dailyStats);
      DailySummary(dailyStats)
    }

    /** `export_state` */
    function ExportState(): (r: Json)
      reads this
      ensures SnapshotFromJson(r) == Success(RebateSnapshot(rebateRate, totalMakerVolume, totalEstimatedRebates, dailyStats))
    {
      var s := RebateSnapshot(rebateRate, totalMakerVolume, totalEstimatedRebates, dailyStats);
      SnapshotRoundTrip(s);
      SnapshotToJson(s)
    }

    /**
     * `load_state`: the rate and the totals are replaced and the stored days are merged into
     * the table, a stored day replacing the tracker's own entry for that date.
     */
    method LoadState(state: Json) returns (err: Option<PyError>)
      modifies this
      ensures SnapshotFromJson(state).Failure? ==> err == Some(SnapshotFromJson(state).error) && unchanged(this)
      ensures SnapshotFromJson(state).Success? ==> (
        var s := SnapshotFromJson(state).value;
        && err == None
        && rebateRate == s.rate
        && totalMakerVolume == s.totalVolume
        && totalEstimatedRebates == s.totalRebates
        && dailyStats == old(dailyStats) + s.daily)
    {
      var parsed := SnapshotFromJson(state);
      if parsed.Failure? {
        return Some(parsed.error);
      }
      var s := parsed.value;
      rebateRate := s.rate;
      totalMakerVolume := s.totalVolume;
      totalEstimatedRebates := s.totalRebates;
      MergeDailyStats(s.daily);
      err := None;
    }

    /** The loop of `load_state` over the loaded days: each one overwrites the table's entry. */
    method MergeDailyStats(daily: map<Date, DailyRebateStats>)
      modifies this
      ensures dailyStats == old(dailyStats) + daily
      ensures rebateRate == old(rebateRate)
      ensures totalMakerVolume == old(totalMakerVolume)
      ensures totalEstimatedRebates == old(totalEstimatedRebates)
    {
      var rest := daily;
      while rest != map[]
        invariant dailyStats + rest == old(dailyStats) + daily
        invariant rebateRate == old(rebateRate)
        invariant totalMakerVolume == old(totalMakerVolume)
        invariant totalEstimatedRebates == old(totalEstimatedRebates)
        decreases |rest|
      {
        var d :| d in rest;
        MergeStep(dailyStats, rest, d);
        dailyStats := dailyStats[d := rest[d]];
        rest := rest - {d};
      }
      assert dailyStats + rest == dailyStats;
    }
  }

  /** Moving one entry from the pending map into the table leaves their union as it was. */
  lemma MergeStep<K, V>(a: map<K, V>, rest: map<K, V>, k: K)
    requires k in rest
    ensures a[k := rest[k]] + (rest - {k}) == a + rest
    ensures |rest - {k}| < |rest|
  {
    assert (rest - {k}).Keys == rest.Keys - {k};
  }

  /** The default rate of 10 basis points is a tenth of a percent of maker volume. */
  lemma DefaultRate()
    ensures DefaultRateBps / 10000.0 == 0.001
  {
  }
}
