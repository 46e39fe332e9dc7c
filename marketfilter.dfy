/**
 * The market filter: which markets the bot trades, decided from the question text (asset and
 * timeframe) and the two outcome prices. The regular-expression engine is not modelled: a
 * compiled pattern is its source text and flags, and `re.search` is a parameter that returns
 * the text of the first group of the match, if there is one.
 */
module MarketFilters {
  import opened Wrappers
  import opened Text
  import opened Models

  /** `re.compile(source, flags)`: only the pattern text and the IGNORECASE flag are kept. */
  datatype Regex = Regex(source: string, ignoreCase: bool)

  /** `pattern.search(text)`, reduced to `match.group(1)` when it matches. */
  type RegexSearch = (Regex, string) -> Option<string>

  const DefaultMinPrice: real := 0.20
  const DefaultMaxPrice: real := 0.80
  const DefaultMinLiquidity: real := 100.0

  /** The unit spellings each timeframe alternative accepts, in the order the pattern lists them. */
  function UnitSpellings(unit: char): seq<string>
  {
    if unit == 'm' then ["m", "min", "minute"] else ["h", "hr", "hour"]
  }

  /** `\b(A|B|...)\b` over the escaped asset names, ignoring case. */
  function AssetPattern(assets: seq<string>): (r: Regex)
    ensures r.ignoreCase
    ensures (forall i, j :: 0 <= i < |assets| && 0 <= j < |assets[i]| ==> !IsRegexSpecial(assets[i][j]))
      ==> r.source == "\\b(" + Join("|", assets) + ")\\b"
  {
    var escaped := seq(|assets|, i requires 0 <= i < |assets| => RegexEscape(assets[i]));
    assert (forall i, j :: 0 <= i < |assets| && 0 <= j < |assets[i]| ==> !IsRegexSpecial(assets[i][j]))
      ==> escaped == assets by {
      if forall i, j :: 0 <= i < |assets| && 0 <= j < |assets[i]| ==> !IsRegexSpecial(assets[i][j]) {
        forall i | 0 <= i < |assets| ensures escaped[i] == assets[i] {
          RegexEscapePlain(assets[i]);
        }
      }
    }
    Regex("\\b(" + Join("|", escaped) + ")\\b", true)
  }

  /** The unit alternatives in the timeframe pattern are the spellings, separated by "|". */
  lemma UnitAlternatives()
    ensures Join("|", UnitSpellings('m')) == "m|min|minute"
    ensures Join("|", UnitSpellings('h')) == "h|hr|hour"
  {
    assert Join("|", ["minute"]) == "minute";
    assert Join("|", ["hour"]) == "hour";
  }

  /**
   * The alternative one configured timeframe contributes: the number before a trailing "m"
   * or "h", then optional white space and a unit spelling. Any other suffix contributes none.
   */
  function TimeframeAlternative(tf: string): (r: Option<string>)
    ensures r.Some? <==> EndsWith(tf, "m") || EndsWith(tf, "h")
    ensures r.Some? ==> r.value == tf[..|tf| - 1] + "\\s*(?:" + Join("|", UnitSpellings(tf[|tf| - 1])) + ")"
  {
    UnitAlternatives();
    if EndsWith(tf, "m") then
      Some(tf[..|tf| - 1] + "\\s*(?:m|min|minute)")
    else if EndsWith(tf, "h") then
      Some(tf[..|tf| - 1] + "\\s*(?:h|hr|hour)")
    else
      None
  }

  function OptionToSeq<T>(o: Option<T>): seq<T>
  {
    if o.Some? then [o.value] else []
  }

  /** The alternatives of all configured timeframes, in configuration order. */
  function TimeframeAlternatives(timeframes: seq<string>): seq<string>
  {
    if timeframes == [] then []
    else OptionToSeq(TimeframeAlternative(timeframes[0])) + TimeframeAlternatives(timeframes[1..])
  }

  lemma {:induction false} TimeframeAlternativesAppend(timeframes: seq<string>, tf: string)
    ensures TimeframeAlternatives(timeframes + [tf])
      == TimeframeAlternatives(timeframes) + OptionToSeq(TimeframeAlternative(tf))
    decreases |timeframes|
  {
    if timeframes == [] {
      assert timeframes + [tf] == [tf];
    } else {
      assert (timeframes + [tf])[1..] == timeframes[1..] + [tf];
      TimeframeAlternativesAppend(timeframes[1..], tf);
    }
  }

  /** One alternative per timeframe with a minute or hour suffix, and nothing else. */
  lemma {:induction false} TimeframeAlternativesExact(timeframes: seq<string>)
    ensures forall tf :: (tf in timeframes && TimeframeAlternative(tf).Some?
      ==> TimeframeAlternative(tf).value in TimeframeAlternatives(timeframes))
    ensures forall a :: (a in TimeframeAlternatives(timeframes)
      ==> exists tf :: tf in timeframes && TimeframeAlternative(tf) == Some(a))
    ensures |TimeframeAlternatives(timeframes)| <= |timeframes|
    decreases |timeframes|
  {
    if timeframes != [] {
      TimeframeAlternativesExact(timeframes[1..]);
      var alts := TimeframeAlternatives(timeframes);
      var rest := TimeframeAlternatives(timeframes[1..]);
      var head := OptionToSeq(TimeframeAlternative(timeframes[0]));
      assert alts == head + rest;
      forall tf | tf in timeframes && TimeframeAlternative(tf).Some?
        ensures TimeframeAlternative(tf).value in alts
      {
        if tf != timeframes[0] {
          assert tf in timeframes[1..];
        }
      }
      forall a | a in alts
        ensures exists tf :: tf in timeframes && TimeframeAlternative(tf) == Some(a)
      {
        if a in head {
          assert TimeframeAlternative(timeframes[0]) == Some(a);
        } else {
          var tf :| tf in timeframes[1..] && TimeframeAlternative(tf) == Some(a);
          assert tf in timeframes;
        }
      }
    }
  }

  /** `_build_timeframe_pattern` */
  method BuildTimeframePattern(timeframes: seq<string>) returns (p: Regex)
    ensures p == Regex("(" + Join("|", TimeframeAlternatives(timeframes)) + ")", true)
  {
    var patterns: seq<string> := [];
    for i := 0 to |timeframes|
      invariant patterns == TimeframeAlternatives(timeframes[..i])
    {
      var tf := timeframes[i];
      assert timeframes[..i + 1] == timeframes[..i] + [tf];
      TimeframeAlternativesAppend(timeframes[..i], tf);
      if EndsWith(tf, "m") {
        var mins := tf[..|tf| - 1];
        patterns := patterns + [mins + "\\s*(?:m|min|minute)"];
      } else if EndsWith(tf, "h") {
        var hours := tf[..|tf| - 1];
        patterns := patterns + [hours + "\\s*(?:h|hr|hour)"];
      }
    }
    assert timeframes[..|timeframes|] == timeframes;
    p := Regex("(" + Join("|", patterns) + ")", true);
  }

  /** With no minute or hour timeframe configured, the timeframe pattern is the empty group. */
  lemma {:induction false} EmptyTimeframePattern(timeframes: seq<string>)
    requires forall tf :: tf in timeframes ==> !EndsWith(tf, "m") && !EndsWith(tf, "h")
    ensures TimeframeAlternatives(timeframes) == []
    ensures "(" + Join("|", TimeframeAlternatives(timeframes)) + ")" == "()"
    decreases |timeframes|
  {
    if timeframes != [] {
      assert timeframes[0] in timeframes;
      assert forall tf :: tf in timeframes[1..] ==> tf in timeframes;
      EmptyTimeframePattern(timeframes[1..]);
    }
  }

  /** Neither an ASCII letter nor a space: what may stand before a unit in a timeframe. */
  predicate IsNumberText(n: string)
  {
    forall i :: 0 <= i < |n| ==> !IsAsciiLower(n[i]) && !IsAsciiUpper(n[i]) && n[i] != ' '
  }

  /**
   * The normalisation `extract_timeframe` applies to the matched text: lower case and
   * spaces removed, then the unit shortened.
   */
  function NormalizeTimeframe(matched: string): string
  {
    ShortenUnit(Replace(Lower(matched), " ", ""))
  }

  /** "min"/"minute" become "m"; otherwise "hour"/"hr" become "h". */
  function ShortenUnit(tf: string): string
  {
    if Contains(tf, "min") then
      Replace(Replace(tf, "min", "m"), "ute", "")
    else if Contains(tf, "hour") || Contains(tf, "hr") then
      Replace(Replace(tf, "hour", "h"), "hr", "h")
    else
      tf
  }

  /** The normalised text has no space and no upper-case letter, whatever was matched. */
  lemma NormalizeTimeframeClean(matched: string)
    ensures forall c :: c in NormalizeTimeframe(matched) ==> c != ' ' && !IsAsciiUpper(c)
  {
    var l := Lower(matched);
    var tf := Replace(l, " ", "");
    ReplaceRemovesChar(l, ' ', "");
    assert [' '] == " ";
    ReplaceChars(l, " ", "");
    assert forall c :: c in tf ==> c != ' ' && !IsAsciiUpper(c);
    ReplaceChars(tf, "min", "m");
    ReplaceChars(Replace(tf, "min", "m"), "ute", "");
    ReplaceChars(tf, "hour", "h");
    ReplaceChars(Replace(tf, "hour", "h"), "hr", "h");
  }

  /** Lower-casing leaves the number and the spaces alone and lower-cases the unit. */
  lemma LowerMatched(n: string, sp: string, u: string)
    requires IsNumberText(n)
    requires forall i :: 0 <= i < |sp| ==> sp[i] == ' '
    ensures Lower(n + sp + u) == n + sp + Lower(u)
  {
    var s := n + sp + u;
    forall i | 0 <= i < |s| ensures Lower(s)[i] == (n + sp + Lower(u))[i] {
      if i < |n| {
        assert s[i] == n[i];
      } else if i < |n| + |sp| {
        assert s[i] == sp[i - |n|];
      } else {
        assert s[i] == u[i - |n| - |sp|];
      }
    }
  }

  /** The number in front of the unit takes no part in shortening it. */
  lemma ShortenUnitAfterNumber(n: string, w: string)
    requires IsNumberText(n)
    ensures ShortenUnit(n + w) == n + ShortenUnit(w)
  {
    assert forall c :: c in n ==> !IsAsciiLower(c) by {
      forall c | c in n ensures !IsAsciiLower(c) {
        var i :| 0 <= i < |n| && n[i] == c;
      }
    }
    ContainsAfterPrefix(n, w, "min");
    ContainsAfterPrefix(n, w, "hour");
    ContainsAfterPrefix(n, w, "hr");
    if Contains(w, "min") {
      ReplaceAfterPrefix(n, w, "min", "m");
      ReplaceAfterPrefix(n, Replace(w, "min", "m"), "ute", "");
    } else if Contains(w, "hour") || Contains(w, "hr") {
      ReplaceAfterPrefix(n, w, "hour", "h");
      ReplaceAfterPrefix(n, Replace(w, "hour", "h"), "hr", "h");
    }
  }

  /** Every minute spelling shortens to "m". */
  lemma ShortenMinuteSpellings()
    ensures forall w :: w in UnitSpellings('m') ==> ShortenUnit(w) == "m"
  {
    assert ShortenUnit("m") == "m" by {
      assert !Contains("m", "min") && !Contains("m", "hour") && !Contains("m", "hr");
    }
    assert ShortenUnit("min") == "m" by {
      assert Contains("min", "min");
      assert Replace("min", "min", "m") == "m";
      assert Replace("m", "ute", "") == "m";
    }
    assert ShortenUnit("minute") == "m" by {
      assert Contains("minute", "min");
      assert Replace("minute", "min", "m") == "mute";
      assert Replace("mute", "ute", "") == "m";
    }
  }

  /** Every hour spelling shortens to "h". */
  lemma ShortenHourSpellings()
    ensures forall w :: w in UnitSpellings('h') ==> ShortenUnit(w) == "h"
  {
    assert ShortenUnit("h") == "h" by {
      assert !Contains("h", "min") && !Contains("h", "hour") && !Contains("h", "hr");
    }
    assert ShortenUnit("hr") == "h" by {
      assert !Contains("hr", "min") && Contains("hr", "hr");
      assert Replace("hr", "hour", "h") == "hr";
      assert Replace("hr", "hr", "h") == "h";
    }
    assert ShortenUnit("hour") == "h" by {
      ContainsAfterPrefix("hour", "", "min");
      assert "hour" + "" == "hour";
      assert Contains("hour", "hour");
      assert Replace("hour", "hour", "h") == "h";
      assert Replace("h", "hr", "h") == "h";
    }
  }

  /** Lower-casing and deleting the spaces leaves the number and the lower-cased unit. */
  lemma {:induction false} CompactSpelling(n: string, sp: string, u: string)
    requires IsNumberText(n)
    requires forall i :: 0 <= i < |sp| ==> sp[i] == ' '
    requires ' ' !in u
    ensures Replace(Lower(n + sp + u), " ", "") == n + Lower(u)
  {
    var w := Lower(u);
    LowerMatched(n, sp, u);
    assert n + sp + w == n + (sp + w);
    assert ' ' !in n;
    assert ' ' !in w;
    assert [' '] == " ";
    ReplaceAfterPrefix(n, sp + w, " ", "");
    DeleteLeadingRun(sp, w, ' ');
    ReplaceAfterPrefix(w, [], " ", "");
    assert w + [] == w;
  }

  /**
   * Every spelling a timeframe alternative accepts (number, spaces, unit in any case)
   * normalises to the number followed by "m" or "h".
   */
  lemma NormalizeSpelling(n: string, sp: string, u: string)
    requires IsNumberText(n)
    requires forall i :: 0 <= i < |sp| ==> sp[i] == ' '
    requires Lower(u) in UnitSpellings('m') || Lower(u) in UnitSpellings('h')
    ensures Lower(u) in UnitSpellings('m') ==> NormalizeTimeframe(n + sp + u) == n + "m"
    ensures Lower(u) in UnitSpellings('h') ==> NormalizeTimeframe(n + sp + u) == n + "h"
  {
    assert ' ' !in u;
    CompactSpelling(n, sp, u);
    ShortenUnitAfterNumber(n, Lower(u));
    ShortenMinuteSpellings();
    ShortenHourSpellings();
  }

  class MarketFilter {
    const targetAssets: seq<string>
    const targetTimeframes: seq<string>
    const minPrice: real
    const maxPrice: real
    const minLiquidity: real
    const assetPattern: Regex
    const timeframePattern: Regex

    /** `MarketFilter(...)`: assets upper-cased, timeframes lower-cased, both patterns built. */
    constructor(assets: seq<string>, timeframes: seq<string>, minPrice: real, maxPrice: real, minLiquidity: real)
      ensures |targetAssets| == |assets|
      ensures forall i :: 0 <= i < |assets| ==> targetAssets[i] == Upper(assets[i])
      ensures |targetTimeframes| == |timeframes|
      ensures forall i :: 0 <= i < |timeframes| ==> targetTimeframes[i] == Lower(timeframes[i])
      ensures this.minPrice == minPrice && this.maxPrice == maxPrice
      ensures this.minLiquidity == minLiquidity
      ensures Valid()
    {
      var upper := seq(|assets|, i requires 0 <= i < |assets| => Upper(assets[i]));
      var lower := seq(|timeframes|, i requires 0 <= i < |timeframes| => Lower(timeframes[i]));
      var tp := BuildTimeframePattern(lower);
      targetAssets := upper;
      targetTimeframes := lower;
      this.minPrice := minPrice;
      this.maxPrice := maxPrice;
      this.minLiquidity := minLiquidity;
      assetPattern := AssetPattern(upper);
      timeframePattern := tp;
    }

    /** The patterns are the ones built from the normalised targets. */
    predicate Valid()
    {
      && assetPattern == AssetPattern(targetAssets)
      && timeframePattern == Regex("(" + Join("|", TimeframeAlternatives(targetTimeframes)) + ")", true)
      && (forall i :: 0 <= i < |targetTimeframes| ==> HasNoUpper(targetTimeframes[i]))
      && (forall i, j :: 0 <= i < |targetAssets| && 0 <= j < |targetAssets[i]| ==> !IsAsciiLower(targetAssets[i][j]))
    }

    /** `_matches_asset` */
    predicate MatchesAsset(question: string, search: RegexSearch)
    {
      search(assetPattern, question).Some?
    }

    /** `_matches_timeframe` */
    predicate MatchesTimeframe(question: string, search: RegexSearch)
    {
      search(timeframePattern, question).Some?
    }

    /** `_in_price_range` */
    predicate InPriceRange(market: MarketInfo)
    {
      IsInPriceRange(market, minPrice, maxPrice)
    }

    /** `is_eligible`: the checks in the source's order, each one able to reject. */
    function IsEligible(market: MarketInfo, search: RegexSearch): (r: bool)
      ensures !market.active ==> !r
      ensures market.active ==>
        (r <==> MatchesAsset(market.question, search) && MatchesTimeframe(market.question, search)
                && minPrice <= market.yesPrice <= maxPrice && minPrice <= market.noPrice <= maxPrice)
    {
      if !market.active then false
      else if !MatchesAsset(market.question, search) then false
      else if !MatchesTimeframe(market.question, search) then false
      else if !InPriceRange(market) then false
      else true
    }

    /** `filter_markets` */
    function FilterMarkets(markets: seq<MarketInfo>, search: RegexSearch): (r: seq<MarketInfo>)
      ensures |r| <= |markets|
      ensures forall m :: m in r ==> m in markets && IsEligible(m, search)
      ensures forall m :: m in markets && IsEligible(m, search) ==> m in r
    {
      if markets == [] then []
      else
        var head := if IsEligible(markets[0], search) then [markets[0]] else [];
        head + FilterMarkets(markets[1..], search)
    }

    /** Filtering a concatenation filters each part: the kept markets keep their order. */
    lemma {:induction false} FilterMarketsAppend(a: seq<MarketInfo>, b: seq<MarketInfo>, search: RegexSearch)
      ensures FilterMarkets(a + b, search) == FilterMarkets(a, search) + FilterMarkets(b, search)
      decreases |a|
    {
      if a == [] {
        assert a + b == b;
      } else {
        assert (a + b)[1..] == a[1..] + b;
        FilterMarketsAppend(a[1..], b, search);
      }
    }

    /** The result is a sub-sequence of the input. */
    lemma {:induction false} FilterMarketsSubsequence(markets: seq<MarketInfo>, search: RegexSearch)
      ensures IsSubsequence(FilterMarkets(markets, search), markets)
      decreases |markets|
    {
      if markets != [] {
        FilterMarketsSubsequence(markets[1..], search);
        var rest := FilterMarkets(markets[1..], search);
        if IsEligible(markets[0], search) {
          assert ([markets[0]] + rest)[1..] == rest;
        } else {
          assert [] + rest == rest;
        }
      }
    }

    /** Filtering twice keeps what filtering once kept. */
    lemma FilterMarketsIdempotent(markets: seq<MarketInfo>, search: RegexSearch)
      ensures FilterMarkets(FilterMarkets(markets, search), search) == FilterMarkets(markets, search)
    {
      FilterMarketsKeepsEligible(FilterMarkets(markets, search), search);
    }

    /** A list of eligible markets passes the filter untouched. */
    lemma {:induction false} FilterMarketsKeepsEligible(markets: seq<MarketInfo>, search: RegexSearch)
      requires forall m :: m in markets ==> IsEligible(m, search)
      ensures FilterMarkets(markets, search) == markets
      decreases |markets|
    {
      if markets != [] {
        assert markets[0] in markets;
        assert forall m :: m in markets[1..] ==> m in markets;
        FilterMarketsKeepsEligible(markets[1..], search);
        assert markets == [markets[0]] + markets[1..];
      }
    }

    /** `extract_asset`: the matched name in upper case. */
    function ExtractAsset(question: string, search: RegexSearch): (r: Option<string>)
      ensures r.Some? <==> MatchesAsset(question, search)
      ensures r.Some? ==> forall i :: 0 <= i < |r.value| ==> !IsAsciiLower(r.value[i])
    {
      match search(assetPattern, question)
      case Some(g) => Some(Upper(g))
      case None => None
    }

    /** A name matched in any case comes back as the configured target it spells. */
    lemma ExtractTargetAsset(question: string, search: RegexSearch, i: int)
      requires Valid()
      requires 0 <= i < |targetAssets|
      requires search(assetPattern, question).Some?
      requires Upper(search(assetPattern, question).value) == Upper(targetAssets[i])
      ensures ExtractAsset(question, search) == Some(targetAssets[i])
    {
      var t := targetAssets[i];
      assert Upper(t) == t;
    }

    /** `extract_timeframe` */
    function ExtractTimeframe(question: string, search: RegexSearch): (r: Option<string>)
      ensures r.Some? <==> MatchesTimeframe(question, search)
      ensures r.Some? ==> r.value == NormalizeTimeframe(search(timeframePattern, question).value)
    {
      match search(timeframePattern, question)
      case Some(g) => Some(NormalizeTimeframe(g))
      case None => None
    }

    /**
     * A match written the way a configured timeframe's alternative accepts it (its number,
     * optional spaces, a unit spelling in any case) is reported as that configured timeframe.
     */
    lemma {:induction false} ExtractConfiguredTimeframe(question: string, search: RegexSearch, i: int, sp: string, u: string)
      requires Valid()
      requires 0 <= i < |targetTimeframes|
      requires TimeframeAlternative(targetTimeframes[i]).Some?
      requires IsNumberText(targetTimeframes[i][..|targetTimeframes[i]| - 1])
      requires forall k :: 0 <= k < |sp| ==> sp[k] == ' '
      requires Lower(u) in UnitSpellings(targetTimeframes[i][|targetTimeframes[i]| - 1])
      requires search(timeframePattern, question) == Some(targetTimeframes[i][..|targetTimeframes[i]| - 1] + sp + u)
      ensures ExtractTimeframe(question, search) == Some(targetTimeframes[i])
    {
      var tf := targetTimeframes[i];
      var n := tf[..|tf| - 1];
      assert tf == n + [tf[|tf| - 1]];
      NormalizeSpelling(n, sp, u);
      if tf[|tf| - 1] == 'm' {
        assert Lower(u) in UnitSpellings('m');
        assert tf == n + "m";
      } else {
        assert EndsWith(tf, "h");
        assert Lower(u) in UnitSpellings('h');
        assert tf == n + "h";
      }
    }
  }

  /** `sub` is `s` with some entries left out and the rest in their original order. */
  predicate IsSubsequence<T(==)>(sub: seq<T>, s: seq<T>)
    decreases |s|
  {
    if sub == [] then true
    else if s == [] then false
    else (sub[0] == s[0] && IsSubsequence(sub[1..], s[1..])) || IsSubsequence(sub, s[1..])
  }
}
