/** The in-memory part of src/data_fetcher.py: the columns `fetch_stock_data`
    adds to a price table in place, and the title de-duplication and
    truncation at the end of `fetch_news`. Fetching itself (the market-data
    service, the news services) is outside the model: the fetched bars,
    company information and news items are parameters. */
module DataFetcher {
  import opened Wrappers
  import opened Series
  import opened Indicators
  import opened Analysis

  // ---------------------------------------------------------------------------
  // Indicator columns
  // ---------------------------------------------------------------------------

  /** A column the fetcher adds: a computed series, or a scalar broadcast to
      every row. */
  datatype TableColumn = Computed(values: Column) | Broadcast(cell: Cell)

  /** A series without gaps as a column. */
  function Lift(xs: seq<real>): (c: Column)
    ensures |c| == |xs|
    ensures forall i :: 0 <= i < |xs| ==> c[i] == Some(xs[i])
  {
    seq(|xs|, i requires 0 <= i < |xs| => Some(xs[i]))
  }

  /** `dict.get(key, default)` on the company information. */
  function InfoGet(info: map<string, Cell>, key: string, default: Cell): (c: Cell)
    ensures key in info ==> c == info[key]
    ensures key !in info ==> c == default
  {
    if key in info then info[key] else default
  }

  /** `Close * Volume`, row by row. */
  function ValueTraded(bars: seq<Bar>): (vs: seq<real>)
    ensures |vs| == |bars|
    ensures forall i :: 0 <= i < |bars| ==> vs[i] == bars[i].close * bars[i].volume
  {
    seq(|bars|, i requires 0 <= i < |bars| => bars[i].close * bars[i].volume)
  }

  /** The three company-information columns, with their defaults. */
  function InfoColumns(info: map<string, Cell>): (m: map<string, TableColumn>)
    ensures m.Keys == {"market_cap", "sector", "industry"}
  {
    map[
      "market_cap" := Broadcast(InfoGet(info, "marketCap", Number(Some(0.0)))),
      "sector" := Broadcast(InfoGet(info, "sector", Text("Unknown"))),
      "industry" := Broadcast(InfoGet(info, "industry", Text("Unknown")))]
  }

  /** The eight indicator columns computed from the bars. The annualising
      factor is `root(252)`, the square root of the number of trading days. */
  function IndicatorColumns(bars: seq<Bar>, root: real -> real): (m: map<string, TableColumn>)
    ensures m.Keys == {"SMA_20", "SMA_50", "EMA_12", "EMA_26", "Daily_Return", "Volatility", "Value_Traded", "Avg_Value_Traded"}
    ensures forall k :: k in m ==> m[k].Computed? && |m[k].values| == |bars|
  {
    var close := Closes(bars);
    var dailyReturn := PctChange(close);
    map[
      "SMA_20" := Computed(RollingMean(close, 20)),
      "SMA_50" := Computed(RollingMean(close, 50)),
      "EMA_12" := Computed(Lift(EwmAdjusted(close, Alpha(12)))),
      "EMA_26" := Computed(Lift(EwmAdjusted(close, Alpha(26)))),
      "Daily_Return" := Computed(dailyReturn),
      "Volatility" := Computed(Scale(RollingStdOpt(dailyReturn, 20, root), root(252.0))),
      "Value_Traded" := Computed(Lift(ValueTraded(bars))),
      "Avg_Value_Traded" := Computed(RollingMean(ValueTraded(bars), 5))]
  }

  /** The columns of an enriched table: the company information, then the
      indicators. */
  function EnrichedColumns(bars: seq<Bar>, info: map<string, Cell>, root: real -> real): map<string, TableColumn>
  {
    InfoColumns(info) + IndicatorColumns(bars, root)
  }

  /** The failure `fetch_stock_data` raises for an empty history. */
  function NoDataMessage(symbol: string): string
  {
    "Error fetching data for " + symbol + ": No data available for " + symbol
  }

  /** A fetched price table, whose additional columns are assigned in place. */
  class StockTable {
    var bars: seq<Bar>
    var columns: map<string, TableColumn>

    /** The table as the history service returns it, with no extra columns. */
    constructor(bars: seq<Bar>)
      ensures this.bars == bars && columns == map[]
    {
      this.bars := bars;
      columns := map[];
    }

    /** The company-information step of `fetch_stock_data`: broadcast the
        company information into three columns. */
    method AddCompanyInfo(info: map<string, Cell>)
      modifies this
      ensures bars == old(bars)
      ensures columns == old(columns) + InfoColumns(info)
    {
      columns := columns["market_cap" := Broadcast(InfoGet(info, "marketCap", Number(Some(0.0))))];
      columns := columns["sector" := Broadcast(InfoGet(info, "sector", Text("Unknown")))];
      columns := columns["industry" := Broadcast(InfoGet(info, "industry", Text("Unknown")))];
    }

    /** The indicator step of `fetch_stock_data`: the moving averages,
        returns, volatility and traded value, each assigned as a new column. */
    method AddIndicators(root: real -> real)
      modifies this
      ensures bars == old(bars)
      ensures columns == old(columns) + IndicatorColumns(bars, root)
    {
      var close := Closes(bars);
      var sma20, sma50 := RollingMean(close, 20), RollingMean(close, 50);
      var ema12, ema26 := Lift(EwmAdjusted(close, Alpha(12))), Lift(EwmAdjusted(close, Alpha(26)));
      var dailyReturn := PctChange(close);
      var volatility := Scale(RollingStdOpt(dailyReturn, 20, root), root(252.0));
      var valueTraded := ValueTraded(bars);
      var avgValueTraded := RollingMean(valueTraded, 5);
      columns := columns["SMA_20" := Computed(sma20)];
      columns := columns["SMA_50" := Computed(sma50)];
      columns := columns["EMA_12" := Computed(ema12)];
      columns := columns["EMA_26" := Computed(ema26)];
      columns := columns["Daily_Return" := Computed(dailyReturn)];
      columns := columns["Volatility" := Computed(volatility)];
      columns := columns["Value_Traded" := Computed(Lift(valueTraded))];
      columns := columns["Avg_Value_Traded" := Computed(avgValueTraded)];
      EightUpdates(old(columns), Computed(sma20), Computed(sma50), Computed(ema12), Computed(ema26),
        Computed(dailyReturn), Computed(volatility), Computed(Lift(valueTraded)), Computed(avgValueTraded));
    }
  }

  /** Assigning the eight indicator columns one after another adds them all. */
  lemma EightUpdates<V>(m: map<string, V>, v1: V, v2: V, v3: V, v4: V, v5: V, v6: V, v7: V, v8: V)
    ensures m["SMA_20" := v1]["SMA_50" := v2]["EMA_12" := v3]["EMA_26" := v4]
             ["Daily_Return" := v5]["Volatility" := v6]["Value_Traded" := v7]["Avg_Value_Traded" := v8]
            == m + map["SMA_20" := v1, "SMA_50" := v2, "EMA_12" := v3, "EMA_26" := v4,
                       "Daily_Return" := v5, "Volatility" := v6, "Value_Traded" := v7, "Avg_Value_Traded" := v8]
  {
  }

  /** `fetch_stock_data` on an already fetched history: an empty history is
      an error; otherwise the table carries the company information and the
      indicator columns. */
  method FetchStockData(symbol: string, bars: seq<Bar>, info: map<string, Cell>, root: real -> real)
    returns (r: Result<StockTable, string>)
    ensures r.Err? <==> |bars| == 0
    ensures r.Err? ==> r.error == NoDataMessage(symbol)
    ensures r.Ok? ==> fresh(r.value) && r.value.bars == bars && r.value.columns == EnrichedColumns(bars, info, root)
  {
    if |bars| == 0 {
      return Err(NoDataMessage(symbol));
    }
    var table := new StockTable(bars);
    table.AddCompanyInfo(info);
    var withInfo := table.columns;
    assert withInfo == InfoColumns(info) by {
      EmptyUnion(InfoColumns(info));
    }
    table.AddIndicators(root);
    assert table.columns == EnrichedColumns(bars, info, root);
    return Ok(table);
  }

  /** Adding columns to a table with none gives exactly those columns. */
  lemma EmptyUnion<V>(m: map<string, V>)
    ensures map[] + m == m
  {
  }

  /** The 20- and 50-bar moving averages are undefined before bar 19 and 49
      respectively, and each lies between the lowest and highest close of
      its window. */
  lemma MovingAverageWindows(bars: seq<Bar>, root: real -> real, i: nat)
    requires i < |bars|
    ensures var sma20, sma50, close := IndicatorColumns(bars, root)["SMA_20"].values, IndicatorColumns(bars, root)["SMA_50"].values, Closes(bars);
      && (sma20[i].Some? <==> 19 <= i)
      && (sma50[i].Some? <==> 49 <= i)
      && (19 <= i ==> Min(Window(close, i, 20)) <= sma20[i].value <= Max(Window(close, i, 20)))
      && (49 <= i ==> Min(Window(close, i, 50)) <= sma50[i].value <= Max(Window(close, i, 50)))
  {
    var close := Closes(bars);
    if 19 <= i {
      MeanBetweenMinMax(Window(close, i, 20));
    }
    if 49 <= i {
      MeanBetweenMinMax(Window(close, i, 50));
    }
  }

  /** The traded value of a row is its close times its volume; its 5-row mean
      is defined from row 4 on, is the mean of the last five traded values,
      and is non-negative when prices and volumes are. */
  lemma TradedValueColumns(bars: seq<Bar>, root: real -> real, i: nat)
    requires i < |bars|
    ensures var traded, avg := IndicatorColumns(bars, root)["Value_Traded"].values, IndicatorColumns(bars, root)["Avg_Value_Traded"].values;
      && traded[i] == Some(bars[i].close * bars[i].volume)
      && (avg[i].Some? <==> 4 <= i)
      && (4 <= i ==> avg[i].value == Mean(Window(ValueTraded(bars), i, 5)))
      && (4 <= i && (forall j :: 0 <= j < |bars| ==> bars[j].close >= 0.0 && bars[j].volume >= 0.0) ==> avg[i].value >= 0.0)
  {
    var vs := ValueTraded(bars);
    if 4 <= i && forall j :: 0 <= j < |bars| ==> bars[j].close >= 0.0 && bars[j].volume >= 0.0 {
      var w := Window(vs, i, 5);
      assert Within(w, 0.0, Max(w)) by {
        forall j | 0 <= j < |w| ensures 0.0 <= w[j] {
          assert w[j] == vs[i - 4 + j];
          MulNonNegative(bars[i - 4 + j].close, bars[i - 4 + j].volume);
        }
      }
      MeanWithin(w, 0.0, Max(w));
    }
  }

  /** On a constant close series both exponential averages equal that constant. */
  lemma ExponentialAveragesOfConstant(bars: seq<Bar>, root: real -> real, c: real)
    requires forall i :: 0 <= i < |bars| ==> bars[i].close == c
    ensures var ema12, ema26 := IndicatorColumns(bars, root)["EMA_12"].values, IndicatorColumns(bars, root)["EMA_26"].values;
      forall i :: 0 <= i < |bars| ==> ema12[i] == Some(c) && ema26[i] == Some(c)
  {
    var close := Closes(bars);
    assert Constant(close, c);
    EwmAdjustedConstant(close, Alpha(12), c);
    EwmAdjustedConstant(close, Alpha(26), c);
  }

  /** The last row of an enriched table, as the indicator engine sees it. */
  function LastRow(columns: map<string, TableColumn>, n: nat): (row: map<string, Cell>)
    requires n > 0
    requires forall k :: k in columns && columns[k].Computed? ==> |columns[k].values| == n
    ensures row.Keys == columns.Keys
  {
    map k | k in columns :: if columns[k].Computed? then Number(columns[k].values[n - 1]) else columns[k].cell
  }

  /** A fetched table supplies every metadata key the engine copies, so the
      engine's `info` carries all nine of them. */
  lemma FetchedTableHasAllMetadata(bars: seq<Bar>, info: map<string, Cell>, root: real -> real)
    requires |bars| > 0
    ensures var extra := LastRow(EnrichedColumns(bars, info, root), |bars|);
      forall k :: k in CopiedMetadata(extra) <==> k in MetadataKeys
  {
    var columns := EnrichedColumns(bars, info, root);
    var extra := LastRow(columns, |bars|);
    forall k | k in MetadataKeys ensures k in extra {
      assert k in columns;
    }
  }

  // ---------------------------------------------------------------------------
  // News de-duplication
  // ---------------------------------------------------------------------------

  /** One news item as the news services return it. */
  datatype NewsItem = NewsItem(title: string, link: string, publisher: string, publishedDate: string, summary: string)

  /** No earlier item carries the title of item `i`. */
  predicate IsFirst(items: seq<NewsItem>, i: nat)
    requires i < |items|
  {
    forall j :: 0 <= j < i ==> items[j].title != items[i].title
  }

  /** The items whose title has not appeared before, in input order. */
  function Deduplicated(items: seq<NewsItem>): (r: seq<NewsItem>)
    ensures |r| <= |items|
  {
    if |items| == 0 then []
    else
      var n := |items| - 1;
      Deduplicated(items[..n]) + (if IsFirst(items, n) then [items[n]] else [])
  }

  /** The positions of the kept items. */
  function FirstIndices(items: seq<NewsItem>): (idx: seq<nat>)
    ensures |idx| == |Deduplicated(items)|
    ensures forall k :: 0 <= k < |idx| ==> idx[k] < |items|
  {
    if |items| == 0 then []
    else
      var n := |items| - 1;
      FirstIndices(items[..n]) + (if IsFirst(items, n) then [n] else [])
  }

  /** Python's `xs[:limit]`: a negative limit drops that many items from the end. */
  function PyPrefix<T>(xs: seq<T>, limit: int): (r: seq<T>)
    ensures |r| == if 0 <= limit then (if limit < |xs| then limit else |xs|)
                   else (if |xs| + limit > 0 then |xs| + limit else 0)
    ensures r == xs[..|r|]
  {
    if 0 <= limit then xs[..if limit < |xs| then limit else |xs|]
    else xs[..if |xs| + limit > 0 then |xs| + limit else 0]
  }

  /** The titles among the first `i` items. */
  function TitlesBefore(items: seq<NewsItem>, i: nat): set<string>
    requires i <= |items|
  {
    set j | 0 <= j < i :: items[j].title
  }

  /** The de-duplication step of `fetch_news`: keep each item whose title is
      new, then truncate. */
  method DedupNews(items: seq<NewsItem>, limit: int) returns (r: seq<NewsItem>)
    ensures r == PyPrefix(Deduplicated(items), limit)
  {
    var seen: set<string> := {};
    var unique: seq<NewsItem> := [];
    for i := 0 to |items|
      invariant seen == TitlesBefore(items, i)
      invariant unique == Deduplicated(items[..i])
    {
      var item := items[i];
      assert items[..i + 1][..i] == items[..i];
      assert IsFirst(items[..i + 1], i) <==> item.title !in seen by {
        if item.title in seen {
          var j :| 0 <= j < i && items[j].title == item.title;
          assert items[..i + 1][j] == items[j];
        }
      }
      if item.title !in seen {
        seen := seen + {item.title};
        unique := unique + [item];
      }
      assert TitlesBefore(items, i + 1) == TitlesBefore(items, i) + {item.title};
    }
    assert items[..|items|] == items;
    r := PyPrefix(unique, limit);
  }

  /** A prefix of a sequence judges first occurrences as the whole does. */
  lemma IsFirstInPrefix(items: seq<NewsItem>, m: nat, i: nat)
    requires i < m <= |items|
    ensures IsFirst(items[..m], i) <==> IsFirst(items, i)
  {
    assert forall j :: 0 <= j <= i ==> items[..m][j] == items[j];
  }

  /** The kept items are the input items at the kept positions, the positions
      increase (the output is a subsequence of the input), and a position is
      kept exactly when its title is new there. */
  lemma {:induction false} DeduplicatedIsSubsequence(items: seq<NewsItem>)
    ensures var r, idx := Deduplicated(items), FirstIndices(items);
      && (forall k :: 0 <= k < |r| ==> r[k] == items[idx[k]])
      && (forall k, l :: 0 <= k < l < |idx| ==> idx[k] < idx[l])
      && (forall i :: 0 <= i < |items| ==> (i in idx <==> IsFirst(items, i)))
  {
    if |items| > 0 {
      var n := |items| - 1;
      var init := items[..n];
      DeduplicatedIsSubsequence(init);
      var idx := FirstIndices(items);
      var r := Deduplicated(items);
      assert forall k :: 0 <= k < |FirstIndices(init)| ==> idx[k] == FirstIndices(init)[k];
      forall k | 0 <= k < |r| ensures r[k] == items[idx[k]] {
        if k < |Deduplicated(init)| {
          assert r[k] == Deduplicated(init)[k];
        }
      }
      forall i | 0 <= i < |items| ensures i in idx <==> IsFirst(items, i) {
        if i < n {
          IsFirstInPrefix(items, n, i);
          assert i in idx <==> i in FirstIndices(init);
        }
      }
    }
  }

  /** No two kept items share a title. */
  lemma DeduplicatedTitlesDistinct(items: seq<NewsItem>)
    ensures var r := Deduplicated(items);
      forall k, l :: 0 <= k < l < |r| ==> r[k].title != r[l].title
  {
    DeduplicatedIsSubsequence(items);
    var r, idx := Deduplicated(items), FirstIndices(items);
    forall k, l | 0 <= k < l < |r| ensures r[k].title != r[l].title {
      assert idx[l] in idx;
    }
  }

  /** Every title of the input survives, carried by the first item that has it. */
  lemma {:induction false} DeduplicatedKeepsFirst(items: seq<NewsItem>, i: nat)
    requires i < |items|
    ensures exists j :: 0 <= j <= i && IsFirst(items, j) && items[j].title == items[i].title && items[j] in Deduplicated(items)
  {
    DeduplicatedIsSubsequence(items);
    var idx := FirstIndices(items);
    if IsFirst(items, i) {
      KeptItemIsListed(items, i);
    } else {
      var j :| 0 <= j < i && items[j].title == items[i].title;
      DeduplicatedKeepsFirst(items, j);
      var j' :| 0 <= j' <= j && IsFirst(items, j') && items[j'].title == items[j].title && items[j'] in Deduplicated(items);
    }
  }

  /** An item at a first-occurrence position appears in the output. */
  lemma KeptItemIsListed(items: seq<NewsItem>, i: nat)
    requires i < |items| && IsFirst(items, i)
    ensures items[i] in Deduplicated(items)
  {
    DeduplicatedIsSubsequence(items);
    var idx := FirstIndices(items);
    var k :| 0 <= k < |idx| && idx[k] == i;
    assert Deduplicated(items)[k] == items[i];
  }
}
