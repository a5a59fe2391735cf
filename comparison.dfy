/** src/comparison.py: the multi-symbol comparison. `StockComparison` holds
    one price table per symbol; `compare_performance` runs the full engine on
    each and projects five fields, and `rank_stocks` sorts the symbols three
    ways by those fields. */
module Comparison {
  import opened Wrappers
  import opened Series
  import opened Indicators
  import opened Analysis
  import opened StableSort

  /** The five fields kept per symbol. */
  datatype PerfRow = PerfRow(
    priceChangePct: Option<real>,
    avgVolume: real,
    volatility: Option<real>,
    rsi: Option<real>,
    trend: Trend)

  /** The projection of one analysis onto the five fields. */
  function Project(a: Analysis): (p: PerfRow)
    ensures p.priceChangePct == a.priceChangePct && p.avgVolume == a.avgVolume
    ensures p.volatility == a.volatility && p.rsi == a.rsi && p.trend == a.trend
  {
    PerfRow(a.priceChangePct, a.avgVolume, a.volatility, a.rsi, a.trend)
  }

  /** Distinct symbols: a dict's keys. */
  predicate Distinct(symbols: seq<string>)
  {
    forall i, j :: 0 <= i < j < |symbols| ==> symbols[i] != symbols[j]
  }

  /** The engine `compare_performance` runs on each table, as a function value. */
  function Engine(root: real -> real): Frame -> Result<Analysis, AnalysisError>
  {
    frame => Analyze(frame, root)
  }

  /** The performance table built symbol by symbol in insertion order; the
      first failing analysis ends the comparison with its error. */
  function PerformanceOf(symbols: seq<string>, data: map<string, Frame>,
                         analyze: Frame -> Result<Analysis, AnalysisError>): (r: Result<map<string, PerfRow>, AnalysisError>)
    requires forall i :: 0 <= i < |symbols| ==> symbols[i] in data
    ensures r.Ok? <==> forall i :: 0 <= i < |symbols| ==> analyze(data[symbols[i]]).Ok?
    ensures r.Ok? ==> forall s :: s in r.value <==> s in symbols
  {
    if |symbols| == 0 then Ok(map[])
    else
      var symbol := symbols[|symbols| - 1];
      var previous := PerformanceOf(symbols[..|symbols| - 1], data, analyze);
      if previous.Err? then previous
      else
        var analysis := analyze(data[symbol]);
        if analysis.Err? then Err(analysis.error)
        else
          assert symbols == symbols[..|symbols| - 1] + [symbol];
          Ok(previous.value[symbol := Project(analysis.value)])
  }

  /** One step of the table: the next symbol's analysis either fails the
      comparison or adds that symbol's row. */
  lemma PerformanceStep(symbols: seq<string>, data: map<string, Frame>,
                        analyze: Frame -> Result<Analysis, AnalysisError>, i: nat, perf: map<string, PerfRow>)
    requires forall j :: 0 <= j < |symbols| ==> symbols[j] in data
    requires i < |symbols| && PerformanceOf(symbols[..i], data, analyze) == Ok(perf)
    ensures var a := analyze(data[symbols[i]]);
      PerformanceOf(symbols[..i + 1], data, analyze) ==
        if a.Err? then Err(a.error) else Ok(perf[symbols[i] := Project(a.value)])
  {
    assert symbols[..i + 1][..i] == symbols[..i];
  }

  /** A failure stays a failure: once a prefix of the symbols fails, the
      whole comparison fails with the same error. */
  lemma {:induction false} PerformanceFailurePersists(symbols: seq<string>, data: map<string, Frame>,
                                                      analyze: Frame -> Result<Analysis, AnalysisError>, i: nat)
    requires forall j :: 0 <= j < |symbols| ==> symbols[j] in data
    requires i <= |symbols| && PerformanceOf(symbols[..i], data, analyze).Err?
    ensures PerformanceOf(symbols, data, analyze) == PerformanceOf(symbols[..i], data, analyze)
  {
    if i < |symbols| {
      var init := symbols[..|symbols| - 1];
      assert init[..i] == symbols[..i];
      PerformanceFailurePersists(init, data, analyze, i);
    } else {
      assert symbols[..i] == symbols;
    }
  }

  /** Each symbol of a successful table is mapped to the projection of its
      own analysis. */
  lemma {:induction false} PerformanceTable(symbols: seq<string>, data: map<string, Frame>,
                                            analyze: Frame -> Result<Analysis, AnalysisError>)
    requires forall i :: 0 <= i < |symbols| ==> symbols[i] in data
    ensures PerformanceOf(symbols, data, analyze).Ok? ==>
      forall s :: s in symbols ==>
        PerformanceOf(symbols, data, analyze).value[s] == Project(analyze(data[s]).value)
  {
    if |symbols| > 0 {
      var init, symbol := symbols[..|symbols| - 1], symbols[|symbols| - 1];
      assert symbols == init + [symbol];
      PerformanceTable(init, data, analyze);
    }
  }

  /** What the engine promises for one table: it fails exactly on an empty
      table; otherwise the row's trend is "Upward" exactly when the last close
      exceeds the first, and its RSI, when defined, lies in [0, 100]. */
  lemma EngineRow(frame: Frame, root: real -> real)
    ensures Engine(root)(frame).Ok? <==> |frame.bars| > 0
    ensures Engine(root)(frame).Ok? ==>
      var row, bars := Project(Engine(root)(frame).value), frame.bars;
      && (row.trend == Upward <==> bars[|bars| - 1].close > bars[0].close)
      && (row.rsi.Some? ==> 0.0 <= row.rsi.value <= 100.0)
  {
    if |frame.bars| > 0 {
      TrendFollowsPriceChange(frame, root);
      RsiWithinBounds(frame, root);
    }
  }

  /** What a row promises about its own table. */
  predicate RowKeepsPromises(row: PerfRow, bars: seq<Bar>)
    requires |bars| > 0
  {
    && (row.trend == Upward <==> bars[|bars| - 1].close > bars[0].close)
    && (row.rsi.Some? ==> 0.0 <= row.rsi.value <= 100.0)
  }

  /** An engine that fails exactly on empty tables and keeps the row promises
      on every other one. */
  ghost predicate KeepsPromises(analyze: Frame -> Result<Analysis, AnalysisError>)
  {
    forall frame: Frame :: (analyze(frame).Ok? <==> |frame.bars| > 0)
      && (analyze(frame).Ok? ==> RowKeepsPromises(Project(analyze(frame).value), frame.bars))
  }

  lemma EngineKeepsPromises(root: real -> real)
    ensures KeepsPromises(Engine(root))
  {
    forall frame: Frame
      ensures (Engine(root)(frame).Ok? <==> |frame.bars| > 0)
      ensures Engine(root)(frame).Ok? ==> RowKeepsPromises(Project(Engine(root)(frame).value), frame.bars)
    {
      EngineRow(frame, root);
    }
  }

  /** For any engine that keeps the promises, the comparison fails exactly
      when some table is empty, and every row keeps the promises. */
  lemma PromisedRows(symbols: seq<string>, data: map<string, Frame>, analyze: Frame -> Result<Analysis, AnalysisError>)
    requires forall i :: 0 <= i < |symbols| ==> symbols[i] in data
    requires KeepsPromises(analyze)
    ensures PerformanceOf(symbols, data, analyze).Ok? <==>
              forall i :: 0 <= i < |symbols| ==> |data[symbols[i]].bars| > 0
    ensures PerformanceOf(symbols, data, analyze).Ok? ==> forall s :: s in symbols ==>
      |data[s].bars| > 0 && RowKeepsPromises(PerformanceOf(symbols, data, analyze).value[s], data[s].bars)
  {
    if PerformanceOf(symbols, data, analyze).Ok? {
      PerformanceTable(symbols, data, analyze);
    }
  }

  /** With the engine, the comparison fails exactly when some table is empty,
      and every row keeps the engine's promises. */
  lemma PerformanceRows(symbols: seq<string>, data: map<string, Frame>, root: real -> real)
    requires forall i :: 0 <= i < |symbols| ==> symbols[i] in data
    ensures PerformanceOf(symbols, data, Engine(root)).Ok? <==>
              forall i :: 0 <= i < |symbols| ==> |data[symbols[i]].bars| > 0
    ensures PerformanceOf(symbols, data, Engine(root)).Ok? ==> forall s :: s in symbols ==>
      var row, bars := PerformanceOf(symbols, data, Engine(root)).value[s], data[s].bars;
      && (row.trend == Upward <==> bars[|bars| - 1].close > bars[0].close)
      && (row.rsi.Some? ==> 0.0 <= row.rsi.value <= 100.0)
  {
    EngineKeepsPromises(root);
    PromisedRows(symbols, data, Engine(root));
  }

  // ---------------------------------------------------------------------------
  // Rankings
  // ---------------------------------------------------------------------------

  /** The names of the three rankings. */
  const RankingNames: set<string> := {"return", "volume", "momentum"}

  /** The sort key of each ranking: percentage change, average volume, RSI.
      A symbol missing from the table has none. */
  function RankingKey(name: string, perf: map<string, PerfRow>): string -> Option<real>
  {
    if name == "return" then s => if s in perf then perf[s].priceChangePct else None
    else if name == "volume" then s => if s in perf then Some(perf[s].avgVolume) else None
    else s => if s in perf then perf[s].rsi else None
  }

  /** The three rankings: the symbols, in the table's insertion order, sorted
      by each key. */
  function Rankings(symbols: seq<string>, perf: map<string, PerfRow>): (r: map<string, seq<string>>)
    ensures r.Keys == RankingNames
  {
    map name | name in RankingNames :: SortDesc(symbols, RankingKey(name, perf))
  }

  /** Each ranking is a permutation of the symbols. */
  lemma RankingsArePermutations(symbols: seq<string>, perf: map<string, PerfRow>)
    ensures var r := Rankings(symbols, perf);
      forall name :: name in r ==> multiset(r[name]) == multiset(symbols)
  {
    forall name | name in RankingNames
      ensures multiset(Rankings(symbols, perf)[name]) == multiset(symbols)
    {
      SortDescPermutes(symbols, RankingKey(name, perf));
    }
  }

  /** A ranking whose keys are all numbers is in non-increasing key order
      (always so for volume). */
  lemma RankingOrdered(symbols: seq<string>, perf: map<string, PerfRow>, name: string)
    requires name in RankingNames && Finite(symbols, RankingKey(name, perf))
    ensures Finite(Rankings(symbols, perf)[name], RankingKey(name, perf))
    ensures SortedDesc(Rankings(symbols, perf)[name], RankingKey(name, perf))
  {
    SortDescSorted(symbols, RankingKey(name, perf));
  }

  /** The average volume is always a number, so the volume ranking is always
      in non-increasing order of average volume. */
  lemma VolumeRankingOrdered(symbols: seq<string>, perf: map<string, PerfRow>)
    requires forall i :: 0 <= i < |symbols| ==> symbols[i] in perf
    ensures var r := Rankings(symbols, perf)["volume"];
      && (forall i :: 0 <= i < |r| ==> r[i] in perf)
      && (forall i, j :: 0 <= i < j < |r| ==> perf[r[j]].avgVolume <= perf[r[i]].avgVolume)
  {
    var key := RankingKey("volume", perf);
    assert Finite(symbols, key);
    RankingOrdered(symbols, perf, "volume");
    var r := Rankings(symbols, perf)["volume"];
    forall i | 0 <= i < |r| ensures r[i] in perf {
      assert key(r[i]).Some?;
    }
  }

  /** Ties keep insertion order: for every key value, the symbols with that
      value appear in a ranking in the same order as in the table. */
  lemma RankingStable(symbols: seq<string>, perf: map<string, PerfRow>, name: string, v: Option<real>)
    requires name in RankingNames && Finite(symbols, RankingKey(name, perf))
    ensures KeyClass(Rankings(symbols, perf)[name], RankingKey(name, perf), v) ==
            KeyClass(symbols, RankingKey(name, perf), v)
  {
    SortDescStable(symbols, RankingKey(name, perf), v);
  }

  /** Sequences with the same multiset have the same length and members. */
  lemma SameMembers(a: seq<string>, b: seq<string>)
    requires multiset(a) == multiset(b)
    ensures |a| == |b| && forall s :: s in a <==> s in b
  {
    assert |multiset(a)| == |a| && |multiset(b)| == |b|;
    forall s ensures s in a <==> s in b {
      assert s in a <==> s in multiset(a);
      assert s in b <==> s in multiset(b);
    }
  }

  /** Each ranking has as many entries as there are symbols, and lists
      exactly the symbols. */
  lemma RankingsCoverSymbols(symbols: seq<string>, perf: map<string, PerfRow>)
    ensures var r := Rankings(symbols, perf);
      forall name :: name in r ==> |r[name]| == |symbols| && forall s :: s in r[name] <==> s in symbols
  {
    var r := Rankings(symbols, perf);
    RankingsArePermutations(symbols, perf);
    forall name | name in r
      ensures |r[name]| == |symbols| && forall s :: s in r[name] <==> s in symbols
    {
      SameMembers(r[name], symbols);
    }
  }

  /** A table row carrying only a percentage change, for the examples below. */
  function ReturnRow(pct: real): PerfRow
  {
    PerfRow(Some(pct), 0.0, None, None, Upward)
  }

  /** Equal returns keep insertion order: {A: 5, B: 5, C: 3} ranks A, B, C. */
  lemma ReturnTieExample()
    ensures Rankings(["A", "B", "C"], map["A" := ReturnRow(5.0), "B" := ReturnRow(5.0), "C" := ReturnRow(3.0)])["return"]
            == ["A", "B", "C"]
  {
    var perf := map["A" := ReturnRow(5.0), "B" := ReturnRow(5.0), "C" := ReturnRow(3.0)];
    TieOrder("A", "B", "C", RankingKey("return", perf));
  }

  /** {AAA: 10, BBB: -2, CCC: 4} ranks AAA, CCC, BBB by return. */
  lemma ReturnOrderExample()
    ensures Rankings(["AAA", "BBB", "CCC"], map["AAA" := ReturnRow(10.0), "BBB" := ReturnRow(-2.0), "CCC" := ReturnRow(4.0)])["return"]
            == ["AAA", "CCC", "BBB"]
  {
    var perf := map["AAA" := ReturnRow(10.0), "BBB" := ReturnRow(-2.0), "CCC" := ReturnRow(4.0)];
    MixedOrder("AAA", "BBB", "CCC", RankingKey("return", perf));
  }

  // ---------------------------------------------------------------------------
  // The comparison object
  // ---------------------------------------------------------------------------

  /** `StockComparison`: the price tables by symbol. A Python dict remembers
      insertion order, so the symbols are kept as a sequence beside the map. */
  class StockComparison {
    var symbols: seq<string>
    var stocksData: map<string, Frame>
    var comparisons: map<string, PerfRow>
    /** The square root used for the volatility and the bands. */
    const root: real -> real

    /** The symbols are distinct and are exactly the keys of the table. */
    predicate Valid()
      reads this
    {
      Distinct(symbols) && stocksData.Keys == set s | s in symbols
    }

    /** `__init__`: stores the tables; no comparison has been made yet. */
    constructor(symbols: seq<string>, stocksData: map<string, Frame>, root: real -> real)
      requires Distinct(symbols)
      requires stocksData.Keys == set s | s in symbols
      ensures Valid()
      ensures this.symbols == symbols && this.stocksData == stocksData && this.root == root
      ensures comparisons == map[]
    {
      this.symbols := symbols;
      this.stocksData := stocksData;
      this.root := root;
      comparisons := map[];
    }

    /** `compare_performance`: analyses each symbol in insertion order and
      records its five fields; stops at the first empty table. */
    method ComparePerformance() returns (r: Result<map<string, PerfRow>, AnalysisError>)
      requires Valid()
      ensures r == PerformanceOf(symbols, stocksData, Engine(root))
    {
      var performance: map<string, PerfRow> := map[];
      for i := 0 to |symbols|
        invariant PerformanceOf(symbols[..i], stocksData, Engine(root)) == Ok(performance)
      {
        var symbol := symbols[i];
        PerformanceStep(symbols, stocksData, Engine(root), i, performance);
        var analysis := AnalyzeData(stocksData[symbol], root);
        if analysis.Err? {
          PerformanceFailurePersists(symbols, stocksData, Engine(root), i + 1);
          return Err(analysis.error);
        }
        performance := performance[symbol := Project(analysis.value)];
      }
      assert symbols[..|symbols|] == symbols;
      return Ok(performance);
    }

    /** `rank_stocks`: the three rankings of the performance table. */
    method RankStocks() returns (r: Result<map<string, seq<string>>, AnalysisError>)
      requires Valid()
      ensures var p := PerformanceOf(symbols, stocksData, Engine(root));
        r == if p.Ok? then Ok(Rankings(symbols, p.value)) else Err(p.error)
    {
      var performance := ComparePerformance();
      if performance.Err? {
        return Err(performance.error);
      }
      return Ok(Rankings(symbols, performance.value));
    }
  }
}
