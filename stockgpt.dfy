/** The decision logic of src/stockgpt.py: symbol validation, the timeframe
    table behind `get_date_range`, and the cache in front of the insight
    generator in `StockGPT.generate_insights`. The clock, the cache files and
    the language-model call are outside the model: the current day, the cache
    contents and the model's answer are parameters. */
module StockGpt {
  import opened Wrappers
  import opened DataFetcher

  // ---------------------------------------------------------------------------
  // Symbol validation
  // ---------------------------------------------------------------------------

  /** An alphabetic character (ASCII letters). */
  predicate IsLetter(c: char)
  {
    'a' <= c <= 'z' || 'A' <= c <= 'Z'
  }

  /** `str.isalpha()`: at least one character, and all of them letters. */
  predicate IsAlpha(s: string)
  {
    |s| > 0 && forall i :: 0 <= i < |s| ==> IsLetter(s[i])
  }

  const InvalidSymbol := "Invalid stock symbol. Only alphabetic characters are allowed."

  /** `validate_inputs`: accepts exactly the alphabetic symbols. */
  function ValidateInputs(symbol: string): (r: Result<(), string>)
    ensures r.Ok? <==> IsAlpha(symbol)
    ensures r.Err? ==> r.error == InvalidSymbol
  {
    if IsAlpha(symbol) then Ok(()) else Err(InvalidSymbol)
  }

  // ---------------------------------------------------------------------------
  // Date range
  // ---------------------------------------------------------------------------

  /** The accepted timeframes, shortest first. */
  const Timeframes: seq<string> := ["1d", "5d", "1mo", "3mo", "6mo", "1y"]

  const InvalidTimeframe := "Invalid timeframe. Valid options are: 1d, 5d, 1mo, 3mo, 6mo, 1y"

  /** How many days before now the range starts, or the error for an unknown
      timeframe. */
  function DayOffset(timeframe: string): (r: Result<nat, string>)
    ensures r.Ok? <==> timeframe in Timeframes
    ensures r.Ok? ==> r.value > 0
    ensures r.Err? ==> r.error == InvalidTimeframe
    ensures timeframe == "1d" ==> r == Ok(1)
    ensures timeframe == "5d" ==> r == Ok(5)
    ensures timeframe == "1mo" ==> r == Ok(30)
    ensures timeframe == "3mo" ==> r == Ok(90)
    ensures timeframe == "6mo" ==> r == Ok(180)
    ensures timeframe == "1y" ==> r == Ok(365)
  {
    if timeframe == "1d" then Ok(1)
    else if timeframe == "5d" then Ok(5)
    else if timeframe == "1mo" then Ok(30)
    else if timeframe == "3mo" then Ok(90)
    else if timeframe == "6mo" then Ok(180)
    else if timeframe == "1y" then Ok(365)
    else Err(InvalidTimeframe)
  }

  /** A date range as day numbers: the first and the last day. */
  datatype DateRange = DateRange(start: int, end: int)

  /** `get_date_range` with `today` for `datetime.now()`: the range ends today
      and starts the timeframe's offset earlier. */
  function GetDateRange(timeframe: string, today: int): (r: Result<DateRange, string>)
    ensures r.Ok? <==> timeframe in Timeframes
    ensures r.Ok? ==> r.value.end == today && r.value.start < r.value.end
    ensures r.Err? ==> r.error == InvalidTimeframe
  {
    match DayOffset(timeframe)
    case Ok(days) => Ok(DateRange(today - days, today))
    case Err(e) => Err(e)
  }

  /** The offsets grow along the list of timeframes: a longer timeframe starts
      strictly earlier. */
  lemma LongerTimeframesStartEarlier(i: nat, j: nat, today: int)
    requires i < j < |Timeframes|
    ensures GetDateRange(Timeframes[j], today).value.start < GetDateRange(Timeframes[i], today).value.start
  {
    assert Timeframes[0] == "1d" && Timeframes[1] == "5d" && Timeframes[2] == "1mo";
    assert Timeframes[3] == "3mo" && Timeframes[4] == "6mo" && Timeframes[5] == "1y";
  }

  // ---------------------------------------------------------------------------
  // Insight cache
  // ---------------------------------------------------------------------------

  /** `os.path.join("cache", f"{symbol}_{timeframe}.json")`. */
  function CacheKey(symbol: string, timeframe: string): (key: string)
    ensures |key| == 6 + |symbol| + 1 + |timeframe| + 5
  {
    "cache/" + symbol + "_" + timeframe + ".json"
  }

  /** Validated symbols contain no underscore, so the cache file name tells
      the symbol and the timeframe apart: distinct requests never share a file. */
  lemma CacheKeyInjective(s1: string, t1: string, s2: string, t2: string)
    requires IsAlpha(s1) && IsAlpha(s2)
    ensures CacheKey(s1, t1) == CacheKey(s2, t2) <==> s1 == s2 && t1 == t2
  {
    if CacheKey(s1, t1) == CacheKey(s2, t2) {
      KeyParts(s1, t1, s2, t2);
    }
  }

  lemma KeyParts(s1: string, t1: string, s2: string, t2: string)
    requires IsAlpha(s1) && IsAlpha(s2)
    requires CacheKey(s1, t1) == CacheKey(s2, t2)
    ensures s1 == s2 && t1 == t2
  {
    var key := CacheKey(s1, t1);
    assert forall i :: 0 <= i < |s1| ==> key[6 + i] == s1[i];
    assert forall i :: 0 <= i < |s2| ==> key[6 + i] == s2[i];
    assert key[6 + |s1|] == '_' && key[6 + |s2|] == '_';
    assert forall i :: 0 <= i < |s1| ==> s1[i] != '_';
    assert forall i :: 0 <= i < |s2| ==> s2[i] != '_';
    assert |s1| == |s2|;
    assert s1 == key[6..6 + |s1|] == s2;
    assert t1 == key[7 + |s1|..|key| - 5] == t2;
  }

  /** Without validation two requests can share a cache file. */
  lemma UnvalidatedKeysCollide()
    ensures CacheKey("A_B", "1d") == CacheKey("A", "B_1d")
  {
  }

  /** The stringified analysis record, as it is handed to the generator. */
  type AnalysisStrings = map<string, string>

  /** What a cache file holds after `json.dump`. */
  datatype CacheEntry = CacheEntry(analysis: AnalysisStrings, news: seq<NewsItem>, insights: string)

  /** The state of one cache file: absent, unreadable as JSON, or a stored entry. */
  datatype CacheFile = Missing | Corrupt | Stored(entry: CacheEntry)

  /** The cache test: a stored entry answers only when both its analysis and
      its news equal the current ones; a missing or corrupt file never does. */
  function CacheHit(file: CacheFile, analysis: AnalysisStrings, news: seq<NewsItem>): (r: Option<string>)
    ensures r.Some? <==> file.Stored? && file.entry.analysis == analysis && file.entry.news == news
    ensures r.Some? ==> r.value == file.entry.insights
  {
    if file.Stored? && file.entry.analysis == analysis && file.entry.news == news then Some(file.entry.insights)
    else None
  }

  /** The cache directory: file name to file state; names not present are missing. */
  type Cache = map<string, CacheFile>

  function FileAt(cache: Cache, key: string): CacheFile
  {
    if key in cache then cache[key] else Missing
  }

  /** `generate_insights` with `answer` standing for the language model's
      reply: a cache hit returns the stored insights and leaves the cache as
      it is; otherwise the answer is returned and stored under the request's
      key. */
  function GenerateInsights(cache: Cache, symbol: string, analysis: AnalysisStrings, timeframe: string,
                            news: seq<NewsItem>, answer: string): (r: (string, Cache))
    ensures var key := CacheKey(symbol, timeframe);
      match CacheHit(FileAt(cache, key), analysis, news)
      case Some(stored) => r == (stored, cache)
      case None => r.0 == answer && FileAt(r.1, key) == Stored(CacheEntry(analysis, news, answer))
    ensures forall k :: k != CacheKey(symbol, timeframe) ==> FileAt(r.1, k) == FileAt(cache, k)
  {
    var key := CacheKey(symbol, timeframe);
    match CacheHit(FileAt(cache, key), analysis, news)
    case Some(stored) => (stored, cache)
    case None => (answer, cache[key := Stored(CacheEntry(analysis, news, answer))])
  }

  /** Asking twice with the same inputs: the second request is served from the
      cache, returns what the first returned, whatever the model would answer
      now, and leaves the cache unchanged. */
  lemma RepeatedRequestIsCached(cache: Cache, symbol: string, analysis: AnalysisStrings, timeframe: string,
                                news: seq<NewsItem>, answer1: string, answer2: string)
    ensures var (first, cache1) := GenerateInsights(cache, symbol, analysis, timeframe, news, answer1);
      GenerateInsights(cache1, symbol, analysis, timeframe, news, answer2) == (first, cache1)
  {
    var key := CacheKey(symbol, timeframe);
    var (first, cache1) := GenerateInsights(cache, symbol, analysis, timeframe, news, answer1);
    assert CacheHit(FileAt(cache1, key), analysis, news) == Some(first);
  }

  /** A request for another validated symbol or timeframe does not disturb a
      cached answer. */
  lemma OtherRequestsKeepEntry(cache: Cache, symbol: string, timeframe: string, other: string, otherTimeframe: string,
                               analysis: AnalysisStrings, news: seq<NewsItem>, answer: string)
    requires IsAlpha(symbol) && IsAlpha(other)
    requires symbol != other || timeframe != otherTimeframe
    ensures var cache1 := GenerateInsights(cache, other, analysis, otherTimeframe, news, answer).1;
      FileAt(cache1, CacheKey(symbol, timeframe)) == FileAt(cache, CacheKey(symbol, timeframe))
  {
    CacheKeyInjective(symbol, timeframe, other, otherTimeframe);
  }
}
