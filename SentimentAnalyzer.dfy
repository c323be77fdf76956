/** The sentiment analyser (server/modules/sentimentAnalyzer.js): mapping a FinBERT
    classification to scores, averaging the per-article scores, and the per-query
    result cache of `getMarketSentiment`.

    The two HTTP services are oracles: the news search is passed in as its result, and
    the classifier as a function from the submitted text to its response. */
module SentimentAnalyzer {
  import opened Common
  import opened MarketTypes

  /** One `{label, score}` item of a FinBERT response; `name` holds the label. */
  datatype LabelScore = LabelScore(name: string, score: real)

  /** What `analyzeSentiment` returns; `error` is set on the neutral fallback. */
  datatype Analysis = Analysis(scores: Scores, timestamp: Millis, error: Option<string>)

  /** A news article; a missing description reads as the empty string. */
  datatype Article = Article(title: string, description: Option<string>)

  const NeutralFallback := Scores(0.33, 0.33, 0.34, 0.0)
  const EmptyOverall := Scores(0.0, 0.0, 1.0, 0.0)
  const NoArticlesMessage := "No news articles found"
  const CacheTimeout: int := 5 * 60 * 1000
  const MaxTextLength: nat := 512
  const DefaultQuery := "cryptocurrency OR bitcoin OR ethereum"
  const DefaultPageSize: nat := 20

  // ------------------------------------------------------- analyzeSentiment

  /** `scores[name]` after the `forEach`: the score of the last item whose lower-cased
      label is `name`, and 0 (from `|| 0`) when there is none. */
  function ScoreOf(items: seq<LabelScore>, name: string): real
  {
    if items == [] then 0.0
    else if ToLower(items[|items| - 1].name) == name then items[|items| - 1].score
    else ScoreOf(items[..|items| - 1], name)
  }

  /** A label no item carries scores 0. */
  lemma {:induction false} MissingLabelScoresZero(items: seq<LabelScore>, name: string)
    requires forall i :: 0 <= i < |items| ==> ToLower(items[i].name) != name
    ensures ScoreOf(items, name) == 0.0
    decreases |items|
  {
    if items != [] {
      MissingLabelScoresZero(items[..|items| - 1], name);
    }
  }

  /** The last item carrying a label decides its score; labels differing only in case
      are the same label. */
  lemma {:induction false} LastLabelWins(items: seq<LabelScore>, i: nat, name: string)
    requires i < |items| && ToLower(items[i].name) == name
    requires forall j :: i < j < |items| ==> ToLower(items[j].name) != name
    ensures ScoreOf(items, name) == items[i].score
    decreases |items|
  {
    if i < |items| - 1 {
      LastLabelWins(items[..|items| - 1], i, name);
    }
  }

  /** The scores of a successful classification: the three labelled probabilities and
      `compound = positive - negative`. */
  function Classified(items: seq<LabelScore>): Scores
  {
    var p := ScoreOf(items, "positive");
    var n := ScoreOf(items, "negative");
    Scores(p, n, ScoreOf(items, "neutral"), p - n)
  }

  /** The lookup `scores[name] || 0` on the map the `forEach` builds. */
  function Lookup(scores: map<string, real>, name: string): real
  {
    if name in scores then scores[name] else 0.0
  }

  /** `analyzeSentiment(text)` given the classifier's response: the labelled scores, or
      the neutral fallback carrying the error message. */
  method AnalyzeSentiment(response: Result<seq<LabelScore>, string>, now: Millis) returns (a: Analysis)
    ensures response.Ok? ==> a == Analysis(Classified(response.value), now, None)
    ensures response.Err? ==> a == Analysis(NeutralFallback, now, Some(response.error))
    ensures a.scores.compound == a.scores.positive - a.scores.negative
  {
    if response.Err? {
      return Analysis(NeutralFallback, now, Some(response.error));
    }
    var items := response.value;
    var scores: map<string, real> := map[];
    var i := 0;
    while i < |items|
      invariant i <= |items|
      invariant forall name :: Lookup(scores, name) == ScoreOf(items[..i], name)
    {
      var key := ToLower(items[i].name);
      scores := scores[key := items[i].score];
      assert items[..i + 1][..i] == items[..i];
      i := i + 1;
    }
    assert items[..i] == items;
    var p := Lookup(scores, "positive");
    var n := Lookup(scores, "negative");
    a := Analysis(Scores(p, n, Lookup(scores, "neutral"), p - n), now, None);
  }

  /** The analysis as a value, for use in the specification of the market sentiment. */
  function Analyze(response: Result<seq<LabelScore>, string>, now: Millis): (a: Analysis)
    ensures a.scores.compound == a.scores.positive - a.scores.negative
  {
    if response.Ok? then Analysis(Classified(response.value), now, None)
    else Analysis(NeutralFallback, now, Some(response.error))
  }

  // ------------------------------------------------------ aggregateSentiments

  function AddScores(a: Scores, b: Scores): Scores
  {
    Scores(a.positive + b.positive, a.negative + b.negative, a.neutral + b.neutral, a.compound + b.compound)
  }

  /** The `reduce` of `aggregateSentiments`: field-wise totals. */
  function Totals(xs: seq<Analysis>): Scores
  {
    if xs == [] then Scores(0.0, 0.0, 0.0, 0.0)
    else AddScores(Totals(xs[..|xs| - 1]), xs[|xs| - 1].scores)
  }

  function Positives(xs: seq<Analysis>): (r: seq<real>)
    ensures |r| == |xs| && forall i :: 0 <= i < |xs| ==> r[i] == xs[i].scores.positive
  {
    seq(|xs|, i requires 0 <= i < |xs| => xs[i].scores.positive)
  }

  function Negatives(xs: seq<Analysis>): (r: seq<real>)
    ensures |r| == |xs| && forall i :: 0 <= i < |xs| ==> r[i] == xs[i].scores.negative
  {
    seq(|xs|, i requires 0 <= i < |xs| => xs[i].scores.negative)
  }

  function Neutrals(xs: seq<Analysis>): (r: seq<real>)
    ensures |r| == |xs| && forall i :: 0 <= i < |xs| ==> r[i] == xs[i].scores.neutral
  {
    seq(|xs|, i requires 0 <= i < |xs| => xs[i].scores.neutral)
  }

  function Compounds(xs: seq<Analysis>): (r: seq<real>)
    ensures |r| == |xs| && forall i :: 0 <= i < |xs| ==> r[i] == xs[i].scores.compound
  {
    seq(|xs|, i requires 0 <= i < |xs| => xs[i].scores.compound)
  }

  /** Each total is the sum of that field over the articles. */
  lemma {:induction false} TotalsAreSums(xs: seq<Analysis>)
    ensures Totals(xs) == Scores(Sum(Positives(xs)), Sum(Negatives(xs)), Sum(Neutrals(xs)), Sum(Compounds(xs)))
    decreases |xs|
  {
    if xs != [] {
      var init := xs[..|xs| - 1];
      TotalsAreSums(init);
      assert Positives(xs)[..|xs| - 1] == Positives(init);
      assert Negatives(xs)[..|xs| - 1] == Negatives(init);
      assert Neutrals(xs)[..|xs| - 1] == Neutrals(init);
      assert Compounds(xs)[..|xs| - 1] == Compounds(init);
    }
  }

  /** `aggregateSentiments(sentiments)`: the neutral `{0, 0, 1, 0}` reading for no
      articles, otherwise the field-wise totals divided by the number of articles. */
  function AggregateSentiments(xs: seq<Analysis>, now: Millis): (r: Sentiment)
    ensures r.articleCount == |xs| && r.timestamp == now && r.error == None
  {
    if xs == [] then Sentiment(EmptyOverall, 0, now, None)
    else
      var t := Totals(xs);
      var n := |xs| as real;
      Sentiment(Scores(t.positive / n, t.negative / n, t.neutral / n, t.compound / n), |xs|, now, None)
  }

  /** Every overall field of a non-empty aggregate is the arithmetic mean of that field. */
  lemma AggregateIsMean(xs: seq<Analysis>, now: Millis)
    requires xs != []
    ensures var r := AggregateSentiments(xs, now);
            r.overall == Scores(Mean(Positives(xs)), Mean(Negatives(xs)), Mean(Neutrals(xs)), Mean(Compounds(xs)))
  {
    TotalsAreSums(xs);
  }

  /** Averaging keeps the compound relation: when every article has
      `compound = positive - negative`, so does the aggregate. */
  lemma {:induction false} AggregateKeepsCompound(xs: seq<Analysis>, now: Millis)
    requires forall i :: 0 <= i < |xs| ==> xs[i].scores.compound == xs[i].scores.positive - xs[i].scores.negative
    ensures var o := AggregateSentiments(xs, now).overall;
            o.compound == o.positive - o.negative
  {
    if xs != [] {
      TotalsCompound(xs);
      var t := Totals(xs);
      var n := |xs| as real;
      assert t.compound / n == t.positive / n - t.negative / n;
    }
  }

  lemma {:induction false} TotalsCompound(xs: seq<Analysis>)
    requires forall i :: 0 <= i < |xs| ==> xs[i].scores.compound == xs[i].scores.positive - xs[i].scores.negative
    ensures Totals(xs).compound == Totals(xs).positive - Totals(xs).negative
    decreases |xs|
  {
    if xs != [] {
      TotalsCompound(xs[..|xs| - 1]);
    }
  }

  lemma MeanInUnitInterval(values: seq<real>)
    requires values != []
    requires forall i :: 0 <= i < |values| ==> 0.0 <= values[i] <= 1.0
    ensures 0.0 <= Sum(values) / |values| as real <= 1.0
  {
    SumBounds(values, 0.0, 1.0);
    var n := |values| as real;
    var total := Sum(values);
    assert 0.0 <= total <= n;
  }

  /** Averages stay within the bounds of their inputs: probabilities in [0, 1] give
      overall probabilities in [0, 1]. */
  lemma AggregateBounded(xs: seq<Analysis>, now: Millis)
    requires forall i :: 0 <= i < |xs| ==>
               0.0 <= xs[i].scores.positive <= 1.0 && 0.0 <= xs[i].scores.negative <= 1.0
               && 0.0 <= xs[i].scores.neutral <= 1.0
    ensures var o := AggregateSentiments(xs, now).overall;
            0.0 <= o.positive <= 1.0 && 0.0 <= o.negative <= 1.0 && 0.0 <= o.neutral <= 1.0
  {
    if xs != [] {
      TotalsAreSums(xs);
      MeanInUnitInterval(Positives(xs));
      MeanInUnitInterval(Negatives(xs));
      MeanInUnitInterval(Neutrals(xs));
    }
  }

  // ------------------------------------------------------- getMarketSentiment

  /** The text sent for one article: title, a space and the description, cut to 512
      characters. */
  function ArticleText(a: Article): (t: string)
    ensures |t| <= MaxTextLength
    ensures var full := a.title + " " + (if a.description.Some? then a.description.value else "");
            |t| <= |full| && t == full[..|t|] && (|full| <= MaxTextLength ==> t == full)
  {
    var full := a.title + " " + (if a.description.Some? then a.description.value else "");
    Take(full, MaxTextLength)
  }

  /** The per-article analyses, in article order. */
  function AnalyzeAll(articles: seq<Article>, classify: string -> Result<seq<LabelScore>, string>, now: Millis): (r: seq<Analysis>)
    ensures |r| == |articles|
    ensures forall i :: 0 <= i < |articles| ==> r[i] == Analyze(classify(ArticleText(articles[i])), now)
  {
    seq(|articles|, i requires 0 <= i < |articles| => Analyze(classify(ArticleText(articles[i])), now))
  }

  /** `sentiment_${query}_${pageSize}`. */
  function CacheKey(query: string, pageSize: nat): string
  {
    "sentiment_" + query + "_" + NatToString(pageSize)
  }

  datatype CacheEntry = CacheEntry(data: Sentiment, timestamp: Millis)

  /** The neutral reading returned when nothing else is available. */
  function Fallback(message: string, now: Millis): Sentiment
  {
    Sentiment(NeutralFallback, 0, now, Some(message))
  }

  /** What one `getMarketSentiment` call returns, whether it called the news service,
      and the cache afterwards. */
  datatype Reading = Reading(result: Sentiment, fetched: bool, cache: map<string, CacheEntry>)

  /** `getMarketSentiment(query, pageSize)` at time `now`, where `news` is the news
      search's outcome and `classify` the classifier. */
  function MarketSentiment(cache: map<string, CacheEntry>, query: string, pageSize: nat, now: Millis,
                           news: Result<seq<Article>, string>,
                           classify: string -> Result<seq<LabelScore>, string>): (r: Reading)
    ensures var key := CacheKey(query, pageSize);
            key in cache && now - cache[key].timestamp < CacheTimeout ==>
              r == Reading(cache[key].data, false, cache)
    ensures r.fetched && news.Ok? && news.value != [] ==>
              r.cache == cache[CacheKey(query, pageSize) := CacheEntry(r.result, now)]
    ensures r.cache != cache ==> r.fetched && news.Ok? && news.value != []
  {
    var key := CacheKey(query, pageSize);
    if key in cache && now - cache[key].timestamp < CacheTimeout then Reading(cache[key].data, false, cache)
    else
      var failure :=
        if news.Err? then Some(news.error)
        else if |news.value| == 0 then Some(NoArticlesMessage)
        else None;
      if failure.None? then
        var aggregated := AggregateSentiments(AnalyzeAll(news.value, classify, now), now);
        Reading(aggregated, true, cache[key := CacheEntry(aggregated, now)])
      else if key in cache then Reading(cache[key].data, true, cache)
      else Reading(Fallback(failure.value, now), true, cache)
  }

  /** A successful fetch averages one analysis per article and caches the result
      under the query's key. */
  lemma FetchedSentimentIsCached(cache: map<string, CacheEntry>, query: string, pageSize: nat, now: Millis,
                                 articles: seq<Article>, classify: string -> Result<seq<LabelScore>, string>)
    requires var key := CacheKey(query, pageSize);
             !(key in cache && now - cache[key].timestamp < CacheTimeout)
    requires articles != []
    ensures var r := MarketSentiment(cache, query, pageSize, now, Ok(articles), classify);
            r.fetched && r.result == AggregateSentiments(AnalyzeAll(articles, classify, now), now)
            && r.result.articleCount == |articles|
            && r.cache[CacheKey(query, pageSize)] == CacheEntry(r.result, now)
  {
  }

  /** On a failed search, and also when it finds no articles, the cached entry is
      returned however old it is, and the cache is left alone. */
  lemma FailureReturnsStaleCache(cache: map<string, CacheEntry>, query: string, pageSize: nat, now: Millis,
                                 news: Result<seq<Article>, string>, classify: string -> Result<seq<LabelScore>, string>)
    requires CacheKey(query, pageSize) in cache
    requires news.Err? || news.value == []
    ensures var r := MarketSentiment(cache, query, pageSize, now, news, classify);
            r.result == cache[CacheKey(query, pageSize)].data && r.cache == cache
  {
  }

  /** Without a cached entry, a failed search, or one with no articles, gives the
      neutral fallback with no articles and the failure's message; it does not throw. */
  lemma FailureWithoutCacheIsNeutral(cache: map<string, CacheEntry>, query: string, pageSize: nat, now: Millis,
                                     news: Result<seq<Article>, string>, classify: string -> Result<seq<LabelScore>, string>)
    requires CacheKey(query, pageSize) !in cache
    requires news.Err? || news.value == []
    ensures var r := MarketSentiment(cache, query, pageSize, now, news, classify);
            r.result.overall == NeutralFallback && r.result.articleCount == 0
            && r.result.error == Some(if news.Err? then news.error else NoArticlesMessage)
            && r.cache == cache
  {
  }

  /** `getAssetSentiment(asset)`'s query. */
  function AssetQuery(asset: string): (q: string)
    ensures q == asset + " cryptocurrency OR " + asset + " crypto OR " + asset + " price"
  {
    asset + " cryptocurrency OR " + asset + " crypto OR " + asset + " price"
  }

  const AssetPageSize: nat := 15

  class SentimentAnalyzer {
    var cache: map<string, CacheEntry>

    constructor ()
      ensures cache == map[]
    {
      cache := map[];
    }

    /** `getMarketSentiment(query, pageSize)`; `fetched` says whether the news service
        was called. */
    method GetMarketSentiment(query: string, pageSize: nat, now: Millis,
                              news: Result<seq<Article>, string>,
                              classify: string -> Result<seq<LabelScore>, string>)
      returns (result: Sentiment, fetched: bool)
      modifies this
      ensures var r := MarketSentiment(old(cache), query, pageSize, now, news, classify);
              result == r.result && fetched == r.fetched && cache == r.cache
    {
      var key := CacheKey(query, pageSize);
      if key in cache && now - cache[key].timestamp < CacheTimeout {
        return cache[key].data, false;
      }
      fetched := true;
      var failure: Option<string> := None;
      if news.Err? {
        failure := Some(news.error);
      } else if |news.value| == 0 {
        failure := Some(NoArticlesMessage);
      }
      if failure.None? {
        var sentiments := AnalyzeAll(news.value, classify, now);
        result := AggregateSentiments(sentiments, now);
        cache := cache[key := CacheEntry(result, now)];
        return;
      }
      if key in cache {
        result := cache[key].data;
      } else {
        result := Fallback(failure.value, now);
      }
    }

    /** `getAssetSentiment(asset)`: the market sentiment for the asset's query, 15 articles. */
    method GetAssetSentiment(asset: string, now: Millis, news: Result<seq<Article>, string>,
                             classify: string -> Result<seq<LabelScore>, string>)
      returns (result: Sentiment, fetched: bool)
      modifies this
      ensures var r := MarketSentiment(old(cache), AssetQuery(asset), AssetPageSize, now, news, classify);
              result == r.result && fetched == r.fetched && cache == r.cache
    {
      result, fetched := GetMarketSentiment(AssetQuery(asset), AssetPageSize, now, news, classify);
    }

    /** `clearCache()`. */
    method ClearCache()
      modifies this
      ensures cache == map[]
    {
      cache := map[];
    }
  }
}
