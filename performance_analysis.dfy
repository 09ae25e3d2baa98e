/** The performance comparison: each position's and each benchmark's return over a set of timeframes,
    and the portfolio's value-weighted return. Daily price histories come from the market-data
    provider and are supplied as a function from a ticker to its candles, oldest first (an unknown
    ticker or a failed download gives an empty history). Returns are reals; a return whose start
    price is 0, which floating point turns into an infinity or NaN, is `None`. */
module PerformanceAnalysis {
  import opened Wrappers
  import opened Alpaca
  import opened Sequences

  /** One day of a price history: the opening and the closing price. */
  datatype Candle = Candle(open: real, close: real)

  /** The fixed benchmark table: ticker to display name. */
  const Benchmarks: map<string, string> :=
    map["SPY" := "S&P 500", "QQQ" := "NASDAQ-100", "IWM" := "Russell 2000", "AGG" := "US Aggregate Bond"]

  /** The benchmark tickers in the table's order. */
  const BenchmarkOrder: seq<string> := ["SPY", "QQQ", "IWM", "AGG"]

  /** The timeframes analysed when the caller names none. */
  const DefaultTimeframes: seq<string> := ["1d", "1mo", "3mo", "1y"]

  /** The message Python raises when the positions are worth 0 in total. */
  const ZeroDivision := "float division by zero"

  /** Trading days looked back for a timeframe other than "1d". */
  function Lookback(timeframe: string): (n: nat)
    ensures n == 21 || n == 63 || n == 252
  {
    if timeframe == "1mo" then 21
    else if timeframe == "3mo" then 63
    else if timeframe == "1y" then 252
    else 21
  }

  lemma LookbackTable()
    ensures Lookback("1mo") == 21 && Lookback("3mo") == 63 && Lookback("1y") == 252
    ensures forall tf :: tf !in {"1mo", "3mo", "1y"} ==> Lookback(tf) == 21
  {
  }

  /** The index of the close a longer timeframe starts from: `lookback` days from the end,
      or the first day when the history is shorter than that. */
  function StartIndex(n: nat, lookback: nat): (i: nat)
    requires n > 0 && lookback > 0
    ensures i < n
    ensures i == 0 || i + lookback == n
    ensures n - i == (if n < lookback then n else lookback)
  {
    if n >= lookback then n - lookback else 0
  }

  /** The price a timeframe's return is measured from: the last open for "1d", otherwise a close
      `Lookback(timeframe)` days back. */
  function StartPrice(history: seq<Candle>, timeframe: string): (p: real)
    requires history != []
    ensures timeframe == "1d" ==> p == history[|history| - 1].open
    ensures timeframe != "1d" ==> p == history[StartIndex(|history|, Lookback(timeframe))].close
  {
    if timeframe == "1d" then history[|history| - 1].open
    else history[StartIndex(|history|, Lookback(timeframe))].close
  }

  /** The return in percent from the start price to the last close; an empty history returns 0. */
  function PeriodPerformance(history: seq<Candle>, timeframe: string): (r: Option<real>)
    ensures history == [] ==> r == Some(0.0)
    ensures history != [] ==> (r.None? <==> StartPrice(history, timeframe) == 0.0)
    ensures history != [] && r.Some? ==>
      r.value * StartPrice(history, timeframe) == (history[|history| - 1].close - StartPrice(history, timeframe)) * 100.0
  {
    if history == [] then Some(0.0)
    else
      var start := StartPrice(history, timeframe);
      if start == 0.0 then None
      else Some((history[|history| - 1].close / start - 1.0) * 100.0)
  }

  /** A price that ends where it started has returned nothing; one that rose from a positive start has
      gained, and one that fell has lost. */
  lemma PerformanceSign(history: seq<Candle>, timeframe: string)
    requires history != [] && StartPrice(history, timeframe) > 0.0
    ensures var r := PeriodPerformance(history, timeframe);
      var end := history[|history| - 1].close;
      var start := StartPrice(history, timeframe);
      r.Some? && (r.value == 0.0 <==> end == start) && (r.value > 0.0 <==> end > start)
  {
    var r := PeriodPerformance(history, timeframe);
    var end := history[|history| - 1].close;
    var start := StartPrice(history, timeframe);
    assert r.value * start == (end - start) * 100.0;
    if r.value > 0.0 {
      assert r.value * start > 0.0;
    } else if r.value < 0.0 {
      assert r.value * start < 0.0;
    }
  }

  /** Each requested timeframe's return over one history. */
  function PerformanceFor(history: seq<Candle>, timeframes: seq<string>): map<string, Option<real>> {
    map tf | tf in timeframes :: PeriodPerformance(history, tf)
  }

  /** The weights of the positions: each symbol's market value over the total. No positions give no
      weights; positions worth 0 in total raise a division by zero. */
  function Weights(ps: seq<Holding>): (r: Result<map<string, real>>)
    ensures r.Err? <==> ps != [] && TotalMarketValue(ps) == 0.0
    ensures r.Err? ==> r.message == ZeroDivision
    ensures r.Ok? ==> forall s :: s in r.value <==> s in Symbols(ps)
    ensures r.Ok? && DistinctSymbols(ps) ==>
      forall i :: 0 <= i < |ps| ==> r.value[ps[i].symbol] == ps[i].marketValue / TotalMarketValue(ps)
  {
    if ps == [] then Ok(map[])
    else if TotalMarketValue(ps) == 0.0 then Err(ZeroDivision)
    else
      var total := TotalMarketValue(ps);
      SharesKeys(ps, total, 1.0);
      WeightsOfDistinct(ps);
      Ok(Shares(ps, total, 1.0))
  }

  lemma WeightsOfDistinct(ps: seq<Holding>)
    requires ps != [] && TotalMarketValue(ps) != 0.0
    ensures DistinctSymbols(ps) ==> forall i :: 0 <= i < |ps| ==>
      ps[i].symbol in Shares(ps, TotalMarketValue(ps), 1.0)
      && Shares(ps, TotalMarketValue(ps), 1.0)[ps[i].symbol] == ps[i].marketValue / TotalMarketValue(ps)
  {
    if DistinctSymbols(ps) {
      forall i | 0 <= i < |ps|
        ensures ps[i].symbol in Shares(ps, TotalMarketValue(ps), 1.0)
        ensures Shares(ps, TotalMarketValue(ps), 1.0)[ps[i].symbol] == ps[i].marketValue / TotalMarketValue(ps)
      {
        WeightAt(ps, TotalMarketValue(ps), i);
      }
    }
  }

  lemma WeightAt(ps: seq<Holding>, total: real, i: nat)
    requires total != 0.0 && DistinctSymbols(ps) && i < |ps|
    ensures ps[i].symbol in Shares(ps, total, 1.0)
    ensures Shares(ps, total, 1.0)[ps[i].symbol] == ps[i].marketValue / total
  {
    SharesOfDistinct(ps, total, 1.0, i);
  }

  /** For distinct symbols the weights add up to 1. */
  lemma WeightsSumToOne(ps: seq<Holding>)
    requires DistinctSymbols(ps) && ps != [] && TotalMarketValue(ps) != 0.0
    ensures Weights(ps).Ok? && SumAt(Weights(ps).value, Symbols(ps)) == 1.0
  {
    SharesOfWhole(ps, 1.0);
  }

  /** A weight is the allocation percentage over 100. */
  lemma WeightIsAllocationShare(ps: seq<Holding>, s: string)
    requires TotalMarketValue(ps) != 0.0 && s in Weights(ps).value
    ensures s in Shares(ps, TotalMarketValue(ps), 100.0)
    ensures Weights(ps).value[s] * 100.0 == Shares(ps, TotalMarketValue(ps), 100.0)[s]
  {
    SharesScale(ps, TotalMarketValue(ps), s);
  }

  lemma {:induction false} SharesScale(ps: seq<Holding>, total: real, s: string)
    requires total != 0.0 && s in Shares(ps, total, 1.0)
    ensures s in Shares(ps, total, 100.0)
    ensures Shares(ps, total, 1.0)[s] * 100.0 == Shares(ps, total, 100.0)[s]
  {
    var init := ps[..|ps| - 1];
    if s != ps[|ps| - 1].symbol {
      SharesScale(init, total, s);
    }
  }

  /** The weight of `k`, 0 when it has none. */
  function WeightOf(weights: map<string, real>, k: string): real {
    if k in weights then weights[k] else 0.0
  }

  /** `sum(perf[s][tf] * weight for s, weight in weights)` over `keys`, the weights' iteration order;
      a non-finite or missing return makes the sum non-finite. */
  function WeightedReturn(keys: seq<string>, weights: map<string, real>, rets: map<string, Option<real>>): Option<real> {
    if keys == [] then Some(0.0)
    else
      var init := WeightedReturn(keys[..|keys| - 1], weights, rets);
      var k := keys[|keys| - 1];
      if init.Some? && k in rets && rets[k].Some? then
        Some(init.value + rets[k].value * WeightOf(weights, k))
      else None
  }

  /** `r` times each key's weight, added key by key. */
  function UniformTotal(keys: seq<string>, weights: map<string, real>, r: real): real {
    if keys == [] then 0.0 else UniformTotal(keys[..|keys| - 1], weights, r) + r * WeightOf(weights, keys[|keys| - 1])
  }

  /** When every asset returns `r`, the weighted return adds `r` times each weight. */
  lemma {:induction false} WeightedReturnIsUniformTotal(keys: seq<string>, weights: map<string, real>,
                                                        rets: map<string, Option<real>>, r: real)
    requires forall k :: k in keys ==> k in rets && rets[k] == Some(r)
    ensures WeightedReturn(keys, weights, rets).Some?
    ensures WeightedReturn(keys, weights, rets).value == UniformTotal(keys, weights, r)
  {
    if keys != [] {
      WeightedReturnIsUniformTotal(keys[..|keys| - 1], weights, rets, r);
      assert keys[|keys| - 1] in keys;
      assert rets[keys[|keys| - 1]].value == r;
      WeightedReturnSnoc(keys, weights, rets);
    }
  }

  /** `r` times each weight, added up, is `r` times the total weight. */
  lemma {:induction false} UniformTotalIsScaled(keys: seq<string>, weights: map<string, real>, r: real)
    ensures UniformTotal(keys, weights, r) == r * SumAt(weights, keys)
  {
    if keys != [] {
      var init := keys[..|keys| - 1];
      UniformTotalIsScaled(init, weights, r);
      assert SumAt(weights, keys) == SumAt(weights, init) + WeightOf(weights, keys[|keys| - 1]);
      Distribute(r, SumAt(weights, keys), SumAt(weights, init), WeightOf(weights, keys[|keys| - 1]));
    }
  }

  /** When every asset returns `r`, the weighted return is `r` times the total weight. */
  lemma WeightedReturnOfUniform(keys: seq<string>, weights: map<string, real>, rets: map<string, Option<real>>, r: real)
    requires forall k :: k in keys ==> k in rets && rets[k] == Some(r)
    ensures WeightedReturn(keys, weights, rets).Some? && WeightedReturn(keys, weights, rets).value == r * SumAt(weights, keys)
  {
    WeightedReturnIsUniformTotal(keys, weights, rets, r);
    UniformTotalIsScaled(keys, weights, r);
  }

  /** One more key adds its return times its weight, when every return so far is finite. */
  lemma WeightedReturnSnoc(keys: seq<string>, weights: map<string, real>, rets: map<string, Option<real>>)
    requires keys != [] && WeightedReturn(keys[..|keys| - 1], weights, rets).Some?
    requires keys[|keys| - 1] in rets && rets[keys[|keys| - 1]].Some?
    ensures WeightedReturn(keys, weights, rets).Some?
    ensures WeightedReturn(keys, weights, rets).value
      == WeightedReturn(keys[..|keys| - 1], weights, rets).value + rets[keys[|keys| - 1]].value * WeightOf(weights, keys[|keys| - 1])
  {
  }

  /** Weights that add up to 1 average a uniform return `r` to `r`. */
  lemma WholeWeightedReturn(keys: seq<string>, weights: map<string, real>, rets: map<string, Option<real>>, r: real)
    requires forall k :: k in keys ==> k in rets && rets[k] == Some(r)
    requires SumAt(weights, keys) == 1.0
    ensures WeightedReturn(keys, weights, rets) == Some(r)
  {
    WeightedReturnOfUniform(keys, weights, rets, r);
    Distribute(r, SumAt(weights, keys), 1.0, 0.0);
  }

  /** Multiplication distributes over a sum; stated for the terms the solver will not relate on its own. */
  lemma Distribute(r: real, s: real, a: real, b: real)
    requires s == a + b
    ensures r * s == r * a + r * b
  {
  }

  /** Weight and per-timeframe returns of one position. */
  datatype AssetPerformance = AssetPerformance(weight: real, performance: map<string, Option<real>>)

  /** Display name and per-timeframe returns of one benchmark. */
  datatype BenchmarkPerformance = BenchmarkPerformance(name: string, performance: map<string, Option<real>>)

  /** The comparison's four parts. */
  datatype Comparison = Comparison(
    portfolioPerformance: map<string, Option<real>>,
    assetPerformance: map<string, AssetPerformance>,
    benchmarkComparison: map<string, BenchmarkPerformance>,
    timeframesAnalyzed: seq<string>)

  function AssetsOf(symbols: seq<string>, weights: map<string, real>, timeframes: seq<string>,
                    historyOf: string -> seq<Candle>): map<string, AssetPerformance>
  {
    map s | s in symbols :: AssetPerformance(if s in weights then weights[s] else 0.0, PerformanceFor(historyOf(s), timeframes))
  }

  function BenchmarksOf(symbols: seq<string>, timeframes: seq<string>,
                        historyOf: string -> seq<Candle>): map<string, BenchmarkPerformance>
  {
    map b | b in symbols && b in Benchmarks :: BenchmarkPerformance(Benchmarks[b], PerformanceFor(historyOf(b), timeframes))
  }

  /** Every asset's return at one timeframe. */
  function ReturnsAt(assets: map<string, AssetPerformance>, timeframe: string): map<string, Option<real>> {
    map s | s in assets && timeframe in assets[s].performance :: assets[s].performance[timeframe]
  }

  function PortfolioOf(keys: seq<string>, weights: map<string, real>, assets: map<string, AssetPerformance>,
                       timeframes: seq<string>): map<string, Option<real>>
  {
    map tf | tf in timeframes :: WeightedReturn(keys, weights, ReturnsAt(assets, tf))
  }

  /** The whole comparison as a value. */
  function ComparisonOf(ps: seq<Holding>, timeframes: seq<string>, historyOf: string -> seq<Candle>): Result<Comparison> {
    var weights :- Weights(ps);
    var assets := AssetsOf(Symbols(ps), weights, timeframes, historyOf);
    Ok(Comparison(PortfolioOf(Dedup(Symbols(ps)), weights, assets, timeframes),
                  assets, BenchmarksOf(BenchmarkOrder, timeframes, historyOf), timeframes))
  }

  /** Every benchmark of the table appears, under its own name, with a return for every requested timeframe. */
  lemma BenchmarksCovered(ps: seq<Holding>, timeframes: seq<string>, historyOf: string -> seq<Candle>)
    requires ComparisonOf(ps, timeframes, historyOf).Ok?
    ensures var c := ComparisonOf(ps, timeframes, historyOf).value;
      c.benchmarkComparison.Keys == Benchmarks.Keys
      && forall b, tf :: b in Benchmarks && tf in timeframes ==>
        c.benchmarkComparison[b].name == Benchmarks[b]
        && c.benchmarkComparison[b].performance[tf] == PeriodPerformance(historyOf(b), tf)
  {
    var c := ComparisonOf(ps, timeframes, historyOf).value;
    assert forall b :: b in Benchmarks <==> b in BenchmarkOrder;
    assert c.benchmarkComparison.Keys == Benchmarks.Keys;
  }

  /** Every position appears with its weight and a return for every requested timeframe, and the
      portfolio has a return for every requested timeframe. */
  lemma AssetsCovered(ps: seq<Holding>, timeframes: seq<string>, historyOf: string -> seq<Candle>, i: nat, tf: string)
    requires ComparisonOf(ps, timeframes, historyOf).Ok? && i < |ps| && tf in timeframes
    ensures var c := ComparisonOf(ps, timeframes, historyOf).value;
      var s := ps[i].symbol;
      s in c.assetPerformance && s in Weights(ps).value
      && c.assetPerformance[s].weight == Weights(ps).value[s]
      && c.assetPerformance[s].performance[tf] == PeriodPerformance(historyOf(s), tf)
      && tf in c.portfolioPerformance
  {
    assert Symbols(ps)[i] == ps[i].symbol;
  }

  lemma UniformReturnsAt(ps: seq<Holding>, weights: map<string, real>, timeframes: seq<string>,
                         historyOf: string -> seq<Candle>, tf: string, r: real)
    requires tf in timeframes
    requires forall i :: 0 <= i < |ps| ==> PeriodPerformance(historyOf(ps[i].symbol), tf) == Some(r)
    ensures forall k :: k in Symbols(ps) ==>
      k in ReturnsAt(AssetsOf(Symbols(ps), weights, timeframes, historyOf), tf)
      && ReturnsAt(AssetsOf(Symbols(ps), weights, timeframes, historyOf), tf)[k] == Some(r)
  {
    var keys := Symbols(ps);
    var assets := AssetsOf(keys, weights, timeframes, historyOf);
    forall k | k in keys
      ensures k in ReturnsAt(assets, tf) && ReturnsAt(assets, tf)[k] == Some(r)
    {
      var i :| 0 <= i < |keys| && keys[i] == k;
      assert ps[i].symbol == k;
      assert assets[k].performance == PerformanceFor(historyOf(k), timeframes);
    }
  }

  /** The weighted return at one timeframe when every position returns `r` there. */
  lemma UniformWeightedReturnAt(ps: seq<Holding>, timeframes: seq<string>, historyOf: string -> seq<Candle>,
                                tf: string, r: real)
    requires DistinctSymbols(ps) && ps != [] && TotalMarketValue(ps) != 0.0 && tf in timeframes
    requires forall i :: 0 <= i < |ps| ==> PeriodPerformance(historyOf(ps[i].symbol), tf) == Some(r)
    ensures Weights(ps).Ok?
    ensures WeightedReturn(Dedup(Symbols(ps)), Weights(ps).value,
                           ReturnsAt(AssetsOf(Symbols(ps), Weights(ps).value, timeframes, historyOf), tf)) == Some(r)
  {
    var weights := Weights(ps).value;
    var keys := Symbols(ps);
    var assets := AssetsOf(keys, weights, timeframes, historyOf);
    UniformReturnsAt(ps, weights, timeframes, historyOf, tf, r);
    WeightsSumToOne(ps);
    WholeWeightedReturn(keys, weights, ReturnsAt(assets, tf), r);
    DedupOfDistinct(keys);
  }

  /** When every position returns `r` over a timeframe and the symbols are distinct, the portfolio returns `r`. */
  lemma PortfolioOfUniformReturns(ps: seq<Holding>, timeframes: seq<string>, historyOf: string -> seq<Candle>,
                                  tf: string, r: real)
    requires DistinctSymbols(ps) && ps != [] && TotalMarketValue(ps) != 0.0 && tf in timeframes
    requires forall i :: 0 <= i < |ps| ==> PeriodPerformance(historyOf(ps[i].symbol), tf) == Some(r)
    ensures ComparisonOf(ps, timeframes, historyOf).Ok?
    ensures ComparisonOf(ps, timeframes, historyOf).value.portfolioPerformance[tf] == Some(r)
  {
    UniformWeightedReturnAt(ps, timeframes, historyOf, tf, r);
    ComparisonPortfolio(ps, timeframes, historyOf, tf);
  }

  /** The portfolio's return at a requested timeframe is the weighted return of its assets there. */
  lemma ComparisonPortfolio(ps: seq<Holding>, timeframes: seq<string>, historyOf: string -> seq<Candle>, tf: string)
    requires Weights(ps).Ok? && tf in timeframes
    ensures ComparisonOf(ps, timeframes, historyOf).Ok?
    ensures ComparisonOf(ps, timeframes, historyOf).value.portfolioPerformance[tf]
      == WeightedReturn(Dedup(Symbols(ps)), Weights(ps).value,
                        ReturnsAt(AssetsOf(Symbols(ps), Weights(ps).value, timeframes, historyOf), tf))
  {
    var weights := Weights(ps).value;
    var assets := AssetsOf(Symbols(ps), weights, timeframes, historyOf);
    var c := Comparison(PortfolioOf(Dedup(Symbols(ps)), weights, assets, timeframes), assets,
                        BenchmarksOf(BenchmarkOrder, timeframes, historyOf), timeframes);
    assert ComparisonOf(ps, timeframes, historyOf) == Ok(c);
  }

  /** Each requested timeframe's return over one history, as the inner loop fills it. */
  method PerformanceLoop(history: seq<Candle>, timeframes: seq<string>) returns (m: map<string, Option<real>>)
    ensures m == PerformanceFor(history, timeframes)
  {
    m := map[];
    for i := 0 to |timeframes|
      invariant m == PerformanceFor(history, timeframes[..i])
    {
      assert timeframes[..i + 1] == timeframes[..i] + [timeframes[i]];
      m := m[timeframes[i] := PeriodPerformance(history, timeframes[i])];
    }
    assert timeframes[..|timeframes|] == timeframes;
  }

  /** The asset table, filled position by position; a repeated symbol is filled again with the same entry. */
  method AssetLoop(positions: seq<Holding>, weights: map<string, real>, timeframes: seq<string>,
                   historyOf: string -> seq<Candle>) returns (assets: map<string, AssetPerformance>)
    requires forall i :: 0 <= i < |positions| ==> positions[i].symbol in weights
    ensures assets == AssetsOf(Symbols(positions), weights, timeframes, historyOf)
  {
    var symbols := Symbols(positions);
    assets := map[];
    for i := 0 to |positions|
      invariant assets == AssetsOf(symbols[..i], weights, timeframes, historyOf)
    {
      var symbol := positions[i].symbol;
      var perf := PerformanceLoop(historyOf(symbol), timeframes);
      assert symbols[..i + 1] == symbols[..i] + [symbol];
      assets := assets[symbol := AssetPerformance(weights[symbol], perf)];
    }
    assert symbols[..|positions|] == symbols;
  }

  /** The benchmark table, filled benchmark by benchmark. */
  method BenchmarkLoop(timeframes: seq<string>, historyOf: string -> seq<Candle>)
    returns (benchmarks: map<string, BenchmarkPerformance>)
    ensures benchmarks == BenchmarksOf(BenchmarkOrder, timeframes, historyOf)
  {
    benchmarks := map[];
    for i := 0 to |BenchmarkOrder|
      invariant benchmarks == BenchmarksOf(BenchmarkOrder[..i], timeframes, historyOf)
    {
      var symbol := BenchmarkOrder[i];
      var perf := PerformanceLoop(historyOf(symbol), timeframes);
      assert BenchmarkOrder[..i + 1] == BenchmarkOrder[..i] + [symbol];
      benchmarks := benchmarks[symbol := BenchmarkPerformance(Benchmarks[symbol], perf)];
    }
    assert BenchmarkOrder[..|BenchmarkOrder|] == BenchmarkOrder;
  }

  /** The portfolio table, filled timeframe by timeframe. */
  method PortfolioLoop(order: seq<string>, weights: map<string, real>, assets: map<string, AssetPerformance>,
                       timeframes: seq<string>) returns (portfolio: map<string, Option<real>>)
    ensures portfolio == PortfolioOf(order, weights, assets, timeframes)
  {
    portfolio := map[];
    for i := 0 to |timeframes|
      invariant portfolio == PortfolioOf(order, weights, assets, timeframes[..i])
    {
      assert timeframes[..i + 1] == timeframes[..i] + [timeframes[i]];
      portfolio := portfolio[timeframes[i] := WeightedReturn(order, weights, ReturnsAt(assets, timeframes[i]))];
    }
    assert timeframes[..|timeframes|] == timeframes;
  }

  /** `get_performance_comparison`: weighs the positions, then fills the asset, benchmark and
      portfolio tables in turn. */
  method GetPerformanceComparison(positions: seq<Holding>, timeframes: seq<string>, historyOf: string -> seq<Candle>)
    returns (r: Result<Comparison>)
    ensures r == ComparisonOf(positions, timeframes, historyOf)
    ensures r.Err? <==> positions != [] && TotalMarketValue(positions) == 0.0
  {
    var weights :- Weights(positions);
    assert forall i :: 0 <= i < |positions| ==> Symbols(positions)[i] == positions[i].symbol;
    var assets := AssetLoop(positions, weights, timeframes, historyOf);
    var benchmarks := BenchmarkLoop(timeframes, historyOf);
    var portfolio := PortfolioLoop(Dedup(Symbols(positions)), weights, assets, timeframes);
    r := Ok(Comparison(portfolio, assets, benchmarks, timeframes));
  }
}
