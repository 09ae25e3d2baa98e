/** Market data: latest quotes and trades, historical bars with a fixed set of bar sizes, snapshots that
    pair a quote with a trade, and the simple indicators computed from a series of closes. The data
    client's calls are oracles; times are seconds since the epoch. */
module MarketData {
  import opened Wrappers
  import opened Alpaca

  /** The latest quote as the data client reports it. */
  datatype Quote = Quote(askPrice: real, askSize: int, bidPrice: real, bidSize: int, timestamp: string)

  /** The latest trade as the data client reports it. */
  datatype LastTrade = LastTrade(price: real, size: int, timestamp: string)

  /** A bar as the data client reports it, and as `get_bars` hands it on. */
  datatype Bar = Bar(timestamp: real, open: real, high: real, low: real, close: real, volume: int,
                     tradeCount: int, vwap: real)

  /** The bar sizes the data client understands. */
  datatype BarSize = Minutes(n: nat) | Hour | Day

  /** The bars query. */
  datatype BarsRequest = BarsRequest(symbol: string, size: BarSize, start: real, end: real, limit: int)

  /** A quote and a trade for the same symbol. */
  datatype Snapshot = Snapshot(quote: Quote, trade: LastTrade)

  const BarTimeframes := ["1Min", "5Min", "15Min", "1H", "1D"]
  const InvalidTimeframe := "Invalid timeframe. Must be one of: 1Min, 5Min, 15Min, 1H, 1D"

  /** `get_bars` looks back this far when no start is given. */
  const DefaultLookback: real := 30.0 * 86400.0

  /** The bar size for each accepted timeframe name. */
  function BarSizeOf(timeframe: string): (r: Option<BarSize>)
    ensures r.Some? <==> timeframe in BarTimeframes
  {
    if timeframe == "1Min" then Some(Minutes(1))
    else if timeframe == "5Min" then Some(Minutes(5))
    else if timeframe == "15Min" then Some(Minutes(15))
    else if timeframe == "1H" then Some(Hour)
    else if timeframe == "1D" then Some(Day)
    else None
  }

  /** The five accepted names give five different bar sizes. */
  lemma BarSizesDistinct(a: string, b: string)
    requires a in BarTimeframes && b in BarTimeframes && a != b
    ensures BarSizeOf(a) != BarSizeOf(b)
  {
  }

  /** The query `get_bars` sends: the start defaults to thirty days before `now` and the end to `now`. */
  function BarsRequestFor(symbol: string, size: BarSize, start: Option<real>, end: Option<real>, limit: int, now: real)
    : (q: BarsRequest)
    ensures q.symbol == symbol && q.size == size && q.limit == limit
    ensures start.None? ==> q.start == now - DefaultLookback
    ensures start.Some? ==> q.start == start.value
    ensures end.None? ==> q.end == now
    ensures end.Some? ==> q.end == end.value
  {
    BarsRequest(symbol, size, if start.Some? then start.value else now - DefaultLookback,
                if end.Some? then end.value else now, limit)
  }

  /** `bars[symbol]` of a fetch, or nothing when the fetch or the lookup fails. */
  function BarsFrom(fetched: Result<map<string, seq<Bar>>>, symbol: string): (bars: seq<Bar>)
    ensures fetched.Ok? && symbol in fetched.value ==> bars == fetched.value[symbol]
    ensures fetched.Err? || symbol !in fetched.value ==> bars == []
  {
    if fetched.Ok? && symbol in fetched.value then fetched.value[symbol] else []
  }

  /** `quotes[symbol]` of a fetch, or nothing when there is no client, the fetch fails or the symbol is missing. */
  function QuoteFrom(client: Option<DataClient>, symbol: string, fetch: (DataClient, string) -> Result<map<string, Quote>>)
    : (r: Option<Quote>)
    ensures r.Some? ==> client.Some? && fetch(client.value, symbol).Ok? && symbol in fetch(client.value, symbol).value
  {
    if client.None? then None
    else match fetch(client.value, symbol)
      case Err(_) => None
      case Ok(quotes) => if symbol in quotes then Some(quotes[symbol]) else None
  }

  /** `trades[symbol]` of a fetch, in the same way. */
  function TradeFrom(client: Option<DataClient>, symbol: string, fetch: (DataClient, string) -> Result<map<string, LastTrade>>)
    : (r: Option<LastTrade>)
    ensures r.Some? ==> client.Some? && fetch(client.value, symbol).Ok? && symbol in fetch(client.value, symbol).value
  {
    if client.None? then None
    else match fetch(client.value, symbol)
      case Err(_) => None
      case Ok(trades) => if symbol in trades then Some(trades[symbol]) else None
  }

  // Indicators.

  /** The sum of a series, added from the front as `sum` does. */
  function Sum(xs: seq<real>): real {
    if xs == [] then 0.0 else Sum(xs[..|xs| - 1]) + xs[|xs| - 1]
  }

  function Min(a: nat, b: nat): nat {
    if a < b then a else b
  }

  /** `sum(closes[-k:]) / min(k, len(closes))`: the mean of the last `k` closes, or of all of them when there
      are fewer. */
  function Sma(closes: seq<real>, k: nat): (r: real)
    requires closes != [] && k > 0
  {
    var w := Min(k, |closes|);
    Sum(closes[|closes| - w..]) / w as real
  }

  /** A sum of values each at least `lo` is at least `|xs| * lo`, and likewise above. */
  lemma {:induction false} SumBounds(xs: seq<real>, lo: real, hi: real)
    requires forall i :: 0 <= i < |xs| ==> lo <= xs[i] <= hi
    ensures |xs| as real * lo <= Sum(xs) <= |xs| as real * hi
  {
    if xs != [] {
      SumBounds(xs[..|xs| - 1], lo, hi);
    }
  }

  /** A non-negative product with a positive factor has a non-negative other factor. */
  lemma NonNegativeFactor(x: real, n: real)
    requires n > 0.0 && x * n >= 0.0
    ensures x >= 0.0
  {
  }

  /** A sum between `n * lo` and `n * hi` divides by `n` to a value between `lo` and `hi`. */
  lemma DivBetween(s: real, n: real, lo: real, hi: real)
    requires n > 0.0 && n * lo <= s <= n * hi
    ensures lo <= s / n <= hi
  {
    var q := s / n;
    assert (q - lo) * n == s - n * lo;
    NonNegativeFactor(q - lo, n);
    assert (hi - q) * n == n * hi - s;
    NonNegativeFactor(hi - q, n);
  }

  /** A moving average lies between the lowest and the highest close of its window. */
  lemma SmaWithinWindow(closes: seq<real>, k: nat, lo: real, hi: real)
    requires closes != [] && k > 0
    requires forall i :: |closes| - Min(k, |closes|) <= i < |closes| ==> lo <= closes[i] <= hi
    ensures lo <= Sma(closes, k) <= hi
  {
    var w := Min(k, |closes|);
    var window := closes[|closes| - w..];
    assert forall i :: 0 <= i < |window| ==> window[i] == closes[|closes| - w + i];
    MeanWithin(window, w as real, lo, hi);
  }

  /** The mean of values between `lo` and `hi` lies between them too. */
  lemma MeanWithin(xs: seq<real>, n: real, lo: real, hi: real)
    requires xs != [] && n == |xs| as real
    requires forall i :: 0 <= i < |xs| ==> lo <= xs[i] <= hi
    ensures lo <= Sum(xs) / n <= hi
  {
    SumBounds(xs, lo, hi);
    DivBetween(Sum(xs), n, lo, hi);
  }

  /** A flat series averages to its level. */
  lemma SmaOfFlat(closes: seq<real>, k: nat, c: real)
    requires closes != [] && k > 0
    requires forall i :: 0 <= i < |closes| ==> closes[i] == c
    ensures Sma(closes, k) == c
  {
    SmaWithinWindow(closes, k, c, c);
  }

  /** The gain of the change into close `i`: the rise, or 0 on a fall. */
  function Gain(closes: seq<real>, i: nat): real
    requires 1 <= i < |closes|
  {
    var change := closes[i] - closes[i - 1];
    if change >= 0.0 then change else 0.0
  }

  /** The loss of the change into close `i`: the size of the fall, or 0 on a rise. */
  function Loss(closes: seq<real>, i: nat): real
    requires 1 <= i < |closes|
  {
    var change := closes[i] - closes[i - 1];
    if change >= 0.0 then 0.0 else -change
  }

  /** How many changes the RSI reads: the first fourteen at most. */
  function RsiChanges(n: nat): nat {
    if n == 0 then 0 else Min(15, n) - 1
  }

  /** `avg_gain / avg_loss`, or 0 when there is no average loss; then `100 - 100 / (1 + rs)`. */
  function RsiOf(gains: seq<real>, losses: seq<real>): real
    requires forall i :: 0 <= i < |gains| ==> gains[i] >= 0.0
    requires forall i :: 0 <= i < |losses| ==> losses[i] >= 0.0
  {
    SumNonNegative(gains);
    SumNonNegative(losses);
    var avgGain := if gains != [] then Sum(gains) / |gains| as real else 0.0;
    var avgLoss := if losses != [] then Sum(losses) / |losses| as real else 0.0;
    var rs := if avgLoss != 0.0 then avgGain / avgLoss else 0.0;
    100.0 - 100.0 / (1.0 + rs)
  }

  lemma {:induction false} SumNonNegative(xs: seq<real>)
    requires forall i :: 0 <= i < |xs| ==> xs[i] >= 0.0
    ensures Sum(xs) >= 0.0
  {
    if xs != [] {
      SumNonNegative(xs[..|xs| - 1]);
    }
  }

  /** The indicators `calculate_technical_indicators` reports (before rounding to cents). */
  datatype Indicators = Indicators(sma20: real, sma50: real, sma200: real, rsi: real,
                                   macdLine: real, macdSignal: real, macdHistogram: real)

  /** The RSI lies in [0, 100), and it is 0 exactly when there is no average gain or no average loss. */
  lemma RsiRange(gains: seq<real>, losses: seq<real>)
    requires forall i :: 0 <= i < |gains| ==> gains[i] >= 0.0
    requires forall i :: 0 <= i < |losses| ==> losses[i] >= 0.0
    ensures 0.0 <= RsiOf(gains, losses) < 100.0
    ensures RsiOf(gains, losses) == 0.0 <==> Sum(gains) == 0.0 || Sum(losses) == 0.0 || gains == [] || losses == []
  {
    SumNonNegative(gains);
    SumNonNegative(losses);
    var avgGain := if gains != [] then Sum(gains) / |gains| as real else 0.0;
    var avgLoss := if losses != [] then Sum(losses) / |losses| as real else 0.0;
    if gains != [] {
      NonNegativeQuotient(Sum(gains), |gains| as real);
    }
    if losses != [] {
      NonNegativeQuotient(Sum(losses), |losses| as real);
    }
    var rs := if avgLoss != 0.0 then avgGain / avgLoss else 0.0;
    if avgLoss != 0.0 {
      NonNegativeQuotient(avgGain, avgLoss);
    }
    assert RsiOf(gains, losses) == 100.0 - 100.0 / (1.0 + rs);
    RsiFormulaRange(rs);
  }

  /** A non-negative number over a positive one is non-negative, and 0 exactly when the number is. */
  lemma NonNegativeQuotient(a: real, b: real)
    requires a >= 0.0 && b > 0.0
    ensures a / b >= 0.0 && (a / b == 0.0 <==> a == 0.0)
  {
  }

  /** For a non-negative `rs`, `100 - 100 / (1 + rs)` lies in [0, 100) and is 0 exactly when `rs` is. */
  lemma RsiFormulaRange(rs: real)
    requires rs >= 0.0
    ensures 0.0 <= 100.0 - 100.0 / (1.0 + rs) < 100.0
    ensures 100.0 - 100.0 / (1.0 + rs) == 0.0 <==> rs == 0.0
  {
    var q := 100.0 / (1.0 + rs);
    assert q * (1.0 + rs) == 100.0;
    NonNegativeQuotient(100.0, 1.0 + rs);
    if rs > 0.0 {
      assert q * (1.0 + rs) == q + q * rs;
      assert q * rs > 0.0;
    }
  }

  /** `calculate_technical_indicators`: nothing for no bars; otherwise the three moving averages, the RSI
      over the first (up to) fourteen changes, and a MACD that is always 0. */
  method CalculateTechnicalIndicators(bars: seq<Bar>) returns (r: Option<Indicators>)
    ensures bars == [] <==> r.None?
    ensures r.Some? ==>
      var closes := seq(|bars|, i requires 0 <= i < |bars| => bars[i].close);
      && r.value.sma20 == Sma(closes, 20) && r.value.sma50 == Sma(closes, 50) && r.value.sma200 == Sma(closes, 200)
      && r.value.macdLine == 0.0 && r.value.macdSignal == 0.0 && r.value.macdHistogram == 0.0
      && exists gains: seq<real>, losses: seq<real> ::
           && |gains| == |losses| == RsiChanges(|closes|)
           && (forall j :: 0 <= j < |gains| ==> gains[j] == Gain(closes, j + 1) && losses[j] == Loss(closes, j + 1))
           && r.value.rsi == RsiOf(gains, losses)
  {
    if bars == [] {
      return None;
    }
    var closes := seq(|bars|, i requires 0 <= i < |bars| => bars[i].close);
    var sma20 := Sma(closes, 20);
    var sma50 := Sma(closes, 50);
    var sma200 := Sma(closes, 200);
    var gains: seq<real> := [];
    var losses: seq<real> := [];
    var last := Min(15, |closes|);
    for i := 1 to last
      invariant |gains| == |losses| == i - 1
      invariant forall j :: 0 <= j < |gains| ==> gains[j] == Gain(closes, j + 1) && losses[j] == Loss(closes, j + 1)
    {
      var change := closes[i] - closes[i - 1];
      if change >= 0.0 {
        gains := gains + [change];
        losses := losses + [0.0];
      } else {
        gains := gains + [0.0];
        losses := losses + [-change];
      }
    }
    GainsAndLossesNonNegative(closes, gains, losses);
    var rsi := RsiOf(gains, losses);
    var ema12 := closes[|closes| - 1];
    var ema26 := closes[|closes| - 1];
    var macdLine := ema12 - ema26;
    var signalLine := macdLine;
    r := Some(Indicators(sma20, sma50, sma200, rsi, macdLine, signalLine, macdLine - signalLine));
  }

  /** The gains and losses the RSI reads are non-negative, and of each pair at least one is 0. */
  lemma GainsAndLossesNonNegative(closes: seq<real>, gains: seq<real>, losses: seq<real>)
    requires |gains| == |losses| && |gains| < |closes|
    requires forall j :: 0 <= j < |gains| ==> gains[j] == Gain(closes, j + 1) && losses[j] == Loss(closes, j + 1)
    ensures forall j :: 0 <= j < |gains| ==> gains[j] >= 0.0 && losses[j] >= 0.0 && (gains[j] == 0.0 || losses[j] == 0.0)
    ensures forall j :: 0 <= j < |gains| ==> gains[j] - losses[j] == closes[j + 1] - closes[j]
  {
  }

  class MarketDataService {
    const alpaca: AlpacaService

    ghost predicate Valid()
      reads this, alpaca
    {
      alpaca.Valid()
    }

    constructor (alpaca: AlpacaService)
      requires alpaca.Valid()
      ensures Valid() && this.alpaca == alpaca
    {
      this.alpaca := alpaca;
    }

    /** The data client the gateway hands out with its current keys, if it has both. */
    function CurrentDataClient(): (c: Option<DataClient>)
      reads this, alpaca
      ensures c.Some? <==> alpaca.HasCredentials()
    {
      if alpaca.HasCredentials() then Some(DataClient(alpaca.apiKey.value, alpaca.secretKey.value)) else None
    }

    /** `get_latest_quote`: the symbol's quote, or `None` when anything on the way raises. */
    method GetLatestQuote(symbol: string, fetch: (DataClient, string) -> Result<map<string, Quote>>)
      returns (r: Option<Quote>)
      requires Valid()
      modifies alpaca
      ensures Valid() && alpaca.apiKey == old(alpaca.apiKey) && alpaca.secretKey == old(alpaca.secretKey)
      ensures r == QuoteFrom(CurrentDataClient(), symbol, fetch)
    {
      var client := alpaca.DataClientOf();
      if client.Err? {
        return None;
      }
      var quotes := fetch(client.value, symbol);
      if quotes.Err? || symbol !in quotes.value {
        return None;
      }
      r := Some(quotes.value[symbol]);
    }

    /** `get_latest_trade`: the symbol's last trade, or `None` when anything on the way raises. */
    method GetLatestTrade(symbol: string, fetch: (DataClient, string) -> Result<map<string, LastTrade>>)
      returns (r: Option<LastTrade>)
      requires Valid()
      modifies alpaca
      ensures Valid() && alpaca.apiKey == old(alpaca.apiKey) && alpaca.secretKey == old(alpaca.secretKey)
      ensures r == TradeFrom(CurrentDataClient(), symbol, fetch)
    {
      var client := alpaca.DataClientOf();
      if client.Err? {
        return None;
      }
      var trades := fetch(client.value, symbol);
      if trades.Err? || symbol !in trades.value {
        return None;
      }
      r := Some(trades.value[symbol]);
    }

    /** `get_bars`: an unknown timeframe raises before anything is requested; otherwise the symbol's bars
        for the window, or none when the request fails. */
    method GetBars(symbol: string, timeframe: string, start: Option<real>, end: Option<real>, limit: int, now: real,
                   fetch: (DataClient, BarsRequest) -> Result<map<string, seq<Bar>>>)
      returns (r: Result<seq<Bar>>)
      requires Valid()
      modifies alpaca
      ensures Valid() && alpaca.apiKey == old(alpaca.apiKey) && alpaca.secretKey == old(alpaca.secretKey)
      ensures timeframe !in BarTimeframes ==>
        r == Err(InvalidTimeframe) && alpaca.cachedDataClient == old(alpaca.cachedDataClient)
        && alpaca.dataClientsBuilt == old(alpaca.dataClientsBuilt)
      ensures timeframe in BarTimeframes ==>
        && r.Ok?
        && var request := BarsRequestFor(symbol, BarSizeOf(timeframe).value, start, end, limit, now);
           match CurrentDataClient()
           case None => r.value == []
           case Some(client) => r.value == BarsFrom(fetch(client, request), symbol)
    {
      var size := BarSizeOf(timeframe);
      if size.None? {
        return Err(InvalidTimeframe);
      }
      var request := BarsRequestFor(symbol, size.value, start, end, limit, now);
      var client := alpaca.DataClientOf();
      if client.Err? {
        return Ok([]);
      }
      r := Ok(BarsFrom(fetch(client.value, request), symbol));
    }

    /** `get_snapshots`: a snapshot for each symbol that has both a quote and a trade. */
    method GetSnapshots(symbols: seq<string>,
                        fetchQuote: (DataClient, string) -> Result<map<string, Quote>>,
                        fetchTrade: (DataClient, string) -> Result<map<string, LastTrade>>)
      returns (results: map<string, Snapshot>)
      requires Valid()
      modifies alpaca
      ensures Valid() && alpaca.apiKey == old(alpaca.apiKey) && alpaca.secretKey == old(alpaca.secretKey)
      ensures forall s :: s in results <==>
        s in symbols && QuoteFrom(CurrentDataClient(), s, fetchQuote).Some? && TradeFrom(CurrentDataClient(), s, fetchTrade).Some?
      ensures forall s :: s in results ==>
        results[s] == Snapshot(QuoteFrom(CurrentDataClient(), s, fetchQuote).value, TradeFrom(CurrentDataClient(), s, fetchTrade).value)
    {
      results := map[];
      for i := 0 to |symbols|
        invariant Valid() && alpaca.apiKey == old(alpaca.apiKey) && alpaca.secretKey == old(alpaca.secretKey)
        invariant forall s :: s in results <==>
          s in symbols[..i] && QuoteFrom(CurrentDataClient(), s, fetchQuote).Some? && TradeFrom(CurrentDataClient(), s, fetchTrade).Some?
        invariant forall s :: s in results ==>
          results[s] == Snapshot(QuoteFrom(CurrentDataClient(), s, fetchQuote).value, TradeFrom(CurrentDataClient(), s, fetchTrade).value)
      {
        var quote := GetLatestQuote(symbols[i], fetchQuote);
        var trade := GetLatestTrade(symbols[i], fetchTrade);
        if quote.Some? && trade.Some? {
          results := results[symbols[i] := Snapshot(quote.value, trade.value)];
        }
        assert symbols[..i + 1] == symbols[..i] + [symbols[i]];
      }
      assert symbols[..|symbols|] == symbols;
    }
  }
}
