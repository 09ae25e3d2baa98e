/** The brokerage gateway: the credential pair with its lazily built clients, the account and position
    records, order normalisation, allocation percentages and the portfolio-history query. The brokerage SDK
    and the HTTP endpoint are oracles passed in by the caller. */
module Alpaca {
  import opened Wrappers
  import opened Values

  const CredentialsNotSet := "Alpaca credentials not set. Please configure them in your account settings."

  /** A key counts only when it is set and non-empty (`not key` is true for `None` and for `""`). */
  predicate KeySet(key: Option<string>) {
    key.Some? && key.value != []
  }

  /** The trading client, built from the credential pair (always against the paper-trading endpoint). */
  datatype TradingClient = TradingClient(apiKey: string, secretKey: string)

  /** The historical market-data client, built from the credential pair. */
  datatype DataClient = DataClient(apiKey: string, secretKey: string)

  /** The account as the brokerage reports it. */
  datatype Account = Account(
    cash: real, portfolioValue: real, buyingPower: real, equity: real, longMarketValue: real,
    shortMarketValue: real, initialMargin: real, maintenanceMargin: real, lastEquity: real)

  /** The account record handed to the rest of the application, with the day's change added. */
  datatype AccountInfo = AccountInfo(
    cash: real, portfolioValue: real, buyingPower: real, equity: real, longMarketValue: real,
    shortMarketValue: real, initialMargin: real, maintenanceMargin: real, lastEquity: real,
    dayChange: real, dayChangePercent: real)

  /** The account record with the day's change: the difference in equity since the previous close and that
      difference as a percentage of the previous close, which is 0 when the previous close is 0. */
  function AccountInfoOf(a: Account): (info: AccountInfo)
    ensures info.equity == a.equity && info.lastEquity == a.lastEquity && info.cash == a.cash
    ensures info.portfolioValue == a.portfolioValue && info.buyingPower == a.buyingPower
    ensures info.longMarketValue == a.longMarketValue && info.shortMarketValue == a.shortMarketValue
    ensures info.initialMargin == a.initialMargin && info.maintenanceMargin == a.maintenanceMargin
    ensures info.equity == info.lastEquity + info.dayChange
    ensures a.lastEquity != 0.0 ==> info.dayChangePercent * a.lastEquity == info.dayChange * 100.0
    ensures a.lastEquity == 0.0 ==> info.dayChangePercent == 0.0
  {
    var change := a.equity - a.lastEquity;
    AccountInfo(a.cash, a.portfolioValue, a.buyingPower, a.equity, a.longMarketValue, a.shortMarketValue,
                a.initialMargin, a.maintenanceMargin, a.lastEquity, change,
                if a.lastEquity != 0.0 then change / a.lastEquity * 100.0 else 0.0)
  }

  /** With a positive previous close, the percentage is positive exactly when equity rose, and zero exactly
      when it did not move. */
  lemma DayChangeSign(a: Account)
    requires a.lastEquity > 0.0
    ensures AccountInfoOf(a).dayChangePercent > 0.0 <==> a.equity > a.lastEquity
    ensures AccountInfoOf(a).dayChangePercent == 0.0 <==> a.equity == a.lastEquity
  {
    var info := AccountInfoOf(a);
    var change := a.equity - a.lastEquity;
    assert info.dayChangePercent == change / a.lastEquity * 100.0;
    if change > 0.0 {
      assert change / a.lastEquity > 0.0;
    } else if change < 0.0 {
      assert change / a.lastEquity < 0.0;
    }
  }

  /** A position as the brokerage reports it; the ratios are fractions. */
  datatype Position = Position(
    symbol: string, qty: real, marketValue: real, costBasis: real, unrealizedPl: real,
    unrealizedPlpc: real, currentPrice: real, avgEntryPrice: real, changeToday: real)

  /** A position record with the two ratios turned into percentages. */
  function PositionRecord(p: Position): (r: Position)
    ensures r.symbol == p.symbol && r.qty == p.qty && r.marketValue == p.marketValue
    ensures r.costBasis == p.costBasis && r.unrealizedPl == p.unrealizedPl
    ensures r.currentPrice == p.currentPrice && r.avgEntryPrice == p.avgEntryPrice
    ensures r.unrealizedPlpc == 100.0 * p.unrealizedPlpc && r.changeToday == 100.0 * p.changeToday
  {
    p.(unrealizedPlpc := p.unrealizedPlpc * 100.0, changeToday := p.changeToday * 100.0)
  }

  /** An order as the brokerage reports it: the quantities and the fill price may be absent. */
  datatype Order = Order(
    symbol: string, side: string, qty: Option<real>, filledQty: Option<real>, orderType: string,
    status: string, submittedAt: Option<string>, filledAt: Option<string>, filledAvgPrice: Option<real>)

  /** A trade record: an order whose absent numbers read as 0. */
  datatype Trade = Trade(
    symbol: string, side: string, qty: real, filledQty: real, orderType: string, status: string,
    submittedAt: Option<string>, filledAt: Option<string>, filledAvgPrice: real)

  function OrZero(x: Option<real>): real {
    if x.Some? then x.value else 0.0
  }

  /** The trade record of an order. */
  function TradeOf(o: Order): (t: Trade)
    ensures t.symbol == o.symbol && t.side == o.side && t.status == o.status && t.orderType == o.orderType
    ensures t.submittedAt == o.submittedAt && t.filledAt == o.filledAt
    ensures o.qty.None? ==> t.qty == 0.0
    ensures o.filledQty.None? ==> t.filledQty == 0.0
    ensures o.filledAvgPrice.None? ==> t.filledAvgPrice == 0.0
    ensures o.qty == Some(t.qty) || o.qty.None?
    ensures o.filledQty == Some(t.filledQty) || o.filledQty.None?
    ensures o.filledAvgPrice == Some(t.filledAvgPrice) || o.filledAvgPrice.None?
  {
    Trade(o.symbol, o.side, OrZero(o.qty), OrZero(o.filledQty), o.orderType, o.status, o.submittedAt,
          o.filledAt, OrZero(o.filledAvgPrice))
  }

  /** The trade records of a list of orders, in the same order. */
  function TradesOf(orders: seq<Order>): (ts: seq<Trade>)
    ensures |ts| == |orders| && forall i :: 0 <= i < |orders| ==> ts[i] == TradeOf(orders[i])
  {
    seq(|orders|, i requires 0 <= i < |orders| => TradeOf(orders[i]))
  }

  /** The order query `get_recent_trades` sends: every status, at most `limit`, nested legs included. */
  datatype OrdersRequest = OrdersRequest(allStatuses: bool, limit: int, nested: bool)

  /** The query string parameters of the portfolio-history request. */
  datatype HistoryRequest = HistoryRequest(apiKey: Option<string>, secretKey: Option<string>, params: map<string, string>)

  /** What the history endpoint answers: its status code, its body as text and as parsed JSON. */
  datatype HttpResponse = HttpResponse(status: int, text: string, json: Value)

  /** The bar size and the period the history endpoint is asked for, per chart button. */
  function HistoryResolution(timeframe: string): (string, string) {
    if timeframe == "1D" then ("1H", "1D")
    else if timeframe == "1W" then ("1H", "1W")
    else if timeframe == "1M" then ("1D", "1M")
    else if timeframe == "3M" then ("1D", "3M")
    else if timeframe == "1Y" then ("1D", "1A")
    else ("1D", "all")
  }

  const ChartButtons := ["1D", "1W", "1M", "3M", "1Y"]

  /** The known buttons ask for five different periods, none of them the whole history, and any other
      button asks for the whole history at daily resolution. */
  lemma HistoryResolutionTable(b: string, c: string)
    ensures b in ChartButtons && c in ChartButtons && b != c ==> HistoryResolution(b).1 != HistoryResolution(c).1
    ensures b in ChartButtons ==> HistoryResolution(b).1 != "all"
    ensures b !in ChartButtons ==> HistoryResolution(b) == ("1D", "all")
    ensures HistoryResolution(b).0 == "1H" <==> b == "1D" || b == "1W"
  {
  }

  /** The query parameters: extended hours always on, the resolution for the button, and the end date only
      when one is given and non-empty. */
  function HistoryParams(timeframe: string, dateEnd: Option<string>): (params: map<string, string>)
    ensures "extended_hours" in params && "timeframe" in params && "period" in params
    ensures params["extended_hours"] == "true"
    ensures (params["timeframe"], params["period"]) == HistoryResolution(timeframe)
    ensures "date_end" in params <==> dateEnd.Some? && dateEnd.value != []
    ensures "date_end" in params ==> params["date_end"] == dateEnd.value
    ensures params.Keys <= {"extended_hours", "timeframe", "period", "date_end"}
  {
    var (bars, period) := HistoryResolution(timeframe);
    var params := map["extended_hours" := "true", "timeframe" := bars, "period" := period];
    if dateEnd.Some? && dateEnd.value != [] then params["date_end" := dateEnd.value] else params
  }

  /** Market value of a holding, the only field the allocation reads. */
  datatype Holding = Holding(symbol: string, marketValue: real)

  /** `sum(p['market_value'] for p in positions)`. */
  function TotalMarketValue(ps: seq<Holding>): real {
    if ps == [] then 0.0 else TotalMarketValue(ps[..|ps| - 1]) + ps[|ps| - 1].marketValue
  }

  /** Each symbol's share of `total`, scaled by `scale`, built position by position: a later position with
      the same symbol overwrites an earlier one. The allocation is the shares in percent (`scale` 100). */
  function Shares(ps: seq<Holding>, total: real, scale: real): map<string, real>
    requires total != 0.0
  {
    if ps == [] then map[]
    else Shares(ps[..|ps| - 1], total, scale)[ps[|ps| - 1].symbol := ps[|ps| - 1].marketValue / total * scale]
  }

  predicate DistinctSymbols(ps: seq<Holding>) {
    forall i, j :: 0 <= i < j < |ps| ==> ps[i].symbol != ps[j].symbol
  }

  function Symbols(ps: seq<Holding>): (r: seq<string>)
    ensures |r| == |ps| && forall i :: 0 <= i < |ps| ==> r[i] == ps[i].symbol
  {
    if ps == [] then [] else Symbols(ps[..|ps| - 1]) + [ps[|ps| - 1].symbol]
  }

  /** The sum of `m`'s values at `keys` (a key `m` lacks adds nothing). */
  function SumAt(m: map<string, real>, keys: seq<string>): real {
    if keys == [] then 0.0
    else SumAt(m, keys[..|keys| - 1]) + (if keys[|keys| - 1] in m then m[keys[|keys| - 1]] else 0.0)
  }

  /** The shares have a key for exactly the symbols of the positions. */
  lemma {:induction false} SharesKeys(ps: seq<Holding>, total: real, scale: real)
    requires total != 0.0
    ensures forall s :: s in Shares(ps, total, scale) <==> s in Symbols(ps)
  {
    if ps != [] {
      var init := ps[..|ps| - 1];
      SharesKeys(init, total, scale);
      assert Symbols(ps) == Symbols(init) + [ps[|ps| - 1].symbol];
    }
  }

  /** With distinct symbols, each position's symbol maps to that position's own share. */
  lemma {:induction false} SharesOfDistinct(ps: seq<Holding>, total: real, scale: real, i: nat)
    requires total != 0.0 && DistinctSymbols(ps) && i < |ps|
    ensures ps[i].symbol in Shares(ps, total, scale)
    ensures Shares(ps, total, scale)[ps[i].symbol] == ps[i].marketValue / total * scale
  {
    var init := ps[..|ps| - 1];
    if i < |ps| - 1 {
      assert init[i] == ps[i];
      SharesOfDistinct(init, total, scale, i);
      assert ps[i].symbol != ps[|ps| - 1].symbol;
    }
  }

  lemma SumAtAgree(m: map<string, real>, n: map<string, real>, keys: seq<string>)
    requires forall i :: 0 <= i < |keys| ==> keys[i] in m && keys[i] in n && m[keys[i]] == n[keys[i]]
    ensures SumAt(m, keys) == SumAt(n, keys)
  {
  }

  lemma ShareAdd(a: real, b: real, total: real, scale: real)
    requires total != 0.0
    ensures a / total * scale + b / total * scale == (a + b) / total * scale
  {
    assert a / total + b / total == (a + b) / total;
  }

  lemma ZeroShare(total: real, scale: real)
    requires total != 0.0
    ensures 0.0 / total * scale == 0.0
  {
  }

  lemma WholeShare(total: real, scale: real)
    requires total != 0.0
    ensures total / total * scale == scale
  {
  }

  /** Adding the last position does not change the shares of the earlier, differently named ones. */
  lemma SharesKeepEarlier(ps: seq<Holding>, total: real, scale: real)
    requires total != 0.0 && DistinctSymbols(ps) && ps != []
    ensures var init := ps[..|ps| - 1];
      SumAt(Shares(ps, total, scale), Symbols(init)) == SumAt(Shares(init, total, scale), Symbols(init))
  {
    var init := ps[..|ps| - 1];
    var m := Shares(ps, total, scale);
    var n := Shares(init, total, scale);
    SharesKeys(init, total, scale);
    forall i | 0 <= i < |init|
      ensures Symbols(init)[i] in m && Symbols(init)[i] in n && m[Symbols(init)[i]] == n[Symbols(init)[i]]
    {
      assert init[i] == ps[i];
      assert ps[i].symbol != ps[|ps| - 1].symbol;
    }
    SumAtAgree(m, n, Symbols(init));
  }

  /** Adding one key at the end adds that key's value, if any. */
  lemma SumAtSnoc(m: map<string, real>, keys: seq<string>, k: string)
    ensures SumAt(m, keys + [k]) == SumAt(m, keys) + (if k in m then m[k] else 0.0)
  {
    assert (keys + [k])[..|keys|] == keys;
  }

  /** The positions' shares added one by one, without the map. */
  function ShareTotal(ps: seq<Holding>, total: real, scale: real): real
    requires total != 0.0
  {
    if ps == [] then 0.0 else ShareTotal(ps[..|ps| - 1], total, scale) + ps[|ps| - 1].marketValue / total * scale
  }

  /** With distinct symbols, summing the map over the symbols adds every position's share once. */
  lemma {:induction false} SumAtShares(ps: seq<Holding>, total: real, scale: real)
    requires total != 0.0 && DistinctSymbols(ps)
    ensures SumAt(Shares(ps, total, scale), Symbols(ps)) == ShareTotal(ps, total, scale)
  {
    if ps != [] {
      var init := ps[..|ps| - 1];
      var last := ps[|ps| - 1];
      var m := Shares(ps, total, scale);
      SumAtShares(init, total, scale);
      SharesKeepEarlier(ps, total, scale);
      SumAtSnoc(m, Symbols(init), last.symbol);
      assert Symbols(ps) == Symbols(init) + [last.symbol];
    }
  }

  /** The shares added one by one are the positions' value as a share of `total`. */
  lemma {:induction false} ShareTotalIsShareOfSum(ps: seq<Holding>, total: real, scale: real)
    requires total != 0.0
    ensures ShareTotal(ps, total, scale) == TotalMarketValue(ps) / total * scale
  {
    if ps == [] {
      ZeroShare(total, scale);
    } else {
      var init := ps[..|ps| - 1];
      ShareTotalIsShareOfSum(init, total, scale);
      ShareAdd(TotalMarketValue(init), ps[|ps| - 1].marketValue, total, scale);
    }
  }

  /** Summed over the symbols, the shares add up to the positions' value as a share of `total`. */
  lemma SharesSum(ps: seq<Holding>, total: real, scale: real)
    requires total != 0.0 && DistinctSymbols(ps)
    ensures SumAt(Shares(ps, total, scale), Symbols(ps)) == TotalMarketValue(ps) / total * scale
  {
    SumAtShares(ps, total, scale);
    ShareTotalIsShareOfSum(ps, total, scale);
  }

  lemma SharesOfWholeSum(ps: seq<Holding>, scale: real)
    requires DistinctSymbols(ps) && TotalMarketValue(ps) != 0.0
    ensures SumAt(Shares(ps, TotalMarketValue(ps), scale), Symbols(ps)) == scale
  {
    var total := TotalMarketValue(ps);
    SharesSum(ps, total, scale);
    WholeShare(total, scale);
  }

  /** For distinct symbols, the shares of the whole add up to `scale`: percentages to 100, weights to 1. */
  lemma SharesOfWhole(ps: seq<Holding>, scale: real)
    requires DistinctSymbols(ps) && TotalMarketValue(ps) != 0.0
    ensures forall i :: 0 <= i < |ps| ==> Symbols(ps)[i] in Shares(ps, TotalMarketValue(ps), scale)
    ensures SumAt(Shares(ps, TotalMarketValue(ps), scale), Symbols(ps)) == scale
  {
    assert SumAt(Shares(ps, TotalMarketValue(ps), scale), Symbols(ps)) == scale by {
      SharesOfWholeSum(ps, scale);
    }
    assert forall i :: 0 <= i < |ps| ==> Symbols(ps)[i] in Shares(ps, TotalMarketValue(ps), scale) by {
      SharesKeys(ps, TotalMarketValue(ps), scale);
    }
  }

  /** For distinct symbols and a positive total, the allocation's values add up to 100. */
  lemma AllocationSumsToHundred(ps: seq<Holding>)
    requires DistinctSymbols(ps) && TotalMarketValue(ps) > 0.0
    ensures forall i :: 0 <= i < |ps| ==> Symbols(ps)[i] in Shares(ps, TotalMarketValue(ps), 100.0)
    ensures SumAt(Shares(ps, TotalMarketValue(ps), 100.0), Symbols(ps)) == 100.0
  {
    SharesOfWhole(ps, 100.0);
  }

  class AlpacaService {
    var apiKey: Option<string>
    var secretKey: Option<string>
    var cachedClient: Option<TradingClient>
    var cachedDataClient: Option<DataClient>
    /** How many trading and data clients have been constructed so far. */
    var clientsBuilt: nat
    var dataClientsBuilt: nat

    predicate HasCredentials()
      reads this
    {
      KeySet(apiKey) && KeySet(secretKey)
    }

    /** A cached client always belongs to the credentials currently held. */
    ghost predicate Valid()
      reads this
    {
      && (cachedClient.Some? ==> HasCredentials() && cachedClient.value == TradingClient(apiKey.value, secretKey.value))
      && (cachedDataClient.Some? ==> HasCredentials() && cachedDataClient.value == DataClient(apiKey.value, secretKey.value))
    }

    constructor (apiKey: Option<string>, secretKey: Option<string>)
      ensures Valid()
      ensures this.apiKey == apiKey && this.secretKey == secretKey
      ensures cachedClient.None? && cachedDataClient.None? && clientsBuilt == 0 && dataClientsBuilt == 0
    {
      this.apiKey := apiKey;
      this.secretKey := secretKey;
      cachedClient := None;
      cachedDataClient := None;
      clientsBuilt := 0;
      dataClientsBuilt := 0;
    }

    /** The `client` property: refuses without both keys, builds the client on first use and then hands
        back the same one. */
    method Client() returns (r: Result<TradingClient>)
      requires Valid()
      modifies this
      ensures Valid()
      ensures apiKey == old(apiKey) && secretKey == old(secretKey)
      ensures cachedDataClient == old(cachedDataClient) && dataClientsBuilt == old(dataClientsBuilt)
      ensures !HasCredentials() ==>
        r == Err(CredentialsNotSet) && cachedClient == old(cachedClient) && clientsBuilt == old(clientsBuilt)
      ensures HasCredentials() ==>
        && r == Ok(TradingClient(apiKey.value, secretKey.value))
        && cachedClient == Some(r.value)
        && clientsBuilt == old(clientsBuilt) + (if old(cachedClient).None? then 1 else 0)
    {
      if !HasCredentials() {
        return Err(CredentialsNotSet);
      }
      if cachedClient.None? {
        cachedClient := Some(TradingClient(apiKey.value, secretKey.value));
        clientsBuilt := clientsBuilt + 1;
      }
      r := Ok(cachedClient.value);
    }

    /** The `data_client` property, the same way for the market-data client. */
    method DataClientOf() returns (r: Result<DataClient>)
      requires Valid()
      modifies this
      ensures Valid()
      ensures apiKey == old(apiKey) && secretKey == old(secretKey)
      ensures cachedClient == old(cachedClient) && clientsBuilt == old(clientsBuilt)
      ensures !HasCredentials() ==>
        r == Err(CredentialsNotSet) && cachedDataClient == old(cachedDataClient) && dataClientsBuilt == old(dataClientsBuilt)
      ensures HasCredentials() ==>
        && r == Ok(DataClient(apiKey.value, secretKey.value))
        && cachedDataClient == Some(r.value)
        && dataClientsBuilt == old(dataClientsBuilt) + (if old(cachedDataClient).None? then 1 else 0)
    {
      if !HasCredentials() {
        return Err(CredentialsNotSet);
      }
      if cachedDataClient.None? {
        cachedDataClient := Some(DataClient(apiKey.value, secretKey.value));
        dataClientsBuilt := dataClientsBuilt + 1;
      }
      r := Ok(cachedDataClient.value);
    }

    /** `update_credentials`: replaces both keys and drops both cached clients, so the next use builds
        fresh ones from the new keys. */
    method UpdateCredentials(apiKey: Option<string>, secretKey: Option<string>)
      modifies this
      ensures Valid()
      ensures this.apiKey == apiKey && this.secretKey == secretKey
      ensures cachedClient.None? && cachedDataClient.None?
      ensures clientsBuilt == old(clientsBuilt) && dataClientsBuilt == old(dataClientsBuilt)
    {
      this.apiKey := apiKey;
      this.secretKey := secretKey;
      cachedClient := None;
      cachedDataClient := None;
    }

    /** `get_account_info`: the account from the client, with the day's change; `fetch` is the SDK call. */
    method GetAccountInfo(fetch: TradingClient -> Result<Account>) returns (r: Result<AccountInfo>)
      requires Valid()
      modifies this
      ensures Valid() && apiKey == old(apiKey) && secretKey == old(secretKey)
      ensures !HasCredentials() ==> r == Err(CredentialsNotSet)
      ensures HasCredentials() ==>
        r == match fetch(TradingClient(apiKey.value, secretKey.value))
             case Ok(a) => Ok(AccountInfoOf(a))
             case Err(e) => Err(e)
    {
      var client :- Client();
      var account :- fetch(client);
      r := Ok(AccountInfoOf(account));
    }

    /** `get_positions`: every position the client reports, in order, with its ratios as percentages. */
    method GetPositions(fetch: TradingClient -> Result<seq<Position>>) returns (r: Result<seq<Position>>)
      requires Valid()
      modifies this
      ensures Valid() && apiKey == old(apiKey) && secretKey == old(secretKey)
      ensures !HasCredentials() ==> r == Err(CredentialsNotSet)
      ensures HasCredentials() ==> var fetched := fetch(TradingClient(apiKey.value, secretKey.value));
        && (fetched.Err? ==> r == Err(fetched.message))
        && (fetched.Ok? ==> r.Ok? && |r.value| == |fetched.value|
                            && forall i :: 0 <= i < |r.value| ==> r.value[i] == PositionRecord(fetched.value[i]))
    {
      var client :- Client();
      var positions :- fetch(client);
      var records := PositionRecords(positions);
      r := Ok(records);
    }

    /** `get_recent_trades`: asks for up to `limit` orders of any status and turns each into a trade record. */
    method GetRecentTrades(limit: int, fetch: (TradingClient, OrdersRequest) -> Result<seq<Order>>)
      returns (r: Result<seq<Trade>>)
      requires Valid()
      modifies this
      ensures Valid() && apiKey == old(apiKey) && secretKey == old(secretKey)
      ensures !HasCredentials() ==> r == Err(CredentialsNotSet)
      ensures HasCredentials() ==>
        var fetched := fetch(TradingClient(apiKey.value, secretKey.value), OrdersRequest(true, limit, true));
        && (fetched.Err? ==> r == Err(fetched.message))
        && (fetched.Ok? ==> r == Ok(TradesOf(fetched.value)))
    {
      var client :- Client();
      var orders :- fetch(client, OrdersRequest(true, limit, true));
      var trades := Trades(orders);
      r := Ok(trades);
    }

    /** `calculate_asset_allocation`: each symbol's share of the total market value, in percent; nothing
        when the total is not positive. */
    method CalculateAssetAllocation(positions: seq<Holding>) returns (allocation: map<string, real>)
      ensures TotalMarketValue(positions) > 0.0 ==> allocation == Shares(positions, TotalMarketValue(positions), 100.0)
      ensures TotalMarketValue(positions) <= 0.0 ==> allocation == map[]
    {
      var total := 0.0;
      var i := 0;
      while i < |positions|
        invariant 0 <= i <= |positions|
        invariant total == TotalMarketValue(positions[..i])
      {
        assert positions[..i + 1][..i] == positions[..i];
        total := total + positions[i].marketValue;
        i := i + 1;
      }
      assert positions[..i] == positions;
      allocation := map[];
      if total > 0.0 {
        i := 0;
        while i < |positions|
          invariant 0 <= i <= |positions|
          invariant allocation == Shares(positions[..i], total, 100.0)
        {
          assert positions[..i + 1][..i] == positions[..i];
          allocation := allocation[positions[i].symbol := positions[i].marketValue / total * 100.0];
          i := i + 1;
        }
        assert positions[..i] == positions;
      }
    }

    /** `get_portfolio_history`: asks the history endpoint with the current keys and the parameters for
        the button; a status other than 200 raises with the body's text. The `period` argument is not read. */
    function GetPortfolioHistory(timeframe: string, period: string, dateEnd: Option<string>,
                                 http: HistoryRequest -> HttpResponse): (r: Result<Value>)
      reads this
      ensures var response := http(HistoryRequest(apiKey, secretKey, HistoryParams(timeframe, dateEnd)));
        && (r.Ok? <==> response.status == 200)
        && (r.Ok? ==> r.value == response.json)
        && (r.Err? ==> r.message == "Error getting portfolio history: " + response.text)
    {
      var response := http(HistoryRequest(apiKey, secretKey, HistoryParams(timeframe, dateEnd)));
      if response.status != 200 then Err("Error getting portfolio history: " + response.text)
      else Ok(response.json)
    }
  }

  /** The position records, in the order the brokerage lists the positions. */
  method PositionRecords(positions: seq<Position>) returns (records: seq<Position>)
    ensures |records| == |positions|
    ensures forall i :: 0 <= i < |positions| ==> records[i] == PositionRecord(positions[i])
  {
    records := [];
    for i := 0 to |positions|
      invariant |records| == i
      invariant forall k :: 0 <= k < i ==> records[k] == PositionRecord(positions[k])
    {
      records := records + [PositionRecord(positions[i])];
    }
  }

  /** The trade records, in the order the brokerage lists the orders. */
  method Trades(orders: seq<Order>) returns (trades: seq<Trade>)
    ensures trades == TradesOf(orders)
  {
    trades := [];
    for i := 0 to |orders|
      invariant |trades| == i
      invariant forall k :: 0 <= k < i ==> trades[k] == TradeOf(orders[k])
    {
      trades := trades + [TradeOf(orders[i])];
    }
  }
}
