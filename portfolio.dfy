/** The portfolio service: the account, positions and history it caches from the brokerage gateway, and
    the summary, allocation chart, returns and recent-trades views built from them. */
module Portfolio {
  import opened Wrappers
  import opened Values
  import opened Alpaca

  const NotInitialized := "Portfolio not initialized. Please configure Alpaca credentials."

  /** Colours of the first four allocation slices; later positions are purple and cash is grey. */
  const PositionColors := ["#4CAF50", "#2196F3", "#FFC107", "#9E9E9E"]
  const DefaultColor := "#673AB7"
  const CashColor := "#9E9E9E"

  /** Cash gets its own slice only above this fraction of the portfolio value. */
  const CashThreshold := 0.01

  /** `position_colors.get(i, default)`. */
  function ColorFor(i: nat): (c: string)
    ensures i < 4 ==> c == PositionColors[i]
    ensures i >= 4 ==> c == DefaultColor
  {
    if i < |PositionColors| then PositionColors[i] else DefaultColor
  }

  /** The four headline figures (their currency and sign formatting is not modelled). */
  datatype Summary = Summary(totalValue: real, dailyChangePercent: real, cashAvailable: real, buyingPower: real)

  /** The doughnut chart's parallel lists. */
  datatype AllocationChart = AllocationChart(labels: seq<string>, data: seq<real>, backgroundColor: seq<string>)

  /** The line chart's labels (timestamps, unformatted) and its data. */
  datatype PerformanceChart = PerformanceChart(labels: seq<real>, data: Value)

  /** The returns view: today's and the total return in percent, and the series they come from. */
  datatype HistoryView = HistoryView(todayReturn: real, totalReturn: real, timestamps: seq<real>, equity: Value)

  /** A row of the recent-trades table. */
  datatype TradeRow = TradeRow(symbol: string, side: string, qty: real, price: real, timestamp: string)

  /** A number in an arithmetic expression: `bool`, `int` or `float`; anything else raises. */
  function Number(v: Value): (r: Result<real>)
    ensures r.Ok? <==> v.VBool? || v.VInt? || v.VFloat?
    ensures v.VFloat? ==> r == Ok(v.f)
  {
    match v
    case VBool(b) => Ok(if b then 1.0 else 0.0)
    case VInt(i) => Ok(i as real)
    case VFloat(f) => Ok(f)
    case _ => Err("unsupported operand type(s): '" + TypeName(v) + "'")
  }

  /** `d[key]` on the history payload. */
  function Field(d: Value, key: string): (r: Result<Value>)
    ensures r.Ok? <==> d.VDict? && key in d.entries
    ensures r.Ok? ==> r.value == d.entries[key]
  {
    if d.VDict? && key in d.entries then Ok(d.entries[key]) else Err("KeyError: '" + key + "'")
  }

  /** `xs[-1]` on a non-empty list. */
  function Last(xs: Value): (r: Result<Value>)
    ensures r.Ok? <==> xs.VList? && xs.items != []
    ensures r.Ok? ==> r.value == xs.items[|xs.items| - 1]
  {
    if xs.VList? && xs.items != [] then Ok(xs.items[|xs.items| - 1]) else Err("IndexError: list index out of range")
  }

  /** Every element of a list read as a number (the timestamps). */
  function Numbers(items: seq<Value>): (r: Result<seq<real>>)
    ensures r.Ok? ==> |r.value| == |items| && forall i :: 0 <= i < |items| ==> Number(items[i]) == Ok(r.value[i])
    ensures r.Err? ==> exists i :: 0 <= i < |items| && Number(items[i]).Err?
  {
    if items == [] then Ok([])
    else
      var x :- Number(items[0]);
      var rest :- Numbers(items[1..]);
      assert forall i :: 1 <= i < |items| ==> items[i] == items[1..][i - 1];
      Ok([x] + rest)
  }

  /** Today's return: the last profit/loss fraction in percent, or 0 when that list is empty. */
  function TodayReturn(history: Value): (r: Result<real>)
    ensures r.Ok? <==>
      && Field(history, "profit_loss_pct").Ok?
      && (Truthy(history.entries["profit_loss_pct"]) ==>
            Last(history.entries["profit_loss_pct"]).Ok? && Number(Last(history.entries["profit_loss_pct"]).value).Ok?)
    ensures Field(history, "profit_loss_pct").Ok? && !Truthy(history.entries["profit_loss_pct"]) ==> r == Ok(0.0)
    ensures Field(history, "profit_loss_pct").Ok? && Last(history.entries["profit_loss_pct"]).Ok?
            && Number(Last(history.entries["profit_loss_pct"]).value).Ok? ==>
      r.Ok? && r.value == Number(Last(history.entries["profit_loss_pct"]).value).value * 100.0
  {
    var pl :- Field(history, "profit_loss_pct");
    if !Truthy(pl) then Ok(0.0)
    else
      var last :- Last(pl);
      var x :- Number(last);
      Ok(x * 100.0)
  }

  /** The last equity and the base value are numbers and the base value is not 0. */
  predicate ReturnComputable(history: Value) {
    && history.VDict? && "equity" in history.entries && "base_value" in history.entries
    && Last(history.entries["equity"]).Ok? && Number(Last(history.entries["equity"]).value).Ok?
    && Number(history.entries["base_value"]).Ok? && Number(history.entries["base_value"]).value != 0.0
  }

  /** The total return: the last equity against the base value, in percent, or 0 when there is no equity;
      a zero base value raises. */
  function TotalReturn(history: Value): (r: Result<real>)
    ensures r.Ok? <==>
      && Field(history, "equity").Ok?
      && (Truthy(history.entries["equity"]) ==> ReturnComputable(history))
    ensures Field(history, "equity").Ok? && !Truthy(history.entries["equity"]) ==> r == Ok(0.0)
    ensures Field(history, "equity").Ok? && ReturnComputable(history) ==>
      && r.Ok?
      && r.value * Number(history.entries["base_value"]).value
         == (Number(Last(history.entries["equity"]).value).value - Number(history.entries["base_value"]).value) * 100.0
  {
    var eq :- Field(history, "equity");
    if !Truthy(eq) then Ok(0.0)
    else
      var lastItem :- Last(eq);
      var last :- Number(lastItem);
      var baseItem :- Field(history, "base_value");
      var base :- Number(baseItem);
      if base == 0.0 then Err("float division by zero")
      else Ok((last - base) / base * 100.0)
  }

  /** A portfolio whose equity is back at its base value has a total return of 0. */
  lemma TotalReturnFlat(history: Value, e: real)
    requires history.VDict? && "equity" in history.entries && "base_value" in history.entries
    requires history.entries["equity"].VList? && history.entries["equity"].items != []
    requires var items := history.entries["equity"].items; items[|items| - 1] == VFloat(e)
    requires history.entries["base_value"] == VFloat(e) && e != 0.0
    ensures TotalReturn(history) == Ok(0.0)
  {
    var eq := history.entries["equity"];
    assert Truthy(eq);
    assert Last(eq) == Ok(VFloat(e));
  }

  /** The filled trades, by their positions in `trades`: in order, and exactly those whose status is
      `filled`. */
  function FilledIndices(trades: seq<Trade>): (idx: seq<nat>)
    ensures forall k :: 0 <= k < |idx| ==> idx[k] < |trades| && trades[idx[k]].status == "filled"
    ensures forall k, l :: 0 <= k < l < |idx| ==> idx[k] < idx[l]
    ensures forall i :: 0 <= i < |trades| && trades[i].status == "filled" ==> i in idx
  {
    if trades == [] then []
    else
      var init := FilledIndices(trades[..|trades| - 1]);
      if trades[|trades| - 1].status == "filled" then init + [|trades| - 1] else init
  }

  /** A filled trade's row: its fill quantity and price, stamped with the fill time or else the submission
      time; `None` when it has neither (the formatting call raises). */
  function RowOf(t: Trade): (r: Option<TradeRow>)
    ensures r.Some? <==> t.filledAt.Some? || t.submittedAt.Some?
    ensures r.Some? ==> r.value.qty == t.filledQty && r.value.price == t.filledAvgPrice && r.value.symbol == t.symbol
    ensures r.Some? && t.filledAt.Some? ==> r.value.timestamp == t.filledAt.value
    ensures r.Some? && t.filledAt.None? ==> r.value.timestamp == t.submittedAt.value
  {
    if t.filledAt.Some? then Some(TradeRow(t.symbol, t.side, t.filledQty, t.filledAvgPrice, t.filledAt.value))
    else if t.submittedAt.Some? then Some(TradeRow(t.symbol, t.side, t.filledQty, t.filledAvgPrice, t.submittedAt.value))
    else None
  }

  /** The rows of the trades at `idx`, or `None` as soon as one of them cannot be stamped. */
  function RowsAt(trades: seq<Trade>, idx: seq<nat>): (r: Option<seq<TradeRow>>)
    requires forall k :: 0 <= k < |idx| ==> idx[k] < |trades|
    ensures r.Some? <==> forall k :: 0 <= k < |idx| ==> RowOf(trades[idx[k]]).Some?
    ensures r.Some? ==> |r.value| == |idx| && forall k :: 0 <= k < |idx| ==> Some(r.value[k]) == RowOf(trades[idx[k]])
  {
    if idx == [] then Some([])
    else
      match RowOf(trades[idx[0]])
      case None => None
      case Some(row) =>
        match RowsAt(trades, idx[1..])
        case None => None
        case Some(rows) => Some([row] + rows)
  }

  /** The timestamps of a history payload, read as numbers (their date formatting is not modelled). The
      comprehension iterates its value: a list by its items, a string by its one-character strings and a
      dictionary by its keys, so an empty string or dictionary gives no stamps and a non-empty one fails on a
      string. */
  function Timestamps(history: Value): (r: Result<seq<real>>)
    ensures r.Ok? <==>
      && Field(history, "timestamp").Ok?
      && (|| Field(history, "timestamp").value == VStr([])
          || Field(history, "timestamp").value == VDict(map[])
          || (&& Field(history, "timestamp").value.VList?
              && forall i :: 0 <= i < |Field(history, "timestamp").value.items| ==>
                   Number(Field(history, "timestamp").value.items[i]).Ok?))
    ensures r.Ok? && Field(history, "timestamp").value.VList? ==>
      var ts := Field(history, "timestamp").value.items;
      |r.value| == |ts| && forall i :: 0 <= i < |ts| ==> Number(ts[i]) == Ok(r.value[i])
    ensures r.Ok? && !Field(history, "timestamp").value.VList? ==> r.value == []
  {
    var ts :- Field(history, "timestamp");
    match ts
    case VList(items) => Numbers(items)
    case VStr(text) =>
      if text == [] then Ok([]) else Numbers([VStr([text[0]])])
    case VDict(entries) =>
      // Every key is a string, and the conversion's error does not depend on which.
      if entries == map[] then Ok([]) else Numbers([VStr([])])
    case _ => Err("'" + TypeName(ts) + "' object is not iterable")
  }

  /** The line chart of a history payload: its timestamps and its equity series. */
  function PerformanceChartOf(history: Value): (r: Result<PerformanceChart>)
    ensures r.Ok? <==> Timestamps(history).Ok? && Field(history, "equity").Ok?
    ensures r.Ok? ==> Field(history, "equity") == Ok(r.value.data)
    ensures r.Ok? ==> Timestamps(history) == Ok(r.value.labels)
  {
    var labels :- Timestamps(history);
    var equity :- Field(history, "equity");
    Ok(PerformanceChart(labels, equity))
  }

  /** An empty string or dictionary of timestamps draws a chart with no labels; a non-empty string does not. */
  lemma EmptyTimestampsChart(history: Value, text: string)
    requires history.VDict? && "timestamp" in history.entries && "equity" in history.entries
    ensures history.entries["timestamp"] == VStr([]) || history.entries["timestamp"] == VDict(map[]) ==>
      PerformanceChartOf(history) == Ok(PerformanceChart([], history.entries["equity"]))
    ensures text != [] && history.entries["timestamp"] == VStr(text) ==> PerformanceChartOf(history).Err?
  {
  }

  /** The returns view of a history payload. */
  function HistoryViewOf(history: Value): (r: Result<HistoryView>)
    ensures r.Ok? <==> TodayReturn(history).Ok? && TotalReturn(history).Ok? && Timestamps(history).Ok?
    ensures r.Ok? ==> TodayReturn(history) == Ok(r.value.todayReturn)
    ensures r.Ok? ==> TotalReturn(history) == Ok(r.value.totalReturn)
    ensures r.Ok? ==> Field(history, "equity") == Ok(r.value.equity)
    ensures r.Ok? ==> Timestamps(history) == Ok(r.value.timestamps)
  {
    var today :- TodayReturn(history);
    var total :- TotalReturn(history);
    var stamps :- Timestamps(history);
    Ok(HistoryView(today, total, stamps, history.entries["equity"]))
  }

  /** The table rows for a list of trades: one per filled trade, or none at all when one of them cannot be
      stamped. */
  function RecentRows(trades: seq<Trade>): (rows: seq<TradeRow>)
    ensures RowsAt(trades, FilledIndices(trades)).Some? ==> rows == RowsAt(trades, FilledIndices(trades)).value
    ensures RowsAt(trades, FilledIndices(trades)).None? ==> rows == []
  {
    match RowsAt(trades, FilledIndices(trades))
    case None => []
    case Some(rs) => rs
  }

  class PortfolioService {
    const alpaca: AlpacaService
    var accountInfo: Option<AccountInfo>
    var positions: Option<seq<Position>>
    /** The history payload as the endpoint returned it; `VNone` until it has been fetched. */
    var portfolioHistory: Value

    ghost predicate Valid()
      reads this, alpaca
    {
      alpaca.Valid()
    }

    constructor ()
      ensures Valid() && fresh(alpaca)
      ensures accountInfo.None? && positions.None? && portfolioHistory == VNone
      ensures alpaca.apiKey.None? && alpaca.secretKey.None?
    {
      alpaca := new AlpacaService(None, None);
      accountInfo := None;
      positions := None;
      portfolioHistory := VNone;
    }

    /** The caches after a refresh with the gateway's current keys, from the caches `account`, `held` and
        `history` it started with: the account, then the positions, then the default history (one day of
        hourly bars, no end date). A failing fetch ends the refresh with `r.Err?` and leaves its field and the
        later ones as they were; without both keys nothing is fetched. */
    ghost predicate Refreshed(account: Option<AccountInfo>, held: Option<seq<Position>>, history: Value,
                              r: Result<()>,
                              fetchAccount: TradingClient -> Result<Account>,
                              fetchPositions: TradingClient -> Result<seq<Position>>,
                              http: HistoryRequest -> HttpResponse)
      reads this, alpaca
    {
      if !alpaca.HasCredentials() then
        r.Err? && accountInfo == account && positions == held && portfolioHistory == history
      else
        var client := TradingClient(alpaca.apiKey.value, alpaca.secretKey.value);
        var fetched := alpaca.GetPortfolioHistory("1D", "1M", None, http);
        match fetchAccount(client)
        case Err(_) =>
          r.Err? && accountInfo == account && positions == held && portfolioHistory == history
        case Ok(a) =>
          && accountInfo == Some(AccountInfoOf(a))
          && match fetchPositions(client)
             case Err(_) => r.Err? && positions == held && portfolioHistory == history
             case Ok(ps) =>
               && positions.Some? && |positions.value| == |ps|
               && (forall i :: 0 <= i < |ps| ==> positions.value[i] == PositionRecord(ps[i]))
               && (fetched.Err? ==> r.Err? && portfolioHistory == history)
               && (fetched.Ok? ==> r.Ok? && portfolioHistory == fetched.value)
    }

    /** `refresh_data`: fetches the account, then the positions, then the default history; a failing fetch
        raises and leaves that field and the later ones as they were. */
    method RefreshData(fetchAccount: TradingClient -> Result<Account>,
                       fetchPositions: TradingClient -> Result<seq<Position>>,
                       http: HistoryRequest -> HttpResponse)
      returns (r: Result<()>)
      requires Valid()
      modifies this, alpaca
      ensures Valid()
      ensures alpaca.apiKey == old(alpaca.apiKey) && alpaca.secretKey == old(alpaca.secretKey)
      ensures Refreshed(old(accountInfo), old(positions), old(portfolioHistory), r, fetchAccount, fetchPositions, http)
    {
      var info :- alpaca.GetAccountInfo(fetchAccount);
      accountInfo := Some(info);
      var ps :- alpaca.GetPositions(fetchPositions);
      positions := Some(ps);
      var history :- alpaca.GetPortfolioHistory("1D", "1M", None, http);
      portfolioHistory := history;
      r := Ok(());
    }

    /** `initialize_with_credentials`: installs the keys, then refreshes everything with them. */
    method InitializeWithCredentials(apiKey: Option<string>, secretKey: Option<string>,
                                     fetchAccount: TradingClient -> Result<Account>,
                                     fetchPositions: TradingClient -> Result<seq<Position>>,
                                     http: HistoryRequest -> HttpResponse)
      returns (r: Result<()>)
      requires Valid()
      modifies this, alpaca
      ensures Valid()
      ensures alpaca.apiKey == apiKey && alpaca.secretKey == secretKey
      ensures Refreshed(old(accountInfo), old(positions), old(portfolioHistory), r, fetchAccount, fetchPositions, http)
      ensures !(KeySet(apiKey) && KeySet(secretKey)) ==>
        r.Err? && accountInfo == old(accountInfo) && positions == old(positions)
        && portfolioHistory == old(portfolioHistory)
      ensures r.Ok? ==> accountInfo.Some? && positions.Some?
    {
      alpaca.UpdateCredentials(apiKey, secretKey);
      r := RefreshData(fetchAccount, fetchPositions, http);
    }

    /** `get_portfolio_summary`: refuses before the account has been fetched. */
    function GetPortfolioSummary(): (r: Result<Summary>)
      reads this
      ensures r.Ok? <==> accountInfo.Some?
      ensures r.Err? ==> r.message == NotInitialized
      ensures r.Ok? ==>
        && r.value.totalValue == accountInfo.value.portfolioValue
        && r.value.dailyChangePercent == accountInfo.value.dayChangePercent
        && r.value.cashAvailable == accountInfo.value.cash && r.value.buyingPower == accountInfo.value.buyingPower
    {
      if accountInfo.None? then Err(NotInitialized)
      else
        var a := accountInfo.value;
        Ok(Summary(a.portfolioValue, a.dayChangePercent, a.cash, a.buyingPower))
    }

    /** `get_asset_allocation`: one slice per position, in order, coloured from the table; then a cash
        slice when cash is more than 1% of the portfolio value. */
    method GetAssetAllocation() returns (r: Result<AllocationChart>)
      ensures accountInfo.None? ==> r == Err(NotInitialized)
      ensures accountInfo.Some? && positions.None? ==> r.Err?
      ensures accountInfo.Some? && accountInfo.value.portfolioValue == 0.0 ==> r.Err?
      ensures r.Ok? ==>
        && accountInfo.Some? && positions.Some? && accountInfo.value.portfolioValue != 0.0
        && var ps := positions.value;
           var cash := accountInfo.value.cash;
           var withCash := cash / accountInfo.value.portfolioValue > CashThreshold;
           var n := |ps| + (if withCash then 1 else 0);
           && |r.value.labels| == n && |r.value.data| == n && |r.value.backgroundColor| == n
           && (forall i :: 0 <= i < |ps| ==>
                 r.value.labels[i] == ps[i].symbol && r.value.data[i] == ps[i].marketValue
                 && r.value.backgroundColor[i] == ColorFor(i))
           && (withCash ==> r.value.labels[n - 1] == "Cash" && r.value.data[n - 1] == cash
                            && r.value.backgroundColor[n - 1] == CashColor)
      ensures accountInfo.Some? && positions.Some? && accountInfo.value.portfolioValue != 0.0 ==> r.Ok?
    {
      if accountInfo.None? {
        return Err(NotInitialized);
      }
      var total := accountInfo.value.portfolioValue;
      var cash := accountInfo.value.cash;
      if positions.None? {
        return Err("'NoneType' object is not iterable");
      }
      var ps := positions.value;
      var labels: seq<string> := [];
      var data: seq<real> := [];
      var colors: seq<string> := [];
      for i := 0 to |ps|
        invariant |labels| == i && |data| == i && |colors| == i
        invariant forall k :: 0 <= k < i ==> labels[k] == ps[k].symbol && data[k] == ps[k].marketValue && colors[k] == ColorFor(k)
      {
        labels := labels + [ps[i].symbol];
        data := data + [ps[i].marketValue];
        colors := colors + [ColorFor(i)];
      }
      if total == 0.0 {
        return Err("float division by zero");
      }
      if cash / total > CashThreshold {
        labels := labels + ["Cash"];
        data := data + [cash];
        colors := colors + [CashColor];
      }
      r := Ok(AllocationChart(labels, data, colors));
    }

    /** `get_performance_chart`: the history's timestamps and equity, once a history has been fetched. */
    function GetPerformanceChart(): (r: Result<PerformanceChart>)
      reads this
      ensures !Truthy(portfolioHistory) ==> r == Err(NotInitialized)
      ensures Truthy(portfolioHistory) ==> r == PerformanceChartOf(portfolioHistory)
    {
      if !Truthy(portfolioHistory) then Err(NotInitialized) else PerformanceChartOf(portfolioHistory)
    }

    /** `get_portfolio_history`: today's and the total return, with the series they come from. */
    function GetPortfolioHistory(): (r: Result<HistoryView>)
      reads this
      ensures !Truthy(portfolioHistory) ==> r == Err(NotInitialized)
      ensures Truthy(portfolioHistory) ==> r == HistoryViewOf(portfolioHistory)
    {
      if !Truthy(portfolioHistory) then Err(NotInitialized) else HistoryViewOf(portfolioHistory)
    }

    /** `get_recent_trades`: the filled trades among the last ten orders, in order; an empty list when
        anything on the way raises. */
    method GetRecentTrades(fetch: (TradingClient, OrdersRequest) -> Result<seq<Order>>) returns (rows: seq<TradeRow>)
      requires Valid()
      modifies alpaca
      ensures Valid() && alpaca.apiKey == old(alpaca.apiKey) && alpaca.secretKey == old(alpaca.secretKey)
      ensures !alpaca.HasCredentials() ==> rows == []
      ensures alpaca.HasCredentials() ==>
        var fetched := fetch(TradingClient(alpaca.apiKey.value, alpaca.secretKey.value), OrdersRequest(true, 10, true));
        && (fetched.Err? ==> rows == [])
        && (fetched.Ok? ==> rows == RecentRows(TradesOf(fetched.value)))
    {
      var trades := alpaca.GetRecentTrades(10, fetch);
      if trades.Err? {
        return [];
      }
      rows := RecentRows(trades.value);
    }
  }

  /** The recent-trades rows are exactly the filled trades, in order, each with its fill quantity and price. */
  lemma RecentTradesAreFilled(trades: seq<Trade>, rows: seq<TradeRow>)
    requires RowsAt(trades, FilledIndices(trades)) == Some(rows)
    ensures |rows| == |FilledIndices(trades)|
    ensures forall k :: 0 <= k < |rows| ==>
      var t := trades[FilledIndices(trades)[k]];
      t.status == "filled" && rows[k].qty == t.filledQty && rows[k].price == t.filledAvgPrice
      && rows[k].symbol == t.symbol && rows[k].side == t.side
  {
    var idx := FilledIndices(trades);
    forall k | 0 <= k < |rows|
      ensures var t := trades[idx[k]];
        t.status == "filled" && rows[k].qty == t.filledQty && rows[k].price == t.filledAvgPrice
        && rows[k].symbol == t.symbol && rows[k].side == t.side
    {
      assert Some(rows[k]) == RowOf(trades[idx[k]]);
    }
  }
}
