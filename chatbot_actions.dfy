/** The action dispatcher of the chat assistant and its natural-language command recogniser.
    The trading, market-data and portfolio services are one oracle `service`: given the call a handler makes it
    yields the service's return value or fails (`Err`, the exception it raises). A handler's effect is the list
    of calls it makes, returned next to its result. */
module ChatbotActions {
  import opened Wrappers
  import opened Text
  import opened Values

  /** One call into a stubbed service, with the arguments the handler passes. */
  datatype Call =
    | PlaceMarketOrder(symbol: string, qty: real, side: string)
    | PlaceLimitOrder(symbol: string, qty: real, side: string, limitPrice: real)
    | PlaceStopOrder(symbol: string, qty: real, side: string, stopPrice: real)
    | PlaceStopLimitOrder(symbol: string, qty: real, side: string, stopPrice: real, limitPrice: real)
    | CancelOrder(orderId: Value)
    | CancelAllOrders
    | ClosePosition(symbol: string)
    | CloseAllPositions
    | GetLatestQuote(symbol: string)
    | GetLatestTrade(symbol: string)
    | GetBars(symbol: string, timeframe: Value, limit: int)
    | TechnicalIndicators(bars: Value)
    | PortfolioSummary
    | GetPosition(symbol: string)
    | GetOpenOrders(filter: Value)
    | GetAssetInfo(symbol: string)
    | GetClock
    | GetCalendar(start: real, end: real)

  /** What a handler returns, and the service calls it made on the way, in order. */
  datatype Outcome = Outcome(result: Value, calls: seq<Call>)

  /** The handlers of the dispatch table. */
  datatype Handler =
    | PlaceMarket | PlaceLimit | PlaceStop | PlaceStopLimit
    | CancelOne | CancelEvery | CloseOne | CloseEvery
    | QuoteLookup | TradeLookup | BarsFetch | AnalysisFetch
    | SummaryFetch | PositionLookup | OpenOrdersFetch | AssetLookup
    | StatusFetch | CalendarFetch

  /** `action_handlers`: the action names the dispatcher accepts. */
  const HandlerTable: map<string, Handler> := map[
    "place_market_order" := PlaceMarket,
    "place_limit_order" := PlaceLimit,
    "place_stop_order" := PlaceStop,
    "place_stop_limit_order" := PlaceStopLimit,
    "cancel_order" := CancelOne,
    "cancel_all_orders" := CancelEvery,
    "close_position" := CloseOne,
    "close_all_positions" := CloseEvery,
    "get_quote" := QuoteLookup,
    "get_latest_trade" := TradeLookup,
    "get_bars" := BarsFetch,
    "get_technical_analysis" := AnalysisFetch,
    "get_portfolio_summary" := SummaryFetch,
    "get_position_details" := PositionLookup,
    "get_open_orders" := OpenOrdersFetch,
    "get_asset_info" := AssetLookup,
    "get_market_status" := StatusFetch,
    "get_trading_calendar" := CalendarFetch
  ]

  const MarketOrderKeys: seq<string> := ["symbol", "qty", "side"]
  const LimitOrderKeys: seq<string> := ["symbol", "qty", "side", "limit_price"]
  const StopOrderKeys: seq<string> := ["symbol", "qty", "side", "stop_price"]
  const StopLimitOrderKeys: seq<string> := ["symbol", "qty", "side", "stop_price", "limit_price"]

  const SecondsPerDay: real := 86400.0

  predicate HasAll(params: map<string, Value>, keys: seq<string>) {
    forall k :: k in keys ==> k in params
  }

  /** `", ".join(keys)`. */
  function JoinComma(keys: seq<string>): string {
    if |keys| == 0 then "" else if |keys| == 1 then keys[0] else keys[0] + ", " + JoinComma(keys[1..])
  }

  function MissingParameters(keys: seq<string>): Value {
    ErrorDict("Missing required parameters. Need: " + JoinComma(keys))
  }

  const MissingSymbol: Value := ErrorDict("Missing symbol parameter")

  /** The service's answer, or `{'error': str(e)}` when it raises. */
  function Answer(r: Result<Value>): Value {
    match r
    case Ok(v) => v
    case Err(m) => ErrorDict(m)
  }

  /** Makes `call` when its arguments could be computed; an argument that raised makes no call. */
  function Submit(call: Result<Call>, service: Call -> Result<Value>): (r: Outcome)
    ensures call.Err? ==> r == Outcome(ErrorDict(call.message), [])
    ensures call.Ok? ==> r.calls == [call.value] && r.result == Answer(service(call.value))
  {
    match call
    case Err(m) => Outcome(ErrorDict(m), [])
    case Ok(c) => Outcome(Answer(service(c)), [c])
  }

  /** Makes `call` and wraps the service's answer as `{key: answer}`. */
  function SubmitWrapped(call: Call, key: string, service: Call -> Result<Value>): (r: Outcome)
    ensures r.calls == [call]
    ensures service(call).Ok? ==> r.result == VDict(map[key := service(call).value])
    ensures service(call).Err? ==> r.result == ErrorDict(service(call).message)
  {
    match service(call)
    case Ok(v) => Outcome(VDict(map[key := v]), [call])
    case Err(m) => Outcome(ErrorDict(m), [call])
  }

  /** Makes `call` and replaces a falsy answer by `{'error': missing}`. */
  function SubmitChecked(call: Result<Call>, missing: string, service: Call -> Result<Value>): (r: Outcome)
    ensures call.Err? ==> r == Outcome(ErrorDict(call.message), [])
    ensures call.Ok? ==> r.calls == [call.value]
    ensures call.Ok? && service(call.value).Ok? ==>
      r.result == if Truthy(service(call.value).value) then service(call.value).value else ErrorDict(missing)
    ensures call.Ok? && service(call.value).Err? ==> r.result == ErrorDict(service(call.value).message)
  {
    match call
    case Err(m) => Outcome(ErrorDict(m), [])
    case Ok(c) =>
      match service(c)
      case Err(m) => Outcome(ErrorDict(m), [c])
      case Ok(v) => Outcome(if Truthy(v) then v else ErrorDict(missing), [c])
  }

  /** The symbol argument, `params['symbol'].upper()`. */
  function Symbol(params: map<string, Value>): Result<string>
    requires "symbol" in params
  {
    PyUpper(params["symbol"])
  }

  /** The arguments shared by every order, evaluated in the order the call writes them. */
  function OrderHead(params: map<string, Value>): (r: Result<(string, real, string)>)
    requires "symbol" in params && "qty" in params && "side" in params
    ensures r.Ok? <==> params["symbol"].VStr? && Values.PyFloat(params["qty"]).Ok? && params["side"].VStr?
    ensures r.Ok? ==> r.value == (Upper(params["symbol"].s), Values.PyFloat(params["qty"]).value, Lower(params["side"].s))
    ensures !params["symbol"].VStr? ==> r == Err(PyUpper(params["symbol"]).message)
    ensures params["symbol"].VStr? && Values.PyFloat(params["qty"]).Err? ==>
      r == Err(Values.PyFloat(params["qty"]).message)
    ensures params["symbol"].VStr? && Values.PyFloat(params["qty"]).Ok? && !params["side"].VStr? ==>
      r == Err(PyLower(params["side"]).message)
  {
    var symbol :- PyUpper(params["symbol"]);
    var qty :- Values.PyFloat(params["qty"]);
    var side :- PyLower(params["side"]);
    Ok((symbol, qty, side))
  }

  function MarketOrderCall(params: map<string, Value>): (r: Result<Call>)
    requires HasAll(params, MarketOrderKeys)
    ensures OrderHead(params).Err? ==> r == Err(OrderHead(params).message)
    ensures r.Ok? <==> OrderHead(params).Ok?
    ensures r.Ok? ==>
      var (symbol, qty, side) := OrderHead(params).value;
      r.value == PlaceMarketOrder(symbol, qty, side)
  {
    var (symbol, qty, side) :- OrderHead(params);
    Ok(PlaceMarketOrder(symbol, qty, side))
  }

  function LimitOrderCall(params: map<string, Value>): (r: Result<Call>)
    requires HasAll(params, LimitOrderKeys)
    ensures OrderHead(params).Err? ==> r == Err(OrderHead(params).message)
    ensures OrderHead(params).Ok? && Values.PyFloat(params["limit_price"]).Err? ==>
      r == Err(Values.PyFloat(params["limit_price"]).message)
    ensures r.Ok? <==> OrderHead(params).Ok? && Values.PyFloat(params["limit_price"]).Ok?
    ensures r.Ok? ==>
      var (symbol, qty, side) := OrderHead(params).value;
      r.value == PlaceLimitOrder(symbol, qty, side, Values.PyFloat(params["limit_price"]).value)
  {
    var (symbol, qty, side) :- OrderHead(params);
    var limitPrice :- Values.PyFloat(params["limit_price"]);
    Ok(PlaceLimitOrder(symbol, qty, side, limitPrice))
  }

  function StopOrderCall(params: map<string, Value>): (r: Result<Call>)
    requires HasAll(params, StopOrderKeys)
    ensures OrderHead(params).Err? ==> r == Err(OrderHead(params).message)
    ensures OrderHead(params).Ok? && Values.PyFloat(params["stop_price"]).Err? ==>
      r == Err(Values.PyFloat(params["stop_price"]).message)
    ensures r.Ok? <==> OrderHead(params).Ok? && Values.PyFloat(params["stop_price"]).Ok?
    ensures r.Ok? ==>
      var (symbol, qty, side) := OrderHead(params).value;
      r.value == PlaceStopOrder(symbol, qty, side, Values.PyFloat(params["stop_price"]).value)
  {
    var (symbol, qty, side) :- OrderHead(params);
    var stopPrice :- Values.PyFloat(params["stop_price"]);
    Ok(PlaceStopOrder(symbol, qty, side, stopPrice))
  }

  function StopLimitOrderCall(params: map<string, Value>): (r: Result<Call>)
    requires HasAll(params, StopLimitOrderKeys)
    ensures OrderHead(params).Err? ==> r == Err(OrderHead(params).message)
    ensures OrderHead(params).Ok? && Values.PyFloat(params["stop_price"]).Err? ==>
      r == Err(Values.PyFloat(params["stop_price"]).message)
    ensures OrderHead(params).Ok? && Values.PyFloat(params["stop_price"]).Ok? && Values.PyFloat(params["limit_price"]).Err? ==>
      r == Err(Values.PyFloat(params["limit_price"]).message)
    ensures r.Ok? <==>
      OrderHead(params).Ok? && Values.PyFloat(params["stop_price"]).Ok? && Values.PyFloat(params["limit_price"]).Ok?
    ensures r.Ok? ==>
      var (symbol, qty, side) := OrderHead(params).value;
      r.value == PlaceStopLimitOrder(symbol, qty, side, Values.PyFloat(params["stop_price"]).value,
                                     Values.PyFloat(params["limit_price"]).value)
  {
    var (symbol, qty, side) :- OrderHead(params);
    var stopPrice :- Values.PyFloat(params["stop_price"]);
    var limitPrice :- Values.PyFloat(params["limit_price"]);
    Ok(PlaceStopLimitOrder(symbol, qty, side, stopPrice, limitPrice))
  }

  /** `_place_market_order`, `_place_limit_order`, `_place_stop_order`, `_place_stop_limit_order`:
      nothing is submitted unless every required key is present. */
  function PlaceOrder(handler: Handler, params: map<string, Value>, service: Call -> Result<Value>): (r: Outcome)
    requires IsOrderHandler(handler)
    ensures !HasAll(params, RequiredKeys(handler)) ==> r == Outcome(MissingParameters(RequiredKeys(handler)), [])
    ensures HasAll(params, RequiredKeys(handler)) && handler.PlaceMarket? ==> r == Submit(MarketOrderCall(params), service)
    ensures HasAll(params, RequiredKeys(handler)) && handler.PlaceLimit? ==> r == Submit(LimitOrderCall(params), service)
    ensures HasAll(params, RequiredKeys(handler)) && handler.PlaceStop? ==> r == Submit(StopOrderCall(params), service)
    ensures HasAll(params, RequiredKeys(handler)) && handler.PlaceStopLimit? ==>
      r == Submit(StopLimitOrderCall(params), service)
    ensures |r.calls| <= 1
  {
    if !HasAll(params, RequiredKeys(handler)) then Outcome(MissingParameters(RequiredKeys(handler)), [])
    else if handler.PlaceMarket? then Submit(MarketOrderCall(params), service)
    else if handler.PlaceLimit? then Submit(LimitOrderCall(params), service)
    else if handler.PlaceStop? then Submit(StopOrderCall(params), service)
    else Submit(StopLimitOrderCall(params), service)
  }

  /** The four symbol-only lookups: `_get_quote`, `_get_latest_trade`, `_get_position_details`, `_get_asset_info`. */
  datatype LookupTarget = QuoteOf | TradeOf | PositionOf | AssetOf

  function LookupCall(target: LookupTarget, symbol: string): Call {
    match target
    case QuoteOf => GetLatestQuote(symbol)
    case TradeOf => GetLatestTrade(symbol)
    case PositionOf => GetPosition(symbol)
    case AssetOf => GetAssetInfo(symbol)
  }

  /** The answer of a lookup to a falsy service result. */
  function NotFound(target: LookupTarget): string {
    match target
    case QuoteOf => "Could not fetch quote"
    case TradeOf => "Could not fetch trade"
    case PositionOf => "Position not found"
    case AssetOf => "Asset not found"
  }

  /** A lookup: the symbol is required and upper-cased, and a falsy answer becomes an error. */
  function Lookup(target: LookupTarget, params: map<string, Value>, service: Call -> Result<Value>): (r: Outcome)
    ensures "symbol" !in params ==> r == Outcome(MissingSymbol, [])
    ensures "symbol" in params && !params["symbol"].VStr? ==>
      r == Outcome(ErrorDict(PyUpper(params["symbol"]).message), [])
    ensures "symbol" in params && params["symbol"].VStr? ==>
      r == SubmitChecked(Ok(LookupCall(target, Upper(params["symbol"].s))), NotFound(target), service)
    ensures r.calls != [] ==> "symbol" in params && Symbol(params).Ok? && r.calls == [LookupCall(target, Symbol(params).value)]
    ensures |r.calls| <= 1
  {
    if "symbol" !in params then Outcome(MissingSymbol, [])
    else
      var c: Result<Call> := match Symbol(params) case Ok(s) => Ok(LookupCall(target, s)) case Err(m) => Err(m);
      SubmitChecked(c, NotFound(target), service)
  }

  /** `_get_bars`: the timeframe defaults to '1D' and the limit to 100; the limit is converted first. */
  function BarsCall(params: map<string, Value>): (r: Result<Call>)
    requires "symbol" in params
    ensures Values.PyInt(Get(params, "limit", VInt(100))).Err? ==>
      r == Err(Values.PyInt(Get(params, "limit", VInt(100))).message)
    ensures Values.PyInt(Get(params, "limit", VInt(100))).Ok? && !params["symbol"].VStr? ==>
      r == Err(PyUpper(params["symbol"]).message)
    ensures r.Ok? <==> Values.PyInt(Get(params, "limit", VInt(100))).Ok? && params["symbol"].VStr?
    ensures r.Ok? ==>
      r.value == GetBars(Upper(params["symbol"].s), Get(params, "timeframe", VStr("1D")),
                         Values.PyInt(Get(params, "limit", VInt(100))).value)
  {
    var timeframe := Get(params, "timeframe", VStr("1D"));
    var limit :- Values.PyInt(Get(params, "limit", VInt(100)));
    var symbol :- Symbol(params);
    Ok(GetBars(symbol, timeframe, limit))
  }

  function GetBarsHandler(params: map<string, Value>, service: Call -> Result<Value>): (r: Outcome)
    ensures "symbol" !in params ==> r == Outcome(MissingSymbol, [])
    ensures "symbol" in params && BarsCall(params).Err? ==> r == Outcome(ErrorDict(BarsCall(params).message), [])
    ensures "symbol" in params && BarsCall(params).Ok? ==> r == SubmitWrapped(BarsCall(params).value, "bars", service)
    ensures |r.calls| <= 1
  {
    if "symbol" !in params then Outcome(MissingSymbol, [])
    else
      match BarsCall(params)
      case Err(m) => Outcome(ErrorDict(m), [])
      case Ok(c) => SubmitWrapped(c, "bars", service)
  }

  /** `_get_technical_analysis`: always 200 daily bars, then the indicators of those bars. */
  function TechnicalAnalysisHandler(params: map<string, Value>, service: Call -> Result<Value>): (r: Outcome)
    ensures "symbol" !in params ==> r == Outcome(MissingSymbol, [])
    ensures "symbol" in params && !params["symbol"].VStr? ==>
      r == Outcome(ErrorDict(PyUpper(params["symbol"]).message), [])
    ensures "symbol" in params && params["symbol"].VStr? ==>
      var symbol := Upper(params["symbol"].s);
      var barsCall := GetBars(symbol, VStr("1D"), 200);
      && (service(barsCall).Err? ==> r == Outcome(ErrorDict(service(barsCall).message), [barsCall]))
      && (service(barsCall).Ok? && !Truthy(service(barsCall).value) ==>
            r == Outcome(ErrorDict("Could not fetch data for technical analysis"), [barsCall]))
      && (service(barsCall).Ok? && Truthy(service(barsCall).value) ==>
            var indicatorsCall := TechnicalIndicators(service(barsCall).value);
            && r.calls == [barsCall, indicatorsCall]
            && (service(indicatorsCall).Ok? ==>
                  r.result == VDict(map["symbol" := VStr(symbol), "indicators" := service(indicatorsCall).value]))
            && (service(indicatorsCall).Err? ==> r.result == ErrorDict(service(indicatorsCall).message)))
    ensures "symbol" in params && Symbol(params).Ok? ==>
      |r.calls| >= 1 && r.calls[0] == GetBars(Symbol(params).value, VStr("1D"), 200)
    ensures |r.calls| <= 2
  {
    if "symbol" !in params then Outcome(MissingSymbol, [])
    else
      match Symbol(params)
      case Err(m) => Outcome(ErrorDict(m), [])
      case Ok(symbol) =>
        var barsCall := GetBars(symbol, VStr("1D"), 200);
        match service(barsCall)
        case Err(m) => Outcome(ErrorDict(m), [barsCall])
        case Ok(bars) =>
          if !Truthy(bars) then Outcome(ErrorDict("Could not fetch data for technical analysis"), [barsCall])
          else
            var indicatorsCall := TechnicalIndicators(bars);
            match service(indicatorsCall)
            case Err(m) => Outcome(ErrorDict(m), [barsCall, indicatorsCall])
            case Ok(indicators) =>
              Outcome(VDict(map["symbol" := VStr(symbol), "indicators" := indicators]), [barsCall, indicatorsCall])
  }

  /** `_get_open_orders`: a truthy symbol is upper-cased, any other value is passed on as it is. */
  function OpenOrdersCall(params: map<string, Value>): (r: Result<Call>)
    ensures !Truthy(Get(params, "symbol", VNone)) ==> r == Ok(GetOpenOrders(Get(params, "symbol", VNone)))
    ensures Truthy(Get(params, "symbol", VNone)) && Get(params, "symbol", VNone).VStr? ==>
      r == Ok(GetOpenOrders(VStr(Upper(params["symbol"].s))))
    ensures Truthy(Get(params, "symbol", VNone)) && !Get(params, "symbol", VNone).VStr? ==>
      r == Err(PyUpper(params["symbol"]).message)
  {
    var symbol := Get(params, "symbol", VNone);
    if Truthy(symbol) then
      var upper :- PyUpper(symbol);
      Ok(GetOpenOrders(VStr(upper)))
    else
      Ok(GetOpenOrders(symbol))
  }

  /** `timedelta(days=v)`: numbers (and booleans) are accepted. */
  function Days(v: Value): (r: Result<real>)
    ensures r.Ok? <==> v.VInt? || v.VFloat? || v.VBool?
    ensures v.VInt? ==> r == Ok(v.i as real)
    ensures v.VFloat? ==> r == Ok(v.f)
  {
    match v
    case VInt(i) => Ok(i as real)
    case VFloat(f) => Ok(f)
    case VBool(b) => Ok(if b then 1.0 else 0.0)
    case _ => Err("unsupported type for timedelta days component: " + TypeName(v))
  }

  /** `_get_trading_calendar`: from `now` (seconds) to `days` days later, 7 by default. */
  function CalendarCall(params: map<string, Value>, now: real): (r: Result<Call>)
    ensures r.Ok? <==> Days(Get(params, "days", VInt(7))).Ok?
    ensures r.Ok? ==>
      && r.value.GetCalendar? && r.value.start == now
      && r.value.end - r.value.start == Days(Get(params, "days", VInt(7))).value * SecondsPerDay
    ensures r.Err? ==> r == Err(Days(Get(params, "days", VInt(7))).message)
    ensures "days" !in params ==> r == Ok(GetCalendar(now, now + 7.0 * SecondsPerDay))
  {
    var days :- Days(Get(params, "days", VInt(7)));
    Ok(GetCalendar(now, now + days * SecondsPerDay))
  }

  /** `_cancel_order`: the order id is required and passed on as it is; the answer is wrapped as `{'success': answer}`. */
  function CancelOrderHandler(params: map<string, Value>, service: Call -> Result<Value>): (r: Outcome)
    ensures "order_id" !in params ==> r == Outcome(ErrorDict("Missing order_id parameter"), [])
    ensures "order_id" in params ==> r == SubmitWrapped(CancelOrder(params["order_id"]), "success", service)
    ensures |r.calls| <= 1
  {
    if "order_id" !in params then Outcome(ErrorDict("Missing order_id parameter"), [])
    else SubmitWrapped(CancelOrder(params["order_id"]), "success", service)
  }

  /** `_close_position`: the symbol is required and upper-cased; the service's answer is returned as it is. */
  function ClosePositionHandler(params: map<string, Value>, service: Call -> Result<Value>): (r: Outcome)
    ensures "symbol" !in params ==> r == Outcome(MissingSymbol, [])
    ensures "symbol" in params && !params["symbol"].VStr? ==>
      r == Outcome(ErrorDict(PyUpper(params["symbol"]).message), [])
    ensures "symbol" in params && params["symbol"].VStr? ==>
      r == Submit(Ok(ClosePosition(Upper(params["symbol"].s))), service)
    ensures |r.calls| <= 1
  {
    if "symbol" !in params then Outcome(MissingSymbol, [])
    else Submit(match Symbol(params) case Ok(s) => Ok(ClosePosition(s)) case Err(m) => Err(m), service)
  }

  /** `_get_open_orders`: the answer is wrapped as `{'orders': answer}`. */
  function OpenOrdersHandler(params: map<string, Value>, service: Call -> Result<Value>): (r: Outcome)
    ensures OpenOrdersCall(params).Err? ==> r == Outcome(ErrorDict(OpenOrdersCall(params).message), [])
    ensures OpenOrdersCall(params).Ok? ==> r == SubmitWrapped(OpenOrdersCall(params).value, "orders", service)
    ensures |r.calls| <= 1
  {
    match OpenOrdersCall(params)
    case Err(m) => Outcome(ErrorDict(m), [])
    case Ok(c) => SubmitWrapped(c, "orders", service)
  }

  /** `_get_trading_calendar`: the answer is wrapped as `{'calendar': answer}`. */
  function CalendarHandler(params: map<string, Value>, now: real, service: Call -> Result<Value>): (r: Outcome)
    ensures CalendarCall(params, now).Err? ==> r == Outcome(ErrorDict(CalendarCall(params, now).message), [])
    ensures CalendarCall(params, now).Ok? ==> r == SubmitWrapped(CalendarCall(params, now).value, "calendar", service)
    ensures |r.calls| <= 1
  {
    match CalendarCall(params, now)
    case Err(m) => Outcome(ErrorDict(m), [])
    case Ok(c) => SubmitWrapped(c, "calendar", service)
  }

  /** The keys an order handler requires. */
  function RequiredKeys(handler: Handler): seq<string> {
    match handler
    case PlaceLimit => LimitOrderKeys
    case PlaceStop => StopOrderKeys
    case PlaceStopLimit => StopLimitOrderKeys
    case _ => MarketOrderKeys
  }

  predicate IsOrderHandler(handler: Handler) {
    handler.PlaceMarket? || handler.PlaceLimit? || handler.PlaceStop? || handler.PlaceStopLimit?
  }

  /** The four groups of the dispatch table. */
  predicate IsTradingHandler(handler: Handler) {
    IsOrderHandler(handler) || handler.CancelOne? || handler.CancelEvery? || handler.CloseOne? || handler.CloseEvery?
  }

  predicate IsMarketDataHandler(handler: Handler) {
    handler.QuoteLookup? || handler.TradeLookup? || handler.BarsFetch? || handler.AnalysisFetch?
  }

  predicate IsPortfolioHandler(handler: Handler) {
    handler.SummaryFetch? || handler.PositionLookup? || handler.OpenOrdersFetch? || handler.AssetLookup?
  }

  /** Runs a trading handler: the four orders, the cancellations and the closings. */
  function TradingDispatch(handler: Handler, params: map<string, Value>, service: Call -> Result<Value>): (r: Outcome)
    requires IsTradingHandler(handler)
    ensures |r.calls| <= 1
    ensures IsOrderHandler(handler) ==> r == PlaceOrder(handler, params, service)
    ensures handler.CancelOne? ==> r == CancelOrderHandler(params, service)
    ensures handler.CancelEvery? ==> r == SubmitWrapped(CancelAllOrders, "success", service)
    ensures handler.CloseOne? ==> r == ClosePositionHandler(params, service)
    ensures handler.CloseEvery? ==> r == SubmitWrapped(CloseAllPositions, "success", service)
  {
    match handler
    case PlaceMarket | PlaceLimit | PlaceStop | PlaceStopLimit => PlaceOrder(handler, params, service)
    case CancelOne => CancelOrderHandler(params, service)
    case CancelEvery => SubmitWrapped(CancelAllOrders, "success", service)
    case CloseOne => ClosePositionHandler(params, service)
    case CloseEvery => SubmitWrapped(CloseAllPositions, "success", service)
  }

  /** Runs a market-data handler: the quote and trade lookups, the bars and the technical analysis. */
  function MarketDataDispatch(handler: Handler, params: map<string, Value>, service: Call -> Result<Value>)
    : (r: Outcome)
    requires IsMarketDataHandler(handler)
    ensures |r.calls| <= 2
    ensures handler.QuoteLookup? ==> r == Lookup(QuoteOf, params, service)
    ensures handler.TradeLookup? ==> r == Lookup(TradeOf, params, service)
    ensures handler.BarsFetch? ==> r == GetBarsHandler(params, service)
    ensures handler.AnalysisFetch? ==> r == TechnicalAnalysisHandler(params, service)
  {
    match handler
    case QuoteLookup => Lookup(QuoteOf, params, service)
    case TradeLookup => Lookup(TradeOf, params, service)
    case BarsFetch => GetBarsHandler(params, service)
    case AnalysisFetch => TechnicalAnalysisHandler(params, service)
  }

  /** Runs a portfolio handler: the summary, the position and asset lookups and the open orders. */
  function PortfolioDispatch(handler: Handler, params: map<string, Value>, service: Call -> Result<Value>)
    : (r: Outcome)
    requires IsPortfolioHandler(handler)
    ensures |r.calls| <= 1
    ensures handler.SummaryFetch? ==> r == Submit(Ok(PortfolioSummary), service)
    ensures handler.PositionLookup? ==> r == Lookup(PositionOf, params, service)
    ensures handler.OpenOrdersFetch? ==> r == OpenOrdersHandler(params, service)
    ensures handler.AssetLookup? ==> r == Lookup(AssetOf, params, service)
  {
    match handler
    case SummaryFetch => Submit(Ok(PortfolioSummary), service)
    case PositionLookup => Lookup(PositionOf, params, service)
    case OpenOrdersFetch => OpenOrdersHandler(params, service)
    case AssetLookup => Lookup(AssetOf, params, service)
  }

  /** Runs `handler` through its group of the table; the market-status group is the clock and the calendar. */
  function Dispatch(handler: Handler, params: map<string, Value>, now: real, service: Call -> Result<Value>)
    : (r: Outcome)
    ensures |r.calls| <= 2
    ensures IsTradingHandler(handler) ==> r == TradingDispatch(handler, params, service)
    ensures IsMarketDataHandler(handler) ==> r == MarketDataDispatch(handler, params, service)
    ensures IsPortfolioHandler(handler) ==> r == PortfolioDispatch(handler, params, service)
    ensures handler.StatusFetch? ==> r == Submit(Ok(GetClock), service)
    ensures handler.CalendarFetch? ==> r == CalendarHandler(params, now, service)
  {
    if IsTradingHandler(handler) then TradingDispatch(handler, params, service)
    else if IsMarketDataHandler(handler) then MarketDataDispatch(handler, params, service)
    else if IsPortfolioHandler(handler) then PortfolioDispatch(handler, params, service)
    else if handler.StatusFetch? then Submit(Ok(GetClock), service)
    else CalendarHandler(params, now, service)
  }

  /** `handle_action`: an unknown action is an error and calls nothing; a known one runs its handler, whose
      exceptions become `{'error': message}`. `now` is the clock reading the calendar handler takes. */
  function HandleAction(action: string, params: map<string, Value>, now: real, service: Call -> Result<Value>)
    : (r: Outcome)
    ensures action !in HandlerTable ==> r == Outcome(ErrorDict("Unknown action: " + action), [])
    ensures action in HandlerTable ==> r == Dispatch(HandlerTable[action], params, now, service)
    ensures |r.calls| <= 2
  {
    if action !in HandlerTable then Outcome(ErrorDict("Unknown action: " + action), [])
    else Dispatch(HandlerTable[action], params, now, service)
  }

  /** The required keys of the four order actions. */
  lemma OrderKeysTable()
    ensures RequiredKeys(HandlerTable["place_market_order"]) == ["symbol", "qty", "side"]
    ensures RequiredKeys(HandlerTable["place_limit_order"]) == ["symbol", "qty", "side", "limit_price"]
    ensures RequiredKeys(HandlerTable["place_stop_order"]) == ["symbol", "qty", "side", "stop_price"]
    ensures RequiredKeys(HandlerTable["place_stop_limit_order"]) == ["symbol", "qty", "side", "stop_price", "limit_price"]
  {
  }

  /** An order action missing any required key answers with the list of keys and submits nothing. */
  lemma MissingKeysSubmitNothing(action: string, params: map<string, Value>, now: real, service: Call -> Result<Value>)
    requires action in HandlerTable && IsOrderHandler(HandlerTable[action])
    requires !HasAll(params, RequiredKeys(HandlerTable[action]))
    ensures HandleAction(action, params, now, service) == Outcome(MissingParameters(RequiredKeys(HandlerTable[action])), [])
  {
  }

  /** A symbol as the services receive it: no lower-case letter. */
  predicate UpperCased(s: string) {
    forall i :: 0 <= i < |s| ==> !IsLower(s[i])
  }

  /** A side as the services receive it: no upper-case letter. */
  predicate LowerCased(s: string) {
    forall i :: 0 <= i < |s| ==> !IsUpper(s[i])
  }

  predicate Normalized(c: Call) {
    match c
    case PlaceMarketOrder(symbol, _, side) => UpperCased(symbol) && LowerCased(side)
    case PlaceLimitOrder(symbol, _, side, _) => UpperCased(symbol) && LowerCased(side)
    case PlaceStopOrder(symbol, _, side, _) => UpperCased(symbol) && LowerCased(side)
    case PlaceStopLimitOrder(symbol, _, side, _, _) => UpperCased(symbol) && LowerCased(side)
    case ClosePosition(symbol) => UpperCased(symbol)
    case GetLatestQuote(symbol) => UpperCased(symbol)
    case GetLatestTrade(symbol) => UpperCased(symbol)
    case GetBars(symbol, _, _) => UpperCased(symbol)
    case GetPosition(symbol) => UpperCased(symbol)
    case GetAssetInfo(symbol) => UpperCased(symbol)
    case GetOpenOrders(filter) => filter.VStr? && Truthy(filter) ==> UpperCased(filter.s)
    case _ => true
  }

  lemma UpperIsUpperCased(s: string)
    ensures UpperCased(Upper(s))
  {
  }

  lemma LowerIsLowerCased(s: string)
    ensures LowerCased(Lower(s))
  {
  }

  lemma OrderHeadNormalized(params: map<string, Value>)
    requires HasAll(params, MarketOrderKeys)
    ensures OrderHead(params).Ok? ==> UpperCased(OrderHead(params).value.0) && LowerCased(OrderHead(params).value.2)
  {
    if OrderHead(params).Ok? {
      UpperIsUpperCased(params["symbol"].s);
      LowerIsLowerCased(params["side"].s);
    }
  }

  lemma SymbolNormalized(params: map<string, Value>)
    requires "symbol" in params
    ensures Symbol(params).Ok? ==> UpperCased(Symbol(params).value)
  {
    if Symbol(params).Ok? {
      UpperIsUpperCased(params["symbol"].s);
    }
  }

  lemma PlaceOrderNormalized(handler: Handler, params: map<string, Value>, service: Call -> Result<Value>)
    requires IsOrderHandler(handler)
    ensures forall c :: c in PlaceOrder(handler, params, service).calls ==> Normalized(c)
  {
    if HasAll(params, RequiredKeys(handler)) {
      OrderHeadNormalized(params);
    }
  }

  lemma TechnicalAnalysisNormalized(params: map<string, Value>, service: Call -> Result<Value>)
    ensures forall c :: c in TechnicalAnalysisHandler(params, service).calls ==> Normalized(c)
  {
    if "symbol" in params {
      SymbolNormalized(params);
    }
  }

  lemma OpenOrdersNormalized(params: map<string, Value>)
    ensures OpenOrdersCall(params).Ok? ==> Normalized(OpenOrdersCall(params).value)
  {
    var symbol := Get(params, "symbol", VNone);
    if Truthy(symbol) && symbol.VStr? {
      UpperIsUpperCased(symbol.s);
    }
  }

  /** The handlers that look a symbol up pass it upper-cased. */
  lemma SymbolHandlerNormalized(handler: Handler, params: map<string, Value>, now: real, service: Call -> Result<Value>)
    requires handler.BarsFetch? || handler.CloseOne? || handler.QuoteLookup? || handler.TradeLookup?
      || handler.PositionLookup? || handler.AssetLookup?
    ensures forall c :: c in Dispatch(handler, params, now, service).calls ==> Normalized(c)
  {
    if "symbol" in params {
      SymbolNormalized(params);
      if handler.BarsFetch? && BarsCall(params).Ok? {
        assert Symbol(params).Ok?;
      }
    }
  }

  /** Every call a handler makes passes an upper-cased symbol and a lower-cased side. */
  lemma DispatchNormalized(handler: Handler, params: map<string, Value>, now: real, service: Call -> Result<Value>)
    ensures forall c :: c in Dispatch(handler, params, now, service).calls ==> Normalized(c)
  {
    match handler
    case PlaceMarket | PlaceLimit | PlaceStop | PlaceStopLimit => PlaceOrderNormalized(handler, params, service);
    case AnalysisFetch => TechnicalAnalysisNormalized(params, service);
    case OpenOrdersFetch => OpenOrdersNormalized(params);
    case BarsFetch => SymbolHandlerNormalized(handler, params, now, service);
    case CloseOne => SymbolHandlerNormalized(handler, params, now, service);
    case QuoteLookup => SymbolHandlerNormalized(handler, params, now, service);
    case TradeLookup => SymbolHandlerNormalized(handler, params, now, service);
    case PositionLookup => SymbolHandlerNormalized(handler, params, now, service);
    case AssetLookup => SymbolHandlerNormalized(handler, params, now, service);
    case _ =>
  }

  /** Every symbol a handler passes to a service is upper-cased and every side lower-cased. */
  lemma CallsAreNormalized(action: string, params: map<string, Value>, now: real, service: Call -> Result<Value>)
    ensures forall c :: c in HandleAction(action, params, now, service).calls ==> Normalized(c)
  {
    if action in HandlerTable {
      DispatchNormalized(HandlerTable[action], params, now, service);
    }
  }


  // ---------------------------------------------------------------------------------------------
  // The command recogniser. Each matcher takes a position and answers where its match ends, with the
  // semantics of Python's `re.match` for the pattern it stands for (ASCII classes, IGNORECASE).

  /** A case-insensitive literal. */
  function Lit(s: string, i: nat, word: string): (r: Option<nat>)
    ensures r.Some? ==> r.value == i + |word| <= |s|
    decreases |word|
  {
    if word == [] then (if i <= |s| then Some(i) else None)
    else if i < |s| && SameLetter(s[i], word[0]) then Lit(s, i + 1, word[1..])
    else None
  }

  /** A greedy run of one or more characters of a class (`\s+`, `\d+`, `\w+`). */
  function Run(s: string, i: nat, ok: char -> bool): (r: Option<nat>)
    ensures r.Some? ==> i < r.value <= |s|
  {
    if i <= |s| && RunEnd(s, i, ok) > i then Some(RunEnd(s, i, ok)) else None
  }

  /** `word\s+`. */
  function LitSpaces(s: string, i: nat, word: string): Option<nat> {
    match Lit(s, i, word)
    case None => None
    case Some(j) => Run(s, j, IsSpace)
  }

  /** `first\s+second`. */
  function Phrase(s: string, i: nat, first: string, second: string): Option<nat> {
    match LitSpaces(s, i, first)
    case None => None
    case Some(j) => Lit(s, j, second)
  }

  /** `shares?\s+of\s+`: the optional `s` is taken only when whitespace follows it. */
  function SharesOf(s: string, i: nat): Option<nat> {
    match Lit(s, i, "share")
    case None => None
    case Some(j) =>
      var afterSpaces :=
        if j < |s| && SameLetter(s[j], 's') && Run(s, j + 1, IsSpace).Some? then Run(s, j + 1, IsSpace)
        else Run(s, j, IsSpace);
      match afterSpaces
      case None => None
      case Some(k) => LitSpaces(s, k, "of")
  }

  /** A captured `(\w+)`: its start and end. */
  datatype Span = Span(start: nat, end: nat)

  function WordAt(s: string, i: nat): (r: Option<Span>)
    ensures r.Some? ==> r.value.start == i < r.value.end <= |s|
  {
    match Run(s, i, IsWordChar)
    case None => None
    case Some(j) => Some(Span(i, j))
  }

  /** `(?:g)?(\w+)` where `g` ends at `group`: the word after the group, or, when none follows it, the word at
      `i` (the regular expression backtracks over the optional group). */
  function OptionalThenWord(s: string, i: nat, group: Option<nat>): Option<Span> {
    if group.Some? && WordAt(s, group.value).Some? then WordAt(s, group.value) else WordAt(s, i)
  }

  /** `buy\s+(\d+)\s+(?:shares?\s+of\s+)?(\w+)` and the same for `sell`: the quantity and symbol spans. */
  function TradeMatch(s: string, verb: string): Option<(Span, Span)> {
    match LitSpaces(s, 0, verb)
    case None => None
    case Some(i) =>
      match Run(s, i, IsDigit)
      case None => None
      case Some(j) =>
        match Run(s, j, IsSpace)
        case None => None
        case Some(k) =>
          match OptionalThenWord(s, k, SharesOf(s, k))
          case None => None
          case Some(symbol) => Some((Span(i, j), symbol))
  }

  /** The patterns that may start with an optional `get\s+`. */
  datatype Request = QuoteRequest | PositionRequest | SummaryRequest | AnalysisRequest | StatusRequest

  /** The body of a request pattern at `i`; the span is the captured symbol (empty when nothing is captured). */
  function RequestBody(s: string, i: nat, request: Request): Option<Span> {
    match request
    case QuoteRequest =>
      (match LitSpaces(s, i, "quote")
       case None => None
       case Some(j) => OptionalThenWord(s, j, LitSpaces(s, j, "for")))
    case PositionRequest =>
      (match LitSpaces(s, i, "position")
       case None => None
       case Some(j) => OptionalThenWord(s, j, LitSpaces(s, j, "for")))
    case SummaryRequest =>
      (match Phrase(s, i, "portfolio", "summary")
       case None => None
       case Some(j) => Some(Span(j, j)))
    case AnalysisRequest =>
      var head := if Phrase(s, i, "technical", "analysis").Some? then Phrase(s, i, "technical", "analysis")
                  else Lit(s, i, "indicators");
      (match head
       case None => None
       case Some(h) =>
         match Run(s, h, IsSpace)
         case None => None
         case Some(j) => OptionalThenWord(s, j, LitSpaces(s, j, "for")))
    case StatusRequest =>
      (match Phrase(s, i, "market", "status")
       case None => None
       case Some(j) => Some(Span(j, j)))
  }

  /** `(?:get\s+)?body`: the body after `get`, or, failing that, at the start. */
  function RequestMatch(s: string, request: Request): Option<Span> {
    var afterGet := LitSpaces(s, 0, "get");
    if afterGet.Some? && RequestBody(s, afterGet.value, request).Some? then RequestBody(s, afterGet.value, request)
    else RequestBody(s, 0, request)
  }

  datatype Kind = BuyCommand | SellCommand | Quote | Position | Summary | Analysis | Status

  /** What was recognised: the command and the spans of the quantity and the symbol it captured. */
  datatype Recognized = Recognized(kind: Kind, qty: Span, symbol: Span)

  /** The patterns in the order they are tried; the first that matches wins. */
  function Recognize(s: string): Option<Recognized> {
    match TradeMatch(s, "buy")
    case Some((q, w)) => Some(Recognized(BuyCommand, q, w))
    case None =>
    match TradeMatch(s, "sell")
    case Some((q, w)) => Some(Recognized(SellCommand, q, w))
    case None =>
    match RequestMatch(s, QuoteRequest)
    case Some(w) => Some(Recognized(Quote, Span(0, 0), w))
    case None =>
    match RequestMatch(s, PositionRequest)
    case Some(w) => Some(Recognized(Position, Span(0, 0), w))
    case None =>
    match RequestMatch(s, SummaryRequest)
    case Some(w) => Some(Recognized(Summary, Span(0, 0), w))
    case None =>
    match RequestMatch(s, AnalysisRequest)
    case Some(w) => Some(Recognized(Analysis, Span(0, 0), w))
    case None =>
    match RequestMatch(s, StatusRequest)
    case Some(w) => Some(Recognized(Status, Span(0, 0), w))
    case None => None
  }

  /** A structured action: `{'action': ..., 'params': {...}}`. */
  datatype Command = Command(action: string, params: map<string, Value>)

  function Slice(s: string, span: Span): string {
    if span.start <= span.end <= |s| then s[span.start..span.end] else []
  }

  function TradeParams(s: string, q: Span, w: Span, side: string): map<string, Value> {
    var digits := Slice(s, q);
    map["symbol" := VStr(Slice(s, w)),
        "qty" := VFloat(if digits != [] && AllDigits(digits) then DigitsValue(digits) as real else 0.0),
        "side" := VStr(side)]
  }

  /** The structured action for what was recognised. */
  function CommandFor(message: string, rec: Recognized): (cmd: Command)
    ensures cmd.action in HandlerTable
  {
    var symbol := map["symbol" := VStr(Slice(message, rec.symbol))];
    match rec.kind
    case BuyCommand => Command("place_market_order", TradeParams(message, rec.qty, rec.symbol, "buy"))
    case SellCommand => Command("place_market_order", TradeParams(message, rec.qty, rec.symbol, "sell"))
    case Quote => Command("get_quote", symbol)
    case Position => Command("get_position_details", symbol)
    case Summary => Command("get_portfolio_summary", map[])
    case Analysis => Command("get_technical_analysis", symbol)
    case Status => Command("get_market_status", map[])
  }

  /** `parse_natural_language`. */
  function ParseNaturalLanguage(message: string): (r: Option<Command>)
    ensures r.Some? ==> r.value.action in HandlerTable
  {
    match Recognize(message)
    case None => None
    case Some(rec) => Some(CommandFor(message, rec))
  }

  /** The handlers of the actions the recogniser produces. */
  lemma RecognizedHandlers()
    ensures HandlerTable["place_market_order"] == PlaceMarket
    ensures HandlerTable["get_quote"] == QuoteLookup
    ensures HandlerTable["get_position_details"] == PositionLookup
    ensures HandlerTable["get_portfolio_summary"] == SummaryFetch
    ensures HandlerTable["get_technical_analysis"] == AnalysisFetch
    ensures HandlerTable["get_market_status"] == StatusFetch
  {
  }

  /** A buy or sell command carries the symbol, quantity and side a market order requires. */
  lemma OrderCommandReachesService(message: string, rec: Recognized, now: real, service: Call -> Result<Value>)
    requires rec.kind == BuyCommand || rec.kind == SellCommand
    ensures HandleAction(CommandFor(message, rec).action, CommandFor(message, rec).params, now, service).calls != []
  {
    RecognizedHandlers();
    assert OrderHead(CommandFor(message, rec).params).Ok?;
  }

  /** A quote, position or analysis request carries the symbol its lookup requires. */
  lemma SymbolCommandReachesService(message: string, rec: Recognized, now: real, service: Call -> Result<Value>)
    requires rec.kind == Quote || rec.kind == Position || rec.kind == Analysis
    ensures HandleAction(CommandFor(message, rec).action, CommandFor(message, rec).params, now, service).calls != []
  {
    RecognizedHandlers();
    assert Symbol(CommandFor(message, rec).params).Ok?;
  }

  /** A summary or market-status request needs no parameters. */
  lemma PlainCommandReachesService(message: string, rec: Recognized, now: real, service: Call -> Result<Value>)
    requires rec.kind == Summary || rec.kind == Status
    ensures HandleAction(CommandFor(message, rec).action, CommandFor(message, rec).params, now, service).calls != []
  {
    RecognizedHandlers();
  }

  /** Every command the recogniser can produce is one its handler accepts: it reaches a service. */
  lemma CommandReachesService(message: string, rec: Recognized, now: real, service: Call -> Result<Value>)
    ensures HandleAction(CommandFor(message, rec).action, CommandFor(message, rec).params, now, service).calls != []
  {
    match rec.kind
    case BuyCommand => OrderCommandReachesService(message, rec, now, service);
    case SellCommand => OrderCommandReachesService(message, rec, now, service);
    case Quote => SymbolCommandReachesService(message, rec, now, service);
    case Position => SymbolCommandReachesService(message, rec, now, service);
    case Analysis => SymbolCommandReachesService(message, rec, now, service);
    case Summary => PlainCommandReachesService(message, rec, now, service);
    case Status => PlainCommandReachesService(message, rec, now, service);
  }

  /** Hence a parsed message never yields an action the dispatcher rejects before calling a service. */
  lemma ParsedCommandReachesService(message: string, now: real, service: Call -> Result<Value>)
    requires ParseNaturalLanguage(message).Some?
    ensures var cmd := ParseNaturalLanguage(message).value;
      HandleAction(cmd.action, cmd.params, now, service).calls != []
  {
    CommandReachesService(message, Recognize(message).value, now, service);
  }

  // Facts about the matchers on text laid out piece by piece.

  /** A literal written at `i` is matched there. */
  lemma {:induction false} LitAt(s: string, i: nat, word: string)
    requires i + |word| <= |s| && s[i..i + |word|] == word
    ensures Lit(s, i, word) == Some(i + |word|)
    decreases |word|
  {
    if word != [] {
      assert s[i] == s[i..i + |word|][0];
      assert s[i + 1..i + 1 + |word[1..]|] == s[i..i + |word|][1..];
      LitAt(s, i + 1, word[1..]);
    }
  }

  /** A word run from `i` to `e` that the text does not continue. */
  lemma WordAtEnd(s: string, i: nat, e: nat)
    requires i < e <= |s| && (forall k :: i <= k < e ==> IsWordChar(s[k])) && (e == |s| || !IsWordChar(s[e]))
    ensures WordAt(s, i) == Some(Span(i, e))
  {
    RunEndAt(s, i, e, IsWordChar);
  }

  /** A single space at `i` followed by a non-space. */
  lemma OneSpaceAt(s: string, i: nat)
    requires i + 1 < |s| && s[i] == ' ' && !IsSpace(s[i + 1])
    ensures Run(s, i, IsSpace) == Some(i + 1)
  {
    RunEndAt(s, i, i + 1, IsSpace);
  }

  /** A trade message: the verb ending before `i`, the digits from `i` to `j` and one space, ending at `g`. */
  lemma TradeHead(m: string, verb: string, d: string, i: nat, j: nat, g: nat)
    requires i == |verb| + 1 && j == i + |d| && g == j + 1
    requires |m| > g && d != [] && AllDigits(d)
    requires m[..g] == verb + " " + d + " "
    requires !IsSpace(m[g])
    ensures LitSpaces(m, 0, verb) == Some(i)
    ensures Run(m, i, IsDigit) == Some(j)
    ensures Run(m, j, IsSpace) == Some(g)
    ensures m[i..j] == d
  {
    var head := m[..g];
    assert head == verb + " " + d + " ";
    assert forall k :: 0 <= k < |verb| ==> m[k] == head[k] == verb[k];
    assert m[|verb|] == head[|verb|] == ' ';
    assert forall k :: i <= k < j ==> m[k] == head[k] == d[k - i];
    assert m[j] == head[j] == ' ';
    assert m[..|verb|] == verb;
    LitAt(m, 0, verb);
    OneSpaceAt(m, |verb|);
    RunEndAt(m, i, j, IsDigit);
    OneSpaceAt(m, j);
    assert m[i..j] == d;
  }

  /** `TradeMatch` from the ends of its parts. */
  lemma TradeMatchOfParts(m: string, verb: string, i: nat, j: nat, k: nat, symbol: Span)
    requires LitSpaces(m, 0, verb) == Some(i)
    requires Run(m, i, IsDigit) == Some(j)
    requires Run(m, j, IsSpace) == Some(k)
    requires OptionalThenWord(m, k, SharesOf(m, k)) == Some(symbol)
    ensures TradeMatch(m, verb) == Some((Span(i, j), symbol))
  {
  }

  /** A trade message whose head is `verb digits ` and whose symbol is `symbol`. */
  lemma TradeMatchAt(m: string, verb: string, d: string, i: nat, j: nat, g: nat, symbol: Span)
    requires i == |verb| + 1 && j == i + |d| && g == j + 1
    requires |m| > g && d != [] && AllDigits(d)
    requires m[..g] == verb + " " + d + " "
    requires !IsSpace(m[g])
    requires OptionalThenWord(m, g, SharesOf(m, g)) == Some(symbol)
    ensures TradeMatch(m, verb) == Some((Span(i, j), symbol))
  {
    TradeHead(m, verb, d, i, j, g);
    TradeMatchOfParts(m, verb, i, j, g, symbol);
  }

  /** At `k` the optional `shares of` group matches and a word follows it, so the symbol is that word. */
  predicate GroupApplies(s: string, k: nat) {
    SharesOf(s, k).Some? && WordAt(s, SharesOf(s, k).value).Some?
  }

  /** Text that does not begin with an `s` cannot begin the group. */
  lemma NoGroupWithoutS(m: string, k: nat)
    requires k < |m| && !SameLetter(m[k], 's')
    ensures !GroupApplies(m, k)
  {
    assert Lit(m, k, "share").None? by {
      assert "share"[0] == 's';
    }
  }

  /** A symbol written at `k` where the group does not apply, followed by text that does not continue it. */
  lemma PlainSymbolAt(m: string, k: nat, w: string, rest: string)
    requires k <= |m| && m[k..] == w + rest
    requires w != [] && (forall i :: 0 <= i < |w| ==> IsWordChar(w[i])) && !GroupApplies(m, k)
    requires rest == [] || !IsWordChar(rest[0])
    ensures OptionalThenWord(m, k, SharesOf(m, k)) == Some(Span(k, k + |w|))
    ensures m[k..k + |w|] == w
  {
    var e := k + |w|;
    assert m[k] == w[0];
    assert forall i :: k <= i < e ==> m[i] == w[i - k];
    if rest != [] {
      assert m[e] == rest[0];
    }
    WordAtEnd(m, k, e);
    assert m[k..e] == m[k..][..|w|];
  }

  /** A symbol written at `k`, followed by text that does not continue it. */
  lemma SymbolAt(m: string, k: nat, w: string, rest: string)
    requires k <= |m| && m[k..] == w + rest
    requires w != [] && (forall i :: 0 <= i < |w| ==> IsWordChar(w[i]))
    requires rest == [] || !IsWordChar(rest[0])
    ensures WordAt(m, k) == Some(Span(k, k + |w|))
    ensures m[k..k + |w|] == w
  {
    var e := k + |w|;
    assert forall i :: k <= i < e ==> m[i] == w[i - k];
    if rest != [] {
      assert m[e] == rest[0];
    }
    WordAtEnd(m, k, e);
    assert m[k..e] == m[k..][..|w|];
  }

  /** `shares of ` written at `g`, followed by a word. */
  lemma SharesOfAt(m: string, g: nat, after: string)
    requires g + 10 <= |m| && m[g..] == "shares of " + after && after != [] && IsWordChar(after[0])
    ensures SharesOf(m, g) == Some(g + 10)
  {
    var tail := m[g..];
    assert tail[..5] == "share" && tail[5] == 's' && tail[6] == ' ' && tail[7..9] == "of" && tail[9] == ' ';
    assert tail[10] == after[0];
    assert m[g..g + 5] == "share";
    LitAt(m, g, "share");
    assert m[g + 5] == 's' && m[g + 6] == ' ' && m[g + 9] == ' ' && m[g + 10] == after[0];
    OneSpaceAt(m, g + 6);
    assert m[g + 7..g + 9] == "of";
    LitAt(m, g + 7, "of");
    OneSpaceAt(m, g + 9);
  }

  /** The optional group matched and a word follows it: the word is the capture. */
  lemma GroupThenWord(m: string, g: nat, k: nat, symbol: Span)
    requires SharesOf(m, g) == Some(k) && WordAt(m, k) == Some(symbol)
    ensures OptionalThenWord(m, g, SharesOf(m, g)) == Some(symbol)
  {
  }

  /** `TradeMatch` when the optional group is present and a word follows it. */
  lemma TradeMatchThroughGroup(m: string, verb: string, i: nat, j: nat, g: nat, k: nat, symbol: Span)
    requires LitSpaces(m, 0, verb) == Some(i) && Run(m, i, IsDigit) == Some(j) && Run(m, j, IsSpace) == Some(g)
    requires SharesOf(m, g) == Some(k) && WordAt(m, k) == Some(symbol)
    ensures TradeMatch(m, verb) == Some((Span(i, j), symbol))
  {
    GroupThenWord(m, g, k, symbol);
    TradeMatchOfParts(m, verb, i, j, g, symbol);
  }

  /** `shares of ` and a word written at `g`: the group ends at `g + 10` and the word follows it. */
  lemma SharesThenSymbolAt(m: string, g: nat, k: nat, e: nat, w: string, rest: string)
    requires w != [] && (forall i :: 0 <= i < |w| ==> IsWordChar(w[i]))
    requires rest == [] || !IsWordChar(rest[0])
    requires k == g + 10 <= |m| && e == k + |w| && m[g..] == "shares of " + (w + rest)
    ensures SharesOf(m, g) == Some(k) && WordAt(m, k) == Some(Span(k, e))
    ensures m[g] == 's'
  {
    assert m[g] == m[g..][0];
    assert SharesOf(m, g) == Some(g + 10) by {
      SharesOfAt(m, g, w + rest);
    }
    assert m[g + 10..] == w + rest by {
      assert m[g + 10..] == m[g..][10..];
    }
    SymbolAt(m, g + 10, w, rest);
  }

  /** A trade message `verb digits shares of word rest`: the group is consumed and the word is the symbol. */
  lemma TradeMatchWithShares(m: string, verb: string, d: string, w: string, rest: string, i: nat, j: nat, g: nat, k: nat, e: nat)
    requires i == |verb| + 1 && j == i + |d| && g == j + 1 && k == g + 10 && e == k + |w|
    requires d != [] && AllDigits(d)
    requires w != [] && (forall i :: 0 <= i < |w| ==> IsWordChar(w[i]))
    requires rest == [] || !IsWordChar(rest[0])
    requires |m| == k + |w| + |rest|
    requires m[..g] == verb + " " + d + " "
    requires m[g..] == "shares of " + (w + rest)
    ensures TradeMatch(m, verb) == Some((Span(i, j), Span(k, e)))
  {
    SharesThenSymbolAt(m, g, k, e, w, rest);
    TradeHead(m, verb, d, i, j, g);
    TradeMatchThroughGroup(m, verb, i, j, g, k, Span(k, e));
  }

}
