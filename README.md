# Bubble personal-finance assistant — a verified model of its core

Bubble is a Flask web application that puts a brokerage account (Alpaca paper trading), market data and a
chat assistant behind one dashboard. This project models, in Dafny, the parts of it that hold its logic:

- the **chat service** (`services/chatbot.py`): the greeting, the bounded conversation history, and the
  extraction and removal of a JSON block embedded in a model reply;
- the **action dispatcher** (`services/chatbot_actions.py`): the table of actions, the required-parameter
  checks of the order actions, the argument normalisation (symbols upper-cased, sides lower-cased), and the
  regular-expression recogniser of natural-language commands;
- the **brokerage gateway** (`alpaca_service/alpaca_service.py`): lazily built clients tied to the credential
  pair, account and position records, trade records, asset allocation and the portfolio-history request;
- the **portfolio service** (`services/portfolio.py`): the cached account, positions and history, the
  allocation chart with its cash slice, the returns view and the filled-trades table;
- the **market-data service** (`services/market_data.py`): quotes, trades, bars with their fixed bar sizes,
  snapshots, and the moving averages and RSI;
- the **performance comparison** (`services/performance_analysis.py`): per-position and per-benchmark returns
  over several timeframes and the value-weighted portfolio return;
- the **user record** and the **credential route** (`models.py`, `routes.py`);
- the dashboard's front-end modules: the **tools panel** (`toolsModule.js`), the **chat panel**
  (`chatModule.js`), the **performance panel** (`performanceModule.js`) and the shared chart palette
  (`uiModule.js`).

Every external service (the OpenAI completion call, the Alpaca SDK, `requests`, yfinance, the browser's
`fetch` and `atob`, the clock) is a parameter of the operation that uses it: a function from the request to
its answer, with failures as `Err`/`None`. Python exceptions become `Err` results. Objects whose fields the
source updates in place (the chat service, the gateway, the portfolio service, the market-data service, the
user record, the three front-end panels) are classes with `modifies` clauses; everything else is pure
functions and lemmas.

Shared modules: `Wrappers` (Option/Result), `Text` (character classes, search, strip, digit parsing),
`Values` (the JSON-like values that flow between services, with Python and JavaScript truthiness),
`Sequences` (duplicate removal) and `Sorting` (the stable sort by a numeric key that the front end uses).

## Model

| member | source | states |
|---|---|---|
| `Models.User.constructor` | models.py:7-16 | a new user has no credentials; both timestamps are the creation time |
| `Models.User.HasAlpacaCredentials` | models.py:26-27 | true exactly when both keys are set and neither is empty |
| `Models.User.SaveAlpacaCredentials` | models.py:20-24 | both keys are written in one step with the new timestamp; no other column changes; two present keys make the user count as having credentials |
| `Routes.ValidateCredentialRequest` | routes.py:9-23 | a request is accepted exactly when the body is a JSON object with both keys non-empty; a missing key gives the 400 reply, a non-object body the 500 reply |
| `Routes.StoreAlpacaCredentials` | routes.py:9-23 | a rejected request changes nothing; an accepted one stores both keys together; status 200 exactly when accepted and committed; one key never changes without the other |
| `Chatbot.GetGreeting` | services/chatbot.py:25-46 | the greeting depends only on whether the user has credentials; with no user the call fails |
| `Chatbot.ContextFor` | services/chatbot.py:59-63 | the credentials context is chosen exactly when the user has credentials |
| `Chatbot.Truncate` | services/chatbot.py:90-95 | above ten entries the history is cut to ten; the first entry survives and the rest is a suffix of the old history |
| `Chatbot.TruncateKeepsLatestExchange` | services/chatbot.py:66-95 | after a turn, the context, the user message and the reply are the last three entries of the history |
| `Chatbot.ChatbotService.constructor` | services/chatbot.py:6-23 | the history holds only the system prompt and no greeting has been given |
| `Chatbot.ChatbotService.ProcessMessage` | services/chatbot.py:48-108 | the init sentinel greets without touching the history; otherwise context and message are appended, a failed completion answers with the apology, a reply is appended and the history cut to at most ten entries with the system prompt first |
| `Chatbot.ChatbotService.ClearHistory` | services/chatbot.py:134-137 | only the system prompt is left and the greeting is due again |
| `Chatbot.ExtractVisualData` | services/chatbot.py:110-121 | a message without a JSON fence yields nothing; with one, the result is the parse of the text after the first "```json", cut at the next "```json" and then at the first "```" of what is left (each cut unique: `Text.FirstCutUnique`) |
| `Chatbot.FirstBlockEndsAtFence` | services/chatbot.py:117 | `split('```json')[1].split('```')[0]` is the cut at the first "```json" followed by the cut at the first "```"; the block holds no fence and is either all of the text or followed by a fence |
| `Chatbot.FenceFollowsCuts` | services/chatbot.py:117 | after the two cuts the text is used up or continues with three backticks, the closing fence or the start of the next "```json" |
| `Chatbot.BeforeFirstIsFree` | services/chatbot.py:117 | the text before the first occurrence of a marker is a prefix of the message holding no occurrence of it |
| `Chatbot.CleanMessage` | services/chatbot.py:123-132 | a message without a JSON fence is only stripped; with one, the result starts with the text before the fence |
| `Chatbot.NoSecondJsonFence` | services/chatbot.py:117 | text after the closing fence that has no backtick holds no second JSON fence |
| `Chatbot.SingleBlockParts` | services/chatbot.py:117-131 | how the two `split` calls cut a message holding one JSON block |
| `Chatbot.ExtractSingleBlock` | services/chatbot.py:110-121 | for a message with one fenced JSON block, exactly the block's body is parsed |
| `Chatbot.CleanSingleBlock` | services/chatbot.py:123-132 | the same message is cleaned to the surrounding text, fences and block removed |
| `Chatbot.CleanUnclosedBlock` | services/chatbot.py:128-131 | a JSON fence that is never closed makes the cleaning fail |
| `ChatbotActions.Submit` | services/chatbot_actions.py:51-61 | an argument that cannot be computed makes no call; otherwise exactly one call and the service's answer or its error dict |
| `ChatbotActions.SubmitWrapped` | services/chatbot_actions.py:199-206 | one call; the answer wrapped under its key, or the error dict |
| `ChatbotActions.SubmitChecked` | services/chatbot_actions.py:129-137 | one call; a truthy answer is returned, a falsy one becomes the not-found error, a raising service its error dict |
| `ChatbotActions.OrderHead` | services/chatbot_actions.py:57-61 | the arguments convert exactly when symbol and side are strings and the quantity converts to a float: the upper-cased symbol, the quantity and the lower-cased side; otherwise the error of the first argument that fails, in the order the call writes them |
| `ChatbotActions.MarketOrderCall` | services/chatbot_actions.py:57-61 | the market order of the converted arguments, or their first error |
| `ChatbotActions.LimitOrderCall` | services/chatbot_actions.py:69-74 | the limit order of the converted arguments and limit price, or the first error in argument order |
| `ChatbotActions.StopOrderCall` | services/chatbot_actions.py:82-87 | the stop order of the converted arguments and stop price, or the first error in argument order |
| `ChatbotActions.StopLimitOrderCall` | services/chatbot_actions.py:95-101 | the stop-limit order of the converted arguments, stop price and limit price, or the first error in argument order |
| `ChatbotActions.PlaceOrder` | services/chatbot_actions.py:51-101 | an order missing a required key answers with the list of required keys and submits nothing; with every key present, the order call built from the converted arguments is submitted, or the first conversion error is answered without a call |
| `ChatbotActions.Lookup` | services/chatbot_actions.py:129-148 | without a symbol nothing is called; a symbol that is not a string answers with its `upper` error; otherwise the lookup of the upper-cased symbol, a falsy answer becoming the not-found error |
| `ChatbotActions.BarsCall` | services/chatbot_actions.py:154-161 | the limit defaults to 100 and is converted first, then the symbol is upper-cased; the timeframe defaults to '1D' and is passed as given |
| `ChatbotActions.GetBarsHandler` | services/chatbot_actions.py:149-162 | without a symbol the error and no call; an argument that cannot be converted answers with its error and no call; otherwise the bars call, its answer wrapped as `{'bars': answer}` |
| `ChatbotActions.TechnicalAnalysisHandler` | services/chatbot_actions.py:164-183 | a non-string symbol answers with its `upper` error; otherwise 200 daily bars of the upper-cased symbol are asked for; a failure or falsy bars answer with the error after that one call; otherwise the indicators of those bars, returned as `{'symbol', 'indicators'}` or as the error dict |
| `ChatbotActions.OpenOrdersCall` | services/chatbot_actions.py:199-205 | a truthy symbol filter is upper-cased, and raises when it is not a string; a falsy one is passed on as it is |
| `ChatbotActions.Days` | services/chatbot_actions.py:226 | a day count exactly for numbers and booleans |
| `ChatbotActions.CalendarCall` | services/chatbot_actions.py:223-228 | the calendar from now to the given number of days later, seven by default; a day count that is not a number fails |
| `ChatbotActions.CancelOrderHandler` | services/chatbot_actions.py:103-110 | without an `order_id` the error and no call; otherwise the cancel of that order, its answer wrapped as `{'success': answer}` |
| `ChatbotActions.ClosePositionHandler` | services/chatbot_actions.py:116-122 | without a symbol the error and no call; a symbol that is not a string its `upper` error; otherwise the close of the upper-cased symbol, passed through |
| `ChatbotActions.OpenOrdersHandler` | services/chatbot_actions.py:199-206 | an unconvertible symbol filter answers with its error and no call; otherwise the open-orders call, wrapped as `{'orders': answer}` |
| `ChatbotActions.CalendarHandler` | services/chatbot_actions.py:223-228 | an unconvertible day count answers with its error and no call; otherwise the calendar call, wrapped as `{'calendar': answer}` |
| `ChatbotActions.TradingDispatch` | services/chatbot_actions.py:15-22 | at most one call; each order handler is `PlaceOrder`, the cancel and close handlers their own outcomes, cancel-all and close-all wrapped under their keys |
| `ChatbotActions.MarketDataDispatch` | services/chatbot_actions.py:24-28 | at most two calls; quote and latest trade are lookups, bars and analysis their handlers |
| `ChatbotActions.PortfolioDispatch` | services/chatbot_actions.py:30-34 | at most one call; the summary passed through, position and asset details lookups, open orders its handler |
| `ChatbotActions.Dispatch` | services/chatbot_actions.py:11-48 | at most two service calls; a trading, market-data or portfolio handler is exactly its group's outcome; the market status is the clock passed through and the calendar its handler |
| `ChatbotActions.HandleAction` | services/chatbot_actions.py:11-48 | an unknown action is an error dict and calls nothing; a known action is exactly its handler's outcome; any action makes at most two calls |
| `ChatbotActions.OrderKeysTable` | services/chatbot_actions.py:51-101 | the required keys of the market, limit, stop and stop-limit orders |
| `ChatbotActions.MissingKeysSubmitNothing` | services/chatbot_actions.py:51-101 | through the dispatcher, an order action missing any required key returns the missing-parameters answer and calls no service |
| `ChatbotActions.OrderHeadNormalized` | services/chatbot_actions.py:56-61 | the order's symbol is upper-case and its side lower-case |
| `ChatbotActions.SymbolNormalized` | services/chatbot_actions.py:121 | the symbol argument is upper-case |
| `ChatbotActions.PlaceOrderNormalized` | services/chatbot_actions.py:51-101 | every order call carries an upper-case symbol and a lower-case side |
| `ChatbotActions.TechnicalAnalysisNormalized` | services/chatbot_actions.py:164-183 | every call of the analysis handler is normalised |
| `ChatbotActions.OpenOrdersNormalized` | services/chatbot_actions.py:199-206 | a string symbol filter is upper-cased |
| `ChatbotActions.CallsAreNormalized` | services/chatbot_actions.py:11-229 | every call any action makes passes an upper-case symbol and a lower-case side |
| `ChatbotActions.CommandFor` | services/chatbot_actions.py:231-305 | every structured command names an action of the dispatch table |
| `ChatbotActions.ParseNaturalLanguage` | services/chatbot_actions.py:231-305 | a recognised message yields an action the dispatcher knows |
| `ChatbotActions.CommandReachesService` | services/chatbot_actions.py:11-305 | every command the recogniser builds carries the parameters its handler requires, so it reaches a service |
| `ChatbotActions.ParsedCommandReachesService` | services/chatbot_actions.py:231-305 | a parsed message never yields an action the dispatcher rejects before calling a service |
| `ChatbotActions.TradeMatchWithShares` | services/chatbot_actions.py:234 | in `verb digits shares of word`, the optional group is consumed and the word is the captured symbol |
| `ChatbotActionsProofs.RecognizeIgnoresCase` | services/chatbot_actions.py:234-295 | recognition is case-insensitive: texts that differ only in letter case give the same command and spans |
| `ChatbotActionsProofs.RecognizedAsBuy` | services/chatbot_actions.py:234-244 | a buy match wins over every later pattern |
| `ChatbotActionsProofs.RecognizedAsSell` | services/chatbot_actions.py:246-256 | a sell match wins when buy does not match |
| `ChatbotActionsProofs.BuyCommandParsed` | services/chatbot_actions.py:234-244 | `buy <digits> <symbol>` parses to a market buy of that quantity and symbol whenever the text after the digits is not `shares of` followed by a word |
| `ChatbotActionsProofs.BuySpyParsed` | services/chatbot_actions.py:234-244 | `buy 10 SPY` is a market buy of 10 SPY: a symbol beginning with `s` is not taken for the `shares of` group |
| `ChatbotActionsProofs.SellSharesOfParsed` | services/chatbot_actions.py:246-256 | `sell <digits> shares of <symbol>` parses to a market sell of that symbol, not of the word `shares` |
| `Alpaca.AlpacaService.constructor` | alpaca_service/alpaca_service.py:18-23 | stores the keys and builds no client |
| `Alpaca.AlpacaService.Client` | alpaca_service/alpaca_service.py:25-32 | refuses without both keys; builds the trading client once and then reuses it |
| `Alpaca.AlpacaService.DataClientOf` | alpaca_service/alpaca_service.py:34-40 | the same for the market-data client |
| `Alpaca.AlpacaService.UpdateCredentials` | alpaca_service/alpaca_service.py:42-46 | replaces both keys and drops both cached clients |
| `Alpaca.AccountInfoOf` | alpaca_service/alpaca_service.py:55-67 | every figure of the account is carried over; the day's change is equity minus last equity, and its percentage is that change over last equity, 0 when last equity is 0 |
| `Alpaca.DayChangeSign` | alpaca_service/alpaca_service.py:65-66 | with a positive previous close, the percentage is positive exactly when equity rose and 0 exactly when it did not move |
| `Alpaca.AlpacaService.GetAccountInfo` | alpaca_service/alpaca_service.py:48-75 | refuses without credentials; otherwise the account record of what the client returns, or its error |
| `Alpaca.PositionRecord` | alpaca_service/alpaca_service.py:81-97 | the ratios of a position become percentages; symbol, quantity, market value, cost basis, unrealized profit/loss and the current and entry prices are carried over |
| `Alpaca.AlpacaService.GetPositions` | alpaca_service/alpaca_service.py:76-99 | every position, in order, as its record |
| `Alpaca.PositionRecords` | alpaca_service/alpaca_service.py:79-99 | the record of each position, in order |
| `Alpaca.TradeOf` | alpaca_service/alpaca_service.py:113-123 | absent quantities and fill price read as 0; present ones are kept |
| `Alpaca.Trades` | alpaca_service/alpaca_service.py:110-124 | the trade record of each order, in order |
| `Alpaca.AlpacaService.GetRecentTrades` | alpaca_service/alpaca_service.py:101-124 | asks for up to `limit` orders of all statuses, nested included, and turns each into a trade record |
| `Alpaca.AlpacaService.CalculateAssetAllocation` | alpaca_service/alpaca_service.py:126-135 | with a positive total, each symbol's share of the total market value in percent; otherwise an empty allocation |
| `Alpaca.SharesKeys` | alpaca_service/alpaca_service.py:131-133 | the allocation has a key for exactly the positions' symbols |
| `Alpaca.SharesOfDistinct` | alpaca_service/alpaca_service.py:131-133 | with distinct symbols, each symbol maps to its own position's share |
| `Alpaca.AllocationSumsToHundred` | alpaca_service/alpaca_service.py:126-135 | for distinct symbols and a positive total, the allocation adds up to 100 |
| `Alpaca.HistoryResolutionTable` | alpaca_service/alpaca_service.py:152-170 | the five chart buttons ask for five different periods; 1D and 1W use hourly bars; any other button asks for the whole history by day |
| `Alpaca.HistoryParams` | alpaca_service/alpaca_service.py:148-173 | extended hours always on, the resolution of the button, and the end date exactly when one is given |
| `Alpaca.AlpacaService.GetPortfolioHistory` | alpaca_service/alpaca_service.py:137-183 | succeeds exactly on status 200 with the parsed body; otherwise fails with the response text |
| `Portfolio.PortfolioService.constructor` | services/portfolio.py:12-16 | nothing is cached and the gateway holds no keys |
| `Portfolio.PortfolioService.RefreshData` | services/portfolio.py:23-27 | fetches the account, then the positions, then the default history; each cache holds exactly what was fetched, a failure keeps everything not yet fetched, and no credentials change nothing |
| `Portfolio.PortfolioService.InitializeWithCredentials` | services/portfolio.py:18-21 | installs both keys, then the caches end exactly as a refresh with those keys leaves them; a missing key leaves the caches untouched |
| `Portfolio.PortfolioService.GetPortfolioSummary` | services/portfolio.py:29-42 | refuses before the account is fetched; otherwise the four headline figures of the account |
| `Portfolio.ColorFor` | services/portfolio.py:58-71 | the first four slices take the table's colours, later ones purple |
| `Portfolio.PortfolioService.GetAssetAllocation` | services/portfolio.py:44-105 | one slice per position in order, with its value and colour, and a grey cash slice exactly when cash exceeds 1% of the portfolio; refuses without an account or with a zero portfolio value |
| `Portfolio.PerformanceChartOf` | services/portfolio.py:112-124 | a chart exactly when the timestamps can be iterated as numbers (a list of numbers, or an empty string or dictionary) and the equity series is present; its data is the equity series and its labels the timestamps |
| `Portfolio.PortfolioService.GetPerformanceChart` | services/portfolio.py:107-150 | refuses before a history is fetched; otherwise the chart of the history |
| `Portfolio.Timestamps` | services/portfolio.py:112-113 | the stamps exactly when the timestamp value iterates to numbers: each item of a list of numbers, nothing for an empty string or dictionary; a non-empty string or dictionary fails on its first string |
| `Portfolio.EmptyTimestampsChart` | services/portfolio.py:112-124 | an empty string or dictionary of timestamps draws a chart with no labels; a non-empty string fails |
| `Portfolio.TodayReturn` | services/portfolio.py:160 | a value exactly when the profit/loss list is present and empty or ending in a number; that last fraction times 100, 0 for an empty list |
| `Portfolio.TotalReturn` | services/portfolio.py:163 | a value exactly when the equity list is present and empty or ending in a number, with a numeric non-zero base value; the return times the base is the last equity minus the base, times 100; 0 when there is no equity |
| `Portfolio.TotalReturnFlat` | services/portfolio.py:163 | equity back at its base value gives a total return of 0 |
| `Portfolio.HistoryViewOf` | services/portfolio.py:159-172 | a view exactly when both returns and the timestamps can be computed; it holds both returns, the equity series and the timestamps |
| `Portfolio.PortfolioService.GetPortfolioHistory` | services/portfolio.py:152-172 | refuses before a history is fetched; otherwise its returns view |
| `Portfolio.FilledIndices` | services/portfolio.py:184 | the filled trades' positions, in order, and every filled trade among them |
| `Portfolio.RowOf` | services/portfolio.py:178-183 | a row carries the fill quantity and price, stamped with the fill time or else the submission time |
| `Portfolio.RecentRows` | services/portfolio.py:176-187 | the rows of the filled trades, in order, when every one of them can be stamped; otherwise no rows |
| `Portfolio.PortfolioService.GetRecentTrades` | services/portfolio.py:174-187 | the rows of the last ten orders' filled trades; no credentials or a failed fetch give an empty list |
| `Portfolio.RecentTradesAreFilled` | services/portfolio.py:178-184 | every row comes from a filled trade and shows its fill quantity, price, symbol and side |
| `MarketData.BarSizeOf` | services/market_data.py:46-55 | a bar size exists exactly for the five accepted timeframe names |
| `MarketData.BarSizesDistinct` | services/market_data.py:46-52 | the five names give five different bar sizes |
| `MarketData.BarsRequestFor` | services/market_data.py:57-68 | the start defaults to thirty days before now and the end to now |
| `MarketData.MarketDataService.constructor` | services/market_data.py:8-9 | the service uses the given gateway |
| `MarketData.MarketDataService.GetLatestQuote` | services/market_data.py:11-27 | the symbol's quote, or nothing when there is no client, the fetch fails or the symbol is missing |
| `MarketData.MarketDataService.GetLatestTrade` | services/market_data.py:28-42 | the symbol's last trade, in the same way |
| `MarketData.MarketDataService.GetBars` | services/market_data.py:43-83 | an unknown timeframe fails before any client is built; otherwise the symbol's bars of the request, empty when anything fails |
| `MarketData.MarketDataService.GetSnapshots` | services/market_data.py:85-96 | a snapshot for exactly the symbols that have both a quote and a trade |
| `MarketData.SmaWithinWindow` | services/market_data.py:104-107 | a moving average lies between the lowest and highest close of its window |
| `MarketData.SmaOfFlat` | services/market_data.py:104-107 | a flat series averages to its level |
| `MarketData.RsiRange` | services/market_data.py:110-124 | the RSI lies in [0, 100), and is 0 exactly when there is no average gain or no average loss |
| `MarketData.GainsAndLossesNonNegative` | services/market_data.py:112-119 | gains and losses are non-negative, at most one of each pair is non-zero, and gain minus loss is the change |
| `MarketData.CalculateTechnicalIndicators` | services/market_data.py:98-144 | nothing for no bars; otherwise the 20-, 50- and 200-bar averages, MACD fields 0 and the RSI of the first fourteen changes |
| `PerformanceAnalysis.LookbackTable` | services/performance_analysis.py:80-85 | one month looks back 21 trading days, three months 63, a year 252, anything else 21 |
| `PerformanceAnalysis.StartIndex` | services/performance_analysis.py:85-89 | the start is `lookback` closes from the end, or the first close of a shorter history |
| `PerformanceAnalysis.StartPrice` | services/performance_analysis.py:77-89 | one day measures from the last open, longer timeframes from the close at the start index |
| `PerformanceAnalysis.PeriodPerformance` | services/performance_analysis.py:70-90 | an empty history returns 0; a zero start price has no return; otherwise the return times the start price is the change times 100 |
| `PerformanceAnalysis.PerformanceSign` | services/performance_analysis.py:75-91 | from a positive start, the return is 0 exactly when the price ended where it started and positive exactly when it rose |
| `PerformanceAnalysis.Weights` | services/performance_analysis.py:20-21 | positions worth 0 in total raise a division by zero; otherwise a weight for exactly the symbols, each its value over the total |
| `PerformanceAnalysis.WeightsSumToOne` | services/performance_analysis.py:20-21 | for distinct symbols the weights add up to 1 |
| `PerformanceAnalysis.WeightIsAllocationShare` | services/performance_analysis.py:20-21 | a weight is the gateway's allocation percentage over 100 |
| `PerformanceAnalysis.WholeWeightedReturn` | services/performance_analysis.py:61-66 | weights adding up to 1 average a uniform return to itself |
| `PerformanceAnalysis.BenchmarksCovered` | services/performance_analysis.py:46-58 | every benchmark of the table appears under its name with a return for every timeframe |
| `PerformanceAnalysis.AssetsCovered` | services/performance_analysis.py:31-44 | every position appears with its weight and a return for every timeframe |
| `PerformanceAnalysis.PortfolioOfUniformReturns` | services/performance_analysis.py:60-66 | when every position returns r over a timeframe, the portfolio returns r |
| `PerformanceAnalysis.PerformanceLoop` | services/performance_analysis.py:42-44 | the inner loop fills each timeframe's return of one history |
| `PerformanceAnalysis.AssetLoop` | services/performance_analysis.py:31-44 | the asset table, position by position |
| `PerformanceAnalysis.BenchmarkLoop` | services/performance_analysis.py:46-58 | the benchmark table, benchmark by benchmark |
| `PerformanceAnalysis.PortfolioLoop` | services/performance_analysis.py:60-66 | the portfolio table, timeframe by timeframe |
| `PerformanceAnalysis.GetPerformanceComparison` | services/performance_analysis.py:17-68 | the comparison of the positions, failing exactly when they are worth 0 in total |
| `UiModule.GetChartColor` | static/js/modules/uiModule.js:21-33 | the palette colour at the index modulo 8; a negative index that is not a multiple of 8 gives undefined |
| `UiModule.ChartColorPeriod` | static/js/modules/uiModule.js:21-33 | colours repeat every eight indices |
| `UiModule.ChartColorsDistinct` | static/js/modules/uiModule.js:22-31 | the first eight indices give eight different colours |
| `ToolsModule.ToolPanel.constructor` | static/js/modules/toolsModule.js:5-10 | no tool container is shown yet |
| `ToolsModule.ToolPanel.ShowTool` | static/js/modules/toolsModule.js:95-131 | without the container nothing changes; otherwise the container shows, exactly the tool's own panel is shown and exactly its button is active |
| `ToolsModule.SignificantPositions` | static/js/modules/toolsModule.js:184-187 | exactly the positions worth more than 0.01 are kept; a single position is kept exactly when it is significant |
| `ToolsModule.SignificantConcat` | static/js/modules/toolsModule.js:184-187 | the filter keeps the order of the list: filtering a concatenation concatenates the filtered parts |
| `ToolsModule.SignificantIdempotent` | static/js/modules/toolsModule.js:184-187 | filtering twice is filtering once |
| `ToolsModule.ChartOrder` | static/js/modules/toolsModule.js:238-241 | the significant positions, a permutation of them, by descending market value |
| `ToolsModule.PositionsChart` | static/js/modules/toolsModule.js:184-257 | no chart exactly when no position is significant; otherwise labels, values and colours per position in descending value, every value above 0.01, and each percentage the value over the positive total, times 100 |
| `ToolsModule.Percentages` | static/js/modules/toolsModule.js:257 | each value over the total, times 100 |
| `ToolsModule.TotalPositive` | static/js/modules/toolsModule.js:249-251 | values above 0.01 add up to more than 0 exactly when there is one |
| `ToolsModule.ChartPercentagesSumToHundred` | static/js/modules/toolsModule.js:249-257 | the pie's percentages add up to 100 |
| `ToolsModule.ShowQty` | static/js/modules/toolsModule.js:331-333 | "filled/qty" exactly when the filled quantity is truthy, else the quantity |
| `ToolsModule.ShowPrice` | static/js/modules/toolsModule.js:327-329 | the fill price exactly when it is truthy, else 'Not filled' |
| `ToolsModule.CollectTradeFormData` | static/js/modules/toolsModule.js:448-496 | no order exactly when a required field, or a price its type needs, is empty; otherwise the order with exactly the price fields its type needs, parsed |
| `ToolsModule.GroupByType` | static/js/modules/toolsModule.js:567-574 | the types in first-seen order without repeats, and for each type its items in order |
| `ToolsModule.GroupsPartitionItems` | static/js/modules/toolsModule.js:567-574 | every item lands in exactly one group: the group sizes add up to the number of items |
| `ToolsModule.FormatInfoTypeChars` | static/js/modules/toolsModule.js:616-621 | the heading has the type's length, with each `_` a space and the first letter of each piece upper-cased |
| `ChatModule.ContainsApiKeyCorrect` | static/js/modules/chatModule.js:80-83 | the scan holds exactly when "PK" and sixteen or more of `[A-Z0-9]`, or thirty-two or more of `[A-Za-z0-9]`, occur somewhere |
| `ChatModule.MarkupChars` | static/js/modules/chatModule.js:276 | the markup has no newline left, and has a `<` exactly where the text had a `<` or a newline |
| `ChatModule.NewlinesRoundTrip` | static/js/modules/chatModule.js:276 | for text without `<`, reading each `<br>` back as a newline restores the text |
| `ChatModule.AtMostOneProgress` | static/js/modules/chatModule.js:262-292 | a tracked list holds at most one progress message, and one exactly when it is tracked |
| `ChatModule.WithoutProgress` | static/js/modules/chatModule.js:269-272 | removing the tracked progress message leaves none |
| `ChatModule.WithoutKeepsSettled` | static/js/modules/chatModule.js:269-272 | removing it keeps every other message |
| `ChatModule.Endpoint` | static/js/modules/chatModule.js:128-146 | the performance endpoint without a body exactly for the 'portfolio-performance' message; otherwise the chat endpoint with the message |
| `ChatModule.DisplayText` | static/js/modules/chatModule.js:117 | in sensitive mode the mask, otherwise the message |
| `ChatModule.ReplyMessage` | static/js/modules/chatModule.js:148-175 | the message a reply leaves last is a bot message, a progress message exactly for an in-progress answer |
| `ChatModule.ChatPanel.constructor` | static/js/modules/chatModule.js:3-11 | an empty chat, sensitive mode off |
| `ChatModule.ChatPanel.OnInput` | static/js/modules/chatModule.js:68-77 | sensitive mode and the password input type follow the key scan of the input |
| `ChatModule.ChatPanel.AddUserMessage` | static/js/modules/chatModule.js:238-260 | appends the text as a user message when the list exists |
| `ChatModule.ChatPanel.AddBotMessage` | static/js/modules/chatModule.js:262-292 | removes the previous progress message, appends the markup of the text, tracks it when it is a progress message, and keeps every settled message |
| `ChatModule.ChatPanel.SendMessage` | static/js/modules/chatModule.js:110-236 | one request to the right endpoint; the user's message (masked in sensitive mode) is appended after the old list; when the reply shows something the old progress message is removed and the reply's message appended, otherwise the list ends with the user's message; settled messages are kept; sensitive mode ends only when an answer arrives; without a chat list nothing changes |
| `ChatModule.ChatPanel.ShowReply` | static/js/modules/chatModule.js:148-235 | a reply that shows something replaces the old progress message by its own message, appended last; an empty answer changes nothing |
| `ChatModule.ChatPanel.ShowAnswer` | static/js/modules/chatModule.js:162-175 | the progress messages come and go, and the list ends as the old list without its progress message plus the answer, tracked when in progress; an empty answer changes nothing; the typing indicator stays while work continues |
| `ChatModule.ChatPanel.Submit` | static/js/modules/chatModule.js:51-65 | a blank input changes nothing; otherwise the trimmed text is sent and the input cleared: the list, progress message, sensitive mode, input type and typing indicator end as the send leaves them; without a chat list only the input is cleared |
| `ChatModule.ToUint8` | static/js/modules/chatModule.js:303-307 | each number modulo 256 |
| `ChatModule.DownloadAttachment` | static/js/modules/chatModule.js:294-331 | 'Invalid attachment data' when the attachment, its data or its name is missing; a decoding error propagates; otherwise each byte is its character code modulo 256, with the spreadsheet type by default |
| `PerformanceModule.ValidPointsMembers` | static/js/modules/performanceModule.js:88-97 | a point is kept exactly when its timestamp is non-zero and its equity a number; it is the time in milliseconds and the equity |
| `PerformanceModule.CollectPoints` | static/js/modules/performanceModule.js:88-97 | the loop collects exactly the kept points, in order |
| `PerformanceModule.CleanHistory` | static/js/modules/performanceModule.js:82-100 | nothing when either array is missing or their lengths differ; otherwise the kept points, a permutation of them sorted by time |
| `PerformanceModule.NewestFirst` | static/js/modules/performanceModule.js:297 | the points, a permutation of them, newest first |
| `PerformanceModule.ChangeAt` | static/js/modules/performanceModule.js:305-310 | the oldest row has no change; a change against a zero equity is not finite |
| `PerformanceModule.ChangeSign` | static/js/modules/performanceModule.js:307-308 | against a positive older equity, the change is non-negative exactly when the equity did not fall |
| `PerformanceModule.ChangeScales` | static/js/modules/performanceModule.js:307 | the change times the older equity is the difference times 100 |
| `PerformanceModule.TimeUnit` | static/js/modules/performanceModule.js:230-240 | hours for one day and unknown frames, days for a week to three months, months for a year and all |
| `PerformanceModule.TooltipMatchesUnit` | static/js/modules/performanceModule.js:230-252 | the tooltip shows the year exactly when the axis counts months |
| `PerformanceModule.MaxOf` | static/js/modules/performanceModule.js:266 | the largest value, nothing for an empty list |
| `PerformanceModule.MinOf` | static/js/modules/performanceModule.js:271 | the smallest value, nothing for an empty list |
| `PerformanceModule.TotalReturn` | static/js/modules/performanceModule.js:105 | nothing exactly when the profit/loss array is missing; NaN for an empty array; otherwise the last fraction times 100, with null as 0 and NaN kept |
| `PerformanceModule.StatsOf` | static/js/modules/performanceModule.js:254-274 | shows the given total return, positive exactly for a non-negative one; high and low are the largest and smallest numeric equity, exist exactly when some equity is a number, and bound every number |
| `PerformanceModule.NextView` | static/js/modules/performanceModule.js:276-288 | a toggle always changes the view |
| `PerformanceModule.ToggleTwice` | static/js/modules/performanceModule.js:276-288 | two toggles restore the view |
| `PerformanceModule.PerformancePanel.constructor` | static/js/modules/performanceModule.js:5-16 | the chart view, with nothing drawn |
| `PerformanceModule.PerformancePanel.ToggleView` | static/js/modules/performanceModule.js:276-288 | switches the view and shows exactly its container |
| `PerformanceModule.PerformancePanel.UpdateTable` | static/js/modules/performanceModule.js:290-319 | with a table, one row per point, newest first, each with its change from the next row; without one nothing changes |
| `PerformanceModule.PerformancePanel.UpdateChart` | static/js/modules/performanceModule.js:112-252 | without a canvas nothing changes; otherwise the chart draws the given points with the time unit of the frame and a table present is refilled from them |
| `PerformanceModule.PerformancePanel.UpdateStats` | static/js/modules/performanceModule.js:254-274 | the stats become exactly the stats of the total return and equity; nothing changes without a total return |
| `PerformanceModule.PerformancePanel.LoadPerformanceData` | static/js/modules/performanceModule.js:71-110 | an error reply changes nothing; a malformed history or a missing canvas leaves the chart and table alone; a well-formed history draws its kept points sorted by time, with the time unit of the frame, fills the table from them and updates the stats, which a missing profit/loss array leaves alone |
| `Sorting.SortBy` | static/js/modules/performanceModule.js:100 | the sort is ordered by the key and a permutation of its input |
| `Sequences.Dedup` | static/js/modules/toolsModule.js:570-572 | no repeats and nothing lost: exactly the values of the input, each once |
| `Sequences.DedupFirstOccurrenceOrder` | static/js/modules/toolsModule.js:570-572 | the values come in the order of their first occurrence in the input |
| `Text.Strip` | services/chatbot.py:132 | no longer than the input; the result neither begins nor ends with a character of the given whitespace class |
| `Text.BeforeFirstIsFirstCut` | services/chatbot.py:117 | `s.split(p)[0]` is a prefix at no index of which `p` starts, that is all of `s` or followed by `p` |
| `Text.FirstCutUnique` | services/chatbot.py:117 | at most one prefix of a text is its cut at the first occurrence of a marker |
| `Text.StripIsSlice` | services/chatbot.py:132 | the result is a slice of the input, and everything cut before and after it is whitespace |
| `Text.JsParseFloat` | static/js/modules/toolsModule.js:186 | after leading JavaScript whitespace, the number of the longest decimal literal with an optional exponent; nothing (NaN) when there is none |
| `Text.PyFloatWithExponent` | services/chatbot_actions.py:59 | `float` of a text made of digits, `e` and digits is the first digits scaled by ten to the power of the second |
| `Text.JsParseFloatOfDigits` | static/js/modules/toolsModule.js:186 | `parseFloat` reads a run of digits not continued by a digit, a dot or an exponent as the number the digits write |
| `Text.DecimalPrefixOfDigits` | static/js/modules/toolsModule.js:186 | such a run of digits is a whole decimal literal, with that value and that length |
| `Text.JsParseFloatWithExponent` | static/js/modules/toolsModule.js:186 | `parseFloat` reads digits, `e` and digits as the same scaled value, stopping at the first character that is not a digit |
| `Values.PyFloat` | services/chatbot_actions.py:59 | numbers convert to themselves; None, lists and dicts raise |
| `Values.PyInt` | services/chatbot_actions.py:155 | integers stay; None, lists and dicts raise |
| `Values.TruncateReal` | services/chatbot_actions.py:155 | truncation toward zero |

## Left out

- Case mapping, `\w` and `\d` are ASCII only: Python's and JavaScript's Unicode rules for `upper`, `lower` and the regular-expression classes are not modelled. Whitespace follows each language: Python's `isspace` set for `strip`, `float` and `int`, and JavaScript's white space and line terminators for `trim` and `parseFloat`.
- `Values.PyFloat`: the spellings `inf`, `infinity` and `nan`, underscores between digits and non-ASCII digits are not accepted, so the model raises where Python returns a value.
- `Values.PyInt`: underscores between digits and non-ASCII digits are not accepted.
- `Text.JsParseFloat`: a leading `Infinity` gives nothing, as NaN does; the model has no value for the infinities.
- Floating point is modelled as exact reals: rounding, `toFixed`, `round(x, 2)` and currency or date formatting are left out; NaN and the infinities are `None` where the source can produce them.
- I/O is left out: the DOM is reduced to the state each panel reads and writes, `fetch`, `atob`, the OpenAI, Alpaca and yfinance calls, `requests.get` and the clock are parameters, and `async`/`setTimeout` ordering is not modelled.
- The typing indicator's timing, `initializeChat`, `handleBotAction`, the tool-selection messages, `loadOrders`' HTML and the positions list HTML are not modelled: they only render text.
- The trade-form submission, `setupEventListeners` wiring, the timeframe buttons and the slide toggle of the performance section are not modelled: they only route events to the operations above.
- `create_portfolio_plot` (matplotlib rendering), `app.py` and the services outside the core (trading, yahoo_finance) are not part of this model.
- `Sorting.SortBy`: stability (equal keys keep their input order) holds of the insertion sort but is not stated in its contract.
- `ToolsModule.GroupByType`: JavaScript lists integer-like object keys before other keys; the model keeps first-seen order for all types. A type named after an `Object.prototype` member (`constructor`, `toString`, `__proto__`) finds that member already in the object, and the source's `push` then throws a TypeError; the model groups such an item like any other.
- `ToolsModule.ToolPanel.ShowTool`: panel ids are taken to be unique; when several panels share an id, `getElementById` shows only the first, while the model shows all of them.
- `Portfolio.TodayReturn`: a last profit/loss entry that is a string or a list is repeated a hundred times by `* 100` in the source; the model's returns are numbers, so it gives an error there.
- `ChatbotActions.CalendarCall`: the OverflowError of `timedelta` beyond 999999999 days, and of a date past year 9999 or before year 1, is not modelled; the model makes the calendar call with the computed end.
- `UiModule.GetChartColor`: JavaScript's `-0` remainder is modelled as index 0 of the palette.
- `ToolsModule.PositionsChart`: the percentages are stated as each value's share of the total and proved to sum to 100; their two-decimal string formatting is not modelled.
- `Chatbot.CleanMessage`: for messages with several JSON fences, only the text before the first fence is stated; the single-block lemmas state the whole result.
- `MarketData.CalculateTechnicalIndicators`: the MACD fields are the constant 0 the source returns; the rounding of every indicator to two decimals is not modelled.
- `Chatbot.ChatbotService.ProcessMessage`: the completion call's model name, temperature and token limit are not modelled; only the history it is sent matters.
- `Routes.ValidateCredentialRequest`: the body is a map of strings; a non-string truthy key value, which the route would store as it is, is not modelled.
- `ToolsModule.CollectTradeFormData`: the form is taken to have its price inputs; the TypeError raised when `#limit-price` or `#stop-price` is absent is not modelled.
- `MarketData.MarketDataService`: quote, trade and bar fields are numbers; the `float(None)` of a missing field, which raises and is swallowed by the surrounding `except`, is not modelled.
- `ChatbotActions.TechnicalAnalysisHandler`: `calculate_technical_indicators` is taken as a call on the service oracle; its computation is modelled separately by `MarketData.CalculateTechnicalIndicators`, on bars of the model's own type.
