# bitobot order logic in Dafny

bitobot is a Django trading bot for the BitoPro exchange. It also has a few
helpers for Binance. This project models its order-handling core and proves
properties of that model:

- **`TradeWs`** models `TradeWSManager` of trade/ws.py, the session object the web views drive.
  - It keeps one sell and one buy limit order around the current ticker price.
  - When one of them is fully filled, it cancels the other and places a new pair.
  - It records partial fills in an order-history table: one row per order id, and a new row for each order that has no id.
  - It collects failed placements and cancels in an error map.
  - It queues log messages for the front end.
  - `Process.Manager` models the process-wide singleton of `__new__`.
- **`EarlyRevision`** models test2.py, the earlier revision of the same session.
  - It has no history, no error map and no log queue.
  - It recognises a fill by the status string `"FILLED"`.
- **`TickerRule`** models test.py, a ticker watcher.
  - Each ticker push is compared with a baseline recorded on the session's first push.
  - A rise of at least the increase percentage asks for a sell.
  - A fall of at least the decrease percentage asks for a buy.
  - The order call is a stub that returns before it sends anything.
- **`OpenOrders`** models search_order.py: it splits the open orders into buys and sells and sorts each side by price, highest first.
- **`BinanceInfo`** and **`Bi`** model trade/binance.py and bi.py:
  - the symbol list and the sorted set of traded base assets of Binance's `exchangeInfo`;
  - the non-empty balances of an account;
  - the fee total of an order's trades.
- **`BitoPro`** holds what the modules above share.
  - Requests and replies are plain values.
  - The exchange is a class: the n-th ticker query is answered `quote(n)` and the n-th order request `respond(n)`.
  - `sent` records every order request in the order it was issued.
  - Every answer of the exchange is therefore an input of the model. The contracts state which requests are sent and what the session's state becomes.
- **`StringOrder`** is Python's `str` ordering.
- **`Seqs.FirstWhere`** is the stopping index of a loop that breaks at the first match.
- **`Wrappers`** holds `Option` (Python's `None`) and `Result`.

Python exceptions that the source lets escape are modelled as values: every operation that can raise returns a `Result`, whose `Failure(...)` carries the exception's name (`Outcome` is the `Result` of a call that returns nothing). A method's `requires` only states what the source itself assumes. For example, `place_initial_orders` raises TypeError unless both percentages are set, so the model requires them.

## Model

| member | source | states |
|---|---|---|
| BitoPro.TruncateTowardZero | trade/ws.py:209 | `int(price)` puts the integer next to the price on the side of zero into the order: the floor for a non-negative price, the ceiling for a negative one |
| BitoPro.Exchange.LastPrice | trade/ws.py:197-202 | one ticker query: it returns the next quote and counts the query |
| BitoPro.Exchange.Send | trade/ws.py:215 | one order request: it is appended to the requests sent, and the reply is the exchange's answer to that request number |
| TradeWs.RecordedKeys | trade/ws.py:71-80 | after a run of orders, an id has a row exactly when it had one before or is the id of a partially filled order of the run |
| TradeWs.UpsertOverlay | trade/ws.py:103-116 | one `update_or_create` over an overlaid table writes what it writes over the top layer: it replaces only the row with its own id, or adds one id-less row at the end |
| TradeWs.RecordedOverlay | trade/ws.py:103-116 | the history after a run is the old table overlaid with what the run alone writes: rows with other ids are untouched, and the run's id-less rows follow the old ones |
| TradeWs.RecordedReplay | trade/ws.py:106-116 | recording the same orders twice leaves the rows keyed by id as recording them once; each id-less partial fill adds its row a second time |
| TradeWs.FrameHistoryOverlay | trade/ws.py:68-101 | a frame's effect on the history is an overlay of what it writes on an empty table |
| TradeWs.FrameHistoryReplay | trade/ws.py:68-101 | handling the same ACTIVE_ORDERS frame twice, with the tracked ids unchanged between the two deliveries, leaves the rows keyed by id as handling it once, and adds the frame's id-less rows a second time (a tracked full fill replaces the ids, after which a second delivery may rewrite rows) |
| TradeWs.MatchFill | trade/ws.py:82-99 | a full fill is the tracked sell exactly when `order.get('id')` equals the sell id (None included), the tracked buy exactly when it equals the buy id and not the sell id, and untracked otherwise |
| TradeWs.TradeWsManager.constructor | trade/ws.py:36-51 | every field starts as None, empty or false, and the session is not running; the history is the table the database already holds |
| TradeWs.TradeWsManager.LogPrint | trade/ws.py:54-55 | the message is queued at the back of the log queue |
| TradeWs.TradeWsManager.NextLog | trade/ws.py:57-61 | the oldest queued message is taken from the front (FIFO); an empty queue yields nothing and stays empty |
| TradeWs.TradeWsManager.CreateOrderHistory | trade/ws.py:103-116 | an order with an id inserts or replaces the row under that id, with the session's user and pair, and no keyed row is lost; an order without one adds a new row and leaves the keyed rows alone |
| TradeWs.TradeWsManager.PlaceOrder | trade/ws.py:204-225 | exactly one LIMIT request for the pair and size at the truncated price; returns `orderId` on 200, otherwise None with the reply recorded under the placement-failure key; one log entry either way |
| TradeWs.TradeWsManager.PlaceInitialOrders | trade/ws.py:227-236 | one quote `p` is taken, then a sell at `int(p*(1+up))` and a buy at `int(p*(1-down))` are requested in that order; both tracked ids are replaced by what the placements returned, None included; errors and log follow each reply |
| TradeWs.TradeWsManager.OnOpen | trade/ws.py:125-127 | the opened stream places the first pair exactly as `place_initial_orders` does |
| TradeWs.TradeWsManager.CancelOrder | trade/ws.py:242-255 | a None id sends nothing and changes nothing; otherwise one cancel request, and a non-200 reply is stored under the single cancel-failure key |
| TradeWs.TradeWsManager.CancelAllOrders | trade/ws.py:238-240 | the buy is cancelled, then the sell; when both cancels fail, the sell's reply is the one kept |
| TradeWs.TradeWsManager.GetManagerState | trade/ws.py:171-183 | "not running" with its fixed message exactly when the session is stopped; otherwise the pair, size, start time and both percentages multiplied by 100 |
| TradeWs.TradeWsManager.Start | trade/ws.py:129-159 | a running session refuses with `{'error': ...}` and nothing changes; otherwise errors are cleared, the parameters stored, the session marked running, and the reply is 0 |
| TradeWs.TradeWsManager.OnError | trade/ws.py:118-120 | `error_message` is a dict, so `.append` raises AttributeError |
| TradeWs.TradeWsManager.Reconfigure | trade/ws.py:164-168 | the new size and percentages are stored, then a new pair is placed with them |
| TradeWs.TradeWsManager.Update | trade/ws.py:161-169 | errors cleared; the buy then the sell are cancelled; the new parameters take effect before a new pair is placed; the reply is 0 or the errors the cancels and placements left |
| TradeWs.TradeWsManager.Stop | trade/ws.py:257-268 | errors cleared, both tracked orders cancelled (buy first), the session stops whatever the cancels answered, and `get_manager_state` then reports "not running" |
| TradeWs.TradeWsManager.HandleFill | trade/ws.py:81-101 | a fill of the tracked sell (buy) is recorded and the buy (sell) cancelled; an untracked fill records and cancels nothing; a new pair is placed in every case |
| TradeWs.TradeWsManager.RecordUntilFill | trade/ws.py:71-80 | partial fills are upserted in order until the first full fill, whose index is returned |
| TradeWs.TradeWsManager.OnMessage | trade/ws.py:63-101 | a frame for another event or pair changes nothing; otherwise the history gains the partial fills before the first full fill (and that fill if tracked); without a full fill nothing else changes; with one, the matching other side is cancelled and a new pair placed, and later orders are never looked at |
| TradeWs.Process.Manager | trade/ws.py:31-52 | the first call creates a freshly initialised session over the existing table; every later call returns that same object, state included |
| EarlyRevision.MatchFill | test2.py:49-55 | a filled order is the tracked sell exactly when it has an id equal to the sell id, and the tracked buy exactly when it has an id equal to the buy id and not to the sell id |
| EarlyRevision.MatchAgreesWithLaterRevision | test2.py:49-55 | the two revisions match every order that carries an id alike; they differ exactly for an id-less fill while a tracked id is None, which trade/ws.py treats as that order (the sell when the sell id is None, else the buy) and test2.py ignores |
| EarlyRevision.TradeWsManager.constructor | test2.py:26-36 | every field starts as None and no socket exists |
| EarlyRevision.TradeWsManager.Start | test2.py:71-94 | the pair, size, both percentages and start time are stored, and the socket exists |
| EarlyRevision.TradeWsManager.PlaceOrder | test2.py:126-146 | one LIMIT request at the truncated price; returns the `orderId` on 200 and None otherwise |
| EarlyRevision.TradeWsManager.PlaceInitialOrders | test2.py:148-159 | one quote, a sell at `int(p*(1+up))` then a buy at `int(p*(1-down))`; both tracked ids replaced by the replies' ids |
| EarlyRevision.TradeWsManager.OnOpen | test2.py:66-69 | the opened stream places the first pair |
| EarlyRevision.TradeWsManager.CancelOrder | test2.py:161-174 | nothing for None; otherwise exactly one cancel request |
| EarlyRevision.TradeWsManager.Stop | test2.py:176-184 | the sell is cancelled, then the buy; without a socket `self.ws.close()` raises AttributeError |
| EarlyRevision.TradeWsManager.OnMessage | test2.py:38-58 | a frame for another event or pair changes nothing; otherwise, at the first "FILLED" order, the other side of a tracked fill is cancelled and a new pair placed; without one nothing changes |
| TickerRule.Decide | test.py:34-39 | sell exactly when the rate is at least 0 and at least `inc`; buy exactly when the sell test fails and the rate is at most 0 and at most `-dec`; wait otherwise |
| TickerRule.ChangeRate | test.py:31 | the change is 0 when the price equals the baseline; for a positive baseline its sign follows the price's move |
| TickerRule.DecisionBands | test.py:34-39 | with positive thresholds: sell exactly at or above `inc`, buy exactly at or below `-dec`, wait exactly strictly between |
| TickerRule.SellWinsTie | test.py:34-37 | the sell arm is tested first: a zero change with a non-positive `inc` sells, and a buy is chosen only when the sell arm failed |
| TickerRule.FirstTickRate | test.py:28-31 | the first push sets the baseline to its own price, so its rate is 0 and with positive thresholds it waits |
| TickerRule.RecordedBaselineDecides | test.py:28-35 | once a baseline `b` is set, pushes with the same price decide alike, and, when `b > 0` and `inc > 0`, a sell happens exactly when the price is at least `b*(1+inc)` |
| TickerRule.TickerWatcher.constructor | test.py:23 | the class has no `__init__`, so before `start` none of its attributes exists |
| TickerRule.TickerWatcher.Start | test.py:50-59 | the parameters are stored and the baseline forgotten |
| TickerRule.TickerWatcher.PlaceOrder | test.py:107-109 | returns None before building any request |
| TickerRule.TickerWatcher.OnMessage | test.py:24-39 | a missing `lastPrice` gives KeyError and no start gives AttributeError; the first push records the baseline; a zero baseline gives ZeroDivisionError; a missing `pair` gives KeyError; otherwise the decision is that of the rule against the baseline |
| TickerRule.TickerWatcher.Stop | test.py:130-132 | before `start`, `self.ws` does not exist and AttributeError is raised |
| OpenOrders.EntriesOfSound | search_order.py:58-68 | every entry of a side comes from an order with that action, copied as action, id and price |
| OpenOrders.EntriesOfComplete | search_order.py:58-68 | every order whose action is BUY (SELL) has its entry in the buy (sell) list |
| OpenOrders.EntriesOfAppend | search_order.py:58-68 | the split keeps input order |
| OpenOrders.SortDescSorted | search_order.py:70-71 | sorting by price with `reverse=True` gives a list whose prices never rise, holding the same entries |
| OpenOrders.SortDescStable | search_order.py:70-71 | the sort is stable: entries with equal prices keep their input order |
| OpenOrders.Partition | search_order.py:58-68 | the loop builds exactly the two side lists |
| OpenOrders.SearchOpenOrders | search_order.py:52-71 | a missing `data` raises TypeError; an empty list stops with "No orders."; a side with two or more entries, one of them without a price, raises TypeError when sorted; otherwise both sides are sorted, highest price first |
| BinanceInfo.Symbols | trade/binance.py:18 | one symbol per entry, in input order; KeyError exactly when some entry has no `symbol` |
| BinanceInfo.GetAllPairs | trade/binance.py:17-19 | a missing `symbols` key raises KeyError; otherwise every entry's symbol, in input order |
| BinanceInfo.TradingBases | trade/binance.py:25 | an asset is listed exactly when it is the base asset of a TRADING entry; KeyError exactly when an entry has no status or a TRADING entry no base asset |
| BinanceInfo.SortedSetSpec | trade/binance.py:25-26 | `sorted(set(xs))` is strictly ascending and holds exactly the elements of `xs` |
| BinanceInfo.GetAllBaseAssets | trade/binance.py:24-26 | a missing `symbols` key gives an empty list; otherwise the TRADING entries' base assets, each once, in strictly ascending order |
| BinanceInfo.HeldMembers | trade/binance.py:42-44 | exactly the balances with `free > 0` or `locked > 0` are kept |
| BinanceInfo.HeldAppend | trade/binance.py:41-45 | the kept balances keep their input order |
| BinanceInfo.GetAccountBalance | trade/binance.py:39-47 | on 200, the kept balances of `balances` (none when the key is missing), unchanged and in order; otherwise `{'status': 'error', 'message': text}` |
| Bi.GetAllSymbols | bi.py:21-23 | a missing `symbols` key fails; otherwise one symbol per entry in input order |
| Bi.GetAllBaseAssetsFromExchangeInfo | bi.py:82-84 | a missing `symbols` key gives an empty list; otherwise the TRADING base assets, without repeats, in strictly ascending order |
| Bi.FeeSumAppend | bi.py:68-69 | the fee over two runs of trades is the sum of their fees |
| Bi.FeeSumBounds | bi.py:47-69 | a reply whose trades all lack a commission totals 0; non-negative commissions give a non-negative fee |
| Bi.FeeSumAbsent | bi.py:68-69 | a trade without a commission adds nothing to the total |
| Bi.GetFeeInfoFromTrades | bi.py:45-77 | a failed request or a non-200 reply gives (0, None); on 200 the fee is the sum of the commissions (a missing one counts 0) and the symbol is the last trade's `commissionAsset` (None without trades); a commission `Decimal` refuses stops the sum before that trade |

## Left out

- Transport is not modelled: HTTP, WebSocket, request signing (`get_headers`, HMAC), nonces and timestamps. Replies are inputs (`Exchange.respond`, `Exchange.quote`, the decoded frames and payloads).
- Clock readings are not modelled: `start_time` is a parameter.
- The threads (`threading.Thread`, `run_forever`, `join`) are not modelled, nor the blocking `while True: time.sleep(1)` loops of test.py and test2.py, nor the `KeyboardInterrupt` handling.
- The `log` generator's `time.sleep(1)` is not modelled; only one pass of its loop is (`NextLog`).
- The Django ORM is not modelled. `User.objects.get(self.user)` is not modelled; the history row stores the session's `user` value. The `OrderHistory` table is a map from id to row, plus the list of rows of orders that had no id.
- TradeWs.TradeWsManager.CreateOrderHistory: the upsert models the intended table, not the shipped code. trade/ws.py:14 imports `OrderHistory`, which the repository's models no longer define (a migration deletes it), and `User.objects.get(self.user)` at trade/ws.py:104 passes a positional argument Django does not accept as a lookup, so as shipped the call would raise.
- JSON decoding is not modelled, nor `float(...)` of ticker, and balance strings (a string `float` refuses is not modelled), nor `json.loads` failures.
- `print` output is not modelled. It includes test2.py's and test.py's `on_error` and `on_close`, which only print.
- bi.py's `get_account_balance` (lines 25-43) is not modelled: it only prints and returns None. The trade/binance.py version, which returns the same filter, is modelled.
- search_order.py's `response is None` check and its `exit()` (lines 48-50) are not modelled: the listing starts from the decoded `data` field. The `exit()` on an empty list (lines 54-56) is modelled as `NoOrders`.
- EarlyRevision.MatchFill: an order's `id` is an `Option`, which merges a missing `id` key with `"id": null`. In test2.py:50 a null id passes the `'id' in order` test and then matches a tracked id that is None; the model treats such an order as untracked.
- test2.py's `last_recorded_price` is not modelled: it is never read.
- `list.sort`'s algorithm is not modelled, only its result: a stable sort, descending by price.
- A `data` entry of search_order.py or a `myTrades` element that is not a dict is not modelled: in the source it would raise on `.get`.
- TradeWs.TradeWsManager.PlaceInitialOrders: limit prices are computed in exact real arithmetic, not IEEE-754 double precision, so a price next to an integer may truncate differently than the source's float.
- EarlyRevision.TradeWsManager.PlaceInitialOrders: same as above, exact reals in place of floats.
- BitoPro.Exchange.LastPrice: a ticker price is any real. Nothing in the source checks it is positive, so no contract relies on that.
- Bi.GetFeeInfoFromTrades: the sum is exact. Python's `Decimal` rounds each addition to 28 significant digits, so a total needing more digits differs.
- Bi.GetFeeInfoFromTrades: the `symbol` and `order_id` query parameters only reach the signed URL, so they are not parameters of the model.
- TickerRule.TickerWatcher.OnMessage: `change_rate` is computed on reals, so floating-point rounding at the exact threshold is not modelled.
