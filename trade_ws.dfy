/** The order-tracking session of trade/ws.py: one sell and one buy limit
    order placed around the current price; when one of them is fully filled
    the other is cancelled and a new pair is placed. Partial fills are
    written to an order-history table keyed by order id. */
module TradeWs {
  import opened Wrappers
  import opened Seqs
  import opened BitoPro

  /** Keys of `error_message`, and the fixed texts of the replies. */
  const PlaceFailed := "下單失敗"
  const CancelFailed := "訂單取消失敗"
  const AlreadyRunning := "機器人運作中"
  const NotRunningMessage := "check : 機器人未啟動/停止運作"

  /** One order of an ACTIVE_ORDERS frame; every field is read with
      `order.get(...)`, so each may be absent. Status 0 is open, 1 partially
      filled, 2 fully filled. */
  datatype OrderUpdate = OrderUpdate(
    id: Option<OrderId>,
    status: Option<int>,
    updatedTimestamp: Option<int>,
    avgExecutionPrice: Option<string>,
    action: Option<string>,
    executedAmount: Option<string>)

  /** A row of the `OrderHistory` table. */
  datatype HistoryRecord = HistoryRecord(
    user: Option<string>,
    timestamp: Option<int>,
    symbol: Option<string>,
    price: Option<string>,
    orderType: Option<string>,
    quantity: Option<string>)

  /** The order-history table: the rows written under an order's `id`,
      and the rows of orders without one. `update_or_create(id=None, ...)`
      matches no row, since `id` is the primary key, so each such call adds
      a row of its own. */
  datatype History = History(rows: map<OrderId, HistoryRecord>, unkeyed: seq<HistoryRecord>)

  const EmptyHistory := History(map[], [])

  /** `d` written over `h`: rows of `d` replace those with the same id, and
      its unkeyed rows follow those of `h`. */
  function Overlay(h: History, d: History): History
  {
    History(h.rows + d.rows, h.unkeyed + d.unkeyed)
  }

  predicate IsPartial(o: OrderUpdate) { o.status == Some(1) }

  predicate IsFilled(o: OrderUpdate) { o.status == Some(2) }

  function RecordOf(o: OrderUpdate, user: Option<string>, pair: Option<string>): HistoryRecord
  {
    HistoryRecord(user, o.updatedTimestamp, pair, o.avgExecutionPrice, o.action, o.executedAmount)
  }

  /** `OrderHistory.objects.update_or_create(id=..., defaults=...)`. */
  function Upsert(h: History, o: OrderUpdate, user: Option<string>, pair: Option<string>): History
  {
    if o.id.Some? then History(h.rows[o.id.value := RecordOf(o, user, pair)], h.unkeyed)
    else History(h.rows, h.unkeyed + [RecordOf(o, user, pair)])
  }

  /** What one examined order does to the table before the fill check. */
  function Step(h: History, o: OrderUpdate, user: Option<string>, pair: Option<string>): History
  {
    if IsPartial(o) then Upsert(h, o, user, pair) else h
  }

  /** The table after the orders of `os` are examined in turn, none of them
      fully filled. */
  function Recorded(h: History, user: Option<string>, pair: Option<string>, os: seq<OrderUpdate>): History
    decreases |os|
  {
    if os == [] then h
    else Step(Recorded(h, user, pair, os[..|os| - 1]), os[|os| - 1], user, pair)
  }

  /** Which tracked order a fully filled order is. The source compares
      `order.get('id')` with the tracked ids, so an order without an id
      matches a tracked id that is None. */
  datatype FillMatch = SellFilled | BuyFilled | Untracked

  function MatchFill(id: Option<OrderId>, sell: Option<OrderId>, buy: Option<OrderId>): (m: FillMatch)
    ensures m == SellFilled <==> id == sell
    ensures m == BuyFilled <==> id != sell && id == buy
    ensures m == Untracked <==> id != sell && id != buy
  {
    if id == sell then SellFilled else if id == buy then BuyFilled else Untracked
  }

  /** The order cancelled in answer to a fill: the other side of a tracked
      fill, nothing for an untracked one. */
  function CancelTarget(m: FillMatch, sell: Option<OrderId>, buy: Option<OrderId>): Option<OrderId>
  {
    match m
    case SellFilled => buy
    case BuyFilled => sell
    case Untracked => None
  }

  /** The table after a frame's orders for the pair: the partial fills
      before the first full fill, then that full fill if it is tracked. */
  function FrameHistory(h: History, user: Option<string>, pair: Option<string>, os: seq<OrderUpdate>,
                        sell: Option<OrderId>, buy: Option<OrderId>): History
  {
    var k := FirstWhere(os, IsFilled);
    var before := Recorded(h, user, pair, os[..k]);
    if k < |os| && MatchFill(os[k].id, sell, buy) != Untracked then Upsert(before, os[k], user, pair)
    else before
  }

  /** `error_message` after a placement got reply `r`. */
  function AfterPlace(e: map<string, string>, r: Response): map<string, string>
  {
    if r.status == 200 then e else e[PlaceFailed := r.body]
  }

  /** `error_message` after `cancel_order(id)` got reply `r` (no reply is
      read when `id` is None). */
  function AfterCancel(e: map<string, string>, id: Option<OrderId>, r: Response): map<string, string>
  {
    if id.None? || r.status == 200 then e else e[CancelFailed := r.body]
  }

  /** What the session has put on the wire so far and its `error_message`:
      the two things a placement or a cancel changes together. */
  datatype Outbox = Outbox(sent: seq<Request>, errors: map<string, string>)

  /** The outbox after `cancel_order(id)`, the exchange answering request
      number `n` with `respond(n)`. */
  function Cancelled(pair: Option<string>, id: Option<OrderId>, b: Outbox, respond: nat -> Response): Outbox
  {
    Outbox(b.sent + CancelRequests(pair, id), AfterCancel(b.errors, id, respond(|b.sent|)))
  }

  /** What `place_initial_orders` changes: the outbox, both tracked ids and
      the log queue. */
  datatype Placement = Placement(out: Outbox, sellId: Option<OrderId>, buyId: Option<OrderId>, log: seq<LogEntry>)

  /** The effect of `place_initial_orders` at ticker price `p`: a sell at
      `p * (1 + up)` then a buy at `p * (1 - down)`, both truncated, the
      tracked ids replaced by what the two placements returned, and one
      log entry per placement. */
  function PlaceBoth(pair: Option<string>, size: Option<real>, up: real, down: real, p: Price, b: Outbox,
                     log0: seq<LogEntry>, respond: nat -> Response): Placement
  {
    var n := |b.sent|;
    var sellPrice := SellLimit(p, up);
    var buyPrice := BuyLimit(p, down);
    Placement(Outbox(b.sent + [PlaceLimit(pair, Sell, size, sellPrice), PlaceLimit(pair, Buy, size, buyPrice)],
                     AfterPlace(AfterPlace(b.errors, respond(n)), respond(n + 1))),
              PlacedId(respond(n)), PlacedId(respond(n + 1)),
              log0 + [PlaceLog(Sell, sellPrice, respond(n)), PlaceLog(Buy, buyPrice, respond(n + 1))])
  }

  /** The outbox after `cancel_all_orders`: the buy's cancel, then the sell's. */
  function CancelledBoth(pair: Option<string>, buy: Option<OrderId>, sell: Option<OrderId>, b: Outbox,
                         respond: nat -> Response): Outbox
  {
    Cancelled(pair, sell, Cancelled(pair, buy, b, respond), respond)
  }

  /** The messages `log_print` queues; both carry `'status': True`. */
  datatype LogMessage =
    | Placed(action: Action, price: int, id: Option<OrderId>)
    | PlaceRejected(action: Action, body: string)

  datatype LogEntry = LogEntry(status: bool, message: LogMessage)

  function PlaceLog(action: Action, price: int, r: Response): LogEntry
  {
    if r.status == 200 then LogEntry(true, Placed(action, price, r.orderId))
    else LogEntry(true, PlaceRejected(action, r.body))
  }

  /** What `start`, `update` and `stop` return: `0`, or the error map. */
  datatype Reply = Done | Failed(errors: map<string, string>)

  function ReplyOf(e: map<string, string>): Reply
  {
    if |e| > 0 then Failed(e) else Done
  }

  /** What `get_manager_state` reports. */
  datatype ManagerState =
    | NotRunning(message: string)
    | Running(pair: Option<string>, orderSize: Option<real>, upPercent: real, downPercent: real,
              startTime: Option<string>)

  /** The trading parameters and the running flag, which fill handling
      never changes. */
  datatype Settings = Settings(
    pair: Option<string>, orderSize: Option<real>, increase: Option<real>, decrease: Option<real>,
    startTime: Option<string>, user: Option<string>, isRunning: bool)

  // ---------------------------------------------------------------------
  // Properties of the order-history table

  /** An id has a row after a run of examined orders exactly when it had
      one before or is the id of one of their partial fills. */
  lemma {:induction false} RecordedKeys(h: History, user: Option<string>, pair: Option<string>,
                                        os: seq<OrderUpdate>)
    ensures forall id :: id in Recorded(h, user, pair, os).rows <==>
      id in h.rows || exists i :: 0 <= i < |os| && IsPartial(os[i]) && os[i].id == Some(id)
    decreases |os|
  {
    if os != [] {
      var init := os[..|os| - 1];
      RecordedKeys(h, user, pair, init);
      forall id | id in Recorded(h, user, pair, os).rows && id !in h.rows
        ensures exists i :: 0 <= i < |os| && IsPartial(os[i]) && os[i].id == Some(id)
      {
        if id !in Recorded(h, user, pair, init).rows {
          assert IsPartial(os[|os| - 1]) && os[|os| - 1].id == Some(id);
        } else {
          var i :| 0 <= i < |init| && IsPartial(init[i]) && init[i].id == Some(id);
          assert os[i] == init[i];
        }
      }
      forall i | 0 <= i < |os| && IsPartial(os[i]) && os[i].id.Some?
        ensures os[i].id.value in Recorded(h, user, pair, os).rows
      {
        if i < |init| {
          assert init[i] == os[i];
        }
      }
    }
  }

  /** Upserting commutes with overlaying: what one order writes over `h`
      overlaid with `d` is `h` overlaid with what it writes over `d`. */
  lemma UpsertOverlay(h: History, d: History, o: OrderUpdate, user: Option<string>, pair: Option<string>)
    ensures Upsert(Overlay(h, d), o, user, pair) == Overlay(h, Upsert(d, o, user, pair))
  {
    if o.id.None? {
      assert (h.unkeyed + d.unkeyed) + [RecordOf(o, user, pair)] == h.unkeyed + (d.unkeyed + [RecordOf(o, user, pair)]);
    }
  }

  /** The table after a run of orders is the old table overlaid with what
      the run alone records: keyed rows with other ids are left as they
      were, and the run's unkeyed rows are added after the old ones. */
  lemma {:induction false} RecordedOverlay(h: History, user: Option<string>, pair: Option<string>,
                                           os: seq<OrderUpdate>)
    ensures Recorded(h, user, pair, os) == Overlay(h, Recorded(EmptyHistory, user, pair, os))
    decreases |os|
  {
    if os == [] {
      assert h.unkeyed + [] == h.unkeyed;
      assert h.rows + map[] == h.rows;
    } else {
      var init := os[..|os| - 1];
      RecordedOverlay(h, user, pair, init);
      if IsPartial(os[|os| - 1]) {
        UpsertOverlay(h, Recorded(EmptyHistory, user, pair, init), os[|os| - 1], user, pair);
      }
    }
  }

  /** Upserting is keyed by id: replaying the same orders overwrites the
      keyed rows they wrote and adds no keyed row; each id-less partial fill
      adds its unkeyed row again. */
  lemma RecordedReplay(h: History, user: Option<string>, pair: Option<string>, os: seq<OrderUpdate>)
    ensures Recorded(Recorded(h, user, pair, os), user, pair, os).rows == Recorded(h, user, pair, os).rows
    ensures Recorded(Recorded(h, user, pair, os), user, pair, os).unkeyed
         == Recorded(h, user, pair, os).unkeyed + Recorded(EmptyHistory, user, pair, os).unkeyed
  {
    var once := Recorded(h, user, pair, os);
    var d := Recorded(EmptyHistory, user, pair, os);
    RecordedOverlay(h, user, pair, os);
    RecordedOverlay(once, user, pair, os);
    assert (h.rows + d.rows) + d.rows == h.rows + d.rows;
  }

  /** A frame's effect on the table is an overlay of what it records on an
      empty table. */
  lemma FrameHistoryOverlay(h: History, user: Option<string>, pair: Option<string>, os: seq<OrderUpdate>,
                            sell: Option<OrderId>, buy: Option<OrderId>)
    ensures FrameHistory(h, user, pair, os, sell, buy)
         == Overlay(h, FrameHistory(EmptyHistory, user, pair, os, sell, buy))
  {
    var k := FirstWhere(os, IsFilled);
    RecordedOverlay(h, user, pair, os[..k]);
    if k < |os| && MatchFill(os[k].id, sell, buy) != Untracked {
      UpsertOverlay(h, Recorded(EmptyHistory, user, pair, os[..k]), os[k], user, pair);
    }
  }

  /** Handling the same frame twice, with the tracked ids unchanged between
      the deliveries, leaves the keyed rows as handling it once; only the
      unkeyed rows of the frame are added a second time. */
  lemma FrameHistoryReplay(h: History, user: Option<string>, pair: Option<string>, os: seq<OrderUpdate>,
                           sell: Option<OrderId>, buy: Option<OrderId>)
    ensures FrameHistory(FrameHistory(h, user, pair, os, sell, buy), user, pair, os, sell, buy).rows
         == FrameHistory(h, user, pair, os, sell, buy).rows
    ensures FrameHistory(FrameHistory(h, user, pair, os, sell, buy), user, pair, os, sell, buy).unkeyed
         == FrameHistory(h, user, pair, os, sell, buy).unkeyed
            + FrameHistory(EmptyHistory, user, pair, os, sell, buy).unkeyed
  {
    var once := FrameHistory(h, user, pair, os, sell, buy);
    var d := FrameHistory(EmptyHistory, user, pair, os, sell, buy);
    FrameHistoryOverlay(h, user, pair, os, sell, buy);
    FrameHistoryOverlay(once, user, pair, os, sell, buy);
    assert (h.rows + d.rows) + d.rows == h.rows + d.rows;
  }

  // ---------------------------------------------------------------------
  // The session

  /** `TradeWSManager`: the session object. `exchange` stands for the
      BitoPro REST API the source calls through `requests`. */
  class TradeWsManager {
    var errorMessage: map<string, string>
    var pair: Option<string>
    var orderSize: Option<real>
    var isRunning: bool
    var increase: Option<real>
    var decrease: Option<real>
    var startTime: Option<string>
    var sellOrderId: Option<OrderId>
    var buyOrderId: Option<OrderId>
    var user: Option<string>
    var logMessages: seq<LogEntry>
    var history: History
    const exchange: Exchange

    /** The percentages `place_initial_orders` multiplies by are set. */
    predicate Configured()
      reads this
    {
      increase.Some? && decrease.Some?
    }

    /** A running session has been started, so its parameters are set. */
    ghost predicate Valid()
      reads this
    {
      isRunning ==> Configured() && pair.Some?
    }

    ghost function CurrentSettings(): Settings
      reads this
    {
      Settings(pair, orderSize, increase, decrease, startTime, user, isRunning)
    }

    /** The state `__init__` leaves. */
    ghost predicate Initial()
      reads this
    {
      && errorMessage == map[] && pair.None? && orderSize.None? && !isRunning
      && increase.None? && decrease.None? && startTime.None? && sellOrderId.None?
      && buyOrderId.None? && user.None? && logMessages == []
    }

    /** `__init__`; `table` is the order-history table as the database
        already holds it. */
    constructor (exchange: Exchange, table: History)
      ensures Valid() && Initial() && this.exchange == exchange && history == table
    {
      errorMessage := map[];
      pair := None;
      orderSize := None;
      isRunning := false;
      increase := None;
      decrease := None;
      startTime := None;
      sellOrderId := None;
      buyOrderId := None;
      user := None;
      logMessages := [];
      history := table;
      this.exchange := exchange;
    }

    /** `log_print`: queue a message at the back. */
    method LogPrint(m: LogEntry)
      modifies this`logMessages
      ensures logMessages == old(logMessages) + [m]
    {
      logMessages := logMessages + [m];
    }

    /** One pass of the `log` generator's loop: the oldest queued message is
        taken from the front, or nothing when the queue is empty. */
    method NextLog() returns (m: Option<LogEntry>)
      modifies this`logMessages
      ensures old(logMessages) == [] ==> m == None && logMessages == []
      ensures old(logMessages) != [] ==>
        m == Some(old(logMessages)[0]) && logMessages == old(logMessages)[1..]
    {
      if logMessages == [] {
        m := None;
      } else {
        m := Some(logMessages[0]);
        logMessages := logMessages[1..];
      }
    }

    /** `create_order_history`: upsert the order's row under its id. */
    method CreateOrderHistory(o: OrderUpdate)
      modifies this`history
      ensures history == Upsert(old(history), o, user, pair)
      ensures o.id.Some? ==> o.id.value in history.rows && old(history).rows.Keys <= history.rows.Keys
      ensures o.id.None? ==> history.rows == old(history).rows && |history.unkeyed| == |old(history).unkeyed| + 1
    {
      history := Upsert(history, o, user, pair);
    }

    /** `place_order`: one LIMIT order at the truncated price. A rejection is
        recorded under PlaceFailed and logged; either way a message is queued. */
    method PlaceOrder(action: Action, price: real) returns (id: Option<OrderId>)
      modifies this`errorMessage, this`logMessages, exchange`sent
      ensures var r := exchange.respond(|old(exchange.sent)|);
        && exchange.sent == old(exchange.sent) + [PlaceLimit(pair, action, orderSize, Truncate(price))]
        && id == PlacedId(r)
        && errorMessage == AfterPlace(old(errorMessage), r)
        && (r.status != 200 ==> id == None && errorMessage[PlaceFailed] == r.body)
        && logMessages == old(logMessages) + [PlaceLog(action, Truncate(price), r)]
    {
      var resp := exchange.Send(PlaceLimit(pair, action, orderSize, Truncate(price)));
      if resp.status == 200 {
        id := resp.orderId;
        LogPrint(LogEntry(true, Placed(action, Truncate(price), id)));
      } else {
        errorMessage := errorMessage[PlaceFailed := resp.body];
        LogPrint(LogEntry(true, PlaceRejected(action, resp.body)));
        id := None;
      }
    }

    /** `place_initial_orders` has left the state `PlaceBoth` computes from
        the quote it took (number `quotes0`), the outbox and the log queue it
        started from. */
    ghost predicate PlacedBoth(quotes0: nat, b: Outbox, log0: seq<LogEntry>)
      reads this, exchange
      requires Configured()
    {
      && exchange.quotesTaken == quotes0 + 1
      && Placement(Outbox(exchange.sent, errorMessage), sellOrderId, buyOrderId, logMessages)
         == PlaceBoth(pair, orderSize, increase.value, decrease.value, exchange.quote(quotes0), b, log0, exchange.respond)
    }

    /** `place_initial_orders`. The source raises TypeError when the
        percentages were never set, hence `Configured()`. */
    method PlaceInitialOrders()
      requires Configured()
      modifies this`errorMessage, this`logMessages, this`sellOrderId, this`buyOrderId, exchange
      ensures Configured()
      ensures PlacedBoth(old(exchange.quotesTaken), Outbox(old(exchange.sent), old(errorMessage)), old(logMessages))
    {
      ghost var sent0, log0 := exchange.sent, logMessages;
      var current := exchange.LastPrice();
      var sellPrice := current * (1.0 + increase.value);
      assert Truncate(sellPrice) == SellLimit(current, increase.value);
      sellOrderId := PlaceOrder(Sell, sellPrice);
      var buyPrice := current * (1.0 - decrease.value);
      assert Truncate(buyPrice) == BuyLimit(current, decrease.value);
      buyOrderId := PlaceOrder(Buy, buyPrice);
      assert exchange.sent == sent0 + [exchange.sent[|sent0|], exchange.sent[|sent0| + 1]];
      assert logMessages == log0 + [logMessages[|log0|], logMessages[|log0| + 1]];
    }

    /** `cancel_order`: nothing for None; a failed cancel is recorded under
        the single key CancelFailed. */
    method CancelOrder(id: Option<OrderId>)
      modifies this`errorMessage, exchange`sent
      ensures Outbox(exchange.sent, errorMessage) == Cancelled(pair, id, Outbox(old(exchange.sent), old(errorMessage)), exchange.respond)
      ensures id.None? ==> exchange.sent == old(exchange.sent) && errorMessage == old(errorMessage)
    {
      if id.None? {
        return;
      }
      var resp := exchange.Send(CancelById(pair, id.value));
      if resp.status != 200 {
        errorMessage := errorMessage[CancelFailed := resp.body];
      }
    }

    /** `cancel_all_orders`: the buy, then the sell. When both cancels fail
        the second reply overwrites the first under CancelFailed. */
    method CancelAllOrders()
      modifies this`errorMessage, exchange`sent
      ensures Outbox(exchange.sent, errorMessage)
        == CancelledBoth(pair, buyOrderId, sellOrderId, Outbox(old(exchange.sent), old(errorMessage)), exchange.respond)
      ensures var m := |old(exchange.sent)| + |CancelRequests(pair, buyOrderId)|;
        sellOrderId.Some? && exchange.respond(m).status != 200 ==> errorMessage[CancelFailed] == exchange.respond(m).body
    {
      CancelOrder(buyOrderId);
      CancelOrder(sellOrderId);
    }

    /** `get_manager_state`. */
    function GetManagerState(): (s: ManagerState)
      reads this
      requires Valid()
      ensures s.NotRunning? <==> !isRunning
      ensures s.NotRunning? ==> s.message == NotRunningMessage
      ensures s.Running? ==>
        && s.pair == pair && s.orderSize == orderSize && s.startTime == startTime
        && s.upPercent == 100.0 * increase.value && s.downPercent == 100.0 * decrease.value
    {
      if !isRunning then NotRunning(NotRunningMessage)
      else Running(pair, orderSize, increase.value * 100.0, decrease.value * 100.0, startTime)
    }

    /** `start`: refused while running, with nothing changed; otherwise the
        error map is cleared, the parameters stored and the session marked
        running. Opening the stream is left to the transport; its `on_open`
        is OnOpen below. */
    method Start(newPair: string, size: real, up: real, down: real, who: string, now: string)
      returns (reply: Reply)
      requires Valid()
      modifies this`errorMessage, this`pair, this`orderSize, this`increase, this`decrease,
               this`startTime, this`user, this`isRunning
      ensures Valid()
      ensures old(isRunning) ==> reply == Failed(map["error" := AlreadyRunning]) && unchanged(this)
      ensures !old(isRunning) ==>
        && CurrentSettings() == Settings(Some(newPair), Some(size), Some(up), Some(down), Some(now), Some(who), true)
        && errorMessage == map[]
        && reply == Done
    {
      if isRunning {
        return Failed(map["error" := AlreadyRunning]);
      }
      errorMessage := map[];
      pair := Some(newPair);
      orderSize := Some(size);
      increase := Some(up);
      decrease := Some(down);
      startTime := Some(now);
      user := Some(who);
      isRunning := true;
      reply := ReplyOf(errorMessage);
    }

    /** `on_open`: the stream is connected; place the first pair. */
    method OnOpen()
      requires Configured()
      modifies this`errorMessage, this`logMessages, this`sellOrderId, this`buyOrderId, exchange
      ensures Configured()
      ensures PlacedBoth(old(exchange.quotesTaken), Outbox(old(exchange.sent), old(errorMessage)), old(logMessages))
    {
      PlaceInitialOrders();
    }

    /** `on_error`: `error_message` is a dict and has no `append`, so the
        callback raises AttributeError and records nothing. */
    method OnError(error: string) returns (outcome: Outcome)
      ensures outcome == Failure("AttributeError")
    {
      outcome := Failure("AttributeError");
    }

    /** The second half of `update`: the new parameters, then a new pair of
        orders placed with them. */
    method Reconfigure(size: real, up: real, down: real, now: string)
      modifies this`orderSize, this`increase, this`decrease, this`startTime,
               this`errorMessage, this`logMessages, this`sellOrderId, this`buyOrderId, exchange
      ensures orderSize == Some(size) && increase == Some(up) && decrease == Some(down) && startTime == Some(now)
      ensures PlacedBoth(old(exchange.quotesTaken), Outbox(old(exchange.sent), old(errorMessage)), old(logMessages))
    {
      orderSize := Some(size);
      increase := Some(up);
      decrease := Some(down);
      startTime := Some(now);
      PlaceInitialOrders();
    }

    /** `update`: clear the errors, cancel both tracked orders, swap in the
        new parameters and place a new pair. Nothing checks that the session
        is running. */
    method Update(size: real, up: real, down: real, now: string) returns (reply: Reply)
      requires Valid()
      modifies this`errorMessage, this`orderSize, this`increase, this`decrease, this`startTime,
               this`sellOrderId, this`buyOrderId, this`logMessages, exchange
      ensures Valid()
      ensures orderSize == Some(size) && increase == Some(up) && decrease == Some(down) && startTime == Some(now)
      ensures PlacedBoth(old(exchange.quotesTaken),
                         CancelledBoth(pair, old(buyOrderId), old(sellOrderId), Outbox(old(exchange.sent), map[]),
                                       exchange.respond),
                         old(logMessages))
      ensures reply == ReplyOf(errorMessage)
    {
      errorMessage := map[];
      CancelAllOrders();
      Reconfigure(size, up, down, now);
      reply := ReplyOf(errorMessage);
    }

    /** `stop`: cancel both tracked orders and clear the running flag,
        whatever the cancels answered. The tracked ids are kept. */
    method Stop() returns (reply: Reply)
      requires Valid()
      modifies this`errorMessage, this`isRunning, exchange`sent
      ensures Valid() && !isRunning
      ensures GetManagerState() == NotRunning(NotRunningMessage)
      ensures Outbox(exchange.sent, errorMessage)
        == CancelledBoth(pair, buyOrderId, sellOrderId, Outbox(old(exchange.sent), map[]), exchange.respond)
      ensures reply == ReplyOf(errorMessage)
    {
      errorMessage := map[];
      CancelAllOrders();
      isRunning := false;
      reply := ReplyOf(errorMessage);
    }

    /** The `status == 2` branch of `on_message`: a tracked fill is upserted
        and the other side cancelled; tracked or not, a new pair is placed. */
    method HandleFill(o: OrderUpdate)
      requires Configured()
      modifies this`history, this`errorMessage, this`logMessages, this`sellOrderId, this`buyOrderId, exchange
      ensures Configured()
      ensures var m := MatchFill(o.id, old(sellOrderId), old(buyOrderId));
        var target := CancelTarget(m, old(sellOrderId), old(buyOrderId));
        && history == (if m != Untracked then Upsert(old(history), o, user, pair) else old(history))
        && PlacedBoth(old(exchange.quotesTaken),
                      Cancelled(pair, target, Outbox(old(exchange.sent), old(errorMessage)), exchange.respond),
                      old(logMessages))
    {
      var m := MatchFill(o.id, sellOrderId, buyOrderId);
      if m == SellFilled {
        CreateOrderHistory(o);
        CancelOrder(buyOrderId);
      } else if m == BuyFilled {
        CreateOrderHistory(o);
        CancelOrder(sellOrderId);
      }
      PlaceInitialOrders();
    }

    /** `on_message`: a frame that is not an ACTIVE_ORDERS push for the pair
        is ignored. Otherwise its orders are examined in turn: a partial fill
        is upserted into the history; the first full fill, when it is the
        tracked sell (buy), is upserted and the buy (sell) cancelled; any
        full fill then places a new pair and ends the loop, so later orders
        are never examined. */
    method OnMessage(frame: Frame<OrderUpdate>)
      requires Valid() && Configured()
      modifies this`history, this`errorMessage, this`logMessages, this`sellOrderId, this`buyOrderId, exchange
      ensures Valid() && Configured()
      ensures OrdersFor(frame, pair).None? ==> unchanged(this) && unchanged(exchange)
      ensures OrdersFor(frame, pair).Some? ==>
        var os := OrdersFor(frame, pair).value;
        var k := FirstWhere(os, IsFilled);
        && history == FrameHistory(old(history), user, pair, os, old(sellOrderId), old(buyOrderId))
        && (k == |os| ==>
              && sellOrderId == old(sellOrderId) && buyOrderId == old(buyOrderId)
              && errorMessage == old(errorMessage) && logMessages == old(logMessages)
              && unchanged(exchange))
        && (k < |os| ==>
              var target := CancelTarget(MatchFill(os[k].id, old(sellOrderId), old(buyOrderId)),
                                         old(sellOrderId), old(buyOrderId));
              PlacedBoth(old(exchange.quotesTaken),
                         Cancelled(pair, target, Outbox(old(exchange.sent), old(errorMessage)), exchange.respond),
                         old(logMessages)))
    {
      var orders := OrdersFor(frame, pair);
      if orders.None? {
        return;
      }
      var os := orders.value;
      var k := RecordUntilFill(os);
      if k < |os| {
        HandleFill(os[k]);
      }
    }

    /** The loop of `on_message` up to its `break`: partial fills are
        upserted in order until the first full fill, whose index is
        returned (`|os|` when there is none). */
    method RecordUntilFill(os: seq<OrderUpdate>) returns (k: nat)
      modifies this`history
      ensures k == FirstWhere(os, IsFilled)
      ensures history == Recorded(old(history), user, pair, os[..k])
    {
      k := 0;
      while k < |os| && !IsFilled(os[k])
        invariant 0 <= k <= |os|
        invariant forall j :: 0 <= j < k ==> !IsFilled(os[j])
        invariant history == Recorded(old(history), user, pair, os[..k])
      {
        assert os[..k + 1][..k] == os[..k];
        if IsPartial(os[k]) {
          CreateOrderHistory(os[k]);
        }
        k := k + 1;
      }
    }
  }

  /** The process-wide slot behind `TradeWSManager.__new__`: the first
      request creates the session, every later one gets that same object
      back, with its state as the earlier callers left it. */
  class Process {
    var instance: TradeWsManager?

    constructor ()
      ensures instance == null
    {
      instance := null;
    }

    method Manager(exchange: Exchange, table: History) returns (m: TradeWsManager)
      modifies this
      ensures instance == m
      ensures old(instance) != null ==> m == old(instance)
      ensures old(instance) == null ==>
        fresh(m) && m.Initial() && m.Valid() && m.exchange == exchange && m.history == table
    {
      if instance == null {
        instance := new TradeWsManager(exchange, table);
      }
      m := instance;
    }
  }
}
