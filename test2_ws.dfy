/** The earlier revision of the order-tracking session, test2.py: the same
    replace-on-fill machine without a history table, an error map, a log
    queue or a running flag. A fill is recognised by the string status
    "FILLED", and an order is only matched when it carries an id. */
module EarlyRevision {
  import opened Wrappers
  import opened Seqs
  import opened BitoPro
  import TradeWs

  const Filled := "FILLED"

  /** One order of an ACTIVE_ORDERS frame, as far as this revision reads
      it: the `id` and `status` keys, either of which may be absent. Only
      equality of the status with "FILLED" is ever tested. */
  datatype OrderUpdate = OrderUpdate(id: Option<OrderId>, status: Option<string>)

  predicate IsFilled(o: OrderUpdate) { o.status == Some(Filled) }

  /** Which tracked order a filled order is. An order without an `id` key
      matches nothing, even when a tracked id is None. */
  function MatchFill(id: Option<OrderId>, sell: Option<OrderId>, buy: Option<OrderId>): (m: TradeWs.FillMatch)
    ensures m == TradeWs.SellFilled <==> id.Some? && id == sell
    ensures m == TradeWs.BuyFilled <==> id.Some? && id != sell && id == buy
  {
    if id.Some? && id == sell then TradeWs.SellFilled
    else if id.Some? && id == buy then TradeWs.BuyFilled
    else TradeWs.Untracked
  }

  /** The two revisions agree on every order that carries an id; they part
      exactly on an id-less fill while a tracked id is None, which trade/ws.py
      takes for that side and this revision ignores. */
  lemma MatchAgreesWithLaterRevision(id: Option<OrderId>, sell: Option<OrderId>, buy: Option<OrderId>)
    ensures id.Some? ==> MatchFill(id, sell, buy) == TradeWs.MatchFill(id, sell, buy)
    ensures id.None? ==> MatchFill(id, sell, buy) == TradeWs.Untracked
    ensures id.None? && sell.None? ==> TradeWs.MatchFill(id, sell, buy) == TradeWs.SellFilled
    ensures id.None? && sell.Some? && buy.None? ==> TradeWs.MatchFill(id, sell, buy) == TradeWs.BuyFilled
    ensures MatchFill(id, sell, buy) != TradeWs.MatchFill(id, sell, buy) <==> id.None? && (sell.None? || buy.None?)
  {
  }

  class TradeWsManager {
    var pair: Option<string>
    var orderSize: Option<real>
    var increase: Option<real>
    var decrease: Option<real>
    var startTime: Option<string>
    var sellOrderId: Option<OrderId>
    var buyOrderId: Option<OrderId>
    /** Whether `self.ws` holds a socket, i.e. `start` has run. */
    var connected: bool
    const exchange: Exchange

    predicate Configured()
      reads this
    {
      increase.Some? && decrease.Some?
    }

    /** `start` sets the pair and both percentages together. */
    ghost predicate Valid()
      reads this
    {
      pair.Some? ==> Configured()
    }

    /** `__init__`: every field None. */
    constructor (exchange: Exchange)
      ensures Valid() && this.exchange == exchange && !connected
      ensures pair.None? && orderSize.None? && increase.None? && decrease.None? && startTime.None?
      ensures sellOrderId.None? && buyOrderId.None?
    {
      this.exchange := exchange;
      pair, orderSize, increase, decrease, startTime := None, None, None, None, None;
      sellOrderId, buyOrderId := None, None;
      connected := false;
    }

    /** `start` up to the point where it blocks: the parameters are stored
        and the socket is created. */
    method Start(newPair: string, size: real, up: real, down: real, now: string)
      modifies this`pair, this`orderSize, this`increase, this`decrease, this`startTime, this`connected
      ensures Valid() && Configured() && connected
      ensures pair == Some(newPair) && orderSize == Some(size) && startTime == Some(now)
      ensures increase == Some(up) && decrease == Some(down)
    {
      pair, orderSize, increase, decrease, startTime := Some(newPair), Some(size), Some(up), Some(down), Some(now);
      connected := true;
    }

    /** `place_order`: one LIMIT request at the truncated price; the id on
        status 200, None otherwise. A failure is only printed. */
    method PlaceOrder(action: Action, price: real) returns (id: Option<OrderId>)
      modifies exchange`sent
      ensures exchange.sent == old(exchange.sent) + [PlaceLimit(pair, action, orderSize, Truncate(price))]
      ensures id == PlacedId(exchange.respond(|old(exchange.sent)|))
      ensures exchange.respond(|old(exchange.sent)|).status != 200 ==> id.None?
    {
      var r := exchange.Send(PlaceLimit(pair, action, orderSize, Truncate(price)));
      if r.status == 200 {
        id := r.orderId;
      } else {
        id := None;
      }
    }

    /** `place_initial_orders` has run: one quote taken, a sell then a buy
        requested around it, and both tracked ids overwritten with what the
        two placements returned, None included. */
    ghost predicate Replaced(quotes0: nat, sent0: seq<Request>)
      reads this, exchange
      requires Configured()
    {
      var p := exchange.quote(quotes0);
      var n := |sent0|;
      && exchange.quotesTaken == quotes0 + 1
      && exchange.sent == sent0 + [PlaceLimit(pair, Sell, orderSize, SellLimit(p, increase.value)),
                                   PlaceLimit(pair, Buy, orderSize, BuyLimit(p, decrease.value))]
      && sellOrderId == PlacedId(exchange.respond(n))
      && buyOrderId == PlacedId(exchange.respond(n + 1))
    }

    /** `place_initial_orders`; TypeError when the percentages were never
        set, hence `Configured()`. */
    method PlaceInitialOrders()
      requires Configured()
      modifies this`sellOrderId, this`buyOrderId, exchange
      ensures Configured()
      ensures Replaced(old(exchange.quotesTaken), old(exchange.sent))
    {
      ghost var sent0 := exchange.sent;
      var current := exchange.LastPrice();
      var sellPrice := current * (1.0 + increase.value);
      assert Truncate(sellPrice) == SellLimit(current, increase.value);
      sellOrderId := PlaceOrder(Sell, sellPrice);
      var buyPrice := current * (1.0 - decrease.value);
      assert Truncate(buyPrice) == BuyLimit(current, decrease.value);
      buyOrderId := PlaceOrder(Buy, buyPrice);
      assert exchange.sent == sent0 + [exchange.sent[|sent0|], exchange.sent[|sent0| + 1]];
    }

    /** `on_open`. */
    method OnOpen()
      requires Configured()
      modifies this`sellOrderId, this`buyOrderId, exchange
      ensures Configured()
      ensures Replaced(old(exchange.quotesTaken), old(exchange.sent))
    {
      PlaceInitialOrders();
    }

    /** `cancel_order`: nothing for None; the reply is only printed. */
    method CancelOrder(id: Option<OrderId>)
      modifies exchange`sent
      ensures exchange.sent == old(exchange.sent) + CancelRequests(pair, id)
    {
      if id.None? {
        return;
      }
      var _ := exchange.Send(CancelById(pair, id.value));
    }

    /** `stop`: the sell is cancelled before the buy; closing the socket
        raises AttributeError when `start` never ran (`self.ws` is None). */
    method Stop() returns (outcome: Outcome)
      modifies exchange`sent
      ensures exchange.sent == old(exchange.sent) + CancelRequests(pair, sellOrderId) + CancelRequests(pair, buyOrderId)
      ensures outcome == if connected then Success(()) else Failure("AttributeError")
    {
      CancelOrder(sellOrderId);
      CancelOrder(buyOrderId);
      outcome := if connected then Success(()) else Failure("AttributeError");
    }

    /** `on_message`: a frame that is not an ACTIVE_ORDERS push for the pair
        is ignored. Otherwise the orders are scanned for the first "FILLED"
        one; when it is the tracked sell (buy) the buy (sell) is cancelled,
        and in every case a new pair is placed and the scan stops. */
    method OnMessage(frame: Frame<OrderUpdate>)
      requires Valid()
      modifies this`sellOrderId, this`buyOrderId, exchange
      ensures OrdersFor(frame, pair).None? ==> unchanged(this) && unchanged(exchange)
      ensures OrdersFor(frame, pair).Some? ==>
        var os := OrdersFor(frame, pair).value;
        var k := FirstWhere(os, IsFilled);
        && (k == |os| ==> unchanged(this) && unchanged(exchange))
        && (k < |os| ==>
              var target := TradeWs.CancelTarget(MatchFill(os[k].id, old(sellOrderId), old(buyOrderId)),
                                                 old(sellOrderId), old(buyOrderId));
              Configured() && Replaced(old(exchange.quotesTaken), old(exchange.sent) + CancelRequests(pair, target)))
    {
      var orders := OrdersFor(frame, pair);
      if orders.None? {
        return;
      }
      var os := orders.value;
      var i := 0;
      while i < |os| && !IsFilled(os[i])
        invariant 0 <= i <= |os|
        invariant forall j :: 0 <= j < i ==> !IsFilled(os[j])
      {
        i := i + 1;
      }
      if i < |os| {
        var m := MatchFill(os[i].id, sellOrderId, buyOrderId);
        if m == TradeWs.SellFilled {
          CancelOrder(buyOrderId);
        } else if m == TradeWs.BuyFilled {
          CancelOrder(sellOrderId);
        }
        PlaceInitialOrders();
      }
    }
  }
}
