/** The BitoPro exchange as the trading bot sees it: limit-order requests,
    their replies, the ticker price and the ACTIVE_ORDERS stream frames.
    The HTTP and WebSocket transport and request signing are not modelled;
    what the exchange answers is an input of the model. */
module BitoPro {
  import opened Wrappers

  type OrderId = string

  /** A ticker price: `float(data["data"]["lastPrice"])`. Nothing in the source
      checks its sign, so neither does the model. */
  type Price = real

  /** How a call that returns nothing ends: `Success(())`, or `Failure`
      naming the Python exception it raises. */
  type Outcome = Result<()>

  /** The `action` field of an order: "BUY" or "SELL". */
  datatype Action = Buy | Sell

  /** `int(x)` on a float: truncation toward zero, which is how a limit
      price is written into the `price` field of an order request. */
  function Truncate(x: real): int
  {
    if x >= 0.0 then x.Floor else -((-x).Floor)
  }

  /** Truncation drops the fraction and keeps the sign: the result is the
      integer next to `x` on the side of zero. */
  lemma TruncateTowardZero(x: real)
    ensures 0.0 <= x ==> Truncate(x) as real <= x < Truncate(x) as real + 1.0
    ensures x < 0.0 ==> Truncate(x) as real - 1.0 < x <= Truncate(x) as real
    ensures 0.0 <= x ==> Truncate(x) == x.Floor
  {
  }

  /** The sell limit placed around price `p`: `p * (1 + up)`, truncated. */
  function SellLimit(p: real, up: real): int
  {
    Truncate(p * (1.0 + up))
  }

  /** The buy limit placed around price `p`: `p * (1 - down)`, truncated. */
  function BuyLimit(p: real, down: real): int
  {
    Truncate(p * (1.0 - down))
  }

  /** What the bot asks of the exchange: a LIMIT order for `pair`, or the
      cancellation of one order of `pair`. */
  datatype Request =
    | PlaceLimit(pair: Option<string>, action: Action, amount: Option<real>, price: int)
    | CancelById(pair: Option<string>, id: OrderId)

  /** A reply: the HTTP status, the `orderId` of the JSON body when it has
      one, and the body itself. */
  datatype Response = Response(status: int, orderId: Option<OrderId>, body: string)

  /** The id `place_order` hands back for a reply: `orderId` on status 200,
      None otherwise. */
  function PlacedId(r: Response): Option<OrderId>
  {
    if r.status == 200 then r.orderId else None
  }

  /** The requests `cancel_order(id)` sends: none for None. */
  function CancelRequests(pair: Option<string>, id: Option<OrderId>): seq<Request>
  {
    if id.None? then [] else [CancelById(pair, id.value)]
  }

  /** One push of the authenticated order stream, already decoded from JSON:
      the `event` field and the `data` map from pair to its orders. */
  datatype Frame<O> = Frame(event: Option<string>, data: Option<map<string, seq<O>>>)

  const ActiveOrders := "ACTIVE_ORDERS"

  /** The orders a frame carries for `pair`; None when the frame is not an
      ACTIVE_ORDERS push or has no entry for the pair. */
  function OrdersFor<O>(f: Frame<O>, pair: Option<string>): Option<seq<O>>
  {
    if f.event == Some(ActiveOrders) && f.data.Some? && pair.Some? && pair.value in f.data.value
    then Some(f.data.value[pair.value])
    else None
  }

  /** The exchange: the n-th ticker query is answered `quote(n)`, the n-th
      order request `respond(n)`; `sent` records the order requests in the
      order they were issued. */
  class Exchange {
    const quote: nat -> Price
    const respond: nat -> Response
    var sent: seq<Request>
    var quotesTaken: nat

    constructor (quote: nat -> Price, respond: nat -> Response)
      ensures this.quote == quote && this.respond == respond
      ensures sent == [] && quotesTaken == 0
    {
      this.quote := quote;
      this.respond := respond;
      sent := [];
      quotesTaken := 0;
    }

    /** `get_current_price`: the ticker's last price. */
    method LastPrice() returns (p: Price)
      modifies this`quotesTaken
      ensures p == quote(old(quotesTaken))
      ensures quotesTaken == old(quotesTaken) + 1
    {
      p := quote(quotesTaken);
      quotesTaken := quotesTaken + 1;
    }

    /** Issues one order request and returns the exchange's reply. */
    method Send(r: Request) returns (resp: Response)
      modifies this`sent
      ensures sent == old(sent) + [r]
      ensures resp == respond(|old(sent)|)
    {
      resp := respond(|sent|);
      sent := sent + [r];
    }
  }
}
