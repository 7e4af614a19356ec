/** The ticker-threshold rule of test.py: every ticker push is compared
    with a baseline price recorded on the first push of the session; a rise
    of at least `price_increase_percentage` asks for a sell, a fall of at
    least `price_decrease_percentage` asks for a buy. The order call itself
    is a stub that returns before sending anything. */
module TickerRule {
  import opened Wrappers
  import opened BitoPro

  /** What one ticker push leads to. */
  datatype Decision = PlaceSell | PlaceBuy | Wait

  /** Relative change of `last` against the baseline `recorded`. */
  function ChangeRate(last: real, recorded: real): (r: real)
    requires recorded != 0.0
    ensures last == recorded ==> r == 0.0
    ensures recorded > 0.0 ==> (r >= 0.0 <==> last >= recorded) && (r <= 0.0 <==> last <= recorded)
  {
    (last - recorded) / recorded
  }

  /** The two-armed test on the change rate; the sell arm is tried first. */
  function Decide(rate: real, inc: real, dec: real): (d: Decision)
    ensures d == PlaceSell <==> rate >= 0.0 && rate >= inc
    ensures d == PlaceBuy <==> !(rate >= 0.0 && rate >= inc) && rate <= 0.0 && rate <= -dec
    ensures d == Wait <==> !(rate >= 0.0 && rate >= inc) && !(rate <= 0.0 && rate <= -dec)
  {
    if rate >= 0.0 && rate >= inc then PlaceSell
    else if rate <= 0.0 && rate <= -dec then PlaceBuy
    else Wait
  }

  /** With positive thresholds the rule splits the rates into three bands:
      at or above `inc` sells, at or below `-dec` buys, strictly between
      waits. */
  lemma DecisionBands(rate: real, inc: real, dec: real)
    requires inc > 0.0 && dec > 0.0
    ensures Decide(rate, inc, dec) == PlaceSell <==> rate >= inc
    ensures Decide(rate, inc, dec) == PlaceBuy <==> rate <= -dec
    ensures Decide(rate, inc, dec) == Wait <==> -dec < rate < inc
  {
  }

  /** When both arms hold (a zero change while neither threshold is
      positive) the sell wins, since it is tested first; a buy is chosen
      only when the sell arm failed, the rate being negative or below
      `inc`. */
  lemma SellWinsTie(rate: real, inc: real, dec: real)
    ensures rate == 0.0 && inc <= 0.0 ==> Decide(rate, inc, dec) == PlaceSell
    ensures Decide(rate, inc, dec) == PlaceBuy ==> rate < 0.0 || rate < inc
  {
  }

  /** How one push ends: a decision, or the exception the handler raises. */
  type TickOutcome = Result<Decision>

  /** A ticker push, decoded from JSON: `lastPrice` already converted with
      `float`, and the `pair` the log line prints. Either key may be
      missing. */
  datatype Ticker = Ticker(lastPrice: Option<real>, pair: Option<string>)

  /** The outcome of a push once the handler got past reading its own
      fields: the baseline is the recorded price, or this push's price when
      none is recorded yet. */
  function TickOutcomeOf(baseline: Option<real>, t: Ticker, inc: real, dec: real): TickOutcome
    requires t.lastPrice.Some?
  {
    var recorded := if baseline.None? then t.lastPrice.value else baseline.value;
    if recorded == 0.0 then Failure("ZeroDivisionError")
    else if t.pair.None? then Failure("KeyError")
    else Success(Decide(ChangeRate(t.lastPrice.value, recorded), inc, dec))
  }

  /** The first push of a session sets the baseline to its own price, so
      its change rate is 0: it trades only when a threshold is not
      positive. */
  lemma FirstTickRate(t: Ticker, inc: real, dec: real)
    requires t.lastPrice.Some? && t.lastPrice.value != 0.0 && t.pair.Some?
    ensures TickOutcomeOf(None, t, inc, dec) == Success(Decide(0.0, inc, dec))
    ensures inc > 0.0 && dec > 0.0 ==> TickOutcomeOf(None, t, inc, dec) == Success(Wait)
  {
    assert ChangeRate(t.lastPrice.value, t.lastPrice.value) == 0.0;
  }

  /** Once a baseline is recorded, every later push is judged against it
      alone: two pushes with the same price decide alike, whatever came
      between them. */
  lemma RecordedBaselineDecides(b: real, t: Ticker, u: Ticker, inc: real, dec: real)
    requires t.lastPrice.Some? && t.lastPrice == u.lastPrice && t.pair.Some? && u.pair.Some?
    ensures TickOutcomeOf(Some(b), t, inc, dec) == TickOutcomeOf(Some(b), u, inc, dec)
    ensures b > 0.0 && inc > 0.0 ==>
              (TickOutcomeOf(Some(b), t, inc, dec) == Success(PlaceSell) <==> t.lastPrice.value >= b * (1.0 + inc))
  {
    if b > 0.0 && inc > 0.0 {
      var p := t.lastPrice.value;
      var rate := ChangeRate(p, b);
      DecisionBands(rate, inc, if dec > 0.0 then dec else 1.0);
      assert rate >= inc <==> p - b >= inc * b by {
        assert rate * b == p - b;
      }
    }
  }

  /** The `trade_ws_manager` object. It has no `__init__`: until `start`
      runs none of its fields exists, which `started` records. */
  class TickerWatcher {
    var started: bool
    var pair: string
    var orderSize: real
    var increase: real
    var decrease: real
    var lastRecordedPrice: Option<real>
    var startTime: string

    constructor ()
      ensures !started
    {
      started := false;
      pair, orderSize, increase, decrease, startTime := "", 0.0, 0.0, 0.0, "";
      lastRecordedPrice := None;
    }

    /** `start` up to the point where it blocks: the parameters are stored
        and the baseline forgotten. */
    method Start(newPair: string, size: real, up: real, down: real, now: string)
      modifies this
      ensures started && lastRecordedPrice.None?
      ensures pair == newPair && orderSize == size && increase == up && decrease == down && startTime == now
    {
      started := true;
      pair, orderSize, increase, decrease := newPair, size, up, down;
      lastRecordedPrice := None;
      startTime := now;
    }

    /** `place_order`: prints its argument and returns None before any
        request is built. */
    method PlaceOrder(action: Action) returns (r: Option<string>)
      ensures r.None?
    {
      r := None;
    }

    /** `on_message` for one ticker push. */
    method OnMessage(t: Ticker) returns (outcome: TickOutcome)
      modifies this`lastRecordedPrice
      ensures t.lastPrice.None? ==> outcome == Failure("KeyError") && lastRecordedPrice == old(lastRecordedPrice)
      ensures t.lastPrice.Some? && !started ==> outcome == Failure("AttributeError") && lastRecordedPrice == old(lastRecordedPrice)
      ensures t.lastPrice.Some? && started ==>
        && outcome == TickOutcomeOf(old(lastRecordedPrice), t, increase, decrease)
        && lastRecordedPrice == (if old(lastRecordedPrice).None? then t.lastPrice else old(lastRecordedPrice))
    {
      if t.lastPrice.None? {
        return Failure("KeyError");
      }
      var last := t.lastPrice.value;
      if !started {
        return Failure("AttributeError");
      }
      if lastRecordedPrice.None? {
        lastRecordedPrice := Some(last);
      }
      var recorded := lastRecordedPrice.value;
      if recorded == 0.0 {
        return Failure("ZeroDivisionError");
      }
      var rate := (last - recorded) / recorded;
      if t.pair.None? {
        return Failure("KeyError");
      }
      var d := Decide(rate, increase, decrease);
      if d == PlaceSell {
        var _ := PlaceOrder(Sell);
      } else if d == PlaceBuy {
        var _ := PlaceOrder(Buy);
      }
      outcome := Success(d);
    }

    /** `stop`: closing the socket raises AttributeError before `start`. */
    method Stop() returns (outcome: Outcome)
      ensures outcome == if started then Success(()) else Failure("AttributeError")
    {
      outcome := if started then Success(()) else Failure("AttributeError");
    }
  }
}
