/** The Binance helpers of bi.py: the symbol list and the sorted traded
    base assets of `exchangeInfo` (the same transforms as trade/binance.py),
    and the fee total of one order's trades. */
module Bi {
  import opened Wrappers
  import opened Seqs
  import BinanceInfo

  /** `get_all_symbols`: every entry's symbol in input order; KeyError when
      `symbols`, or the `symbol` of an entry, is missing. */
  function GetAllSymbols(info: BinanceInfo.ExchangeInfo): (r: Result<seq<string>>)
    ensures info.symbols.None? ==> r.Failure?
    ensures r.Success? <==>
      info.symbols.Some? && forall i :: 0 <= i < |info.symbols.value| ==> info.symbols.value[i].symbol.Some?
    ensures r.Failure? ==> r.error == "KeyError"
    ensures r.Success? ==>
      var ss := info.symbols.value;
      && (forall i :: 0 <= i < |ss| ==> ss[i].symbol.Some?)
      && |r.value| == |ss|
      && forall i :: 0 <= i < |ss| ==> r.value[i] == ss[i].symbol.value
  {
    BinanceInfo.GetAllPairs(info)
  }

  /** `get_all_base_assets_from_exchange_info`: the TRADING entries' base
      assets, each once, in ascending string order; nothing when `symbols`
      is missing. */
  function GetAllBaseAssetsFromExchangeInfo(info: BinanceInfo.ExchangeInfo): (r: Result<seq<string>>)
    ensures info.symbols.None? ==> r == Success([])
    ensures r.Success? <==> info.symbols.None? || BinanceInfo.Readable(info.symbols.value)
    ensures r.Failure? ==> r.error == "KeyError"
    ensures r.Success? ==> forall i, j :: 0 <= i < j < |r.value| ==> r.value[i] != r.value[j]
    ensures r.Success? ==> BinanceInfo.StrictlyAscending(r.value)
    ensures r.Success? && info.symbols.Some? ==>
      forall a :: a in r.value <==> BinanceInfo.TradedBase(info.symbols.value, a)
  {
    var r := BinanceInfo.GetAllBaseAssets(info);
    if r.Success? then
      BinanceInfo.AscendingDistinct(r.value);
      r
    else r
  }

  /** A trade's `commission`: missing (counted as 0), a decimal amount, or a
      string `Decimal` refuses, which raises inside the `try`. */
  datatype Commission = Absent | Amount(value: real) | Malformed

  /** One element of the `myTrades` reply. */
  datatype Trade = Trade(commission: Commission, commissionAsset: Option<string>)

  /** The `myTrades` reply: its status code and, on 200, the trades. */
  datatype TradesResponse = TradesResponse(status: int, trades: seq<Trade>)

  predicate IsMalformed(t: Trade) { t.commission.Malformed? }

  /** `Decimal(t.get('commission', 0))` for a commission `Decimal` accepts. */
  function CommissionValue(c: Commission): real
    requires !c.Malformed?
  {
    if c.Absent? then 0.0 else c.value
  }

  predicate WellFormed(ts: seq<Trade>)
  {
    forall i :: 0 <= i < |ts| ==> !IsMalformed(ts[i])
  }

  /** The exact sum of the commissions of `ts`, the missing ones counting 0. */
  function FeeSum(ts: seq<Trade>): real
    requires WellFormed(ts)
    decreases |ts|
  {
    if ts == [] then 0.0 else FeeSum(ts[..|ts| - 1]) + CommissionValue(ts[|ts| - 1].commission)
  }

  /** The fee of two runs of trades is the sum of their fees: the total does
      not depend on how the reply is split. */
  lemma {:induction false} FeeSumAppend(xs: seq<Trade>, ys: seq<Trade>)
    requires WellFormed(xs) && WellFormed(ys)
    ensures WellFormed(xs + ys)
    ensures FeeSum(xs + ys) == FeeSum(xs) + FeeSum(ys)
    decreases |ys|
  {
    if ys == [] {
      assert xs + ys == xs;
    } else {
      var ys' := ys[..|ys| - 1];
      FeeSumAppend(xs, ys');
      assert (xs + ys)[..|xs + ys| - 1] == xs + ys';
    }
  }

  /** A reply whose trades all lack a commission totals 0; amounts that are
      not negative give a total that is not negative. */
  lemma {:induction false} FeeSumBounds(ts: seq<Trade>)
    requires WellFormed(ts)
    ensures (forall i :: 0 <= i < |ts| ==> ts[i].commission.Absent?) ==> FeeSum(ts) == 0.0
    ensures (forall i :: 0 <= i < |ts| ==> CommissionValue(ts[i].commission) >= 0.0) ==> FeeSum(ts) >= 0.0
    decreases |ts|
  {
    if ts != [] {
      FeeSumBounds(ts[..|ts| - 1]);
    }
  }

  /** A trade without a commission adds nothing to the total. */
  lemma FeeSumAbsent(ts: seq<Trade>, t: Trade)
    requires WellFormed(ts) && t.commission.Absent?
    ensures WellFormed(ts + [t])
    ensures FeeSum(ts + [t]) == FeeSum(ts)
  {
    assert (ts + [t])[..|ts|] == ts;
  }

  /** The fee symbol after visiting `ts`: the last trade's `commissionAsset`,
      None when there was no trade. */
  function LastAsset(ts: seq<Trade>): Option<string>
  {
    if ts == [] then None else ts[|ts| - 1].commissionAsset
  }

  /** `get_fee_info_from_trades` once the signed request has been answered;
      None stands for a request that raised. Any exception inside the `try`
      is caught and the totals gathered so far are returned, so a refused
      commission ends the sum before its trade, whose asset is not read. */
  method GetFeeInfoFromTrades(response: Option<TradesResponse>) returns (fee: real, feeSymbol: Option<string>)
    ensures response.None? || response.value.status != 200 ==> fee == 0.0 && feeSymbol == None
    ensures response.Some? && response.value.status == 200 ==>
      var ts := response.value.trades;
      var k := FirstWhere(ts, IsMalformed);
      && WellFormed(ts[..k])
      && fee == FeeSum(ts[..k])
      && feeSymbol == LastAsset(ts[..k])
    ensures response.Some? && response.value.status == 200 && WellFormed(response.value.trades) ==>
      fee == FeeSum(response.value.trades) && feeSymbol == LastAsset(response.value.trades)
  {
    fee := 0.0;
    feeSymbol := None;
    if response.None? || response.value.status != 200 {
      return;
    }
    var ts := response.value.trades;
    var i := 0;
    while i < |ts|
      invariant 0 <= i <= |ts|
      invariant forall j :: 0 <= j < i ==> !IsMalformed(ts[j])
      invariant fee == FeeSum(ts[..i]) && feeSymbol == LastAsset(ts[..i])
    {
      if ts[i].commission.Malformed? {
        return;
      }
      assert ts[..i + 1][..i] == ts[..i];
      fee := fee + (if ts[i].commission.Absent? then 0.0 else ts[i].commission.value);
      feeSymbol := ts[i].commissionAsset;
      i := i + 1;
    }
    assert ts[..i] == ts;
  }
}
