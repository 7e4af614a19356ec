/** The payload transforms of trade/binance.py: the symbol list and the
    sorted set of traded base assets of Binance's `exchangeInfo`, and the
    non-empty balances of an account reply. */
module BinanceInfo {
  import opened Wrappers
  import StringOrder

  /** One entry of `exchangeInfo["symbols"]`; each key may be missing. */
  datatype SymbolInfo = SymbolInfo(symbol: Option<string>, baseAsset: Option<string>, status: Option<string>)

  /** The decoded `exchangeInfo` body; the `symbols` key may be missing. */
  datatype ExchangeInfo = ExchangeInfo(symbols: Option<seq<SymbolInfo>>)

  const Trading := "TRADING"

  /** `[s['symbol'] for s in symbols]`: every entry's symbol in order, or
      KeyError when some entry has none. */
  function Symbols(ss: seq<SymbolInfo>): (r: Result<seq<string>>)
    ensures r.Success? <==> forall i :: 0 <= i < |ss| ==> ss[i].symbol.Some?
    ensures r.Success? ==> |r.value| == |ss| && forall i :: 0 <= i < |ss| ==> r.value[i] == ss[i].symbol.value
    ensures r.Failure? ==> r.error == "KeyError"
  {
    if ss == [] then Success([])
    else if ss[0].symbol.None? then Failure("KeyError")
    else
      var rest := Symbols(ss[1..]);
      if rest.Failure? then rest
      else
        assert forall i :: 1 <= i < |ss| ==> ss[i] == ss[1..][i - 1];
        Success([ss[0].symbol.value] + rest.value)
  }

  /** `get_all_pairs`: `data['symbols']` raises KeyError when missing. */
  function GetAllPairs(info: ExchangeInfo): (r: Result<seq<string>>)
    ensures info.symbols.None? ==> r == Failure("KeyError")
    ensures r.Success? <==>
      info.symbols.Some? && forall i :: 0 <= i < |info.symbols.value| ==> info.symbols.value[i].symbol.Some?
    ensures r.Failure? ==> r.error == "KeyError"
    ensures r.Success? ==>
      var ss := info.symbols.value;
      |r.value| == |ss| && forall i :: 0 <= i < |ss| ==> r.value[i] == ss[i].symbol.value
  {
    if info.symbols.None? then Failure("KeyError") else Symbols(info.symbols.value)
  }

  /** The comprehension's reads do not fail: every entry has a status, and
      every TRADING entry a base asset. */
  predicate Readable(ss: seq<SymbolInfo>)
  {
    forall i :: 0 <= i < |ss| ==> ss[i].status.Some? && (ss[i].status == Some(Trading) ==> ss[i].baseAsset.Some?)
  }

  predicate TradedBase(ss: seq<SymbolInfo>, a: string)
  {
    exists i :: 0 <= i < |ss| && ss[i].status == Some(Trading) && ss[i].baseAsset == Some(a)
  }

  /** The base assets of the TRADING entries, in input order and with
      repeats, as the set comprehension visits them. */
  function TradingBases(ss: seq<SymbolInfo>): (r: Result<seq<string>>)
    ensures r.Success? <==> Readable(ss)
    ensures r.Success? ==> forall a :: a in r.value <==> TradedBase(ss, a)
    ensures r.Failure? ==> r.error == "KeyError"
  {
    if ss == [] then Success([])
    else if ss[0].status.None? then Failure("KeyError")
    else if ss[0].status == Some(Trading) && ss[0].baseAsset.None? then Failure("KeyError")
    else
      var rest := TradingBases(ss[1..]);
      if rest.Failure? then rest
      else
        assert forall i :: 1 <= i < |ss| ==> ss[i] == ss[1..][i - 1];
        assert forall a :: TradedBase(ss[1..], a) ==> TradedBase(ss, a) by {
          forall a | TradedBase(ss[1..], a) ensures TradedBase(ss, a) {
            var i :| 0 <= i < |ss[1..]| && ss[1..][i].status == Some(Trading) && ss[1..][i].baseAsset == Some(a);
            assert ss[i + 1] == ss[1..][i];
          }
        }
        Success((if ss[0].status == Some(Trading) then [ss[0].baseAsset.value] else []) + rest.value)
  }

  /** Strictly ascending under Python's string order, hence free of repeats. */
  predicate StrictlyAscending(t: seq<string>)
  {
    forall i, j :: 0 <= i < j < |t| ==> StringOrder.Less(t[i], t[j])
  }

  /** `x` added to an ascending list without repeats. */
  function InsertUnique(t: seq<string>, x: string): seq<string>
    decreases |t|
  {
    if t == [] then [x]
    else if x == t[0] then t
    else if StringOrder.Less(x, t[0]) then [x] + t
    else [t[0]] + InsertUnique(t[1..], x)
  }

  /** `sorted(set(xs))`. */
  function SortedSet(xs: seq<string>): seq<string>
    decreases |xs|
  {
    if xs == [] then [] else InsertUnique(SortedSet(xs[..|xs| - 1]), xs[|xs| - 1])
  }

  lemma {:induction false} InsertUniqueMembers(t: seq<string>, x: string)
    ensures forall y :: y in InsertUnique(t, x) <==> y in t || y == x
    decreases |t|
  {
    if t != [] && x != t[0] && !StringOrder.Less(x, t[0]) {
      InsertUniqueMembers(t[1..], x);
      assert t == [t[0]] + t[1..];
    }
  }

  lemma {:induction false} InsertUniqueAscending(t: seq<string>, x: string)
    requires StrictlyAscending(t)
    ensures StrictlyAscending(InsertUnique(t, x))
    decreases |t|
  {
    if t == [] || x == t[0] {
    } else if StringOrder.Less(x, t[0]) {
      var r := [x] + t;
      forall i, j | 0 <= i < j < |r|
        ensures StringOrder.Less(r[i], r[j])
      {
        if i == 0 && j > 1 {
          StringOrder.LessTransitive(x, t[0], t[j - 1]);
        } else if i > 0 {
          assert r[i] == t[i - 1] && r[j] == t[j - 1];
        }
      }
    } else {
      var r' := InsertUnique(t[1..], x);
      assert StrictlyAscending(t[1..]) by {
        forall i, j | 0 <= i < j < |t[1..]|
          ensures StringOrder.Less(t[1..][i], t[1..][j])
        {
          assert t[1..][i] == t[i + 1] && t[1..][j] == t[j + 1];
        }
      }
      InsertUniqueAscending(t[1..], x);
      InsertUniqueMembers(t[1..], x);
      StringOrder.LessTotal(x, t[0]);
      var r := [t[0]] + r';
      forall i, j | 0 <= i < j < |r|
        ensures StringOrder.Less(r[i], r[j])
      {
        if i == 0 {
          var e := r'[j - 1];
          assert e in r';
          if e != x {
            var k :| 0 <= k < |t[1..]| && t[1..][k] == e;
            assert t[k + 1] == e;
          }
        } else {
          assert r[i] == r'[i - 1] && r[j] == r'[j - 1];
        }
      }
    }
  }

  /** `sorted(set(xs))` is strictly ascending, so without repeats, and holds
      exactly the elements of `xs`. */
  lemma {:induction false} SortedSetSpec(xs: seq<string>)
    ensures StrictlyAscending(SortedSet(xs))
    ensures forall y :: y in SortedSet(xs) <==> y in xs
    decreases |xs|
  {
    if xs != [] {
      var init := xs[..|xs| - 1];
      SortedSetSpec(init);
      InsertUniqueAscending(SortedSet(init), xs[|xs| - 1]);
      InsertUniqueMembers(SortedSet(init), xs[|xs| - 1]);
      assert xs == init + [xs[|xs| - 1]];
    }
  }

  /** A strictly ascending list has no repeats. */
  lemma AscendingDistinct(t: seq<string>)
    requires StrictlyAscending(t)
    ensures forall i, j :: 0 <= i < j < |t| ==> t[i] != t[j]
  {
    forall i, j | 0 <= i < j < |t|
      ensures t[i] != t[j]
    {
      StringOrder.LessIrreflexive(t[i]);
    }
  }

  /** `get_all_base_assets`: `.get('symbols', [])`, then the sorted set of
      the TRADING entries' base assets. */
  function GetAllBaseAssets(info: ExchangeInfo): (r: Result<seq<string>>)
    ensures info.symbols.None? ==> r == Success([])
    ensures r.Success? <==> info.symbols.None? || Readable(info.symbols.value)
    ensures r.Failure? ==> r.error == "KeyError"
    ensures r.Success? ==> StrictlyAscending(r.value)
    ensures r.Success? && info.symbols.Some? ==> forall a :: a in r.value <==> TradedBase(info.symbols.value, a)
  {
    var ss := if info.symbols.Some? then info.symbols.value else [];
    var bases := TradingBases(ss);
    if bases.Failure? then bases
    else
      SortedSetSpec(bases.value);
      Success(SortedSet(bases.value))
  }

  /** One element of `balances`, with `free` and `locked` already read as
      numbers. */
  datatype Balance = Balance(asset: string, free: real, locked: real)

  predicate IsHeld(b: Balance)
  {
    b.free > 0.0 || b.locked > 0.0
  }

  /** The balances `get_account_balance` keeps, in input order. */
  function Held(bs: seq<Balance>): seq<Balance>
    decreases |bs|
  {
    if bs == [] then []
    else
      var init := Held(bs[..|bs| - 1]);
      if IsHeld(bs[|bs| - 1]) then init + [bs[|bs| - 1]] else init
  }

  /** Exactly the held balances are kept. */
  lemma {:induction false} HeldMembers(bs: seq<Balance>)
    ensures forall b :: b in Held(bs) <==> b in bs && IsHeld(b)
    decreases |bs|
  {
    if bs != [] {
      var init := bs[..|bs| - 1];
      HeldMembers(init);
      assert bs == init + [bs[|bs| - 1]];
    }
  }

  /** The filter keeps input order: it distributes over concatenation. */
  lemma {:induction false} HeldAppend(xs: seq<Balance>, ys: seq<Balance>)
    ensures Held(xs + ys) == Held(xs) + Held(ys)
    decreases |ys|
  {
    if ys == [] {
      assert xs + ys == xs;
    } else {
      var ys' := ys[..|ys| - 1];
      HeldAppend(xs, ys');
      assert (xs + ys)[..|xs + ys| - 1] == xs + ys';
    }
  }

  /** The account reply: status code, the `balances` key (may be missing)
      and the raw body text. */
  datatype AccountResponse = AccountResponse(status: int, balances: Option<seq<Balance>>, text: string)

  /** The list of kept balances, or `{'status': 'error', 'message': text}`. */
  datatype BalanceReply = Holdings(assets: seq<Balance>) | ErrorReply(status: string, message: string)

  /** `get_account_balance` once the signed request has been answered. */
  method GetAccountBalance(resp: AccountResponse) returns (r: BalanceReply)
    ensures resp.status == 200 ==>
      r == Holdings(Held(if resp.balances.Some? then resp.balances.value else []))
    ensures resp.status != 200 ==> r == ErrorReply("error", resp.text)
  {
    if resp.status != 200 {
      return ErrorReply("error", resp.text);
    }
    var balances := if resp.balances.Some? then resp.balances.value else [];
    var result := [];
    var i := 0;
    while i < |balances|
      invariant 0 <= i <= |balances|
      invariant result == Held(balances[..i])
    {
      assert balances[..i + 1][..i] == balances[..i];
      if balances[i].free > 0.0 || balances[i].locked > 0.0 {
        result := result + [balances[i]];
      }
      i := i + 1;
    }
    assert balances[..i] == balances;
    r := Holdings(result);
  }
}
