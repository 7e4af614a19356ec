/** The open-order listing of search_order.py: the orders the exchange
    reports as open are split into a BUY and a SELL list of
    `{action, id, price}` entries, and each list is sorted by its price
    string, highest first, with Python's stable sort. */
module OpenOrders {
  import opened Wrappers
  import opened BitoPro
  import StringOrder

  /** An element of the response's `data` list; each key read with
      `order.get(...)`, so each may be absent. */
  datatype OpenOrder = OpenOrder(action: Option<string>, id: Option<string>, price: Option<string>)

  /** An entry of `buy_orders` or `sell_orders`. */
  datatype Entry = Entry(action: Action, id: Option<string>, price: Option<string>)

  function ActionName(a: Action): string
  {
    match a
    case Buy => "BUY"
    case Sell => "SELL"
  }

  predicate OnSide(o: OpenOrder, a: Action)
  {
    o.action == Some(ActionName(a))
  }

  function EntryOf(o: OpenOrder, a: Action): Entry
  {
    Entry(a, o.id, o.price)
  }

  /** The list the loop builds for side `a`: one entry per order of that
      side, in input order. */
  function EntriesOf(os: seq<OpenOrder>, a: Action): seq<Entry>
    decreases |os|
  {
    if os == [] then []
    else
      var init := EntriesOf(os[..|os| - 1], a);
      if OnSide(os[|os| - 1], a) then init + [EntryOf(os[|os| - 1], a)] else init
  }

  /** Every entry comes from an order of its side, copied field by field. */
  lemma {:induction false} EntriesOfSound(os: seq<OpenOrder>, a: Action)
    ensures forall e | e in EntriesOf(os, a) ::
              e.action == a && exists i :: 0 <= i < |os| && OnSide(os[i], a) && e == EntryOf(os[i], a)
    decreases |os|
  {
    if os != [] {
      var init := os[..|os| - 1];
      EntriesOfSound(init, a);
      forall e | e in EntriesOf(os, a)
        ensures e.action == a && exists i :: 0 <= i < |os| && OnSide(os[i], a) && e == EntryOf(os[i], a)
      {
        if e in EntriesOf(init, a) {
          var i :| 0 <= i < |init| && OnSide(init[i], a) && e == EntryOf(init[i], a);
          assert os[i] == init[i];
        } else {
          assert e == EntryOf(os[|os| - 1], a);
        }
      }
    }
  }

  /** Every order of side `a` has its entry in that side's list. */
  lemma {:induction false} EntriesOfComplete(os: seq<OpenOrder>, a: Action)
    ensures forall i | 0 <= i < |os| && OnSide(os[i], a) :: EntryOf(os[i], a) in EntriesOf(os, a)
    decreases |os|
  {
    if os != [] {
      var init := os[..|os| - 1];
      EntriesOfComplete(init, a);
      forall i | 0 <= i < |os| && OnSide(os[i], a)
        ensures EntryOf(os[i], a) in EntriesOf(os, a)
      {
        if i < |os| - 1 {
          assert os[i] == init[i];
        }
      }
    }
  }

  /** The split keeps input order: the entries of a concatenation are the
      entries of each part, one after the other. */
  lemma {:induction false} EntriesOfAppend(xs: seq<OpenOrder>, ys: seq<OpenOrder>, a: Action)
    ensures EntriesOf(xs + ys, a) == EntriesOf(xs, a) + EntriesOf(ys, a)
    decreases |ys|
  {
    if ys == [] {
      assert xs + ys == xs;
    } else {
      var ys' := ys[..|ys| - 1];
      EntriesOfAppend(xs, ys', a);
      assert (xs + ys)[..|xs + ys| - 1] == xs + ys';
    }
  }

  /** The sort key; a missing price only matters when it is compared, and
      then the listing raises before any order is used (`Unsortable`). */
  function Key(e: Entry): string
  {
    if e.price.Some? then e.price.value else ""
  }

  /** `list.sort` compares keys as soon as the list has two elements, and a
      None price cannot be compared with anything. */
  predicate Unsortable(t: seq<Entry>)
  {
    |t| >= 2 && exists i :: 0 <= i < |t| && t[i].price.None?
  }

  /** No entry's price is above an earlier one's. */
  predicate NonIncreasing(t: seq<Entry>)
  {
    forall i, j :: 0 <= i < j < |t| ==> !StringOrder.Less(Key(t[i]), Key(t[j]))
  }

  /** `x` placed after every entry whose price is not below its own. */
  function Insert(t: seq<Entry>, x: Entry): seq<Entry>
    decreases |t|
  {
    if t == [] then [x]
    else if StringOrder.Less(Key(t[0]), Key(x)) then [x] + t
    else [t[0]] + Insert(t[1..], x)
  }

  /** What `sort(key=lambda x: x['price'], reverse=True)` leaves: highest
      price first, entries with equal prices in their original order. */
  function SortDesc(s: seq<Entry>): seq<Entry>
    decreases |s|
  {
    if s == [] then [] else Insert(SortDesc(s[..|s| - 1]), s[|s| - 1])
  }

  /** The entries of `t` whose price is `k`, in order. */
  function WithKey(t: seq<Entry>, k: string): seq<Entry>
    decreases |t|
  {
    if t == [] then []
    else (if Key(t[0]) == k then [t[0]] else []) + WithKey(t[1..], k)
  }

  lemma {:induction false} WithKeyAppend(a: seq<Entry>, b: seq<Entry>, k: string)
    ensures WithKey(a + b, k) == WithKey(a, k) + WithKey(b, k)
    decreases |a|
  {
    if a == [] {
      assert a + b == b;
    } else {
      WithKeyAppend(a[1..], b, k);
      assert (a + b)[0] == a[0] && (a + b)[1..] == a[1..] + b;
      var h := if Key(a[0]) == k then [a[0]] else [];
      assert WithKey(a + b, k) == h + (WithKey(a[1..], k) + WithKey(b, k));
      assert h + (WithKey(a[1..], k) + WithKey(b, k)) == (h + WithKey(a[1..], k)) + WithKey(b, k);
    }
  }

  /** In a non-increasing list whose head is below `k`, no entry has price `k`. */
  lemma {:induction false} NoneAtKey(t: seq<Entry>, k: string)
    requires NonIncreasing(t) && t != [] && StringOrder.Less(Key(t[0]), k)
    ensures WithKey(t, k) == []
    decreases |t|
  {
    StringOrder.LessIrreflexive(k);
    if |t| > 1 {
      StringOrder.LessTotal(Key(t[1]), Key(t[0]));
      if Key(t[1]) != Key(t[0]) {
        StringOrder.LessTransitive(Key(t[1]), Key(t[0]), k);
      }
      NoneAtKey(t[1..], k);
    }
  }

  lemma {:induction false} InsertPermutes(t: seq<Entry>, x: Entry)
    ensures multiset(Insert(t, x)) == multiset(t) + multiset{x}
    decreases |t|
  {
    if t != [] {
      InsertPermutes(t[1..], x);
      assert t == [t[0]] + t[1..];
    }
  }

  /** `x` in front of a non-increasing list whose head is below it. */
  lemma InsertAtFront(t: seq<Entry>, x: Entry)
    requires NonIncreasing(t) && t != [] && StringOrder.Less(Key(t[0]), Key(x))
    ensures NonIncreasing([x] + t)
  {
    var r := [x] + t;
    forall i, j | 0 <= i < j < |r|
      ensures !StringOrder.Less(Key(r[i]), Key(r[j]))
    {
      if i == 0 {
        var e := t[j - 1];
        if StringOrder.Less(Key(x), Key(e)) {
          // e is at most t[0], which is below x
          StringOrder.LessTotal(Key(e), Key(t[0]));
          if Key(e) != Key(t[0]) {
            StringOrder.LessTransitive(Key(x), Key(e), Key(t[0]));
          }
          StringOrder.LessTransitive(Key(x), Key(t[0]), Key(x));
          StringOrder.LessIrreflexive(Key(x));
        }
      } else {
        assert r[i] == t[i - 1] && r[j] == t[j - 1];
      }
    }
  }

  /** `h` in front of a non-increasing list none of whose entries is above it. */
  lemma ConsSorted(h: Entry, t: seq<Entry>)
    requires NonIncreasing(t)
    requires forall e | e in multiset(t) :: !StringOrder.Less(Key(h), Key(e))
    ensures NonIncreasing([h] + t)
  {
    var r := [h] + t;
    forall i, j | 0 <= i < j < |r|
      ensures !StringOrder.Less(Key(r[i]), Key(r[j]))
    {
      if i == 0 {
        assert r[j] in multiset(t);
      } else {
        assert r[i] == t[i - 1] && r[j] == t[j - 1];
      }
    }
  }

  lemma {:induction false} InsertSorted(t: seq<Entry>, x: Entry)
    requires NonIncreasing(t)
    ensures NonIncreasing(Insert(t, x))
    decreases |t|
  {
    if t == [] {
    } else if StringOrder.Less(Key(t[0]), Key(x)) {
      InsertAtFront(t, x);
    } else {
      var r' := Insert(t[1..], x);
      assert NonIncreasing(t[1..]) by {
        forall i, j | 0 <= i < j < |t[1..]|
          ensures !StringOrder.Less(Key(t[1..][i]), Key(t[1..][j]))
        {
          assert t[1..][i] == t[i + 1] && t[1..][j] == t[j + 1];
        }
      }
      InsertSorted(t[1..], x);
      InsertPermutes(t[1..], x);
      forall e | e in multiset(r')
        ensures !StringOrder.Less(Key(t[0]), Key(e))
      {
        if e != x {
          assert e in multiset(t[1..]);
          var k :| 0 <= k < |t[1..]| && t[1..][k] == e;
          assert t[k + 1] == e;
        }
      }
      ConsSorted(t[0], r');
    }
  }

  /** Sorting yields a non-increasing list with the same entries. */
  lemma {:induction false} SortDescSorted(s: seq<Entry>)
    ensures NonIncreasing(SortDesc(s))
    ensures multiset(SortDesc(s)) == multiset(s)
    decreases |s|
  {
    if s != [] {
      var init := s[..|s| - 1];
      SortDescSorted(init);
      InsertSorted(SortDesc(init), s[|s| - 1]);
      InsertPermutes(SortDesc(init), s[|s| - 1]);
      assert s == init + [s[|s| - 1]];
    }
  }

  lemma {:induction false} InsertStable(t: seq<Entry>, x: Entry, k: string)
    requires NonIncreasing(t)
    ensures WithKey(Insert(t, x), k) == WithKey(t, k) + WithKey([x], k)
    decreases |t|
  {
    if t == [] {
    } else if StringOrder.Less(Key(t[0]), Key(x)) {
      WithKeyAppend([x], t, k);
      if Key(x) == k {
        NoneAtKey(t, k);
      }
    } else {
      InsertStable(t[1..], x, k);
      WithKeyAppend([t[0]], Insert(t[1..], x), k);
      WithKeyAppend([t[0]], t[1..], k);
      assert t == [t[0]] + t[1..];
    }
  }

  /** The sort is stable: for every price, the entries with that price keep
      their input order. */
  lemma {:induction false} SortDescStable(s: seq<Entry>, k: string)
    ensures WithKey(SortDesc(s), k) == WithKey(s, k)
    decreases |s|
  {
    if s != [] {
      var init := s[..|s| - 1];
      SortDescStable(init, k);
      SortDescSorted(init);
      InsertStable(SortDesc(init), s[|s| - 1], k);
      WithKeyAppend(init, [s[|s| - 1]], k);
      assert s == init + [s[|s| - 1]];
    }
  }

  /** What the script prints when it does not raise: "No orders.", or the
      two sorted sides. */
  datatype Listing =
    | NoOrders
    | Sides(sells: seq<Entry>, buys: seq<Entry>)

  /** The loop of search_order.py that splits the open orders by action. */
  method Partition(os: seq<OpenOrder>) returns (buys: seq<Entry>, sells: seq<Entry>)
    ensures buys == EntriesOf(os, Buy) && sells == EntriesOf(os, Sell)
  {
    buys, sells := [], [];
    var i := 0;
    while i < |os|
      invariant 0 <= i <= |os|
      invariant buys == EntriesOf(os[..i], Buy) && sells == EntriesOf(os[..i], Sell)
    {
      assert os[..i + 1][..i] == os[..i];
      var o := os[i];
      if o.action == Some("BUY") {
        buys := buys + [Entry(Buy, o.id, o.price)];
      } else if o.action == Some("SELL") {
        sells := sells + [Entry(Sell, o.id, o.price)];
      }
      i := i + 1;
    }
    assert os[..i] == os;
  }

  /** The listing for the decoded `data` field: `len(None)` raises
      TypeError, an empty list stops with "No orders.", otherwise both sides
      are built and sorted. */
  method SearchOpenOrders(data: Option<seq<OpenOrder>>) returns (r: Result<Listing>)
    ensures data.None? ==> r == Failure("TypeError")
    ensures data == Some([]) ==> r == Success(NoOrders)
    ensures data.Some? && data.value != [] ==>
      var buys := EntriesOf(data.value, Buy);
      var sells := EntriesOf(data.value, Sell);
      r == if Unsortable(buys) || Unsortable(sells) then Failure("TypeError") else Success(Sides(SortDesc(sells), SortDesc(buys)))
  {
    if data.None? {
      return Failure("TypeError");
    }
    if |data.value| == 0 {
      return Success(NoOrders);
    }
    var buys, sells := Partition(data.value);
    if Unsortable(buys) || Unsortable(sells) {
      return Failure("TypeError");
    }
    r := Success(Sides(SortDesc(sells), SortDesc(buys)));
  }
}
