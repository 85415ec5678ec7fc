/** The position ledger of one tracked stock (class `Stock` of
    general_finance.py): an append-only list of purchase/sale lots, an
    append-only list of dividend instalments, and two aggregates cached next
    to them in the stock's metadata, the owned quantity and the total
    brokerage paid. */
module Stocks {
  import opened Wrappers

  /** `Stock.Dividend.DEPOSIT` (paid as cash) or `REINVESTMENT` (paid as shares). */
  datatype DividendType = Deposit | Reinvestment

  /** One dividend instalment. `amount` is dollars for a deposit and shares for
      a reinvestment; `balance` is cash left uninvested by a reinvestment. */
  datatype Dividend = Dividend(kind: DividendType, amount: real, date: string, balance: real)

  /** One purchase, or a sale when `quantity` is negative. */
  datatype Purchase = Purchase(quantity: real, date: string, unitCost: real, brokerage: real)

  /** The stored state of a stock: its identity, the two logs and the cached
      aggregates (`owned_quantity`, `total_brokerage`). */
  datatype Stock = Stock(
    symbol: string,
    name: string,
    purchases: seq<Purchase>,
    dividends: seq<Dividend>,
    quantity: real,
    brokerage: real)

  /** Why creating a new stock failed. */
  datatype StockError = MissingPurchaseData

  /** The amount paid for one lot (`Purchase.get_cost`), with that lot's
      brokerage added exactly when `withBrokerage` holds. */
  function Cost(p: Purchase, withBrokerage: bool): (r: real)
    ensures withBrokerage ==> r - p.brokerage == p.unitCost * p.quantity
    ensures !withBrokerage ==> r == p.unitCost * p.quantity
  {
    var value := p.unitCost * p.quantity;
    if withBrokerage then value + p.brokerage else value
  }

  /** Sum of `f` over a sequence, first element first. */
  function SumOf<T>(xs: seq<T>, f: T -> real): real
  {
    if |xs| == 0 then 0.0 else f(xs[0]) + SumOf(xs[1..], f)
  }

  lemma {:induction false} SumOfAppend<T>(xs: seq<T>, x: T, f: T -> real)
    ensures SumOf(xs + [x], f) == SumOf(xs, f) + f(x)
  {
    if |xs| == 0 {
      assert xs + [x] == [x];
      assert [x][1..] == [];
    } else {
      assert (xs + [x])[0] == xs[0];
      assert (xs + [x])[1..] == xs[1..] + [x];
      SumOfAppend(xs[1..], x, f);
    }
  }

  function LotQuantity(p: Purchase): real { p.quantity }

  function LotBrokerage(p: Purchase): real { p.brokerage }

  /** Shares a dividend adds to the holding: its amount for a reinvestment,
      nothing for a cash deposit. */
  function SharesGranted(d: Dividend): real
  {
    if d.kind == Reinvestment then d.amount else 0.0
  }

  /** Owned quantity recomputed from the logs alone. */
  function RecomputedQuantity(s: Stock): real
  {
    SumOf(s.purchases, LotQuantity) + SumOf(s.dividends, SharesGranted)
  }

  /** Total brokerage recomputed from the logs alone. */
  function RecomputedBrokerage(s: Stock): real
  {
    SumOf(s.purchases, LotBrokerage)
  }

  /** The cached aggregates agree with a recomputation from the logs. */
  predicate Consistent(s: Stock)
  {
    s.quantity == RecomputedQuantity(s) && s.brokerage == RecomputedBrokerage(s)
  }

  /** Total cost of a list of lots, each under the same brokerage flag (the
      `sum(...)` of `get_profit`). */
  function TotalCost(ps: seq<Purchase>, withBrokerage: bool): real
  {
    SumOf(ps, if withBrokerage then LotCostWithBrokerage else LotCost)
  }

  function LotCost(p: Purchase): real { Cost(p, false) }

  function LotCostWithBrokerage(p: Purchase): real { Cost(p, true) }

  /** Including brokerage raises the total cost by exactly the brokerage paid
      on all lots. */
  lemma {:induction false} TotalCostWithBrokerage(ps: seq<Purchase>)
    ensures TotalCost(ps, true) == TotalCost(ps, false) + SumOf(ps, LotBrokerage)
  {
    if |ps| > 0 {
      TotalCostWithBrokerage(ps[1..]);
    }
  }

  /** The metadata a new stock starts from, before its first purchase. */
  function Fresh(symbol: string, name: string): (r: Stock)
    ensures r.symbol == symbol && r.name == name
    ensures r.quantity == 0.0 && r.brokerage == 0.0
    ensures Consistent(r)
    ensures r.purchases == [] && r.dividends == []
  {
    Stock(symbol, name, [], [], 0.0, 0.0)
  }

  /** `Stock.add_quantity`: record a purchase (or a sale, with negative
      quantity) and update both cached aggregates. */
  function AddQuantity(s: Stock, quantity: real, date: string, unitCost: real, brokerage: real): (r: Stock)
    ensures r.purchases == s.purchases + [Purchase(quantity, date, unitCost, brokerage)]
    ensures r.dividends == s.dividends
    ensures r.quantity == s.quantity + quantity
    ensures r.brokerage == s.brokerage + brokerage
    ensures r.symbol == s.symbol && r.name == s.name
  {
    s.(purchases := s.purchases + [Purchase(quantity, date, unitCost, brokerage)],
       quantity := s.quantity + quantity,
       brokerage := s.brokerage + brokerage)
  }

  /** `Stock.add_dividend`: record a dividend; only a reinvestment changes
      the owned quantity. */
  function AddDividend(s: Stock, kind: DividendType, amount: real, date: string, balance: real): (r: Stock)
    ensures r.dividends == s.dividends + [Dividend(kind, amount, date, balance)]
    ensures r.purchases == s.purchases && r.brokerage == s.brokerage
    ensures kind == Reinvestment ==> r.quantity == s.quantity + amount
    ensures kind == Deposit ==> r.quantity == s.quantity
    ensures r.symbol == s.symbol && r.name == s.name
  {
    var d := Dividend(kind, amount, date, balance);
    if kind == Reinvestment then
      s.(dividends := s.dividends + [d], quantity := s.quantity + amount)
    else
      s.(dividends := s.dividends + [d])
  }

  lemma AddQuantityKeepsConsistent(s: Stock, quantity: real, date: string, unitCost: real, brokerage: real)
    requires Consistent(s)
    ensures Consistent(AddQuantity(s, quantity, date, unitCost, brokerage))
  {
    var p := Purchase(quantity, date, unitCost, brokerage);
    SumOfAppend(s.purchases, p, LotQuantity);
    SumOfAppend(s.purchases, p, LotBrokerage);
  }

  lemma AddDividendKeepsConsistent(s: Stock, kind: DividendType, amount: real, date: string, balance: real)
    requires Consistent(s)
    ensures Consistent(AddDividend(s, kind, amount, date, balance))
  {
    SumOfAppend(s.dividends, Dividend(kind, amount, date, balance), SharesGranted);
  }

  /** A call of `add_quantity` or `add_dividend` on a stock. */
  datatype Event =
    | Buy(quantity: real, date: string, unitCost: real, brokerage: real)
    | Pay(kind: DividendType, amount: real, date: string, balance: real)

  function Apply(s: Stock, e: Event): Stock
  {
    match e
    case Buy(q, d, u, b) => AddQuantity(s, q, d, u, b)
    case Pay(k, a, d, b) => AddDividend(s, k, a, d, b)
  }

  /** The effect of a sequence of calls, first call first. */
  function Replay(s: Stock, es: seq<Event>): Stock
    decreases |es|
  {
    if |es| == 0 then s else Replay(Apply(s, es[0]), es[1..])
  }

  /** The lots a sequence of calls records, in call order. */
  function LotsOf(es: seq<Event>): seq<Purchase>
  {
    if |es| == 0 then []
    else (match es[0]
          case Buy(q, d, u, b) => [Purchase(q, d, u, b)]
          case Pay(_, _, _, _) => []) + LotsOf(es[1..])
  }

  /** The dividends a sequence of calls records, in call order. */
  function DividendsOf(es: seq<Event>): seq<Dividend>
  {
    if |es| == 0 then []
    else (match es[0]
          case Buy(_, _, _, _) => []
          case Pay(k, a, d, b) => [Dividend(k, a, d, b)]) + DividendsOf(es[1..])
  }

  /** Every sequence of `add_quantity`/`add_dividend` calls keeps the cached
      aggregates equal to the recomputation from the logs. */
  lemma {:induction false} ReplayKeepsConsistent(s: Stock, es: seq<Event>)
    requires Consistent(s)
    ensures Consistent(Replay(s, es))
    decreases |es|
  {
    if |es| > 0 {
      match es[0] {
        case Buy(q, d, u, b) => AddQuantityKeepsConsistent(s, q, d, u, b);
        case Pay(k, a, d, b) => AddDividendKeepsConsistent(s, k, a, d, b);
      }
      ReplayKeepsConsistent(Apply(s, es[0]), es[1..]);
    }
  }

  /** The logs are append-only: a sequence of calls appends exactly its own
      lots and dividends, in call order, and touches nothing else. */
  lemma {:induction false} ReplayAppendsInOrder(s: Stock, es: seq<Event>)
    ensures Replay(s, es).purchases == s.purchases + LotsOf(es)
    ensures Replay(s, es).dividends == s.dividends + DividendsOf(es)
    ensures Replay(s, es).symbol == s.symbol && Replay(s, es).name == s.name
    decreases |es|
  {
    if |es| == 0 {
      assert s.purchases + [] == s.purchases;
      assert s.dividends + [] == s.dividends;
    } else {
      var t := Apply(s, es[0]);
      ReplayAppendsInOrder(t, es[1..]);
      match es[0]
      case Buy(q, d, u, b) =>
        assert t.purchases == s.purchases + [Purchase(q, d, u, b)];
        assert LotsOf(es) == [Purchase(q, d, u, b)] + LotsOf(es[1..]);
        assert DividendsOf(es) == [] + DividendsOf(es[1..]);
        assert s.purchases + [Purchase(q, d, u, b)] + LotsOf(es[1..])
            == s.purchases + ([Purchase(q, d, u, b)] + LotsOf(es[1..]));
      case Pay(k, a, d, b) =>
        assert t.dividends == s.dividends + [Dividend(k, a, d, b)];
        assert DividendsOf(es) == [Dividend(k, a, d, b)] + DividendsOf(es[1..]);
        assert LotsOf(es) == [] + LotsOf(es[1..]);
        assert s.dividends + [Dividend(k, a, d, b)] + DividendsOf(es[1..])
            == s.dividends + ([Dividend(k, a, d, b)] + DividendsOf(es[1..]));
    }
  }

  /** Starting from a fresh stock (quantity 0, brokerage 0, empty logs), the
      cached owned quantity after any sequence of calls is the sum of the
      recorded lot quantities plus the reinvested shares, and the cached
      brokerage is the sum of the lots' brokerage. */
  lemma FreshReplayAggregates(symbol: string, name: string, es: seq<Event>)
    ensures Replay(Fresh(symbol, name), es).quantity
         == SumOf(LotsOf(es), LotQuantity) + SumOf(DividendsOf(es), SharesGranted)
    ensures Replay(Fresh(symbol, name), es).brokerage == SumOf(LotsOf(es), LotBrokerage)
  {
    var s := Fresh(symbol, name);
    ReplayKeepsConsistent(s, es);
    ReplayAppendsInOrder(s, es);
    assert [] + LotsOf(es) == LotsOf(es);
    assert [] + DividendsOf(es) == DividendsOf(es);
  }

  /** The new-stock branch of `Stock.__init__`: the purchase data must all be
      supplied; the stock then starts from fresh metadata plus that one
      purchase. */
  function NewStock(symbol: string, name: string, quantity: Option<real>, date: Option<string>,
                    unitCost: Option<real>, brokerage: Option<real>): (r: Result<Stock, StockError>)
    ensures r.Success? <==> quantity.Some? && date.Some? && unitCost.Some? && brokerage.Some?
    ensures r.Failure? ==> r.error == MissingPurchaseData
    ensures r.Success? ==>
      && r.value.symbol == symbol && r.value.name == name
      && r.value.purchases == [Purchase(quantity.value, date.value, unitCost.value, brokerage.value)]
      && r.value.dividends == []
      && r.value.quantity == quantity.value
      && r.value.brokerage == brokerage.value
      && Consistent(r.value)
  {
    if quantity.None? || date.None? || unitCost.None? || brokerage.None? then
      Failure(MissingPurchaseData)
    else
      var s := Fresh(symbol, name);
      AddQuantityKeepsConsistent(s, quantity.value, date.value, unitCost.value, brokerage.value);
      Success(AddQuantity(s, quantity.value, date.value, unitCost.value, brokerage.value))
  }

  /** Why `get_purchase_history` fails as written. */
  datatype HistoryError = UnboundName

  /** `get_purchase_history` as written: the comprehension binds `kwargs` but
      reads the unbound name `purchase`, so it raises for every non-empty
      list and returns the empty list otherwise. */
  function PurchaseHistoryAsWritten(s: Stock): (r: Result<seq<Purchase>, HistoryError>)
    ensures r.Success? <==> |s.purchases| == 0
    ensures r.Success? ==> r.value == []
  {
    if |s.purchases| == 0 then Success([]) else Failure(UnboundName)
  }

  /** Every stock created by `Stock.__init__` holds a purchase, so the
      as-written history (and with it `get_profit`) always fails on it. */
  lemma NewStockHistoryAsWrittenFails(symbol: string, name: string, quantity: real, date: string,
                                      unitCost: real, brokerage: real)
    ensures var r := NewStock(symbol, name, Some(quantity), Some(date), Some(unitCost), Some(brokerage));
            r.Success? && PurchaseHistoryAsWritten(r.value) == Failure(UnboundName)
  {
  }

  /** `get_purchase_history` as intended: the stored lots, in insertion order. */
  function PurchaseHistory(s: Stock): (r: seq<Purchase>)
    ensures |r| == |s.purchases|
    ensures forall i :: 0 <= i < |r| ==> r[i] == s.purchases[i]
  {
    s.purchases
  }

  /** `get_dividend_history`: the stored dividends, in insertion order. */
  function DividendHistory(s: Stock): (r: seq<Dividend>)
    ensures |r| == |s.dividends|
    ensures forall i :: 0 <= i < |r| ==> r[i] == s.dividends[i]
  {
    s.dividends
  }

  /** The corrected history of a stock built by any sequence of calls lists
      exactly the recorded lots in call order, and likewise for dividends. */
  lemma HistoriesListCallsInOrder(s: Stock, es: seq<Event>)
    ensures PurchaseHistory(Replay(s, es)) == PurchaseHistory(s) + LotsOf(es)
    ensures DividendHistory(Replay(s, es)) == DividendHistory(s) + DividendsOf(es)
  {
    ReplayAppendsInOrder(s, es);
  }
}
