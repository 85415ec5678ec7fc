/** Valuation of a stock position (`Stock.get_value`, `Stock.get_profit`).
    The stored closing-price series is an abstract non-empty sequence whose
    last element is the latest price. */
module Valuation {
  import opened Wrappers
  import opened Stocks

  /** Why `get_profit` raised: no dividend to read a stored balance from
      (an `IndexError` on `[-1]`), or a relative profit over a zero cost
      (a `ZeroDivisionError` for Python floats; a numpy scalar value would
      instead divide to an infinity or NaN without raising). */
  datatype ProfitError = NoDividends | ZeroCost

  /** The latest stored unit price. */
  function Latest(prices: seq<real>): real
    requires |prices| > 0
  {
    prices[|prices| - 1]
  }

  /** `get_value`: the latest unit price, or the value of the whole cached
      holding. */
  function Value(s: Stock, prices: seq<real>, unit: bool): (r: real)
    requires |prices| > 0
    ensures unit ==> r == Latest(prices)
    ensures !unit ==> r == Latest(prices) * s.quantity
  {
    var unitValue := Latest(prices);
    if !unit then unitValue * s.quantity else unitValue
  }

  /** The full value of a consistent stock counts every purchased share and
      every reinvested share at the latest price. */
  lemma ValueCountsRecordedShares(s: Stock, prices: seq<real>)
    requires |prices| > 0
    requires Consistent(s)
    ensures Value(s, prices, false)
         == Value(s, prices, true) * (SumOf(s.purchases, LotQuantity) + SumOf(s.dividends, SharesGranted))
  {
  }

  /** The holding's value, plus the last dividend's uninvested balance when
      `storedBalance` holds. */
  function Worth(s: Stock, prices: seq<real>, storedBalance: bool): real
    requires |prices| > 0
    requires storedBalance ==> |s.dividends| > 0
  {
    var value := Value(s, prices, false);
    if storedBalance then value + s.dividends[|s.dividends| - 1].balance else value
  }

  /** `get_profit`: absolute profit `worth - cost`, or relative profit
      `worth / cost - 1`, where cost sums every lot's cost under the
      brokerage flag. The stored balance is read from the last dividend, so
      it needs one. */
  function Profit(s: Stock, prices: seq<real>, storedBalance: bool, brokerage: bool, relative: bool)
    : (r: Result<real, ProfitError>)
    requires |prices| > 0
    ensures r == Failure(NoDividends) <==> storedBalance && |s.dividends| == 0
    ensures r == Failure(ZeroCost)
        <==> !(storedBalance && |s.dividends| == 0) && relative && TotalCost(s.purchases, brokerage) == 0.0
    ensures r.Success? ==>
      r.value * (if relative then TotalCost(s.purchases, brokerage) else 1.0)
      == Worth(s, prices, storedBalance) - TotalCost(s.purchases, brokerage)
  {
    var cost := TotalCost(PurchaseHistory(s), brokerage);
    if storedBalance && |DividendHistory(s)| == 0 then
      Failure(NoDividends)
    else
      var value := Worth(s, prices, storedBalance);
      if !relative then
        Success(value - cost)
      else if cost == 0.0 then
        Failure(ZeroCost)
      else
        assert (value / cost - 1.0) * cost == value - cost;
        Success(value / cost - 1.0)
  }

  /** Absolute and relative profit agree: whenever the relative profit
      exists, it is the absolute profit divided by the cost. */
  lemma RelativeProfitScalesAbsolute(s: Stock, prices: seq<real>, storedBalance: bool, brokerage: bool)
    requires |prices| > 0
    ensures Profit(s, prices, storedBalance, brokerage, true).Success?
        <==> Profit(s, prices, storedBalance, brokerage, false).Success?
             && TotalCost(s.purchases, brokerage) != 0.0
    ensures Profit(s, prices, storedBalance, brokerage, true).Success? ==>
      Profit(s, prices, storedBalance, brokerage, true).value
      == Profit(s, prices, storedBalance, brokerage, false).value / TotalCost(s.purchases, brokerage)
  {
  }

  /** Counting brokerage as cost lowers the absolute profit of a consistent
      stock by exactly its cached total brokerage. */
  lemma BrokerageLowersProfit(s: Stock, prices: seq<real>, storedBalance: bool)
    requires |prices| > 0
    requires Consistent(s)
    requires storedBalance ==> |s.dividends| > 0
    ensures Profit(s, prices, storedBalance, true, false).Success?
    ensures Profit(s, prices, storedBalance, true, false).value
         == Profit(s, prices, storedBalance, false, false).value - s.brokerage
  {
    TotalCostWithBrokerage(s.purchases);
  }

  /** Including the stored balance adds exactly the last dividend's
      uninvested balance to the absolute profit. */
  lemma StoredBalanceAddsLastDividend(s: Stock, prices: seq<real>, brokerage: bool)
    requires |prices| > 0
    requires |s.dividends| > 0
    ensures Profit(s, prices, true, brokerage, false).Success?
    ensures Profit(s, prices, true, brokerage, false).value
         == Profit(s, prices, false, brokerage, false).value + s.dividends[|s.dividends| - 1].balance
  {
  }

  /** `get_profit()` with its default arguments: stored balance included,
      brokerage excluded, absolute. It fails exactly when no dividend has
      been recorded. */
  function DefaultProfit(s: Stock, prices: seq<real>): (r: Result<real, ProfitError>)
    requires |prices| > 0
    ensures r.Failure? <==> |s.dividends| == 0
    ensures r.Failure? ==> r.error == NoDividends
    ensures r.Success? ==> r.value == Worth(s, prices, true) - TotalCost(s.purchases, false)
  {
    Profit(s, prices, true, false, false)
  }

  /** A newly created stock has no dividends, so the default profit query
      fails on it until a dividend is recorded. */
  lemma NewStockDefaultProfitFails(symbol: string, name: string, quantity: real, date: string,
                                   unitCost: real, brokerage: real, prices: seq<real>)
    requires |prices| > 0
    ensures var r := NewStock(symbol, name, Some(quantity), Some(date), Some(unitCost), Some(brokerage));
            r.Success? && DefaultProfit(r.value, prices) == Failure(NoDividends)
  {
  }

  /** Two purchases, a reinvested dividend, then a profit query at price 7:
      15 shares plus 1 reinvested, brokerage 2, cost 82 with brokerage,
      worth 7 * 16 + 0.5 = 112.5, profit 30.5. */
  lemma ReinvestmentScenario()
    ensures var s0 := NewStock("ABC", "Example", Some(10.0), Some("2020-01-01"), Some(5.0), Some(1.0));
            && s0.Success?
            && var s1 := AddQuantity(s0.value, 5.0, "2020-02-01", 6.0, 1.0);
               && s1.quantity == 15.0 && s1.brokerage == 2.0
               && TotalCost(s1.purchases, true) == 82.0
               && var s2 := AddDividend(s1, Reinvestment, 1.0, "2020-03-01", 0.5);
                  && s2.quantity == 16.0
                  && Profit(s2, [7.0], true, true, false) == Success(30.5)
  {
    var s0 := NewStock("ABC", "Example", Some(10.0), Some("2020-01-01"), Some(5.0), Some(1.0));
    var s1 := AddQuantity(s0.value, 5.0, "2020-02-01", 6.0, 1.0);
    var lots := s1.purchases;
    assert lots[1..][1..] == [];
    assert SumOf(lots[1..][1..], LotCostWithBrokerage) == 0.0;
    assert SumOf(lots[1..], LotCostWithBrokerage) == 31.0;
    assert TotalCost(lots, true) == 82.0;
    var s2 := AddDividend(s1, Reinvestment, 1.0, "2020-03-01", 0.5);
    assert Worth(s2, [7.0], true) == 112.5;
  }

  /** A relative profit over a cost basis of zero is reported as an error. */
  lemma ZeroCostScenario()
    ensures var s := NewStock("ABC", "Example", Some(10.0), Some("2020-01-01"), Some(0.0), Some(1.0));
            && s.Success?
            && Profit(s.value, [7.0], false, false, true) == Failure(ZeroCost)
  {
    var s := NewStock("ABC", "Example", Some(10.0), Some("2020-01-01"), Some(0.0), Some(1.0));
    assert s.value.purchases[1..] == [];
  }
}
