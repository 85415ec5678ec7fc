/** The stock lookup tables of `StocksAccount` in general_finance.py: a map
    from symbol to stock and a map from display name to symbol, together
    with the stocks saved in the account's store collection. The store is
    kept apart from the symbol map because a failed `delete_stock` removes a
    stock from memory but not from the store, and `add_stock` decides
    between creating and reloading a stock by what the store holds. */
module Portfolio {
  import opened Wrappers
  import opened Stocks

  /** `stocks` is `_stocks`, `names` is `_names`, `stored` is the stock
      items saved in the collection, by symbol. */
  datatype StocksAccount = StocksAccount(
    stocks: map<string, Stock>,
    names: map<string, string>,
    stored: map<string, Stock>)

  /** `NotFound` is the `KeyError` of an unknown symbol or name;
      `NotCreated` is the exception `Stock.__init__` raises for a new stock;
      `NameNotIndexed` is the `KeyError` of popping a stock's name that the
      name map no longer holds. */
  datatype PortfolioError = NotFound | NotCreated(cause: StockError) | NameNotIndexed

  /** Every saved stock is filed under its own symbol and keeps its
      aggregates consistent; every held stock is the saved one (each update
      saves); every name leads to a held stock that carries that name. */
  predicate WellFormed(a: StocksAccount)
  {
    && (forall sym | sym in a.stored :: a.stored[sym].symbol == sym && Consistent(a.stored[sym]))
    && (forall sym | sym in a.stocks :: sym in a.stored && a.stocks[sym] == a.stored[sym])
    && (forall n | n in a.names :: a.names[n] in a.stocks && a.stocks[a.names[n]].name == n)
  }

  /** `get_stock`: look the key up as a symbol, and otherwise as a name. */
  function GetStock(a: StocksAccount, key: string): (r: Result<Stock, PortfolioError>)
    ensures key in a.stocks ==> r == Success(a.stocks[key])
    ensures key !in a.stocks && key in a.names && a.names[key] in a.stocks ==>
              r == Success(a.stocks[a.names[key]])
    ensures r.Failure? <==> key !in a.stocks && (key !in a.names || a.names[key] !in a.stocks)
    ensures r.Failure? ==> r.error == NotFound
  {
    if key in a.stocks then Success(a.stocks[key])
    else if key in a.names && a.names[key] in a.stocks then Success(a.stocks[a.names[key]])
    else Failure(NotFound)
  }

  /** In a well-formed account a key finds a stock exactly when it is a held
      symbol or a recorded name, and the stock found carries the key as its
      symbol or as its name. */
  lemma GetStockFindsSymbolOrName(a: StocksAccount, key: string)
    requires WellFormed(a)
    ensures GetStock(a, key).Success? <==> key in a.stocks || key in a.names
    ensures GetStock(a, key).Success? ==>
      GetStock(a, key).value.symbol == key || GetStock(a, key).value.name == key
  {
  }

  /** `add_stock`: construct the stock and file it under both maps. A symbol
      the store already holds takes the existing-stock branch of
      `Stock.__init__`: the saved stock is reloaded and the purchase
      arguments are ignored, but the name entry is still written. A new
      stock is saved by its first purchase. */
  function AddStock(a: StocksAccount, symbol: string, name: string, quantity: Option<real>,
                    date: Option<string>, unitCost: Option<real>, brokerage: Option<real>)
    : (r: Result<StocksAccount, PortfolioError>)
    ensures symbol in a.stored ==>
      r == Success(a.(stocks := a.stocks[symbol := a.stored[symbol]], names := a.names[name := symbol]))
    ensures symbol !in a.stored ==>
      (r.Success? <==> quantity.Some? && date.Some? && unitCost.Some? && brokerage.Some?)
    ensures r.Failure? ==> r.error == NotCreated(MissingPurchaseData)
    ensures r.Success? ==>
      && r.value.names == a.names[name := symbol]
      && r.value.stocks.Keys == a.stocks.Keys + {symbol}
      && r.value.stored.Keys == a.stored.Keys + {symbol}
      && r.value.stocks[symbol] == r.value.stored[symbol]
      && (forall sym | sym in a.stocks && sym != symbol :: r.value.stocks[sym] == a.stocks[sym])
      && (forall sym | sym in a.stored && sym != symbol :: r.value.stored[sym] == a.stored[sym])
    ensures r.Success? && symbol !in a.stored ==>
      && r.value.stocks[symbol].symbol == symbol
      && r.value.stocks[symbol].name == name
      && r.value.stocks[symbol].purchases
         == [Purchase(quantity.value, date.value, unitCost.value, brokerage.value)]
      && r.value.stocks[symbol].dividends == []
      && r.value.stocks[symbol].quantity == quantity.value
      && r.value.stocks[symbol].brokerage == brokerage.value
    ensures r.Success? && symbol !in a.stored ==>
      r.value.stocks[symbol] == NewStock(symbol, name, quantity, date, unitCost, brokerage).value
  {
    if symbol in a.stored then
      Success(a.(stocks := a.stocks[symbol := a.stored[symbol]], names := a.names[name := symbol]))
    else
      match NewStock(symbol, name, quantity, date, unitCost, brokerage)
      case Failure(e) => Failure(NotCreated(e))
      case Success(s) => Success(StocksAccount(a.stocks[symbol := s], a.names[name := symbol], a.stored[symbol := s]))
  }

  /** Adding a stock keeps the account well formed, provided that re-adding
      a saved symbol repeats its saved name (otherwise the name map gains an
      alias that `delete_stock` will not remove). */
  lemma AddStockKeepsWellFormed(a: StocksAccount, symbol: string, name: string, quantity: Option<real>,
                                date: Option<string>, unitCost: Option<real>, brokerage: Option<real>)
    requires WellFormed(a)
    requires symbol in a.stored ==> a.stored[symbol].name == name
    ensures var r := AddStock(a, symbol, name, quantity, date, unitCost, brokerage);
            r.Success? ==> WellFormed(r.value)
  {
  }

  /** After a successful `add_stock` the new stock is found by its symbol,
      and by its name unless that name is itself a held symbol. */
  lemma AddedStockIsFound(a: StocksAccount, symbol: string, name: string, quantity: Option<real>,
                          date: Option<string>, unitCost: Option<real>, brokerage: Option<real>)
    requires AddStock(a, symbol, name, quantity, date, unitCost, brokerage).Success?
    ensures var b := AddStock(a, symbol, name, quantity, date, unitCost, brokerage).value;
            && GetStock(b, symbol) == Success(b.stocks[symbol])
            && (name !in b.stocks ==> GetStock(b, name) == Success(b.stocks[symbol]))
  {
  }

  /** What `delete_stock` leaves behind: the account after a complete
      deletion, or the error raised together with the (possibly partly
      updated) account at the moment it was raised. */
  datatype DeleteOutcome =
    | Deleted(account: StocksAccount)
    | Raised(error: PortfolioError, account: StocksAccount)

  /** `delete_stock`: find the stock by symbol or name, pop its symbol entry,
      pop its name entry, then delete its item from the store. The name pop
      can raise after the symbol pop has taken effect, and the store item
      then survives. */
  function DeleteStock(a: StocksAccount, key: string): (r: DeleteOutcome)
    ensures GetStock(a, key).Failure? ==> r == Raised(NotFound, a)
    ensures r.Raised? ==> r.error == NotFound || r.error == NameNotIndexed
    ensures r.Raised? && r.error == NotFound ==> r.account == a
    ensures GetStock(a, key).Success? ==>
      var s := GetStock(a, key).value;
      && (r.Deleted? <==> s.symbol in a.stocks && s.name in a.names)
      && (r.Raised? && r.error == NameNotIndexed <==> s.symbol in a.stocks && s.name !in a.names)
    ensures r.Deleted? ==>
      var s := GetStock(a, key).value;
      && r.account.stocks.Keys == a.stocks.Keys - {s.symbol}
      && r.account.names.Keys == a.names.Keys - {s.name}
      && r.account.stored.Keys == a.stored.Keys - {s.symbol}
      && (forall sym | sym in r.account.stocks :: r.account.stocks[sym] == a.stocks[sym])
      && (forall n | n in r.account.names :: r.account.names[n] == a.names[n])
      && (forall sym | sym in r.account.stored :: r.account.stored[sym] == a.stored[sym])
    ensures r.Raised? && r.error == NameNotIndexed ==>
      var s := GetStock(a, key).value;
      r.account == a.(stocks := a.stocks - {s.symbol})
  {
    match GetStock(a, key)
    case Failure(_) => Raised(NotFound, a)
    case Success(s) =>
      if s.symbol !in a.stocks then Raised(NotFound, a)
      else
        var popped := a.(stocks := a.stocks - {s.symbol});
        if s.name !in a.names then Raised(NameNotIndexed, popped)
        else Deleted(popped.(names := a.names - {s.name}, stored := a.stored - {s.symbol}))
  }

  /** In a well-formed account, deleting any held symbol or recorded name
      removes that stock, and whatever the outcome the account stays well
      formed: no name is left pointing at the removed symbol. */
  lemma DeleteStockKeepsWellFormed(a: StocksAccount, key: string)
    requires WellFormed(a)
    ensures WellFormed(DeleteStock(a, key).account)
    ensures key in a.stocks || key in a.names ==>
      GetStock(a, key).Success? && GetStock(a, key).value.symbol !in DeleteStock(a, key).account.stocks
  {
  }

  /** Two stocks share a name; deleting the second removes the shared name
      entry, so deleting the first raises after dropping it from memory but
      before deleting it from the store. Adding its symbol again then
      reloads the saved stock, with its original purchase, and ignores the
      new purchase arguments. */
  lemma FailedDeleteThenReAddReloads()
    ensures
      var empty := StocksAccount(map[], map[], map[]);
      var a1 := AddStock(empty, "A", "X", Some(10.0), Some("d1"), Some(5.0), Some(1.0));
      && a1.Success?
      && var a2 := AddStock(a1.value, "B", "X", Some(1.0), Some("d2"), Some(2.0), Some(0.0));
         && a2.Success?
         && var d1 := DeleteStock(a2.value, "B");
            && d1.Deleted?
            && var d2 := DeleteStock(d1.account, "A");
               && d2 == Raised(NameNotIndexed, d2.account)
               && "A" !in d2.account.stocks && "A" in d2.account.stored
               && var a3 := AddStock(d2.account, "A", "Y", Some(3.0), Some("d3"), Some(7.0), Some(0.0));
                  && a3.Success?
                  && a3.value.stocks["A"].purchases == [Purchase(10.0, "d1", 5.0, 1.0)]
                  && a3.value.names["Y"] == "A"
  {
    var sa := Stock("A", "X", [Purchase(10.0, "d1", 5.0, 1.0)], [], 10.0, 1.0);
    var sb := Stock("B", "X", [Purchase(1.0, "d2", 2.0, 0.0)], [], 1.0, 0.0);
    var b1 := StocksAccount(map["A" := sa], map["X" := "A"], map["A" := sa]);
    var b2 := StocksAccount(map["A" := sa, "B" := sb], map["X" := "B"], map["A" := sa, "B" := sb]);
    var c1 := StocksAccount(map["A" := sa], map[], map["A" := sa]);
    var c2 := StocksAccount(map[], map[], map["A" := sa]);
    ReloadStep1(sa, b1);
    ReloadStep2(sa, sb, b1, b2);
    ReloadStep3(sa, sb, b2, c1);
    ReloadStep4(sa, c1, c2);
    ReloadStep5(sa, c2);
  }

  lemma ReloadStep1(sa: Stock, b1: StocksAccount)
    requires sa == Stock("A", "X", [Purchase(10.0, "d1", 5.0, 1.0)], [], 10.0, 1.0)
    requires b1 == StocksAccount(map["A" := sa], map["X" := "A"], map["A" := sa])
    ensures AddStock(StocksAccount(map[], map[], map[]), "A", "X", Some(10.0), Some("d1"), Some(5.0), Some(1.0))
         == Success(b1)
  {
    var r := AddStock(StocksAccount(map[], map[], map[]), "A", "X", Some(10.0), Some("d1"), Some(5.0), Some(1.0));
    assert r.value.stocks["A"] == sa;
    assert r.value.stocks == b1.stocks;
    assert r.value.stored == b1.stored;
  }

  lemma ReloadStep2(sa: Stock, sb: Stock, b1: StocksAccount, b2: StocksAccount)
    requires sb == Stock("B", "X", [Purchase(1.0, "d2", 2.0, 0.0)], [], 1.0, 0.0)
    requires b1 == StocksAccount(map["A" := sa], map["X" := "A"], map["A" := sa])
    requires b2 == StocksAccount(map["A" := sa, "B" := sb], map["X" := "B"], map["A" := sa, "B" := sb])
    ensures AddStock(b1, "B", "X", Some(1.0), Some("d2"), Some(2.0), Some(0.0)) == Success(b2)
  {
    assert "B" !in b1.stored;
    var r := AddStock(b1, "B", "X", Some(1.0), Some("d2"), Some(2.0), Some(0.0));
    assert r.value.names == b1.names["X" := "B"] == b2.names;
    assert r.value.stocks["B"] == sb;
    assert r.value.stocks == b2.stocks;
    assert r.value.stored == b2.stored;
  }

  lemma ReloadStep3(sa: Stock, sb: Stock, b2: StocksAccount, c1: StocksAccount)
    requires sb == Stock("B", "X", [Purchase(1.0, "d2", 2.0, 0.0)], [], 1.0, 0.0)
    requires b2 == StocksAccount(map["A" := sa, "B" := sb], map["X" := "B"], map["A" := sa, "B" := sb])
    requires c1 == StocksAccount(map["A" := sa], map[], map["A" := sa])
    ensures DeleteStock(b2, "B") == Deleted(c1)
  {
    assert GetStock(b2, "B") == Success(sb);
    assert b2.stocks - {"B"} == c1.stocks;
    assert b2.names - {"X"} == c1.names;
    assert b2.stored - {"B"} == c1.stored;
  }

  lemma ReloadStep4(sa: Stock, c1: StocksAccount, c2: StocksAccount)
    requires sa == Stock("A", "X", [Purchase(10.0, "d1", 5.0, 1.0)], [], 10.0, 1.0)
    requires c1 == StocksAccount(map["A" := sa], map[], map["A" := sa])
    requires c2 == StocksAccount(map[], map[], map["A" := sa])
    ensures DeleteStock(c1, "A") == Raised(NameNotIndexed, c2)
  {
    assert GetStock(c1, "A") == Success(sa);
    assert c1.stocks - {"A"} == c2.stocks;
  }

  lemma ReloadStep5(sa: Stock, c2: StocksAccount)
    requires sa == Stock("A", "X", [Purchase(10.0, "d1", 5.0, 1.0)], [], 10.0, 1.0)
    requires c2 == StocksAccount(map[], map[], map["A" := sa])
    ensures AddStock(c2, "A", "Y", Some(3.0), Some("d3"), Some(7.0), Some(0.0))
         == Success(StocksAccount(map["A" := sa], map["Y" := "A"], map["A" := sa]))
  {
  }
}
