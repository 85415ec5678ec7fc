# Stock position and cash account ledgers

A Dafny model of the two ledger engines of a personal finance tracker.

**Stock position ledger.** This is class `Stock` in `general_finance.py`. A stock keeps two append-only logs:
- purchase/sale lots (`Purchase`; a sale has a negative quantity);
- dividend instalments (`Dividend`; a `DEPOSIT` is paid in cash, a `REINVESTMENT` in shares).

Two aggregates are cached next to the logs: the owned quantity and the total brokerage paid. The model also covers:
- the unit and full value of the holding at the latest stored price;
- the absolute or relative profit;
- the symbol and name lookup tables of `StocksAccount`.

The central property is that the cached aggregates always equal a pure recomputation from the two logs. This holds after creation and after every sequence of `add_quantity`/`add_dividend` calls.

**Cash account ledger.** This is `Account` and `Transaction` in `tests/old/general_finance.py`.
- An account keeps a running balance plus parallel balance and time histories.
- A transaction debits a tracked sender and credits a tracked receiver. Each side is best-effort: an untracked party is skipped.

Modelling choices:
- Money and quantities are exact `real`s. The source uses Python floats.
- The price series is a non-empty `seq<real>` whose last element is the latest close.
- Stock dates are strings, because the source stores `str(date)`.
- Cash-account dates are a calendar `Date` (year, month, day). The source passes a `datetime`; its time of day is not modelled.
- Raised exceptions become `Result` failures.
- Python object references between transactions and accounts become keys into a ledger map. This means a transfer from an account to itself is covered too.
- The stocks saved in the account's store collection are a map of their own, kept apart from the in-memory symbol map. The two can differ after a failed `delete_stock`.

Files:
- `wrappers.dfy`: `Option` and `Result`.
- `stocks.dfy`: lots, dividends, the stock record, recomputation, consistency, creation and histories.
- `valuation.dfy`: `get_value` and `get_profit`.
- `stocks_account.dfy`: the symbol→stock and name→symbol maps.
- `cash_account.dfy`: accounts and transactions.

Behaviours of the code that the model reproduces as written:
- `get_profit` with `stored_balance` (the default) reads `[-1]` of the dividend list, so it raises `IndexError` for a stock with no dividends. The model reports this as the `NoDividends` error.
- `add_stock`'s docstring says a stock is added as a purchase. When the store already holds the symbol, though, `Stock.__init__` takes its existing-stock branch (general_finance.py:271-283): the saved stock is reloaded, the purchase arguments are ignored, and the name map still gets `name → symbol`. The branch tests the store's item list, not the in-memory symbol map; the model's store holds the saved stocks of that list (see `Portfolio.AddStock` under "## Left out" for the one other item).
- Lots and dividends are not validated: no sign checks and no cap on sales. The model therefore has no such preconditions.
- `delete_stock` pops the symbol entry, then the name entry, then deletes the store item. When the name entry is missing, it raises after the first pop. `DeleteOutcome` records the partly updated state: the stock is gone from memory but still in the store.

## Model

| member | source | states |
|---|---|---|
| `Stocks.Cost` | general_finance.py:223-228 | a lot costs `unit_cost * quantity`, plus its own brokerage exactly when the flag is set |
| `Stocks.TotalCostWithBrokerage` | general_finance.py:330-332 | summed over all lots, counting brokerage raises the cost by exactly the sum of the lots' brokerage |
| `Stocks.Fresh` | general_finance.py:253-264 | a new stock's metadata records the given symbol and name, quantity 0, brokerage 0 and empty logs, and is consistent with its logs |
| `Stocks.AddQuantity` | general_finance.py:354-360 | quantity rises by `quantity` and brokerage by `brokerage`; exactly that one purchase is appended at the end; dividends, symbol and name are unchanged |
| `Stocks.AddDividend` | general_finance.py:341-352 | exactly one dividend is appended; quantity rises by `amount` for a reinvestment and is unchanged for a deposit; purchases and brokerage are untouched |
| `Stocks.AddQuantityKeepsConsistent` | general_finance.py:354-360 | if the cache matched the recomputation before the call, it still matches after it |
| `Stocks.AddDividendKeepsConsistent` | general_finance.py:341-352 | if the cache matched the recomputation before the call, it still matches after it |
| `Stocks.ReplayKeepsConsistent` | general_finance.py:341-360 | every sequence of `add_quantity`/`add_dividend` calls keeps cached quantity = Σ lot quantities + Σ reinvested shares, and cached brokerage = Σ lot brokerage |
| `Stocks.ReplayAppendsInOrder` | general_finance.py:349-359 | the logs are append-only: a call sequence appends exactly its lots and its dividends, in call order, and keeps symbol and name |
| `Stocks.FreshReplayAggregates` | general_finance.py:258-264 | from fresh metadata, the cached aggregates after any call sequence equal the sums over the lots and dividends those calls recorded |
| `Stocks.NewStock` | general_finance.py:254-270 | creation fails exactly when quantity, date, unit cost or brokerage is missing; on success the stock holds exactly that one purchase, no dividends, matching aggregates, and is consistent |
| `Stocks.PurchaseHistoryAsWritten` | general_finance.py:299-302 | as written, the history succeeds only for an empty purchase list, and then it is empty |
| `Stocks.NewStockHistoryAsWrittenFails` | general_finance.py:299-302 | every successfully created stock makes the as-written history fail |
| `Stocks.PurchaseHistory` | general_finance.py:299-302 | the intended history lists the stored purchases, element by element, in insertion order |
| `Stocks.DividendHistory` | general_finance.py:304-307 | the history lists the stored dividends, element by element, in insertion order |
| `Stocks.HistoriesListCallsInOrder` | general_finance.py:299-307 | after any call sequence, both histories are the earlier history followed by the recorded lots (or dividends) in call order |
| `Valuation.Value` | general_finance.py:309-315 | `unit` gives the last price; otherwise the last price times the cached owned quantity |
| `Valuation.ValueCountsRecordedShares` | general_finance.py:309-315 | for a consistent stock, the full value is the last price times (Σ lot quantities + Σ reinvested shares) |
| `Valuation.Profit` | general_finance.py:317-339 | fails with `NoDividends` exactly when a stored balance is asked for with no dividends; fails with `ZeroCost` exactly when a relative profit has zero cost; otherwise profit × (cost if relative, else 1) = worth − cost |
| `Valuation.DefaultProfit` | general_finance.py:317-335 | `get_profit()` with its defaults (stored balance, no brokerage, absolute) fails exactly when no dividend is recorded, always with `NoDividends`, and otherwise is worth including the last balance minus the brokerage-free cost |
| `Valuation.NewStockDefaultProfitFails` | general_finance.py:317-335 | on every newly created stock the default profit query fails with `NoDividends` |
| `Valuation.RelativeProfitScalesAbsolute` | general_finance.py:337-339 | a relative profit exists iff the absolute one does and the cost is non-zero; it then equals absolute profit / cost |
| `Valuation.BrokerageLowersProfit` | general_finance.py:330-332 | for a consistent stock, counting brokerage lowers the absolute profit by exactly the cached total brokerage |
| `Valuation.StoredBalanceAddsLastDividend` | general_finance.py:334-335 | including the stored balance adds exactly the last dividend's uninvested balance |
| `Valuation.ReinvestmentScenario` | general_finance.py:317-360 | buying 10@5 and 5@6 (brokerage 1 each), then a reinvestment of 1 share with 0.5 left over: quantity 15 then 16, brokerage 2, cost 82, profit at price 7 is 30.5 |
| `Valuation.ZeroCostScenario` | general_finance.py:337-338 | a relative profit over a zero cost basis is the `ZeroCost` error |
| `Portfolio.GetStock` | general_finance.py:483-488 | the key is looked up as a symbol first, then through the name map; it fails exactly when neither finds a held stock |
| `Portfolio.GetStockFindsSymbolOrName` | general_finance.py:483-488 | in a well-formed account, a key finds a stock iff it is a held symbol or a recorded name, and the stock found carries the key as its symbol or name |
| `Portfolio.AddStock` | general_finance.py:457-463 | a symbol the store lacks gets the created stock (its one purchase, no dividends, that lot's quantity and brokerage as aggregates) in memory and in the store plus `name → symbol`, or fails exactly when purchase data is missing; a symbol the store holds is reloaded from it, ignoring the purchase arguments, and gains the name entry; no other stock changes |
| `Portfolio.AddStockKeepsWellFormed` | general_finance.py:457-463 | adding a stock keeps the maps and the store consistent (when a re-added saved symbol repeats its saved name) |
| `Portfolio.AddedStockIsFound` | general_finance.py:457-463 | after `add_stock` the stock is found by its symbol, and by its name unless that name is itself a held symbol |
| `Portfolio.DeleteStock` | general_finance.py:465-471 | an unknown key raises and changes nothing; a found stock is deleted iff its symbol and name entries are both present, and deletion removes exactly those entries and its store item, leaving every other entry unchanged; a missing name entry raises after the symbol entry is gone, with the store untouched |
| `Portfolio.DeleteStockKeepsWellFormed` | general_finance.py:465-471 | in a well-formed account, deletion by symbol or name removes that stock and leaves the maps and the store consistent whatever the outcome |
| `Portfolio.FailedDeleteThenReAddReloads` | general_finance.py:254-274 | two stocks sharing a name: deleting both leaves the first in the store after its delete raises, and adding its symbol again reloads its original purchase instead of the new one |
| `CashAccounts.NewAccount` | tests/old/general_finance.py:5-22 | number, name, finder and balance are stored unchanged; both histories start empty |
| `CashAccounts.NewDefaultAccount` | tests/old/general_finance.py:5-22 | without a balance argument the balance is 0; the identity is stored unchanged and both histories start empty |
| `CashAccounts.ChangeBalance` | tests/old/general_finance.py:24-36 | balance becomes old balance + change; each history grows by one entry (the new balance, the date); earlier entries and identity are kept; the history stays in step with the balance |
| `CashAccounts.ApplyChangesRecordsRunningBalances` | tests/old/general_finance.py:34-36 | any sequence of changes moves the balance by their total; it appends the running balance after each change and each date, in call order |
| `CashAccounts.NewAccountHistoryCountsCalls` | tests/old/general_finance.py:17-36 | for a new account, after any sequence of changes each history has one entry per call and the last balance entry equals the balance |
| `CashAccounts.ChangeBalanceScenario` | test_suite/general_finance_test.py:40-56 | opening at 500 and changing by 10, 20, −30 gives balance 500, history [510, 530, 500], dates in call order, identity unchanged |
| `CashAccounts.Settle` | tests/old/general_finance.py:79-84 | one side of a transaction: a party with an account has its balance changed; any other party is skipped and the ledger is unchanged |
| `CashAccounts.PerformTransaction` | tests/old/general_finance.py:77-84 | a tracked sender is debited and a tracked receiver credited; a self-transfer applies the debit and then the credit to the one account; every account that is not a party is unchanged |
| `CashAccounts.NewTransaction` | tests/old/general_finance.py:50-75 | the transaction stores its fields unchanged and the ledger is exactly the result of performing it; non-parties are unchanged |
| `CashAccounts.TransactionConservesBalance` | tests/old/general_finance.py:77-84 | with two distinct tracked parties: the sender loses the amount, the receiver gains it, and their combined balance is conserved; a self-transfer keeps the balance and adds two history entries |
| `CashAccounts.UntrackedPartyIsSkipped` | tests/old/general_finance.py:53-55 | with an untracked party, the transaction is exactly the other side's change alone |
| `CashAccounts.TransactionKeepsHistories` | tests/old/general_finance.py:77-84 | a transaction keeps every account's last history entry equal to its balance |

## Left out

- `Stock.get_data` is not modelled: HTTP requests to the market-data API, a busy-wait rate-limit retry and DataFrame reshaping. The price series is a parameter instead.
- Persistence is modelled only as the set of saved stocks, by symbol. The price table written with each save, the store's file layout and `StocksAccount._load_stocks` are not modelled.
- Portfolio.AddStock: the store holds only saved stocks. The account's collection also holds its own `transactions` item, which `Account.save` writes (general_finance.py:141) and `_load_stocks` skips (line 451). `add_stock("transactions", …)` on a saved account would take the existing-stock branch at line 254 and wrap that item as a stock, or fail in the price refresh. The model treats the symbol `transactions` as unsaved and creates a fresh stock.
- The price refresh in the existing-stock branch of `Stock.__init__` is not modelled. `AddStock` reloads the saved stock as it is.
- Extra `**metadata` keys merged into a new stock's metadata are not modelled. They are free-form store metadata; a key that clashes with a cached aggregate would override it.
- `Account` in general_finance.py (store lookup, `add_data`, `overwrite_data`, `get_balance`, `plot`) is left out. It is plumbing over the store and DataFrames.
- `StocksAccount.add_quantity`/`add_dividend` are left out: they lack `self` and cannot be called. The per-stock `AddQuantity`/`AddDividend` are modelled instead.
- `__str__`/`__repr__` are left out: they only format output.
- `accounts_from_data` is left out: it does file I/O and is unfinished.
- The duplicate draft tests/general_finance.py is left out: it does not parse. The CSV/plotting scripts (tests/pystore_test.py, tests/pystore_test2.py, tests/plot.py, tests/stocks.py) are left out too.
- Floating-point rounding is not modelled: arithmetic is exact.
- Valuation.Value: takes the last close of the price series. As written, line 312 indexes `tail(1)[0]`, which selects a column labelled `0` from a table whose only column is 'Daily Close'. That would raise `KeyError`, so `get_value` and `get_profit` would fail on every stock. The model gives the evident intent instead.
- Valuation.Profit: reports `ZeroCost` for a relative profit over zero cost. That matches Python floats; if the value is a numpy scalar, the division gives an infinity or NaN instead of raising.
- Default arguments are modelled as explicit parameters: `add_dividend(balance=0.0)`, `Transaction(reason=None, tags=None, unit='$')`, `Account(current_bal=0)` (`NewDefaultAccount`) and `get_profit(stored_balance=True, brokerage=False, relative=False)` (`DefaultProfit`).
- Dividend types other than the two constants are not modelled. The source treats any value other than `REINVESTMENT` like a deposit.
- `Transaction` fields `reason`, `tags` and `unit` are stored only; nothing reads them.
- A tracked party whose key is missing from the ledger is skipped. It stands for any object whose `change_balance` call raises and is swallowed.

## Findings

| source | as written | input that shows it | evidently intended | confidence | as-written member | corrected member |
|---|---|---|---|---|---|---|
| general_finance.py:299-302 | the comprehension iterates `kwargs` but reads `purchase`, an unbound name, so `get_purchase_history` raises `NameError` for any non-empty purchase list; `get_profit` calls it after `get_value` and so fails there too | any stock created with one purchase, e.g. quantity 10, date "2020-01-01", unit cost 5, brokerage 1 | return the stored purchases in insertion order | high, not executed | `Stocks.PurchaseHistoryAsWritten` (`Stocks.NewStockHistoryAsWrittenFails`) | `Stocks.PurchaseHistory` (`Stocks.HistoriesListCallsInOrder`), used by `Valuation.Profit` |
