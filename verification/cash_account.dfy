/** The cash-account ledger of tests/old/general_finance.py: an `Account`
    with a running balance and parallel balance and time histories, and a
    `Transaction` that moves an amount from a sender to a receiver, either of
    which may be an untracked party. Accounts are Python objects shared by
    reference; here they live in a ledger map and a tracked party names its
    account by key, so a transfer between one account and itself is
    modelled too. */
module CashAccounts {
  import opened Wrappers

  /** A calendar date. The source passes a `datetime`; its time of day is
      not modelled, so two times on the same day are equal here. */
  datatype Date = Date(year: int, month: int, day: int)

  /** An account number is an integer or a string. */
  datatype AccountNumber = IntNumber(n: int) | TextNumber(s: string)

  datatype Account = Account(
    number: AccountNumber,
    name: string,
    finder: string,
    balance: real,
    balanceHistory: seq<real>,
    timeHistory: seq<Date>)

  /** `Account.__init__` with an explicit current balance. */
  function NewAccount(number: AccountNumber, name: string, finder: string, currentBal: real): (r: Account)
    ensures r.number == number && r.name == name && r.finder == finder
    ensures r.balance == currentBal
    ensures r.balanceHistory == [] && r.timeHistory == []
  {
    Account(number, name, finder, currentBal, [], [])
  }

  /** `Account.__init__` with the default balance of zero. */
  function NewDefaultAccount(number: AccountNumber, name: string, finder: string): (r: Account)
    ensures r.number == number && r.name == name && r.finder == finder
    ensures r.balance == 0.0
    ensures r.balanceHistory == [] && r.timeHistory == []
  {
    NewAccount(number, name, finder, 0.0)
  }

  /** The histories run in parallel and the last recorded balance is the
      current balance. */
  predicate HistoryTracksBalance(a: Account)
  {
    && |a.balanceHistory| == |a.timeHistory|
    && (|a.balanceHistory| > 0 ==> a.balanceHistory[|a.balanceHistory| - 1] == a.balance)
  }

  /** `Account.change_balance`: apply a signed change (negative for a debit)
      and record the new balance and the date. */
  function ChangeBalance(a: Account, change: real, date: Date): (r: Account)
    ensures r.balance == a.balance + change
    ensures |r.balanceHistory| == |a.balanceHistory| + 1 && |r.timeHistory| == |a.timeHistory| + 1
    ensures r.balanceHistory[..|a.balanceHistory|] == a.balanceHistory
    ensures r.timeHistory[..|a.timeHistory|] == a.timeHistory
    ensures r.balanceHistory[|a.balanceHistory|] == r.balance
    ensures r.timeHistory[|a.timeHistory|] == date
    ensures r.number == a.number && r.name == a.name && r.finder == a.finder
    ensures HistoryTracksBalance(a) ==> HistoryTracksBalance(r)
  {
    var balance := a.balance + change;
    a.(balance := balance,
       balanceHistory := a.balanceHistory + [balance],
       timeHistory := a.timeHistory + [date])
  }

  /** One `change_balance` call. */
  datatype Change = Change(amount: real, date: Date)

  /** A sequence of `change_balance` calls, first call first. */
  function ApplyChanges(a: Account, cs: seq<Change>): Account
    decreases |cs|
  {
    if |cs| == 0 then a else ApplyChanges(ChangeBalance(a, cs[0].amount, cs[0].date), cs[1..])
  }

  function TotalChange(cs: seq<Change>): real
  {
    if |cs| == 0 then 0.0 else cs[0].amount + TotalChange(cs[1..])
  }

  /** The balance after each call, starting from `start`. */
  function RunningBalances(start: real, cs: seq<Change>): seq<real>
    decreases |cs|
  {
    if |cs| == 0 then [] else [start + cs[0].amount] + RunningBalances(start + cs[0].amount, cs[1..])
  }

  function DatesOf(cs: seq<Change>): seq<Date>
  {
    if |cs| == 0 then [] else [cs[0].date] + DatesOf(cs[1..])
  }

  lemma {:induction false} RunningBalancesShape(start: real, cs: seq<Change>)
    ensures |RunningBalances(start, cs)| == |cs|
    ensures |cs| > 0 ==> RunningBalances(start, cs)[|cs| - 1] == start + TotalChange(cs)
    decreases |cs|
  {
    if |cs| > 0 {
      RunningBalancesShape(start + cs[0].amount, cs[1..]);
    }
  }

  /** A sequence of calls moves the balance by the total change, appends the
      running balance after every call to the balance history, and appends
      every call's date to the time history, in call order. */
  lemma {:induction false} ApplyChangesRecordsRunningBalances(a: Account, cs: seq<Change>)
    ensures ApplyChanges(a, cs).balance == a.balance + TotalChange(cs)
    ensures ApplyChanges(a, cs).balanceHistory == a.balanceHistory + RunningBalances(a.balance, cs)
    ensures ApplyChanges(a, cs).timeHistory == a.timeHistory + DatesOf(cs)
    ensures ApplyChanges(a, cs).number == a.number && ApplyChanges(a, cs).name == a.name
    ensures ApplyChanges(a, cs).finder == a.finder
    decreases |cs|
  {
    if |cs| == 0 {
      assert a.balanceHistory + [] == a.balanceHistory;
      assert a.timeHistory + [] == a.timeHistory;
    } else {
      var b := ChangeBalance(a, cs[0].amount, cs[0].date);
      ApplyChangesRecordsRunningBalances(b, cs[1..]);
      assert b.balanceHistory == a.balanceHistory + [a.balance + cs[0].amount];
      assert b.timeHistory == a.timeHistory + [cs[0].date];
      assert a.balanceHistory + [a.balance + cs[0].amount] + RunningBalances(b.balance, cs[1..])
          == a.balanceHistory + ([a.balance + cs[0].amount] + RunningBalances(b.balance, cs[1..]));
      assert a.timeHistory + [cs[0].date] + DatesOf(cs[1..])
          == a.timeHistory + ([cs[0].date] + DatesOf(cs[1..]));
    }
  }

  /** For a new account, after any sequence of calls the histories have one
      entry per call and the last recorded balance is the current one. */
  lemma NewAccountHistoryCountsCalls(number: AccountNumber, name: string, finder: string,
                                     currentBal: real, cs: seq<Change>)
    ensures var r := ApplyChanges(NewAccount(number, name, finder, currentBal), cs);
            && |r.balanceHistory| == |cs| && |r.timeHistory| == |cs|
            && HistoryTracksBalance(r)
            && r.balance == currentBal + TotalChange(cs)
  {
    var a := NewAccount(number, name, finder, currentBal);
    ApplyChangesRecordsRunningBalances(a, cs);
    RunningBalancesShape(currentBal, cs);
    assert [] + RunningBalances(currentBal, cs) == RunningBalances(currentBal, cs);
    DatesShape(cs);
  }

  lemma {:induction false} DatesShape(cs: seq<Change>)
    ensures |DatesOf(cs)| == |cs|
  {
    if |cs| > 0 {
      DatesShape(cs[1..]);
    }
  }

  /** An account opened at 500 with changes of 10, 20 and -30 ends at 500
      with balance history [510, 530, 500] and the dates in call order. */
  lemma ChangeBalanceScenario()
    ensures var d1 := Date(2000, 1, 10);
            var d2 := Date(2020, 1, 20);
            var a := NewAccount(IntNumber(0), "test", "test_find", 500.0);
            var r := ApplyChanges(a, [Change(10.0, d1), Change(20.0, d1), Change(-30.0, d2)]);
            && r.balance == 500.0
            && r.balanceHistory == [510.0, 530.0, 500.0]
            && r.timeHistory == [d1, d1, d2]
            && r.number == IntNumber(0) && r.name == "test" && r.finder == "test_find"
  {
    var d1 := Date(2000, 1, 10);
    var d2 := Date(2020, 1, 20);
    var a := NewAccount(IntNumber(0), "test", "test_find", 500.0);
    var a1 := ChangeBalance(a, 10.0, d1);
    var a2 := ChangeBalance(a1, 20.0, d1);
    var a3 := ChangeBalance(a2, -30.0, d2);
    var cs := [Change(10.0, d1), Change(20.0, d1), Change(-30.0, d2)];
    assert cs[1..][1..][1..] == [];
    assert ApplyChanges(a, cs) == ApplyChanges(a1, cs[1..]);
    assert ApplyChanges(a1, cs[1..]) == ApplyChanges(a2, cs[1..][1..]);
    assert ApplyChanges(a2, cs[1..][1..]) == a3;
  }

  /** A transaction party: an account held in the ledger under `id`, or an
      untracked party known only by a string. */
  datatype Party = Tracked(id: string) | Untracked(description: string)

  /** All tracked accounts, by key. */
  type Ledger = map<string, Account>

  /** The party has an account whose balance can change. */
  predicate HasAccount(ledger: Ledger, p: Party)
  {
    p.Tracked? && p.id in ledger
  }

  datatype Transaction = Transaction(
    sender: Party,
    receiver: Party,
    date: Date,
    amount: real,
    reason: Option<string>,
    tags: Option<seq<string>>,
    unit: string)

  /** One guarded side of `_perform_transaction`: change the party's balance
      if it has an account; otherwise the failed call is swallowed and
      nothing changes. */
  function Settle(ledger: Ledger, p: Party, change: real, date: Date): (r: Ledger)
    ensures r.Keys == ledger.Keys
    ensures HasAccount(ledger, p) ==> r[p.id] == ChangeBalance(ledger[p.id], change, date)
    ensures !HasAccount(ledger, p) ==> r == ledger
    ensures forall id | id in ledger && p != Tracked(id) :: r[id] == ledger[id]
  {
    if HasAccount(ledger, p) then ledger[p.id := ChangeBalance(ledger[p.id], change, date)] else ledger
  }

  /** `Transaction._perform_transaction`: debit the sender, then credit the
      receiver, each side best-effort. */
  function PerformTransaction(ledger: Ledger, t: Transaction): (r: Ledger)
    ensures r.Keys == ledger.Keys
    ensures forall id | id in ledger && t.sender != Tracked(id) && t.receiver != Tracked(id) ::
              r[id] == ledger[id]
    ensures HasAccount(ledger, t.sender) && t.sender != t.receiver ==>
              r[t.sender.id] == ChangeBalance(ledger[t.sender.id], -t.amount, t.date)
    ensures HasAccount(ledger, t.receiver) && t.sender != t.receiver ==>
              r[t.receiver.id] == ChangeBalance(ledger[t.receiver.id], t.amount, t.date)
    ensures HasAccount(ledger, t.sender) && t.sender == t.receiver ==>
              r[t.sender.id]
              == ChangeBalance(ChangeBalance(ledger[t.sender.id], -t.amount, t.date), t.amount, t.date)
  {
    var debited := Settle(ledger, t.sender, -t.amount, t.date);
    Settle(debited, t.receiver, t.amount, t.date)
  }

  /** `Transaction.__init__`: store the fields and perform the transaction. */
  function NewTransaction(ledger: Ledger, sender: Party, receiver: Party, date: Date, amount: real,
                          reason: Option<string>, tags: Option<seq<string>>, unit: string)
    : (r: (Transaction, Ledger))
    ensures r.0.sender == sender && r.0.receiver == receiver && r.0.date == date
    ensures r.0.amount == amount && r.0.reason == reason && r.0.tags == tags && r.0.unit == unit
    ensures r.1 == PerformTransaction(ledger, r.0)
    ensures r.1.Keys == ledger.Keys
    ensures forall id | id in ledger && sender != Tracked(id) && receiver != Tracked(id) ::
              r.1[id] == ledger[id]
  {
    var t := Transaction(sender, receiver, date, amount, reason, tags, unit);
    (t, PerformTransaction(ledger, t))
  }

  /** When both parties are distinct tracked accounts, the sender loses the
      amount, the receiver gains it, and their combined balance is
      unchanged. A transfer from an account to itself leaves its balance
      unchanged and records two entries. */
  lemma TransactionConservesBalance(ledger: Ledger, t: Transaction)
    requires HasAccount(ledger, t.sender) && HasAccount(ledger, t.receiver)
    ensures var r := PerformTransaction(ledger, t);
            t.sender != t.receiver ==>
              && r[t.sender.id].balance == ledger[t.sender.id].balance - t.amount
              && r[t.receiver.id].balance == ledger[t.receiver.id].balance + t.amount
              && r[t.sender.id].balance + r[t.receiver.id].balance
                 == ledger[t.sender.id].balance + ledger[t.receiver.id].balance
    ensures var r := PerformTransaction(ledger, t);
            t.sender == t.receiver ==>
              && r[t.sender.id].balance == ledger[t.sender.id].balance
              && |r[t.sender.id].balanceHistory| == |ledger[t.sender.id].balanceHistory| + 2
  {
  }

  /** An untracked party is skipped without affecting the other side: the
      transaction is then exactly the other side's change alone. */
  lemma UntrackedPartyIsSkipped(ledger: Ledger, t: Transaction)
    ensures !HasAccount(ledger, t.sender) ==>
              PerformTransaction(ledger, t) == Settle(ledger, t.receiver, t.amount, t.date)
    ensures !HasAccount(ledger, t.receiver) ==>
              PerformTransaction(ledger, t) == Settle(ledger, t.sender, -t.amount, t.date)
  {
  }

  /** A transaction keeps every account's history in step with its balance. */
  lemma TransactionKeepsHistories(ledger: Ledger, t: Transaction)
    requires forall id | id in ledger :: HistoryTracksBalance(ledger[id])
    ensures var r := PerformTransaction(ledger, t);
            forall id | id in r :: HistoryTracksBalance(r[id])
  {
  }
}
