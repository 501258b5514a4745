/**
 * The unit tests of the account, replayed against the method contracts alone: one
 * method per test, calling the account with the test's data and asserting the
 * results the test expects. Patched prices are passed as the `quote` function.
 */
module Scenarios {
  import opened Ledger
  import opened Accounts
  import Valuation
  import Prices

  method KnownSymbols() {
    assert Prices.SharePrice("AAPL") == 150.0;
    assert Prices.SharePrice("TSLA") == 700.0;
    assert Prices.SharePrice("GOOGL") == 2800.0;
  }

  method UnknownSymbol() {
    assert Prices.SharePrice("UNKNOWN") == 0.0;
  }

  method Initialization() {
    var a := new Account("user123", 1000.0);
    assert a.userId == "user123" && a.initialDeposit == 1000.0 && a.balance == 1000.0;
    assert a.positions == map[] && a.transactions == [];
  }

  method DepositValid() {
    var a := new Account("user123", 1000.0);
    var o := a.Deposit(500.0);
    assert o == Done && a.balance == 1500.0;
  }

  method DepositInvalid() {
    var a := new Account("user123", 1000.0);
    var o := a.Deposit(0.0);
    assert o == Raised(NonPositiveDeposit);
    o := a.Deposit(-100.0);
    assert o == Raised(NonPositiveDeposit) && a.balance == 1000.0;
  }

  method WithdrawValid() {
    var a := new Account("user123", 1000.0);
    var o := a.Withdraw(500.0);
    assert o == Done && a.balance == 500.0;
  }

  method WithdrawInvalidAmount() {
    var a := new Account("user123", 1000.0);
    var o := a.Withdraw(0.0);
    assert o == Raised(NonPositiveWithdrawal);
    o := a.Withdraw(-100.0);
    assert o == Raised(NonPositiveWithdrawal) && a.balance == 1000.0;
  }

  method WithdrawInsufficientBalance() {
    var a := new Account("user123", 1000.0);
    var o := a.Withdraw(1500.0);
    assert o == Raised(InsufficientBalance) && a.balance == 1000.0;
  }

  method BuyStockSucceeds() {
    var a := new Account("user123", 1000.0);
    var o := a.BuyStock("XYZ", 10, s => 50.0);
    assert o == Done && a.balance == 500.0 && a.positions == map["XYZ" := 10];
    assert |a.transactions| == 1 && a.transactions[0] == Tx(Action.Buy, "XYZ", 10, 50.0, 500.0);
  }

  method BuyStockInsufficientFunds() {
    var a := new Account("user123", 1000.0);
    var o := a.BuyStock("XYZ", 6, s => 200.0);
    assert o == Raised(InsufficientFunds) && a.Snapshot() == Open(1000.0);
  }

  method SellStockPartly() {
    var a := new Account("user123", 1000.0);
    var o := a.BuyStock("XYZ", 10, s => 50.0);
    assert a.balance == 500.0;
    o := a.SellStock("XYZ", 5, s => 60.0);
    assert o == Done && a.balance == 800.0 && a.positions == map["XYZ" := 5];
    assert |a.transactions| == 2 && a.transactions[1] == Tx(Action.Sell, "XYZ", 5, 60.0, 300.0);
  }

  method SellStockCompletePosition() {
    var a := new Account("user123", 1000.0);
    var o := a.BuyStock("XYZ", 10, s => 50.0);
    o := a.SellStock("XYZ", 10, s => 60.0);
    assert o == Done && "XYZ" !in a.positions;
  }

  method SellStockInsufficientShares() {
    var a := new Account("user123", 1000.0);
    var o := a.SellStock("XYZ", 5, s => 50.0);
    assert o == Raised(InsufficientShares);
    o := a.BuyStock("XYZ", 3, s => 50.0);
    o := a.SellStock("XYZ", 5, s => 50.0);
    assert o == Raised(InsufficientShares) && a.positions == map["XYZ" := 3];
  }

  method PortfolioValue() {
    var a := new Account("user123", 1000.0);
    a.positions := map["ABC" := 5, "XYZ" := 10];
    a.balance := 500.0;
    var quote := (s: string) => if s == "ABC" then 100.0 else if s == "XYZ" then 50.0 else 0.0;
    Valuation.WorthRemove(a.positions, "ABC", quote);
    assert a.positions - {"ABC"} == map["XYZ" := 10];
    Valuation.WorthRemove(map["XYZ" := 10], "XYZ", quote);
    assert map["XYZ" := 10] - {"XYZ"} == map[];
    var value := a.GetPortfolioValue(quote);
    assert value == 500.0 + 5.0 * 100.0 + 10.0 * 50.0;
  }

  method ProfitLoss() {
    var a := new Account("user123", 1000.0);
    a.positions := map["ABC" := 5];
    a.balance := 500.0;
    var quote := (s: string) => 200.0;
    Valuation.WorthRemove(a.positions, "ABC", quote);
    assert a.positions - {"ABC"} == map[];
    var profit := a.GetProfitLoss(quote);
    assert profit == (500.0 + 5.0 * 200.0) - 1000.0;
  }

  method Holdings() {
    var a := new Account("user123", 1000.0);
    a.positions := map["ABC" := 5, "XYZ" := 10];
    var holdings := a.GetHoldings();
    assert holdings == map["ABC" := 5, "XYZ" := 10];
  }

  method Transactions() {
    var a := new Account("user123", 1000.0);
    var log := [Tx(Action.Buy, "ABC", 5, 100.0, 500.0), Tx(Action.Sell, "ABC", 2, 120.0, 240.0)];
    a.transactions := log;
    var got := a.GetTransactions();
    assert got == log;
  }
}
