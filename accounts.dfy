/**
 * A user's account on the trading simulator: fixed owner and opening deposit, cash
 * balance, holdings per symbol and the log of trades, updated in place by the four
 * operations. Prices come from `quote`, which the program binds to its price table
 * (Prices.SharePrice) and its tests replace with fixed prices.
 */
module Accounts {
  import opened Ledger
  import Valuation

  /** How an operation ended: it ran, or it raised with the reason given. */
  datatype Outcome = Done | Raised(error: Error)

  function OutcomeOf(r: Result): (o: Outcome)
    ensures o.Done? <==> r.Ok?
  {
    if r.Ok? then Done else Raised(r.error)
  }

  class Account {
    const userId: string
    const initialDeposit: real
    var balance: real
    var positions: map<string, int>
    var transactions: seq<Tx>

    /** The mutable state as a value, the input of the ledger's operations. */
    function Snapshot(): Book
      reads this
    {
      Book(balance, positions, transactions)
    }

    constructor (userId: string, initialDeposit: real)
      ensures this.userId == userId && this.initialDeposit == initialDeposit
      ensures balance == initialDeposit && positions == map[] && transactions == []
      ensures Snapshot() == Open(initialDeposit)
    {
      this.userId := userId;
      this.initialDeposit := initialDeposit;
      balance := initialDeposit;
      positions := map[];
      transactions := [];
    }

    method Deposit(amount: real) returns (outcome: Outcome)
      modifies this`balance
      ensures outcome == OutcomeOf(Ledger.Deposit(old(Snapshot()), amount))
      ensures Snapshot() == Ledger.Deposit(old(Snapshot()), amount).Or(old(Snapshot()))
      ensures outcome.Done? <==> amount > 0.0
      ensures balance == if outcome.Done? then old(balance) + amount else old(balance)
    {
      if amount <= 0.0 {
        return Raised(NonPositiveDeposit);
      }
      balance := balance + amount;
      outcome := Done;
    }

    method Withdraw(amount: real) returns (outcome: Outcome)
      modifies this`balance
      ensures outcome == OutcomeOf(Ledger.Withdraw(old(Snapshot()), amount))
      ensures Snapshot() == Ledger.Withdraw(old(Snapshot()), amount).Or(old(Snapshot()))
      ensures outcome.Done? <==> 0.0 < amount <= old(balance)
      ensures balance == if outcome.Done? then old(balance) - amount else old(balance)
      ensures outcome.Done? ==> balance >= 0.0
    {
      if amount <= 0.0 {
        return Raised(NonPositiveWithdrawal);
      }
      if balance - amount < 0.0 {
        return Raised(InsufficientBalance);
      }
      balance := balance - amount;
      outcome := Done;
    }

    method BuyStock(symbol: string, quantity: int, quote: string -> real) returns (outcome: Outcome)
      modifies this`balance, this`positions, this`transactions
      ensures outcome == OutcomeOf(Ledger.BuyStock(old(Snapshot()), symbol, quantity, quote(symbol)))
      ensures Snapshot() == Ledger.BuyStock(old(Snapshot()), symbol, quantity, quote(symbol)).Or(old(Snapshot()))
      ensures outcome.Done? <==> quote(symbol) * quantity as real <= old(balance)
      ensures outcome.Done? ==>
        && balance == old(balance) - quote(symbol) * quantity as real
        && positions == old(positions)[symbol := Held(old(positions), symbol) + quantity]
        && transactions == old(transactions)
             + [Tx(Action.Buy, symbol, quantity, quote(symbol), quote(symbol) * quantity as real)]
    {
      var price := quote(symbol);
      var total := price * quantity as real;
      if total > balance {
        return Raised(InsufficientFunds);
      }
      balance := balance - total;
      positions := positions[symbol := Held(positions, symbol) + quantity];
      transactions := transactions + [Tx(Action.Buy, symbol, quantity, price, total)];
      outcome := Done;
    }

    method SellStock(symbol: string, quantity: int, quote: string -> real) returns (outcome: Outcome)
      modifies this`balance, this`positions, this`transactions
      ensures outcome == OutcomeOf(Ledger.SellStock(old(Snapshot()), symbol, quantity, quote(symbol)))
      ensures Snapshot() == Ledger.SellStock(old(Snapshot()), symbol, quantity, quote(symbol)).Or(old(Snapshot()))
      ensures outcome.Done? <==> symbol in old(positions) && old(positions)[symbol] >= quantity
      ensures outcome.Done? ==>
        && balance == old(balance) + quote(symbol) * quantity as real
        && Held(positions, symbol) == old(positions)[symbol] - quantity
        && (symbol in positions <==> old(positions)[symbol] != quantity)
        && positions - {symbol} == old(positions) - {symbol}
        && transactions == old(transactions)
             + [Tx(Action.Sell, symbol, quantity, quote(symbol), quote(symbol) * quantity as real)]
    {
      if symbol !in positions || positions[symbol] < quantity {
        return Raised(InsufficientShares);
      }
      var price := quote(symbol);
      var total := price * quantity as real;
      balance := balance + total;
      positions := positions[symbol := positions[symbol] - quantity];
      if positions[symbol] == 0 {
        positions := positions - {symbol};
      }
      transactions := transactions + [Tx(Action.Sell, symbol, quantity, price, total)];
      outcome := Done;
    }

    /** Cash plus the value of every holding at the current quotes. */
    method GetPortfolioValue(quote: string -> real) returns (value: real)
      ensures value == Valuation.PortfolioValue(Snapshot(), quote)
    {
      value := balance;
      var rest := positions;
      while rest != map[]
        invariant value + Valuation.Worth(rest, quote) == Valuation.PortfolioValue(Snapshot(), quote)
        decreases |rest|
      {
        var symbol :| symbol in rest;
        Valuation.WorthRemove(rest, symbol, quote);
        Valuation.SmallerWithout(rest, symbol);
        value := value + quote(symbol) * rest[symbol] as real;
        rest := rest - {symbol};
      }
    }

    /** Portfolio value minus the opening deposit. */
    method GetProfitLoss(quote: string -> real) returns (profit: real)
      ensures profit == Valuation.PortfolioValue(Snapshot(), quote) - initialDeposit
    {
      var value := GetPortfolioValue(quote);
      profit := value - initialDeposit;
    }

    method GetHoldings() returns (holdings: map<string, int>)
      ensures holdings == positions
    {
      holdings := positions;
    }

    method GetTransactions() returns (log: seq<Tx>)
      ensures log == transactions
    {
      log := transactions;
    }
  }
}
