/**
 * What each ledger operation keeps true: the holdings are exactly what the transaction
 * log adds up to, every log entry's total is its price times its quantity, and (for
 * positive quantities and non-negative prices) the cash never goes negative and no
 * empty or short position is kept. Also the round trips between the operations.
 */
module Invariants {
  import opened Ledger
  import Prices

  /** Change a log entry makes to the shares held of `symbol`. */
  function Signed(t: Tx, symbol: string): int {
    if t.symbol != symbol then 0
    else if t.action == Action.Buy then t.quantity
    else -t.quantity
  }

  /** Shares of `symbol` bought minus shares sold, over the whole log. */
  function NetShares(txs: seq<Tx>, symbol: string): int {
    if txs == [] then 0
    else NetShares(txs[..|txs| - 1], symbol) + Signed(txs[|txs| - 1], symbol)
  }

  /** The holdings are what the log says was bought and not sold again. */
  ghost predicate HoldingsMatchLog(b: Book) {
    forall symbol :: Held(b.positions, symbol) == NetShares(b.transactions, symbol)
  }

  /** Every log entry records the total as its price times its quantity. */
  ghost predicate EntriesPriced(b: Book) {
    forall i :: 0 <= i < |b.transactions| ==>
      b.transactions[i].total == b.transactions[i].price * b.transactions[i].quantity as real
  }

  /** No negative cash, and every kept position holds at least one share. */
  ghost predicate Solvent(b: Book) {
    && b.balance >= 0.0
    && forall symbol :: symbol in b.positions ==> b.positions[symbol] > 0
  }

  lemma OpenEstablishes(initialDeposit: real)
    ensures HoldingsMatchLog(Open(initialDeposit)) && EntriesPriced(Open(initialDeposit))
    ensures Solvent(Open(initialDeposit)) <==> initialDeposit >= 0.0
  {
  }

  /** Deposits and withdrawals touch only the cash: positions and log stay as they were. */
  lemma CashOperationsKeepLog(b: Book, amount: real)
    ensures Deposit(b, amount).Or(b).positions == b.positions
    ensures Deposit(b, amount).Or(b).transactions == b.transactions
    ensures Withdraw(b, amount).Or(b).positions == b.positions
    ensures Withdraw(b, amount).Or(b).transactions == b.transactions
  {
  }

  /** A successful trade appends exactly one entry, describing that trade, and keeps the earlier ones. */
  lemma TradesAppendOneEntry(b: Book, symbol: string, quantity: int, price: real)
    ensures BuyStock(b, symbol, quantity, price).Ok? ==>
      BuyStock(b, symbol, quantity, price).book.transactions
        == b.transactions + [Tx(Action.Buy, symbol, quantity, price, price * quantity as real)]
    ensures SellStock(b, symbol, quantity, price).Ok? ==>
      SellStock(b, symbol, quantity, price).book.transactions
        == b.transactions + [Tx(Action.Sell, symbol, quantity, price, price * quantity as real)]
  {
  }

  lemma BuyKeepsHoldingsMatchLog(b: Book, symbol: string, quantity: int, price: real)
    requires HoldingsMatchLog(b)
    ensures HoldingsMatchLog(BuyStock(b, symbol, quantity, price).Or(b))
  {
  }

  lemma SellKeepsHoldingsMatchLog(b: Book, symbol: string, quantity: int, price: real)
    requires HoldingsMatchLog(b)
    ensures HoldingsMatchLog(SellStock(b, symbol, quantity, price).Or(b))
  {
  }

  lemma TradesKeepEntriesPriced(b: Book, symbol: string, quantity: int, price: real)
    requires EntriesPriced(b)
    ensures EntriesPriced(BuyStock(b, symbol, quantity, price).Or(b))
    ensures EntriesPriced(SellStock(b, symbol, quantity, price).Or(b))
  {
  }

  /**
   * Solvency survives every operation provided the quantity traded is positive and the
   * price is not negative; neither is checked by the account itself.
   */
  lemma OperationsKeepSolvent(b: Book, amount: real, symbol: string, quantity: int, price: real)
    requires Solvent(b)
    requires quantity > 0 && price >= 0.0
    ensures Solvent(Deposit(b, amount).Or(b))
    ensures Solvent(Withdraw(b, amount).Or(b))
    ensures Solvent(BuyStock(b, symbol, quantity, price).Or(b))
    ensures Solvent(SellStock(b, symbol, quantity, price).Or(b))
  {
  }

  /** Selling a negative quantity of a held symbol passes the share check and spends cash. */
  lemma NegativeSellOverdraws()
    ensures var b := Book(0.0, map["AAPL" := 1], []);
            && Solvent(b)
            && SellStock(b, "AAPL", -5, Prices.SharePrice("AAPL")).Ok?
            && SellStock(b, "AAPL", -5, Prices.SharePrice("AAPL")).book.balance == -750.0
            && SellStock(b, "AAPL", -5, Prices.SharePrice("AAPL")).book.positions["AAPL"] == 6
  {
  }

  /**
   * Buying a negative quantity passes the funds check, pays cash out and leaves a
   * negative position: shares are sold that the account does not own.
   */
  lemma NegativeBuyShortSells()
    ensures var b := Book(0.0, map["AAPL" := 2], []);
            && Solvent(b)
            && BuyStock(b, "AAPL", -5, Prices.SharePrice("AAPL")).Ok?
            && BuyStock(b, "AAPL", -5, Prices.SharePrice("AAPL")).book.balance == 750.0
            && BuyStock(b, "AAPL", -5, Prices.SharePrice("AAPL")).book.positions["AAPL"] == -3
  {
  }

  /** A symbol outside the price table is bought for nothing, and its position is still recorded. */
  lemma BuyUnquotedIsFree(b: Book, symbol: string, quantity: int)
    requires symbol !in Prices.Table
    requires b.balance >= 0.0
    ensures BuyStock(b, symbol, quantity, Prices.SharePrice(symbol)).Ok?
    ensures BuyStock(b, symbol, quantity, Prices.SharePrice(symbol)).book.balance == b.balance
    ensures BuyStock(b, symbol, quantity, Prices.SharePrice(symbol)).book.positions[symbol]
         == Held(b.positions, symbol) + quantity
  {
  }

  /** Buying zero shares of a symbol not yet held stores an entry of zero. */
  lemma BuyZeroStoresZero(b: Book, symbol: string, price: real)
    requires symbol !in b.positions && b.balance >= 0.0
    ensures BuyStock(b, symbol, 0, price).Ok?
    ensures symbol in BuyStock(b, symbol, 0, price).book.positions
    ensures BuyStock(b, symbol, 0, price).book.positions[symbol] == 0
  {
  }

  /** A deposit is undone by withdrawing the same amount, when the balance was not negative. */
  lemma DepositThenWithdraw(b: Book, amount: real)
    requires amount > 0.0 && b.balance >= 0.0
    ensures Deposit(b, amount).Ok?
    ensures Withdraw(Deposit(b, amount).book, amount) == Ok(b)
  {
  }

  /** A withdrawal is undone by depositing the same amount. */
  lemma WithdrawThenDeposit(b: Book, amount: real)
    requires Withdraw(b, amount).Ok?
    ensures Deposit(Withdraw(b, amount).book, amount) == Ok(b)
  {
  }

  /**
   * Buying and then selling the same positive quantity at the same price gives back the
   * cash and the holdings of a solvent book, with a BUY and a SELL entry added to the log.
   */
  lemma BuyThenSell(b: Book, symbol: string, quantity: int, price: real)
    requires Solvent(b) && quantity > 0
    requires BuyStock(b, symbol, quantity, price).Ok?
    ensures SellStock(BuyStock(b, symbol, quantity, price).book, symbol, quantity, price).Ok?
    ensures var after := SellStock(BuyStock(b, symbol, quantity, price).book, symbol, quantity, price).book;
            && after.balance == b.balance
            && after.positions == b.positions
            && after.transactions == b.transactions
                 + [Tx(Action.Buy, symbol, quantity, price, price * quantity as real),
                    Tx(Action.Sell, symbol, quantity, price, price * quantity as real)]
  {
  }
}
