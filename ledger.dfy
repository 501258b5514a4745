/**
 * The account ledger as values: the cash balance, the holdings per symbol and the
 * transaction log, and the four operations that change them. Each operation either
 * raises (the book is left exactly as it was) or produces the new book.
 */
module Ledger {

  datatype Action = Buy | Sell

  /** One log entry: action, symbol, quantity, price per share and total paid or received. */
  datatype Tx = Tx(action: Action, symbol: string, quantity: int, price: real, total: real)

  /** The reasons an operation refuses to run (each a ValueError in the program). */
  datatype Error =
    | NonPositiveDeposit
    | NonPositiveWithdrawal
    | InsufficientBalance
    | InsufficientFunds
    | InsufficientShares

  /** The mutable part of an account. */
  datatype Book = Book(balance: real, positions: map<string, int>, transactions: seq<Tx>)

  datatype Result = Ok(book: Book) | Err(error: Error) {
    /** The book an account holds after the operation: the new one, or `before` when it raised. */
    function Or(before: Book): Book {
      if Ok? then book else before
    }
  }

  /** The book of a freshly opened account. */
  function Open(initialDeposit: real): Book {
    Book(initialDeposit, map[], [])
  }

  /** Shares of `symbol` held, 0 when the symbol has no entry. */
  function Held(positions: map<string, int>, symbol: string): int {
    if symbol in positions then positions[symbol] else 0
  }

  function Deposit(b: Book, amount: real): (r: Result)
    ensures r.Err? <==> amount <= 0.0
    ensures r.Ok? ==> r.book == b.(balance := b.balance + amount)
  {
    if amount <= 0.0 then Err(NonPositiveDeposit)
    else Ok(b.(balance := b.balance + amount))
  }

  function Withdraw(b: Book, amount: real): (r: Result)
    ensures r.Err? <==> amount <= 0.0 || b.balance < amount
    ensures r.Ok? ==> r.book == b.(balance := b.balance - amount) && r.book.balance >= 0.0
  {
    if amount <= 0.0 then Err(NonPositiveWithdrawal)
    else if b.balance - amount < 0.0 then Err(InsufficientBalance)
    else Ok(b.(balance := b.balance - amount))
  }

  /** Buy `quantity` shares at `price` each; neither the quantity nor the price is checked. */
  function BuyStock(b: Book, symbol: string, quantity: int, price: real): (r: Result)
    ensures r.Err? <==> price * quantity as real > b.balance
    ensures r.Ok? ==> r.book.balance >= 0.0
  {
    var total := price * quantity as real;
    if total > b.balance then Err(InsufficientFunds)
    else Ok(Book(b.balance - total,
                 b.positions[symbol := Held(b.positions, symbol) + quantity],
                 b.transactions + [Tx(Action.Buy, symbol, quantity, price, total)]))
  }

  /** Sell `quantity` shares at `price` each; an entry that drops to zero is removed. */
  function SellStock(b: Book, symbol: string, quantity: int, price: real): (r: Result)
    ensures r.Err? <==> symbol !in b.positions || b.positions[symbol] < quantity
    ensures r.Ok? ==> symbol in r.book.positions ==> r.book.positions[symbol] > 0
  {
    if symbol !in b.positions || b.positions[symbol] < quantity then Err(InsufficientShares)
    else
      var total := price * quantity as real;
      var left := b.positions[symbol] - quantity;
      Ok(Book(b.balance + total,
              if left == 0 then b.positions - {symbol} else b.positions[symbol := left],
              b.transactions + [Tx(Action.Sell, symbol, quantity, price, total)]))
  }
}
