/**
 * A session against one account: a sequence of calls, each of which either changes the
 * book or raises and leaves it untouched (the caller catches the error and carries on,
 * as the trading front end does). The invariants of each operation carry over the whole
 * session.
 */
module Session {
  import opened Ledger
  import opened Invariants

  datatype Call =
    | DepositCall(amount: real)
    | WithdrawCall(amount: real)
    | BuyCall(symbol: string, quantity: int)
    | SellCall(symbol: string, quantity: int)

  /** One call, with trades priced by `quote` at the moment of the call. */
  function Step(b: Book, c: Call, quote: string -> real): Result {
    match c
    case DepositCall(amount) => Deposit(b, amount)
    case WithdrawCall(amount) => Withdraw(b, amount)
    case BuyCall(symbol, quantity) => BuyStock(b, symbol, quantity, quote(symbol))
    case SellCall(symbol, quantity) => SellStock(b, symbol, quantity, quote(symbol))
  }

  /** The book after every call of `calls`, in order. */
  function Replay(b: Book, calls: seq<Call>, quote: string -> real): Book
    decreases |calls|
  {
    if calls == [] then b
    else Replay(Step(b, calls[0], quote).Or(b), calls[1..], quote)
  }

  /** Number of calls in `calls` that are trades and go through. */
  function TradesDone(b: Book, calls: seq<Call>, quote: string -> real): nat
    decreases |calls|
  {
    if calls == [] then 0
    else
      var r := Step(b, calls[0], quote);
      (if r.Ok? && (calls[0].BuyCall? || calls[0].SellCall?) then 1 else 0)
        + TradesDone(r.Or(b), calls[1..], quote)
  }

  /** The log only ever grows at its end, by one entry per trade that went through. */
  lemma {:induction false} ReplayAppendsOnly(b: Book, calls: seq<Call>, quote: string -> real)
    ensures b.transactions <= Replay(b, calls, quote).transactions
    ensures |Replay(b, calls, quote).transactions| == |b.transactions| + TradesDone(b, calls, quote)
    decreases |calls|
  {
    if calls != [] {
      var next := Step(b, calls[0], quote).Or(b);
      match calls[0] {
        case DepositCall(amount) => CashOperationsKeepLog(b, amount);
        case WithdrawCall(amount) => CashOperationsKeepLog(b, amount);
        case BuyCall(symbol, quantity) => TradesAppendOneEntry(b, symbol, quantity, quote(symbol));
        case SellCall(symbol, quantity) => TradesAppendOneEntry(b, symbol, quantity, quote(symbol));
      }
      ReplayAppendsOnly(next, calls[1..], quote);
    }
  }

  /** After any session the holdings are the net shares of the log. */
  lemma {:induction false} ReplayKeepsHoldingsMatchLog(b: Book, calls: seq<Call>, quote: string -> real)
    requires HoldingsMatchLog(b)
    ensures HoldingsMatchLog(Replay(b, calls, quote))
    decreases |calls|
  {
    if calls != [] {
      match calls[0] {
        case DepositCall(amount) => CashOperationsKeepLog(b, amount);
        case WithdrawCall(amount) => CashOperationsKeepLog(b, amount);
        case BuyCall(symbol, quantity) => BuyKeepsHoldingsMatchLog(b, symbol, quantity, quote(symbol));
        case SellCall(symbol, quantity) => SellKeepsHoldingsMatchLog(b, symbol, quantity, quote(symbol));
      }
      ReplayKeepsHoldingsMatchLog(Step(b, calls[0], quote).Or(b), calls[1..], quote);
    }
  }

  /** After any session every log entry's total is its price times its quantity. */
  lemma {:induction false} ReplayKeepsEntriesPriced(b: Book, calls: seq<Call>, quote: string -> real)
    requires EntriesPriced(b)
    ensures EntriesPriced(Replay(b, calls, quote))
    decreases |calls|
  {
    if calls != [] {
      match calls[0] {
        case DepositCall(amount) => CashOperationsKeepLog(b, amount);
        case WithdrawCall(amount) => CashOperationsKeepLog(b, amount);
        case BuyCall(symbol, quantity) => TradesKeepEntriesPriced(b, symbol, quantity, quote(symbol));
        case SellCall(symbol, quantity) => TradesKeepEntriesPriced(b, symbol, quantity, quote(symbol));
      }
      ReplayKeepsEntriesPriced(Step(b, calls[0], quote).Or(b), calls[1..], quote);
    }
  }

  /** Every trade of the session names a positive quantity. */
  ghost predicate PositiveQuantities(calls: seq<Call>) {
    forall i :: 0 <= i < |calls| && (calls[i].BuyCall? || calls[i].SellCall?) ==> calls[i].quantity > 0
  }

  /**
   * No negative cash and no empty or short position after any session whose trades name
   * positive quantities and whose quotes are never negative.
   */
  lemma {:induction false} ReplayStaysSolvent(b: Book, calls: seq<Call>, quote: string -> real)
    requires Solvent(b)
    requires PositiveQuantities(calls)
    requires forall symbol :: quote(symbol) >= 0.0
    ensures Solvent(Replay(b, calls, quote))
    decreases |calls|
  {
    if calls != [] {
      match calls[0] {
        case DepositCall(amount) => OperationsKeepSolvent(b, amount, "", 1, 0.0);
        case WithdrawCall(amount) => OperationsKeepSolvent(b, amount, "", 1, 0.0);
        case BuyCall(symbol, quantity) => OperationsKeepSolvent(b, 1.0, symbol, quantity, quote(symbol));
        case SellCall(symbol, quantity) => OperationsKeepSolvent(b, 1.0, symbol, quantity, quote(symbol));
      }
      assert PositiveQuantities(calls[1..]) by {
        forall i | 0 <= i < |calls| - 1 ensures calls[1..][i] == calls[i + 1] { }
      }
      ReplayStaysSolvent(Step(b, calls[0], quote).Or(b), calls[1..], quote);
    }
  }
}
