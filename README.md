# Trading-simulator account ledger in Dafny

This project models the account ledger of the trading simulator
(`modulo_3/engineering_team/output/accounts.py`): the fixed stand-in price table
`get_share_price` and the class `Account`. An account has a fixed owner and opening
deposit, a cash balance, a map from stock symbol to shares held, and an append-only
log of `(action, symbol, quantity, price, total)` trades. `deposit`, `withdraw`,
`buy_stock` and `sell_stock` check their guard first. They either raise `ValueError`
and change nothing, or update the fields in place. The portfolio value is the cash
plus every holding at its current price. The profit or loss is that value minus the
opening deposit.

Layout:

- `prices.dfy` (module `Prices`): the price table, 0.0 for unknown symbols.
- `ledger.dfy` (module `Ledger`): the account state as a value (`Book`), the log
  entry `Tx`, the error reasons, and the four operations as functions returning
  `Ok(book)` or `Err(reason)`. These functions are the specification of the class.
- `accounts.dfy` (module `Accounts`): class `Account` with the source's fields. Its
  methods update them in place. Each method's contract ties the new state to the
  ledger function applied to the old state, or to the old state itself when the
  method raises. Its `modifies` frame says which fields it may touch. The
  portfolio value is a loop over the holdings, as in the source.
- `valuation.dfy` (module `Valuation`): the value of the holdings as a sum over the
  map, and the proof that the order of the sum does not matter. It also proves that
  trading at the quoted price does not change the portfolio value.
- `invariants.dfy` (module `Invariants`): what each operation preserves, round trips
  between operations, and the corner cases the source allows.
- `session.dfy` (module `Session`): any sequence of calls on one account, where a
  call that raises leaves the account as it was. The invariants are carried over the
  whole sequence.
- `scenarios.dfy` (module `Scenarios`): every unit test of
  `modulo_3/engineering_team/output/test_accounts.py`, one method each, with the
  test's own data, replayed against the method contracts alone.

Prices: every trading and valuation method takes `quote: string -> real`. The
program always passes its own table, `Prices.SharePrice`. The tests replace it with
fixed prices. Making it a parameter covers both.

Sign checks: the source never checks that a traded quantity is positive, or that a
price is non-negative. The model does not add these checks. Solvency is therefore
proved only under explicit assumptions: positive quantities, non-negative prices,
and a non-negative balance at the start. Two lemmas show what goes wrong without
them, each from a solvent account with a balance of 0 that holds AAPL at 150.0:

- `Invariants.NegativeSellOverdraws`: with 1 share held, selling −5 passes the
  share check and takes the balance from 0 to −750.
- `Invariants.NegativeBuyShortSells`: with 2 shares held, buying −5 passes the
  funds check, pays out 750 and leaves a position of −3. The account has sold
  shares it did not own.

## Model

| member | source | states |
|---|---|---|
| `Prices.SharePrice` | modulo_3/engineering_team/output/accounts.py:3-15 | the price is the table's entry for a listed symbol and 0.0 otherwise; it is never negative, and it is positive exactly for the three listed symbols |
| `Prices.KnownAndUnknownSymbols` | modulo_3/engineering_team/output/test_accounts.py:6-12 | AAPL, TSLA and GOOGL are quoted at 150, 700 and 2800; an unknown symbol at 0 |
| `Ledger.Deposit` | modulo_3/engineering_team/output/accounts.py:37-45 | raises exactly when the amount is not positive; otherwise only the balance changes, by exactly the amount |
| `Ledger.Withdraw` | modulo_3/engineering_team/output/accounts.py:47-57 | raises exactly when the amount is not positive or exceeds the balance; otherwise only the balance changes, down by the amount, and it is not negative afterwards |
| `Ledger.BuyStock` | modulo_3/engineering_team/output/accounts.py:59-74 | raises exactly when price times quantity exceeds the balance; a buy that goes through never leaves the balance negative |
| `Ledger.SellStock` | modulo_3/engineering_team/output/accounts.py:76-93 | raises exactly when the symbol is not held or fewer shares are held than sold; after a sale the symbol is either gone or holds a positive count |
| `Accounts.Account.constructor` | modulo_3/engineering_team/output/accounts.py:24-35 | the owner and opening deposit are as given, the balance equals the opening deposit, and there are no positions and no transactions |
| `Accounts.Account.Deposit` | modulo_3/engineering_team/output/accounts.py:37-45 | may change only the balance; raises exactly when the amount is not positive and then changes nothing; otherwise adds the amount |
| `Accounts.Account.Withdraw` | modulo_3/engineering_team/output/accounts.py:47-57 | may change only the balance; goes through exactly when 0 < amount <= balance, subtracts the amount and leaves a non-negative balance; otherwise nothing changes |
| `Accounts.Account.BuyStock` | modulo_3/engineering_team/output/accounts.py:59-74 | goes through exactly when price times quantity is at most the balance; then the balance drops by that total, the position becomes the old count (0 when absent) plus the quantity, and exactly one BUY entry is appended; otherwise nothing changes |
| `Accounts.Account.SellStock` | modulo_3/engineering_team/output/accounts.py:76-93 | goes through exactly when the symbol is held with at least the quantity; then the balance rises by price times quantity, the position drops by the quantity and its key is removed when it reaches 0, no other position changes, and exactly one SELL entry is appended; otherwise nothing changes |
| `Accounts.Account.GetPortfolioValue` | modulo_3/engineering_team/output/accounts.py:95-104 | the loop over the holdings returns the cash plus the sum of price times shares over every held symbol, and changes nothing |
| `Accounts.Account.GetProfitLoss` | modulo_3/engineering_team/output/accounts.py:106-112 | returns the portfolio value minus the opening deposit, and changes nothing |
| `Accounts.Account.GetHoldings` | modulo_3/engineering_team/output/accounts.py:114-120 | returns the current positions map |
| `Accounts.Account.GetTransactions` | modulo_3/engineering_team/output/accounts.py:122-128 | returns the current transaction log |
| `Valuation.WorthRemove` | modulo_3/engineering_team/output/accounts.py:101-104 | the holdings' value is the same whichever symbol is added first, so the loop's visiting order does not matter |
| `Valuation.WorthUpdate` | modulo_3/engineering_team/output/accounts.py:73 | setting one position changes the holdings' value by that symbol's price times the change in shares |
| `Valuation.WorthDelete` | modulo_3/engineering_team/output/accounts.py:91-92 | deleting a position removes exactly its price times its shares from the holdings' value |
| `Valuation.TradeAtQuoteKeepsValue` | modulo_3/engineering_team/output/accounts.py:66-93 | a buy or sell that goes through at the quoted price leaves the portfolio value, and hence the profit or loss, unchanged |
| `Invariants.OpenEstablishes` | modulo_3/engineering_team/output/accounts.py:31-35 | a new account's holdings agree with its (empty) log; it is solvent exactly when the opening deposit is not negative |
| `Invariants.CashOperationsKeepLog` | modulo_3/engineering_team/output/accounts.py:43-57 | deposit and withdraw, whether or not they raise, leave positions and log untouched |
| `Invariants.TradesAppendOneEntry` | modulo_3/engineering_team/output/accounts.py:74 | a successful buy or sell appends exactly its own entry at the end and keeps every earlier entry |
| `Invariants.BuyKeepsHoldingsMatchLog` | modulo_3/engineering_team/output/accounts.py:72-74 | if every position equals the shares bought minus sold in the log, it still does after a buy |
| `Invariants.SellKeepsHoldingsMatchLog` | modulo_3/engineering_team/output/accounts.py:89-93 | the same after a sell, including when the emptied key is deleted |
| `Invariants.TradesKeepEntriesPriced` | modulo_3/engineering_team/output/accounts.py:66-74 | every log entry keeps total = price × quantity across buys and sells |
| `Invariants.OperationsKeepSolvent` | modulo_3/engineering_team/src/engineering_team/main.py:21 | with a positive quantity and a non-negative price, each of the four operations keeps the balance non-negative and every stored position positive |
| `Invariants.NegativeSellOverdraws` | modulo_3/engineering_team/output/accounts.py:83-89 | selling a negative quantity of a held symbol passes the share check and drives the balance negative |
| `Invariants.NegativeBuyShortSells` | modulo_3/engineering_team/output/accounts.py:66-73 | buying a negative quantity passes the funds check, pays cash out and leaves a negative position, so shares not owned are sold |
| `Invariants.BuyUnquotedIsFree` | modulo_3/engineering_team/output/accounts.py:66-73 | with the price table, buying a symbol outside it costs nothing and still records the position |
| `Invariants.BuyZeroStoresZero` | modulo_3/engineering_team/output/accounts.py:73 | buying zero shares of a symbol not held stores an entry of 0 |
| `Invariants.DepositThenWithdraw` | modulo_3/engineering_team/output/accounts.py:43-57 | withdrawing what was just deposited restores the account exactly (from a non-negative balance) |
| `Invariants.WithdrawThenDeposit` | modulo_3/engineering_team/output/accounts.py:43-57 | depositing what was just withdrawn restores the account exactly |
| `Invariants.BuyThenSell` | modulo_3/engineering_team/output/accounts.py:66-93 | on a solvent account, selling right after buying the same positive quantity at the same price goes through and restores cash and positions, with a BUY then a SELL entry added |
| `Session.ReplayAppendsOnly` | modulo_3/engineering_team/output/accounts.py:37-93 | over any sequence of calls the log only grows at its end, by exactly one entry per trade that went through |
| `Session.ReplayKeepsHoldingsMatchLog` | modulo_3/engineering_team/output/accounts.py:59-93 | over any sequence of calls every position stays equal to the log's shares bought minus shares sold |
| `Session.ReplayKeepsEntriesPriced` | modulo_3/engineering_team/output/accounts.py:66-93 | over any sequence of calls every log entry keeps total = price × quantity |
| `Session.ReplayStaysSolvent` | modulo_3/engineering_team/src/engineering_team/main.py:21 | over any sequence of calls with positive trade quantities and non-negative quotes, a solvent account stays solvent: no negative cash and no empty or short position |

## Left out

- Floating point: money is `real`, so sums and products are exact. Python `float` rounding is not modelled. This includes the order in which `get_portfolio_value` adds the holdings, which the model proves irrelevant only for exact arithmetic.
- `get_share_price` inside the operations: it becomes the `quote` parameter, and the program's own table is `Prices.SharePrice`. The tests' patching of it is modelled by passing other functions.
- Error messages: the Spanish `ValueError` texts become the `Ledger.Error` reasons. Raising becomes the `Raised` outcome.
- `Accounts.Account.GetHoldings`, `Accounts.Account.GetTransactions`: they return copies of the values. The source returns the live dict and list, so a caller could change the account through them. Aliasing is not modelled.
- Mutable `user_id` and `initial_deposit`: no method of the source changes them, so they are `const` here. Direct assignment to attributes from outside, as some tests do to set up state, is possible only for the `var` fields.
- The Gradio front end (`modulo_3/engineering_team/output/app.py`) and its extra checks are not part of this model. Those checks are a positive opening deposit and a non-zero price before buying.
- The research pipeline (`modulo_2/ejercicio/`), the chat application (`modulo_1/app.py`) and the crew configurations are not part of this model. They consist of calls to external language-model, e-mail and notification services.
