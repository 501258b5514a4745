/**
 * Market value of the holdings: the sum over every held symbol of its quoted price
 * times the number of shares, as the portfolio valuation adds it up.
 */
module Valuation {
  import opened Ledger

  /** Some symbol of a non-empty positions map; which one does not matter (see WorthRemove). */
  ghost function Pick(positions: map<string, int>): (s: string)
    requires positions != map[]
    ensures s in positions
  {
    var s :| s in positions; s
  }

  /** Value of `shares` shares at `price` each. */
  function LineValue(price: real, shares: int): real {
    price * shares as real
  }

  /** Value of the holdings at the quotes given. */
  ghost function Worth(positions: map<string, int>, quote: string -> real): real
    decreases |positions|
  {
    if positions == map[] then 0.0
    else
      var s := Pick(positions);
      SmallerWithout(positions, s);
      LineValue(quote(s), positions[s]) + Worth(positions - {s}, quote)
  }

  lemma SmallerWithout(positions: map<string, int>, symbol: string)
    requires symbol in positions
    ensures |positions - {symbol}| == |positions| - 1
  {
    assert (positions - {symbol}).Keys == positions.Keys - {symbol};
  }

  /** The sum does not depend on the order symbols are visited: any held symbol can come first. */
  lemma {:induction false} WorthRemove(positions: map<string, int>, symbol: string, quote: string -> real)
    requires symbol in positions
    ensures Worth(positions, quote)
         == LineValue(quote(symbol), positions[symbol]) + Worth(positions - {symbol}, quote)
    decreases |positions|
  {
    var s := Pick(positions);
    if s != symbol {
      var both := positions - {s} - {symbol};
      assert positions - {symbol} - {s} == both;
      SmallerWithout(positions, s);
      SmallerWithout(positions, symbol);
      assert Worth(positions, quote)
          == LineValue(quote(s), positions[s]) + Worth(positions - {s}, quote);
      WorthRemove(positions - {s}, symbol, quote);
      WorthRemove(positions - {symbol}, s, quote);
    }
  }

  /** Changing one entry changes the value by that entry's quoted difference. */
  lemma WorthUpdate(positions: map<string, int>, symbol: string, shares: int, quote: string -> real)
    ensures Worth(positions[symbol := shares], quote)
         == Worth(positions, quote) + LineValue(quote(symbol), shares - Held(positions, symbol))
  {
    var updated := positions[symbol := shares];
    WorthRemove(updated, symbol, quote);
    assert updated - {symbol} == positions - {symbol};
    if symbol in positions {
      WorthRemove(positions, symbol, quote);
    } else {
      assert positions - {symbol} == positions;
    }
  }

  /** Removing an entry removes its quoted value. */
  lemma WorthDelete(positions: map<string, int>, symbol: string, quote: string -> real)
    ensures Worth(positions - {symbol}, quote)
         == Worth(positions, quote) - LineValue(quote(symbol), Held(positions, symbol))
  {
    if symbol in positions {
      WorthRemove(positions, symbol, quote);
    } else {
      assert positions - {symbol} == positions;
    }
  }

  /** Cash plus holdings at the quotes given: the portfolio value of a book. */
  ghost function PortfolioValue(b: Book, quote: string -> real): real {
    b.balance + Worth(b.positions, quote)
  }

  /**
   * Trading at the quoted price moves value between cash and holdings and leaves the
   * portfolio value, and so the profit or loss, where it was.
   */
  lemma TradeAtQuoteKeepsValue(b: Book, symbol: string, quantity: int, quote: string -> real)
    ensures BuyStock(b, symbol, quantity, quote(symbol)).Ok? ==>
      PortfolioValue(BuyStock(b, symbol, quantity, quote(symbol)).book, quote) == PortfolioValue(b, quote)
    ensures SellStock(b, symbol, quantity, quote(symbol)).Ok? ==>
      PortfolioValue(SellStock(b, symbol, quantity, quote(symbol)).book, quote) == PortfolioValue(b, quote)
  {
    var price := quote(symbol);
    WorthUpdate(b.positions, symbol, Held(b.positions, symbol) + quantity, quote);
    if SellStock(b, symbol, quantity, price).Ok? {
      var left := b.positions[symbol] - quantity;
      assert LineValue(price, left - Held(b.positions, symbol)) == -(price * quantity as real);
      if left == 0 {
        WorthDelete(b.positions, symbol, quote);
      } else {
        WorthUpdate(b.positions, symbol, left, quote);
      }
    }
  }
}
