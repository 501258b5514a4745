/** The stand-in quote service of the trading simulator: a fixed price table. */
module Prices {

  /** The three symbols the test implementation knows, with their prices. */
  const Table: map<string, real> := map["AAPL" := 150.0, "TSLA" := 700.0, "GOOGL" := 2800.0]

  /** Current price of one share of `symbol`; 0.0 for any symbol outside the table. */
  function SharePrice(symbol: string): (p: real)
    ensures symbol in Table ==> p == Table[symbol]
    ensures symbol !in Table ==> p == 0.0
    ensures p >= 0.0
    ensures p > 0.0 <==> symbol in Table
  {
    if symbol in Table then Table[symbol] else 0.0
  }

  /** The known symbols and one unknown one, as the price test pins them down. */
  lemma KnownAndUnknownSymbols()
    ensures SharePrice("AAPL") == 150.0
    ensures SharePrice("TSLA") == 700.0
    ensures SharePrice("GOOGL") == 2800.0
    ensures SharePrice("UNKNOWN") == 0.0
  {
  }
}
