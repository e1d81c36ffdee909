/**
 * The market facade as the engine, the ledger and the tickers see it: currency
 * pairs, order requests, and the exchange's shared state (the dirty flag, the
 * virtual clock and the symbol table behind `sym`).
 */
module Market {
  /** The two currencies of a market symbol such as "ETH/BTC". */
  datatype Pair = Pair(base: string, quote: string)

  /** Which currency of a pair a balance lookup reads; the quote side is the default. */
  datatype Side = Base | Quote

  function Currency(p: Pair, side: Side): string {
    match side
    case Base => p.base
    case Quote => p.quote
  }

  /** The request types a strategy emits; any other type name is carried as `Other`. */
  datatype RequestType = LimitBuy | LimitSell | Other(name: string)

  /** An order request from a strategy; its cost is amount times price. */
  datatype OrderRequest = OrderRequest(kind: RequestType, market: string, amount: real, price: real)
  {
    function Cost(): real {
      amount * price
    }
  }

  /** The exchange's mutable state shared by the tickers (producers) and the engine loop (consumer). */
  class Exchange {
    /** Set by a ticker that appended data; cleared by the engine loop once it has ticked every strategy. */
    var dirty: bool
    /** Virtual time in milliseconds. */
    var time: int
    const backtesting: bool
    /** The symbol table behind `sym(symbol)`; a symbol absent here is unknown to the exchange. */
    const markets: map<string, Pair>

    constructor (backtesting: bool, markets: map<string, Pair>, start: int)
      ensures this.backtesting == backtesting && this.markets == markets
      ensures time == start && !dirty
    {
      this.backtesting := backtesting;
      this.markets := markets;
      time := start;
      dirty := false;
    }

    /** Marks that new data has arrived; nothing else changes. */
    method Invalidate()
      modifies this`dirty
      ensures dirty
    {
      dirty := true;
    }
  }
}
