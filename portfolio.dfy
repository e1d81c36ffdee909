/**
 * A strategy's ledger: a map from currency symbol to the amount held.
 * The reads (`balance`, `balanceByMarket`, `canAffordBuy`, `canAffordSell`)
 * are functions of the balances map; the updates (`add`, `remove`, `buy`,
 * `sell`) are methods of the `Portfolio` class that reassign that map, and
 * `value` folds it into a total with prices supplied by the exchange.
 * Funds are debited the moment a buy or sell is applied: there is no
 * reservation of funds for pending orders.
 */
module Portfolios {
  import opened Wrappers
  import opened Market

  type Balances = map<string, real>

  /** `balance(symbol)`: a symbol with no entry holds nothing. */
  function BalanceOf(m: Balances, symbol: string): (r: real)
    ensures symbol in m ==> r == m[symbol]
    ensures symbol !in m ==> r == 0.0
  {
    if symbol in m then m[symbol] else 0.0
  }

  /** The balances after `add(symbol, amount)`: the entry is created if missing, and only it changes. */
  function Credit(m: Balances, symbol: string, amount: real): (r: Balances)
    ensures r.Keys == m.Keys + {symbol}
    ensures symbol !in m ==> r[symbol] == amount
    ensures BalanceOf(r, symbol) == BalanceOf(m, symbol) + amount
    ensures forall s :: s != symbol ==> BalanceOf(r, s) == BalanceOf(m, s)
  {
    m[symbol := BalanceOf(m, symbol) + amount]
  }

  /**
   * `add` and `balance` test the entry for truthiness, so an entry holding 0
   * behaves exactly like a missing one.
   */
  lemma ZeroEntryIsMissing(m: Balances, symbol: string, amount: real)
    requires symbol in m && m[symbol] == 0.0
    ensures BalanceOf(m, symbol) == BalanceOf(m - {symbol}, symbol)
    ensures Credit(m, symbol, amount) == Credit(m - {symbol}, symbol, amount)
  {
  }

  /** The balances after `buy(market, amount, cost)`: base up by amount, quote down by cost, nothing else. */
  function Bought(m: Balances, market: Pair, amount: real, cost: real): (r: Balances)
    ensures r.Keys == m.Keys + {market.base, market.quote}
    ensures market.base != market.quote ==>
      BalanceOf(r, market.base) == BalanceOf(m, market.base) + amount &&
      BalanceOf(r, market.quote) == BalanceOf(m, market.quote) - cost
    ensures market.base == market.quote ==> BalanceOf(r, market.base) == BalanceOf(m, market.base) + amount - cost
    ensures forall s :: s != market.base && s != market.quote ==> BalanceOf(r, s) == BalanceOf(m, s)
  {
    Credit(Credit(m, market.base, amount), market.quote, -cost)
  }

  /** The balances after `sell(market, amount, cost)`: quote up by cost, base down by amount, nothing else. */
  function Sold(m: Balances, market: Pair, amount: real, cost: real): (r: Balances)
    ensures r.Keys == m.Keys + {market.base, market.quote}
    ensures market.base != market.quote ==>
      BalanceOf(r, market.quote) == BalanceOf(m, market.quote) + cost &&
      BalanceOf(r, market.base) == BalanceOf(m, market.base) - amount
    ensures market.base == market.quote ==> BalanceOf(r, market.base) == BalanceOf(m, market.base) + cost - amount
    ensures forall s :: s != market.base && s != market.quote ==> BalanceOf(r, s) == BalanceOf(m, s)
  {
    Credit(Credit(m, market.quote, cost), market.base, -amount)
  }

  /** A sell with the same market, amount and cost undoes a buy, symbol by symbol. */
  lemma BuyThenSellRestores(m: Balances, market: Pair, amount: real, cost: real)
    ensures Sold(Bought(m, market, amount, cost), market, amount, cost).Keys == m.Keys + {market.base, market.quote}
    ensures forall s :: BalanceOf(Sold(Bought(m, market, amount, cost), market, amount, cost), s) == BalanceOf(m, s)
  {
  }

  /** `balanceByMarket(symbol, side)`: the balance of one side of a market, or 0 when the exchange does not know the market. */
  function BalanceByMarket(m: Balances, markets: map<string, Pair>, symbol: string, side: Side): (r: real)
    ensures symbol !in markets ==> r == 0.0
    ensures symbol in markets && side == Quote ==> r == BalanceOf(m, markets[symbol].quote)
    ensures symbol in markets && side == Base ==> r == BalanceOf(m, markets[symbol].base)
  {
    if symbol !in markets then 0.0 else BalanceOf(m, Currency(markets[symbol], side))
  }

  /** `canAffordBuy`: the quote balance covers the request's cost; an unknown market holds 0. */
  function CanAffordBuy(m: Balances, markets: map<string, Pair>, req: OrderRequest): (ok: bool)
    ensures req.market in markets ==> (ok <==> req.Cost() <= BalanceOf(m, markets[req.market].quote))
    ensures req.market !in markets ==> (ok <==> req.Cost() <= 0.0)
  {
    BalanceByMarket(m, markets, req.market, Quote) >= req.Cost()
  }

  /** `canAffordSell`: the base balance covers the request's cost (cost, not amount); an unknown market holds 0. */
  function CanAffordSell(m: Balances, markets: map<string, Pair>, req: OrderRequest): (ok: bool)
    ensures req.market in markets ==> (ok <==> req.Cost() <= BalanceOf(m, markets[req.market].base))
    ensures req.market !in markets ==> (ok <==> req.Cost() <= 0.0)
  {
    BalanceByMarket(m, markets, req.market, Base) >= req.Cost()
  }

  // ----- valuation -----

  /** What `value(quote)` reports: the total and one entry per held symbol. */
  datatype Valuation = Valuation(total: real, entries: map<string, real>)

  /** Every held symbol other than the quote symbol has a price in the quote symbol. */
  ghost predicate Priced(m: Balances, quote: string, price: (string, string) -> Option<real>) {
    forall s :: s in m && s != quote ==> price(s, quote).Some?
  }

  /** One symbol's share of the valuation: the quote balance passes through, any other is priced. */
  function Contribution(m: Balances, quote: string, price: (string, string) -> Option<real>, s: string): real {
    if s == quote then BalanceOf(m, s)
    else match price(s, quote)
      case Some(rate) => rate * BalanceOf(m, s)
      case None => 0.0
  }

  lemma PricedContribution(m: Balances, quote: string, price: (string, string) -> Option<real>, s: string, rate: real)
    requires s in m && s != quote && price(s, quote) == Some(rate)
    ensures Contribution(m, quote, price, s) == rate * m[s]
  {
  }

  /** The sum of the contributions of `keys`, in no particular order. */
  ghost function Sum(m: Balances, quote: string, price: (string, string) -> Option<real>, keys: set<string>): real
    decreases keys
  {
    if keys == {} then 0.0
    else
      var s :| s in keys;
      Contribution(m, quote, price, s) + Sum(m, quote, price, keys - {s})
  }

  /** The value of every holding, in the quote symbol. */
  ghost function Worth(m: Balances, quote: string, price: (string, string) -> Option<real>): real {
    Sum(m, quote, price, m.Keys)
  }

  /** Any member of the set can be taken out first: the sum does not depend on the order of the fold. */
  lemma {:induction false} SumRemove(m: Balances, quote: string, price: (string, string) -> Option<real>, keys: set<string>, s: string)
    requires s in keys
    ensures Sum(m, quote, price, keys) == Contribution(m, quote, price, s) + Sum(m, quote, price, keys - {s})
    decreases keys
  {
    var t :| t in keys && Sum(m, quote, price, keys) == Contribution(m, quote, price, t) + Sum(m, quote, price, keys - {t});
    if t != s {
      SumRemove(m, quote, price, keys - {t}, s);
      SumRemove(m, quote, price, keys - {s}, t);
      assert keys - {t} - {s} == keys - {s} - {t};
    }
  }

  /** Adding one more symbol to the summed set adds its contribution. */
  lemma SumAdd(m: Balances, quote: string, price: (string, string) -> Option<real>, keys: set<string>, s: string)
    requires s !in keys
    ensures Sum(m, quote, price, keys + {s}) == Contribution(m, quote, price, s) + Sum(m, quote, price, keys)
  {
    SumRemove(m, quote, price, keys + {s}, s);
    assert keys + {s} - {s} == keys;
  }

  /** Two ledgers whose contributions agree on `keys` sum to the same value over `keys`. */
  lemma {:induction false} SumAgree(m: Balances, n: Balances, quote: string, price: (string, string) -> Option<real>, keys: set<string>)
    requires forall s :: s in keys ==> Contribution(m, quote, price, s) == Contribution(n, quote, price, s)
    ensures Sum(m, quote, price, keys) == Sum(n, quote, price, keys)
    decreases keys
  {
    if keys != {} {
      var s :| s in keys;
      SumRemove(m, quote, price, keys, s);
      SumRemove(n, quote, price, keys, s);
      SumAgree(m, n, quote, price, keys - {s});
    }
  }

  /** The rate at which `s` is counted in a valuation in `quote`. */
  function Rate(quote: string, price: (string, string) -> Option<real>, s: string): real {
    if s == quote then 1.0
    else match price(s, quote)
      case Some(rate) => rate
      case None => 0.0
  }

  /** Crediting `amount` of one symbol raises the worth by that amount at that symbol's rate. */
  lemma CreditWorth(m: Balances, s: string, amount: real, quote: string, price: (string, string) -> Option<real>)
    ensures Worth(Credit(m, s, amount), quote, price) == Worth(m, quote, price) + amount * Rate(quote, price, s)
  {
    var n := Credit(m, s, amount);
    assert forall t :: t != s ==> Contribution(n, quote, price, t) == Contribution(m, quote, price, t);
    assert Contribution(n, quote, price, s) == Contribution(m, quote, price, s) + amount * Rate(quote, price, s);
    SumRemove(n, quote, price, n.Keys, s);
    SumAgree(n, m, quote, price, n.Keys - {s});
    if s in m {
      assert n.Keys == m.Keys;
      SumRemove(m, quote, price, m.Keys, s);
    } else {
      assert n.Keys - {s} == m.Keys;
      assert Contribution(m, quote, price, s) == 0.0;
    }
  }

  /**
   * Buying at the rate the exchange quotes for the base currency moves value
   * from the quote currency to the base currency without creating or
   * destroying any.
   */
  lemma BuyAtRateKeepsWorth(m: Balances, market: Pair, amount: real, rate: real, price: (string, string) -> Option<real>)
    requires market.base != market.quote
    requires price(market.base, market.quote) == Some(rate)
    ensures Worth(Bought(m, market, amount, amount * rate), market.quote, price) == Worth(m, market.quote, price)
  {
    var q := market.quote;
    var cost := amount * rate;
    var n := Credit(m, market.base, amount);
    assert Rate(q, price, market.base) == rate;
    assert Rate(q, price, q) == 1.0;
    CreditWorth(m, market.base, amount, q, price);
    assert Worth(n, q, price) == Worth(m, q, price) + cost;
    CreditWorth(n, q, -cost, q, price);
    assert Worth(Credit(n, q, -cost), q, price) == Worth(n, q, price) - cost;
  }

  /** Selling at the rate the exchange quotes moves value back from the base currency to the quote currency. */
  lemma SellAtRateKeepsWorth(m: Balances, market: Pair, amount: real, rate: real, price: (string, string) -> Option<real>)
    requires market.base != market.quote
    requires price(market.base, market.quote) == Some(rate)
    ensures Worth(Sold(m, market, amount, amount * rate), market.quote, price) == Worth(m, market.quote, price)
  {
    var q := market.quote;
    var cost := amount * rate;
    var n := Credit(m, q, cost);
    assert Rate(q, price, market.base) == rate;
    assert Rate(q, price, q) == 1.0;
    CreditWorth(m, q, cost, q, price);
    assert Worth(n, q, price) == Worth(m, q, price) + cost;
    CreditWorth(n, market.base, -amount, q, price);
    assert Worth(Credit(n, market.base, -amount), q, price) == Worth(n, q, price) - cost;
  }

  /**
   * A ledger funded with 1000 USDT that buys 50 ETH for 500 USDT holds 50 ETH
   * and 500 USDT, which at 12 USDT per ETH is worth 1100 USDT.
   */
  lemma FundedBuyValuation()
    ensures Bought(map["USDT" := 1000.0], Pair("ETH", "USDT"), 50.0, 500.0) == map["USDT" := 500.0, "ETH" := 50.0]
    ensures Worth(map["USDT" := 500.0, "ETH" := 50.0], "USDT", (b: string, q: string) => Some(12.0)) == 1100.0
  {
    var price := (b: string, q: string) => Some(12.0);
    var m: Balances := map["USDT" := 1000.0];
    SumRemove(m, "USDT", price, m.Keys, "USDT");
    assert m.Keys - {"USDT"} == {};
    BuyAtRateKeepsWorth(m, Pair("ETH", "USDT"), 50.0, 12.0, price);
    CreditWorth(Bought(m, Pair("ETH", "USDT"), 50.0, 600.0), "USDT", 100.0, "USDT", price);
    assert Credit(Bought(m, Pair("ETH", "USDT"), 50.0, 600.0), "USDT", 100.0) == map["USDT" := 500.0, "ETH" := 50.0];
  }

  // ----- the ledger object -----

  class Portfolio {
    /** The exchange whose symbol table `balanceByMarket` consults. */
    const exchange: Exchange
    var balances: Balances

    /** A new portfolio holds nothing. */
    constructor (exchange: Exchange)
      ensures this.exchange == exchange && balances == map[]
    {
      this.exchange := exchange;
      balances := map[];
    }

    method Add(symbol: string, amount: real)
      modifies this`balances
      ensures balances == Credit(old(balances), symbol, amount)
    {
      if symbol !in balances || balances[symbol] == 0.0 {
        balances := balances[symbol := 0.0];
      }
      balances := balances[symbol := balances[symbol] + amount];
    }

    /** `remove(symbol, amount)` is `add(symbol, -amount)`. */
    method Remove(symbol: string, amount: real)
      modifies this`balances
      ensures balances == Credit(old(balances), symbol, -amount)
    {
      Add(symbol, -amount);
    }

    method Buy(market: Pair, amount: real, cost: real)
      modifies this`balances
      ensures balances == Bought(old(balances), market, amount, cost)
    {
      Add(market.base, amount);
      Remove(market.quote, cost);
    }

    method Sell(market: Pair, amount: real, cost: real)
      modifies this`balances
      ensures balances == Sold(old(balances), market, amount, cost)
    {
      Add(market.quote, cost);
      Remove(market.base, amount);
    }

    /**
     * `value(quote)`: folds every held symbol into a total, pricing all but the
     * quote symbol through `price`. A symbol without a price makes the whole
     * valuation fail, naming that symbol.
     */
    method Value(quote: string, price: (string, string) -> Option<real>) returns (r: Result<Valuation, string>)
      ensures r.Success? <==> Priced(balances, quote, price)
      ensures r.Success? ==> r.value.total == Worth(balances, quote, price)
      ensures r.Success? ==> r.value.entries.Keys == balances.Keys
      ensures r.Success? ==> forall s :: s in r.value.entries ==> r.value.entries[s] == Contribution(balances, quote, price, s)
      ensures r.Failure? ==> r.error in balances && r.error != quote && price(r.error, quote).None?
    {
      var m := balances;
      var total := 0.0;
      var entries: map<string, real> := map[];
      var rest := m.Keys;
      ghost var done: set<string> := {};
      while rest != {}
        invariant rest <= m.Keys && done == m.Keys - rest
        invariant entries.Keys == done
        invariant forall s :: s in entries ==> entries[s] == Contribution(m, quote, price, s)
        invariant forall s :: s in done && s != quote ==> price(s, quote).Some?
        invariant total == Sum(m, quote, price, done)
        decreases rest
      {
        var base :| base in rest;
        var worth: real;
        if base == quote {
          worth := m[base];
        } else {
          match price(base, quote)
          case None =>
            return Failure(base);
          case Some(rate) =>
            worth := rate * m[base];
            PricedContribution(m, quote, price, base, rate);
        }
        entries := entries[base := worth];
        total := total + worth;
        SumAdd(m, quote, price, done, base);
        rest := rest - {base};
        done := done + {base};
      }
      assert done == m.Keys;
      r := Success(Valuation(total, entries));
    }
  }
}
