/**
 * The trader engine: it divides the trader's funds among its strategies in
 * proportion to their weights, admits or refuses the order requests the
 * strategies emit, and runs the demand-driven loop that ticks every strategy
 * when the exchange has new data and, in backtest mode, advances virtual time.
 */
module Engine {
  import opened Wrappers
  import opened Market
  import opened Portfolios

  // ----- dividing the funds -----

  /** `sumWeight`: the weights added up left to right, starting from 0. */
  function SumWeight(ws: seq<real>): (sum: real)
    ensures ws == [] ==> sum == 0.0
  {
    if ws == [] then 0.0 else SumWeight(ws[..|ws| - 1]) + ws[|ws| - 1]
  }

  /** The sum does not depend on how the list is split: the weights of `a + b` add up to those of `a` plus those of `b`. */
  lemma {:induction false} SumWeightSplit(a: seq<real>, b: seq<real>)
    ensures SumWeight(a + b) == SumWeight(a) + SumWeight(b)
    decreases |b|
  {
    if b != [] {
      var n := |b| - 1;
      assert (a + b)[..|a + b| - 1] == a + b[..n];
      SumWeightSplit(a, b[..n]);
    } else {
      assert a + b == a;
    }
  }

  /**
   * One strategy's part of `fund`: `fund * weight / sum`. A zero weight sum
   * hands out nothing.
   */
  function Share(fund: real, weight: real, sum: real): (r: real)
    ensures sum != 0.0 ==> r * sum == fund * weight
    ensures sum == 0.0 ==> r == 0.0
  {
    if sum == 0.0 then 0.0 else fund * weight / sum
  }

  /** The share of every strategy, computed against the sum of all the weights. */
  function Allocation(fund: real, ws: seq<real>): (shares: seq<real>)
    ensures |shares| == |ws|
    ensures forall i :: 0 <= i < |ws| ==> shares[i] == Share(fund, ws[i], SumWeight(ws))
  {
    Portions(fund, ws, SumWeight(ws))
  }

  function Portions(fund: real, ws: seq<real>, sum: real): (shares: seq<real>)
    ensures |shares| == |ws| && forall i :: 0 <= i < |ws| ==> shares[i] == Share(fund, ws[i], sum)
  {
    seq(|ws|, i requires 0 <= i < |ws| => Share(fund, ws[i], sum))
  }

  /** What is actually handed out: the positive shares, added up. */
  function Funded(shares: seq<real>): real {
    if shares == [] then 0.0
    else Funded(shares[..|shares| - 1]) + (if shares[|shares| - 1] > 0.0 then shares[|shares| - 1] else 0.0)
  }

  /** A share is the weight scaled by the fund-per-unit-of-weight ratio `fund / sum`. */
  lemma ShareIsScaled(fund: real, w: real, sum: real)
    requires sum != 0.0
    ensures Share(fund, w, sum) == (fund / sum) * w
  {
  }

  /** Every weight multiplied by `k`. */
  function ScaledBy(k: real, ws: seq<real>): (r: seq<real>)
    ensures |r| == |ws|
  {
    if ws == [] then [] else ScaledBy(k, ws[..|ws| - 1]) + [k * ws[|ws| - 1]]
  }

  lemma {:induction false} ScaledAt(k: real, ws: seq<real>, i: nat)
    requires i < |ws|
    ensures ScaledBy(k, ws)[i] == k * ws[i]
  {
    var n := |ws| - 1;
    if i < n {
      ScaledAt(k, ws[..n], i);
    }
  }

  /** Shares that are all non-negative are handed out in full. */
  lemma {:induction false} FundedIsSum(xs: seq<real>)
    requires forall i :: 0 <= i < |xs| ==> xs[i] >= 0.0
    ensures Funded(xs) == SumWeight(xs)
  {
    if xs != [] {
      FundedIsSum(xs[..|xs| - 1]);
    }
  }

  lemma Distribute(k: real, a: real, b: real, c: real)
    requires c == a + b
    ensures k * a + k * b == k * c
  {
  }

  /** Scaling every weight by `k` scales their sum by `k`. */
  lemma {:induction false} SumScaled(k: real, ws: seq<real>)
    ensures SumWeight(ScaledBy(k, ws)) == k * SumWeight(ws)
  {
    if ws != [] {
      var n := |ws| - 1;
      SumScaled(k, ws[..n]);
      ScaledLast(k, ws);
      Distribute(k, SumWeight(ws[..n]), ws[n], SumWeight(ws));
    }
  }

  lemma ScaledLast(k: real, ws: seq<real>)
    requires ws != []
    ensures SumWeight(ScaledBy(k, ws)) == SumWeight(ScaledBy(k, ws[..|ws| - 1])) + k * ws[|ws| - 1]
  {
    var r := ScaledBy(k, ws);
    assert r[..|ws| - 1] == ScaledBy(k, ws[..|ws| - 1]);
  }

  lemma NonNegProduct(k: real, w: real)
    requires k >= 0.0 && w >= 0.0
    ensures k * w >= 0.0
  {
  }

  /** Non-negative weights scaled by a non-negative factor, all handed out, add up to the scaled weight sum. */
  lemma ScaledFunded(k: real, ws: seq<real>)
    requires k >= 0.0
    requires forall i :: 0 <= i < |ws| ==> ws[i] >= 0.0
    ensures Funded(ScaledBy(k, ws)) == k * SumWeight(ws)
  {
    var r := ScaledBy(k, ws);
    forall i | 0 <= i < |r| ensures r[i] >= 0.0 {
      ScaledAt(k, ws, i);
      NonNegProduct(k, ws[i]);
    }
    FundedIsSum(r);
    SumScaled(k, ws);
  }

  /** With a non-zero sum, the shares are the weights scaled by `fund / sum`. */
  lemma PortionsScaled(fund: real, ws: seq<real>, sum: real)
    requires sum != 0.0
    ensures Portions(fund, ws, sum) == ScaledBy(fund / sum, ws)
  {
    forall i | 0 <= i < |ws| ensures Portions(fund, ws, sum)[i] == ScaledBy(fund / sum, ws)[i] {
      ShareIsScaled(fund, ws[i], sum);
      ScaledAt(fund / sum, ws, i);
    }
  }

  lemma Cancel(fund: real, sum: real)
    requires sum != 0.0
    ensures (fund / sum) * sum == fund
  {
  }

  /**
   * With non-negative weights, a positive weight sum and non-negative funds,
   * the shares handed out add up to exactly the trader's funds: nothing is
   * created or lost by the division.
   */
  lemma {:induction false} DivvyUpConserves(fund: real, ws: seq<real>)
    requires fund >= 0.0 && SumWeight(ws) > 0.0
    requires forall i :: 0 <= i < |ws| ==> ws[i] >= 0.0
    ensures Funded(Allocation(fund, ws)) == fund
  {
    var sum := SumWeight(ws);
    PortionsScaled(fund, ws, sum);
    ScaledFunded(fund / sum, ws);
    Cancel(fund, sum);
  }

  // ----- admitting order requests -----

  /** How `consider` disposes of one order request. */
  datatype Admission =
    | Applied              // affordable: the portfolio was debited and credited at once
    | Unaffordable         // refused: the portfolio is unchanged
    | Ignored              // neither a limit buy nor a limit sell: dropped without a word
    | UnknownMarketFault   // affordable against the 0 balance of a market `sym` does not know; applying it throws

  /**
   * `consider`: a limit buy is applied when `canAffordBuy` holds, a limit sell
   * when `canAffordSell` holds; every other outcome leaves the balances as
   * they were.
   */
  function Admit(m: Balances, markets: map<string, Pair>, req: OrderRequest): (r: (Admission, Balances))
    ensures r.0 != Applied ==> r.1 == m
    ensures r.0 == Ignored <==> req.kind.Other?
    ensures req.kind == LimitBuy ==>
      (r.0 == Unaffordable <==> !CanAffordBuy(m, markets, req)) &&
      (r.0 == Applied <==> CanAffordBuy(m, markets, req) && req.market in markets) &&
      (r.0 == Applied ==> r.1 == Bought(m, markets[req.market], req.amount, req.Cost()))
    ensures req.kind == LimitSell ==>
      (r.0 == Unaffordable <==> !CanAffordSell(m, markets, req)) &&
      (r.0 == Applied <==> CanAffordSell(m, markets, req) && req.market in markets) &&
      (r.0 == Applied ==> r.1 == Sold(m, markets[req.market], req.amount, req.Cost()))
    ensures r.0 == UnknownMarketFault ==> req.market !in markets && req.Cost() <= 0.0
  {
    match req.kind
    case LimitBuy =>
      if !CanAffordBuy(m, markets, req) then (Unaffordable, m)
      else if req.market !in markets then (UnknownMarketFault, m)
      else (Applied, Bought(m, markets[req.market], req.amount, req.Cost()))
    case LimitSell =>
      if !CanAffordSell(m, markets, req) then (Unaffordable, m)
      else if req.market !in markets then (UnknownMarketFault, m)
      else (Applied, Sold(m, markets[req.market], req.amount, req.Cost()))
    case Other(_) => (Ignored, m)
  }

  /**
   * Two limit buys on one market that each fit the quote balance but together
   * exceed it: the first is applied and, because it debits at once, the
   * second is refused.
   */
  lemma SecondBuyRefused(m: Balances, markets: map<string, Pair>, first: OrderRequest, second: OrderRequest)
    requires first.kind == LimitBuy && second.kind == LimitBuy
    requires first.market in markets && second.market == first.market
    requires markets[first.market].base != markets[first.market].quote
    requires first.Cost() <= BalanceOf(m, markets[first.market].quote)
    requires first.Cost() + second.Cost() > BalanceOf(m, markets[first.market].quote)
    ensures Admit(m, markets, first).0 == Applied
    ensures Admit(Admit(m, markets, first).1, markets, second) == (Unaffordable, Admit(m, markets, first).1)
  {
  }

  // ----- strategies and the engine loop -----

  /** A strategy as the engine sees it: a weight, what it was registered with, and its portfolio. */
  class Strategy {
    const weight: real
    /** What `register` was handed: the fund symbol and the strategy's share. */
    var allotment: Option<(string, real)>
    var portfolio: Portfolio?

    constructor (weight: real)
      ensures this.weight == weight && allotment == None && portfolio == null
    {
      this.weight := weight;
      allotment := None;
      portfolio := null;
    }
  }

  ghost predicate Distinct(ss: seq<Strategy>) {
    forall i, j :: 0 <= i < j < |ss| ==> ss[i] != ss[j]
  }

  /** The strategy positions 0, 1, ..., n - 1 in list order: one tick each. */
  function EveryOnce(n: nat): (order: seq<int>)
    ensures |order| == n && forall i :: 0 <= i < n ==> order[i] == i
  {
    seq(n, i => i)
  }

  class Trader {
    const exchange: Exchange
    const strategies: seq<Strategy>
    const fundSymbol: string
    const fundAmount: real
    /** The scenario's end time; the backtest stops once virtual time passes it. */
    const scenarioEnd: int
    /** Every `tick()` call made so far, by the ticked strategy's position in `strategies`. */
    var ticks: seq<int>

    /** The state `init` leaves behind: strategies built, exchange connected, nothing ticked yet. */
    constructor (exchange: Exchange, strategies: seq<Strategy>, fundSymbol: string, fundAmount: real, scenarioEnd: int)
      requires Distinct(strategies)
      ensures this.exchange == exchange && this.strategies == strategies
      ensures this.fundSymbol == fundSymbol && this.fundAmount == fundAmount && this.scenarioEnd == scenarioEnd
      ensures ticks == []
    {
      this.exchange := exchange;
      this.strategies := strategies;
      this.fundSymbol := fundSymbol;
      this.fundAmount := fundAmount;
      this.scenarioEnd := scenarioEnd;
      ticks := [];
    }

    function Weights(): (ws: seq<real>)
      ensures |ws| == |strategies| && forall i :: 0 <= i < |ws| ==> ws[i] == strategies[i].weight
    {
      seq(|strategies|, i requires 0 <= i < |strategies| => strategies[i].weight)
    }

    /**
     * `initStrategies`: every strategy whose share is positive is registered
     * with that share and given a new portfolio of its own holding exactly
     * that share of the fund symbol; the others are left alone.
     */
    method InitStrategies()
      requires Distinct(strategies)
      modifies strategies
      ensures forall i :: 0 <= i < |strategies| && Allocation(fundAmount, Weights())[i] > 0.0 ==>
        Registered(strategies[i], Allocation(fundAmount, Weights())[i]) && fresh(strategies[i].portfolio)
      ensures forall i :: 0 <= i < |strategies| && Allocation(fundAmount, Weights())[i] <= 0.0 ==>
        strategies[i].allotment == old(strategies[i].allotment) &&
        strategies[i].portfolio == old(strategies[i].portfolio)
      ensures forall i, j ::
        0 <= i < j < |strategies| && Allocation(fundAmount, Weights())[i] > 0.0 && Allocation(fundAmount, Weights())[j] > 0.0 ==>
        strategies[i].portfolio != strategies[j].portfolio
    {
      var sum := SumWeight(Weights());
      ghost var shares := Allocation(fundAmount, Weights());
      // which strategy each new portfolio went to
      ghost var owner: map<Portfolio, int> := map[];
      for i := 0 to |strategies|
        invariant forall k :: 0 <= k < i && shares[k] > 0.0 ==>
          Registered(strategies[k], shares[k]) && fresh(strategies[k].portfolio) &&
          strategies[k].portfolio in owner && owner[strategies[k].portfolio] == k
        invariant forall k :: 0 <= k < |strategies| && (i <= k || shares[k] <= 0.0) ==>
          strategies[k].allotment == old(strategies[k].allotment) &&
          strategies[k].portfolio == old(strategies[k].portfolio)
      {
        var amount := Share(fundAmount, strategies[i].weight, sum);
        assert amount == shares[i];
        if amount > 0.0 {
          Register(strategies[i], amount);
          owner := owner[strategies[i].portfolio := i];
        }
      }
    }

    /** The strategy holds its allotment of the fund symbol in a portfolio of its own on this exchange. */
    ghost predicate Registered(strategy: Strategy, amount: real)
      reads strategy, strategy.portfolio
    {
      strategy.allotment == Some((fundSymbol, amount)) &&
      strategy.portfolio != null &&
      strategy.portfolio.exchange == exchange &&
      strategy.portfolio.balances == map[fundSymbol := amount]
    }

    /** `strategy.register(symbol, amount)` followed by a new portfolio holding `amount` of the fund symbol. */
    method Register(strategy: Strategy, amount: real)
      modifies strategy
      ensures Registered(strategy, amount) && fresh(strategy.portfolio)
    {
      strategy.allotment := Some((fundSymbol, amount));
      var portfolio := new Portfolio(exchange);
      portfolio.Add(fundSymbol, amount);
      strategy.portfolio := portfolio;
    }

    /**
     * `consider(strategy, request)`: routes the request through the
     * strategy's portfolio as `Admit` describes.
     */
    method Consider(strategy: Strategy, req: OrderRequest) returns (outcome: Admission)
      requires strategy.portfolio != null && strategy.portfolio.exchange == exchange
      modifies strategy.portfolio`balances
      ensures (outcome, strategy.portfolio.balances) == Admit(old(strategy.portfolio.balances), exchange.markets, req)
    {
      var portfolio := strategy.portfolio;
      match req.kind
      case LimitBuy =>
        if CanAffordBuy(portfolio.balances, portfolio.exchange.markets, req) {
          if req.market in exchange.markets {
            portfolio.Buy(exchange.markets[req.market], req.amount, req.Cost());
            outcome := Applied;
          } else {
            outcome := UnknownMarketFault;
          }
        } else {
          outcome := Unaffordable;
        }
      case LimitSell =>
        if CanAffordSell(portfolio.balances, portfolio.exchange.markets, req) {
          if req.market in exchange.markets {
            portfolio.Sell(exchange.markets[req.market], req.amount, req.Cost());
            outcome := Applied;
          } else {
            outcome := UnknownMarketFault;
          }
        } else {
          outcome := Unaffordable;
        }
      case Other(_) =>
        outcome := Ignored;
    }

    /**
     * One pass of `run`: when the exchange is dirty every strategy is ticked
     * once, in list order, and the flag is cleared; in backtest mode time then
     * advances by one second, and the run is over once it passes the end of
     * the scenario.
     */
    method Iterate() returns (ended: bool)
      modifies this`ticks, exchange`dirty, exchange`time
      ensures ticks == old(ticks) + (if old(exchange.dirty) then EveryOnce(|strategies|) else [])
      ensures !exchange.dirty
      ensures exchange.time == old(exchange.time) + (if exchange.backtesting then 1000 else 0)
      ensures ended <==> exchange.backtesting && exchange.time > scenarioEnd
    {
      if exchange.dirty {
        for i := 0 to |strategies|
          invariant ticks == old(ticks) + EveryOnce(i)
          invariant exchange.dirty && exchange.time == old(exchange.time)
        {
          ticks := ticks + [i];
        }
        exchange.dirty := false;
      }
      ended := false;
      if exchange.backtesting {
        exchange.time := exchange.time + 1000;
        if exchange.time > scenarioEnd {
          ended := true;
        }
      }
    }

    /**
     * `run` in backtest mode, with no ticker writing in between: it stops on
     * the first pass that takes virtual time past the scenario's end, having
     * advanced time by exactly one second per pass.
     */
    method RunBacktest() returns (passes: nat)
      requires exchange.backtesting
      modifies this`ticks, exchange`dirty, exchange`time
      ensures passes >= 1 && exchange.time == old(exchange.time) + 1000 * passes
      ensures exchange.time > scenarioEnd
      ensures passes > 1 ==> exchange.time - 1000 <= scenarioEnd
      ensures ticks == old(ticks) + (if old(exchange.dirty) then EveryOnce(|strategies|) else [])
      ensures !exchange.dirty
    {
      var ended := Iterate();
      passes := 1;
      while !ended
        invariant passes >= 1 && exchange.time == old(exchange.time) + 1000 * passes
        invariant ended <==> exchange.time > scenarioEnd
        invariant passes > 1 ==> exchange.time - 1000 <= scenarioEnd
        invariant ticks == old(ticks) + (if old(exchange.dirty) then EveryOnce(|strategies|) else [])
        invariant !exchange.dirty
        decreases scenarioEnd - exchange.time
      {
        ended := Iterate();
        passes := passes + 1;
      }
    }
  }
}
