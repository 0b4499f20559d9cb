/** The bracket-order payload (executor.py `build_bracket_order`). */
module Executor {

  datatype TakeProfitLeg = TakeProfitLeg(limitPrice: real)

  datatype StopLossLeg = StopLossLeg(stopPrice: real)

  /** An equity bracket order: a limit entry with a take-profit and a stop-loss leg. */
  datatype Order = Order(
    symbol: string,
    qty: int,
    side: string,
    orderType: string,
    timeInForce: string,
    limitPrice: real,
    orderClass: string,
    takeProfit: TakeProfitLeg,
    stopLoss: StopLossLeg)

  /** The fixed part of every payload: a day limit order of the bracket class. */
  predicate IsBracketShape(o: Order) {
    o.orderType == "limit" && o.timeInForce == "day" && o.orderClass == "bracket"
  }

  /** The caller-supplied part of a payload, in the argument order of the builder. */
  datatype BracketArgs = BracketArgs(
    symbol: string, qty: int, side: string,
    limitPrice: real, takeProfit: real, stopPrice: real)

  function BuildBracketOrder(symbol: string, qty: int, side: string,
                             limitPrice: real, takeProfit: real, stopPrice: real): (r: Order)
    ensures IsBracketShape(r)
    ensures ArgsOf(r) == BracketArgs(symbol, qty, side, limitPrice, takeProfit, stopPrice)
  {
    Order(symbol, qty, side, "limit", "day", limitPrice, "bracket",
          TakeProfitLeg(takeProfit), StopLossLeg(stopPrice))
  }

  /** Reads the caller-supplied fields back out of a payload. */
  function ArgsOf(o: Order): BracketArgs {
    BracketArgs(o.symbol, o.qty, o.side, o.limitPrice, o.takeProfit.limitPrice, o.stopLoss.stopPrice)
  }

  /** Every bracket-shaped payload is the one built from its own fields. */
  lemma BuildFromArgsOf(o: Order)
    requires IsBracketShape(o)
    ensures BuildBracketOrder(o.symbol, o.qty, o.side, o.limitPrice,
                              o.takeProfit.limitPrice, o.stopLoss.stopPrice) == o
  {
  }

  /** Different arguments give different payloads: no two prices are ever swapped or merged. */
  lemma BuildBracketOrderInjective(a: BracketArgs, b: BracketArgs)
    requires BuildBracketOrder(a.symbol, a.qty, a.side, a.limitPrice, a.takeProfit, a.stopPrice)
          == BuildBracketOrder(b.symbol, b.qty, b.side, b.limitPrice, b.takeProfit, b.stopPrice)
    ensures a == b
  {
  }
}
