/**
 The client half: the amounts the reference sub-solver quotes for an order,
 and their agreement with the server's envelope.
 */
module Subsolver {
  import opened BidLaws
  import opened Orders
  import opened Routing
  import opened Uint256
  import opened Wrappers

  /** The amount-choosing half of building a proposal. */
  function ChooseAmounts(order: Order, reserveSell: U256, reserveBuy: U256): Option<Quote> {
    match order.kind
    case Sell =>
      var out :- AmountOut(order.sell, reserveSell, reserveBuy);
      if out >= order.buy then Some(Quote(order.sell, out)) else None
    case Buy =>
      var cost :- AmountIn(order.buy, reserveSell, reserveBuy);
      if cost <= order.sell then Some(Quote(cost, order.buy)) else None
  }

  /**
   Exactly when a sell order is quoted: the swap can be computed and the order
   sells at least what the limit costs. The quote is the order's own side and
   everything the swap yields.
   */
  lemma SellQuotedIff(order: Order, reserveSell: U256, reserveBuy: U256)
    requires order.kind.Sell?
    ensures var quote := ChooseAmounts(order, reserveSell, reserveBuy);
            && (quote.Some? <==>
                  && reserveSell > 0 && order.buy < reserveBuy
                  && Fits(order.sell * 997 * reserveBuy) && Fits(reserveSell * 1000 + order.sell * 997)
                  && order.sell >= LeastInput(order.buy, reserveSell, reserveBuy))
            && (quote.Some? ==>
                  quote.value.sell == order.sell
                  && Some(quote.value.buy) == AmountOut(order.sell, reserveSell, reserveBuy))
  {
    OutputQuotedIff(order.sell, reserveSell, reserveBuy);
    if AmountOut(order.sell, reserveSell, reserveBuy).Some? {
      SwapKeepsPool(order.sell, reserveSell, reserveBuy);
      if order.buy < reserveBuy {
        OutputReachesIff(order.sell, order.buy, reserveSell, reserveBuy);
      }
    }
  }

  /**
   Exactly when a buy order is quoted: the charge can be computed and is within
   what the order sells.
   */
  lemma BuyQuotedIff(order: Order, reserveSell: U256, reserveBuy: U256)
    requires order.kind.Buy?
    ensures var quote := ChooseAmounts(order, reserveSell, reserveBuy);
            && (quote.Some? <==>
                  && reserveSell > 0 && order.buy < reserveBuy
                  && Fits(reserveSell * order.buy * 1000) && Fits((reserveBuy - order.buy) * 997)
                  && FloorDiv(reserveSell * order.buy * 1000, (reserveBuy - order.buy) * 997) + 1 <= order.sell)
            && (quote.Some? ==>
                  quote.value.buy == order.buy
                  && Some(quote.value.sell) == AmountIn(order.buy, reserveSell, reserveBuy))
  {
    InputQuotedIff(order.buy, reserveSell, reserveBuy);
  }

  /**
   Whatever the client quotes, the server's envelope accepts; a partially
   fillable order exactly when the cross products it compares fit.
   */
  lemma ClientQuoteInsideEnvelope(order: Order, reserveSell: U256, reserveBuy: U256)
    requires order.erc20Balances && order.sell > 0 && order.buy > 0
    requires ChooseAmounts(order, reserveSell, reserveBuy).Some?
    ensures var quote := ChooseAmounts(order, reserveSell, reserveBuy).value;
            CheckEnvelope(order, quote).Ok? <==>
              order.partiallyFillable ==> CrossProductsFit(order, quote)
  {
    var quote := ChooseAmounts(order, reserveSell, reserveBuy).value;
    MulNonNegative(quote.buy, order.sell);
    MulNonNegative(quote.sell, order.buy);
    match order.kind
    case Sell => MulMonotone(order.buy, quote.buy, order.sell);
    case Buy => MulMonotone(quote.sell, order.sell, order.buy);
  }

  /** And the surplus the server then scores is never negative. */
  lemma ClientQuoteHasSurplus(order: Order, reserveSell: U256, reserveBuy: U256, gasCost: U256)
    requires order.erc20Balances && order.sell > 0 && order.buy > 0
    requires ChooseAmounts(order, reserveSell, reserveBuy).Some?
    requires order.partiallyFillable ==>
               CrossProductsFit(order, ChooseAmounts(order, reserveSell, reserveBuy).value)
    ensures var quote := ChooseAmounts(order, reserveSell, reserveBuy).value;
            var scaled := CandidateFor(order, quote, gasCost).ScaledToFill(order.partiallyFillable);
            scaled.Some? && scaled.value.Surplus() >= 0
  {
    ClientQuoteInsideEnvelope(order, reserveSell, reserveBuy);
    if order.partiallyFillable {
      EnvelopeIffScaledSurplus(order, ChooseAmounts(order, reserveSell, reserveBuy).value, gasCost);
    }
  }
}
