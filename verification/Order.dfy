/**
 The validation envelope: which amounts a proposal may quote against an
 order, decided by cross-multiplied 256-bit comparisons.
 */
module Orders {
  import opened Uint256
  import opened Wrappers

  datatype Kind = Sell | Buy

  datatype RejectionReason =
    | InsufficientEscrow
    | UnsupportedOrder
    | AmountMismatch
    | OrderNotFound
    | Unprofitable

  /** The signed order, with the facts the envelope needs. */
  datatype Order = Order(
    sell: U256,
    buy: U256,
    kind: Kind,
    partiallyFillable: bool,
    erc20Balances: bool
  )

  /** The amounts a proposal quotes. */
  datatype Quote = Quote(sell: U256, buy: U256)

  type EnvelopeVerdict = Result<(), RejectionReason>

  function CheckEnvelope(order: Order, quote: Quote): EnvelopeVerdict {
    if !order.erc20Balances then Err(UnsupportedOrder)
    else if order.partiallyFillable then CheckPartialFill(order, quote)
    else CheckFillOrKill(order, quote)
  }

  function CheckFillOrKill(order: Order, quote: Quote): EnvelopeVerdict {
    var matches := match order.kind
      case Sell => quote.sell == order.sell
      case Buy => quote.buy == order.buy;
    if matches then Ok(()) else Err(AmountMismatch)
  }

  function CheckPartialFill(order: Order, quote: Quote): EnvelopeVerdict {
    match order.kind
    case Sell =>
      if quote.sell == 0 || quote.sell > order.sell then Err(AmountMismatch)
      else
        (match (CheckedMul(quote.buy, order.sell), CheckedMul(quote.sell, order.buy))
         case (Some(l), Some(r)) => if l >= r then Ok(()) else Err(AmountMismatch)
         case _ => Err(AmountMismatch))
    case Buy =>
      if quote.buy == 0 || quote.sell == 0 || quote.buy > order.buy then Err(AmountMismatch)
      else
        (match (CheckedMul(quote.sell, order.buy), CheckedMul(quote.buy, order.sell))
         case (Some(l), Some(r)) => if l <= r then Ok(()) else Err(AmountMismatch)
         case _ => Err(AmountMismatch))
  }
}
