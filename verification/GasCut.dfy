/** The gas cut: what is kept back in sell-token atoms to pay for gas. */
module GasCut {
  import opened Scoring
  import opened Uint256
  import opened Wrappers

  /** The cut, and the executed amount the fulfillment declares with it. */
  datatype Cut = Cut(amount: U256, executed: U256)

  /** `None` when unpriced, or when the cut would breach the signed limit. */
  function Size(c: Candidate, sellTokenPrice: U256): Option<Cut> {
    if sellTokenPrice == 0 then None
    else
      var scaled :- CheckedMul(c.gasCost, ETHER);
      var amount: U256 := CeilDiv(scaled, sellTokenPrice);
      match c.kind
      case Sell =>
        var executed :- CheckedSub(c.orderSell, amount);
        var product :- CheckedMul(c.proposalBuy, executed);
        var received :- CheckedDiv(product, c.proposalSell);
        if received < c.orderBuy then None else Some(Cut(amount, executed))
      case Buy =>
        var spent :- CheckedAdd(c.proposalSell, amount);
        if spent > c.orderSell then None else Some(Cut(amount, c.orderBuy))
  }
}
