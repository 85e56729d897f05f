/**
 How the four separate "within the user's limit" decisions relate: the
 envelope's cross products, the scaled candidate's surplus, the score and the
 post-cut check.
 */
module BidLaws {
  import opened GasCut
  import opened Orders
  import opened Scoring
  import opened Uint256
  import opened Wrappers

  function CandidateFor(order: Order, quote: Quote, gasCost: U256): Candidate {
    Candidate(order.sell, order.buy, quote.sell, quote.buy, order.kind, gasCost)
  }

  /** The range half of the partial-fill envelope, before any limit price. */
  predicate FillInRange(order: Order, quote: Quote) {
    match order.kind
    case Sell => 0 < quote.sell <= order.sell
    case Buy => 0 < quote.buy <= order.buy && 0 < quote.sell
  }

  predicate CrossProductsFit(order: Order, quote: Quote) {
    Fits(quote.buy * order.sell) && Fits(quote.sell * order.buy)
  }

  /**
   The cross-multiplied envelope and the divided, rounded candidate decide the
   same thing: rounding never contradicts the exact comparison.
   */
  lemma EnvelopeIffScaledSurplus(order: Order, quote: Quote, gasCost: U256)
    requires order.partiallyFillable && order.erc20Balances
    ensures CheckEnvelope(order, quote).Ok? <==>
            && FillInRange(order, quote)
            && CrossProductsFit(order, quote)
            && var scaled := CandidateFor(order, quote, gasCost).ScaledToFill(true);
               scaled.Some? && scaled.value.Surplus() >= 0
  {
    MulNonNegative(quote.buy, order.sell);
    MulNonNegative(quote.sell, order.buy);
    if FillInRange(order, quote) && CrossProductsFit(order, quote) {
      match order.kind
      case Sell => CeilIff(order.buy * quote.sell, order.sell, quote.buy);
      case Buy => FloorIff(quote.sell, order.sell * quote.buy, order.buy);
    }
  }

  /**
   Exactly what the envelope answers: orders without plain token balances are
   unsupported; a fill-or-kill quote must match the order's own side; a partial
   one must be in range and, multiplied across, within the limit price.
   */
  lemma EnvelopeExact(order: Order, quote: Quote)
    ensures CheckEnvelope(order, quote) ==
            if !order.erc20Balances then Err(UnsupportedOrder)
            else if !order.partiallyFillable then
              if (if order.kind.Sell? then quote.sell == order.sell else quote.buy == order.buy)
              then Ok(()) else Err(AmountMismatch)
            else if FillInRange(order, quote) && CrossProductsFit(order, quote)
                    && quote.sell * order.buy <= quote.buy * order.sell
            then Ok(()) else Err(AmountMismatch)
  {
    MulNonNegative(quote.buy, order.sell);
    MulNonNegative(quote.sell, order.buy);
  }

  /** The limit on the side the surplus is on, scaled to the fill and rounded in the user's favour. */
  ghost function LimitOf(order: Order, quote: Quote): Option<U256> {
    if !order.partiallyFillable then Some(if order.kind.Sell? then order.buy else order.sell)
    else match order.kind
      case Sell =>
        if order.sell > 0 && Fits(order.buy * quote.sell)
        then Some(CeilDiv(order.buy * quote.sell, order.sell)) else None
      case Buy =>
        if order.buy > 0 && Fits(order.sell * quote.buy)
        then Some(FloorDiv(order.sell * quote.buy, order.buy)) else None
  }

  /** Scaling keeps the quote and the gas, and replaces the order's two amounts by the fill and its limit. */
  lemma ScaledExact(order: Order, quote: Quote, gasCost: U256)
    ensures CandidateFor(order, quote, gasCost).ScaledToFill(order.partiallyFillable) ==
            match LimitOf(order, quote)
            case None => None
            case Some(limit) =>
              if order.kind.Sell?
              then Some(Candidate(if order.partiallyFillable then quote.sell else order.sell, limit,
                                  quote.sell, quote.buy, Sell, gasCost))
              else Some(Candidate(limit, if order.partiallyFillable then quote.buy else order.buy,
                                  quote.sell, quote.buy, Buy, gasCost))
  {
    MulNonNegative(order.buy, quote.sell);
    MulNonNegative(order.sell, quote.buy);
  }

  /** The limit the user signed, on what is spent and received after the cut. */
  predicate SignedLimitHolds(order: Order, quote: Quote, cut: Cut) {
    match order.kind
    case Sell =>
      && quote.sell > 0
      && var received := FloorDiv(quote.buy * cut.executed, quote.sell);
         if order.partiallyFillable
         then received * order.sell >= order.buy * quote.sell
         else received >= order.buy
    case Buy =>
      if order.partiallyFillable
      then (quote.sell + cut.amount) * order.buy <= order.sell * quote.buy
      else quote.sell + cut.amount <= order.sell
  }

  /** The amount of the order the driver expects executed plus cut to reach. */
  function FillTarget(order: Order, quote: Quote): U256 {
    match order.kind
    case Sell => if order.partiallyFillable then quote.sell else order.sell
    case Buy => if order.partiallyFillable then quote.buy else order.buy
  }

  ghost predicate LeastCovering(amount: int, price: int, bill: int) {
    amount * price >= bill && forall a: int | a * price >= bill :: amount <= a
  }

  /**
   End to end: scaling, then cutting, leaves the unscaled signed limit
   standing; the executed amount is what the driver checks; and the cut is the
   least one that pays for the gas.
   */
  lemma CutKeepsSignedLimit(order: Order, quote: Quote, gasCost: U256, price: U256)
    requires var scaled := CandidateFor(order, quote, gasCost).ScaledToFill(order.partiallyFillable);
             scaled.Some? && Size(scaled.value, price).Some?
    ensures var c := CandidateFor(order, quote, gasCost).ScaledToFill(order.partiallyFillable).value;
            var cut := Size(c, price).value;
            && SignedLimitHolds(order, quote, cut)
            && cut.executed + (if order.kind.Sell? then cut.amount else 0) == FillTarget(order, quote)
            && LeastCovering(cut.amount, price, gasCost * ETHER)
  {
    var c := CandidateFor(order, quote, gasCost).ScaledToFill(order.partiallyFillable).value;
    var cut := Size(c, price).value;
    forall a: int | a * price >= gasCost * ETHER
      ensures cut.amount <= a
    {
      CeilIff(gasCost * ETHER, price, a);
    }
    if order.partiallyFillable {
      match order.kind
      case Sell =>
        var received := FloorDiv(quote.buy * cut.executed, quote.sell);
        CeilIff(order.buy * quote.sell, order.sell, received);
      case Buy =>
        FloorIff(quote.sell + cut.amount, order.sell * quote.buy, order.buy);
    }
  }

  /**
   On a buy order both prices are the sell token's, and then the score accepts
   exactly what the cut accepts, as long as the surplus's worth fits; without a
   price nothing can be cut, and only a free ride scores.
   */
  lemma BuyOrderScoreIffCut(c: Candidate, price: U256)
    requires c.kind.Buy?
    ensures ScoreProposal(c, price).Some? <==>
            if price > 0 then Size(c, price).Some? && Fits(c.Surplus() * price)
            else c.Surplus() >= 0 && c.gasCost == 0
    ensures price == 0 ==> Size(c, price).None?
  {
    MulNonNegative(c.gasCost, ETHER);
    if c.Surplus() >= 0 {
      var worth := c.Surplus() * price;
      MulNonNegative(c.Surplus(), price);
      FloorIff(c.gasCost, worth, ETHER);
      if price > 0 {
        CeilIff(c.gasCost * ETHER, price, c.Surplus());
      }
    }
  }

  /** A scored buy order can always be cut, with no assumption about overflow. */
  lemma BuyOrderScoreImpliesCut(c: Candidate, price: U256)
    requires c.kind.Buy? && ScoreProposal(c, price).Some?
    requires price > 0 || ScoreProposal(c, price).value > 0
    ensures Size(c, price).Some?
  {
    BuyOrderScoreIffCut(c, price);
  }

  /** Over unbounded integers: what is left of the order after the cut still buys the limit at the route's rate. */
  predicate SellCutFits(c: Candidate, amount: nat) {
    && amount <= c.orderSell && c.proposalSell > 0
    && Fits(c.proposalBuy * (c.orderSell - amount))
    && c.orderBuy * c.proposalSell <= c.proposalBuy * (c.orderSell - amount)
  }

  /** Exactly when a sell order can be cut. */
  lemma SellOrderCutIff(c: Candidate, price: U256)
    requires c.kind.Sell?
    ensures Size(c, price).Some? <==>
            price > 0 && Fits(c.gasCost * ETHER) && SellCutFits(c, CeilDiv(c.gasCost * ETHER, price))
  {
    MulNonNegative(c.gasCost, ETHER);
    if price > 0 && Fits(c.gasCost * ETHER) {
      var amount := CeilDiv(c.gasCost * ETHER, price);
      if amount <= c.orderSell && c.proposalSell > 0 {
        MulNonNegative(c.proposalBuy, c.orderSell - amount);
        FloorIff(c.orderBuy, c.proposalBuy * (c.orderSell - amount), c.proposalSell);
      }
    }
  }

  /** On a fill of the whole candidate: the cut must not cost more, at the route's own rate, than the surplus. */
  lemma SellCutWithinSurplusIff(c: Candidate, amount: nat)
    requires c.kind.Sell? && c.orderSell == c.proposalSell > 0 && Fits(c.proposalBuy * c.orderSell)
    ensures SellCutFits(c, amount) <==>
            amount <= c.orderSell && c.proposalBuy * amount <= c.Surplus() * c.proposalSell
  {
    if amount <= c.orderSell {
      MulMonotone(c.orderSell - amount, c.orderSell, c.proposalBuy);
      MulNonNegative(c.proposalBuy, c.orderSell - amount);
      ShavedRate(c.proposalBuy, c.proposalSell, c.orderBuy, amount);
    }
  }

  lemma ShavedRate(pb: int, ps: int, ob: int, amount: int)
    ensures ob * ps <= pb * (ps - amount) <==> pb * amount <= (pb - ob) * ps
  {
    assert pb * (ps - amount) == pb * ps - pb * amount;
    assert (pb - ob) * ps == pb * ps - ob * ps;
  }

  /** What a score says over unbounded integers: the surplus is worth the gas and the score. */
  lemma ScoreCoversGas(c: Candidate, price: U256)
    requires ScoreProposal(c, price).Some?
    ensures c.Surplus() >= 0 && Fits(c.Surplus() * price)
    ensures (c.gasCost + ScoreProposal(c, price).value) * ETHER <= c.Surplus() * price
  {
    FloorIff(c.gasCost + ScoreProposal(c, price).value, c.Surplus() * price, ETHER);
  }

  /** A score above a floor, over unbounded integers. */
  lemma ScoreExceedsIff(c: Candidate, price: U256, minScore: U256)
    ensures ScoreProposal(c, price).Some? && ScoreProposal(c, price).value > minScore <==>
            && c.Surplus() >= 0 && Fits(c.Surplus() * price)
            && (c.gasCost + minScore + 1) * ETHER <= c.Surplus() * price
  {
    if c.Surplus() >= 0 && Fits(c.Surplus() * price) {
      FloorIff(c.gasCost + minScore + 1, c.Surplus() * price, ETHER);
    }
  }

  /** Rounding the cut up costs less than one atom, which a score worth an atom absorbs. */
  lemma RoundedCutWithinWorth(bill: nat, slack: nat, worth: nat, price: nat)
    requires price > 0 && bill + slack <= worth && price <= slack
    ensures CeilDiv(bill, price) * price <= worth
  {
    var amount := CeilDiv(bill, price);
    assert (amount - 1) * price == amount * price - price;
  }

  /** A worth that is positive at a rate the route does not beat leaves nothing zero. */
  lemma RatesPositive(pb: nat, ps: nat, u: nat, buyPrice: nat, sellPrice: nat)
    requires u * buyPrice > 0 && u <= pb
    requires pb * buyPrice <= ps * sellPrice
    ensures pb > 0 && ps > 0 && sellPrice > 0
  {
    MulMonotone(u, pb, buyPrice);
    MulPositive(ps, sellPrice);
  }

  /**
   On a sell order the score and the cut can disagree only when the route
   beats the auction's reference ratio or the score is worth less than one
   sell-token atom.
   */
  lemma SellOrderScoreImpliesCut(c: Candidate, buyPrice: U256, sellPrice: U256)
    requires c.kind.Sell? && c.orderSell == c.proposalSell
    requires Fits(c.proposalBuy * c.orderSell)
    requires c.proposalBuy * buyPrice <= c.proposalSell * sellPrice
    requires ScoreProposal(c, buyPrice).Some? && ScoreProposal(c, buyPrice).value > 0
    requires ScoreProposal(c, buyPrice).value * ETHER >= sellPrice
    ensures Size(c, sellPrice).Some?
  {
    var u, s := c.Surplus(), ScoreProposal(c, buyPrice).value;
    ScoreCoversGas(c, buyPrice);
    RatesPositive(c.proposalBuy, c.proposalSell, u, buyPrice, sellPrice);
    RoundedCutWithinWorth(c.gasCost * ETHER, s * ETHER, u * buyPrice, sellPrice);
    var amount := CeilDiv(c.gasCost * ETHER, sellPrice);
    CutWithinSurplus(c.proposalBuy, c.proposalSell, u, amount, buyPrice, sellPrice);
    CutBelowTarget(c.proposalBuy, c.proposalSell, u, amount);
    SellCutWithinSurplusIff(c, amount);
    SellOrderCutIff(c, sellPrice);
  }

  lemma CutBelowTarget(pb: nat, ps: nat, u: nat, amount: nat)
    requires pb > 0 && u <= pb && pb * amount <= u * ps
    ensures amount <= ps
  {
    MulMonotone(u, pb, ps);
    MulCancel(amount, ps, pb);
  }

  /** A cut no dearer than the surplus fits inside it at a rate the route does not beat. */
  lemma CutWithinSurplus(pb: nat, ps: nat, u: nat, amount: nat, buyPrice: nat, sellPrice: nat)
    requires sellPrice > 0
    requires pb * buyPrice <= ps * sellPrice
    requires amount * sellPrice <= u * buyPrice
    ensures pb * amount <= u * ps
  {
    MulMonotone(amount * sellPrice, u * buyPrice, pb);
    MulMonotone(pb * buyPrice, ps * sellPrice, u);
    assert (pb * amount) * sellPrice == pb * (amount * sellPrice);
    assert pb * (u * buyPrice) == u * (pb * buyPrice);
    assert u * (ps * sellPrice) == (u * ps) * sellPrice;
    MulCancel(pb * amount, u * ps, sellPrice);
  }
}
