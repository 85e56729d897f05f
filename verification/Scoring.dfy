/**
 Proposal scoring: `score = surplus - gas` in wei, over order limits scaled
 to the proposal's fill fraction.
 */
module Scoring {
  import opened Orders
  import opened Uint256
  import opened Wrappers

  const U64_MAX: nat := 0xFFFF_FFFF_FFFF_FFFF

  /** Buffer added to simulated gas. */
  const GAS_BUFFER: nat := 30_000

  type U64 = x: int | 0 <= x <= U64_MAX

  /** Simulated gas plus the buffer, saturating at 64 bits. */
  function EffectiveGas(simulated: U64): U64 {
    if simulated + GAS_BUFFER <= U64_MAX then simulated + GAS_BUFFER else U64_MAX
  }

  /** A proposal weighed against its order at one auction's gas price. */
  datatype Candidate = Candidate(
    orderSell: U256,
    orderBuy: U256,
    proposalSell: U256,
    proposalBuy: U256,
    kind: Kind,
    gasCost: U256
  ) {

    /** The order's limits, scaled to the fraction the proposal fills. */
    function ScaledToFill(partiallyFillable: bool): Option<Candidate> {
      if !partiallyFillable then Some(this)
      else match kind
      case Sell =>
        if orderSell == 0 then None
        else
          var product :- CheckedMul(orderBuy, proposalSell);
          Some(this.(orderSell := proposalSell, orderBuy := CeilDiv(product, orderSell)))
      case Buy =>
        var product :- CheckedMul(orderSell, proposalBuy);
        var scaledSell :- CheckedDiv(product, orderBuy);
        Some(this.(orderSell := scaledSell, orderBuy := proposalBuy))
    }

    /** What the user gains over the limit; negative below it. */
    function Surplus(): int {
      match kind
      case Sell => proposalBuy - orderBuy
      case Buy => orderSell - proposalSell
    }
  }

  /** `surplusPrice` is wei per ether-scaled atom of the surplus token. */
  function ScoreProposal(c: Candidate, surplusPrice: U256): Option<U256> {
    var surplus :- match c.kind
      case Sell => CheckedSub(c.proposalBuy, c.orderBuy)
      case Buy => CheckedSub(c.orderSell, c.proposalSell);
    var product :- CheckedMul(surplus, surplusPrice);
    var surplusEth :- CheckedDiv(product, ETHER);
    CheckedSub(surplusEth, c.gasCost)
  }
}
