/**
 The production validator: the escrow check, then the envelope, the simulation
 and, on a first simulation only, the profitability gate. The chain and the
 orderbook are whatever answers they give.
 */
module Validator {
  import opened BidLaws
  import opened GasCut
  import opened Lifecycle
  import opened Orders
  import opened Runs
  import opened Scoring
  import opened Solve
  import opened Uint256
  import opened Wrappers

  const ESCROW_GAS_ESTIMATION: nat := 200_000
  const I64_MAX: nat := 0x7FFF_FFFF_FFFF_FFFF

  /** The orderbook's answer. */
  datatype Fetched<+T> = Found(value: T) | Missing | Unavailable

  /** A contract call's answer: a value, a revert, or a failure that says nothing about the proposal. */
  datatype Called<+T> = Returned(value: T) | Reverted | Failed

  datatype OrderRecord = OrderRecord(terms: Order, sellToken: Address, buyToken: Address)

  /** The configured floors. */
  datatype Floors = Floors(minCollateral: U256, minScore: U256)

  /** Everything one validation may ask; the shared gas price is read twice. */
  datatype Answers = Answers(
    escrowGasPrice: U64,
    balance: Option<U256>,
    order: Fetched<OrderRecord>,
    trampoline: Called<Address>,
    authenticator: Option<Address>,
    gas: Called<U64>,
    nativePrice: Fetched<U256>,
    gateGasPrice: U64
  )

  function EscrowThreshold(gasPrice: U64, minCollateral: U256): U256 {
    SaturatingAdd(SaturatingMul(ESCROW_GAS_ESTIMATION, gasPrice), minCollateral)
  }

  function EscrowVerdict(a: Answers, minCollateral: U256): Option<Verdict> {
    var balance :- a.balance;
    if balance >= EscrowThreshold(a.escrowGasPrice, minCollateral)
    then Some(Accept(None))
    else Some(Reject(InsufficientEscrow))
  }

  /** `None` defers to the next tick. */
  function Profitability(a: Answers, record: OrderRecord, quote: Quote, gas: U64, minScore: U256)
    : Option<Result<(), RejectionReason>>
  {
    match a.nativePrice
    case Missing => Some(Err(Unprofitable))
    case Unavailable => None
    case Found(price) =>
      var scaled := CandidateFor(record.terms, quote, GasCost(gas, a.gateGasPrice))
                      .ScaledToFill(record.terms.partiallyFillable);
      var score := if scaled.Some? then ScoreProposal(scaled.value, price) else None;
      if score.None? || score.value <= minScore then Some(Err(Unprofitable)) else Some(Ok(()))
  }

  function SimulationVerdict(p: Proposal, a: Answers, minScore: U256): Option<Verdict> {
    match a.order
    case Missing => Some(Reject(OrderNotFound))
    case Unavailable => None
    case Found(record) =>
      match CheckEnvelope(record.terms, p.body.quote)
      case Err(reason) => Some(Reject(reason))
      case Ok(_) =>
        match if p.trampoline.Some? then Returned(p.trampoline.value) else a.trampoline
        case Reverted => Some(FailSimulation)
        case Failed => None
        case Returned(trampoline) =>
          var _ :- a.authenticator;
          match a.gas
          case Reverted => Some(FailSimulation)
          case Failed => None
          case Returned(gas) =>
            if gas > I64_MAX then None
            else
              var gate :- if p.status.Submitted?
                          then Profitability(a, record, p.body.quote, gas, minScore)
                          else Some(Ok(()));
              match gate
              case Err(reason) => Some(Reject(reason))
              case Ok(_) =>
                Some(Accept(Some(SimulationOutcome(gas, trampoline, record.sellToken, record.buyToken))))
  }

  function Judgement(p: Proposal, a: Answers, floors: Floors): Option<Verdict> {
    match EscrowVerdict(a, floors.minCollateral)
    case Some(Accept(_)) => SimulationVerdict(p, a, floors.minScore)
    case short => short
  }

  // -------------------------------------------------------------------------
  // What a verdict says
  // -------------------------------------------------------------------------

  predicate Accepts(p: Proposal, a: Answers, floors: Floors) {
    Judgement(p, a, floors).Some? && Judgement(p, a, floors).value.Accept?
  }

  /** The escrow covers the gas estimate and the collateral, over unbounded integers. */
  predicate Collateralized(a: Answers, minCollateral: U256) {
    a.balance.Some? &&
    (a.balance.value >= 200_000 * a.escrowGasPrice + minCollateral || a.balance.value == MAX)
  }

  /** The surplus is worth more than the buffered gas and the minimum score together, over unbounded integers. */
  predicate Pays(a: Answers, record: OrderRecord, quote: Quote, gas: U64, minScore: U256) {
    a.nativePrice.Found? &&
    var scaled := CandidateFor(record.terms, quote, 0).ScaledToFill(record.terms.partiallyFillable);
    && scaled.Some? && scaled.value.Surplus() >= 0
    && Fits(scaled.value.Surplus() * a.nativePrice.value)
    && ((gas + 30_000) * a.gateGasPrice + minScore + 1) * ETHER <= scaled.value.Surplus() * a.nativePrice.value
  }

  /** The order is known and the quote inside its envelope. */
  predicate InEnvelope(p: Proposal, a: Answers) {
    a.order.Found? && CheckEnvelope(a.order.value.terms, p.body.quote).Ok?
  }

  /** And the settlement that would execute it can be built. */
  predicate Buildable(p: Proposal, a: Answers) {
    InEnvelope(p, a) && (p.trampoline.Some? || a.trampoline.Returned?) && a.authenticator.Some?
  }

  /** A gas the column can hold; anything else is a bad answer. */
  predicate PlausibleGas(a: Answers) {
    a.gas.Returned? && a.gas.value <= 0x7FFF_FFFF_FFFF_FFFF
  }

  /** Everything the proposal needs was answered, and favourably. */
  predicate Executable(p: Proposal, a: Answers) {
    Buildable(p, a) && PlausibleGas(a)
  }

  /** Plausible gas at any 64-bit price never saturates. */
  lemma PlausibleGasIsExact(gas: U64, gasPrice: U64)
    requires gas <= I64_MAX
    ensures GasCost(gas, gasPrice) == (gas + GAS_BUFFER) * gasPrice
  {
    MulMonotone(gas + GAS_BUFFER, U64_MAX, gasPrice);
    MulMonotone(gasPrice, U64_MAX, U64_MAX);
  }

  /** The gate's rounded, saturating, checked score decides the unbounded comparison exactly. */
  lemma GateIffPays(a: Answers, record: OrderRecord, quote: Quote, gas: U64, minScore: U256)
    requires gas <= I64_MAX
    ensures Profitability(a, record, quote, gas, minScore) == Some(Ok(())) <==>
            Pays(a, record, quote, gas, minScore)
  {
    PlausibleGasIsExact(gas, a.gateGasPrice);
    var c := CandidateFor(record.terms, quote, GasCost(gas, a.gateGasPrice))
               .ScaledToFill(record.terms.partiallyFillable);
    ScalingIgnoresGas(record.terms, quote, GasCost(gas, a.gateGasPrice));
    if a.nativePrice.Found? && c.Some? {
      ScoreExceedsIff(c.value, a.nativePrice.value, minScore);
    }
  }

  lemma ScalingIgnoresGas(terms: Order, quote: Quote, gasCost: U256)
    ensures var c := CandidateFor(terms, quote, gasCost).ScaledToFill(terms.partiallyFillable);
            var free := CandidateFor(terms, quote, 0).ScaledToFill(terms.partiallyFillable);
            && (c.Some? <==> free.Some?)
            && (c.Some? ==> c.value == free.value.(gasCost := gasCost))
  {
  }

  /**
   Exactly when a proposal is accepted: its escrow covers the threshold, its
   simulation succeeds inside the envelope and, the first time only, its
   surplus pays. An acceptance carries what was simulated.
   */
  lemma AcceptedIff(p: Proposal, a: Answers, floors: Floors)
    ensures Accepts(p, a, floors) <==>
            && Collateralized(a, floors.minCollateral)
            && Executable(p, a)
            && (p.status.Submitted? ==> Pays(a, a.order.value, p.body.quote, a.gas.value, floors.minScore))
    ensures Accepts(p, a, floors) ==>
            var trampoline := if p.trampoline.Some? then p.trampoline.value else a.trampoline.value;
            Judgement(p, a, floors) == Some(Accept(Some(
              SimulationOutcome(a.gas.value, trampoline, a.order.value.sellToken, a.order.value.buyToken))))
    ensures Judgement(p, a, floors).Some? ==> Simulated(Judge(p.id, Judgement(p, a, floors).value))
  {
    MulMonotone(a.escrowGasPrice, U64_MAX, ESCROW_GAS_ESTIMATION);
    if Executable(p, a) {
      GateIffPays(a, a.order.value, p.body.quote, a.gas.value, floors.minScore);
    }
  }

  // -------------------------------------------------------------------------
  // Each verdict, exactly when
  // -------------------------------------------------------------------------

  /** The first question that does not pass went unanswered. */
  predicate Unanswered(p: Proposal, a: Answers, floors: Floors) {
    || a.balance.None?
    || (Collateralized(a, floors.minCollateral) &&
        (|| a.order.Unavailable?
         || (InEnvelope(p, a) && p.trampoline.None? && a.trampoline.Failed?)
         || (InEnvelope(p, a) && (p.trampoline.Some? || a.trampoline.Returned?) && a.authenticator.None?)
         || (Buildable(p, a) && (a.gas.Failed? || (a.gas.Returned? && !PlausibleGas(a))))
         || (Executable(p, a) && p.status == Submitted && a.nativePrice.Unavailable?)))
  }

  /** A contract call the simulation makes reverted, after everything before it passed. */
  predicate Reverts(p: Proposal, a: Answers) {
    || (InEnvelope(p, a) && p.trampoline.None? && a.trampoline.Reverted?)
    || (Buildable(p, a) && a.gas.Reverted?)
  }

  /** On a first simulation that succeeds, the surplus cannot be priced or does not pay. */
  predicate FallsShort(p: Proposal, a: Answers, minScore: U256) {
    && Executable(p, a) && p.status == Submitted && !a.nativePrice.Unavailable?
    && !Pays(a, a.order.value, p.body.quote, a.gas.value, minScore)
  }

  lemma EscrowIff(a: Answers, minCollateral: U256)
    ensures EscrowVerdict(a, minCollateral) ==
            if a.balance.None? then None
            else if Collateralized(a, minCollateral) then Some(Accept(None))
            else Some(Reject(InsufficientEscrow))
  {
    MulMonotone(a.escrowGasPrice, U64_MAX, ESCROW_GAS_ESTIMATION);
  }

  /** After the escrow, everything but the gate. */
  lemma SimulationExact(p: Proposal, a: Answers, minScore: U256)
    ensures var v := SimulationVerdict(p, a, minScore);
            && (a.order.Missing? ==> v == Some(Reject(OrderNotFound)))
            && (a.order.Unavailable? ==> v == None)
            && (a.order.Found? && !InEnvelope(p, a) ==>
                  v == Some(Reject(CheckEnvelope(a.order.value.terms, p.body.quote).error)))
            && (Reverts(p, a) ==> v == Some(FailSimulation))
            && (InEnvelope(p, a) && !Reverts(p, a) && !Executable(p, a) ==> v == None)
  {
  }

  lemma GateExact(p: Proposal, a: Answers, minScore: U256)
    requires Executable(p, a)
    ensures var v := SimulationVerdict(p, a, minScore);
            if p.status == Submitted && a.nativePrice.Unavailable? then v == None
            else if FallsShort(p, a, minScore) then v == Some(Reject(Unprofitable))
            else v.Some? && v.value.Accept?
  {
    GateIffPays(a, a.order.value, p.body.quote, a.gas.value, minScore);
  }

  /**
   Every answer of the validator, exactly when it is given: it defers when the
   first question that does not pass went unanswered, and otherwise rejects
   for the first thing that is wrong, fails on a revert, or accepts.
   */
  lemma JudgementExact(p: Proposal, a: Answers, floors: Floors)
    ensures var v := Judgement(p, a, floors);
            var covered := Collateralized(a, floors.minCollateral);
            && (v == None <==> Unanswered(p, a, floors))
            && (v == Some(Reject(InsufficientEscrow)) <==> a.balance.Some? && !covered)
            && (v == Some(Reject(OrderNotFound)) <==> covered && a.order.Missing?)
            && (v == Some(Reject(UnsupportedOrder)) <==>
                  covered && a.order.Found? && !a.order.value.terms.erc20Balances)
            && (v == Some(Reject(AmountMismatch)) <==>
                  covered && a.order.Found? && a.order.value.terms.erc20Balances && !InEnvelope(p, a))
            && (v == Some(FailSimulation) <==> covered && Reverts(p, a))
            && (v == Some(Reject(Unprofitable)) <==> covered && FallsShort(p, a, floors.minScore))
  {
    EscrowIff(a, floors.minCollateral);
    if a.balance.Some? && Collateralized(a, floors.minCollateral) {
      SimulationExact(p, a, floors.minScore);
      if a.order.Found? {
        EnvelopeExact(a.order.value.terms, p.body.quote);
      }
      if Executable(p, a) {
        GateExact(p, a, floors.minScore);
      }
    }
  }

  /** The same questions answered in another market: the one shared gas price moves both checks. */
  function InMarket(a: Answers, gasPrice: U64, nativePrice: Fetched<U256>): Answers {
    a.(escrowGasPrice := gasPrice, gateGasPrice := gasPrice, nativePrice := nativePrice)
  }

  /** Whether the escrow covers the threshold, when it could be read. */
  predicate Covered(a: Answers, gasPrice: U64, minCollateral: U256) {
    a.balance.Some? ==> a.balance.value >= EscrowThreshold(gasPrice, minCollateral)
  }

  /**
   A market move changes the judgement on a proposal already competing exactly
   when it takes the escrow across the threshold, and then one of the two
   verdicts is `InsufficientEscrow`. The profitability gate never speaks.
   */
  lemma MarketMovesOnlyEscrow(p: Proposal, a: Answers, floors: Floors, gasPrice: U64, price: Fetched<U256>,
                              minScore: U256)
    requires !p.status.Submitted?
    ensures var before := Judgement(p, a, floors);
            var after := Judgement(p, InMarket(a, gasPrice, price), floors.(minScore := minScore));
            && (after == before <==>
                  (Covered(a, gasPrice, floors.minCollateral) <==>
                   Covered(a, a.escrowGasPrice, floors.minCollateral)))
            && (!Covered(a, gasPrice, floors.minCollateral) <==> after == Some(Reject(InsufficientEscrow)))
            && before != Some(Reject(Unprofitable))
  {
    assert SimulationVerdict(p, a, floors.minScore) ==
           SimulationVerdict(p, InMarket(a, gasPrice, price), minScore) != Some(Reject(InsufficientEscrow));
  }

  // -------------------------------------------------------------------------
  // From activation to bid
  // -------------------------------------------------------------------------

  /** The auction offers the order on the terms, prices and gas the gate saw. */
  predicate AsJudged(auction: Auction, order: AuctionOrder, a: Answers) {
    && a.order.Found? && a.nativePrice.Found?
    && order.terms == a.order.value.terms
    && PriceOf(auction, SurplusToken(order)) == a.nativePrice.value
    && auction.gasPrice == a.gateGasPrice
  }

  /**
   A proposal that activates passes the filters of an auction on the same
   terms, and a solution can be built on it: only its deadline and the gas cut,
   which the gate does not check and an unpriced sell token fails, can still
   rule it out, and on a buy order the cut cannot.
   */
  lemma ActivatedBids(p: Proposal, a: Answers, floors: Floors, auction: Auction, order: AuctionOrder, now: U256)
    requires p.status.Submitted? && Accepts(p, a, floors) && AsJudged(auction, order, a)
    ensures var activated := Judged(p, Judgement(p, a, floors).value);
            var c := CandidateFor(order.terms, p.body.quote, GasCost(a.gas.value, auction.gasPrice))
                       .ScaledToFill(order.terms.partiallyFillable);
            && c.Some?
            && (Evaluate(auction, order, now, activated).Some? <==>
                  p.body.validUntil > now && Size(c.value, PriceOf(auction, order.sellToken)).Some?)
            && (order.terms.kind.Buy? ==>
                  (Evaluate(auction, order, now, activated).Some? <==> p.body.validUntil > now))
            && (var offer := Evaluate(auction, order, now, activated);
                offer.Some? ==> forall id :: BuildSolution(id, order, offer.value).Some?)
  {
    var c := CandidateFor(order.terms, p.body.quote, GasCost(a.gas.value, auction.gasPrice))
               .ScaledToFill(order.terms.partiallyFillable);
    AcceptedIff(p, a, floors);
    ScalingIgnoresGas(order.terms, p.body.quote, GasCost(a.gas.value, auction.gasPrice));
    PlausibleGasIsExact(a.gas.value, auction.gasPrice);
    ScoreExceedsIff(c.value, a.nativePrice.value, floors.minScore);
    assert !ExceedsRemaining(order.terms, p.body.quote);
    if order.terms.kind.Buy? {
      BuyOrderScoreImpliesCut(c.value, a.nativePrice.value);
    }
  }

  // -------------------------------------------------------------------------
  // The validator and its caches
  // -------------------------------------------------------------------------

  /** Answers as the caches complete them. */
  function Recalled(p: Proposal, a: Answers, trampolines: map<Address, Address>, authenticator: Option<Address>)
    : Answers
  {
    a.(trampoline := if p.body.subSolver in trampolines then Returned(trampolines[p.body.subSolver]) else a.trampoline,
       authenticator := if authenticator.Some? then authenticator else a.authenticator)
  }

  class ProposalValidator {
    const floors: Floors
    var trampolines: map<Address, Address>
    var authenticator: Option<Address>

    constructor (floors: Floors)
      ensures this.floors == floors && trampolines == map[] && authenticator == None
    {
      this.floors := floors;
      trampolines, authenticator := map[], None;
    }

    method ResolveTrampoline(subSolver: Address, answer: Called<Address>) returns (r: Called<Address>)
      modifies this`trampolines
      ensures r == if subSolver in old(trampolines) then Returned(old(trampolines)[subSolver]) else answer
      ensures trampolines == if r.Returned? then old(trampolines)[subSolver := r.value] else old(trampolines)
    {
      if subSolver in trampolines {
        return Returned(trampolines[subSolver]);
      }
      if answer.Returned? {
        trampolines := trampolines[subSolver := answer.value];
      }
      r := answer;
    }

    method ResolveAuthenticator(answer: Option<Address>) returns (r: Option<Address>)
      modifies this`authenticator
      ensures r == (if old(authenticator).Some? then old(authenticator) else answer) == authenticator
    {
      if authenticator.None? {
        authenticator := answer;
      }
      r := authenticator;
    }

    /** The judgement on the answers as cached; what is cached stays cached. */
    method Validate(p: Proposal, a: Answers) returns (verdict: Option<Verdict>)
      modifies this
      ensures verdict == Judgement(p, Recalled(p, a, old(trampolines), old(authenticator)), floors)
      ensures forall sub :: sub in old(trampolines) ==> sub in trampolines && trampolines[sub] == old(trampolines)[sub]
      ensures old(authenticator).Some? ==> authenticator == old(authenticator)
    {
      if a.balance.None? {
        return None;
      }
      if a.balance.value < EscrowThreshold(a.escrowGasPrice, floors.minCollateral) {
        return Some(Reject(InsufficientEscrow));
      }
      if a.order.Missing? {
        return Some(Reject(OrderNotFound));
      }
      if a.order.Unavailable? {
        return None;
      }
      var record := a.order.value;
      var envelope := CheckEnvelope(record.terms, p.body.quote);
      if envelope.Err? {
        return Some(Reject(envelope.error));
      }
      var trampoline := Returned(0);
      if p.trampoline.Some? {
        trampoline := Returned(p.trampoline.value);
      } else {
        trampoline := ResolveTrampoline(p.body.subSolver, a.trampoline);
      }
      match trampoline {
        case Reverted => return Some(FailSimulation);
        case Failed => return None;
        case Returned(_) =>
      }
      var resolved := ResolveAuthenticator(a.authenticator);
      if resolved.None? {
        return None;
      }
      match a.gas {
        case Reverted => return Some(FailSimulation);
        case Failed => return None;
        case Returned(gas) =>
          if gas > I64_MAX {
            return None;
          }
          if p.status.Submitted? {
            var gate := Profitability(a, record, p.body.quote, gas, floors.minScore);
            if gate.None? {
              return None;
            }
            if gate.value.Err? {
              return Some(Reject(gate.value.error));
            }
          }
          verdict := Some(Accept(Some(
            SimulationOutcome(gas, trampoline.value, record.sellToken, record.buyToken))));
      }
    }
  }
}
