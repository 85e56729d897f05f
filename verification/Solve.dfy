/**
 `/solve`: for each order of an auction, the best of the live proposals that
 pass every filter, and the record that attributes each returned solution to
 the proposal it was built on.
 */
module Solve {
  import opened BidLaws
  import opened GasCut
  import opened Interleaving
  import opened Lifecycle
  import opened Orders
  import opened Reachability
  import opened Runs
  import opened Scoring
  import opened Storage
  import opened Uint256
  import opened Wrappers

  datatype AuctionOrder = AuctionOrder(
    uid: OrderUid,
    terms: Order,
    sellToken: Address,
    buyToken: Address
  )

  /** `prices` holds the tokens that come with a reference price. */
  datatype Auction = Auction(
    id: Option<int>,
    orders: seq<AuctionOrder>,
    prices: map<Address, U256>,
    gasPrice: U256
  )

  function PriceOf(auction: Auction, token: Address): U256 {
    if token in auction.prices then auction.prices[token] else 0
  }

  /** The token the user's surplus is in. */
  function SurplusToken(order: AuctionOrder): Address {
    if order.terms.kind.Sell? then order.buyToken else order.sellToken
  }

  /** A proposal that passed every filter. */
  datatype Offer = Offer(proposal: Proposal, gasUsed: ColumnGas, cut: Cut, score: U256)

  /** The fill is more than the auction has left of a partially fillable order. */
  predicate ExceedsRemaining(terms: Order, quote: Quote) {
    terms.partiallyFillable &&
    (if terms.kind.Sell? then quote.sell > terms.sell else quote.buy > terms.buy)
  }

  function GasCost(gasUsed: U64, gasPrice: U256): U256 {
    SaturatingMul(EffectiveGas(gasUsed), gasPrice)
  }

  function Evaluate(auction: Auction, order: AuctionOrder, now: U256, p: Proposal): Option<Offer> {
    if p.body.validUntil <= now || ExceedsRemaining(order.terms, p.body.quote) then None
    else
      var gasUsed :- p.gasUsed;
      var candidate :- CandidateFor(order.terms, p.body.quote, GasCost(gasUsed, auction.gasPrice))
                         .ScaledToFill(order.terms.partiallyFillable);
      var score :- ScoreProposal(candidate, PriceOf(auction, SurplusToken(order)));
      var cut :- Size(candidate, PriceOf(auction, order.sellToken));
      if score > 0 then Some(Offer(p, gasUsed, cut, score)) else None
  }

  /** The later offer unless the earlier one scores more. */
  function Better(earlier: Option<Offer>, later: Option<Offer>): Option<Offer> {
    if later.None? || (earlier.Some? && earlier.value.score > later.value.score) then earlier else later
  }

  /** The highest score among what passes, the last of equals. */
  function BestBy(pass: Proposal -> Option<Offer>, ps: seq<Proposal>): Option<Offer> {
    if ps == [] then None
    else Better(BestBy(pass, ps[..|ps| - 1]), pass(ps[|ps| - 1]))
  }

  function Evaluator(auction: Auction, order: AuctionOrder, now: U256): Proposal -> Option<Offer> {
    p => Evaluate(auction, order, now, p)
  }

  function Best(auction: Auction, order: AuctionOrder, now: U256, ps: seq<Proposal>): Option<Offer> {
    BestBy(Evaluator(auction, order, now), ps)
  }

  // -------------------------------------------------------------------------
  // Selection is optimal and exact
  // -------------------------------------------------------------------------

  /** `i` is the pick: it passes, nobody passing scores more, and nobody after it scores as much. */
  ghost predicate IsPick(pass: Proposal -> Option<Offer>, ps: seq<Proposal>, i: nat)
    requires i < |ps|
  {
    && pass(ps[i]).Some?
    && forall j :: 0 <= j < |ps| && pass(ps[j]).Some? ==>
         && pass(ps[j]).value.score <= pass(ps[i]).value.score
         && (j > i ==> pass(ps[j]).value.score < pass(ps[i]).value.score)
  }

  /** Nothing is picked exactly when nothing passes. */
  lemma {:induction false} NoneIffNonePass(pass: Proposal -> Option<Offer>, ps: seq<Proposal>)
    ensures BestBy(pass, ps).None? <==> forall j :: 0 <= j < |ps| ==> pass(ps[j]).None?
  {
    if ps != [] {
      var n := |ps| - 1;
      NoneIffNonePass(pass, ps[..n]);
      assert forall j :: 0 <= j < n ==> ps[..n][j] == ps[j];
    }
  }

  /** What the selection returns is the pick. */
  lemma {:induction false} BestByIsThePick(pass: Proposal -> Option<Offer>, ps: seq<Proposal>) returns (i: nat)
    requires BestBy(pass, ps).Some?
    ensures i < |ps| && IsPick(pass, ps, i) && BestBy(pass, ps) == pass(ps[i])
  {
    var n := |ps| - 1;
    NoneIffNonePass(pass, ps[..n]);
    assert forall j :: 0 <= j < n ==> ps[..n][j] == ps[j];
    if BestBy(pass, ps[..n]).None? {
      i := n;
    } else {
      i := BestByIsThePick(pass, ps[..n]);
      if pass(ps[n]).Some? && pass(ps[n]).value.score >= pass(ps[i]).value.score {
        i := n;
      }
    }
  }

  /**
   The selected offer is the one with the greatest score among all proposals
   that pass every filter, the cut included, and the last of those on a tie;
   there is one exactly when some proposal passes.
   */
  lemma BestIsThePick(auction: Auction, order: AuctionOrder, now: U256, ps: seq<Proposal>) returns (i: int)
    ensures Best(auction, order, now, ps).Some? <==>
            exists j :: 0 <= j < |ps| && Evaluate(auction, order, now, ps[j]).Some?
    ensures Best(auction, order, now, ps).Some? ==>
            && 0 <= i < |ps| && IsPick(Evaluator(auction, order, now), ps, i)
            && Best(auction, order, now, ps) == Evaluate(auction, order, now, ps[i])
  {
    var pass := Evaluator(auction, order, now);
    NoneIffNonePass(pass, ps);
    i := -1;
    if BestBy(pass, ps).Some? {
      i := BestByIsThePick(pass, ps);
    }
    assert forall j :: 0 <= j < |ps| ==> pass(ps[j]) == Evaluate(auction, order, now, ps[j]);
  }

  lemma BestAppend(pass: Proposal -> Option<Offer>, ps: seq<Proposal>, p: Proposal)
    ensures BestBy(pass, ps + [p]) == Better(BestBy(pass, ps), pass(p))
  {
    assert (ps + [p])[..|ps|] == ps;
  }

  lemma {:induction false} FailingIsSkipped(
      pass: Proposal -> Option<Offer>, before: seq<Proposal>, p: Proposal, after: seq<Proposal>)
    requires pass(p).None?
    ensures BestBy(pass, before + [p] + after) == BestBy(pass, before + after)
  {
    if after == [] {
      BestAppend(pass, before, p);
      assert before + [p] + after == before + [p] && before + after == before;
    } else {
      var rest, last := after[..|after| - 1], after[|after| - 1];
      FailingIsSkipped(pass, before, p, rest);
      BestAppend(pass, before + [p] + rest, last);
      BestAppend(pass, before + rest, last);
      assert before + [p] + after == before + [p] + rest + [last];
      assert before + after == before + rest + [last];
    }
  }

  /** A proposal that fails a filter, the cut's included, leaves the order to whoever would win without it. */
  lemma FailingYieldsToRunnerUp(
      auction: Auction, order: AuctionOrder, now: U256, before: seq<Proposal>, p: Proposal, after: seq<Proposal>)
    requires Evaluate(auction, order, now, p).None?
    ensures Best(auction, order, now, before + [p] + after) == Best(auction, order, now, before + after)
  {
    FailingIsSkipped(Evaluator(auction, order, now), before, p, after);
  }

  /** A saturated gas cost outweighs every surplus a score can be made of. */
  lemma ScoredGasIsExact(c: Candidate, price: U256, gasUsed: ColumnGas, gasPrice: U256)
    requires c.gasCost == GasCost(gasUsed, gasPrice) && ScoreProposal(c, price).Some?
    ensures c.gasCost == (gasUsed + GAS_BUFFER) * gasPrice
  {
    ScoreCoversGas(c, price);
    assert c.gasCost < MAX;
  }

  /** The score is the surplus's worth rounded down, less the gas, over unbounded integers. */
  ghost predicate ScoresExactly(auction: Auction, order: AuctionOrder, quote: Quote, gas: int, score: int) {
    var limit := LimitOf(order.terms, quote);
    && limit.Some?
    && var surplus := if order.terms.kind.Sell? then quote.buy - limit.value else limit.value - quote.sell;
       var worth := surplus * Price(auction, if order.terms.kind.Sell? then order.buyToken else order.sellToken);
    && surplus >= 0 && score > 0
    && (score + gas) * 1_000_000_000_000_000_000 <= worth < (score + gas + 1) * 1_000_000_000_000_000_000
  }

  /** The cut is the least that pays for the gas, makes up the fill with what is executed, and keeps the limit. */
  ghost predicate CutsExactly(auction: Auction, order: AuctionOrder, quote: Quote, gas: int, cut: Cut) {
    && LeastCovering(cut.amount, Price(auction, order.sellToken), gas * 1_000_000_000_000_000_000)
    && cut.executed + (if order.terms.kind.Sell? then cut.amount else 0) == FillTarget(order.terms, quote)
    && SignedLimitHolds(order.terms, quote, cut)
  }

  /**
   Every offer equals the formulas over unbounded integers: no saturation, no
   overflow and no rounding against the limit ever reaches a bid.
   */
  lemma OfferIsExact(auction: Auction, order: AuctionOrder, now: U256, p: Proposal)
    requires Evaluate(auction, order, now, p).Some?
    ensures var offer := Evaluate(auction, order, now, p).value;
            var gas := (offer.gasUsed + 30_000) * auction.gasPrice;
            && offer.proposal == p && p.gasUsed == Some(offer.gasUsed)
            && ScoresExactly(auction, order, p.body.quote, gas, offer.score)
            && CutsExactly(auction, order, p.body.quote, gas, offer.cut)
  {
    var gasCost := GasCost(p.gasUsed.value, auction.gasPrice);
    var candidate := CandidateFor(order.terms, p.body.quote, gasCost)
                       .ScaledToFill(order.terms.partiallyFillable).value;
    ScoredGasIsExact(candidate, PriceOf(auction, SurplusToken(order)), p.gasUsed.value, auction.gasPrice);
    ScaledExact(order.terms, p.body.quote, gasCost);
    ScoreExact(candidate, PriceOf(auction, SurplusToken(order)));
    CutKeepsSignedLimit(order.terms, p.body.quote, gasCost, PriceOf(auction, order.sellToken));
  }

  lemma ScoreExact(c: Candidate, price: U256)
    requires ScoreProposal(c, price).Some?
    ensures var score, worth := ScoreProposal(c, price).value, c.Surplus() * price;
            c.Surplus() >= 0 && (score + c.gasCost) * ETHER <= worth < (score + c.gasCost + 1) * ETHER
  {
    MulNonNegative(c.Surplus(), price);
  }

  /** The auction's reference price of a token, zero when it has none. */
  ghost function Price(auction: Auction, token: Address): U256 {
    if token in auction.prices then auction.prices[token] else 0
  }

  /** What the bid must leave the sub-solver's gas and the user, over unbounded integers. */
  ghost predicate Affordable(auction: Auction, order: AuctionOrder, quote: Quote, limit: U256, bill: int) {
    var sell := order.terms.kind.Sell?;
    var surplus := if sell then quote.buy - limit else limit - quote.sell;
    var price := Price(auction, if sell then order.buyToken else order.sellToken);
    && surplus >= 0 && Fits(surplus * price)
    && (bill + 1) * 1_000_000_000_000_000_000 <= surplus * price
    && (sell ==>
          && Price(auction, order.sellToken) > 0 && Fits(bill)
          && SellCutFits(Candidate(if order.terms.partiallyFillable then quote.sell else order.terms.sell, limit,
                                   quote.sell, quote.buy, Sell, bill),
                         CeilDiv(bill * 1_000_000_000_000_000_000, Price(auction, order.sellToken))))
  }

  /**
   Exactly when a proposal is a bid: it is unexpired and simulated, fits what
   is left of a partially fillable order, its limit can be scaled, its surplus
   is worth more than its gas and, on a sell order, the gas can be cut out of
   the fill with the limit still met.
   */
  lemma OfferIff(auction: Auction, order: AuctionOrder, now: U256, p: Proposal)
    ensures Evaluate(auction, order, now, p).Some? <==>
            && p.body.validUntil > now && p.gasUsed.Some?
            && (order.terms.partiallyFillable ==>
                  if order.terms.kind.Sell? then p.body.quote.sell <= order.terms.sell
                  else p.body.quote.buy <= order.terms.buy)
            && LimitOf(order.terms, p.body.quote).Some?
            && Affordable(auction, order, p.body.quote, LimitOf(order.terms, p.body.quote).value,
                          (p.gasUsed.value + 30_000) * auction.gasPrice)
  {
    if p.gasUsed.Some? {
      var bill := (p.gasUsed.value + 30_000) * auction.gasPrice;
      var gasCost := GasCost(p.gasUsed.value, auction.gasPrice);
      ScaledExact(order.terms, p.body.quote, gasCost);
      if LimitOf(order.terms, p.body.quote).Some? {
        var c := CandidateFor(order.terms, p.body.quote, gasCost).ScaledToFill(order.terms.partiallyFillable).value;
        CandidateBidsIff(c, PriceOf(auction, SurplusToken(order)), PriceOf(auction, order.sellToken), bill);
      }
    }
  }

  /** The score and the cut of one candidate, whose gas may have saturated. */
  lemma CandidateBidsIff(c: Candidate, surplusPrice: U256, sellPrice: U256, bill: nat)
    requires c.gasCost == bill || c.gasCost == MAX < bill
    requires c.kind.Buy? ==> surplusPrice == sellPrice
    ensures ScoreProposal(c, surplusPrice).Some? && ScoreProposal(c, surplusPrice).value > 0
            && Size(c, sellPrice).Some? <==>
            && c.Surplus() >= 0 && Fits(c.Surplus() * surplusPrice)
            && (bill + 1) * ETHER <= c.Surplus() * surplusPrice
            && (c.kind.Sell? ==>
                  sellPrice > 0 && Fits(bill) && SellCutFits(c.(gasCost := bill), CeilDiv(bill * ETHER, sellPrice)))
  {
    ScoreExceedsIff(c, surplusPrice, 0);
    if c.gasCost == bill {
      match c.kind
      case Sell => SellOrderCutIff(c, sellPrice);
      case Buy =>
        if ScoreProposal(c, surplusPrice).Some? && ScoreProposal(c, surplusPrice).value > 0 {
          BuyOrderScoreImpliesCut(c, sellPrice);
        }
    }
  }

  /** A sell order of 100 000 for at least 900 000, whose proposal's route pays 1 000 000. */
  const GENEROUS: Proposal :=
    Proposal(1, Body(7, 1, Quote(100_000, 1_000_000), 2), Active, None, Some(0), Some(8), 3, 4, None, None)
  const WANTED: AuctionOrder := AuctionOrder(1, Order(100_000, 900_000, Sell, false, true), 3, 4)
  const PRICED: Auction := Auction(Some(1), [WANTED], map[3 := ETHER, 4 := ETHER], 1)

  /** The score and the cut really can disagree: a route that beats the reference ratio scores, yet is not bid. */
  lemma ScoreWithoutCutExists()
    ensures var c := CandidateFor(WANTED.terms, GENEROUS.body.quote, GasCost(0, PRICED.gasPrice));
            && ScoreProposal(c, ETHER) == Some(70_000)
            && Size(c, ETHER) == None
            && Evaluate(PRICED, WANTED, 1, GENEROUS) == None
  {
    var c := CandidateFor(WANTED.terms, GENEROUS.body.quote, GasCost(0, PRICED.gasPrice));
    assert c == Candidate(100_000, 900_000, 100_000, 1_000_000, Sell, 30_000);
    FloorIff(100_000, 100_000 * ETHER, ETHER);
    FloorIff(100_001, 100_000 * ETHER, ETHER);
    CeilIff(30_000 * ETHER, ETHER, 30_000);
    CeilIff(30_000 * ETHER, ETHER, 29_999);
    SellOrderCutIff(c, ETHER);
  }

  // -------------------------------------------------------------------------
  // Attribution
  // -------------------------------------------------------------------------

  datatype Solution = Solution(id: nat, uid: OrderUid, proposal: ProposalId, cut: Cut, gas: U64)

  /** No solution is built for a proposal whose trampoline is unknown. */
  function BuildSolution(id: nat, order: AuctionOrder, offer: Offer): Option<Solution> {
    if offer.proposal.trampoline.None? then None
    else Some(Solution(id, order.uid, offer.proposal.id, offer.cut, EffectiveGas(offer.gasUsed)))
  }

  /** The solution id names its proposal, for as long as the proposal's row exists. */
  predicate Attributed(s: State, auction: int, solution: Solution) {
    var key := (auction, solution.id);
    && 1 <= solution.proposal < s.nextId
    && (if solution.proposal in s.rows
        then key in s.solutions && s.solutions[key] == solution.proposal
        else key !in s.solutions)
  }

  /** A step that bids nothing on the auction loses only the attributions of rows it deletes. */
  lemma StepKeepsAttribution(s: State, step: Step, auction: int, solution: Solution)
    requires Inv(s) && MeanwhileMay(s, step, Answering(auction)) && Attributed(s, auction, solution)
    ensures Attributed(Apply(s, step), auction, solution)
  {
    var key := (auction, solution.id);
    match step
    case Sweep(age) =>
    case Bid(_, _, _) =>
    case _ =>
      OthersLeaveSolutions(s, step);
  }

  lemma OthersLeaveSolutions(s: State, step: Step)
    requires !step.Sweep? && !step.Bid?
    ensures Apply(s, step).solutions == s.solutions && s.nextId <= Apply(s, step).nextId
    ensures forall id :: id < s.nextId ==> (id in Apply(s, step).rows <==> id in s.rows)
  {
  }

  lemma {:induction false} MeanwhileKeepsAttribution(s: State, others: seq<Step>, auction: int, solution: Solution)
    requires Inv(s) && Attributed(s, auction, solution)
    ensures Attributed(Meanwhile(s, others, Answering(auction)), auction, solution)
  {
    if others != [] {
      var before, step := Meanwhile(s, others[..|others| - 1], Answering(auction)), others[|others| - 1];
      MeanwhileKeepsAttribution(s, others[..|others| - 1], auction, solution);
      MeanwhileKeeps(s, others[..|others| - 1], Answering(auction));
      if MeanwhileMay(before, step, Answering(auction)) {
        StepKeepsAttribution(before, step, auction, solution);
      }
    }
  }

  // -------------------------------------------------------------------------
  // The endpoint
  // -------------------------------------------------------------------------

  /** What happens around one order's recording: the others' writes, and whether the database takes it. */
  datatype Recording = Recording(others: seq<Step>, taken: bool)

  /** The solution an order's live proposals yield, if any. */
  function SolutionFor(auction: Auction, order: AuctionOrder, now: U256, ps: seq<Proposal>, id: nat): Option<Solution> {
    var best :- Best(auction, order, now, ps);
    BuildSolution(id, order, best)
  }

  datatype Response = Response(store: State, solutions: seq<Solution>)

  /** Record the attribution before bidding; what cannot be recorded is not bid. */
  function Offered(r: Response, auction: Option<int>, solution: Solution, turn: Recording): Response {
    match auction
    case None => r.(solutions := r.solutions + [solution])
    case Some(id) =>
      var s := Meanwhile(r.store, turn.others, Answering(id));
      if turn.taken && solution.proposal in s.rows
      then Response(RecordSolution(s, id, solution.id, solution.proposal), r.solutions + [solution])
      else r.(store := s)
  }

  /** One order's turn, on its live proposals. */
  function Turned(r: Response, auction: Auction, order: AuctionOrder, now: U256, ps: seq<Proposal>, turn: Recording)
    : Response
  {
    match SolutionFor(auction, order, now, ps, |r.solutions| + 1)
    case None => r
    case Some(solution) => Offered(r, auction.id, solution, turn)
  }

  /** The first `n` orders answered, on what was read from `read`. */
  function Answered(read: State, auction: Auction, now: U256, recording: nat -> Recording, n: nat): Response
    requires n <= |auction.orders|
  {
    if n == 0 then Response(read, [])
    else
      var order := auction.orders[n - 1];
      Turned(Answered(read, auction, now, recording, n - 1), auction, order, now,
             ListByOrderUid(read, order.uid), recording(n - 1))
  }

  lemma AnsweredGrows(read: State, auction: Auction, now: U256, recording: nat -> Recording, n: nat)
    requires n < |auction.orders|
    ensures Answered(read, auction, now, recording, n + 1) ==
            Turned(Answered(read, auction, now, recording, n), auction, auction.orders[n], now,
                   ListByOrderUid(read, auction.orders[n].uid), recording(n))
  {
  }

  /**
   One order's part of the answer: nothing without a pick; without an auction
   id the pick is simply bid; with one it is bid if and only if its attribution
   was recorded, which the database must take and the row still be there for.
   Failing that, only the others' writes remain.
   */
  lemma RecordedBeforeBid(read: State, auction: Auction, now: U256, recording: nat -> Recording, n: nat)
    requires n < |auction.orders|
    ensures var order := auction.orders[n];
            var before := Answered(read, auction, now, recording, n);
            var after := Answered(read, auction, now, recording, n + 1);
            match SolutionFor(auction, order, now, ListByOrderUid(read, order.uid), |before.solutions| + 1)
            case None => after == before
            case Some(solution) =>
              match auction.id
              case None => after == Response(before.store, before.solutions + [solution])
              case Some(id) =>
                var s := Meanwhile(before.store, recording(n).others, Answering(id));
                if recording(n).taken && solution.proposal in s.rows
                then after == Response(s.(solutions := s.solutions[(id, solution.id) := solution.proposal]),
                                       before.solutions + [solution])
                else after == Response(s, before.solutions)
  {
    AnsweredGrows(read, auction, now, recording, n);
  }

  lemma EmptyBookTurn(r: Response, auction: Auction, order: AuctionOrder, now: U256, turn: Recording)
    ensures Turned(r, auction, order, now, [], turn) == r
  {
  }

  // -------------------------------------------------------------------------
  // What every answer guarantees
  // -------------------------------------------------------------------------

  /** Each solution was built for one of the auction's first `n` orders, on that order's pick. */
  ghost predicate BuiltOnPick(read: State, auction: Auction, now: U256, n: nat, solution: Solution)
    requires n <= |auction.orders|
  {
    exists k :: 0 <= k < n &&
      SolutionFor(auction, auction.orders[k], now, ListByOrderUid(read, auction.orders[k].uid), solution.id)
      == Some(solution)
  }

  lemma {:induction false} PickInBook(s: State, uid: OrderUid, p: Proposal, n: nat)
    requires Inv(s) && p in DecodeRows(ActiveRows(s, [uid], n))
    ensures HoldsRow(s, p) && p.status.Active? && p.body.orderUid == uid
  {
    assert n > 0;
    var rows := ActiveRows(s, [uid], n - 1);
    if ActiveFor(s, [uid], n - 1) {
      DecodeAppend(rows, s.rows[n - 1]);
      assert RowOk(s, n - 1);
    } else {
      assert rows + [] == rows;
    }
    if p in DecodeRows(rows) {
      PickInBook(s, uid, p, n - 1);
    }
  }

  /** A solution's proposal was active when the auction was read. */
  lemma SolutionFromBook(s: State, auction: Auction, order: AuctionOrder, now: U256, id: nat)
    requires Inv(s) && SolutionFor(auction, order, now, ListByOrderUid(s, order.uid), id).Some?
    ensures ActiveIn(s, SolutionFor(auction, order, now, ListByOrderUid(s, order.uid), id).value.proposal)
    ensures SolutionFor(auction, order, now, ListByOrderUid(s, order.uid), id).value.id == id
  {
    var ps := ListByOrderUid(s, order.uid);
    var i := BestIsThePick(auction, order, now, ps);
    PickInBook(s, order.uid, ps[i], s.nextId);
  }

  ghost predicate Numbered(r: Response) {
    forall i :: 0 <= i < |r.solutions| ==> r.solutions[i].id == i + 1
  }

  ghost predicate AllAttributed(r: Response, auction: Option<int>) {
    auction.Some? ==> forall i :: 0 <= i < |r.solutions| ==> Attributed(r.store, auction.value, r.solutions[i])
  }

  ghost predicate AllBuiltOnPicks(read: State, auction: Auction, now: U256, n: nat, r: Response)
    requires n <= |auction.orders|
  {
    forall i :: 0 <= i < |r.solutions| ==> BuiltOnPick(read, auction, now, n, r.solutions[i])
  }

  /** Offering one more solution keeps the numbering and every attribution. */
  lemma OfferKeeps(r: Response, auction: Option<int>, solution: Solution, turn: Recording)
    requires Inv(r.store) && Numbered(r) && AllAttributed(r, auction)
    requires solution.id == |r.solutions| + 1 && 1 <= solution.proposal
    ensures var r' := Offered(r, auction, solution, turn);
            Inv(r'.store) && Grows(r.store, r'.store) && Numbered(r') && AllAttributed(r', auction)
  {
    GrowsReflexive(r.store);
    if auction.Some? {
      var s, r' := Meanwhile(r.store, turn.others, Answering(auction.value)), Offered(r, auction, solution, turn);
      MeanwhileKeeps(r.store, turn.others, Answering(auction.value));
      forall i | 0 <= i < |r.solutions|
        ensures Attributed(s, auction.value, r.solutions[i])
      {
        MeanwhileKeepsAttribution(r.store, turn.others, auction.value, r.solutions[i]);
      }
      if r'.solutions != r.solutions {
        StepKeeps(s, Bid(auction.value, solution.id, solution.proposal));
        GrowsTransitive(r.store, s, r'.store);
        assert RowOk(s, solution.proposal);
      }
    }
  }

  /** The response grows only by what the order's pick yields. */
  lemma TurnBuildsOnPick(read: State, auction: Auction, now: U256, n: nat, r: Response, turn: Recording)
    requires 0 < n <= |auction.orders| && AllBuiltOnPicks(read, auction, now, n - 1, r)
    ensures var order := auction.orders[n - 1];
            AllBuiltOnPicks(read, auction, now, n,
              Turned(r, auction, order, now, ListByOrderUid(read, order.uid), turn))
  {
    var order := auction.orders[n - 1];
    var r' := Turned(r, auction, order, now, ListByOrderUid(read, order.uid), turn);
    var solution := SolutionFor(auction, order, now, ListByOrderUid(read, order.uid), |r.solutions| + 1);
    forall i | 0 <= i < |r'.solutions|
      ensures BuiltOnPick(read, auction, now, n, r'.solutions[i])
    {
      if i < |r.solutions| {
        assert BuiltOnPick(read, auction, now, n - 1, r.solutions[i]);
      } else {
        assert Some(r'.solutions[i]) == solution && r'.solutions[i].id == |r.solutions| + 1;
      }
    }
  }

  /** One order's turn keeps the numbering and every attribution. */
  lemma TurnKeeps(read: State, auction: Auction, order: AuctionOrder, now: U256, r: Response, turn: Recording)
    requires Inv(read) && Inv(r.store) && Numbered(r) && AllAttributed(r, auction.id)
    ensures var r' := Turned(r, auction, order, now, ListByOrderUid(read, order.uid), turn);
            Inv(r'.store) && Grows(r.store, r'.store) && Numbered(r') && AllAttributed(r', auction.id)
  {
    GrowsReflexive(r.store);
    var solution := SolutionFor(auction, order, now, ListByOrderUid(read, order.uid), |r.solutions| + 1);
    if solution.Some? {
      SolutionFromBook(read, auction, order, now, |r.solutions| + 1);
      assert RowOk(read, solution.value.proposal);
      OfferKeeps(r, auction.id, solution.value, turn);
    }
  }

  /**
   Whatever recordings fail and whatever the others write meanwhile: solution
   ids are exactly 1..n, each solution is built on its order's pick, and each
   id is attributed to that proposal, though ids are reused after a dropped bid.
   */
  lemma {:induction false} AnswerAttributed(
      read: State, auction: Auction, now: U256, recording: nat -> Recording, n: nat)
    requires Inv(read) && n <= |auction.orders|
    ensures var r := Answered(read, auction, now, recording, n);
            && Inv(r.store) && Grows(read, r.store)
            && Numbered(r) && AllAttributed(r, auction.id) && AllBuiltOnPicks(read, auction, now, n, r)
  {
    if n == 0 {
      GrowsReflexive(read);
    } else {
      var before := Answered(read, auction, now, recording, n - 1);
      AnswerAttributed(read, auction, now, recording, n - 1);
      TurnBuildsOnPick(read, auction, now, n, before, recording(n - 1));
      TurnKeeps(read, auction, auction.orders[n - 1], now, before, recording(n - 1));
      GrowsTransitive(read, before.store, Answered(read, auction, now, recording, n).store);
    }
  }

  /** The solution is for that order, on that proposal as it stood live in the book. */
  ghost predicate BidFor(read: State, order: AuctionOrder, p: Proposal, solution: Solution) {
    && solution.uid == order.uid == p.body.orderUid
    && HoldsRow(read, p) && p.status == Active && solution.proposal == p.id
  }

  /** The quote is unexpired and no more than what is left of the order. */
  ghost predicate QuotesInTime(order: AuctionOrder, now: U256, p: Proposal) {
    && p.body.validUntil > now
    && (order.terms.partiallyFillable ==>
          if order.terms.kind.Sell? then p.body.quote.sell <= order.terms.sell
          else p.body.quote.buy <= order.terms.buy)
  }

  /** The gas estimate is the simulated gas and the buffer, and the fee pays for exactly that. */
  ghost predicate ChargesForGas(auction: Auction, order: AuctionOrder, p: Proposal, solution: Solution) {
    && p.gasUsed.Some? && solution.gas == p.gasUsed.value + 30_000
    && CutsExactly(auction, order, p.body.quote, solution.gas * auction.gasPrice, solution.cut)
  }

  /**
   What a bid is: a proposal live in the book that was read, quoting within its
   deadline and what is left of the order; its fee is the least that pays for
   its gas, executed and fee make up the fill, and the limit the user signed
   still holds.
   */
  lemma BidHonoursOrder(read: State, auction: Auction, now: U256, n: nat, solution: Solution)
    returns (order: AuctionOrder, p: Proposal)
    requires Inv(read) && n <= |auction.orders| && BuiltOnPick(read, auction, now, n, solution)
    ensures order in auction.orders[..n] && BidFor(read, order, p, solution)
    ensures QuotesInTime(order, now, p)
    ensures ChargesForGas(auction, order, p, solution)
  {
    var k :| 0 <= k < n &&
      SolutionFor(auction, auction.orders[k], now, ListByOrderUid(read, auction.orders[k].uid), solution.id)
      == Some(solution);
    order := auction.orders[k];
    var ps := ListByOrderUid(read, order.uid);
    var i := BestIsThePick(auction, order, now, ps);
    p := ps[i];
    OfferIsExact(auction, order, now, p);
    OfferIff(auction, order, now, p);
    PickInBook(read, order.uid, p, read.nextId);
    assert RowOk(read, p.id);
  }

  /** The bid is on the response: same order, proposal and cut, whatever id it was given. */
  predicate Bids(solutions: seq<Solution>, wanted: Solution) {
    exists i :: 0 <= i < |solutions| && solutions[i] == wanted.(id := i + 1)
  }

  /** And nothing is left out: an order with a buildable pick is bid, unless its recording failed. */
  lemma {:induction false} EveryPickIsBid(
      read: State, auction: Auction, now: U256, recording: nat -> Recording, n: nat, k: nat)
    requires k < n <= |auction.orders|
    ensures var order := auction.orders[k];
            var picked := SolutionFor(auction, order, now, ListByOrderUid(read, order.uid), 0);
            var before := Answered(read, auction, now, recording, k).store;
            var bid := Answered(read, auction, now, recording, n).solutions;
            picked.Some?
            && (auction.id.None?
                || (recording(k).taken
                    && picked.value.proposal in
                       Meanwhile(before, recording(k).others, Answering(auction.id.value)).rows))
            ==> Bids(bid, picked.value)
  {
    var order := auction.orders[k];
    var picked := SolutionFor(auction, order, now, ListByOrderUid(read, order.uid), 0);
    var earlier := Answered(read, auction, now, recording, n - 1).solutions;
    var bid := Answered(read, auction, now, recording, n).solutions;
    if k < n - 1 {
      EveryPickIsBid(read, auction, now, recording, n - 1, k);
      assert bid[..|earlier|] == earlier;
      assert forall i :: 0 <= i < |earlier| ==> bid[i] == earlier[i];
    } else if picked.Some? && bid != earlier {
      assert bid[|earlier|] == picked.value.(id := |earlier| + 1);
    }
  }

  /** Looking the id up at `/notify` finds that proposal and no other, or nothing once its row is gone or unreadable. */
  lemma LookupFindsProposal(s: State, auction: int, solution: Solution)
    requires Inv(s) && Attributed(s, auction, solution)
    ensures SolutionProposals(s, auction, [solution.id]) ==
            if solution.proposal in s.rows && Readable(s.rows[solution.proposal])
            then [s.rows[solution.proposal].proposal] else []
  {
    LookupBelow(s, auction, solution, s.nextId);
    if solution.proposal in s.rows {
      DecodeAppend([], s.rows[solution.proposal]);
    }
  }

  lemma {:induction false} LookupBelow(s: State, auction: int, solution: Solution, n: nat)
    requires Inv(s) && Attributed(s, auction, solution)
    ensures JoinedRows(s, auction, [solution.id], n) ==
            if solution.proposal < n && solution.proposal in s.rows then [s.rows[solution.proposal]] else []
  {
    if n > 0 {
      LookupBelow(s, auction, solution, n - 1);
      var matched := Matches(s, auction, [solution.id], n - 1);
      if solution.proposal == n - 1 && n - 1 in s.rows {
        assert matched == {solution.id};
      } else {
        assert n - 1 in s.rows ==> matched == {};
      }
    }
  }

  // -------------------------------------------------------------------------
  // The endpoint
  // -------------------------------------------------------------------------

  /** The batch read, as the auction's orders look it up. */
  ghost predicate IsBook(s: State, auction: Auction, byOrder: map<OrderUid, seq<Proposal>>) {
    forall k :: 0 <= k < |auction.orders| ==>
      var uid := auction.orders[k].uid;
      ListByOrderUid(s, uid) == if uid in byOrder then byOrder[uid] else []
  }

  class Engine {
    const store: ProposalStore
    var gasPrice: U64

    constructor (store: ProposalStore, gasPrice: U64)
      ensures this.store == store && this.gasPrice == gasPrice
    {
      this.store := store;
      this.gasPrice := gasPrice;
    }

    /** Answer an auction. */
    method Answer(auction: Auction, now: U256, readOk: bool, recording: nat -> Recording)
      returns (solutions: seq<Solution>)
      requires store.Valid()
      modifies this, store
      ensures store.Valid()
      ensures gasPrice == if auction.gasPrice <= 0xFFFF_FFFF_FFFF_FFFF then auction.gasPrice else old(gasPrice)
      ensures Response(store.Contents(), solutions) ==
              if readOk then Answered(old(store.Contents()), auction, now, recording, |auction.orders|)
              else Response(old(store.Contents()), [])
    {
      if auction.gasPrice <= U64_MAX {
        gasPrice := auction.gasPrice;
      }
      solutions := [];
      if !readOk {
        return;
      }
      var uids := seq(|auction.orders|, k requires 0 <= k < |auction.orders| => auction.orders[k].uid);
      var byOrder := store.ActiveByOrderUids(uids);
      assert forall k :: 0 <= k < |auction.orders| ==> uids[k] == auction.orders[k].uid;
      solutions := Serve(auction, now, byOrder, recording);
    }

    /** Answer the orders one by one, on the book that was read. */
    method Serve(auction: Auction, now: U256, byOrder: map<OrderUid, seq<Proposal>>, recording: nat -> Recording)
      returns (solutions: seq<Solution>)
      requires store.Valid() && IsBook(store.Contents(), auction, byOrder)
      modifies store
      ensures store.Valid()
      ensures Response(store.Contents(), solutions) ==
              Answered(old(store.Contents()), auction, now, recording, |auction.orders|)
    {
      ghost var read := store.Contents();
      solutions := [];
      var k := 0;
      while k < |auction.orders|
        invariant 0 <= k <= |auction.orders|
        invariant store.Valid()
        invariant Response(store.Contents(), solutions) == Answered(read, auction, now, recording, k)
      {
        AnsweredGrows(read, auction, now, recording, k);
        solutions := TakeTurn(auction, now, byOrder, solutions, recording(k), k, read);
        k := k + 1;
      }
    }

    /** An order nobody proposes for is passed over. */
    method TakeTurn(auction: Auction, now: U256, byOrder: map<OrderUid, seq<Proposal>>, earlier: seq<Solution>,
                    turn: Recording, k: nat, ghost read: State)
      returns (solutions: seq<Solution>)
      requires store.Valid() && k < |auction.orders| && IsBook(read, auction, byOrder)
      modifies store
      ensures store.Valid()
      ensures Response(store.Contents(), solutions) ==
              Turned(Response(old(store.Contents()), earlier), auction, auction.orders[k], now,
                     ListByOrderUid(read, auction.orders[k].uid), turn)
    {
      var order := auction.orders[k];
      solutions := earlier;
      if order.uid in byOrder {
        solutions := Consider(auction, order, now, byOrder[order.uid], earlier, turn);
      } else {
        EmptyBookTurn(Response(store.Contents(), solutions), auction, order, now, turn);
      }
    }

    /** One order's turn: pick, build, record, and only then bid. */
    method Consider(auction: Auction, order: AuctionOrder, now: U256, ps: seq<Proposal>,
                    earlier: seq<Solution>, turn: Recording)
      returns (solutions: seq<Solution>)
      requires store.Valid()
      modifies store
      ensures store.Valid()
      ensures Response(store.Contents(), solutions) ==
              Turned(Response(old(store.Contents()), earlier), auction, order, now, ps, turn)
    {
      solutions := earlier;
      var best := Best(auction, order, now, ps);
      if best.None? {
        return;
      }
      var built := BuildSolution(|earlier| + 1, order, best.value);
      if built.None? {
        return;
      }
      if auction.id.Some? {
        LetOthers(store, turn.others, Answering(auction.id.value));
        if !turn.taken {
          return;
        }
        var recorded := store.RecordBid(auction.id.value, built.value.id, built.value.proposal);
        if recorded.Err? {
          return;
        }
      }
      solutions := earlier + [built.value];
    }
  }
}
