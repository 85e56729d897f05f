/**
 Constant-product routing with the 0.3% fee, in checked 256-bit arithmetic,
 and the laws that tie the two rounded directions together.
 */
module Routing {
  import opened Uint256
  import opened Wrappers

  const FEE_NUMERATOR: nat := 997
  const FEE_DENOMINATOR: nat := 1000

  function AmountOut(amountIn: U256, reserveIn: U256, reserveOut: U256): Option<U256> {
    if reserveIn == 0 || reserveOut == 0 then None
    else
      var withFee :- CheckedMul(amountIn, FEE_NUMERATOR);
      var numerator :- CheckedMul(withFee, reserveOut);
      var scaledReserve :- CheckedMul(reserveIn, FEE_DENOMINATOR);
      var denominator :- CheckedAdd(scaledReserve, withFee);
      Some(FloorDiv(numerator, denominator))
  }

  function AmountIn(amountOut: U256, reserveIn: U256, reserveOut: U256): Option<U256> {
    if reserveIn == 0 || amountOut >= reserveOut then None
    else
      var product :- CheckedMul(reserveIn, amountOut);
      var numerator :- CheckedMul(product, FEE_DENOMINATOR);
      var denominator :- CheckedMul(reserveOut - amountOut, FEE_NUMERATOR);
      CheckedAdd(FloorDiv(numerator, denominator), 1)
  }

  /** A swap is quoted exactly when both reserves hold something and the two sums of products fit. */
  lemma OutputQuotedIff(a: U256, reserveIn: U256, reserveOut: U256)
    ensures AmountOut(a, reserveIn, reserveOut).Some? <==>
            && reserveIn > 0 && reserveOut > 0
            && Fits(a * 997 * reserveOut) && Fits(reserveIn * 1000 + a * 997)
  {
    if reserveOut > 0 {
      MulMonotone(1, reserveOut, a * 997);
    }
  }

  /** A charge is quoted exactly when the pool holds more than is asked and the products and the charge fit. */
  lemma InputQuotedIff(y: U256, reserveIn: U256, reserveOut: U256)
    ensures AmountIn(y, reserveIn, reserveOut).Some? <==>
            && reserveIn > 0 && y < reserveOut
            && Fits(reserveIn * y * 1000) && Fits((reserveOut - y) * 997)
            && Fits(FloorDiv(reserveIn * y * 1000, (reserveOut - y) * 997) + 1)
  {
    MulNonNegative(reserveIn, y);
  }

  /** The least input, over unbounded integers, that buys `amountOut`. */
  function LeastInput(amountOut: nat, reserveIn: nat, reserveOut: nat): nat
    requires amountOut < reserveOut
  {
    CeilDiv(reserveIn * amountOut * FEE_DENOMINATOR, (reserveOut - amountOut) * FEE_NUMERATOR)
  }

  /** The swap's output reaches `y` exactly from the least sufficient input on. */
  lemma OutputReachesIff(a: U256, y: nat, reserveIn: U256, reserveOut: U256)
    requires AmountOut(a, reserveIn, reserveOut).Some? && y < reserveOut
    ensures AmountOut(a, reserveIn, reserveOut).value >= y <==> a >= LeastInput(y, reserveIn, reserveOut)
  {
    CrossTerms(a, y, reserveIn, reserveOut);
    RoundedCompareIff(a, y,
      a * FEE_NUMERATOR * reserveOut, reserveIn * FEE_DENOMINATOR + a * FEE_NUMERATOR,
      reserveIn * y * FEE_DENOMINATOR, (reserveOut - y) * FEE_NUMERATOR);
  }

  /** A floor and a ceiling compare alike when their exact quotients do. */
  lemma RoundedCompareIff(a: nat, y: nat, n: nat, d: nat, m: nat, e: nat)
    requires d > 0 && e > 0
    requires y * d <= n <==> m <= a * e
    ensures FloorDiv(n, d) >= y <==> a >= CeilDiv(m, e)
  {
    FloorIff(y, n, d);
    CeilIff(m, e, a);
  }

  lemma CrossTerms(a: int, y: int, reserveIn: int, reserveOut: int)
    ensures y * (reserveIn * 1000 + a * 997) == reserveIn * y * 1000 + a * 997 * y
    ensures a * ((reserveOut - y) * 997) == a * 997 * reserveOut - a * 997 * y
  {
    assert y * (reserveIn * 1000 + a * 997) == y * (reserveIn * 1000) + y * (a * 997);
    assert y * (reserveIn * 1000) == reserveIn * y * 1000;
    assert a * ((reserveOut - y) * 997) == (a * 997) * (reserveOut - y);
  }

  /**
   A swap never drains the pool, and the fee-adjusted product of the reserves
   never falls.
   */
  lemma SwapKeepsPool(a: U256, reserveIn: U256, reserveOut: U256)
    requires AmountOut(a, reserveIn, reserveOut).Some?
    ensures var out := AmountOut(a, reserveIn, reserveOut).value;
            && out < reserveOut
            && (reserveIn * FEE_DENOMINATOR + a * FEE_NUMERATOR) * (reserveOut - out)
               >= reserveIn * FEE_DENOMINATOR * reserveOut
  {
    var fee := a * FEE_NUMERATOR;
    var depth := reserveIn * FEE_DENOMINATOR;
    var out := AmountOut(a, reserveIn, reserveOut).value;
    assert out * (depth + fee) <= fee * reserveOut;
    PoolProduct(depth, fee, reserveOut, out);
  }

  /** Paying out no more than the fee-adjusted share leaves some, and keeps the product. */
  lemma PoolProduct(depth: nat, fee: nat, reserve: nat, out: nat)
    requires depth > 0 && reserve > 0 && out * (depth + fee) <= fee * reserve
    ensures out < reserve && (depth + fee) * (reserve - out) >= depth * reserve
  {
    PayoutLeaves(depth, fee, reserve, out);
    MulPositiveProduct(depth, reserve);
    if out >= reserve {
      MulMonotone(0, out - reserve, depth + fee);
    }
  }

  lemma PayoutLeaves(depth: int, fee: int, reserve: int, out: int)
    ensures (depth + fee) * (reserve - out) == depth * reserve + fee * reserve - out * (depth + fee)
  {
  }

  lemma MulPositiveProduct(a: nat, b: nat)
    requires a > 0 && b > 0
    ensures a * b > 0
  {
  }

  /** More in never yields less out. */
  lemma OutputMonotone(a: U256, b: U256, reserveIn: U256, reserveOut: U256)
    requires a <= b
    requires AmountOut(a, reserveIn, reserveOut).Some? && AmountOut(b, reserveIn, reserveOut).Some?
    ensures AmountOut(a, reserveIn, reserveOut).value <= AmountOut(b, reserveIn, reserveOut).value
  {
    var y := AmountOut(a, reserveIn, reserveOut).value;
    SwapKeepsPool(a, reserveIn, reserveOut);
    OutputReachesIff(a, y, reserveIn, reserveOut);
    OutputReachesIff(b, y, reserveIn, reserveOut);
  }

  /** `AmountIn` charges the least sufficient input, or one atom more when the division is exact. */
  lemma InputIsLeastOrOneMore(y: U256, reserveIn: U256, reserveOut: U256)
    requires AmountIn(y, reserveIn, reserveOut).Some?
    ensures var least := LeastInput(y, reserveIn, reserveOut);
            var exact := (reserveIn * y * FEE_DENOMINATOR) % ((reserveOut - y) * FEE_NUMERATOR) == 0;
            AmountIn(y, reserveIn, reserveOut).value == if exact then least + 1 else least
  {
  }

  /** The inverse pair: what `AmountIn` charges for `y` buys at least `y`. */
  lemma InputBuysOutput(y: U256, reserveIn: U256, reserveOut: U256)
    requires AmountIn(y, reserveIn, reserveOut).Some?
    requires AmountOut(AmountIn(y, reserveIn, reserveOut).value, reserveIn, reserveOut).Some?
    ensures AmountOut(AmountIn(y, reserveIn, reserveOut).value, reserveIn, reserveOut).value >= y
  {
    var cost := AmountIn(y, reserveIn, reserveOut).value;
    InputIsLeastOrOneMore(y, reserveIn, reserveOut);
    OutputReachesIff(cost, y, reserveIn, reserveOut);
  }

  /** The other way round: buying back what `a` yielded never costs more than one atom over `a`. */
  lemma OutputCostsInput(a: U256, reserveIn: U256, reserveOut: U256)
    requires AmountOut(a, reserveIn, reserveOut).Some?
    requires AmountIn(AmountOut(a, reserveIn, reserveOut).value, reserveIn, reserveOut).Some?
    ensures AmountIn(AmountOut(a, reserveIn, reserveOut).value, reserveIn, reserveOut).value <= a + 1
  {
    var y := AmountOut(a, reserveIn, reserveOut).value;
    OutputReachesIff(a, y, reserveIn, reserveOut);
    InputIsLeastOrOneMore(y, reserveIn, reserveOut);
  }

  /** Asking for more never costs less. */
  lemma InputMonotone(y: U256, z: U256, reserveIn: U256, reserveOut: U256)
    requires y <= z
    requires AmountIn(y, reserveIn, reserveOut).Some? && AmountIn(z, reserveIn, reserveOut).Some?
    ensures AmountIn(y, reserveIn, reserveOut).value <= AmountIn(z, reserveIn, reserveOut).value
  {
    var low := reserveIn * y * FEE_DENOMINATOR;
    var high := reserveIn * z * FEE_DENOMINATOR;
    var wide := (reserveOut - y) * FEE_NUMERATOR;
    var narrow := (reserveOut - z) * FEE_NUMERATOR;
    var q := FloorDiv(low, wide);
    MulMonotone(y, z, reserveIn);
    MulMonotone(narrow, wide, q);
    FloorIff(q, high, narrow);
  }
}
