/**
 The 256-bit unsigned arithmetic of the bid pipeline: every operation either
 returns the exact integer or reports that it does not fit. Amounts are
 mathematical integers, so a bounded result can be compared with the formula
 it stands for.
 */
module Uint256 {
  import opened Wrappers

  const LIMB: nat := 0x1_0000_0000_0000_0000

  /** The value of 64-bit limbs, the lowest first. */
  function OfLimbs(limbs: seq<nat>): nat {
    if limbs == [] then 0 else limbs[0] + LIMB * OfLimbs(limbs[1..])
  }

  /**
   Four full limbs. The value is built rather than written out because
   solvers' nonlinear arithmetic is not reliable on literals this wide; all
   that the laws need of it is room for the product of two limbs.
   */
  function Largest(): (m: nat)
    ensures LIMB * LIMB <= m
  {
    var limbs := seq<nat>(4, _ => LIMB - 1);
    RoomForProduct(limbs);
    OfLimbs(limbs)
  }

  lemma RoomForProduct(limbs: seq<nat>)
    requires |limbs| >= 3 && limbs[0] == limbs[1] == limbs[2] == LIMB - 1
    ensures LIMB * LIMB <= OfLimbs(limbs)
  {
    var rest := limbs[1..];
    assert OfLimbs(rest) >= LIMB - 1 + LIMB * OfLimbs(rest[1..]);
    assert OfLimbs(rest[1..]) >= LIMB - 1;
  }

  /** The largest 256-bit integer. */
  const MAX: nat := Largest()

  /** One native token in wei, the scale of a reference price. */
  const ETHER: nat := 1_000_000_000_000_000_000

  function Power(b: nat, n: nat): nat {
    if n == 0 then 1 else b * Power(b, n - 1)
  }

  lemma {:induction false} FullValue(n: nat)
    ensures OfLimbs(seq<nat>(n, _ => LIMB - 1)) == Power(LIMB, n) - 1
  {
    if n > 0 {
      FullValue(n - 1);
      assert seq<nat>(n, _ => LIMB - 1)[1..] == seq<nat>(n - 1, _ => LIMB - 1);
    }
  }

  /** Its width is four limbs of 64 bits. */
  lemma Width()
    ensures MAX + 1 == Power(LIMB, 4)
  {
    FullValue(4);
  }

  type U256 = x: int | 0 <= x <= MAX

  predicate Fits(x: int) {
    0 <= x <= MAX
  }

  function CheckedAdd(a: U256, b: U256): Option<U256> {
    if Fits(a + b) then Some(a + b) else None
  }

  function CheckedSub(a: U256, b: U256): Option<U256> {
    if b <= a then Some(a - b) else None
  }

  function CheckedMul(a: U256, b: U256): Option<U256> {
    if Fits(a * b) then Some(a * b) else None
  }

  function CheckedDiv(a: U256, b: U256): Option<U256> {
    if b == 0 then None else Some(FloorDiv(a, b))
  }

  function SaturatingAdd(a: U256, b: U256): U256 {
    if Fits(a + b) then a + b else MAX
  }

  function SaturatingMul(a: U256, b: U256): (r: U256)
    ensures r == a * b || r == MAX < a * b
  {
    MulNonNegative(a, b);
    if Fits(a * b) then a * b else MAX
  }

  /** Integer division, rounding down. Never larger than the dividend. */
  function FloorDiv(a: nat, b: nat): (q: nat)
    requires b > 0
    ensures q <= a
    ensures q * b <= a < (q + 1) * b
  {
    FloorBounds(a, b);
    a / b
  }

  /** Integer division, rounding up. */
  function CeilDiv(a: nat, b: nat): (q: nat)
    requires b > 0
    ensures q <= a
    ensures a <= q * b
    ensures q > 0 ==> (q - 1) * b < a
  {
    FloorBounds(a, b);
    if a % b == 0 then a / b else a / b + 1
  }

  lemma MulNonNegative(a: nat, b: nat)
    ensures 0 <= a * b
  {
  }

  lemma FloorBounds(a: nat, b: nat)
    requires b > 0
    ensures 0 <= a / b <= a
    ensures (a / b) * b <= a < (a / b + 1) * b
    ensures a % b == 0 <==> (a / b) * b == a
    ensures a % b != 0 ==> a / b + 1 <= a
  {
    assert a == b * (a / b) + a % b;
    if a / b > 0 {
      MulMonotone(1, b, a / b);
    }
  }

  lemma MulMonotone(a: int, b: int, c: int)
    requires a <= b && 0 <= c
    ensures a * c <= b * c && c * a <= c * b
  {
  }

  lemma MulPositive(a: nat, b: nat)
    requires a * b > 0
    ensures a > 0 && b > 0
  {
  }

  /** Dividing out a positive factor keeps an inequality. */
  lemma MulCancel(a: int, b: int, c: int)
    requires 0 < c && a * c <= b * c
    ensures a <= b
  {
    if b < a {
      MulMonotone(b + 1, a, c);
    }
  }

  /** Rounding down loses nothing an integer bound could see. */
  lemma FloorIff(q: int, a: nat, b: nat)
    requires b > 0
    ensures q <= FloorDiv(a, b) <==> q * b <= a
  {
    var f := FloorDiv(a, b);
    if q <= f {
      MulMonotone(q, f, b);
    } else {
      MulMonotone(f + 1, q, b);
    }
  }

  /** Rounding up loses nothing an integer bound could see. */
  lemma CeilIff(a: nat, b: nat, q: int)
    requires b > 0
    ensures CeilDiv(a, b) <= q <==> a <= q * b
  {
    var c := CeilDiv(a, b);
    if c <= q {
      MulMonotone(c, q, b);
    } else if c > 0 {
      MulMonotone(q, c - 1, b);
    }
  }
}
