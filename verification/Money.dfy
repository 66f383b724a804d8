/**
 Integer money: minor units and basis points.
 Rounding is a single floor, always towards the house.
 */
module Money {
  import opened Prelude

  /** 10_000 basis points are exactly 1.00x. */
  const BASIS_POINTS_ONE: nat := 10_000

  const MAX_SAFE_INTEGER: nat := 9_007_199_254_740_991

  datatype MoneyError = NegativeAmount | NegativeMultiplier | Unsafe

  function Negate(amount: int): int {
    0 - amount
  }

  /** The floored product, before the range checks. */
  function Scale(amount: nat, bp: nat): nat {
    amount * bp / BASIS_POINTS_ONE
  }

  function ApplyBasisPoints(amount: int, bp: int): (r: Result<nat, MoneyError>) {
    if amount < 0 then Err(NegativeAmount)
    else if bp < 0 then Err(NegativeMultiplier)
    else if Scale(amount, bp) > MAX_SAFE_INTEGER then Err(Unsafe)
    else Ok(Scale(amount, bp))
  }

  /** The result is the one integer p with p <= amount * bp / 10000 < p + 1. */
  lemma ScaleIsTheFloor(amount: nat, bp: nat, p: nat)
    ensures p == Scale(amount, bp) <==>
            p * 10_000 <= amount * bp < (p + 1) * 10_000
  {
  }

  /** A price is refused exactly for a negative input or a result beyond 2^53 - 1, and is the floor otherwise. */
  lemma PricesAreSafeOrRefused(amount: int, bp: int)
    ensures var r := ApplyBasisPoints(amount, bp);
            (r == Err(NegativeAmount) <==> amount < 0) &&
            (r == Err(NegativeMultiplier) <==> amount >= 0 && bp < 0) &&
            (r == Err(Unsafe) <==> amount >= 0 && bp >= 0 && amount * bp >= 9_007_199_254_740_992 * 10_000) &&
            (r.Ok? ==> r.value * 10_000 <= amount * bp < (r.value + 1) * 10_000)
  {
  }

  /** A multiplier of at least 1.00x never returns less than the stake. */
  lemma PayoutCoversStake(stake: nat, bp: nat)
    requires bp >= BASIS_POINTS_ONE
    ensures Scale(stake, bp) >= stake
  {
    assert stake * bp >= stake * BASIS_POINTS_ONE;
    ScaleIsTheFloor(stake, bp, Scale(stake, bp));
  }

  lemma ScaleMonotone(a: nat, b: nat, bp: nat, cp: nat)
    requires a <= b && bp <= cp
    ensures Scale(a, bp) <= Scale(b, cp)
  {
    assert a * bp <= b * bp <= b * cp;
  }

  function Whole(parts: seq<nat>): nat {
    if parts == [] then 0 else parts[0] + Whole(parts[1..])
  }

  function TotalScaled(parts: seq<nat>, bp: nat): nat {
    if parts == [] then 0 else Scale(parts[0], bp) + TotalScaled(parts[1..], bp)
  }

  /** Flooring the two halves of a stake loses at most one unit against flooring the whole. */
  lemma ScaleSplit(a: nat, b: nat, bp: nat)
    ensures Scale(a, bp) + Scale(b, bp) <= Scale(a + b, bp) <= Scale(a, bp) + Scale(b, bp) + 1
  {
    assert (a + b) * bp == a * bp + b * bp;
    ScaleIsTheFloor(a, bp, Scale(a, bp));
    ScaleIsTheFloor(b, bp, Scale(b, bp));
    ScaleIsTheFloor(a + b, bp, Scale(a + b, bp));
  }

  /**
   Splitting a stake never pays more: the parts' payouts sum to at most the
   whole's payout, and fall short of it by less than the number of parts.
   */
  lemma {:induction false} SplittingNeverLeaksUpward(parts: seq<nat>, bp: nat)
    requires parts != []
    ensures TotalScaled(parts, bp) <= Scale(Whole(parts), bp) < TotalScaled(parts, bp) + |parts|
  {
    if |parts| == 1 {
      assert Whole(parts[1..]) == 0 && TotalScaled(parts[1..], bp) == 0;
    } else {
      SplittingNeverLeaksUpward(parts[1..], bp);
      ScaleSplit(parts[0], Whole(parts[1..]), bp);
    }
  }
}
