/**
 From a hash to a crash point, in exact integers, and what the draw leaves the
 house. `entropy` is the 52-bit slice of the hash as a number, `space` is how
 many values it can take.
 */
module Fairness {
  import opened Money
  import opened CrashCurve

  const INSTANT_BUST_DIVISOR: nat := 101
  const ENTROPY_SPACE: nat := 0x10_0000_0000_0000

  /** The draw in hundredths, before the clamp: 150 is 1.50x. */
  function RawDraw(space: nat, entropy: nat): nat
    requires entropy < space
  {
    (100 * space - entropy) / (space - entropy)
  }

  /** The draw without the bust roll, clamped to what the curve can show. */
  function DrawnCrashPoint(space: nat, entropy: nat): nat
    requires entropy < space
  {
    var bp := RawDraw(space, entropy) * (BASIS_POINTS_ONE / 100);
    if bp < BASIS_POINTS_ONE then BASIS_POINTS_ONE
    else if bp < MaxMultiplierBp() then bp
    else MaxMultiplierBp()
  }

  function CrashPoint(bustRoll: nat, space: nat, entropy: nat): nat
    requires entropy < space
  {
    if bustRoll % INSTANT_BUST_DIVISOR == 0 then BASIS_POINTS_ONE
    else DrawnCrashPoint(space, entropy)
  }

  /** The entropy is 52 bits. */
  lemma FiftyTwoBits()
    ensures ENTROPY_SPACE == Pow(2, 52)
  {
    PowAdds(2, 26, 26);
    PowAdds(2, 13, 13);
    assert Pow(2, 13) == 8_192;
  }

  /** Every drawn crash point is one the curve can actually show. */
  lemma CrashPointInRange(bustRoll: nat, space: nat, entropy: nat)
    requires entropy < space
    ensures BASIS_POINTS_ONE <= CrashPoint(bustRoll, space, entropy) <= MaxMultiplierBp()
  {
    var n := MAX_TICKS;
    CurveRises(0, n);
  }

  // ---------------------------------------------------------------------------
  // How often a target is reached
  // ---------------------------------------------------------------------------

  /** The least entropy that reaches k hundredths: ceil((k - 100) * space / (k - 1)). */
  function Threshold(space: nat, k: nat): nat
    requires k >= 100
  {
    ((k - 100) * space + (k - 2)) / (k - 1)
  }

  lemma CeilSpec(n: nat, d: nat, h: nat)
    requires d > 0
    ensures h >= (n + d - 1) / d <==> d * h >= n
  {
    var c := (n + d - 1) / d;
    assert c * d <= n + d - 1 < c * d + d;
    if h >= c {
      assert d * h >= d * c;
    } else {
      assert d * h <= d * (c - 1) == c * d - d;
    }
  }

  lemma FloorSpec(x: nat, d: nat, k: nat)
    requires d > 0
    ensures x / d >= k <==> x >= k * d
  {
    var q := x / d;
    assert q * d <= x < q * d + d;
    if q >= k {
      assert q * d >= k * d;
    } else {
      assert k * d >= (q + 1) * d;
    }
  }

  /** A draw reaches k hundredths exactly from the threshold entropy on. */
  lemma ReachesIffPastThreshold(space: nat, h: nat, k: nat)
    requires h < space && k >= 100
    ensures RawDraw(space, h) >= k <==> h >= Threshold(space, k)
  {
    FloorSpec(100 * space - h, space - h, k);
    CeilSpec((k - 100) * space, k - 1, h);
    hide *;
    Spread(k, space, h);
    Spread(space, k, 100);
    Spread(h, k, 1);
  }

  lemma Spread(a: int, b: int, c: int)
    ensures a * (b - c) == a * b - a * c == (b - c) * a
  {
  }

  /** How many of the first n entropy values reach k hundredths. */
  function CountReaching(space: nat, k: nat, n: nat): nat
    requires n <= space
  {
    if n == 0 then 0
    else CountReaching(space, k, n - 1) + (if RawDraw(space, n - 1) >= k then 1 else 0)
  }

  lemma {:induction false} CountUpTo(space: nat, k: nat, n: nat)
    requires n <= space && k >= 100
    ensures CountReaching(space, k, n) == if n >= Threshold(space, k) then n - Threshold(space, k) else 0
  {
    if n > 0 {
      CountUpTo(space, k, n - 1);
      ReachesIffPastThreshold(space, n - 1, k);
    }
  }

  lemma ThresholdBelowSpace(space: nat, k: nat)
    requires k >= 100
    ensures Threshold(space, k) <= space
    ensures (k - 100) * space <= (k - 1) * Threshold(space, k)
  {
    assert (k - 1) * space == (k - 100) * space + 99 * space;
    CeilSpec((k - 100) * space, k - 1, space);
    CeilSpec((k - 100) * space, k - 1, Threshold(space, k));
  }

  /** Exactly space - ceil((k - 100) * space / (k - 1)) entropy values reach k hundredths. */
  lemma ReachCount(space: nat, k: nat)
    requires k >= 100
    ensures CountReaching(space, k, space) == space - Threshold(space, k)
    ensures (k - 1) * CountReaching(space, k, space) <= 99 * space
  {
    ThresholdBelowSpace(space, k);
    CountUpTo(space, k, space);
    hide *;
    Spread(k - 1, space, Threshold(space, k));
    Spread(space, k, 1);
    Spread(space, k, 100);
  }

  /**
   The draw alone is break-even at 1.00x and nowhere else: at every higher
   target the entropy values that reach it return less than they cost.
   */
  lemma BreakEvenOnlyAtOne(space: nat, k: nat)
    requires space > 0 && k >= 100
    ensures k * CountReaching(space, k, space) == 100 * space <==> k == 100
    ensures k * CountReaching(space, k, space) <= 100 * space
  {
    ReachCount(space, k);
    var c := CountReaching(space, k, space);
    if k == 100 {
      assert Threshold(space, 100) == (0 * space + 98) / 99 == 0;
    } else {
      BelowBreakEven(space, k, c);
    }
  }

  lemma BelowBreakEven(space: nat, k: nat, c: nat)
    requires space > 0 && k > 100 && (k - 1) * c <= 99 * space
    ensures k * c < 100 * space
  {
    MulOrder(100, k - 1, c);
    assert k * c == (k - 1) * c + c;
  }

  // ---------------------------------------------------------------------------
  // The house bound
  // ---------------------------------------------------------------------------

  /** What one entropy value pays on a cash-out fixed at multiplier `m`. */
  function PayoutAt(space: nat, m: nat, stake: nat, entropy: nat): nat
    requires entropy < space
  {
    if m < DrawnCrashPoint(space, entropy) then Scale(stake, m) else 0
  }

  /** The total paid over the first n entropy values. */
  function TotalPaid(space: nat, m: nat, stake: nat, n: nat): nat
    requires n <= space
  {
    if n == 0 then 0
    else TotalPaid(space, m, stake, n - 1) + PayoutAt(space, m, stake, n - 1)
  }

  /** A cash-out at `m` beats the crash exactly when the draw reaches the next hundredth. */
  lemma PaysOnlyPastNextHundredth(space: nat, m: nat, stake: nat, h: nat)
    requires h < space && m >= BASIS_POINTS_ONE
    ensures PayoutAt(space, m, stake, h) ==
            if m < MaxMultiplierBp() && RawDraw(space, h) >= m / 100 + 1 then Scale(stake, m) else 0
  {
    FloorSpec(m, 100, RawDraw(space, h));
  }

  lemma OneMore(payout: nat, count: nat)
    ensures payout * (count + 1) == payout * count + payout
  {
  }

  lemma {:induction false} TotalPaidIsCountTimesPayout(space: nat, m: nat, stake: nat, n: nat)
    requires n <= space && m >= BASIS_POINTS_ONE
    ensures TotalPaid(space, m, stake, n) ==
            if m < MaxMultiplierBp() then Scale(stake, m) * CountReaching(space, m / 100 + 1, n) else 0
  {
    if n > 0 {
      TotalPaidIsCountTimesPayout(space, m, stake, n - 1);
      PaysOnlyPastNextHundredth(space, m, stake, n - 1);
      OneMore(Scale(stake, m), CountReaching(space, m / 100 + 1, n - 1));
    }
  }

  /** Ninety-nine times a multiplier is under 99.99% of a hundred times its whole hundredths. */
  lemma HundredthsArithmetic(m: nat, q: nat)
    requires q == m / 100 && q >= 100
    ensures 99 * m <= 9_999 * q
  {
  }

  lemma PaidForOneTarget(space: nat, m: nat, stake: nat, c: nat)
    requires m >= BASIS_POINTS_ONE && (m / 100) * c <= 99 * space
    ensures BASIS_POINTS_ONE * (Scale(stake, m) * c) <= 9_999 * (space * stake)
  {
    var p, q := Scale(stake, m), m / 100;
    HundredthsArithmetic(m, q);
    FloorTimes(stake, m, c);
    Rearrange(q, c, stake, m, space);
    CancelFactor(q, BASIS_POINTS_ONE * (p * c), 9_999 * (space * stake));
  }

  lemma FloorTimes(stake: nat, m: nat, c: nat)
    ensures BASIS_POINTS_ONE * (Scale(stake, m) * c) <= (stake * m) * c
  {
    var p := Scale(stake, m);
    assert BASIS_POINTS_ONE * p <= stake * m;
    MulOrder(BASIS_POINTS_ONE * p, stake * m, c);
    assert BASIS_POINTS_ONE * (p * c) == (BASIS_POINTS_ONE * p) * c;
  }

  lemma Rearrange(q: nat, c: nat, stake: nat, m: nat, space: nat)
    requires q * c <= 99 * space && 99 * m <= 9_999 * q
    ensures q * ((stake * m) * c) <= q * (9_999 * (space * stake))
  {
    var a := stake * m;
    assert q * (a * c) == (q * c) * a;
    MulOrder(q * c, 99 * space, a);
    assert (99 * space) * a == (99 * m) * (space * stake);
    MulOrder(99 * m, 9_999 * q, space * stake);
    assert (9_999 * q) * (space * stake) == q * (9_999 * (space * stake));
  }

  lemma CancelFactor(q: nat, a: nat, b: nat)
    requires q > 0 && q * a <= q * b
    ensures a <= b
  {
  }

  /**
   House bound: for every stake and every fixed cash-out tick, the payouts over
   all entropy values sum to at most 99.99% of what was staked over them.
   */
  lemma HouseBound(space: nat, tick: nat, stake: nat)
    ensures BASIS_POINTS_ONE * TotalPaid(space, MultiplierAtTick(tick), stake, space)
            <= 9_999 * (space * stake)
  {
    var m := MultiplierAtTick(tick);
    CurveRises(tick, tick);
    TotalPaidIsCountTimesPayout(space, m, stake, space);
    ReachCount(space, m / 100 + 1);
    PaidForOneTarget(space, m, stake, CountReaching(space, m / 100 + 1, space));
  }

  /** With anything at stake the bound is strict, here over the real 52-bit space. */
  lemma HouseAlwaysKeepsSomething(tick: nat, stake: nat)
    requires stake > 0
    ensures TotalPaid(ENTROPY_SPACE, MultiplierAtTick(tick), stake, ENTROPY_SPACE) < ENTROPY_SPACE * stake
  {
    var space := ENTROPY_SPACE;
    HouseBound(space, tick, stake);
    assert space * stake > 0;
  }

  // ---------------------------------------------------------------------------
  // The bust roll
  // ---------------------------------------------------------------------------

  /**
   One roll in a hundred and one busts whatever is drawn; every other shows at
   least k hundredths exactly from the threshold entropy on, in whole hundredths
   up to the top of the curve.
   */
  lemma RollThenDraw(roll: nat, space: nat, h: nat, k: nat)
    requires h < space && k >= 100 && 100 * k <= MaxMultiplierBp()
    ensures roll % 101 == 0 ==> CrashPoint(roll, space, h) == 10_000
    ensures roll % 101 != 0 ==> (CrashPoint(roll, space, h) >= 100 * k <==> h >= Threshold(space, k))
    ensures CrashPoint(roll, space, h) % 100 == 0 || CrashPoint(roll, space, h) == MaxMultiplierBp()
  {
    ReachesIffPastThreshold(space, h, k);
    DrawsAtLeastOne(space, h);
    hide RawDraw, Threshold, MultiplierAtTick, MaxMultiplierBp;
    ClampShows(RawDraw(space, h), k, MaxMultiplierBp());
  }

  /** The draw itself is never below 1.00x. */
  lemma DrawsAtLeastOne(space: nat, h: nat)
    requires h < space
    ensures RawDraw(space, h) >= 100
  {
    FloorSpec(100 * space - h, space - h, 100);
  }

  lemma ClampShows(raw: nat, k: nat, top: nat)
    requires raw >= 100 && k >= 100 && 100 * k <= top
    ensures var shown := if raw * 100 < 10_000 then 10_000 else if raw * 100 < top then raw * 100 else top;
            (shown >= 100 * k <==> raw >= k) && (shown % 100 == 0 || shown == top)
  {
  }

  /** And exactly from this entropy on, it shows the top of the curve. */
  lemma TopIffPastThreshold(roll: nat, space: nat, h: nat)
    requires h < space && roll % 101 != 0
    ensures var top := (MaxMultiplierBp() + 99) / 100;
            top >= 100 && (CrashPoint(roll, space, h) == MaxMultiplierBp() <==> h >= Threshold(space, top))
  {
    var n := MAX_TICKS;
    CurveRises(0, n);
    hide RawDraw, Threshold, MultiplierAtTick;
    ReachesIffPastThreshold(space, h, (MaxMultiplierBp() + 99) / 100);
    DrawsAtLeastOne(space, h);
    hide MaxMultiplierBp;
  }

  /** How many of the first n rolls end a round at 1.00x, for one entropy value. */
  function CrashesAtOne(space: nat, h: nat, n: nat): nat
    requires h < space
  {
    if n == 0 then 0 else CrashesAtOne(space, h, n - 1) + (if CrashPoint(n - 1, space, h) == 10_000 then 1 else 0)
  }

  /** Exactly ceil(n / 101) of them bust when the draw is above 1.00x, and all of them when it is not. */
  lemma {:induction false} BustCount(space: nat, h: nat, n: nat)
    requires h < space
    ensures CrashesAtOne(space, h, n) == if h >= Threshold(space, 101) then (n + 100) / 101 else n
  {
    if n > 0 {
      BustCount(space, h, n - 1);
      BustsOrDraws(space, h, n - 1);
    }
  }

  lemma BustsOrDraws(space: nat, h: nat, roll: nat)
    requires h < space
    ensures CrashPoint(roll, space, h) == 10_000 <==> roll % 101 == 0 || h < Threshold(space, 101)
  {
    var n := MAX_TICKS;
    TopIsAboveOne();
    RollThenDraw(roll, space, h, 101);
    RollThenDraw(roll, space, h, 100);
    CrashPointInRange(roll, space, h);
    hide CrashPoint, Threshold, MaxMultiplierBp;
  }

  lemma TopIsAboveOne()
    ensures MaxMultiplierBp() >= 10_200
  {
    var two, top := 2, MAX_TICKS;
    CurveRises(0, two);
    CurveRises(two, top);
  }

  /** What one roll and one entropy value pay on a cash-out fixed at multiplier `m`. */
  function RolledPayout(roll: nat, space: nat, m: nat, stake: nat, h: nat): nat
    requires h < space
  {
    if m < CrashPoint(roll, space, h) then Scale(stake, m) else 0
  }

  /** The total over the first n entropy values for one roll, and over the first rolls for all of them. */
  function TotalForRoll(roll: nat, space: nat, m: nat, stake: nat, n: nat): nat
    requires n <= space
  {
    if n == 0 then 0 else TotalForRoll(roll, space, m, stake, n - 1) + RolledPayout(roll, space, m, stake, n - 1)
  }

  function TotalOverRolls(rolls: nat, space: nat, m: nat, stake: nat): nat {
    if rolls == 0 then 0
    else TotalOverRolls(rolls - 1, space, m, stake) + TotalForRoll(rolls - 1, space, m, stake, space)
  }

  lemma {:induction false} RollPaysAllOrNothing(roll: nat, space: nat, m: nat, stake: nat, n: nat)
    requires n <= space && m >= 10_000
    ensures TotalForRoll(roll, space, m, stake, n) == if roll % 101 == 0 then 0 else TotalPaid(space, m, stake, n)
  {
    hide DrawnCrashPoint, Scale;
    if n > 0 { RollPaysAllOrNothing(roll, space, m, stake, n - 1); }
  }

  /** What the first rolls pay together when all but one in a hundred and one pay the total. */
  function Share(rolls: nat, total: nat): int {
    (rolls - (rolls + 100) / 101) * total
  }

  /** Over any number of rolls, the rolls that do not bust each pay what the draw alone pays. */
  lemma {:induction false} RollsTakeTheirShare(rolls: nat, space: nat, m: nat, stake: nat)
    requires m >= 10_000
    ensures TotalOverRolls(rolls, space, m, stake) == Share(rolls, TotalPaid(space, m, stake, space))
  {
    hide Share, TotalForRoll, TotalPaid;
    if rolls == 0 {
      NoRolls(TotalPaid(space, m, stake, space));
    } else {
      RollsTakeTheirShare(rolls - 1, space, m, stake);
      RollPaysAllOrNothing(rolls - 1, space, m, stake, space);
      OneMoreRoll(rolls, TotalPaid(space, m, stake, space));
    }
  }

  lemma NoRolls(total: nat)
    ensures Share(0, total) == 0
  {
  }

  lemma OneMoreRoll(rolls: nat, total: nat)
    requires rolls > 0
    ensures Share(rolls, total) == Share(rolls - 1, total) + (if (rolls - 1) % 101 == 0 then 0 else total)
  {
    BustsAmong(rolls);
    var kept := rolls - 1 - (rolls + 99) / 101;
    OneMore(total, kept);
    if (rolls - 1) % 101 == 0 {
      assert rolls - (rolls + 100) / 101 == kept;
    } else {
      assert rolls - (rolls + 100) / 101 == kept + 1;
    }
  }

  lemma BustsAmong(rolls: nat)
    requires rolls > 0
    ensures (rolls + 100) / 101 == (rolls + 99) / 101 + (if (rolls - 1) % 101 == 0 then 1 else 0)
    ensures (rolls + 99) / 101 <= rolls - 1
  {
  }

  /**
   The house bound with the bust roll: over a full period of 101 rolls and all
   entropy values, the payouts are exactly a hundred times those of the draw
   alone, so at most 100 * 99.99% of the 101 stakes made per entropy value.
   */
  lemma HouseBoundWithRoll(space: nat, tick: nat, stake: nat)
    ensures var m := MultiplierAtTick(tick);
            TotalOverRolls(101, space, m, stake) == 100 * TotalPaid(space, m, stake, space) &&
            10_000 * TotalOverRolls(101, space, m, stake) <= 100 * 9_999 * (space * stake)
  {
    var m := MultiplierAtTick(tick);
    CurveRises(tick, tick);
    HouseBound(space, tick, stake);
    RollsTakeTheirShare(101, space, m, stake);
    hide *;
    HundredOf(TotalOverRolls(101, space, m, stake), TotalPaid(space, m, stake, space), space * stake);
  }

  lemma HundredOf(rolled: nat, total: nat, staked: nat)
    requires rolled == Share(101, total) && 10_000 * total <= 9_999 * staked
    ensures rolled == 100 * total && 10_000 * rolled <= 100 * 9_999 * staked
  {
  }
}
