/**
 The crash curve: floor(10_000 * 101^n / 100^n) basis points after n ticks,
 capped at tick 694, and the binary search that inverts it.
 */
module CrashCurve {
  import opened Money

  const TICK_MS: nat := 100
  const MAX_TICKS: nat := 694

  function Pow(b: nat, n: nat): nat {
    if n == 0 then 1 else b * Pow(b, n - 1)
  }

  lemma {:induction false} PowPositive(b: nat, n: nat)
    requires b > 0
    ensures Pow(b, n) > 0
  {
    if n > 0 { PowPositive(b, n - 1); }
  }

  lemma {:induction false} PowOrder(b: nat, c: nat, n: nat)
    requires b <= c
    ensures Pow(b, n) <= Pow(c, n)
  {
    if n > 0 {
      PowOrder(b, c, n - 1);
      MulOrder(b, c, Pow(b, n - 1));
      MulOrder(Pow(b, n - 1), Pow(c, n - 1), c);
    }
  }

  /** The curve before the cap, for any number of ticks. */
  function Uncapped(n: nat): nat {
    PowPositive(100, n);
    BASIS_POINTS_ONE * Pow(101, n) / Pow(100, n)
  }

  function Capped(tick: nat): nat {
    if tick <= MAX_TICKS then tick else MAX_TICKS
  }

  function MultiplierAtTick(tick: nat): nat {
    Uncapped(Capped(tick))
  }

  /** The highest multiplier any round can reach. */
  function MaxMultiplierBp(): nat {
    MultiplierAtTick(MAX_TICKS)
  }

  function TickAtElapsed(elapsedMs: int): nat {
    if elapsedMs < 0 then 0 else elapsedMs / TICK_MS
  }

  function MultiplierAtElapsed(elapsedMs: int): nat {
    MultiplierAtTick(TickAtElapsed(elapsedMs))
  }

  // ---------------------------------------------------------------------------
  // Shape of the curve
  // ---------------------------------------------------------------------------

  lemma FlooredStep(x: nat, d: nat)
    requires d > 0 && x >= 10_000 * d
    ensures 101 * x / (100 * d) >= x / d + 100
  {
    var q := x / d;
    assert q * d <= x;
    assert 101 * x >= 100 * x + 10_000 * d >= 100 * (q * d) + 10_000 * d;
    assert 100 * (q * d) + 10_000 * d == (q + 100) * (100 * d);
    FloorAtLeast(101 * x, 100 * d, q + 100);
  }

  lemma FloorAtLeast(x: nat, d: nat, q: nat)
    requires d > 0 && q * d <= x
    ensures x / d >= q
  {
    var e := x / d;
    assert x < (e + 1) * d;
    if e + 1 <= q {
      MulOrder(e + 1, q, d);
    }
  }

  lemma MulOrder(a: nat, b: nat, d: nat)
    requires a <= b
    ensures a * d <= b * d
  {
  }

  /** Each tick up to the cap adds at least one hundredth: 100 basis points. */
  lemma TickAddsAHundredth(n: nat)
    ensures Uncapped(n + 1) >= Uncapped(n) + 100
  {
    PowPositive(100, n);
    PowOrder(100, 101, n);
    var x, d := BASIS_POINTS_ONE * Pow(101, n), Pow(100, n);
    assert Pow(101, n + 1) == 101 * Pow(101, n);
    assert Pow(100, n + 1) == 100 * d;
    assert BASIS_POINTS_ONE * Pow(101, n + 1) == 101 * x;
    FlooredStep(x, d);
  }

  lemma {:induction false} UncappedGrows(m: nat, n: nat)
    requires m <= n
    ensures Uncapped(n) >= Uncapped(m) + 100 * (n - m)
    decreases n - m
  {
    if m < n {
      UncappedGrows(m, n - 1);
      TickAddsAHundredth(n - 1);
    }
  }

  /** Powers are what repeated multiplication makes them. */
  lemma {:induction false} PowAdds(b: nat, m: nat, n: nat)
    ensures Pow(b, 0) == 1 && Pow(b, 1) == b && Pow(b, m + n) == Pow(b, m) * Pow(b, n)
  {
    if m > 0 {
      PowAdds(b, m - 1, n);
      assert Pow(b, m + n) == b * Pow(b, m - 1 + n);
      assert b * (Pow(b, m - 1) * Pow(b, n)) == (b * Pow(b, m - 1)) * Pow(b, n);
    }
  }

  /**
   The curve as published: after n ticks, at most 694, the one integer m with
   m <= 10_000 * 1.01^n < m + 1, and a tick is a tenth of a second.
   */
  lemma CurveIsTheFloor(elapsed: nat, m: nat)
    ensures var ticks := if elapsed / 100 <= 694 then elapsed / 100 else 694;
            m == MultiplierAtElapsed(elapsed) <==>
            m * Pow(100, ticks) <= 10_000 * Pow(101, ticks) < (m + 1) * Pow(100, ticks)
  {
    var ticks := if elapsed / 100 <= 694 then elapsed / 100 else 694;
    PowPositive(100, ticks);
    assert TickAtElapsed(elapsed) == elapsed / 100 && Capped(elapsed / 100) == ticks;
    hide Pow;
    FloorIs(10_000 * Pow(101, ticks), Pow(100, ticks), m);
  }

  lemma FloorIs(x: nat, d: nat, m: nat)
    requires d > 0
    ensures m == x / d <==> m * d <= x < (m + 1) * d
  {
    var q := x / d;
    assert q * d <= x < (q + 1) * d;
    if m < q { MulOrder(m + 1, q, d); }
    if m > q { MulOrder(q + 1, m, d); }
  }

  /** Before a round has started its clock, the curve shows 1.00x. */
  lemma CurveWaits(elapsed: int)
    ensures elapsed < 100 ==> MultiplierAtElapsed(elapsed) == 10_000
  {
    CurveStartsAtOne();
  }

  lemma CurveStartsAtOne()
    ensures Uncapped(0) == BASIS_POINTS_ONE
  {
  }

  /**
   Strictly rising by at least 100 basis points per tick up to the cap, flat
   after it, and never below 1.00x nor above the maximum.
   */
  lemma CurveRises(m: nat, n: nat)
    requires m <= n
    ensures MultiplierAtTick(n) >= MultiplierAtTick(m) + 100 * (Capped(n) - Capped(m))
    ensures BASIS_POINTS_ONE <= MultiplierAtTick(n) <= MaxMultiplierBp()
    ensures m >= MAX_TICKS ==> MultiplierAtTick(m) == MultiplierAtTick(n)
  {
    UncappedGrows(Capped(m), Capped(n));
    UncappedGrows(0, Capped(n));
    var cap := MAX_TICKS;
    UncappedGrows(Capped(n), cap);
    CurveStartsAtOne();
  }

  // ---------------------------------------------------------------------------
  // Inverting the curve
  // ---------------------------------------------------------------------------

  /** The least tick from `from` on, up to the cap, that reaches the target. */
  function FirstTickFrom(target: nat, from: nat): (t: nat)
    requires from <= MAX_TICKS
    ensures from <= t <= MAX_TICKS
    ensures forall k | from <= k < t :: MultiplierAtTick(k) < target
    ensures t < MAX_TICKS ==> MultiplierAtTick(t) >= target
    decreases MAX_TICKS - from
  {
    if from == MAX_TICKS || MultiplierAtTick(from) >= target then from
    else FirstTickFrom(target, from + 1)
  }

  /** When the curve first shows `bp`, found by trying every tick in turn. */
  function ElapsedAt(bp: nat): nat {
    if bp <= BASIS_POINTS_ONE then 0 else FirstTickFrom(bp, 0) * TICK_MS
  }

  /** The binary search finds exactly what the linear search would. */
  method ElapsedAtMultiplier(bp: nat) returns (elapsed: nat)
    ensures elapsed == ElapsedAt(bp)
  {
    if bp <= BASIS_POINTS_ONE {
      return 0;
    }
    var low: nat, high: nat := 0, MAX_TICKS;
    while low < high
      invariant low <= high <= MAX_TICKS
      invariant forall k: nat | k < low :: MultiplierAtTick(k) < bp
      invariant high < MAX_TICKS ==> MultiplierAtTick(high) >= bp
    {
      var mid := (low + high) / 2;
      if MultiplierAtTick(mid) >= bp {
        high := mid;
      } else {
        forall k: nat | k < mid + 1 ensures MultiplierAtTick(k) < bp {
          CurveRises(k, mid);
        }
        low := mid + 1;
      }
    }
    var t := FirstTickFrom(bp, 0);
    assert t == low;
    elapsed := low * TICK_MS;
  }

  /**
   The cash-out window and the resolver agree to the millisecond: the curve has
   reached a crash point exactly from the instant the engine resolves the round.
   */
  lemma WindowMatchesResolver(crashPoint: nat, elapsed: int)
    requires BASIS_POINTS_ONE <= crashPoint <= MaxMultiplierBp()
    requires elapsed >= 0
    ensures MultiplierAtElapsed(elapsed) >= crashPoint <==> elapsed >= ElapsedAt(crashPoint)
  {
    var tick := TickAtElapsed(elapsed);
    CurveRises(0, tick);
    if crashPoint > BASIS_POINTS_ONE {
      var t := FirstTickFrom(crashPoint, 0);
      assert MultiplierAtTick(t) >= crashPoint;
      if tick >= t {
        CurveRises(t, tick);
      }
      assert elapsed >= t * TICK_MS <==> tick >= t;
    }
  }

  /**
   Above the curve's maximum the search still answers, with the cap; the curve
   never gets there. Drawn crash points are clamped so that this cannot arise.
   */
  lemma WindowNeverClosesAboveTheCap(crashPoint: nat, elapsed: int)
    requires crashPoint > MaxMultiplierBp()
    ensures MultiplierAtElapsed(elapsed) < crashPoint
    ensures ElapsedAt(crashPoint) == MAX_TICKS * TICK_MS == 69_400
  {
    CurveRises(0, TickAtElapsed(elapsed));
    var t := FirstTickFrom(crashPoint, 0);
    var cap := MAX_TICKS;
    CurveRises(0, cap);
    if t < MAX_TICKS {
      CurveRises(t, t);
    }
  }
}
