/** European roulette: selections, odds, the wheel, and the edge of the zero. */
module Roulette {
  import opened Prelude
  import opened Money

  const POCKET_COUNT: nat := 37

  const RED_POCKETS: seq<int> := [1, 3, 5, 7, 9, 12, 14, 16, 18, 19, 21, 23, 25, 27, 30, 32, 34, 36]

  datatype BetType = Straight | Red | Black | Odd | Even | Low | High | Dozen | Column

  datatype Selection = Selection(kind: BetType, value: Option<int>)

  datatype SelectionError = TakesNoNumber | NeedsNumber | PocketOutOfRange | ThirdOutOfRange | NotOnTheWheel

  datatype Colour = RedColour | BlackColour | Green

  function PocketColour(pocket: int): Colour {
    if pocket == 0 then Green
    else if pocket in RED_POCKETS then RedColour
    else BlackColour
  }

  function Odds(kind: BetType): nat {
    match kind
    case Straight => 36 * BASIS_POINTS_ONE
    case Dozen => 3 * BASIS_POINTS_ONE
    case Column => 3 * BASIS_POINTS_ONE
    case _ => 2 * BASIS_POINTS_ONE
  }

  predicate NeedsValue(kind: BetType) {
    kind.Straight? || kind.Dozen? || kind.Column?
  }

  function AssertValidSelection(s: Selection): Result<(), SelectionError> {
    if !NeedsValue(s.kind) then
      if s.value.Some? then Err(TakesNoNumber) else Ok(())
    else if s.value.None? then Err(NeedsNumber)
    else if s.kind == Straight && (s.value.value < 0 || s.value.value > 36) then Err(PocketOutOfRange)
    else if s.kind != Straight && (s.value.value < 1 || s.value.value > 3) then Err(ThirdOutOfRange)
    else Ok(())
  }

  predicate ValidSelection(s: Selection) {
    AssertValidSelection(s).Ok?
  }

  /** Which selections are taken, and why the others are not. */
  lemma SelectionsAsListed(s: Selection)
    ensures var r := AssertValidSelection(s);
            (r == Err(TakesNoNumber) <==> !(s.kind.Straight? || s.kind.Dozen? || s.kind.Column?) && s.value.Some?) &&
            (r == Err(NeedsNumber) <==> (s.kind.Straight? || s.kind.Dozen? || s.kind.Column?) && s.value.None?) &&
            (r == Err(PocketOutOfRange) <==> s.kind.Straight? && s.value.Some? && !(0 <= s.value.value <= 36)) &&
            (r == Err(ThirdOutOfRange) <==>
               (s.kind.Dozen? || s.kind.Column?) && s.value.Some? && !(1 <= s.value.value <= 3)) &&
            r != Err(NotOnTheWheel)
  {
  }

  function OddsForSelection(s: Selection): Result<nat, SelectionError> {
    match AssertValidSelection(s)
    case Err(e) => Err(e)
    case Ok(_) => Ok(Odds(s.kind))
  }

  /** The payout rule, on a selection and a pocket already known to be valid. */
  predicate Wins(s: Selection, pocket: int)
    requires ValidSelection(s) && 0 <= pocket <= 36
  {
    match s.kind
    case Straight => pocket == s.value.value
    case Red => PocketColour(pocket) == RedColour
    case Black => PocketColour(pocket) == BlackColour
    case Odd => pocket != 0 && pocket % 2 == 1
    case Even => pocket != 0 && pocket % 2 == 0
    case Low => 1 <= pocket <= 18
    case High => 19 <= pocket <= 36
    case Dozen => pocket != 0 && (pocket + 11) / 12 == s.value.value
    case Column => pocket != 0 && (pocket - 1) % 3 + 1 == s.value.value
  }

  function SelectionWins(s: Selection, pocket: int): Result<bool, SelectionError> {
    match AssertValidSelection(s)
    case Err(e) => Err(e)
    case Ok(_) => if pocket < 0 || pocket > 36 then Err(NotOnTheWheel) else Ok(Wins(s, pocket))
  }

  /** The total return multiplier of a settled selection: its odds, or nothing. */
  function SettleSelection(s: Selection, pocket: int): nat
    requires ValidSelection(s) && 0 <= pocket <= 36
  {
    if Wins(s, pocket) then Odds(s.kind) else 0
  }

  // ---------------------------------------------------------------------------
  // The edge of the zero
  // ---------------------------------------------------------------------------

  datatype Wager = Wager(selection: Selection, stake: nat)

  function WinningPockets(s: Selection, n: nat): nat
    requires ValidSelection(s) && n <= POCKET_COUNT
  {
    if n == 0 then 0
    else WinningPockets(s, n - 1) + (if Wins(s, n - 1) then 1 else 0)
  }

  function Clamp(x: int, top: nat): nat {
    if x < 0 then 0 else if x > top then top else x
  }

  /** The red pockets as a rule: odd up to 10, even up to 18, then the same again. */
  predicate RedByRule(p: int) {
    if 1 <= p <= 10 || 19 <= p <= 28 then p % 2 == 1
    else (11 <= p <= 18 || 29 <= p <= 36) && p % 2 == 0
  }

  lemma RedMembership(p: int)
    requires 0 <= p <= 36
    ensures p in RED_POCKETS <==> RedByRule(p)
  {
    var reds := RED_POCKETS;
    assert reds == [1, 3, 5, 7, 9, 12, 14, 16, 18, 19, 21, 23, 25, 27, 30, 32, 34, 36];
    if RedByRule(p) {
      if p <= 10 { assert reds[(p - 1) / 2] == p; }
      else if p <= 18 { assert reds[(p - 12) / 2 + 5] == p; }
      else if p <= 28 { assert reds[(p - 19) / 2 + 9] == p; }
      else { assert reds[(p - 30) / 2 + 14] == p; }
    }
  }

  function RedBelow(n: nat): nat {
    if n <= 10 then n / 2
    else if n <= 19 then (n - 1) / 2
    else if n <= 28 then n / 2
    else (n - 1) / 2
  }

  /** The colours counted by the rule rather than from the table. */
  function ColouredBelow(red: bool, n: nat): nat {
    if n == 0 then 0
    else ColouredBelow(red, n - 1) + (if n - 1 != 0 && RedByRule(n - 1) == red then 1 else 0)
  }

  lemma ColourWins(s: Selection, p: int)
    requires ValidSelection(s) && 0 <= p <= 36 && (s.kind == Red || s.kind == Black)
    ensures Wins(s, p) <==> p != 0 && RedByRule(p) == (s.kind == Red)
  {
    RedMembership(p);
  }

  lemma {:induction false} ColourCountsAgree(s: Selection, n: nat)
    requires ValidSelection(s) && n <= POCKET_COUNT && (s.kind == Red || s.kind == Black)
    ensures WinningPockets(s, n) == ColouredBelow(s.kind == Red, n)
  {
    if n > 0 {
      ColourCountsAgree(s, n - 1);
      ColourWins(s, n - 1);
    }
  }

  lemma {:induction false} ColouredBelowClosed(red: bool, n: nat)
    requires n <= POCKET_COUNT
    ensures ColouredBelow(red, n) == if red then RedBelow(n) else Clamp(n - 1, 36) - RedBelow(n)
  {
    if n > 0 { ColouredBelowClosed(red, n - 1); }
  }

  lemma {:induction false} EvenMoneyPocketsBelow(s: Selection, n: nat)
    requires ValidSelection(s) && n <= POCKET_COUNT
    requires s.kind.Odd? || s.kind.Even? || s.kind.Low? || s.kind.High?
    ensures s.kind == Odd ==> WinningPockets(s, n) == n / 2
    ensures s.kind == Even ==> WinningPockets(s, n) == Clamp(n - 1, 36) / 2
    ensures s.kind == Low ==> WinningPockets(s, n) == Clamp(n - 1, 18)
    ensures s.kind == High ==> WinningPockets(s, n) == Clamp(n - 19, 18)
  {
    if n > 0 { EvenMoneyPocketsBelow(s, n - 1); }
  }

  lemma {:induction false} DozenPocketsBelow(s: Selection, n: nat)
    requires ValidSelection(s) && n <= POCKET_COUNT && s.kind.Dozen?
    ensures WinningPockets(s, n) == Clamp(n - 1 - 12 * (s.value.value - 1), 12)
  {
    if n > 0 { DozenPocketsBelow(s, n - 1); }
  }

  lemma {:induction false} ColumnPocketsBelow(s: Selection, n: nat)
    requires ValidSelection(s) && n <= POCKET_COUNT && s.kind.Column?
    ensures WinningPockets(s, n) == (Clamp(n - 1, 36) + 3 - s.value.value) / 3
  {
    if n > 0 {
      ColumnPocketsBelow(s, n - 1);
      if n > 1 { OneInThree(n - 2, s.value.value); }
    }
  }

  lemma OneInThree(a: nat, c: int)
    requires 1 <= c <= 3
    ensures (a + 1 + 3 - c) / 3 == (a + 3 - c) / 3 + (if a % 3 + 1 == c then 1 else 0)
  {
  }

  lemma {:induction false} StraightPocketsBelow(s: Selection, n: nat)
    requires ValidSelection(s) && n <= POCKET_COUNT && s.kind.Straight?
    ensures WinningPockets(s, n) == Clamp(n - s.value.value, 1)
  {
    if n > 0 { StraightPocketsBelow(s, n - 1); }
  }

  /** One pocket for a straight bet, twelve for a dozen or column, eighteen for the rest. */
  lemma WinningPocketsOnTheWheel(s: Selection, wheel: nat)
    requires ValidSelection(s) && wheel == POCKET_COUNT
    ensures WinningPockets(s, wheel) ==
            if s.kind.Straight? then 1 else if NeedsValue(s.kind) then 12 else 18
  {
    match s.kind
    case Red => ColourCountsAgree(s, wheel); ColouredBelowClosed(true, wheel);
    case Black => ColourCountsAgree(s, wheel); ColouredBelowClosed(false, wheel);
    case Straight => StraightPocketsBelow(s, wheel);
    case Dozen => DozenPocketsBelow(s, wheel);
    case Column => ColumnPocketsBelow(s, wheel);
    case _ => EvenMoneyPocketsBelow(s, wheel);
  }

  /** Whatever is backed, the pockets it wins on times its odds make exactly 36. */
  lemma EverySelectionPaysThirtySix(s: Selection, wheel: nat)
    requires ValidSelection(s) && wheel == POCKET_COUNT
    ensures WinningPockets(s, wheel) * Odds(s.kind) == 36 * BASIS_POINTS_ONE
  {
    var pockets, odds := WinningPockets(s, wheel), Odds(s.kind);
    WinningPocketsOnTheWheel(s, wheel);
    assert pockets == 1 ==> odds == 360_000;
    assert pockets == 12 ==> odds == 30_000;
    assert pockets == 18 ==> odds == 20_000;
  }

  predicate ValidWagers(ws: seq<Wager>) {
    forall i | 0 <= i < |ws| :: ValidSelection(ws[i].selection)
  }

  function Staked(ws: seq<Wager>): nat {
    if ws == [] then 0 else ws[0].stake + Staked(ws[1..])
  }

  /** What one spin pays the whole table. */
  function PaidOn(ws: seq<Wager>, pocket: int): nat
    requires ValidWagers(ws) && 0 <= pocket <= 36
  {
    if ws == [] then 0
    else Scale(ws[0].stake, SettleSelection(ws[0].selection, pocket)) + PaidOn(ws[1..], pocket)
  }

  /** The same table paid once for each of the first n pockets. */
  function PaidAcross(ws: seq<Wager>, n: nat): nat
    requires ValidWagers(ws) && n <= POCKET_COUNT
  {
    if n == 0 then 0 else PaidAcross(ws, n - 1) + PaidOn(ws, n - 1)
  }

  /** Odds are whole multiples, so no roulette payout is ever rounded. */
  lemma WholeOddsPayExactly(stake: nat, kind: BetType)
    ensures Scale(stake, Odds(kind)) * BASIS_POINTS_ONE == stake * Odds(kind)
  {
    var whole := Odds(kind) / BASIS_POINTS_ONE;
    assert stake * Odds(kind) == (stake * whole) * BASIS_POINTS_ONE;
  }

  lemma OneMore(count: nat, payout: nat)
    ensures (count + 1) * payout == count * payout + payout
  {
  }

  lemma {:induction false} OneWagerAcross(w: Wager, rest: seq<Wager>, n: nat)
    requires ValidSelection(w.selection) && ValidWagers(rest) && n <= POCKET_COUNT
    requires ValidWagers([w] + rest)
    ensures PaidAcross([w] + rest, n) ==
            WinningPockets(w.selection, n) * Scale(w.stake, Odds(w.selection.kind)) + PaidAcross(rest, n)
  {
    hide Scale, Odds, Wins, ValidSelection;
    if n > 0 {
      OneWagerAcross(w, rest, n - 1);
      assert ([w] + rest)[1..] == rest;
      OneMore(WinningPockets(w.selection, n - 1), Scale(w.stake, Odds(w.selection.kind)));
      NoOddsNoPayout(w.stake);
    }
  }

  lemma NoOddsNoPayout(stake: nat)
    ensures Scale(stake, 0) == 0
  {
    assert stake * 0 == 0;
  }

  lemma {:induction false} NothingAcrossEmptyTable(n: nat)
    requires n <= POCKET_COUNT
    ensures PaidAcross([], n) == 0
  {
    if n > 0 { NothingAcrossEmptyTable(n - 1); }
  }

  /**
   The edge is the zero and nothing else: across the 37 pockets any table of
   bets is paid exactly 36 times what was staked on it once, while it stakes 37
   times that, so the house keeps exactly one table's stakes.
   */
  lemma {:induction false} EdgeIsExactlyTheZero(ws: seq<Wager>, wheel: nat)
    requires ValidWagers(ws) && wheel == POCKET_COUNT
    ensures PaidAcross(ws, wheel) == 36 * Staked(ws)
    ensures wheel * Staked(ws) - PaidAcross(ws, wheel) == Staked(ws)
  {
    if ws == [] {
      NothingAcrossEmptyTable(wheel);
    } else {
      var w, rest := ws[0], ws[1..];
      assert ws == [w] + rest;
      EdgeIsExactlyTheZero(rest, wheel);
      OneWagerAcross(w, rest, wheel);
      EverySelectionPaysThirtySix(w.selection, wheel);
      WholeOddsPayExactly(w.stake, w.selection.kind);
      ExactShare(WinningPockets(w.selection, wheel), Scale(w.stake, Odds(w.selection.kind)),
                 w.stake, Odds(w.selection.kind));
    }
  }

  lemma ExactShare(count: nat, payout: nat, stake: nat, odds: nat)
    requires payout * BASIS_POINTS_ONE == stake * odds
    requires count * odds == 36 * BASIS_POINTS_ONE
    ensures count * payout == 36 * stake
  {
    assert (count * payout) * BASIS_POINTS_ONE == count * (stake * odds) == (count * odds) * stake;
  }

  // ---------------------------------------------------------------------------
  // The draw
  // ---------------------------------------------------------------------------

  function PocketFromDraw(draw: nat): nat {
    draw % POCKET_COUNT
  }

  function DrawsLandingOn(pocket: nat, draws: nat): nat {
    if draws == 0 then 0
    else DrawsLandingOn(pocket, draws - 1) + (if PocketFromDraw(draws - 1) == pocket then 1 else 0)
  }

  lemma {:induction false} LandingCount(pocket: nat, draws: nat)
    requires pocket < POCKET_COUNT
    ensures DrawsLandingOn(pocket, draws) == (draws + (POCKET_COUNT - 1 - pocket)) / POCKET_COUNT
  {
    if draws > 0 { LandingCount(pocket, draws - 1); }
  }

  /** The modulo bias: over any number of equally likely draws, no pocket leads by two. */
  lemma PocketsDifferByAtMostOne(p: nat, q: nat, draws: nat)
    requires p < POCKET_COUNT && q < POCKET_COUNT
    ensures DrawsLandingOn(p, draws) <= DrawsLandingOn(q, draws) + 1
  {
    LandingCount(p, draws);
    LandingCount(q, draws);
  }
}
